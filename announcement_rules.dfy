/** The Announcements phase of the current engine (phases.cc): the
    declarer first calls a partner (the holder of the highest tarok the
    declarer lacks) or plays alone, then the players take turns declaring
    bonuses, doubling (contra) the other side's bonuses and redoubling
    (re-contra) their own, until the turn comes back to the last player
    who declared something. */
module AnnouncementRules {
  import opened Wrappers
  import opened Cards
  import opened TarokRecords
  import opened Decks
  import opened AnnouncementCodec

  const CallPartnerAction := 0
  const CallSelfAction := 1
  const MaxContraLevel := 5

  /** Type indices used by the rules. */
  const FourKingsIndex := 0
  const TuletroaIndex := 1
  const DoubleGameIndex := 2
  const VolatIndex := 3
  const EightTaroksIndex := 6
  const NineTaroksIndex := 7

  /** The tarok count per player that StartAnnouncementsPhase takes. */
  function TarokCounts(deck: Deck): (counts: IntQuad)
    ensures forall p :: 0 <= p < NumPlayers ==> counts[p] == CountAt(deck, p, NumTaroks)
  {
    [CountAt(deck, 0, NumTaroks), CountAt(deck, 1, NumTaroks),
     CountAt(deck, 2, NumTaroks), CountAt(deck, 3, NumTaroks)]
  }

  function StartAnnouncementsPhase(g: Game): Game
  {
    g.(announcements := DefaultAnnouncements.(currentPlayer := g.data.declarer,
                                              tarokCounts := TarokCounts(g.data.deck)))
  }

  function AnnouncementsCurrentPlayer(g: Game): int
  {
    g.announcements.currentPlayer
  }

  predicate AnnouncementsPhaseOver(g: Game)
  {
    g.announcements.currentPlayer == TerminalPlayerId
  }

  /** The declarer and, once called, the partner. */
  predicate IsDeclarerSidePlayer(data: GameData, p: int)
  {
    p == data.declarer || (data.partner.Some? && p == data.partner.value)
  }

  function CurrentSide(g: Game): AnnouncementSide
  {
    if IsDeclarerSidePlayer(g.data, g.announcements.currentPlayer) then g.data.declarerSide
    else g.data.opponentsSide
  }

  function OtherSide(g: Game): AnnouncementSide
  {
    if IsDeclarerSidePlayer(g.data, g.announcements.currentPlayer) then g.data.opponentsSide
    else g.data.declarerSide
  }

  /** Whether the mover may announce Tuletroa: never twice nor after the
      own side's Volat; in the first round the declarer needs Skiz after a
      full bid and otherwise both XXI and Skiz, and the partner one of the
      two. */
  predicate CanAnnounceTuletroa(g: Game)
  {
    var side := CurrentSide(g);
    var d := g.data;
    var cur := g.announcements.currentPlayer;
    var first := g.announcements.firstRound;
    if side.announced[TuletroaIndex] || side.announced[VolatIndex] then false
    else if d.fullBid && cur == d.declarer && first then d.deck[Skiz] == d.declarer
    else if cur == d.declarer && first then d.deck[XXI] == d.declarer && d.deck[Skiz] == d.declarer
    else if d.partner.Some? && cur == d.partner.value && first then
      d.deck[XXI] == d.partner.value || d.deck[Skiz] == d.partner.value
    else true
  }

  /** Whether the mover may announce type i. */
  predicate MayAnnounce(g: Game, i: int)
    requires 0 <= i < NumAnnouncementTypes
    requires 0 <= g.announcements.currentPlayer < NumPlayers
  {
    var side := CurrentSide(g);
    var taroks := g.announcements.tarokCounts[g.announcements.currentPlayer];
    !side.announced[i] &&
    if i == TuletroaIndex then CanAnnounceTuletroa(g)
    else if i == EightTaroksIndex then taroks == 8
    else if i == NineTaroksIndex then taroks == 9
    else if i == FourKingsIndex || i == DoubleGameIndex then !side.announced[VolatIndex]
    else true
  }

  /** Whether the mover may double the other side's announcement i. */
  predicate MayContra(g: Game, i: int)
    requires 0 <= i < NumAnnouncementTypes
  {
    var other := OtherSide(g);
    && i != EightTaroksIndex && i != NineTaroksIndex
    && other.announced[i] && other.contraLevel[i] % 2 == 0 && other.contraLevel[i] <= MaxContraLevel
  }

  /** Whether the mover may redouble its own side's doubled type i. */
  predicate MayReContra(g: Game, i: int)
    requires 0 <= i < NumAnnouncementTypes
  {
    var side := CurrentSide(g);
    side.contraLevel[i] % 2 == 1 && side.contraLevel[i] <= MaxContraLevel
  }

  /** The announce actions for types below n, ascending. */
  function AnnounceActions(g: Game, n: int): (actions: seq<int>)
    requires 0 <= n <= NumAnnouncementTypes
    requires 0 <= g.announcements.currentPlayer < NumPlayers
    ensures forall a :: a in actions <==> 0 <= a < n && MayAnnounce(g, a)
    ensures StrictlyAscending(actions)
    ensures forall k :: 0 <= k < |actions| ==> 0 <= actions[k] < n
  {
    if n == 0 then []
    else AnnounceActions(g, n - 1) + (if MayAnnounce(g, n - 1) then [n - 1] else [])
  }

  /** The contra actions for types below n, ascending. */
  function ContraActions(g: Game, n: int): (actions: seq<int>)
    requires 0 <= n <= NumAnnouncementTypes
    ensures forall a :: a in actions <==>
      NumAnnouncementTypes <= a < NumAnnouncementTypes + n && MayContra(g, a - NumAnnouncementTypes)
    ensures StrictlyAscending(actions)
    ensures forall k :: 0 <= k < |actions| ==>
      NumAnnouncementTypes <= actions[k] < NumAnnouncementTypes + n
  {
    if n == 0 then []
    else ContraActions(g, n - 1) + (if MayContra(g, n - 1) then [NumAnnouncementTypes + n - 1] else [])
  }

  /** The re-contra actions for types below n, ascending. */
  function ReContraActions(g: Game, n: int): (actions: seq<int>)
    requires 0 <= n <= NumAnnouncementTypes
    ensures forall a :: a in actions <==>
      2 * NumAnnouncementTypes <= a < 2 * NumAnnouncementTypes + n &&
      MayReContra(g, a - 2 * NumAnnouncementTypes)
    ensures StrictlyAscending(actions)
    ensures forall k :: 0 <= k < |actions| ==>
      2 * NumAnnouncementTypes <= actions[k] < 2 * NumAnnouncementTypes + n
  {
    if n == 0 then []
    else ReContraActions(g, n - 1) + (if MayReContra(g, n - 1) then [2 * NumAnnouncementTypes + n - 1] else [])
  }

  /** Before the call: call a partner, or play alone when holding XX.
      After it: the announcements, contras and re-contras allowed, then
      the pass. */
  function AnnouncementsLegalActions(g: Game): seq<int>
    requires !AnnouncementsPhaseOver(g) && 0 <= g.announcements.currentPlayer < NumPlayers
  {
    if !g.announcements.partnerCalled then
      if g.data.deck[MakeTarok(20)] == g.data.declarer then [CallPartnerAction, CallSelfAction]
      else [CallPartnerAction]
    else CalledActions(g)
  }

  /** After the call the legal actions are the announcements, contras
      and re-contras allowed, in that order, then the pass. */
  function CalledActions(g: Game): (actions: seq<int>)
    requires 0 <= g.announcements.currentPlayer < NumPlayers
  {
    AnnounceActions(g, NumAnnouncementTypes) + ContraActions(g, NumAnnouncementTypes)
    + ReContraActions(g, NumAnnouncementTypes) + [PassAction]
  }

  /** What the legal actions after the call mean. */
  lemma CalledActionsMeaning(g: Game, a: int)
    requires 0 <= g.announcements.currentPlayer < NumPlayers
    ensures a in CalledActions(g) <==>
      || (0 <= a < NumAnnouncementTypes && MayAnnounce(g, a))
      || (NumAnnouncementTypes <= a < 2 * NumAnnouncementTypes && MayContra(g, a - NumAnnouncementTypes))
      || (2 * NumAnnouncementTypes <= a < PassAction && MayReContra(g, a - 2 * NumAnnouncementTypes))
      || a == PassAction
  {
    var xs := AnnounceActions(g, NumAnnouncementTypes);
    var ys := ContraActions(g, NumAnnouncementTypes);
    var zs := ReContraActions(g, NumAnnouncementTypes);
    assert a in CalledActions(g) <==> a in xs || a in ys || a in zs || a == PassAction;
  }

  /** The legal actions after the call come ascending, each id once. */
  lemma CalledActionsAscending(g: Game)
    requires 0 <= g.announcements.currentPlayer < NumPlayers
    ensures StrictlyAscending(CalledActions(g))
  {
    var xs := AnnounceActions(g, NumAnnouncementTypes);
    var ys := ContraActions(g, NumAnnouncementTypes);
    var zs := ReContraActions(g, NumAnnouncementTypes);
    AscendingJoin(xs, ys, NumAnnouncementTypes, 2 * NumAnnouncementTypes);
    AscendingJoin(xs + ys, zs, 2 * NumAnnouncementTypes, PassAction);
    AscendingJoin(xs + ys + zs, [PassAction], PassAction, PassAction + 1);
  }

  /** Joining an ascending list below a bound to an ascending list from
      that bound up to an upper one keeps the join ascending and below the
      upper bound. */
  lemma AscendingJoin(xs: seq<int>, ys: seq<int>, bound: int, upper: int)
    requires StrictlyAscending(xs) && StrictlyAscending(ys)
    requires forall k :: 0 <= k < |xs| ==> xs[k] < bound
    requires forall k :: 0 <= k < |ys| ==> bound <= ys[k] < upper
    requires bound <= upper
    ensures StrictlyAscending(xs + ys)
    ensures forall k :: 0 <= k < |xs + ys| ==> (xs + ys)[k] < upper
  {
  }

  /** The highest tarok of rank at most r (card below r) the declarer
      does not hold, scanning down from rank r. */
  function HighestTarokNotHeld(deck: Deck, d: int, r: int): (card: Option<int>)
    requires 0 <= r <= NumTaroks
    ensures card.Some? ==>
      0 <= card.value < r && deck[card.value] != d &&
      forall c :: card.value < c < r ==> deck[c] == d
    ensures card.None? ==> forall c :: 0 <= c < r ==> deck[c] == d
  {
    if r == 0 then None
    else if deck[r - 1] != d then Some(r - 1)
    else HighestTarokNotHeld(deck, d, r - 1)
  }

  /** The partner the call selects: the hand holding the highest tarok up
      to XX the declarer lacks (none when that card is in a skart; the
      partner stays as it was when the declarer holds all twenty); nobody
      when the declarer plays alone. */
  function CalledPartner(g: Game, action: int): Option<int>
  {
    if action == CallPartnerAction then
      match HighestTarokNotHeld(g.data.deck, g.data.declarer, MakeTarok(20) + 1)
      case Some(card) =>
        if IsHandLocation(g.data.deck[card]) then Some(g.data.deck[card]) else None
      case None => g.data.partner
    else None
  }

  /** Each seat's side once the partner is known. */
  function SidesFor(d: int, partner: Option<int>): (sides: PlayerSides)
    ensures forall p :: 0 <= p < NumPlayers ==>
      (sides[p] == Declarer <==> p == d || (partner.Some? && p == partner.value))
  {
    var side := (p: int) => if p == d || (partner.Some? && p == partner.value) then Declarer else Opponents;
    [side(0), side(1), side(2), side(3)]
  }

  function AnnouncementsCallPartner(g: Game, action: int): Game
  {
    var partner := CalledPartner(g, action);
    g.(data := g.data.(partner := partner, playerSides := SidesFor(g.data.declarer, partner)),
       announcements := g.announcements.(partnerCalled := true, lastToSpeak := g.data.declarer))
  }

  /** Applies a declaration to a side's record. */
  function Declare(side: AnnouncementSide, i: int, raise: bool): AnnouncementSide
    requires 0 <= i < NumAnnouncementTypes
  {
    if raise then side.(contraLevel := side.contraLevel[i := side.contraLevel[i] + 1])
    else side.(announced := side.announced[i := true])
  }

  /** A declaration by the mover: announce and re-contra change the
      mover's own side, contra the other side; the mover becomes the last
      to speak and keeps the turn. */
  function AnnouncementsDeclare(g: Game, action: int): Game
    requires 0 <= action < PassAction
  {
    var a := FromAction(action);
    var i := TypeIndex(a.kind);
    var own := IsDeclarerSidePlayer(g.data, g.announcements.currentPlayer);
    var onDeclarers := if a.level == Contra then !own else own;
    var data :=
      if onDeclarers then g.data.(declarerSide := Declare(g.data.declarerSide, i, a.level != Announce))
      else g.data.(opponentsSide := Declare(g.data.opponentsSide, i, a.level != Announce));
    g.(data := data,
       announcements := g.announcements.(lastToSpeak := g.announcements.currentPlayer))
  }

  /** A pass moves the turn on; the phase ends when it reaches the last
      to speak, and the first round ends when it reaches the declarer. */
  function AnnouncementsPass(g: Game): Game
    requires 0 <= g.announcements.currentPlayer < NumPlayers
  {
    var s := g.announcements;
    var next := NextSeat(s.currentPlayer);
    var next' := if next == s.lastToSpeak then TerminalPlayerId else next;
    g.(announcements := s.(currentPlayer := next',
                           firstRound := if next' == g.data.declarer then false else s.firstRound))
  }

  function AnnouncementsDoApplyAction(g: Game, action: int): Game
    requires !AnnouncementsPhaseOver(g) && 0 <= g.announcements.currentPlayer < NumPlayers
    requires action in AnnouncementsLegalActions(g)
  {
    if !g.announcements.partnerCalled then AnnouncementsCallPartner(g, action)
    else if action == PassAction then AnnouncementsPass(g)
    else
      CalledActionsMeaning(g, action);
      AnnouncementsDeclare(g, action)
  }

  /** A side's record stays sane: each level is between 0 and 6, a type
      is doubled only once announced, and the tarok-count bonuses are never
      doubled. */
  predicate SideInv(side: AnnouncementSide)
  {
    forall i :: 0 <= i < NumAnnouncementTypes ==>
      && 0 <= side.contraLevel[i] <= MaxContraLevel + 1
      && (side.contraLevel[i] > 0 ==> side.announced[i])
      && (i == EightTaroksIndex || i == NineTaroksIndex ==> side.contraLevel[i] == 0)
  }

  /** The Announcements invariant: the seats are seats, the partner is a
      hand other than the declarer's, the sides agree with the partner once
      it is called, and until then the declarer holds the turn. */
  predicate AnnouncementsInv(g: Game)
  {
    var a := g.announcements;
    var d := g.data;
    && 0 <= d.declarer < NumPlayers
    && (a.currentPlayer == TerminalPlayerId || 0 <= a.currentPlayer < NumPlayers)
    && 0 <= a.lastToSpeak < NumPlayers
    && SideInv(d.declarerSide) && SideInv(d.opponentsSide)
    && (d.partner.Some? ==> 0 <= d.partner.value < NumPlayers && d.partner.value != d.declarer)
    && (a.partnerCalled ==>
          forall p :: 0 <= p < NumPlayers ==> (d.playerSides[p] == Declarer <==> IsDeclarerSidePlayer(d, p)))
    && (!a.partnerCalled ==> a.currentPlayer == d.declarer && d.partner == None)
  }

  lemma StartAnnouncementsInv(g: Game)
    requires 0 <= g.data.declarer < NumPlayers
    requires g.data.declarerSide == FreshAnnouncementSide() && g.data.opponentsSide == FreshAnnouncementSide()
    requires g.data.partner == None
    ensures AnnouncementsInv(StartAnnouncementsPhase(g))
  {
  }

  /** The call: calling a partner picks the holder of the highest tarok
      up to XX the declarer lacks, playing alone picks nobody; never the
      declarer; every seat's side follows; the declarer keeps the turn and
      counts as the last to speak. */
  lemma PartnerCallRules(g: Game, action: int)
    requires AnnouncementsInv(g) && !AnnouncementsPhaseOver(g) && !g.announcements.partnerCalled
    requires action in AnnouncementsLegalActions(g)
    ensures var h := AnnouncementsDoApplyAction(g, action);
      var d := g.data.declarer;
      var deck := g.data.deck;
      && AnnouncementsInv(h)
      && h.announcements.partnerCalled && h.announcements.currentPlayer == d
      && h.announcements.lastToSpeak == d
      && (action == CallSelfAction ==> h.data.partner == None && deck[MakeTarok(20)] == d)
      && (h.data.partner.Some? ==>
            var p := h.data.partner.value;
            && p != d && IsHandLocation(p)
            && exists c :: 0 <= c <= MakeTarok(20) && deck[c] == p &&
                 forall c' :: c < c' <= MakeTarok(20) ==> deck[c'] == d)
      && (forall p :: 0 <= p < NumPlayers ==>
            (h.data.playerSides[p] == Declarer <==> IsDeclarerSidePlayer(h.data, p)))
  {
    if action == CallPartnerAction {
      match HighestTarokNotHeld(g.data.deck, g.data.declarer, MakeTarok(20) + 1)
      case Some(card) =>
        if IsHandLocation(g.data.deck[card]) {
          assert g.data.deck[card] == AnnouncementsDoApplyAction(g, action).data.partner.value;
        }
      case None =>
    }
  }

  /** The budget of declarations a side can still receive: one per type
      not yet announced and one per doubling left below level 6. */
  function SideBudget(side: AnnouncementSide, n: int): int
    requires 0 <= n <= NumAnnouncementTypes
  {
    if n == 0 then 0
    else SideBudget(side, n - 1) + (if side.announced[n - 1] then 0 else 1)
         + (MaxContraLevel + 1 - side.contraLevel[n - 1])
  }

  lemma {:induction false} SideBudgetNonNegative(side: AnnouncementSide, n: int)
    requires SideInv(side) && 0 <= n <= NumAnnouncementTypes
    ensures SideBudget(side, n) >= 0
    decreases n
  {
    if n > 0 {
      SideBudgetNonNegative(side, n - 1);
    }
  }

  /** A declaration uses up exactly one unit of the side's budget. */
  lemma {:induction false} DeclareSpendsBudget(side: AnnouncementSide, i: int, raise: bool, n: int)
    requires 0 <= i < NumAnnouncementTypes && 0 <= n <= NumAnnouncementTypes
    requires !raise ==> !side.announced[i]
    ensures SideBudget(Declare(side, i, raise), n) == SideBudget(side, n) - (if i < n then 1 else 0)
    decreases n
  {
    if n > 0 {
      DeclareSpendsBudget(side, i, raise, n - 1);
    }
  }

  /** Passes left before the turn reaches the last to speak; a full
      circle when the mover is the last to speak, none once over. */
  function PassesLeft(g: Game): int
  {
    var cur := g.announcements.currentPlayer;
    if !(0 <= cur < NumPlayers) then 0
    else if cur == g.announcements.lastToSpeak then NumPlayers
    else Ahead(cur, g.announcements.lastToSpeak)
  }

  /** The measure that every action of the phase lowers: the call comes
      first, each declaration spends a unit of budget, and each pass
      brings the turn closer to the last to speak. */
  function AnnouncementsMeasure(g: Game): int
  {
    (if g.announcements.partnerCalled then 0 else 1000)
    + 5 * (SideBudget(g.data.declarerSide, NumAnnouncementTypes)
           + SideBudget(g.data.opponentsSide, NumAnnouncementTypes))
    + PassesLeft(g)
  }

  /** Every action keeps the invariant and lowers the measure, which never
      goes below zero: the phase always comes to an end. */
  lemma AnnouncementsStep(g: Game, action: int)
    requires AnnouncementsInv(g) && !AnnouncementsPhaseOver(g)
    requires action in AnnouncementsLegalActions(g)
    ensures var h := AnnouncementsDoApplyAction(g, action);
      && AnnouncementsInv(h)
      && 0 <= AnnouncementsMeasure(h) < AnnouncementsMeasure(g)
  {
    var h := AnnouncementsDoApplyAction(g, action);
    SideBudgetNonNegative(g.data.declarerSide, NumAnnouncementTypes);
    SideBudgetNonNegative(g.data.opponentsSide, NumAnnouncementTypes);
    if !g.announcements.partnerCalled {
      PartnerCallRules(g, action);
    } else if action == PassAction {
      var cur := g.announcements.currentPlayer;
      var last := g.announcements.lastToSpeak;
      if cur != last {
        AheadFromNextSeat(cur);
        assert Ahead(NextSeat(cur), last) == Ahead(cur, last) - 1;
      }
    } else {
      CalledActionsMeaning(g, action);
      DeclarationStep(g, action);
    }
  }

  /** A declaration spends one unit of budget of the side it changes and
      keeps both sides sane. */
  lemma DeclarationStep(g: Game, action: int)
    requires AnnouncementsInv(g) && !AnnouncementsPhaseOver(g) && g.announcements.partnerCalled
    requires 0 <= action < PassAction && action in CalledActions(g)
    ensures var h := AnnouncementsDeclare(g, action);
      && AnnouncementsInv(h)
      && SideBudget(h.data.declarerSide, NumAnnouncementTypes)
         + SideBudget(h.data.opponentsSide, NumAnnouncementTypes)
         == SideBudget(g.data.declarerSide, NumAnnouncementTypes)
            + SideBudget(g.data.opponentsSide, NumAnnouncementTypes) - 1
      && SideBudget(h.data.declarerSide, NumAnnouncementTypes) >= 0
      && SideBudget(h.data.opponentsSide, NumAnnouncementTypes) >= 0
      && h.announcements.currentPlayer == g.announcements.currentPlayer
      && h.announcements.lastToSpeak == g.announcements.currentPlayer
  {
    var a := FromAction(action);
    var i := TypeIndex(a.kind);
    CalledActionsMeaning(g, action);
    assert action == LevelIndex(a.level) * NumAnnouncementTypes + i;
    var own := IsDeclarerSidePlayer(g.data, g.announcements.currentPlayer);
    var onDeclarers := if a.level == Contra then !own else own;
    var side := if onDeclarers then g.data.declarerSide else g.data.opponentsSide;
    DeclareSpendsBudget(side, i, a.level != Announce, NumAnnouncementTypes);
    var side' := Declare(side, i, a.level != Announce);
    DeclareKeepsSideInv(side, i, a.level != Announce);
    SideBudgetNonNegative(side', NumAnnouncementTypes);
    SideBudgetNonNegative(g.data.declarerSide, NumAnnouncementTypes);
    SideBudgetNonNegative(g.data.opponentsSide, NumAnnouncementTypes);
  }

  /** A declaration keeps a side sane: announcing sets a flag, and a
      doubling, only of an announced type other than the tarok counts,
      stays within one past the highest level. */
  lemma DeclareKeepsSideInv(side: AnnouncementSide, i: int, raise: bool)
    requires SideInv(side) && 0 <= i < NumAnnouncementTypes
    requires raise ==> side.announced[i] && i != EightTaroksIndex && i != NineTaroksIndex
    requires raise ==> side.contraLevel[i] <= MaxContraLevel
    ensures SideInv(Declare(side, i, raise))
  {
  }
}
