/** The Announcements phase of the older class-per-phase engine
    (announcements.h, announcements.cc). The phase keeps its own two side
    records, and the partner it consults for sides is a private field that
    nothing ever sets: every seat but the declarer speaks for the
    opponents. The call writes the holder of the highest tarok the
    declarer lacks into the game data whatever that location is, there is
    no Volat block, and the Eight and Nine Taroks bonuses can be doubled. */
module SnapshotAnnouncements {
  import opened Wrappers
  import opened Cards
  import opened TarokRecords
  import opened Decks
  import opened AnnouncementCodec
  import AnnouncementRules

  /** The fields of an AnnouncementsPhase object, with the game data it
      works on. partner is the private field of the class, not the game
      data's partner. Levels only ever go up from 0, so the remainders
      taken of them are those of the source. */
  datatype Talk = Talk(
    data: GameData,
    currentPlayer: int,
    declarerSide: AnnouncementSide,
    opponentsSide: AnnouncementSide,
    partnerCalled: bool,
    partner: Option<int>,
    lastToSpeak: int,
    firstRound: bool,
    tarokCounts: IntQuad)

  /** The constructor: the declarer holds the turn and the taroks in each
      hand are counted. The source leaves last_to_speak_ without a value;
      it is a parameter here, and the call sets it before it is read. */
  function StartTalk(data: GameData, lastToSpeak0: int): Talk
  {
    Talk(data, data.declarer, FreshAnnouncementSide(), FreshAnnouncementSide(), false, None,
         lastToSpeak0, true, AnnouncementRules.TarokCounts(data.deck))
  }

  predicate TalkOver(s: Talk)
  {
    s.currentPlayer == TerminalPlayerId
  }

  /** Whether the mover speaks for the declarer's side, judged by the
      private partner field. */
  predicate SpeaksForDeclarer(s: Talk)
  {
    s.currentPlayer == s.data.declarer || (s.partner.Some? && s.currentPlayer == s.partner.value)
  }

  function CurrentSide(s: Talk): AnnouncementSide
  {
    if SpeaksForDeclarer(s) then s.declarerSide else s.opponentsSide
  }

  function OtherSide(s: Talk): AnnouncementSide
  {
    if SpeaksForDeclarer(s) then s.opponentsSide else s.declarerSide
  }

  /** Whether the mover may announce Tuletroa: never twice; in the first
      round the declarer needs Skiz after a full bid and otherwise both XXI
      and Skiz, and the game data's partner one of the two. */
  predicate CanAnnounceTuletroa(s: Talk)
  {
    var d := s.data;
    var cur := s.currentPlayer;
    if CurrentSide(s).announced[AnnouncementRules.TuletroaIndex] then false
    else if d.fullBid && cur == d.declarer && s.firstRound then d.deck[Skiz] == d.declarer
    else if cur == d.declarer && s.firstRound then d.deck[XXI] == d.declarer && d.deck[Skiz] == d.declarer
    else if d.partner.Some? && cur == d.partner.value && s.firstRound then
      d.deck[XXI] == d.partner.value || d.deck[Skiz] == d.partner.value
    else true
  }

  /** Whether the mover may announce type i. */
  predicate MayAnnounce(s: Talk, i: int)
    requires 0 <= i < NumAnnouncementTypes
    requires 0 <= s.currentPlayer < NumPlayers
  {
    var taroks := s.tarokCounts[s.currentPlayer];
    !CurrentSide(s).announced[i] &&
    if i == AnnouncementRules.TuletroaIndex then CanAnnounceTuletroa(s)
    else if i == AnnouncementRules.EightTaroksIndex then taroks == 8
    else if i == AnnouncementRules.NineTaroksIndex then taroks == 9
    else true
  }

  /** Whether the mover may double the other side's announcement i. */
  predicate MayContra(s: Talk, i: int)
    requires 0 <= i < NumAnnouncementTypes
  {
    var other := OtherSide(s);
    other.announced[i] && other.contraLevel[i] % 2 == 0
    && other.contraLevel[i] <= AnnouncementRules.MaxContraLevel
  }

  /** Whether the mover may redouble its own side's doubled type i. */
  predicate MayReContra(s: Talk, i: int)
    requires 0 <= i < NumAnnouncementTypes
  {
    var side := CurrentSide(s);
    side.contraLevel[i] % 2 == 1 && side.contraLevel[i] <= AnnouncementRules.MaxContraLevel
  }

  /** The announce actions for types below n, ascending. */
  function AnnounceActions(s: Talk, n: int): (actions: seq<int>)
    requires 0 <= n <= NumAnnouncementTypes
    requires 0 <= s.currentPlayer < NumPlayers
    ensures forall a :: a in actions <==> 0 <= a < n && MayAnnounce(s, a)
    ensures StrictlyAscending(actions)
    ensures forall k :: 0 <= k < |actions| ==> 0 <= actions[k] < n
  {
    if n == 0 then []
    else AnnounceActions(s, n - 1) + (if MayAnnounce(s, n - 1) then [n - 1] else [])
  }

  /** The contra actions for types below n, ascending. */
  function ContraActions(s: Talk, n: int): (actions: seq<int>)
    requires 0 <= n <= NumAnnouncementTypes
    ensures forall a :: a in actions <==>
      NumAnnouncementTypes <= a < NumAnnouncementTypes + n && MayContra(s, a - NumAnnouncementTypes)
    ensures StrictlyAscending(actions)
    ensures forall k :: 0 <= k < |actions| ==>
      NumAnnouncementTypes <= actions[k] < NumAnnouncementTypes + n
  {
    if n == 0 then []
    else ContraActions(s, n - 1) + (if MayContra(s, n - 1) then [NumAnnouncementTypes + n - 1] else [])
  }

  /** The re-contra actions for types below n, ascending. */
  function ReContraActions(s: Talk, n: int): (actions: seq<int>)
    requires 0 <= n <= NumAnnouncementTypes
    ensures forall a :: a in actions <==>
      2 * NumAnnouncementTypes <= a < 2 * NumAnnouncementTypes + n &&
      MayReContra(s, a - 2 * NumAnnouncementTypes)
    ensures StrictlyAscending(actions)
    ensures forall k :: 0 <= k < |actions| ==>
      2 * NumAnnouncementTypes <= actions[k] < 2 * NumAnnouncementTypes + n
  {
    if n == 0 then []
    else ReContraActions(s, n - 1) + (if MayReContra(s, n - 1) then [2 * NumAnnouncementTypes + n - 1] else [])
  }

  /** After the call: the announcements, contras and re-contras allowed,
      in that order, then the pass. */
  function CalledActions(s: Talk): seq<int>
    requires 0 <= s.currentPlayer < NumPlayers
  {
    AnnounceActions(s, NumAnnouncementTypes) + ContraActions(s, NumAnnouncementTypes)
    + ReContraActions(s, NumAnnouncementTypes) + [PassAction]
  }

  /** LegalActions: before the call, call a partner, or play alone when
      holding XX; after it, CalledActions. */
  function TalkLegalActions(s: Talk): seq<int>
    requires 0 <= s.currentPlayer < NumPlayers
  {
    if !s.partnerCalled then
      if s.data.deck[MakeTarok(20)] == s.data.declarer
      then [AnnouncementRules.CallPartnerAction, AnnouncementRules.CallSelfAction]
      else [AnnouncementRules.CallPartnerAction]
    else CalledActions(s)
  }

  /** What the legal actions after the call mean. */
  lemma CalledActionsMeaning(s: Talk, a: int)
    requires 0 <= s.currentPlayer < NumPlayers
    ensures a in CalledActions(s) <==>
      || (0 <= a < NumAnnouncementTypes && MayAnnounce(s, a))
      || (NumAnnouncementTypes <= a < 2 * NumAnnouncementTypes && MayContra(s, a - NumAnnouncementTypes))
      || (2 * NumAnnouncementTypes <= a < PassAction && MayReContra(s, a - 2 * NumAnnouncementTypes))
      || a == PassAction
  {
    var xs := AnnounceActions(s, NumAnnouncementTypes);
    var ys := ContraActions(s, NumAnnouncementTypes);
    var zs := ReContraActions(s, NumAnnouncementTypes);
    assert a in CalledActions(s) <==> a in xs || a in ys || a in zs || a == PassAction;
  }

  /** The legal actions after the call come ascending, each id once, as
      the separate loops of the source intend. */
  lemma CalledActionsAscending(s: Talk)
    requires 0 <= s.currentPlayer < NumPlayers
    ensures StrictlyAscending(CalledActions(s))
  {
    var xs := AnnounceActions(s, NumAnnouncementTypes);
    var ys := ContraActions(s, NumAnnouncementTypes);
    var zs := ReContraActions(s, NumAnnouncementTypes);
    AnnouncementRules.AscendingJoin(xs, ys, NumAnnouncementTypes, 2 * NumAnnouncementTypes);
    AnnouncementRules.AscendingJoin(xs + ys, zs, 2 * NumAnnouncementTypes, PassAction);
    AnnouncementRules.AscendingJoin(xs + ys + zs, [PassAction], PassAction, PassAction + 1);
  }

  /** The location the call writes into the game data's partner: the
      location of the highest tarok up to XX the declarer lacks, hand or
      not; the partner is left as it was when the declarer holds them all. */
  function CalledLocation(s: Talk): Option<int>
    requires 0 <= s.data.declarer < NumPlayers
  {
    match AnnouncementRules.HighestTarokNotHeld(s.data.deck, s.data.declarer, MakeTarok(20) + 1)
    case Some(card) => Some(s.data.deck[card])
    case None => s.data.partner
  }

  /** The call: the game data's partner is set on a call (and must then
      have a value), left alone when playing alone; the seat after the
      declarer speaks next and the declarer counts as the last to speak. */
  function CallPartner(s: Talk, action: int): Talk
    requires 0 <= s.data.declarer < NumPlayers
    requires action == AnnouncementRules.CallPartnerAction ==> CalledLocation(s).Some?
  {
    var partner := if action == AnnouncementRules.CallPartnerAction then CalledLocation(s) else s.data.partner;
    s.(data := s.data.(partner := partner),
       partnerCalled := true,
       currentPlayer := NextSeat(s.data.declarer),
       lastToSpeak := s.data.declarer)
  }

  /** A pass moves the turn on; the phase ends when it reaches the last to
      speak, and the first round ends when it reaches the declarer. */
  function Pass(s: Talk): Talk
    requires 0 <= s.currentPlayer < NumPlayers
  {
    var next := NextSeat(s.currentPlayer);
    var next' := if next == s.lastToSpeak then TerminalPlayerId else next;
    s.(currentPlayer := next', firstRound := if next' == s.data.declarer then false else s.firstRound)
  }

  /** A declaration: announce and re-contra change the mover's side,
      contra the other side; the mover becomes the last to speak. */
  function Speak(s: Talk, action: int): Talk
    requires 0 <= action < PassAction
  {
    var a := FromAction(action);
    var i := TypeIndex(a.kind);
    var own := SpeaksForDeclarer(s);
    var onDeclarers := if a.level == Contra then !own else own;
    var s' :=
      if onDeclarers then s.(declarerSide := AnnouncementRules.Declare(s.declarerSide, i, a.level != Announce))
      else s.(opponentsSide := AnnouncementRules.Declare(s.opponentsSide, i, a.level != Announce));
    s'.(lastToSpeak := s.currentPlayer)
  }

  /** DoApplyAction, on a legal action; a call that finds no partner
      fails the source's check, so it is excluded. */
  function Apply(s: Talk, action: int): Talk
    requires !TalkOver(s) && 0 <= s.currentPlayer < NumPlayers && 0 <= s.data.declarer < NumPlayers
    requires action in TalkLegalActions(s)
    requires !s.partnerCalled && action == AnnouncementRules.CallPartnerAction ==> CalledLocation(s).Some?
  {
    if !s.partnerCalled then CallPartner(s, action)
    else if action == PassAction then Pass(s)
    else
      CalledActionsMeaning(s, action);
      Speak(s, action)
  }

  /** A side's record: each level between 0 and 6, and doubled only once
      announced. Unlike the current engine, Eight and Nine Taroks may carry
      levels too. */
  predicate LevelsInv(side: AnnouncementSide)
  {
    forall i :: 0 <= i < NumAnnouncementTypes ==>
      0 <= side.contraLevel[i] <= AnnouncementRules.MaxContraLevel + 1
      && (side.contraLevel[i] > 0 ==> side.announced[i])
  }

  /** The phase invariant: seats are seats, the private partner stays
      unset, both records are sane, the declarer holds the turn until the
      call and the last to speak is a seat after it. */
  predicate TalkInv(s: Talk)
  {
    && 0 <= s.data.declarer < NumPlayers
    && (s.currentPlayer == TerminalPlayerId || 0 <= s.currentPlayer < NumPlayers)
    && s.partner == None
    && LevelsInv(s.declarerSide) && LevelsInv(s.opponentsSide)
    && (!s.partnerCalled ==> s.currentPlayer == s.data.declarer)
    && (s.partnerCalled ==> 0 <= s.lastToSpeak < NumPlayers)
  }

  lemma StartTalkInv(data: GameData, lastToSpeak0: int)
    requires 0 <= data.declarer < NumPlayers
    ensures TalkInv(StartTalk(data, lastToSpeak0))
  {
  }

  /** A declaration keeps both records sane and leaves the turn with the
      mover, who becomes the last to speak. */
  lemma SpeakStep(s: Talk, action: int)
    requires TalkInv(s) && !TalkOver(s) && s.partnerCalled
    requires 0 <= action < PassAction && action in CalledActions(s)
    ensures TalkInv(Speak(s, action))
    ensures Speak(s, action).currentPlayer == s.currentPlayer
    ensures Speak(s, action).lastToSpeak == s.currentPlayer
  {
    CalledActionsMeaning(s, action);
    ActionParts(action);
    var a := FromAction(action);
    var i := TypeIndex(a.kind);
    if a.level == Announce {
      DeclareKeepsLevels(CurrentSide(s), i, false);
    } else if a.level == Contra {
      assert MayContra(s, i);
      DeclareKeepsLevels(OtherSide(s), i, true);
    } else {
      assert MayReContra(s, i);
      DeclareKeepsLevels(CurrentSide(s), i, true);
    }
  }

  /** Announcing, or raising a level that is announced and not yet at the
      cap, keeps a record sane. */
  lemma DeclareKeepsLevels(side: AnnouncementSide, i: int, raise: bool)
    requires LevelsInv(side) && 0 <= i < NumAnnouncementTypes
    requires raise ==> side.announced[i] && side.contraLevel[i] <= AnnouncementRules.MaxContraLevel
    ensures LevelsInv(AnnouncementRules.Declare(side, i, raise))
  {
  }

  /** Every legal action keeps the invariant. */
  lemma TalkStep(s: Talk, action: int)
    requires TalkInv(s) && !TalkOver(s)
    requires action in TalkLegalActions(s)
    requires !s.partnerCalled && action == AnnouncementRules.CallPartnerAction ==> CalledLocation(s).Some?
    ensures TalkInv(Apply(s, action))
    ensures Apply(s, action).partner == None
  {
    if s.partnerCalled && action != PassAction {
      CalledActionsMeaning(s, action);
      SpeakStep(s, action);
    }
  }

  /** With the private partner unset, only the declarer speaks for the
      declarer's side: the called partner's announcement lands on the
      opponents' record, though the current engine counts that seat on
      the declarer's side. */
  lemma PartnerSpeaksForOpponents(s: Talk)
    requires TalkInv(s) && s.partnerCalled && 0 <= s.currentPlayer < NumPlayers
    requires s.data.partner == Some(s.currentPlayer) && s.currentPlayer != s.data.declarer
    requires !s.opponentsSide.announced[4]
    ensures !SpeaksForDeclarer(s)
    ensures AnnouncementRules.IsDeclarerSidePlayer(s.data, s.currentPlayer)
    ensures 4 in TalkLegalActions(s)
    ensures Apply(s, 4).opponentsSide.announced[4] && Apply(s, 4).declarerSide == s.declarerSide
  {
    CalledActionsMeaning(s, 4);
  }

  /** Eight Taroks announced by the other side can be doubled, and the
      doubled record breaks the current engine's side invariant, which
      never lets the tarok-count bonuses be doubled. */
  lemma TarokBonusContra(s: Talk, g: Game)
    requires TalkInv(s) && s.partnerCalled && 0 <= s.currentPlayer < NumPlayers
    requires OtherSide(s).announced[AnnouncementRules.EightTaroksIndex]
    requires OtherSide(s).contraLevel[AnnouncementRules.EightTaroksIndex] == 0
    ensures ContraAction(EightTaroks) in TalkLegalActions(s)
    ensures OtherSide(Apply(s, ContraAction(EightTaroks)))
              .contraLevel[AnnouncementRules.EightTaroksIndex] == 1
    ensures !AnnouncementRules.SideInv(OtherSide(Apply(s, ContraAction(EightTaroks))))
    ensures !AnnouncementRules.MayContra(g, AnnouncementRules.EightTaroksIndex)
  {
    var action := ContraAction(EightTaroks);
    assert action == 14;
    CalledActionsMeaning(s, action);
    assert FromAction(action) == AnnouncementAction(EightTaroks, Contra);
  }

  /** There is no Volat block: a side that announced Volat may still
      announce Four Kings, which the current engine refuses. */
  lemma NoVolatBlock(s: Talk, g: Game)
    requires TalkInv(s) && s.partnerCalled && 0 <= s.currentPlayer < NumPlayers
    requires CurrentSide(s).announced[AnnouncementRules.VolatIndex]
    requires !CurrentSide(s).announced[AnnouncementRules.FourKingsIndex]
    requires 0 <= g.announcements.currentPlayer < NumPlayers
    requires AnnouncementRules.CurrentSide(g).announced[AnnouncementRules.VolatIndex]
    ensures AnnounceAction(FourKings) in TalkLegalActions(s)
    ensures !AnnouncementRules.MayAnnounce(g, AnnouncementRules.FourKingsIndex)
  {
    assert AnnounceAction(FourKings) == 0;
    CalledActionsMeaning(s, 0);
  }

  /** The call names the location of the highest tarok up to XX the
      declarer lacks, whatever it is: with XX in the opponents' skart the
      game data's partner becomes that skart, where the current engine
      records no partner. The seat after the declarer speaks next. */
  lemma CallNamesAnyLocation(s: Talk, g: Game)
    requires TalkInv(s) && !s.partnerCalled
    requires s.data.deck[MakeTarok(20)] == OpponentsSkart
    requires g.data.deck == s.data.deck && g.data.declarer == s.data.declarer
    ensures AnnouncementRules.CallPartnerAction in TalkLegalActions(s)
    ensures CalledLocation(s) == Some(OpponentsSkart)
    ensures Apply(s, AnnouncementRules.CallPartnerAction).data.partner == Some(OpponentsSkart)
    ensures Apply(s, AnnouncementRules.CallPartnerAction).currentPlayer == NextSeat(s.data.declarer)
    ensures AnnouncementRules.CalledPartner(g, AnnouncementRules.CallPartnerAction) == None
  {
  }

  /** A pass of the older class moves the turn exactly as a pass of the
      current engine does. */
  lemma PassMatchesEngine(s: Talk, g: Game)
    requires 0 <= s.currentPlayer < NumPlayers
    requires g.announcements.currentPlayer == s.currentPlayer
    requires g.announcements.lastToSpeak == s.lastToSpeak
    requires g.announcements.firstRound == s.firstRound && g.data.declarer == s.data.declarer
    ensures var h := AnnouncementRules.AnnouncementsPass(g);
      && Pass(s).currentPlayer == h.announcements.currentPlayer
      && Pass(s).firstRound == h.announcements.firstRound
  {
  }

  /** An AnnouncementsPhase object. */
  class AnnouncementsPhase {
    var data: GameData
    var currentPlayer: int
    var declarerSide: AnnouncementSide
    var opponentsSide: AnnouncementSide
    var partnerCalled: bool
    var partner: Option<int>
    var lastToSpeak: int
    var firstRound: bool
    var tarokCounts: IntQuad

    function Value(): Talk
      reads this
    {
      Talk(data, currentPlayer, declarerSide, opponentsSide, partnerCalled, partner,
           lastToSpeak, firstRound, tarokCounts)
    }

    /** Counts each hand's taroks over the whole deck. */
    constructor (gameData: GameData, lastToSpeak0: int)
      ensures Value() == StartTalk(gameData, lastToSpeak0)
    {
      data := gameData;
      currentPlayer := gameData.declarer;
      declarerSide := FreshAnnouncementSide();
      opponentsSide := FreshAnnouncementSide();
      partnerCalled := false;
      partner := None;
      lastToSpeak := lastToSpeak0;
      firstRound := true;
      var counts: IntQuad := ZeroQuad;
      for card := 0 to DeckSize
        invariant forall p :: 0 <= p < NumPlayers ==>
          counts[p] == CountAt(gameData.deck, p, if card < NumTaroks then card else NumTaroks)
      {
        if CardSuit(card) == Tarok {
          var owner := gameData.deck[card];
          if 0 <= owner < NumPlayers {
            counts := counts[owner := counts[owner] + 1];
          }
        }
      }
      tarokCounts := counts;
    }

    function CurrentPlayer(): int
      reads this
    {
      currentPlayer
    }

    predicate PhaseOver()
      reads this
    {
      TalkOver(Value())
    }

    function LegalActions(): seq<int>
      reads this
      requires !PhaseOver() && 0 <= currentPlayer < NumPlayers
    {
      TalkLegalActions(Value())
    }

    method DoApplyAction(action: int)
      requires !PhaseOver() && 0 <= currentPlayer < NumPlayers && 0 <= data.declarer < NumPlayers
      requires action in LegalActions()
      requires !partnerCalled && action == AnnouncementRules.CallPartnerAction ==>
        CalledLocation(Value()).Some?
      modifies this
      ensures Value() == Apply(old(Value()), action)
    {
      if !partnerCalled {
        ApplyCall(action);
        return;
      }
      if action == PassAction {
        ApplyPass();
        return;
      }
      CalledActionsMeaning(Value(), action);
      ApplySpeak(action);
    }

    /** The call: the scan down from XX for a tarok the declarer lacks. */
    method ApplyCall(action: int)
      requires 0 <= data.declarer < NumPlayers
      requires action == AnnouncementRules.CallPartnerAction ==> CalledLocation(Value()).Some?
      modifies this
      ensures Value() == CallPartner(old(Value()), action)
    {
      if action == AnnouncementRules.CallPartnerAction {
        var rank := 20;
        while rank >= 1
          invariant 0 <= rank <= 20
          invariant AnnouncementRules.HighestTarokNotHeld(data.deck, data.declarer, rank)
                 == AnnouncementRules.HighestTarokNotHeld(data.deck, data.declarer, MakeTarok(20) + 1)
          invariant Value() == old(Value())
          decreases rank
        {
          var card := MakeTarok(rank);
          if data.deck[card] != data.declarer {
            data := data.(partner := Some(data.deck[card]));
            break;
          }
          rank := rank - 1;
        }
      }
      partnerCalled := true;
      currentPlayer := (data.declarer + 1) % NumPlayers;
      lastToSpeak := data.declarer;
    }

    method ApplyPass()
      requires 0 <= currentPlayer < NumPlayers
      modifies this
      ensures Value() == Pass(old(Value()))
    {
      currentPlayer := (currentPlayer + 1) % NumPlayers;
      if currentPlayer == lastToSpeak {
        currentPlayer := TerminalPlayerId;
      }
      if currentPlayer == data.declarer {
        firstRound := false;
      }
    }

    method ApplySpeak(action: int)
      requires 0 <= action < PassAction
      modifies this
      ensures Value() == Speak(old(Value()), action)
    {
      var a := FromAction(action);
      var i := TypeIndex(a.kind);
      var own := currentPlayer == data.declarer || (partner.Some? && currentPlayer == partner.value);
      var onDeclarers := if a.level == Contra then !own else own;
      if onDeclarers {
        declarerSide := AnnouncementRules.Declare(declarerSide, i, a.level != Announce);
      } else {
        opponentsSide := AnnouncementRules.Declare(opponentsSide, i, a.level != Announce);
      }
      lastToSpeak := currentPlayer;
    }
  }
}
