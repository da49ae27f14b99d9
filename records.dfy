/** The records every phase shares: the persistent GameData (phases.h,
    common_state_ in hungarian_tarok.h), the per-phase records of the state
    class (hungarian_tarok.h), the phase tag and its order, and the
    deep-copy semantics of a phase object's owned GameData. */
module TarokRecords {
  import opened Wrappers
  import opened Cards

  const NumAnnouncementTypes := 8
  const PlayerHandSize := 9
  const TalonSize := 6
  const NumRounds := 9

  /** OpenSpiel's reserved player ids. */
  const TerminalPlayerId := -4
  const ChancePlayerId := -1

  type IntQuad = s: seq<int> | |s| == NumPlayers witness [0, 0, 0, 0]
  type BoolQuad = s: seq<bool> | |s| == NumPlayers witness [false, false, false, false]
  type Flags = s: seq<bool> | |s| == NumAnnouncementTypes
    witness [false, false, false, false, false, false, false, false]
  type Levels = s: seq<int> | |s| == NumAnnouncementTypes witness [0, 0, 0, 0, 0, 0, 0, 0]
  type TalonSlots = s: seq<bool> | |s| == TalonSize witness [false, false, false, false, false, false]

  /** The seat after p. */
  function NextSeat(p: int): (q: int)
    requires 0 <= p < NumPlayers
    ensures 0 <= q < NumPlayers && q != p
    ensures q == if p == NumPlayers - 1 then 0 else p + 1
  {
    (p + 1) % NumPlayers
  }

  /** Seats clockwise from one seat to another. */
  function Ahead(from: int, to: int): (k: int)
    ensures 0 <= k < NumPlayers
    ensures 0 <= from < NumPlayers && 0 <= to < NumPlayers ==>
      k == if from <= to then to - from else to - from + NumPlayers
  {
    (to - from + NumPlayers) % NumPlayers
  }

  /** Counting seats from the seat after cur is counting from cur, less one. */
  lemma AheadFromNextSeat(cur: int)
    requires 0 <= cur < NumPlayers
    ensures Ahead(NextSeat(cur), cur) == NumPlayers - 1
    ensures forall q :: 0 <= q < NumPlayers && q != cur ==>
      Ahead(NextSeat(cur), q) == Ahead(cur, q) - 1 && Ahead(cur, q) > 0
  {
  }

  /** Moving one seat on moves one place further from any fixed seat,
      short of a full circle; and a seat is fixed by its distance. */
  lemma AheadOfNextSeat(s: int, cur: int)
    requires 0 <= s < NumPlayers && 0 <= cur < NumPlayers
    ensures Ahead(s, cur) < NumPlayers - 1 ==> Ahead(s, NextSeat(cur)) == Ahead(s, cur) + 1
    ensures Ahead(s, cur) == NumPlayers - 1 ==> NextSeat(cur) == s
    ensures forall q :: 0 <= q < NumPlayers && Ahead(s, q) == Ahead(s, cur) ==> q == cur
  {
  }

  datatype Side = Declarer | Opponents

  datatype AnnouncementType =
    | FourKings | Tuletroa | DoubleGame | Volat
    | PagatUltimo | XXICapture | EightTaroks | NineTaroks

  /** static_cast<int>(type) */
  function TypeIndex(t: AnnouncementType): int
  {
    match t
    case FourKings => 0
    case Tuletroa => 1
    case DoubleGame => 2
    case Volat => 3
    case PagatUltimo => 4
    case XXICapture => 5
    case EightTaroks => 6
    case NineTaroks => 7
  }

  /** static_cast<AnnouncementType>(i) */
  function TypeOfIndex(i: int): (t: AnnouncementType)
    requires 0 <= i < NumAnnouncementTypes
    ensures TypeIndex(t) == i
  {
    if i == 0 then FourKings
    else if i == 1 then Tuletroa
    else if i == 2 then DoubleGame
    else if i == 3 then Volat
    else if i == 4 then PagatUltimo
    else if i == 5 then XXICapture
    else if i == 6 then EightTaroks
    else NineTaroks
  }

  lemma TypeIndexRoundTrip(t: AnnouncementType)
    ensures 0 <= TypeIndex(t) < NumAnnouncementTypes
    ensures TypeOfIndex(TypeIndex(t)) == t
  {
  }

  /** What one side has announced, and how far each announcement has been
      contra'd. */
  datatype AnnouncementSide = AnnouncementSide(announced: Flags, contraLevel: Levels)

  /** A value-initialised AnnouncementSide. */
  function FreshAnnouncementSide(): (a: AnnouncementSide)
    ensures forall i :: 0 <= i < NumAnnouncementTypes ==> !a.announced[i] && a.contraLevel[i] == 0
  {
    AnnouncementSide([false, false, false, false, false, false, false, false],
                     [0, 0, 0, 0, 0, 0, 0, 0])
  }

  /** A completed trick holds exactly one card per player. */
  type Trick = t: seq<int> | |t| == NumPlayers witness [0, 0, 0, 0]
  type PlayerSides = s: seq<Side> | |s| == NumPlayers
    witness [Opponents, Opponents, Opponents, Opponents]

  /** The persistent record shared by all phases; copied by value. */
  datatype GameData = GameData(
    deck: Deck,
    pagatHolder: int,
    declarer: int,
    winningBid: int,
    fullBid: bool,
    partner: Option<int>,
    declarerSide: AnnouncementSide,
    opponentsSide: AnnouncementSide,
    playerSides: PlayerSides,
    tricks: seq<Trick>,
    trickWinners: seq<int>)

  datatype PhaseType =
    | SetupPhase | BiddingPhase | TalonPhase | SkartPhase | AnnouncementsPhase | PlayPhase

  /** Position of a phase in the declared order. */
  function PhaseIndex(p: PhaseType): int
  {
    match p
    case SetupPhase => 0
    case BiddingPhase => 1
    case TalonPhase => 2
    case SkartPhase => 3
    case AnnouncementsPhase => 4
    case PlayPhase => 5
  }

  /** The phase AdvancePhase moves to; Play has none. */
  function NextPhaseType(p: PhaseType): (q: Option<PhaseType>)
    ensures q.None? <==> p == PlayPhase
    ensures q.Some? ==> PhaseIndex(q.value) == PhaseIndex(p) + 1
  {
    match p
    case SetupPhase => Some(BiddingPhase)
    case BiddingPhase => Some(TalonPhase)
    case TalonPhase => Some(SkartPhase)
    case SkartPhase => Some(AnnouncementsPhase)
    case AnnouncementsPhase => Some(PlayPhase)
    case PlayPhase => None
  }

  /** Following successors from any phase never returns to it or to an
      earlier phase. */
  lemma {:induction false} PhaseOrderHasNoBackEdge(p: PhaseType, steps: nat)
    requires steps > 0
    ensures var q := Successors(p, steps); q.None? || PhaseIndex(q.value) >= PhaseIndex(p) + steps
    decreases steps
  {
    if steps > 1 {
      PhaseOrderHasNoBackEdge(p, steps - 1);
    }
  }

  /** The phase reached after the given number of AdvancePhase steps. */
  function Successors(p: PhaseType, steps: nat): Option<PhaseType>
    decreases steps
  {
    if steps == 0 then Some(p)
    else match Successors(p, steps - 1)
      case None => None
      case Some(q) => NextPhaseType(q)
  }

  // Per-phase records of the state class, with their default values.

  datatype SetupState = SetupState(handSizes: IntQuad, currentCard: int)

  /** The bidding record; lowestBid and wasHeld are the fields the bidding
      rules use, starting at 4 and false. */
  datatype BiddingState = BiddingState(
    currentPlayer: int,
    lowestBid: int,
    wasHeld: bool,
    allPassed: bool,
    hasBid: BoolQuad,
    hasPassed: BoolQuad,
    hasHonour: BoolQuad)

  datatype TalonState = TalonState(
    currentPlayer: int,
    talonCards: seq<int>,
    talonTaken: TalonSlots,
    cardsToTake: IntQuad,
    talonTakenCount: int,
    gameOver: bool)

  datatype SkartState = SkartState(currentPlayer: int, handSizes: IntQuad, cardsDiscarded: int)

  datatype AnnouncementsState = AnnouncementsState(
    currentPlayer: int,
    partnerCalled: bool,
    lastToSpeak: int,
    firstRound: bool,
    tarokCounts: IntQuad)

  datatype PlayState = PlayState(
    currentPlayer: int,
    trickCaller: int,
    trickCards: seq<int>,
    round: int)

  const NoSeats: BoolQuad := [false, false, false, false]
  const ZeroQuad: IntQuad := [0, 0, 0, 0]

  const DefaultSetup := SetupState(ZeroQuad, 0)
  const DefaultBidding := BiddingState(0, 4, false, false, NoSeats, NoSeats, NoSeats)
  const DefaultTalon :=
    TalonState(0, [0, 0, 0, 0, 0, 0], [false, false, false, false, false, false], ZeroQuad, 0, false)
  const DefaultSkart := SkartState(0, ZeroQuad, 0)
  const DefaultAnnouncements := AnnouncementsState(0, false, 0, true, ZeroQuad)
  const DefaultPlay := PlayState(0, 0, [], 0)

  /** The whole state of a game: the shared record, the phase tag and the
      six per-phase records. */
  datatype Game = Game(
    data: GameData,
    phase: PhaseType,
    setup: SetupState,
    bidding: BiddingState,
    talon: TalonState,
    skart: SkartState,
    announcements: AnnouncementsState,
    play: PlayState)

  /** The shared record of a new game: every card in the talon, nobody
      holding Pagat, declarer 0, no bid, no partner, fresh announcement
      sides, everybody an opponent, no tricks. */
  function InitialGameData(): (d: GameData)
    ensures forall c :: 0 <= c < DeckSize ==> d.deck[c] == Talon
    ensures d.pagatHolder == -1 && d.declarer == 0 && d.winningBid == -1
    ensures !d.fullBid && d.partner == None
    ensures forall p :: 0 <= p < NumPlayers ==> d.playerSides[p] == Opponents
    ensures d.tricks == [] && d.trickWinners == []
  {
    GameData(seq(DeckSize, _ => Talon), -1, 0, -1, false, None,
             FreshAnnouncementSide(), FreshAnnouncementSide(),
             [Opponents, Opponents, Opponents, Opponents], [], [])
  }

  /** The state a new game starts in: the Setup phase with no card dealt. */
  function NewGame(): (g: Game)
    ensures g.phase == SetupPhase && g.data == InitialGameData()
    ensures g.setup.currentCard == 0
    ensures forall p :: 0 <= p < NumPlayers ==> g.setup.handSizes[p] == 0
  {
    Game(InitialGameData(), SetupPhase, DefaultSetup, DefaultBidding, DefaultTalon,
         DefaultSkart, DefaultAnnouncements, DefaultPlay)
  }

  /** The heap record a phase object's unique_ptr<GameData> points to. */
  class DataCell {
    var data: GameData

    constructor (d: GameData)
      ensures data == d
    {
      data := d;
    }
  }

  /** The part of every phase object that owns the shared record: copying
      the object deep-copies the record, so copy and original share no
      cell; a null record stays null. */
  class PhaseBase {
    var gameData: DataCell?

    /** Takes ownership of an existing record. */
    constructor (d: DataCell?)
      ensures gameData == d
    {
      gameData := d;
    }

    /** The copy constructor. */
    constructor Copy(other: PhaseBase)
      ensures other.gameData == null ==> gameData == null
      ensures other.gameData != null ==>
        gameData != null && fresh(gameData) && gameData.data == other.gameData.data
    {
      if other.gameData == null {
        gameData := null;
      } else {
        gameData := new DataCell(other.gameData.data);
      }
    }

    /** The copy-assignment operator: a no-op on self-assignment, otherwise
        the record is replaced by a fresh copy of the other's. */
    method Assign(other: PhaseBase)
      modifies this
      ensures other == this ==> gameData == old(gameData)
      ensures other != this && old(other.gameData) == null ==> gameData == null
      ensures other != this && old(other.gameData) != null ==>
        gameData != null && fresh(gameData) && gameData.data == old(other.gameData.data)
    {
      if other != this {
        if other.gameData == null {
          gameData := null;
        } else {
          gameData := new DataCell(other.gameData.data);
        }
      }
    }
  }
}
