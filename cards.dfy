/** Card identities, suits, ranks, point values and card locations
    (card.h), and the trick comparator CardBeats (card.cc). */
module Cards {
  const NumTaroks := 22
  const NumSuits := 4
  const NumRanksPerSuit := 5
  const DeckSize := 42
  const NumPlayers := 4

  datatype Suit = Hearts | Diamonds | Clubs | Spades | Tarok
  datatype SuitRank = AceTen | Jack | Rider | Queen | King

  /** The enum value of a suit (static_cast<int>). */
  function SuitIndex(s: Suit): int
  {
    match s
    case Hearts => 0
    case Diamonds => 1
    case Clubs => 2
    case Spades => 3
    case Tarok => 4
  }

  /** static_cast<Suit>(i) */
  function SuitOfIndex(i: int): (s: Suit)
    requires 0 <= i <= 4
    ensures SuitIndex(s) == i
  {
    if i == 0 then Hearts
    else if i == 1 then Diamonds
    else if i == 2 then Clubs
    else if i == 3 then Spades
    else Tarok
  }

  /** The enum value of a suit rank. */
  function RankIndex(r: SuitRank): int
  {
    match r
    case AceTen => 0
    case Jack => 1
    case Rider => 2
    case Queen => 3
    case King => 4
  }

  /** static_cast<SuitRank>(i) */
  function RankOfIndex(i: int): (r: SuitRank)
    requires 0 <= i < NumRanksPerSuit
    ensures RankIndex(r) == i
  {
    if i == 0 then AceTen
    else if i == 1 then Jack
    else if i == 2 then Rider
    else if i == 3 then Queen
    else King
  }

  /** The tarok of the given rank: rank 1 is Pagat, rank 22 is Skiz. */
  function MakeTarok(rank: int): (c: int)
    requires 1 <= rank <= NumTaroks
    ensures 0 <= c < NumTaroks && CardSuit(c) == Tarok
    ensures c + 1 == rank
  {
    rank - 1
  }

  const Pagat := MakeTarok(1)
  const XXI := MakeTarok(21)
  const Skiz := MakeTarok(22)

  /** The three honours. */
  predicate IsHonour(c: int)
  {
    c == Pagat || c == XXI || c == Skiz
  }

  /** The suit card of the given suit and rank: suit cards follow the
      22 taroks, five per suit. */
  function MakeSuitCard(suit: Suit, rank: SuitRank): (c: int)
    requires suit != Tarok
    ensures NumTaroks <= c < DeckSize
    ensures CardSuit(c) == suit && CardRank(c) == rank
  {
    NumTaroks + SuitIndex(suit) * NumRanksPerSuit + RankIndex(rank)
  }

  /** The suit of a card: the taroks are exactly the cards below 22. */
  function CardSuit(card: int): (s: Suit)
    requires card < DeckSize
    ensures (s == Tarok) == (card < NumTaroks)
  {
    if card < NumTaroks then Tarok
    else SuitOfIndex((card - NumTaroks) / NumRanksPerSuit)
  }

  /** The rank of a suit card (the remainder of its offset by 5). */
  function CardRank(card: int): (r: SuitRank)
    requires NumTaroks <= card < DeckSize
    ensures RankIndex(r) == (card - NumTaroks) % NumRanksPerSuit
  {
    RankOfIndex((card - NumTaroks) % NumRanksPerSuit)
  }

  /** Point value of a card: 5 for the honours and the Kings, 4/3/2/1 for
      Queen/Rider/Jack/Ace-Ten, 1 for every other tarok. */
  function CardPointValue(card: int): (v: int)
    requires card < DeckSize
    ensures 1 <= v <= 5
    ensures v == 5 <==> (IsHonour(card) || (card >= NumTaroks && CardRank(card) == King))
    ensures card >= NumTaroks ==> v == RankIndex(CardRank(card)) + 1
  {
    if CardSuit(card) == Tarok then
      if card == Pagat then 5
      else if card == XXI then 5
      else if card == Skiz then 5
      else 1
    else
      match CardRank(card)
      case King => 5
      case Queen => 4
      case Rider => 3
      case Jack => 2
      case AceTen => 1
  }

  /** Sum of the point values of cards lo..hi-1. */
  function PointsBetween(lo: int, hi: int): int
    requires hi <= DeckSize
    decreases hi - lo
  {
    if lo >= hi then 0 else CardPointValue(lo) + PointsBetween(lo + 1, hi)
  }

  lemma {:induction false} PointsSplit(lo: int, mid: int, hi: int)
    requires lo <= mid <= hi <= DeckSize
    ensures PointsBetween(lo, hi) == PointsBetween(lo, mid) + PointsBetween(mid, hi)
    decreases mid - lo
  {
    if lo < mid {
      PointsSplit(lo + 1, mid, hi);
    }
  }

  /** The plain taroks II..XX are worth one point each. */
  lemma {:induction false} PlainTarokPoints(lo: int)
    requires 1 <= lo <= XXI
    ensures PointsBetween(lo, XXI) == XXI - lo
    decreases XXI - lo
  {
    if lo < XXI {
      PlainTarokPoints(lo + 1);
    }
  }

  /** Each suit is worth 1 + 2 + 3 + 4 + 5 points: b is the first card
      of a suit. */
  lemma SuitPoints(b: int)
    requires b == NumTaroks || b == NumTaroks + 5 || b == NumTaroks + 10 || b == NumTaroks + 15
    ensures PointsBetween(b, b + NumRanksPerSuit) == 15
  {
    assert PointsBetween(b + 4, b + 5) == 5;
    assert PointsBetween(b + 3, b + 5) == 9;
    assert PointsBetween(b + 2, b + 5) == 12;
  }

  lemma TotalCardPoints()
    ensures PointsBetween(0, DeckSize) == 94
  {
    PointsOfDeck(0, DeckSize);
  }

  /** The sum over the deck, taken section by section: Pagat, the plain
      taroks, XXI and Skiz, then the four suits. */
  lemma PointsOfDeck(lo: int, hi: int)
    requires lo == 0 && hi == DeckSize
    ensures PointsBetween(lo, hi) == 94
  {
    PointsSplit(lo, lo + 1, hi);
    PointsSplit(lo + 1, lo + 20, hi);
    PointsSplit(lo + 20, lo + 22, hi);
    PointsSplit(lo + 22, lo + 27, hi);
    PointsSplit(lo + 27, lo + 32, hi);
    PointsSplit(lo + 32, lo + 37, hi);
    PlainTarokPoints(lo + 1);
    HonourPoints();
    SuitPoints(lo + 22);
    SuitPoints(lo + 27);
    SuitPoints(lo + 32);
    SuitPoints(lo + 37);
  }

  /** Pagat, and XXI with Skiz, are five points each. */
  lemma HonourPoints()
    ensures PointsBetween(0, 1) == 5 && PointsBetween(XXI, NumTaroks) == 10
  {
    assert PointsBetween(Skiz, NumTaroks) == 5;
  }

  // Card locations: 0..3 are the players' hands, 4..7 their won piles.
  const Talon := -1
  const DeclarerSkart := -2
  const OpponentsSkart := -3
  const CurrentTrick := -4

  /** The location of every card, indexed by card (card.h's Deck array). */
  type Deck = d: seq<int> | |d| == DeckSize witness seq(DeckSize, _ => Talon)

  /** A hand location is the bare player index. */
  predicate IsHandLocation(loc: int)
  {
    0 <= loc < NumPlayers
  }

  /** The won-cards pile of player p. */
  function WonCardsLocation(p: int): (loc: int)
    ensures 0 <= p < NumPlayers ==> NumPlayers <= loc < 2 * NumPlayers
  {
    p + NumPlayers
  }

  /** The owner of a won-cards pile. */
  function WonCardsLocationToPlayer(loc: int): int
    requires loc >= NumPlayers
  {
    loc - NumPlayers
  }

  /** Won piles never collide with hands, the talon, the skarts or the
      current trick, and distinct players have distinct piles. */
  lemma WonPilesAreDistinctLocations(p: int, q: int)
    requires 0 <= p < NumPlayers && 0 <= q < NumPlayers
    ensures WonCardsLocationToPlayer(WonCardsLocation(p)) == p
    ensures !IsHandLocation(WonCardsLocation(p))
    ensures WonCardsLocation(p) !in {Talon, DeclarerSkart, OpponentsSkart, CurrentTrick}
    ensures p != q ==> WonCardsLocation(p) != WonCardsLocation(q)
  {
  }

  /** Whether card a beats card b in a trick: a tarok beats every suit
      card, within one suit the higher card wins, and cards of two
      different ordinary suits never beat each other. */
  function CardBeats(a: int, b: int): (r: bool)
    requires a < DeckSize && b < DeckSize
    ensures CardSuit(a) == Tarok && CardSuit(b) != Tarok ==> r
    ensures CardSuit(a) != Tarok && CardSuit(b) == Tarok ==> !r
    ensures CardSuit(a) == CardSuit(b) ==> (r <==> a > b)
    ensures CardSuit(a) != CardSuit(b) && CardSuit(a) != Tarok ==> !r
  {
    var suitA := CardSuit(a);
    var suitB := CardSuit(b);
    if suitA == Tarok && suitB != Tarok then true
    else if suitA != Tarok && suitB == Tarok then false
    else if suitA == Tarok && suitB == Tarok then a > b
    else if suitA != suitB then false
    else a > b
  }

  predicate IsCard(c: int)
  {
    0 <= c < DeckSize
  }

  /** CardBeats is a strict partial order on the deck: irreflexive,
      asymmetric and transitive. */
  lemma CardBeatsIsStrictOrder(a: int, b: int, c: int)
    requires IsCard(a) && IsCard(b) && IsCard(c)
    ensures !CardBeats(a, a)
    ensures CardBeats(a, b) ==> !CardBeats(b, a)
    ensures CardBeats(a, b) && CardBeats(b, c) ==> CardBeats(a, c)
  {
  }

  /** Two distinct cards that are both taroks or of one suit are
      comparable: exactly one of them beats the other. */
  lemma CardBeatsTotalWithinSuit(a: int, b: int)
    requires IsCard(a) && IsCard(b) && a != b && CardSuit(a) == CardSuit(b)
    ensures CardBeats(a, b) != CardBeats(b, a)
  {
  }
}
