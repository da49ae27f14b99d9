/** The Bidding phase of the older class-per-phase engine (bidding.h,
    bidding.cc). Only honour holders may bid, as in the current engine,
    but the first bid already holds the standing 4, the number has no
    floor at 0, the auction only ends when the turn comes back to the
    last bidder, and the turn-skipping loop has no way out once every seat
    has passed. */
module SnapshotBidding {
  import opened Wrappers
  import opened Cards
  import opened TarokRecords
  import BiddingRules
  import SnapshotSetup

  /** The fields of a BiddingPhase object. */
  datatype Auction = Auction(
    currentPlayer: int,
    lowestBid: int,
    wasHeld: bool,
    deck: Deck,
    hasPassed: BoolQuad,
    hasHonour: BoolQuad,
    winningBidder: Option<int>)

  predicate HonoursDealt(deck: Deck)
  {
    && 0 <= deck[Skiz] < NumPlayers
    && 0 <= deck[Pagat] < NumPlayers
    && 0 <= deck[XXI] < NumPlayers
  }

  /** The honour flags the constructor sets from the setup deck. */
  function Honours(deck: Deck): (h: BoolQuad)
    requires HonoursDealt(deck)
    ensures forall p :: 0 <= p < NumPlayers ==>
      (h[p] <==> p == deck[Skiz] || p == deck[Pagat] || p == deck[XXI])
  {
    NoSeats[deck[Skiz] := true][deck[Pagat] := true][deck[XXI] := true]
  }

  /** The constructor: seat 0 starts, the number is 4 and unheld, nobody
      has passed or bid. The honours come from the setup deck, but deck_
      itself is never written, so it keeps whatever it held (leftover). */
  function StartAuction(setupDeck: Deck, leftover: Deck): Auction
    requires HonoursDealt(setupDeck)
  {
    Auction(0, 4, false, leftover, NoSeats, Honours(setupDeck), None)
  }

  predicate AuctionOver(s: Auction)
  {
    s.currentPlayer == TerminalPlayerId
  }

  /** Whose turn it is: a seat, or nobody once the auction is over. */
  predicate TurnInv(s: Auction)
  {
    AuctionOver(s) || 0 <= s.currentPlayer < NumPlayers
  }

  /** Pass always; a standard bid only with an honour. */
  function AuctionLegalActions(s: Auction): (actions: seq<int>)
    requires 0 <= s.currentPlayer < NumPlayers
    ensures BiddingRules.BiddingPass in actions
    ensures BiddingRules.StandardBid in actions <==> s.hasHonour[s.currentPlayer]
    ensures forall a :: a in actions ==> a == BiddingRules.BiddingPass || a == BiddingRules.StandardBid
  {
    if !s.hasHonour[s.currentPlayer] then [BiddingRules.BiddingPass]
    else [BiddingRules.BiddingPass, BiddingRules.StandardBid]
  }

  predicate SomeUnpassed(passed: BoolQuad)
  {
    exists q :: 0 <= q < NumPlayers && !passed[q]
  }

  /** The seat the skip loop of NextPlayer stops at: the first seat from
      next on, counting round from start, that has not passed. */
  function NextUnpassed(passed: BoolQuad, start: int, next: int): (r: int)
    requires 0 <= start < NumPlayers && 0 <= next < NumPlayers
    requires exists q :: 0 <= q < NumPlayers && !passed[q] && Ahead(start, next) <= Ahead(start, q)
    ensures 0 <= r < NumPlayers && !passed[r] && Ahead(start, next) <= Ahead(start, r)
    ensures forall q :: 0 <= q < NumPlayers && Ahead(start, next) <= Ahead(start, q) < Ahead(start, r) ==>
      passed[q]
    decreases NumPlayers - Ahead(start, next)
  {
    AheadOfNextSeat(start, next);
    if !passed[next] then next
    else NextUnpassed(passed, start, NextSeat(next))
  }

  /** The bookkeeping of DoApplyAction: a bid holds an unheld number, or
      lowers a held one by one and unholds it, and makes the mover the
      winning bidder; a pass marks the mover as passed. */
  function Record(s: Auction, action: int): Auction
    requires 0 <= s.currentPlayer < NumPlayers
  {
    var cur := s.currentPlayer;
    if action == BiddingRules.StandardBid then
      var raised := if !s.wasHeld then s.(wasHeld := true)
                    else s.(lowestBid := s.lowestBid - 1, wasHeld := false);
      raised.(winningBidder := Some(cur))
    else if action == BiddingRules.BiddingPass then
      s.(hasPassed := s.hasPassed[cur := true])
    else s
  }

  /** What NextPlayer does: the turn goes to the first unpassed seat after the
      mover (possibly the mover itself), and the auction ends when that
      seat is the winning bidder. */
  function TurnAfter(s: Auction): Auction
    requires 0 <= s.currentPlayer < NumPlayers && SomeUnpassed(s.hasPassed)
  {
    var start := NextSeat(s.currentPlayer);
    var next := NextUnpassed(s.hasPassed, start, start);
    if s.winningBidder == Some(next) then s.(currentPlayer := TerminalPlayerId)
    else s.(currentPlayer := next)
  }

  /** DoApplyAction: the action must be legal, and the skip loop only
      ends when some seat has not passed. */
  function Apply(s: Auction, action: int): Auction
    requires 0 <= s.currentPlayer < NumPlayers
    requires action in AuctionLegalActions(s)
    requires SomeUnpassed(Record(s, action).hasPassed)
  {
    TurnAfter(Record(s, action))
  }

  /** A bid strictly improves the (number, held) pair and makes the
      bidder the winning bidder; a pass marks the passer and leaves the
      bid alone; the turn goes to the first seat after the mover that has
      not passed, every seat in between has passed, and the auction ends
      exactly when that seat is the winning bidder, who then exists. */
  lemma ApplyRules(s: Auction, action: int)
    requires 0 <= s.currentPlayer < NumPlayers
    requires action in AuctionLegalActions(s)
    requires SomeUnpassed(Record(s, action).hasPassed)
    ensures var t := Apply(s, action);
      var cur := s.currentPlayer;
      && TurnInv(t)
      && (action == BiddingRules.StandardBid ==>
            && BiddingRules.BidRank(t.lowestBid, t.wasHeld) < BiddingRules.BidRank(s.lowestBid, s.wasHeld)
            && t.winningBidder == Some(cur) && t.hasPassed == s.hasPassed)
      && (action == BiddingRules.BiddingPass ==>
            && t.hasPassed == s.hasPassed[cur := true]
            && t.lowestBid == s.lowestBid && t.wasHeld == s.wasHeld
            && t.winningBidder == s.winningBidder)
      && (AuctionOver(t) ==> t.winningBidder.Some? && !t.hasPassed[t.winningBidder.value])
      && (!AuctionOver(t) ==>
            && !t.hasPassed[t.currentPlayer] && Some(t.currentPlayer) != t.winningBidder
            && forall q :: 0 <= q < NumPlayers && 0 < Ahead(cur, q) < Ahead(cur, t.currentPlayer) ==>
                 t.hasPassed[q])
  {
    var r := Record(s, action);
    var cur := s.currentPlayer;
    var start := NextSeat(cur);
    AheadFromNextSeat(cur);
    assert exists q :: 0 <= q < NumPlayers && !r.hasPassed[q] && Ahead(start, start) <= Ahead(start, q);
    var next := NextUnpassed(r.hasPassed, start, start);
    var t := Apply(s, action);
    if !AuctionOver(t) && next != cur {
      forall q | 0 <= q < NumPlayers && 0 < Ahead(cur, q) < Ahead(cur, next)
        ensures r.hasPassed[q]
      {
        assert Ahead(start, q) < Ahead(start, next);
      }
    }
  }

  /** The first bid of the auction already holds the standing 4, where
      the first bid of the current engine lowers it to 3. */
  lemma FirstBidHolds(setupDeck: Deck, leftover: Deck)
    requires HonoursDealt(setupDeck) && setupDeck[Skiz] == 0
    ensures var t := Record(StartAuction(setupDeck, leftover), BiddingRules.StandardBid);
      t.lowestBid == 4 && t.wasHeld && t.winningBidder == Some(0)
    ensures BiddingRules.RaisedBid(DefaultBidding, 0) == (3, false)
  {
  }

  /** The number has no floor: a bid over a held 0 makes it -1 and the
      auction goes on, where the current engine ends at a held 0. */
  lemma NoFloorAtZero(deck: Deck)
    ensures var s := Auction(0, 0, true, deck, NoSeats, [true, true, false, false], Some(1));
      !Record(s, BiddingRules.StandardBid).hasPassed[1]
    ensures var s := Auction(0, 0, true, deck, NoSeats, [true, true, false, false], Some(1));
      var t := Apply(s, BiddingRules.StandardBid);
      t.lowestBid == -1 && !AuctionOver(t) && t.currentPlayer == 1
  {
    var s := Auction(0, 0, true, deck, NoSeats, [true, true, false, false], Some(1));
    assert !Record(s, BiddingRules.StandardBid).hasPassed[1];
  }

  /** When the mover passes after everybody else has passed, no seat is
      left for the skip loop to stop at: the source never returns, and the
      model's Apply is not defined there. */
  lemma LastPassHasNoNextPlayer(s: Auction)
    requires 0 <= s.currentPlayer < NumPlayers
    requires forall q :: 0 <= q < NumPlayers && q != s.currentPlayer ==> s.hasPassed[q]
    ensures !SomeUnpassed(Record(s, BiddingRules.BiddingPass).hasPassed)
  {
  }

  /** A BiddingPhase object. */
  class BiddingPhase {
    var currentPlayer: int
    var lowestBid: int
    var wasHeld: bool
    var deck: Deck
    var hasPassed: BoolQuad
    var hasHonour: BoolQuad
    var winningBidder: Option<int>

    function Value(): Auction
      reads this
    {
      Auction(currentPlayer, lowestBid, wasHeld, deck, hasPassed, hasHonour, winningBidder)
    }

    /** Marks the holders of Skiz, Pagat and XXI in the setup deck; the
        deck field keeps the value it had, which is leftover here. */
    constructor (setup: SnapshotSetup.SetupPhase, leftover: Deck)
      requires HonoursDealt(setup.deck)
      ensures Value() == StartAuction(setup.deck, leftover)
    {
      var d := setup.deck;
      currentPlayer := 0;
      lowestBid := 4;
      wasHeld := false;
      deck := leftover;
      hasPassed := NoSeats;
      var honours := NoSeats;
      honours := honours[d[Skiz] := true];
      honours := honours[d[Pagat] := true];
      honours := honours[d[XXI] := true];
      hasHonour := honours;
      winningBidder := None;
    }

    function CurrentPlayer(): int
      reads this
    {
      currentPlayer
    }

    predicate PhaseOver()
      reads this
    {
      AuctionOver(Value())
    }

    function LegalActions(): seq<int>
      reads this
      requires !PhaseOver() && TurnInv(Value())
    {
      AuctionLegalActions(Value())
    }

    function GetDeclarer(): int
      reads this
      requires PhaseOver() && winningBidder.Some?
    {
      winningBidder.value
    }

    function GetWinningBid(): int
      reads this
      requires PhaseOver()
    {
      lowestBid
    }

    method NextPlayer()
      requires 0 <= currentPlayer < NumPlayers && SomeUnpassed(hasPassed)
      modifies this
      ensures Value() == TurnAfter(old(Value()))
    {
      var start := NextSeat(currentPlayer);
      var next := start;
      ghost var target := NextUnpassed(hasPassed, start, start);
      while hasPassed[next]
        invariant 0 <= next < NumPlayers
        invariant exists q :: 0 <= q < NumPlayers && !hasPassed[q] && Ahead(start, next) <= Ahead(start, q)
        invariant NextUnpassed(hasPassed, start, next) == target
        invariant Value() == old(Value())
        decreases NumPlayers - Ahead(start, next)
      {
        AheadOfNextSeat(start, next);
        next := NextSeat(next);
      }
      assert next == target;
      if winningBidder == Some(next) {
        currentPlayer := TerminalPlayerId;
      } else {
        currentPlayer := next;
      }
    }

    method DoApplyAction(action: int)
      requires TurnInv(Value()) && !PhaseOver()
      requires action in AuctionLegalActions(Value())
      requires SomeUnpassed(Record(Value(), action).hasPassed)
      modifies this
      ensures Value() == Apply(old(Value()), action)
    {
      if action == BiddingRules.StandardBid {
        if !wasHeld {
          wasHeld := true;
        } else {
          lowestBid := lowestBid - 1;
          wasHeld := false;
        }
        winningBidder := Some(currentPlayer);
      } else if action == BiddingRules.BiddingPass {
        hasPassed := hasPassed[currentPlayer := true];
      }
      NextPlayer();
    }
  }
}
