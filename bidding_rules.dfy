/** The Bidding phase of the current engine (phases.cc): only holders of
    an honour (Skiz, Pagat, XXI) may bid; each bid either holds the
    standing number or lowers it by one, and the auction ends at a held
    zero, when the turn returns to the declarer, or when everyone passed. */
module BiddingRules {
  import opened Wrappers
  import opened Cards
  import opened TarokRecords

  const BiddingPass := 0
  const StandardBid := 1

  /** Number of true entries. */
  function NumTrue(s: BoolQuad): int
  {
    (if s[0] then 1 else 0) + (if s[1] then 1 else 0) + (if s[2] then 1 else 0) + (if s[3] then 1 else 0)
  }

  /** Resets the bidding record and the bidding results, and marks the
      holders of the three honours. */
  function StartBiddingPhase(g: Game): Game
    requires 0 <= g.data.deck[Skiz] < NumPlayers
    requires 0 <= g.data.deck[Pagat] < NumPlayers
    requires 0 <= g.data.deck[XXI] < NumPlayers
  {
    var deck := g.data.deck;
    var honours := NoSeats[deck[Skiz] := true][deck[Pagat] := true][deck[XXI] := true];
    g.(bidding := DefaultBidding.(hasHonour := honours),
       data := g.data.(declarer := 0, winningBid := -1, fullBid := false, partner := None,
                       declarerSide := FreshAnnouncementSide(),
                       opponentsSide := FreshAnnouncementSide(),
                       playerSides := [Opponents, Opponents, Opponents, Opponents],
                       tricks := [], trickWinners := []))
  }

  /** Exactly the holders of Skiz, Pagat and XXI have an honour, so at
      most three players may ever bid; the auction starts at seat 0 with
      the number 4, unheld. */
  lemma StartBiddingHonours(g: Game)
    requires 0 <= g.data.deck[Skiz] < NumPlayers
    requires 0 <= g.data.deck[Pagat] < NumPlayers
    requires 0 <= g.data.deck[XXI] < NumPlayers
    ensures var h := StartBiddingPhase(g);
      && (forall p :: 0 <= p < NumPlayers ==>
            (h.bidding.hasHonour[p] <==>
               p == g.data.deck[Skiz] || p == g.data.deck[Pagat] || p == g.data.deck[XXI]))
      && NumTrue(h.bidding.hasHonour) <= 3
      && h.bidding.currentPlayer == 0 && h.bidding.lowestBid == 4 && !h.bidding.wasHeld
      && h.data.deck == g.data.deck
  {
  }

  predicate BiddingPhaseOver(g: Game)
  {
    g.bidding.currentPlayer == TerminalPlayerId
  }

  predicate BiddingGameOver(g: Game)
  {
    g.bidding.allPassed
  }

  /** Pass always; a standard bid only with an honour. */
  function BiddingLegalActions(g: Game): (actions: seq<int>)
    requires !BiddingPhaseOver(g) && 0 <= g.bidding.currentPlayer < NumPlayers
    ensures BiddingPass in actions
    ensures StandardBid in actions <==> g.bidding.hasHonour[g.bidding.currentPlayer]
    ensures forall a :: a in actions ==> a == BiddingPass || a == StandardBid
  {
    if !g.bidding.hasHonour[g.bidding.currentPlayer] then [BiddingPass]
    else [BiddingPass, StandardBid]
  }

  /** The first seat from next onwards that has not passed, stopping at
      cur; every seat skipped on the way has passed. */
  function SkipPassed(passed: BoolQuad, next: int, cur: int): (r: int)
    requires 0 <= next < NumPlayers && 0 <= cur < NumPlayers
    ensures 0 <= r < NumPlayers
    ensures r == cur || !passed[r]
    ensures Ahead(next, r) <= Ahead(next, cur)
    ensures forall q :: 0 <= q < NumPlayers && Ahead(next, q) < Ahead(next, r) ==> passed[q]
    decreases Ahead(next, cur)
  {
    if passed[next] && next != cur then SkipPassed(passed, NextSeat(next), cur) else next
  }

  /** The bid after a standard bid by cur: a bidder who already bid holds
      an unheld number, otherwise the number drops by one, unheld. */
  function RaisedBid(b: BiddingState, cur: int): (bid: (int, bool))
    requires 0 <= cur < NumPlayers
  {
    if !b.wasHeld && b.hasBid[cur] then (b.lowestBid, true) else (b.lowestBid - 1, false)
  }

  /** The rank of a (number, held) pair: lower is a stronger bid. */
  function BidRank(lowest: int, held: bool): int
  {
    2 * lowest - (if held then 1 else 0)
  }

  /** Moves the turn on after a bid or a pass. */
  function BiddingNextPlayer(g: Game): Game
    requires 0 <= g.bidding.currentPlayer < NumPlayers
  {
    var b := g.bidding;
    var cur := b.currentPlayer;
    if b.lowestBid == 0 && b.wasHeld then
      g.(bidding := b.(currentPlayer := TerminalPlayerId))
    else
      var next := SkipPassed(b.hasPassed, NextSeat(cur), cur);
      if next == g.data.declarer then
        g.(bidding := b.(currentPlayer := TerminalPlayerId))
      else if next == cur then
        g.(bidding := b.(currentPlayer := TerminalPlayerId, allPassed := true),
           data := g.data.(declarer := -1, winningBid := -1))
      else
        g.(bidding := b.(currentPlayer := next))
  }

  /** Records a bid or a pass by the current player, then moves the turn. */
  function BiddingDoApplyAction(g: Game, action: int): Game
    requires !BiddingPhaseOver(g) && 0 <= g.bidding.currentPlayer < NumPlayers
    requires action in BiddingLegalActions(g)
  {
    BiddingNextPlayer(RecordMove(g, action))
  }

  /** An auction step touches only the bidding record and the declarer
      and winning number of the shared record. */
  lemma BiddingKeepsRecord(g: Game, action: int)
    requires !BiddingPhaseOver(g) && 0 <= g.bidding.currentPlayer < NumPlayers
    requires action in BiddingLegalActions(g)
    ensures var h := BiddingDoApplyAction(g, action);
      && h.phase == g.phase
      && h.data == g.data.(declarer := h.data.declarer, winningBid := h.data.winningBid)
  {
  }

  /** A bid strictly improves the (number, held) pair and makes the bidder
      the declarer; a pass marks the passer for good and leaves the bid
      alone. */
  lemma BidImproves(g: Game, action: int)
    requires !BiddingPhaseOver(g) && 0 <= g.bidding.currentPlayer < NumPlayers
    requires action in BiddingLegalActions(g)
    ensures var h := BiddingDoApplyAction(g, action);
      var cur := g.bidding.currentPlayer;
      && (action == StandardBid ==>
            && BidRank(h.bidding.lowestBid, h.bidding.wasHeld)
                 < BidRank(g.bidding.lowestBid, g.bidding.wasHeld)
            && (h.bidding.wasHeld <==> !g.bidding.wasHeld && g.bidding.hasBid[cur])
            && h.data.declarer == cur && h.bidding.hasBid[cur])
      && (action == BiddingPass ==>
            && h.bidding.hasPassed[cur]
            && h.bidding.lowestBid == g.bidding.lowestBid
            && h.bidding.wasHeld == g.bidding.wasHeld)
  {
  }

  /** The turn rules: a held zero ends the auction; otherwise the next
      player is the first unpassed seat after the mover, every seat
      skipped has passed, and the auction ends instead when that seat is
      the declarer or when everyone else has passed, which clears the
      declarer and the winning bid. Nothing but the turn, the all-passed
      flag and those two results changes. */
  lemma {:induction false} TurnRules(g: Game)
    requires 0 <= g.bidding.currentPlayer < NumPlayers
    ensures var h := BiddingNextPlayer(g);
      var cur := g.bidding.currentPlayer;
      var next := h.bidding.currentPlayer;
      && h.bidding == g.bidding.(currentPlayer := next, allPassed := h.bidding.allPassed)
      && (g.bidding.lowestBid == 0 && g.bidding.wasHeld ==> BiddingPhaseOver(h))
      && (next != TerminalPlayerId ==>
            && 0 <= next < NumPlayers && next != cur
            && !g.bidding.hasPassed[next] && next != g.data.declarer
            && h.data == g.data && h.bidding.allPassed == g.bidding.allPassed
            && forall q :: 0 <= q < NumPlayers && 0 < Ahead(cur, q) < Ahead(cur, next) ==>
                 g.bidding.hasPassed[q])
      && (h.bidding.allPassed != g.bidding.allPassed ==>
            && BiddingPhaseOver(h) && BiddingGameOver(h)
            && h.data == g.data.(declarer := -1, winningBid := -1)
            && forall q :: 0 <= q < NumPlayers && q != cur ==> g.bidding.hasPassed[q])
      && (h.data != g.data ==>
            h.bidding.allPassed && h.data == g.data.(declarer := -1, winningBid := -1))
  {
    var b := g.bidding;
    var cur := b.currentPlayer;
    if !(b.lowestBid == 0 && b.wasHeld) {
      var next := SkipPassed(b.hasPassed, NextSeat(cur), cur);
      AheadFromNextSeat(cur);
      if next == cur {
        forall q | 0 <= q < NumPlayers && q != cur
          ensures b.hasPassed[q]
        {
          assert Ahead(NextSeat(cur), q) < Ahead(NextSeat(cur), next);
        }
      } else if next != g.data.declarer {
        forall q | 0 <= q < NumPlayers && 0 < Ahead(cur, q) < Ahead(cur, next)
          ensures b.hasPassed[q]
        {
          assert Ahead(NextSeat(cur), q) < Ahead(NextSeat(cur), next);
        }
      }
    }
  }

  /** A player has acted once it has bid or passed. */
  predicate Acted(b: BiddingState, p: int)
    requires 0 <= p < NumPlayers
  {
    b.hasBid[p] || b.hasPassed[p]
  }

  predicate AllActed(b: BiddingState)
  {
    forall p :: 0 <= p < NumPlayers ==> Acted(b, p)
  }

  /** What holds of every bidding record the auction reaches: during the
      first round the seats before the mover are exactly those that acted
      and the number is 4 less the bids so far; whoever bid last is the
      declarer, has not passed and never holds the turn; a held zero has
      ended the auction; and the number never drops below zero. */
  predicate BiddingInv(g: Game)
  {
    var b := g.bidding;
    var d := g.data;
    && (b.currentPlayer == TerminalPlayerId || 0 <= b.currentPlayer < NumPlayers)
    && (b.allPassed ==> b.currentPlayer == TerminalPlayerId && d.declarer == -1 && d.winningBid == -1)
    && (!b.allPassed ==> 0 <= d.declarer < NumPlayers)
    && (forall p :: 0 <= p < NumPlayers && b.hasBid[p] ==> b.hasHonour[p])
    && NumTrue(b.hasHonour) <= 3
    && 0 <= b.lowestBid <= 4
    && (!AllActed(b) ==>
          && 0 <= b.currentPlayer < NumPlayers
          && (forall p :: 0 <= p < NumPlayers ==> (Acted(b, p) <==> p < b.currentPlayer))
          && b.lowestBid == 4 - NumTrue(b.hasBid) && !b.wasHeld)
    && (0 <= b.currentPlayer < NumPlayers ==> !b.hasPassed[b.currentPlayer])
    && (b.lowestBid == 0 && b.wasHeld ==> b.currentPlayer == TerminalPlayerId)
    && (NumTrue(b.hasBid) == 0 ==> (b.allPassed || d.declarer == 0) && b.lowestBid == 4 && !b.wasHeld)
    && (NumTrue(b.hasBid) == 0 && AllActed(b) ==> b.allPassed)
    && (NumTrue(b.hasBid) > 0 ==>
          && !b.allPassed && 0 <= d.declarer < NumPlayers
          && b.hasBid[d.declarer] && !b.hasPassed[d.declarer]
          && b.currentPlayer != d.declarer && b.lowestBid <= 3)
  }

  lemma StartBiddingInv(g: Game)
    requires 0 <= g.data.deck[Skiz] < NumPlayers
    requires 0 <= g.data.deck[Pagat] < NumPlayers
    requires 0 <= g.data.deck[XXI] < NumPlayers
    ensures BiddingInv(StartBiddingPhase(g))
  {
    StartBiddingHonours(g);
    var b := StartBiddingPhase(g).bidding;
    assert !Acted(b, 0);
  }

  /** The record right after the mover's bid or pass and before the turn
      moves on: the mover now counts as having acted. */
  predicate MovedInv(g: Game)
  {
    var b := g.bidding;
    var d := g.data;
    var cur := b.currentPlayer;
    && 0 <= cur < NumPlayers && !b.allPassed
    && 0 <= d.declarer < NumPlayers
    && Acted(b, cur)
    && (forall p :: 0 <= p < NumPlayers && b.hasBid[p] ==> b.hasHonour[p])
    && NumTrue(b.hasHonour) <= 3
    && 0 <= b.lowestBid <= 4
    && (!AllActed(b) ==>
          && (forall p :: 0 <= p < NumPlayers ==> (Acted(b, p) <==> p <= cur))
          && b.lowestBid == 4 - NumTrue(b.hasBid) && !b.wasHeld)
    && (NumTrue(b.hasBid) == 0 ==> d.declarer == 0 && b.lowestBid == 4 && !b.wasHeld)
    && (NumTrue(b.hasBid) == 0 && AllActed(b) ==> cur == NumPlayers - 1)
    && (NumTrue(b.hasBid) > 0 ==>
          b.hasBid[d.declarer] && !b.hasPassed[d.declarer] && b.lowestBid <= 3)
  }

  /** The mover's own update, before the turn moves on. */
  function RecordMove(g: Game, action: int): Game
    requires 0 <= g.bidding.currentPlayer < NumPlayers
  {
    var b := g.bidding;
    var cur := b.currentPlayer;
    if action == StandardBid then
      var bid := RaisedBid(b, cur);
      g.(bidding := b.(lowestBid := bid.0, wasHeld := bid.1, hasBid := b.hasBid[cur := true]),
         data := g.data.(declarer := cur))
    else
      g.(bidding := b.(hasPassed := b.hasPassed[cur := true]))
  }

  lemma RecordMoveKeepsInv(g: Game, action: int)
    requires BiddingInv(g)
    requires !BiddingPhaseOver(g) && 0 <= g.bidding.currentPlayer < NumPlayers
    requires action in BiddingLegalActions(g)
    ensures MovedInv(RecordMove(g, action))
    ensures BiddingDoApplyAction(g, action) == BiddingNextPlayer(RecordMove(g, action))
  {
    var b := g.bidding;
    var cur := b.currentPlayer;
    var b1 := RecordMove(g, action).bidding;
    if action == StandardBid {
      if !AllActed(b) {
        assert !Acted(b, cur);
        assert NumTrue(b1.hasBid) == NumTrue(b.hasBid) + 1;
        HonourBound(b1.hasBid, b.hasHonour);
      } else if b.wasHeld {
        assert b.lowestBid > 0;
      } else {
        assert Acted(b, cur);
      }
    }
    if NumTrue(b1.hasBid) == 0 && AllActed(b1) {
      assert !AllActed(b);
      assert Acted(b1, NumPlayers - 1);
      assert Acted(b, NumPlayers - 1) <==> NumPlayers - 1 < cur;
    }
    if !AllActed(b1) {
      FirstRoundMove(b, b1, cur);
    }
  }

  /** A move that leaves some seat yet to act was made in the first
      round, and the seats that have acted are then those up to the
      mover. */
  lemma FirstRoundMove(b: BiddingState, b1: BiddingState, cur: int)
    requires 0 <= cur < NumPlayers
    requires forall p :: 0 <= p < NumPlayers && p != cur ==> (Acted(b1, p) <==> Acted(b, p))
    requires Acted(b1, cur) && !AllActed(b1)
    requires !AllActed(b) ==> forall p :: 0 <= p < NumPlayers ==> (Acted(b, p) <==> p < cur)
    ensures !AllActed(b)
    ensures forall p :: 0 <= p < NumPlayers ==> (Acted(b1, p) <==> p <= cur)
  {
    if AllActed(b) {
      forall p | 0 <= p < NumPlayers ensures Acted(b1, p) {
        assert Acted(b, p);
      }
    }
  }

  lemma NextPlayerKeepsInv(g: Game)
    requires MovedInv(g)
    ensures BiddingInv(BiddingNextPlayer(g))
  {
    if !AllActed(g.bidding) {
      NextPlayerInFirstRound(g);
    } else {
      NextPlayerAfterFirstRound(g);
    }
  }

  /** While some seat has not acted, the turn goes to the next seat. */
  lemma NextPlayerInFirstRound(g: Game)
    requires MovedInv(g) && !AllActed(g.bidding)
    ensures BiddingInv(BiddingNextPlayer(g))
  {
    var b := g.bidding;
    var cur := b.currentPlayer;
    TurnRules(g);
    var h := BiddingNextPlayer(g);
    assert !Acted(b, cur + 1);
    AheadFromNextSeat(cur);
    assert Ahead(NextSeat(cur), cur + 1) == 0;
    assert SkipPassed(b.hasPassed, NextSeat(cur), cur) == cur + 1;
    assert h.bidding == b.(currentPlayer := cur + 1);
    forall p | 0 <= p < NumPlayers
      ensures Acted(h.bidding, p) <==> p < cur + 1
    {
      assert Acted(b, p) <==> p <= cur;
    }
    assert !Acted(h.bidding, cur + 1);
  }

  /** Once every seat has acted, every seat still has. */
  lemma NextPlayerAfterFirstRound(g: Game)
    requires MovedInv(g) && AllActed(g.bidding)
    ensures BiddingInv(BiddingNextPlayer(g))
  {
    var b := g.bidding;
    var cur := b.currentPlayer;
    TurnRules(g);
    var h := BiddingNextPlayer(g);
    if NumTrue(b.hasBid) == 0 {
      forall p | 0 <= p < NumPlayers
        ensures b.hasPassed[p]
      {
        assert Acted(b, p);
      }
      assert SkipPassed(b.hasPassed, NextSeat(cur), cur) == cur;
    }
    forall p | 0 <= p < NumPlayers
      ensures Acted(h.bidding, p)
    {
      assert Acted(b, p);
    }
  }

  /** Every bid or pass keeps the invariant. */
  lemma BiddingStepKeepsInv(g: Game, action: int)
    requires BiddingInv(g)
    requires !BiddingPhaseOver(g) && 0 <= g.bidding.currentPlayer < NumPlayers
    requires action in BiddingLegalActions(g)
    ensures BiddingInv(BiddingDoApplyAction(g, action))
  {
    RecordMoveKeepsInv(g, action);
    NextPlayerKeepsInv(RecordMove(g, action));
  }

  /** The bidders are among the honour holders, so they number at most
      as many. */
  lemma HonourBound(bids: BoolQuad, honours: BoolQuad)
    requires forall p :: 0 <= p < NumPlayers && bids[p] ==> honours[p]
    ensures NumTrue(bids) <= NumTrue(honours)
  {
  }

  /** When the auction ends without everyone passing, the winning number
      is between 0 and 3 and the declarer is a bidder who has not passed. */
  lemma FinishedAuctionHasWinner(g: Game)
    requires BiddingInv(g) && BiddingPhaseOver(g) && !BiddingGameOver(g)
    ensures 0 <= g.bidding.lowestBid <= 3
    ensures 0 <= g.data.declarer < NumPlayers
    ensures g.bidding.hasBid[g.data.declarer] && !g.bidding.hasPassed[g.data.declarer]
  {
    var b := g.bidding;
    if NumTrue(b.hasBid) == 0 {
      assert false;
    }
  }
}
