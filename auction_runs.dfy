/** Sequences of calls on one auction, and what holds along every such run:
    the phase invariant, a fixed window once started, strictly increasing
    bids, per-address refund accounting, conservation of the money held and
    custody of the asset. */
module AuctionRuns {
  import opened AuctionTypes
  import opened Ledger
  import opened AuctionSpec

  /** One external call with its host context. `end` does not look at its caller. */
  datatype Op =
    | StartOp(caller: Address, now: nat, transferOk: bool)
    | BidOp(caller: Address, now: nat, value: nat)
    | WithdrawOp(caller: Address)
    | EndOp(now: nat)

  /** Dispatches one call to its step function. */
  function Apply(s: State, op: Op): (t: Step)
    ensures SameConfig(s, t.post)
    ensures s.started ==> t.post.started && t.post.endAt == s.endAt
    ensures s.ended ==> t.post.ended
    ensures !s.ended && t.post.ended ==> op.EndOp? && op.now >= s.endAt && t.post.endAt == s.endAt
    ensures t.post.highestBid >= s.highestBid
    ensures !(op.BidOp? && t.outcome.Ok?) ==>
      t.post.highestBidder == s.highestBidder && t.post.highestBid == s.highestBid
    ensures Inv(s) ==> Inv(t.post)
  {
    match op
    case StartOp(caller, now, transferOk) => StartStep(s, caller, now, transferOk)
    case BidOp(caller, now, value) => BidStep(s, caller, now, value)
    case WithdrawOp(caller) => WithdrawStep(s, caller)
    case EndOp(now) => EndStep(s, now)
  }

  /** The state after a run, each call's outcome and all effects of the run, in order. */
  datatype Trace = Trace(final: State, outcomes: seq<Outcome>, effects: seq<Effect>)

  function Run(s: State, ops: seq<Op>): (t: Trace)
    ensures |t.outcomes| == |ops|
    decreases |ops|
  {
    if ops == [] then Trace(s, [], [])
    else
      var pre := Run(s, ops[..|ops| - 1]);
      var st := Apply(pre.final, ops[|ops| - 1]);
      Trace(st.post, pre.outcomes + [st.outcome], pre.effects + st.effects)
  }

  // ----- Phase invariant and the fields that only move forward -----

  lemma {:induction false} RunPreservesInv(s: State, ops: seq<Op>)
    requires Inv(s)
    ensures Inv(Run(s, ops).final)
    decreases |ops|
  {
    if ops != [] {
      RunPreservesInv(s, ops[..|ops| - 1]);
    }
  }

  /** Along any run the configuration is fixed, the phase never goes back, the
      window fixed at the start never moves and the highest bid never drops. */
  lemma {:induction false} RunMonotone(s: State, ops: seq<Op>)
    ensures var f := Run(s, ops).final;
            SameConfig(s, f) &&
            (s.started ==> f.started && f.endAt == s.endAt) &&
            (s.ended ==> f.ended) &&
            f.highestBid >= s.highestBid
    decreases |ops|
  {
    if ops != [] {
      RunMonotone(s, ops[..|ops| - 1]);
    }
  }

  // ----- Folds over the effect log -----

  /** The amounts of the accepted bids, in order. */
  function BidAmounts(e: seq<Effect>): seq<nat> {
    if e == [] then []
    else (if e[0].BidLog? then [e[0].amount] else []) + BidAmounts(e[1..])
  }

  /** The senders of the accepted bids, in order. */
  function Bidders(e: seq<Effect>): seq<Address> {
    if e == [] then []
    else (if e[0].BidLog? then [e[0].sender] else []) + Bidders(e[1..])
  }

  /** The money taken in: the sum of the accepted bids. */
  function Received(e: seq<Effect>): nat {
    if e == [] then 0
    else (if e[0].BidLog? then e[0].amount else 0) + Received(e[1..])
  }

  /** The money paid out by `transfer_eth`. */
  function PaidOut(e: seq<Effect>): nat {
    if e == [] then 0
    else (if e[0].TransferEth? then e[0].amount else 0) + PaidOut(e[1..])
  }

  /** The refunds withdrawn by `a`. */
  function WithdrawnBy(e: seq<Effect>, a: Address): nat {
    if e == [] then 0
    else (if e[0].WithdrawLog? && e[0].bidder == a then e[0].amount else 0) + WithdrawnBy(e[1..], a)
  }

  /** The registry calls that move the asset, in order. */
  function AssetMoves(e: seq<Effect>): seq<Effect> {
    if e == [] then [] else AssetMove(e[0]) + AssetMoves(e[1..])
  }

  function AssetMove(x: Effect): seq<Effect> {
    if x.IsAssetTransfer() then [x] else []
  }

  lemma {:induction false} BidAmountsConcat(a: seq<Effect>, b: seq<Effect>)
    ensures BidAmounts(a + b) == BidAmounts(a) + BidAmounts(b)
  {
    if a == [] {
      assert a + b == b;
    } else {
      assert (a + b)[0] == a[0] && (a + b)[1..] == a[1..] + b;
      BidAmountsConcat(a[1..], b);
    }
  }

  lemma {:induction false} BiddersConcat(a: seq<Effect>, b: seq<Effect>)
    ensures Bidders(a + b) == Bidders(a) + Bidders(b)
  {
    if a == [] {
      assert a + b == b;
    } else {
      assert (a + b)[0] == a[0] && (a + b)[1..] == a[1..] + b;
      BiddersConcat(a[1..], b);
    }
  }

  lemma {:induction false} ReceivedConcat(a: seq<Effect>, b: seq<Effect>)
    ensures Received(a + b) == Received(a) + Received(b)
  {
    if a == [] {
      assert a + b == b;
    } else {
      assert (a + b)[0] == a[0] && (a + b)[1..] == a[1..] + b;
      ReceivedConcat(a[1..], b);
    }
  }

  lemma {:induction false} PaidOutConcat(a: seq<Effect>, b: seq<Effect>)
    ensures PaidOut(a + b) == PaidOut(a) + PaidOut(b)
  {
    if a == [] {
      assert a + b == b;
    } else {
      assert (a + b)[0] == a[0] && (a + b)[1..] == a[1..] + b;
      PaidOutConcat(a[1..], b);
    }
  }

  lemma {:induction false} WithdrawnByConcat(a: seq<Effect>, b: seq<Effect>, x: Address)
    ensures WithdrawnBy(a + b, x) == WithdrawnBy(a, x) + WithdrawnBy(b, x)
  {
    if a == [] {
      assert a + b == b;
    } else {
      assert (a + b)[0] == a[0] && (a + b)[1..] == a[1..] + b;
      WithdrawnByConcat(a[1..], b, x);
    }
  }

  lemma {:induction false} AssetMovesConcat(a: seq<Effect>, b: seq<Effect>)
    ensures AssetMoves(a + b) == AssetMoves(a) + AssetMoves(b)
  {
    if a == [] {
      assert a + b == b;
    } else {
      assert (a + b)[0] == a[0] && (a + b)[1..] == a[1..] + b;
      AssetMovesConcat(a[1..], b);
      assert AssetMoves(a + b) == AssetMove(a[0]) + (AssetMoves(a[1..]) + AssetMoves(b));
    }
  }

  /** The folds of a two- or three-effect log, effect by effect. */
  lemma FoldsOfPair(x: Effect, y: Effect, a: Address)
    ensures BidAmounts([x, y]) == BidAmounts([x]) + BidAmounts([y])
    ensures Bidders([x, y]) == Bidders([x]) + Bidders([y])
    ensures Received([x, y]) == Received([x]) + Received([y])
    ensures PaidOut([x, y]) == PaidOut([x]) + PaidOut([y])
    ensures WithdrawnBy([x, y], a) == WithdrawnBy([x], a) + WithdrawnBy([y], a)
    ensures AssetMoves([x, y]) == AssetMoves([x]) + AssetMoves([y])
  {
    assert [x, y] == [x] + [y];
    BidAmountsConcat([x], [y]);
    BiddersConcat([x], [y]);
    ReceivedConcat([x], [y]);
    PaidOutConcat([x], [y]);
    WithdrawnByConcat([x], [y], a);
    AssetMovesConcat([x], [y]);
  }

  lemma FoldsOfTriple(x: Effect, y: Effect, z: Effect, a: Address)
    ensures BidAmounts([x, y, z]) == BidAmounts([x]) + BidAmounts([y]) + BidAmounts([z])
    ensures Bidders([x, y, z]) == Bidders([x]) + Bidders([y]) + Bidders([z])
    ensures Received([x, y, z]) == Received([x]) + Received([y]) + Received([z])
    ensures PaidOut([x, y, z]) == PaidOut([x]) + PaidOut([y]) + PaidOut([z])
    ensures WithdrawnBy([x, y, z], a) == WithdrawnBy([x], a) + WithdrawnBy([y], a) + WithdrawnBy([z], a)
    ensures AssetMoves([x, y, z]) == AssetMoves([x]) + AssetMoves([y]) + AssetMoves([z])
  {
    assert [x, y, z] == [x, y] + [z];
    FoldsOfPair(x, y, a);
    BidAmountsConcat([x, y], [z]);
    BiddersConcat([x, y], [z]);
    ReceivedConcat([x, y], [z]);
    PaidOutConcat([x, y], [z]);
    WithdrawnByConcat([x, y], [z], a);
    AssetMovesConcat([x, y], [z]);
  }

  /** What one call contributes to each fold of the log. */
  lemma StepFolds(s: State, op: Op, a: Address)
    ensures var t := Apply(s, op);
            var bidOk := op.BidOp? && t.outcome.Ok?;
            var endOk := op.EndOp? && t.outcome.Ok?;
            BidAmounts(t.effects) == (if bidOk then [op.value] else []) &&
            Bidders(t.effects) == (if bidOk then [op.caller] else []) &&
            Received(t.effects) == (if bidOk then op.value else 0) &&
            PaidOut(t.effects) ==
              (if op.WithdrawOp? then Balance(s.bids, op.caller)
               else if endOk && s.highestBidder != NO_BIDDER then s.highestBid
               else 0) &&
            WithdrawnBy(t.effects, a) == (if op.WithdrawOp? && op.caller == a then Balance(s.bids, a) else 0) &&
            AssetMoves(t.effects) ==
              (if op.StartOp? && t.outcome.Ok? then [Escrowing(s)]
               else if endOk then [Settling(s)]
               else [])
  {
    match op
    case StartOp(c, now, ok) => StartFolds(s, c, now, ok, a);
    case BidOp(c, now, v) => BidFolds(s, c, now, v, a);
    case WithdrawOp(c) => WithdrawFolds(s, c, a);
    case EndOp(now) => EndFolds(s, now, a);
  }

  lemma StartFolds(s: State, caller: Address, now: nat, transferOk: bool, a: Address)
    ensures var t := StartStep(s, caller, now, transferOk);
            BidAmounts(t.effects) == [] && Bidders(t.effects) == [] &&
            Received(t.effects) == 0 && PaidOut(t.effects) == 0 &&
            WithdrawnBy(t.effects, a) == 0 &&
            AssetMoves(t.effects) == if t.outcome.Ok? then [Escrowing(s)] else []
  {
    if StartStep(s, caller, now, transferOk).outcome.Ok? {
      FoldsOfPair(Escrowing(s), StartLog, a);
    }
  }

  lemma BidFolds(s: State, caller: Address, now: nat, value: nat, a: Address)
    ensures var t := BidStep(s, caller, now, value);
            BidAmounts(t.effects) == (if t.outcome.Ok? then [value] else []) &&
            Bidders(t.effects) == (if t.outcome.Ok? then [caller] else []) &&
            Received(t.effects) == (if t.outcome.Ok? then value else 0) &&
            PaidOut(t.effects) == 0 && WithdrawnBy(t.effects, a) == 0 && AssetMoves(t.effects) == []
  {
  }

  lemma WithdrawFolds(s: State, caller: Address, a: Address)
    ensures var t := WithdrawStep(s, caller);
            BidAmounts(t.effects) == [] && Bidders(t.effects) == [] && Received(t.effects) == 0 &&
            PaidOut(t.effects) == Balance(s.bids, caller) &&
            WithdrawnBy(t.effects, a) == (if caller == a then Balance(s.bids, a) else 0) &&
            AssetMoves(t.effects) == []
  {
    FoldsOfPair(TransferEth(caller, Balance(s.bids, caller)), WithdrawLog(caller, Balance(s.bids, caller)), a);
  }

  lemma EndFolds(s: State, now: nat, a: Address)
    ensures var t := EndStep(s, now);
            BidAmounts(t.effects) == [] && Bidders(t.effects) == [] && Received(t.effects) == 0 &&
            PaidOut(t.effects) == (if t.outcome.Ok? && s.highestBidder != NO_BIDDER then s.highestBid else 0) &&
            WithdrawnBy(t.effects, a) == 0 &&
            AssetMoves(t.effects) == if t.outcome.Ok? then [Settling(s)] else []
  {
    var t := EndStep(s, now);
    if t.outcome.Ok? && s.highestBidder != NO_BIDDER {
      FoldsOfTriple(Settling(s), TransferEth(s.seller, s.highestBid), EndLog(s.highestBidder, s.highestBid), a);
    } else if t.outcome.Ok? {
      FoldsOfPair(Settling(s), EndLog(NO_BIDDER, s.highestBid), a);
    }
  }

  // ----- Strictly increasing bids -----

  predicate StrictlyIncreasing(b: seq<nat>) {
    forall i, j :: 0 <= i < j < |b| ==> b[i] < b[j]
  }

  /** Every element lies in the half-open range (lo, hi]. */
  predicate Between(b: seq<nat>, lo: nat, hi: nat) {
    forall i :: 0 <= i < |b| ==> lo < b[i] <= hi
  }

  lemma AppendBid(b: seq<nat>, next: seq<nat>, lo: nat, mid: nat, hi: nat)
    requires StrictlyIncreasing(b) && Between(b, lo, mid) && lo <= mid <= hi
    requires next == [] || (next == [hi] && mid < hi)
    ensures StrictlyIncreasing(b + next) && Between(b + next, lo, hi)
  {
    assert forall i :: 0 <= i < |b| ==> (b + next)[i] == b[i];
  }

  /** Every accepted bid exceeds every bid accepted before it and the standing
      bid the run started from, and none exceeds the final highest bid. */
  lemma {:induction false} RunBidsIncrease(s: State, ops: seq<Op>)
    ensures var t := Run(s, ops);
            var b := BidAmounts(t.effects);
            StrictlyIncreasing(b) && Between(b, s.highestBid, t.final.highestBid)
    decreases |ops|
  {
    if ops != [] {
      var prefix := ops[..|ops| - 1];
      var op := ops[|ops| - 1];
      RunBidsIncrease(s, prefix);
      RunMonotone(s, prefix);
      var pre := Run(s, prefix);
      var st := Apply(pre.final, op);
      BidAmountsConcat(pre.effects, st.effects);
      StepFolds(pre.final, op, NO_BIDDER);
      AppendBid(BidAmounts(pre.effects), BidAmounts(st.effects),
                s.highestBid, pre.final.highestBid, st.post.highestBid);
    }
  }

  /** The standing bid is the last accepted bid and its bidder the one who
      placed it; a run that accepts no bid leaves both as they were. */
  lemma {:induction false} RunLeaderIsLastBid(s: State, ops: seq<Op>)
    ensures var t := Run(s, ops);
            var b := BidAmounts(t.effects);
            var w := Bidders(t.effects);
            |w| == |b| &&
            (b == [] ==> t.final.highestBid == s.highestBid && t.final.highestBidder == s.highestBidder) &&
            (b != [] ==> t.final.highestBid == b[|b| - 1] && t.final.highestBidder == w[|w| - 1])
    decreases |ops|
  {
    if ops != [] {
      var prefix := ops[..|ops| - 1];
      var op := ops[|ops| - 1];
      RunLeaderIsLastBid(s, prefix);
      var pre := Run(s, prefix);
      var st := Apply(pre.final, op);
      BidAmountsConcat(pre.effects, st.effects);
      BiddersConcat(pre.effects, st.effects);
      StepFolds(pre.final, op, NO_BIDDER);
    }
  }

  // ----- Per-address refund accounting -----

  /** What one call credits to `a`'s refund: the standing bid of the leader it outbids. */
  function Credit(s: State, op: Op, a: Address): nat {
    if op.BidOp? && Apply(s, op).outcome.Ok? && s.highestBidder != NO_BIDDER && a == s.highestBidder
    then s.highestBid else 0
  }

  /** All that a run credits to `a`'s refund. */
  function CreditedTo(s: State, ops: seq<Op>, a: Address): nat
    decreases |ops|
  {
    if ops == [] then 0
    else
      var prefix := ops[..|ops| - 1];
      CreditedTo(s, prefix, a) + Credit(Run(s, prefix).final, ops[|ops| - 1], a)
  }

  lemma StepLedger(s: State, op: Op, a: Address)
    ensures var t := Apply(s, op);
            Balance(t.post.bids, a) + WithdrawnBy(t.effects, a) == Balance(s.bids, a) + Credit(s, op, a)
  {
    StepFolds(s, op, a);
  }

  /** For every address, the balance it is owed plus what it has withdrawn is
      what it was owed plus what has been credited to it: the ledger neither
      creates nor loses value. */
  lemma {:induction false} RunLedgerAccounting(s: State, ops: seq<Op>, a: Address)
    ensures var t := Run(s, ops);
            Balance(t.final.bids, a) + WithdrawnBy(t.effects, a) == Balance(s.bids, a) + CreditedTo(s, ops, a)
    decreases |ops|
  {
    if ops != [] {
      var prefix := ops[..|ops| - 1];
      RunLedgerAccounting(s, prefix, a);
      var pre := Run(s, prefix);
      var st := Apply(pre.final, ops[|ops| - 1]);
      WithdrawnByConcat(pre.effects, st.effects, a);
      StepLedger(pre.final, ops[|ops| - 1], a);
    }
  }

  // ----- The host clock -----

  /** A call may run on a settled auction only at a time the window has passed:
      this is what a clock that never goes back guarantees. */
  predicate OnTime(s: State, op: Op) {
    s.ended ==> op.WithdrawOp? || op.now >= s.endAt
  }

  /** Every call of the run is on time for the state it meets. */
  predicate Timely(s: State, ops: seq<Op>)
    decreases |ops|
  {
    ops == [] ||
    (Timely(s, ops[..|ops| - 1]) && OnTime(Run(s, ops[..|ops| - 1]).final, ops[|ops| - 1]))
  }

  /** The block time after a run that started at time `t0`. */
  function Clock(t0: nat, ops: seq<Op>): nat
    decreases |ops|
  {
    if ops == [] then t0
    else if ops[|ops| - 1].WithdrawOp? then Clock(t0, ops[..|ops| - 1])
    else ops[|ops| - 1].now
  }

  /** No call of the run sees an earlier time than the one before it. */
  predicate MonotoneClock(t0: nat, ops: seq<Op>)
    decreases |ops|
  {
    ops == [] ||
    (MonotoneClock(t0, ops[..|ops| - 1]) &&
     (ops[|ops| - 1].WithdrawOp? || ops[|ops| - 1].now >= Clock(t0, ops[..|ops| - 1])))
  }

  /** A settled auction was settled no later than time `t`. */
  predicate Clocked(s: State, t: nat) {
    s.ended ==> s.endAt <= t
  }

  /** Under a clock that never goes back, every run is timely. */
  lemma {:induction false} MonotoneClockIsTimely(s: State, t0: nat, ops: seq<Op>)
    requires Inv(s) && Clocked(s, t0) && MonotoneClock(t0, ops)
    ensures Timely(s, ops) && Clocked(Run(s, ops).final, Clock(t0, ops))
    decreases |ops|
  {
    if ops != [] {
      var prefix := ops[..|ops| - 1];
      MonotoneClockIsTimely(s, t0, prefix);
      RunPreservesInv(s, prefix);
    }
  }

  /** A deployed auction driven by a clock that never goes back runs timely. */
  lemma DeployedRunIsTimely(nftAddress: Address, nftId: nat, seller: Address, escrow: Address,
                            t0: nat, ops: seq<Op>)
    requires MonotoneClock(t0, ops)
    ensures Timely(Init(nftAddress, nftId, seller, escrow), ops)
  {
    MonotoneClockIsTimely(Init(nftAddress, nftId, seller, escrow), t0, ops);
  }

  /** Once settled, the auction's outcome is frozen: no later timely call
      un-settles it or changes the winner, the price or the window. */
  lemma {:induction false} RunSettledIsFrozen(s: State, ops: seq<Op>)
    requires Inv(s) && s.ended && Timely(s, ops)
    ensures var f := Run(s, ops).final;
            f.ended && f.endAt == s.endAt &&
            f.highestBidder == s.highestBidder && f.highestBid == s.highestBid
    decreases |ops|
  {
    if ops != [] {
      RunSettledIsFrozen(s, ops[..|ops| - 1]);
      RunPreservesInv(s, ops[..|ops| - 1]);
    }
  }

  // ----- Conservation of the money held -----

  /** The money the contract must hold: every refund owed, plus the standing
      bid until it is paid to the seller at settlement. */
  ghost function Escrowed(s: State): nat {
    Total(s.bids) + (if s.ended then 0 else s.highestBid)
  }

  /** A standing bid always has a bidder to refund. */
  predicate LeaderFunded(s: State) {
    s.highestBidder == NO_BIDDER ==> s.highestBid == 0
  }

  /** No call of the run bids from the sentinel address. */
  predicate NonZeroBidders(ops: seq<Op>) {
    forall i :: 0 <= i < |ops| && ops[i].BidOp? ==> ops[i].caller != NO_BIDDER
  }

  lemma StepConservesFunds(s: State, op: Op)
    requires LeaderFunded(s) && OnTime(s, op)
    requires op.BidOp? ==> op.caller != NO_BIDDER
    ensures var t := Apply(s, op);
            LeaderFunded(t.post) &&
            Escrowed(s) + Received(t.effects) == Escrowed(t.post) + PaidOut(t.effects)
  {
    var t := Apply(s, op);
    StepFolds(s, op, NO_BIDDER);
    if t.outcome.Ok? {
      match op
      case StartOp(_, _, _) =>
      case BidOp(_, _, _) =>
        if s.highestBidder != NO_BIDDER {
          TotalUpdate(s.bids, s.highestBidder, Balance(s.bids, s.highestBidder) + s.highestBid);
        }
      case WithdrawOp(c) =>
        assert t.post.bids == s.bids[c := 0];
        TotalUpdate(s.bids, c, 0);
      case EndOp(_) =>
    }
  }

  /** Money taken in by the contract equals money paid out plus the change in
      what it holds: no call creates or destroys value. */
  lemma {:induction false} RunConservesFunds(s: State, ops: seq<Op>)
    requires LeaderFunded(s) && Timely(s, ops) && NonZeroBidders(ops)
    ensures var t := Run(s, ops);
            LeaderFunded(t.final) &&
            Escrowed(s) + Received(t.effects) == Escrowed(t.final) + PaidOut(t.effects)
    decreases |ops|
  {
    if ops != [] {
      var prefix := ops[..|ops| - 1];
      var op := ops[|ops| - 1];
      assert NonZeroBidders(prefix) by {
        forall i | 0 <= i < |prefix| && prefix[i].BidOp?
          ensures prefix[i].caller != NO_BIDDER
        {
          assert prefix[i] == ops[i];
        }
      }
      RunConservesFunds(s, prefix);
      var pre := Run(s, prefix);
      var st := Apply(pre.final, op);
      StepConservesFunds(pre.final, op);
      ReceivedConcat(pre.effects, st.effects);
      PaidOutConcat(pre.effects, st.effects);
    }
  }

  /** From deployment on, every accepted bid is either paid out or still held. */
  lemma DeployedConservesFunds(nftAddress: Address, nftId: nat, seller: Address, escrow: Address, ops: seq<Op>)
    requires Timely(Init(nftAddress, nftId, seller, escrow), ops) && NonZeroBidders(ops)
    ensures var t := Run(Init(nftAddress, nftId, seller, escrow), ops);
            Received(t.effects) == Escrowed(t.final) + PaidOut(t.effects)
  {
    RunConservesFunds(Init(nftAddress, nftId, seller, escrow), ops);
  }

  // ----- Custody of the asset -----

  /** The asset moves that `log` holds match the phase: none before the start,
      one into escrow while bidding is open, then one out of escrow to the winner
      (or back to the seller). */
  predicate Custody(s: State, log: seq<Effect>) {
    AssetMoves(log) ==
      if !s.started then []
      else if !s.ended then [Escrowing(s)]
      else [Escrowing(s), Settling(s)]
  }

  lemma StepKeepsCustody(s: State, op: Op, log: seq<Effect>)
    requires Inv(s) && Custody(s, log) && OnTime(s, op)
    ensures var t := Apply(s, op); Custody(t.post, log + t.effects)
  {
    var t := Apply(s, op);
    AssetMovesConcat(log, t.effects);
    StepFolds(s, op, NO_BIDDER);
  }

  lemma {:induction false} RunKeepsCustody(s: State, ops: seq<Op>, log: seq<Effect>)
    requires Inv(s) && Custody(s, log) && Timely(s, ops)
    ensures var t := Run(s, ops); Custody(t.final, log + t.effects)
    decreases |ops|
  {
    if ops == [] {
      assert log + [] == log;
    } else {
      var prefix := ops[..|ops| - 1];
      var op := ops[|ops| - 1];
      var pre := Run(s, prefix);
      assert Timely(s, prefix) && OnTime(pre.final, op);
      RunKeepsCustody(s, prefix, log);
      RunPreservesInv(s, prefix);
      var st := Apply(pre.final, op);
      StepKeepsCustody(pre.final, op, log + pre.effects);
      CustodyRegroup(st.post, log, pre.effects, st.effects);
    }
  }

  lemma CustodyRegroup(s: State, log: seq<Effect>, a: seq<Effect>, b: seq<Effect>)
    requires Custody(s, log + a + b)
    ensures Custody(s, log + (a + b))
  {
    assert log + a + b == log + (a + b);
  }

  /** From deployment on, the asset is moved only by the escrow transfer of
      `start` and then once by `end`, to the winner or back to the seller. */
  lemma DeployedCustody(nftAddress: Address, nftId: nat, seller: Address, escrow: Address, ops: seq<Op>)
    requires Timely(Init(nftAddress, nftId, seller, escrow), ops)
    ensures var t := Run(Init(nftAddress, nftId, seller, escrow), ops);
            Custody(t.final, t.effects)
  {
    var s := Init(nftAddress, nftId, seller, escrow);
    RunKeepsCustody(s, ops, []);
    assert [] + Run(s, ops).effects == Run(s, ops).effects;
  }
}
