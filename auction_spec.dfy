/** The `EnglishAuction` storage as a value, and each external method as a
    function from the state before a call (and the call's host context) to
    the state after it, the call's outcome and its external effects. */
module AuctionSpec {
  import opened AuctionTypes
  import opened Ledger

  /** The contract's persistent storage. `escrow` is the contract's own
      address (`contract::address()`), fixed for a deployment. */
  datatype State = State(
    nftAddress: Address,
    nftId: nat,
    seller: Address,
    escrow: Address,
    endAt: nat,
    started: bool,
    ended: bool,
    highestBidder: Address,
    highestBid: nat,
    bids: map<Address, nat>)

  /** One call: the state it leaves, what it returns and what it does outside storage. */
  datatype Step = Step(post: State, outcome: Outcome, effects: seq<Effect>)

  /** The parts of the storage that no method ever writes. */
  predicate SameConfig(s: State, s': State) {
    s'.nftAddress == s.nftAddress && s'.nftId == s.nftId &&
    s'.seller == s.seller && s'.escrow == s.escrow
  }

  /** The phase invariant: nothing ends before it starts, and before the start
      nobody leads and nothing is at stake. */
  predicate Inv(s: State) {
    (s.ended ==> s.started) &&
    (!s.started ==> s.highestBidder == NO_BIDDER && s.highestBid == 0)
  }

  /** Freshly deployed storage: every field at its default except the configuration. */
  function Init(nftAddress: Address, nftId: nat, seller: Address, escrow: Address): (s: State)
    ensures Inv(s) && !s.started && !s.ended
    ensures s.highestBidder == NO_BIDDER && s.highestBid == 0
    ensures forall a :: Balance(s.bids, a) == 0
  {
    State(nftAddress, nftId, seller, escrow, 0, false, false, NO_BIDDER, 0, map[])
  }

  /** A failed call reverts: storage is untouched and nothing happens outside it. */
  function Revert(s: State, e: Error): Step {
    Step(s, Err(e), [])
  }

  /** The registry call `start` makes to take the asset from the seller into escrow. */
  function Escrowing(s: State): Effect {
    TransferFrom(s.nftAddress, s.seller, s.escrow, s.nftId)
  }

  /** `start`: the seller escrows the asset and opens the bidding window.
      `transferOk` is whether the registry accepted `transferFrom(caller, escrow, nftId)`. */
  function StartStep(s: State, caller: Address, now: nat, transferOk: bool): (t: Step)
    ensures t.outcome.Ok? <==> !s.started && caller == s.seller && transferOk
    ensures s.started ==> t.outcome == Err(AlreadyStarted)
    ensures !s.started && (caller != s.seller || !transferOk) ==> t.outcome == Err(NotSeller)
    ensures t.outcome.Err? ==> t.post == s && t.effects == []
    ensures t.outcome.Ok? ==>
      t.post == s.(started := true, endAt := now + BIDDING_WINDOW) &&
      t.effects == [TransferFrom(s.nftAddress, s.seller, s.escrow, s.nftId), StartLog]
    ensures Inv(s) ==> Inv(t.post)
  {
    if s.started then Revert(s, AlreadyStarted)
    else if caller != s.seller then Revert(s, NotSeller)
    else if !transferOk then Revert(s, NotSeller)
    else
      // Here the caller is the seller, so the transfer is taken from the caller.
      Step(s.(started := true, endAt := now + BIDDING_WINDOW), Ok, [Escrowing(s), StartLog])
  }

  /** The ledger after the leader `s.highestBidder` is outbid. */
  function CreditOutbid(s: State): map<Address, nat> {
    if s.highestBidder != NO_BIDDER then
      s.bids[s.highestBidder := Balance(s.bids, s.highestBidder) + s.highestBid]
    else s.bids
  }

  /** `bid`: `caller` attaches `value`; a strictly higher bid in the window takes the
      lead and the previous leader's standing bid becomes withdrawable. */
  function BidStep(s: State, caller: Address, now: nat, value: nat): (t: Step)
    ensures t.outcome.Ok? <==> s.started && now < s.endAt && value > s.highestBid
    ensures !s.started ==> t.outcome == Err(NotSeller)
    ensures s.started && now >= s.endAt ==> t.outcome == Err(AuctionEnded)
    ensures s.started && now < s.endAt && value <= s.highestBid ==> t.outcome == Err(BidTooLow)
    ensures t.outcome.Err? ==> t.post == s && t.effects == []
    ensures t.outcome.Ok? ==>
      t.post == s.(highestBidder := caller, highestBid := value, bids := t.post.bids) &&
      t.post.highestBid > s.highestBid &&
      t.effects == [BidLog(caller, value)]
    ensures t.outcome.Ok? && s.highestBidder != NO_BIDDER ==>
      Balance(t.post.bids, s.highestBidder) == Balance(s.bids, s.highestBidder) + s.highestBid
    ensures t.outcome.Ok? ==> forall a :: a != s.highestBidder || a == NO_BIDDER ==>
      Balance(t.post.bids, a) == Balance(s.bids, a)
    ensures Inv(s) ==> Inv(t.post)
  {
    if !s.started then Revert(s, NotSeller)
    else if now >= s.endAt then Revert(s, AuctionEnded)
    else if value <= s.highestBid then Revert(s, BidTooLow)
    else
      Step(s.(highestBidder := caller, highestBid := value, bids := CreditOutbid(s)), Ok,
           [BidLog(caller, value)])
  }

  /** `withdraw`: pays `caller` its whole refund balance, in any phase. */
  function WithdrawStep(s: State, caller: Address): (t: Step)
    ensures t.outcome == Ok
    ensures t.post == s.(bids := t.post.bids)
    ensures Balance(t.post.bids, caller) == 0
    ensures forall a :: a != caller ==> Balance(t.post.bids, a) == Balance(s.bids, a)
    ensures t.effects == [TransferEth(caller, Balance(s.bids, caller)),
                          WithdrawLog(caller, Balance(s.bids, caller))]
    ensures Inv(s) ==> Inv(t.post)
  {
    var bal := Balance(s.bids, caller);
    Step(s.(bids := s.bids[caller := 0]), Ok, [TransferEth(caller, bal), WithdrawLog(caller, bal)])
  }

  /** Who receives the asset at settlement: the leader, or the seller when nobody bid. */
  function Recipient(s: State): Address {
    if s.highestBidder != NO_BIDDER then s.highestBidder else s.seller
  }

  /** The registry call `end` makes to hand the asset out of escrow. */
  function Settling(s: State): Effect {
    SafeTransferFrom(s.nftAddress, s.escrow, Recipient(s), s.nftId)
  }

  /** `end`: anyone may settle once the window has elapsed; the asset goes to the
      leader and the winning bid to the seller, or the asset back to the seller. */
  function EndStep(s: State, now: nat): (t: Step)
    ensures t.outcome.Ok? <==> s.started && now >= s.endAt && !s.ended
    ensures !s.started ==> t.outcome == Err(NotStarted)
    ensures s.started && now < s.endAt ==> t.outcome == Err(NotEnded)
    ensures s.started && now >= s.endAt && s.ended ==> t.outcome == Err(AuctionEnded)
    ensures t.outcome.Err? ==> t.post == s && t.effects == []
    ensures t.outcome.Ok? ==> t.post == s.(ended := true)
    ensures t.outcome.Ok? && s.highestBidder != NO_BIDDER ==>
      t.effects == [SafeTransferFrom(s.nftAddress, s.escrow, s.highestBidder, s.nftId),
                    TransferEth(s.seller, s.highestBid),
                    EndLog(s.highestBidder, s.highestBid)]
    ensures t.outcome.Ok? && s.highestBidder == NO_BIDDER ==>
      t.effects == [SafeTransferFrom(s.nftAddress, s.escrow, s.seller, s.nftId),
                    EndLog(NO_BIDDER, s.highestBid)]
    ensures Inv(s) ==> Inv(t.post)
  {
    if !s.started then Revert(s, NotStarted)
    else if now < s.endAt then Revert(s, NotEnded)
    else if s.ended then Revert(s, AuctionEnded)
    else
      var payout := if s.highestBidder != NO_BIDDER then [TransferEth(s.seller, s.highestBid)] else [];
      Step(s.(ended := true), Ok,
           [Settling(s)] + payout +
           [EndLog(s.highestBidder, s.highestBid)])
  }

  /** Withdrawing twice in a row pays the balance once: the second call pays 0
      and leaves the storage as the first left it. */
  lemma WithdrawTwicePaysOnce(s: State, caller: Address)
    ensures var first := WithdrawStep(s, caller);
            var second := WithdrawStep(first.post, caller);
            first.effects[0] == TransferEth(caller, Balance(s.bids, caller)) &&
            second.effects[0] == TransferEth(caller, 0) &&
            second.post == first.post
  {
    var first := WithdrawStep(s, caller);
    assert first.post.bids[caller := 0] == first.post.bids;
  }
}
