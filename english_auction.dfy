/** The `EnglishAuction` contract as an object whose methods update its
    storage fields in place. Host context (caller, block time, attached
    value, the escrow transfer's result) comes in as parameters; the calls
    the contract makes to the outside are appended to a ghost log. */
module Contract {
  import opened AuctionTypes
  import opened Ledger
  import opened AuctionSpec

  class EnglishAuction {
    const nftAddress: Address
    const nftId: nat
    const seller: Address
    /** The contract's own address, which holds the asset in escrow. */
    const escrow: Address

    var endAt: nat
    var started: bool
    var ended: bool
    var highestBidder: Address
    var highestBid: nat
    /** Refunds owed to outbid bidders. */
    var bids: map<Address, nat>

    /** Every registry call, payment and event of the committed calls, in order. */
    ghost var log: seq<Effect>

    /** The storage as a value. */
    function Snapshot(): State
      reads this
    {
      State(nftAddress, nftId, seller, escrow, endAt, started, ended, highestBidder, highestBid, bids)
    }

    ghost predicate Valid()
      reads this
    {
      Inv(Snapshot())
    }

    constructor (nftAddress: Address, nftId: nat, seller: Address, escrow: Address)
      ensures Valid()
      ensures Snapshot() == Init(nftAddress, nftId, seller, escrow)
      ensures log == []
    {
      this.nftAddress := nftAddress;
      this.nftId := nftId;
      this.seller := seller;
      this.escrow := escrow;
      endAt := 0;
      started := false;
      ended := false;
      highestBidder := NO_BIDDER;
      highestBid := 0;
      bids := map[];
      log := [];
    }

    method Start(caller: Address, now: nat, transferOk: bool) returns (r: Outcome)
      requires Valid()
      modifies this
      ensures Valid()
      ensures var t := StartStep(old(Snapshot()), caller, now, transferOk);
              Snapshot() == t.post && r == t.outcome && log == old(log) + t.effects
      ensures r.Ok? <==> !old(started) && caller == seller && transferOk
      ensures r.Ok? ==> started && endAt == now + 7 * ONE_DAY
    {
      if started {
        return Err(AlreadyStarted);
      }
      if seller != caller {
        return Err(NotSeller);
      }
      // transferFrom(caller, escrow, nftId) on the registry answered `transferOk`.
      if !transferOk {
        return Err(NotSeller);
      }
      started := true;
      endAt := now + 7 * ONE_DAY;
      log := log + [TransferFrom(nftAddress, caller, escrow, nftId), StartLog];
      return Ok;
    }

    method Bid(caller: Address, now: nat, value: nat) returns (r: Outcome)
      requires Valid()
      modifies this
      ensures Valid()
      ensures var t := BidStep(old(Snapshot()), caller, now, value);
              Snapshot() == t.post && r == t.outcome && log == old(log) + t.effects
      ensures r.Ok? ==> highestBidder == caller && highestBid == value > old(highestBid)
    {
      if !started {
        return Err(NotSeller);
      }
      if now >= endAt {
        return Err(AuctionEnded);
      }
      if value <= highestBid {
        return Err(BidTooLow);
      }
      if highestBidder != NO_BIDDER {
        var current := Balance(bids, highestBidder);
        bids := bids[highestBidder := current + highestBid];
      }
      highestBidder := caller;
      highestBid := value;
      log := log + [BidLog(caller, value)];
      return Ok;
    }

    method Withdraw(caller: Address) returns (r: Outcome)
      requires Valid()
      modifies this
      ensures Valid()
      ensures var t := WithdrawStep(old(Snapshot()), caller);
              Snapshot() == t.post && r == t.outcome && log == old(log) + t.effects
      ensures Balance(bids, caller) == 0
    {
      var bal := Balance(bids, caller);
      bids := bids[caller := 0];
      // The payment's result is ignored: the call commits whatever it returns.
      log := log + [TransferEth(caller, bal), WithdrawLog(caller, bal)];
      return Ok;
    }

    method End(now: nat) returns (r: Outcome)
      requires Valid()
      modifies this
      ensures Valid()
      ensures var t := EndStep(old(Snapshot()), now);
              Snapshot() == t.post && r == t.outcome && log == old(log) + t.effects
      ensures r.Ok? <==> old(started) && now >= endAt && !old(ended)
    {
      if !started {
        return Err(NotStarted);
      }
      if now < endAt {
        return Err(NotEnded);
      }
      if ended {
        return Err(AuctionEnded);
      }
      ended := true;
      // The results of the registry call and of the payment are ignored.
      if highestBidder != NO_BIDDER {
        log := log + [SafeTransferFrom(nftAddress, escrow, highestBidder, nftId),
                      TransferEth(seller, highestBid)];
      } else {
        log := log + [SafeTransferFrom(nftAddress, escrow, seller, nftId)];
      }
      log := log + [EndLog(highestBidder, highestBid)];
      return Ok;
    }
  }
}
