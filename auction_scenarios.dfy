/** Client code driving one `EnglishAuction` through whole auctions; each
    method's postcondition is what its calls' contracts alone let a caller conclude. */
module AuctionScenarios {
  import opened AuctionTypes
  import opened Ledger
  import opened AuctionSpec
  import opened Contract

  const SELLER: Address := 1
  const ALICE: Address := 2
  const BOB: Address := 3
  const NFT: Address := 10
  const TOKEN: nat := 7
  const ESCROW: Address := 99
  const T: nat := 1000

  /** The seller starts at T; Alice bids 10, Bob outbids her with 15, Alice
      takes back her 10, and after the window anyone settles: the asset goes
      to Bob and the seller is paid 15. */
  method OutbidWithdrawSettle() returns (a: EnglishAuction, outcomes: seq<Outcome>)
    ensures outcomes == [Ok, Ok, Ok, Ok, Ok]
    ensures a.ended && a.highestBidder == BOB && a.highestBid == 15
    ensures Balance(a.bids, ALICE) == 0 && Balance(a.bids, BOB) == 0
    ensures a.log == [TransferFrom(NFT, SELLER, ESCROW, TOKEN), StartLog,
                      BidLog(ALICE, 10), BidLog(BOB, 15),
                      TransferEth(ALICE, 10), WithdrawLog(ALICE, 10),
                      SafeTransferFrom(NFT, ESCROW, BOB, TOKEN), TransferEth(SELLER, 15), EndLog(BOB, 15)]
  {
    a := new EnglishAuction(NFT, TOKEN, SELLER, ESCROW);
    var r1 := a.Start(SELLER, T, true);
    var r2 := a.Bid(ALICE, T + 1, 10);
    var r3 := a.Bid(BOB, T + 2, 15);
    assert Balance(a.bids, ALICE) == 10;
    var r4 := a.Withdraw(ALICE);
    var r5 := a.End(T + BIDDING_WINDOW + 1);
    outcomes := [r1, r2, r3, r4, r5];
  }

  /** Nobody bids: settlement returns the asset to the seller, moves no money
      and reports the sentinel winner with amount 0. */
  method SettleWithoutBids() returns (a: EnglishAuction, outcomes: seq<Outcome>)
    ensures outcomes == [Ok, Ok]
    ensures a.ended && a.highestBidder == NO_BIDDER
    ensures a.log == [TransferFrom(NFT, SELLER, ESCROW, TOKEN), StartLog,
                      SafeTransferFrom(NFT, ESCROW, SELLER, TOKEN), EndLog(NO_BIDDER, 0)]
  {
    a := new EnglishAuction(NFT, TOKEN, SELLER, ESCROW);
    var r1 := a.Start(SELLER, T, true);
    var r2 := a.End(T + BIDDING_WINDOW);
    outcomes := [r1, r2];
  }

  /** Calls that fail leave the auction as deployed: a stranger's `start`, a
      `start` whose escrow transfer is refused (both `NotSeller`), a `bid`
      before the start (also `NotSeller`) and an `end` before the start. */
  method RejectedBeforeStart() returns (a: EnglishAuction, outcomes: seq<Outcome>)
    ensures outcomes == [Err(NotSeller), Err(NotSeller), Err(NotSeller), Err(NotStarted)]
    ensures a.Snapshot() == Init(NFT, TOKEN, SELLER, ESCROW) && a.log == []
  {
    a := new EnglishAuction(NFT, TOKEN, SELLER, ESCROW);
    var r1 := a.Start(ALICE, T, true);
    var r2 := a.Start(SELLER, T, false);
    var r3 := a.Bid(ALICE, T, 10);
    var r4 := a.End(T);
    outcomes := [r1, r2, r3, r4];
  }

  /** While bidding is open: a second `start` fails with `AlreadyStarted`, a bid
      equal to the leader's fails with `BidTooLow`, an early `end` fails with
      `NotEnded`; a bid at `endAt` fails with `AuctionEnded`, and a second `end`
      fails with `AuctionEnded`. None of them changes the leader. */
  method RejectedWhileRunning() returns (a: EnglishAuction, outcomes: seq<Outcome>)
    ensures outcomes == [Ok, Ok, Err(AlreadyStarted), Err(BidTooLow), Err(NotEnded),
                         Err(AuctionEnded), Ok, Err(AuctionEnded)]
    ensures a.highestBidder == ALICE && a.highestBid == 10
  {
    a := new EnglishAuction(NFT, TOKEN, SELLER, ESCROW);
    var r1 := a.Start(SELLER, T, true);
    var r2 := a.Bid(ALICE, T + 1, 10);
    var r3 := a.Start(SELLER, T + 2, true);
    var r4 := a.Bid(BOB, T + 3, 10);
    var r5 := a.End(T + 4);
    var r6 := a.Bid(BOB, T + BIDDING_WINDOW, 20);
    var r7 := a.End(T + BIDDING_WINDOW);
    var r8 := a.End(T + BIDDING_WINDOW + 1);
    outcomes := [r1, r2, r3, r4, r5, r6, r7, r8];
  }

  /** A bid from the sentinel address is taken but never credited when outbid:
      the outbid-refund step skips the "no bidder" address. */
  method SentinelBidIsNotRefunded() returns (a: EnglishAuction, outcomes: seq<Outcome>)
    ensures outcomes == [Ok, Ok, Ok]
    ensures a.highestBidder == BOB && Balance(a.bids, NO_BIDDER) == 0
  {
    a := new EnglishAuction(NFT, TOKEN, SELLER, ESCROW);
    var r1 := a.Start(SELLER, T, true);
    var r2 := a.Bid(NO_BIDDER, T + 1, 10);
    var r3 := a.Bid(BOB, T + 2, 15);
    outcomes := [r1, r2, r3];
  }
}
