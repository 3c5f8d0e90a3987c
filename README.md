# English auction state machine

This project models the `EnglishAuction` contract, an English (ascending-bid)
auction for one ERC-721 token. The model is written in Dafny, with proofs.

The seller escrows the token with `start`, which opens a seven-day bidding
window. Anyone may `bid` while the window is open, and a bid must strictly
exceed the standing one. An outbid leader's standing bid is credited to
a refund ledger, which its owner drains with `withdraw`. Once the window has
elapsed, anyone may call `end`. It hands the token to the leader and the
winning bid to the seller, or returns the token to the seller when nobody bid.

The project has six files:

- `auction_types.dfy` (`AuctionTypes`): addresses, the day and window
  constants, the six errors of the contract's error enum, call outcomes, and
  the external effects of a call. The effects are the two ERC-721 calls,
  `transfer_eth`, and the four log events.
- `ledger.dfy` (`Ledger`): the `bids` mapping as a Dafny `map`. A missing
  key reads as 0. `Total` is the sum of all balances, and a lemma says how one
  write changes that sum.
- `auction_spec.dfy` (`AuctionSpec`): the storage as a `State` value. Each
  external method is a step function from the old state and the host context
  to the new state, the outcome and the effects. Their postconditions give the
  error order, which fields change and how, and which external calls and
  events are made.
- `english_auction.dfy` (`Contract`): the contract as a class. Its fields are
  updated in place by `Start`, `Bid`, `Withdraw` and `End`. A ghost `log`
  records the external effects. Each method is proved to leave exactly the
  state, outcome and effects of its step function, and to keep the phase
  invariant `Valid()`.
- `auction_runs.dfy` (`AuctionRuns`): arbitrary sequences of calls (`Run`).
  These lemmas are proved about runs, each under the hypotheses named:
  - from a state satisfying the phase invariant, the invariant still holds;
  - for every run, the configuration never changes, the phase only moves
    forward, and the window stays fixed once started;
  - for every run, accepted bids strictly increase, and the standing bid and
    its bidder are those of the last accepted bid;
  - for every run, each address's refund balance plus what it withdrew
    equals its starting balance plus what was credited to it;
  - for a timely run (no call but `withdraw` reaches a settled auction
    before `endAt`) with no bid from address 0, starting where a standing
    bid always has a bidder, money is conserved;
  - for a timely run from a state satisfying the phase invariant whose
    token moves match its phase, the token moves at most twice, in this
    order: into escrow at `start`, and out of escrow at `end`.
- `auction_scenarios.dfy` (`AuctionScenarios`): client code that drives the
  class through whole auctions, including the rejected calls.

Host context is passed in as parameters:

- the caller (`msg::sender()`);
- the block time (`block::timestamp()`);
- the attached value (`msg::value()`);
- the registry's answer to the escrow `transferFrom` in `start`.

The contract's own address (`contract::address()`) is the constructor
parameter `escrow`. Address 0 is the "no bidder" sentinel. An `Err` outcome
reverts the transaction in the host, so a failed call has no state change
and no effects.

Several behaviours of the code are worth noting:

- A `bid` before `start` fails with `NotSeller`, not `NotStarted`
  (src/lib.rs:100-101).
- A refused escrow transfer in `start` is also reported as `NotSeller`
  (src/lib.rs:91-92).
- `withdraw` and `end` ignore the results of their outgoing transfers and
  commit anyway (src/lib.rs:131-132, src/lib.rs:161-168). So a payment that
  fails during `withdraw` loses that refund; the model records the payment as
  requested and zeroes the balance.
- `bid` has no `ended` check. After settlement it is rejected only because
  the block time has passed `endAt`. The money-conservation, custody and settlement lemmas
  therefore assume a clock that never goes back (`Timely`, implied by
  `MonotoneClock`).
- Conservation of money also assumes that no bid comes from address 0. That
  address is never credited when outbid (src/lib.rs:112), as
  `SentinelBidIsNotRefunded` shows.

## Model

| member | source | states |
|---|---|---|
| AuctionSpec.Init | src/lib.rs:46-61 | A deployed auction is not started and not ended. Nobody leads, the standing bid is 0 and every refund balance is 0. |
| AuctionSpec.StartStep | src/lib.rs:68-96 | `start` succeeds exactly when the auction is not started, the caller is the seller and the escrow transfer is accepted. `AlreadyStarted` is checked first. A wrong caller and a refused transfer then both give `NotSeller`. On failure nothing changes. On success only `started` becomes true and `endAt = now + 7 days`. It requests `transferFrom(seller, escrow, nftId)` and emits `Start`. |
| AuctionSpec.BidStep | src/lib.rs:98-126 | `bid` succeeds exactly when the auction is started, `now < endAt` and the value exceeds the standing bid. Errors come in order: `NotSeller` before the start, then `AuctionEnded`, then `BidTooLow`, each with no change. On success the caller leads with its value, which strictly exceeds the old bid. A non-sentinel previous leader's refund grows by exactly its standing bid, no other balance changes, and `Bid(caller, value)` is emitted. |
| AuctionSpec.WithdrawStep | src/lib.rs:128-139 | `withdraw` always succeeds. The caller's balance becomes 0 and every other balance and field is unchanged. It pays the caller its prior balance and emits `Withdraw` with that amount. |
| AuctionSpec.EndStep | src/lib.rs:141-175 | `end` succeeds exactly when the auction is started, `now >= endAt` and it is not yet ended. Errors come in order `NotStarted`, `NotEnded`, `AuctionEnded`, each with no change. On success only `ended` changes. With a leader, the asset goes from escrow to the leader and the standing bid is paid to the seller. Otherwise the asset goes back to the seller and nothing is paid. Either way `End(highestBidder, highestBid)` is emitted. |
| AuctionSpec.WithdrawTwicePaysOnce | src/lib.rs:128-139 | Two withdrawals in a row: the first pays the balance, the second pays 0 and changes nothing. |
| Contract.EnglishAuction.constructor | src/lib.rs:46-61 | A new object holds the deployed storage, satisfies the phase invariant and has an empty effect log. |
| Contract.EnglishAuction.Start | src/lib.rs:68-96 | Updates the fields in place to exactly `StartStep`'s state, returns its outcome and appends its effects. It succeeds exactly for the seller on an unstarted auction with an accepted transfer, and then sets `endAt = now + 7 * ONE_DAY`. |
| Contract.EnglishAuction.Bid | src/lib.rs:98-126 | Updates the fields and the ledger in place to exactly `BidStep`'s state, returns its outcome and appends its effects. On success the caller leads with a strictly higher bid. |
| Contract.EnglishAuction.Withdraw | src/lib.rs:128-139 | Updates the ledger in place to exactly `WithdrawStep`'s state and appends the payment and event. Afterwards the caller's balance is 0. |
| Contract.EnglishAuction.End | src/lib.rs:141-175 | Updates `ended` in place to exactly `EndStep`'s state and appends the hand-off, the payment and the event. It succeeds exactly once the window has elapsed on a started, unsettled auction. |
| AuctionRuns.Apply | src/lib.rs:68-175 | Every call preserves the phase invariant (ended implies started; nobody leads before the start). No call changes the configuration. Once started, `endAt` never changes. Settlement is never undone. The standing bid never drops. Only a successful `end` settles, and only at or after `endAt`. |
| AuctionRuns.Run | src/lib.rs:68-175 | A run has one outcome per call. |
| AuctionRuns.RunPreservesInv | src/lib.rs:141-154 | From a state satisfying the phase invariant, after any sequence of calls `ended` still implies `started`, and an unstarted auction has no leader and no standing bid. |
| AuctionRuns.RunMonotone | src/lib.rs:69-87 | Along any run the seller, asset and escrow addresses are fixed. A started auction stays started with the same `endAt`. A settled one stays settled. The standing bid never decreases. |
| AuctionRuns.RunBidsIncrease | src/lib.rs:108-124 | The amounts of the accepted bids in any run are strictly increasing. All of them exceed the starting standing bid and are at most the final standing bid. |
| AuctionRuns.RunLeaderIsLastBid | src/lib.rs:108-124 | After any run, the standing bid is the amount of the last accepted bid and `highestBidder` is its sender. A run that accepts no bid leaves both as they were. |
| AuctionRuns.StepLedger | src/lib.rs:112-131 | In one call, an address's new balance plus what it withdrew equals its old balance plus what the call credited to it. |
| AuctionRuns.RunLedgerAccounting | src/lib.rs:112-131 | For every address and run, final balance plus total withdrawn equals initial balance plus total credited: the ledger neither creates nor loses value. |
| AuctionRuns.MonotoneClockIsTimely | src/lib.rs:104-106 | If the block time never goes back, then every call on a settled auction comes at or after `endAt`. This is what keeps a settled auction closed to bids. |
| AuctionRuns.DeployedRunIsTimely | src/lib.rs:104-106 | A deployed auction driven by a non-decreasing clock runs timely. |
| AuctionRuns.RunSettledIsFrozen | src/lib.rs:104-106 | Under a timely clock, once settled the auction keeps its winner, price and window for good. |
| AuctionRuns.StepConservesFunds | src/lib.rs:112-164 | When a standing bid always has a bidder (`LeaderFunded`), the call is on time for the state (`OnTime`) and a bid does not come from address 0: one call changes the money the contract must hold by what it takes in minus what it pays out, and keeps `LeaderFunded`. What it must hold is all refunds owed plus the standing bid until settlement. |
| AuctionRuns.RunConservesFunds | src/lib.rs:112-164 | For any timely run (`Timely`) with no bid from address 0 (`NonZeroBidders`), from a state where a standing bid always has a bidder: money held before plus bids taken in equals money held after plus payments made. |
| AuctionRuns.DeployedConservesFunds | src/lib.rs:112-164 | From deployment on, for a timely run with no bid from address 0: every accepted bid has been paid out or is still held, as a refund or as the standing bid. |
| AuctionRuns.StepKeepsCustody | src/lib.rs:77-168 | From a state satisfying the phase invariant whose token moves match its phase, one on-time call (`OnTime`) keeps them matched: none before the start, the escrow transfer while bidding is open, then the hand-off to the winner or the seller. |
| AuctionRuns.RunKeepsCustody | src/lib.rs:77-168 | From a state satisfying the phase invariant whose token moves match its phase, any timely run (`Timely`) keeps them matched. |
| AuctionRuns.DeployedCustody | src/lib.rs:77-168 | From deployment on, for a timely run, the only token moves are `transferFrom(seller, escrow)` at `start` and, after it, one `safeTransferFrom` out of escrow to the leader or, with no leader, to the seller. |
| AuctionScenarios.OutbidWithdrawSettle | src/lib.rs:68-175 | Alice bids 10, Bob outbids her with 15, and Alice withdraws 10. Settlement gives the asset to Bob and pays the seller 15, with this exact effect log. |
| AuctionScenarios.SettleWithoutBids | src/lib.rs:161-173 | With no bids, settlement returns the asset to the seller, pays nothing and reports `End(0, 0)`. |
| AuctionScenarios.RejectedBeforeStart | src/lib.rs:68-101 | A stranger's `start`, a `start` with a refused escrow transfer and a premature `bid` all fail with `NotSeller`, and `end` fails with `NotStarted`. None of them changes anything. |
| AuctionScenarios.RejectedWhileRunning | src/lib.rs:69-152 | On a running auction: a second `start` fails with `AlreadyStarted`, an equal bid with `BidTooLow`, and an early `end` with `NotEnded`. A bid at `endAt` and a second `end` fail with `AuctionEnded`. The leader is unchanged. |
| AuctionScenarios.SentinelBidIsNotRefunded | src/lib.rs:112-119 | A bid from address 0 is accepted but never credited when it is outbid. |

## Left out

- The ERC-721 calls and `transfer_eth` are foreign calls. They are recorded
  as effects. The escrow transfer's result in `start` is an input to the
  model. The results in `end` and `withdraw` are not modelled, because the
  code ignores them.
- Host context (`msg::sender()`, `msg::value()`, `block::timestamp()`,
  `contract::address()`) is passed as parameters or fixed at construction.
- The width of the integers is not modelled. The balances, bids and times
  are unbounded naturals. The model leaves out the overflow of the U256 sum
  `current_bid + highestBid` (src/lib.rs:115), of the u64 sum
  `timestamp + 7 * ONE_DAY` (src/lib.rs:87), and the U256 conversion of the
  timestamp.
- Reentrancy through the registry or the payee is not modelled, because calls
  run one at a time here. `withdraw` and `end` write their storage before
  their external calls. `start` calls the registry before it writes.
- A value attached to the non-payable `start`, `withdraw` and `end` is not
  modelled, because the host rejects such a call before the contract runs.
- The ABI encoding of events and errors is not modelled. Neither are the
  `sol!`, `sol_storage!` and `sol_interface!` macros, the allocator or the
  `export-abi` entry point. They are plumbing.
- How `seller`, `nftAddress` and `nftId` are initialised is not part of this
  model, because the source does not set them. The constructor takes them as
  parameters.
