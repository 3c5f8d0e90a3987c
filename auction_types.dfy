/** Vocabulary shared by the auction model: addresses, the time constants,
    the error enum, call outcomes and the external effects a call produces. */
module AuctionTypes {

  /** An account address; the default (zero) address is the "no bidder" sentinel. */
  type Address = nat

  const NO_BIDDER: Address := 0

  /** Seconds in a day, and the fixed bidding window opened by `start`. */
  const ONE_DAY: nat := 24 * 60 * 60
  const BIDDING_WINDOW: nat := 7 * ONE_DAY

  /** The contract's error enum; each variant is a precondition violation. */
  datatype Error =
    | AlreadyStarted
    | NotSeller
    | AuctionEnded
    | BidTooLow
    | NotStarted
    | NotEnded

  /** The result of one call. An `Err` reverts the whole transaction in the host. */
  datatype Outcome = Ok | Err(error: Error)

  /** What a committed call does outside the contract's own storage: calls into
      the ERC-721 registry, native-currency payments and emitted log events.
      Results of the calls are not part of the effect: the contract ignores
      them (except in `start`, where the result is an input of the model). */
  datatype Effect =
    | TransferFrom(registry: Address, from: Address, to: Address, tokenId: nat)
    | SafeTransferFrom(registry: Address, from: Address, to: Address, tokenId: nat)
    | TransferEth(to: Address, amount: nat)
    | StartLog
    | BidLog(sender: Address, amount: nat)
    | WithdrawLog(bidder: Address, amount: nat)
    | EndLog(winner: Address, amount: nat)
  {
    /** True for the two registry calls that move the asset. */
    predicate IsAssetTransfer() {
      TransferFrom? || SafeTransferFrom?
    }
  }
}
