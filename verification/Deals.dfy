/** Vocabulary shared by the two sides of a retrieval deal (retrieval/deal/status.go, types.go). */
module Deals {

  /** The statuses that either state machine of this model enters. */
  datatype Status =
    | New
    | WaitForAcceptance
    | PaymentChannelCreating
    | PaymentChannelAddingFunds
    | Accepted
    | Failing
    | Rejected
    | FundsNeeded
    | SendFunds
    | SendFundsLastPayment
    | Ongoing
    | FundsNeededLastPayment
    | Completed
    | DealNotFound
    | Errored
    | BlocksComplete
    | Finalizing
    | Completing
    | CheckComplete
    | CheckFunds
    | InsufficientFunds
    | PaymentChannelAllocatingLane
    | Cancelling
    | Cancelled
    | ClientWaitingForLastBlocks
    | PaymentChannelAddingInitialFunds

  /** Where an event leads from a status: nowhere, to a status (running its handler), to the
      same status (running its handler again), or nowhere with only the action recorded. */
  datatype Target = Invalid | To(status: Status) | NoChange | JustRecord

  /** What a deal response carries besides its message. */
  datatype Response = Response(dealId: nat, status: Status, paymentOwed: int)
}
