/** The provider's state machine (retrieval/provider/fsm.go). */
module Provider {
  import opened Options
  import opened Deals
  import opened Intervals

  type Address = string

  datatype ProviderState = ProviderState(
    params: Params,
    dealId: nat,
    status: Status,
    totalSent: nat,
    fundsReceived: int,
    currentInterval: nat,
    payCh: Option<Address>)

  datatype Event =
    | Open
    | DealAccepted
    | BlockSent(totalSent: nat)
    | BlocksCompleted
    | PaymentRequested(totalSent: nat)
    | SaveVoucherFailed
    | PartialPaymentReceived(received: int, ch: Address)
    | PaymentReceived(received: int, ch: Address)
    | Complete
    | CleanupComplete
    | CancelComplete
    | DataTransferError
    | MultiStoreError
    | ClientCancelled

  /** The transition table. Nothing leaves a finality state. */
  function Transition(s: Status, e: Event): Target {
    if s in {Errored, Completed, Cancelled} then Invalid
    else
      match e
      case Open => if s == New then NoChange else Invalid
      case DealAccepted => if s == New then To(Ongoing) else Invalid
      case BlockSent(_) => if s == Ongoing then NoChange else Invalid
      case BlocksCompleted => if s == Ongoing then To(BlocksComplete) else Invalid
      case PaymentRequested(_) => (
        match s
        case Ongoing => To(FundsNeeded)
        case FundsNeeded => JustRecord
        case BlocksComplete => To(FundsNeededLastPayment)
        case _ => Invalid)
      case SaveVoucherFailed =>
        if s in {FundsNeeded, FundsNeededLastPayment} then To(Failing) else Invalid
      case PartialPaymentReceived(_, _) =>
        if s in {FundsNeeded, FundsNeededLastPayment} then NoChange else Invalid
      case PaymentReceived(_, _) => (
        match s
        case FundsNeeded => To(Ongoing)
        case FundsNeededLastPayment => To(Finalizing)
        case BlocksComplete => JustRecord
        case Ongoing => JustRecord
        case Finalizing => JustRecord
        case _ => Invalid)
      case Complete => if s in {BlocksComplete, Finalizing} then To(Completing) else Invalid
      case CleanupComplete => if s == Completing then To(Completed) else Invalid
      case CancelComplete => (
        match s
        case Cancelling => To(Cancelled)
        case Failing => To(Errored)
        case _ => Invalid)
      case DataTransferError => To(Errored)
      case MultiStoreError => To(Errored)
      case ClientCancelled => if s in {Failing, Cancelling} then JustRecord else To(Cancelling)
  }

  /** What an event's action does to the recorded amounts. */
  function Act(ds: ProviderState, e: Event): ProviderState
  {
    match e
    case BlockSent(total) => ds.(totalSent := total)
    case PaymentRequested(total) => ds.(totalSent := total)
    case PartialPaymentReceived(received, ch) =>
      ds.(fundsReceived := ds.fundsReceived + received, payCh := Some(ch))
    case PaymentReceived(received, ch) =>
      ds.(fundsReceived := ds.fundsReceived + received,
          currentInterval := NextInterval(ds.params, ds.currentInterval),
          payCh := Some(ch))
    case _ => ds
  }

  /** An event that the table does not allow leaves the deal as it was. */
  function Apply(ds: ProviderState, e: Event): ProviderState
  {
    match Transition(ds.status, e)
    case Invalid => ds
    case To(s) => Act(ds, e).(status := s)
    case _ => Act(ds, e)
  }

  /** The deals of a provider, updated in place by the events sent to them. */
  class StateMachines {
    var deals: map<nat, ProviderState>

    ghost predicate Valid()
      reads this
    {
      forall id :: id in deals ==> deals[id].dealId == id
    }

    constructor ()
      ensures Valid() && deals == map[]
    {
      deals := map[];
    }

    method Begin(ds: ProviderState) returns (ok: bool)
      requires Valid()
      modifies this
      ensures Valid()
      ensures ok == (ds.dealId !in old(deals))
      ensures deals == if ok then old(deals)[ds.dealId := ds] else old(deals)
    {
      ok := ds.dealId !in deals;
      if ok {
        deals := deals[ds.dealId := ds];
      }
    }

    /** Sends an event to a tracked deal; events to unknown deals fail. */
    method Send(id: nat, e: Event) returns (ok: bool)
      requires Valid()
      modifies this
      ensures Valid()
      ensures ok == (id in old(deals))
      ensures deals == if ok then old(deals)[id := Apply(old(deals)[id], e)] else old(deals)
    {
      ok := id in deals;
      if !ok { return; }
      var ds := deals[id];
      var target := Transition(ds.status, e);
      if target.Invalid? { return; }
      match e {
        case BlockSent(total) => ds := ds.(totalSent := total);
        case PaymentRequested(total) => ds := ds.(totalSent := total);
        case PartialPaymentReceived(received, ch) =>
          ds := ds.(fundsReceived := ds.fundsReceived + received);
          ds := ds.(payCh := Some(ch));
        case PaymentReceived(received, ch) =>
          ds := ds.(fundsReceived := ds.fundsReceived + received);
          var next := ComputeNextInterval(ds.params, ds.currentInterval);
          ds := ds.(currentInterval := next);
          ds := ds.(payCh := Some(ch));
        case _ =>
      }
      if target.To? {
        ds := ds.(status := target.status);
      }
      deals := deals[id := ds];
    }
  }
}
