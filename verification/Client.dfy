/** The client's state machine (retrieval/client/fsm.go): event table, actions and handlers. */
module Client {
  import opened Options
  import opened Deals
  import opened Intervals

  datatype ClientState = ClientState(
    params: Params,
    status: Status,
    totalFunds: int,
    lane: Option<nat>,
    lastPaymentRequested: bool,
    allBlocksReceived: bool,
    totalReceived: nat,
    bytesPaidFor: nat,
    currentInterval: nat,
    paymentRequested: int,
    fundsSpent: int,
    unsealFundsPaid: int,
    waiting: bool,
    voucherShortfall: int)

  datatype Event =
    | Open
    | WriteDealProposalErrored
    | DealProposed
    | DealRejected
    | NotFound
    | DealAccepted
    | UnknownResponseReceived
    | PaymentChannelSkip
    | PaymentChannelErrored
    | PaymentChannelCreateInitiated
    | FundsBeingAdded
    | PaymentChannelReady
    | AllocateLaneErrored
    | LaneAllocated(lane: nat)
    | ProviderErrored
    | DataTransferError
    | LastPaymentRequested(owed: int)
    | PaymentRequested(owed: int)
    | UnsealPaymentRequested(owed: int)
    | AllBlocksReceived
    | BlocksReceived(total: nat)
    | SendFundsNow
    | FundsExpended(shortfall: int)
    | BadPaymentRequested
    | CreateVoucherFailed
    | VoucherShortfall(shortfall: int)
    | WriteDealPaymentErrored
    | PaymentNotSent
    | PaymentSent(amount: int)
    | Complete
    | CompleteVerified
    | EarlyTermination
    | WaitForLastBlocks
    | CancelComplete
    | ProviderCancelled
    | Cancel
    | RecheckFunds

  const CREATION_STATES: set<Status> := {
    WaitForAcceptance, Accepted, PaymentChannelCreating,
    PaymentChannelAllocatingLane, PaymentChannelAddingInitialFunds
  }

  const FINALITY_STATES: set<Status> := {Errored, Completed, Cancelled, Rejected, DealNotFound}

  /** The transition table. Nothing leaves a finality state. */
  function Transition(s: Status, e: Event): Target {
    if s in FINALITY_STATES then Invalid
    else
      match e
      case Open => if s == New then NoChange else Invalid
      case WriteDealProposalErrored => To(Errored)
      case DealProposed => if s == New then To(WaitForAcceptance) else Invalid
      case DealRejected => if s == WaitForAcceptance then To(Rejected) else Invalid
      case NotFound => if s == WaitForAcceptance then To(DealNotFound) else Invalid
      case DealAccepted => if s == WaitForAcceptance then To(Accepted) else Invalid
      case UnknownResponseReceived => To(Failing)
      case PaymentChannelSkip => if s == Accepted then To(Ongoing) else Invalid
      case PaymentChannelErrored =>
        if s in {Accepted, PaymentChannelCreating, PaymentChannelAddingFunds} then To(Failing) else Invalid
      case PaymentChannelCreateInitiated => if s == Accepted then To(PaymentChannelCreating) else Invalid
      case FundsBeingAdded =>
        if s == Accepted then To(PaymentChannelAddingInitialFunds)
        else if s == CheckFunds then To(PaymentChannelAddingFunds)
        else Invalid
      case PaymentChannelReady =>
        if s in {PaymentChannelCreating, PaymentChannelAddingInitialFunds, Accepted}
        then To(PaymentChannelAllocatingLane)
        else if s in {PaymentChannelAddingFunds, CheckFunds} then To(Ongoing)
        else Invalid
      case AllocateLaneErrored => if s == PaymentChannelAllocatingLane then To(Failing) else Invalid
      case LaneAllocated(_) => if s == PaymentChannelAllocatingLane then To(Ongoing) else Invalid
      case ProviderErrored => To(Errored)
      case DataTransferError => To(Errored)
      case LastPaymentRequested(_) =>
        if s in {Ongoing, FundsNeededLastPayment, FundsNeeded} then To(FundsNeededLastPayment)
        else if s == SendFunds then To(Ongoing)
        else if s == CheckComplete then NoChange
        else if s == BlocksComplete then To(SendFundsLastPayment)
        else if s in CREATION_STATES then JustRecord
        else Invalid
      case PaymentRequested(_) =>
        if s in {Ongoing, BlocksComplete, FundsNeededLastPayment, FundsNeeded} then To(FundsNeeded)
        else if s == SendFunds then To(Ongoing)
        else if s == CheckComplete then NoChange
        else if s in CREATION_STATES then JustRecord
        else Invalid
      case UnsealPaymentRequested(_) => if s == WaitForAcceptance then To(Accepted) else Invalid
      case AllBlocksReceived =>
        if s in {Ongoing, BlocksComplete} then To(BlocksComplete)
        else if s in CREATION_STATES then JustRecord
        else if s in {SendFunds, SendFundsLastPayment} then To(Ongoing)
        else if s == FundsNeeded then NoChange
        else if s == FundsNeededLastPayment then To(SendFundsLastPayment)
        else if s in {ClientWaitingForLastBlocks, CheckComplete} then To(Completed)
        else Invalid
      case BlocksReceived(_) =>
        if s in {Ongoing, FundsNeeded, FundsNeededLastPayment, CheckComplete, ClientWaitingForLastBlocks} then NoChange
        else if s in {SendFunds, SendFundsLastPayment} then To(Ongoing)
        else if s in CREATION_STATES then JustRecord
        else Invalid
      case SendFundsNow =>
        if s in {SendFunds, SendFundsLastPayment} then To(Ongoing)
        else if s == FundsNeeded then To(SendFunds)
        else if s == FundsNeededLastPayment then To(SendFundsLastPayment)
        else Invalid
      case FundsExpended(_) => if s == CheckFunds then To(InsufficientFunds) else Invalid
      case BadPaymentRequested => if s in {SendFunds, SendFundsLastPayment} then To(Failing) else Invalid
      case CreateVoucherFailed => if s in {SendFunds, SendFundsLastPayment} then To(Failing) else Invalid
      case VoucherShortfall(_) => if s in {SendFunds, SendFundsLastPayment} then To(CheckFunds) else Invalid
      case WriteDealPaymentErrored => To(Errored)
      case PaymentNotSent =>
        if s == Ongoing then JustRecord
        else if s == SendFunds then To(Ongoing)
        else if s == SendFundsLastPayment then To(Finalizing)
        else Invalid
      case PaymentSent(_) =>
        if s == Ongoing then JustRecord
        else if s == BlocksComplete then To(CheckComplete)
        else if s == CheckComplete then NoChange
        else if s in {FundsNeeded, FundsNeededLastPayment, SendFunds} then To(Ongoing)
        else if s == SendFundsLastPayment then To(Finalizing)
        else Invalid
      case Complete =>
        if s in {SendFunds, SendFundsLastPayment, FundsNeeded, FundsNeededLastPayment, BlocksComplete, Ongoing}
        then To(CheckComplete)
        else if s == Finalizing then To(Completed)
        else Invalid
      case CompleteVerified => if s == CheckComplete then To(Completed) else Invalid
      case EarlyTermination => if s == CheckComplete then To(Errored) else Invalid
      case WaitForLastBlocks => if s == CheckComplete then To(ClientWaitingForLastBlocks) else Invalid
      case CancelComplete =>
        if s == Failing then To(Errored) else if s == Cancelling then To(Cancelled) else Invalid
      case ProviderCancelled => if s in {Failing, Cancelling} then JustRecord else To(Cancelling)
      case Cancel => To(Cancelling)
      case RecheckFunds => if s == InsufficientFunds then To(CheckFunds) else Invalid
  }

  /** EventPaymentSent: settles the request, then the unseal price, then whole bytes. */
  function RecordPaymentSent(ds: ClientState, amount: int): ClientState
  {
    var paid := ds.(paymentRequested := ds.paymentRequested - (amount - ds.fundsSpent), fundsSpent := amount);
    if ds.params.unsealPrice >= amount then paid.(unsealFundsPaid := amount)
    else
      var unsealed := paid.(unsealFundsPaid := ds.params.unsealPrice);
      if ds.params.pricePerByte == 0 then unsealed
      else
        var bytes := (amount - ds.params.unsealPrice) / ds.params.pricePerByte;
        unsealed.(bytesPaidFor := bytes,
                  currentInterval := if bytes >= ds.currentInterval then NextInterval(ds.params, ds.currentInterval)
                                     else ds.currentInterval)
  }

  /** What an event's action does to the deal. */
  function Act(ds: ClientState, e: Event): ClientState
  {
    match e
    case PaymentChannelCreateInitiated => ds.(waiting := true)
    case FundsBeingAdded => ds.(waiting := true, lane := if ds.lane.None? then Some(0) else ds.lane)
    case PaymentChannelReady => ds.(waiting := false, lane := if ds.lane.None? then Some(0) else ds.lane)
    case LaneAllocated(lane) => ds.(lane := Some(lane))
    case LastPaymentRequested(owed) =>
      ds.(paymentRequested := ds.paymentRequested + owed, lastPaymentRequested := true)
    case PaymentRequested(owed) => ds.(paymentRequested := ds.paymentRequested + owed)
    case UnsealPaymentRequested(owed) => ds.(paymentRequested := ds.paymentRequested + owed)
    case AllBlocksReceived => ds.(allBlocksReceived := true)
    case BlocksReceived(total) => ds.(totalReceived := total)
    case FundsExpended(shortfall) => ds.(voucherShortfall := shortfall)
    case PaymentSent(amount) => RecordPaymentSent(ds, amount)
    case _ => ds
  }

  function Apply(ds: ClientState, e: Event): ClientState
  {
    match Transition(ds.status, e)
    case Invalid => ds
    case To(s) => Act(ds, e).(status := s)
    case _ => Act(ds, e)
  }

  /** Whether an event runs the handler of the status it leads to. */
  predicate RunsHandler(s: Status, e: Event) {
    var t := Transition(s, e);
    t.To? || t.NoChange?
  }

  // ---------- Handlers ----------

  datatype ChannelAnswer = ChannelError | ChannelCreating | ChannelReady | ChannelAddingFunds

  /** CreateVoucher's answers: a voucher, a shortfall, or an error. */
  datatype VoucherAnswer = Created | Short(shortfall: nat) | Refused

  datatype AvailableFunds = AvailableFunds(
    confirmed: int, redeemed: int, pending: int, queued: int, hasSentinel: bool)

  /** What the environment answers to one run of a handler. */
  datatype World = World(
    openOk: bool,
    channel: ChannelAnswer,
    waitOk: bool,
    lane: Option<nat>,
    voucher: VoucherAnswer,
    writeOk: bool,
    funds: Option<AvailableFunds>,
    closeOk: bool)

  /** A handler triggers at most one event and creates at most one voucher. */
  datatype Effect = Effect(trigger: Option<Event>, voucher: Option<int>)

  function Trigger(e: Event): Effect { Effect(Some(e), None) }

  function AmountToSend(ds: ClientState): int {
    if ds.unsealFundsPaid >= ds.params.unsealPrice && !ds.allBlocksReceived then
      if ds.totalReceived < ds.currentInterval then 0
      else ds.currentInterval * ds.params.pricePerByte + ds.params.unsealPrice
    else
      ds.totalReceived * ds.params.pricePerByte + ds.params.unsealPrice
  }

  /** When ProcessPaymentRequested decides to send funds. */
  predicate MustSend(ds: ClientState) {
    || ds.params.unsealPrice > ds.unsealFundsPaid
    || (ds.bytesPaidFor < ds.totalReceived && (ds.allBlocksReceived || ds.totalReceived >= ds.currentInterval))
  }

  function OngoingHandler(ds: ClientState): Effect {
    if ds.paymentRequested > 0 then
      Trigger(if ds.lastPaymentRequested then LastPaymentRequested(0) else PaymentRequested(0))
    else Effect(None, None)
  }

  function SendFundsHandler(ds: ClientState, w: World): Effect {
    var total := AmountToSend(ds);
    if total <= ds.fundsSpent then Trigger(PaymentNotSent)
    else
      match w.voucher
      case Refused => Trigger(CreateVoucherFailed)
      case Short(shortfall) => Trigger(VoucherShortfall(shortfall))
      case Created =>
        Effect(Some(if w.writeOk then PaymentSent(total) else WriteDealPaymentErrored), Some(total))
  }

  function CheckFundsHandler(ds: ClientState, w: World): Effect {
    if ds.waiting then Trigger(FundsBeingAdded)
    else
      match w.funds
      case None => Trigger(PaymentChannelErrored)
      case Some(f) =>
        var shortfall := AmountToSend(ds) - (f.confirmed - f.redeemed);
        if shortfall <= 0 then Trigger(PaymentChannelReady)
        else if f.pending + f.queued < shortfall || !f.hasSentinel then
          Trigger(FundsExpended(shortfall - (f.pending + f.queued)))
        else Trigger(FundsBeingAdded)
  }

  function Handler(ds: ClientState, w: World): Effect {
    match ds.status
    case New => Trigger(if w.openOk then DealProposed else WriteDealProposalErrored)
    case Accepted =>
      if ds.totalFunds == 0 then Trigger(PaymentChannelSkip)
      else (
        match w.channel
        case ChannelError => Trigger(PaymentChannelErrored)
        case ChannelCreating => Trigger(PaymentChannelCreateInitiated)
        case ChannelReady => Trigger(PaymentChannelReady)
        case ChannelAddingFunds => Trigger(FundsBeingAdded))
    case PaymentChannelCreating => Trigger(if w.waitOk then PaymentChannelReady else PaymentChannelErrored)
    case PaymentChannelAddingInitialFunds => Trigger(if w.waitOk then PaymentChannelReady else PaymentChannelErrored)
    case PaymentChannelAddingFunds => Trigger(if w.waitOk then PaymentChannelReady else PaymentChannelErrored)
    case PaymentChannelAllocatingLane =>
      Trigger(if w.lane.Some? then LaneAllocated(w.lane.value) else AllocateLaneErrored)
    case Ongoing => OngoingHandler(ds)
    case FundsNeeded => if MustSend(ds) then Trigger(SendFundsNow) else Effect(None, None)
    case FundsNeededLastPayment => if MustSend(ds) then Trigger(SendFundsNow) else Effect(None, None)
    case SendFunds => SendFundsHandler(ds, w)
    case SendFundsLastPayment => SendFundsHandler(ds, w)
    case CheckFunds => CheckFundsHandler(ds, w)
    case Failing => Trigger(if w.closeOk then CancelComplete else DataTransferError)
    case Cancelling => Trigger(if w.closeOk then CancelComplete else DataTransferError)
    case CheckComplete =>
      Trigger(if ds.allBlocksReceived then CompleteVerified
              else if ds.params.pricePerByte == 0 then WaitForLastBlocks
              else EarlyTermination)
    case _ => Effect(None, None)
  }

  /** The deal state that Retrieve begins with. */
  function Start(p: Params, totalFunds: int): ClientState {
    ClientState(p, New, totalFunds, None, false, false, 0, 0, p.paymentInterval, 0, 0, 0, false, 0)
  }

  // ---------- The deal record, updated in place ----------

  class ClientDeal {
    const params: Params
    const totalFunds: int
    var status: Status
    var lane: Option<nat>
    var lastPaymentRequested: bool
    var allBlocksReceived: bool
    var totalReceived: nat
    var bytesPaidFor: nat
    var currentInterval: nat
    var paymentRequested: int
    var fundsSpent: int
    var unsealFundsPaid: int
    var waiting: bool
    var voucherShortfall: int

    function View(): ClientState
      reads this
    {
      ClientState(params, status, totalFunds, lane, lastPaymentRequested, allBlocksReceived, totalReceived,
                  bytesPaidFor, currentInterval, paymentRequested, fundsSpent, unsealFundsPaid, waiting,
                  voucherShortfall)
    }

    constructor (p: Params, funds: int)
      ensures View() == Start(p, funds)
    {
      params := p;
      totalFunds := funds;
      status := New;
      lane := None;
      lastPaymentRequested := false;
      allBlocksReceived := false;
      totalReceived := 0;
      bytesPaidFor := 0;
      currentInterval := p.paymentInterval;
      paymentRequested := 0;
      fundsSpent := 0;
      unsealFundsPaid := 0;
      waiting := false;
      voucherShortfall := 0;
    }

    method SentPayment(voucherAmt: int)
      modifies this
      ensures View() == RecordPaymentSent(old(View()), voucherAmt)
    {
      var sentAmt := voucherAmt - fundsSpent;
      paymentRequested := paymentRequested - sentAmt;
      fundsSpent := voucherAmt;
      if params.unsealPrice >= fundsSpent {
        unsealFundsPaid := fundsSpent;
        return;
      }
      unsealFundsPaid := params.unsealPrice;
      if params.pricePerByte == 0 {
        return;
      }
      var paidSoFarForTransfer := fundsSpent - unsealFundsPaid;
      bytesPaidFor := paidSoFarForTransfer / params.pricePerByte;
      if bytesPaidFor >= currentInterval {
        currentInterval := ComputeNextInterval(params, currentInterval);
      }
    }

    /** The action of an event. */
    method Record(e: Event)
      modifies this
      ensures View() == Act(old(View()), e)
    {
      hide RecordPaymentSent;
      match e {
        case PaymentSent(amount) => SentPayment(amount);
        case LastPaymentRequested(owed) =>
          paymentRequested := paymentRequested + owed;
          lastPaymentRequested := true;
        case PaymentRequested(owed) => paymentRequested := paymentRequested + owed;
        case UnsealPaymentRequested(owed) => paymentRequested := paymentRequested + owed;
        case _ => RecordProgress(e);
      }
    }

    /** The actions on the channel and on the data received. */
    method RecordProgress(e: Event)
      requires !e.PaymentSent? && !e.LastPaymentRequested? && !e.PaymentRequested? && !e.UnsealPaymentRequested?
      modifies this
      ensures View() == Act(old(View()), e)
    {
      hide RecordPaymentSent;
      match e {
        case PaymentChannelCreateInitiated => waiting := true;
        case FundsBeingAdded =>
          waiting := true;
          if lane.None? { lane := Some(0); }
        case PaymentChannelReady =>
          if lane.None? { lane := Some(0); }
          waiting := false;
        case LaneAllocated(l) => lane := Some(l);
        case AllBlocksReceived => allBlocksReceived := true;
        case BlocksReceived(total) => totalReceived := total;
        case FundsExpended(shortfall) => voucherShortfall := shortfall;
        case _ =>
      }
    }

    /** Applies one event: the action, then the transition. */
    method Fire(e: Event) returns (runHandler: bool)
      modifies this
      ensures View() == Apply(old(View()), e)
      ensures runHandler == RunsHandler(old(status), e)
    {
      var target := Transition(status, e);
      if target.Invalid? { return false; }
      Record(e);
      if target.To? { status := target.status; }
      runHandler := !target.JustRecord?;
    }
  }
}
