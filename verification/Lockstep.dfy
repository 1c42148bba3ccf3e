/** Client and provider of one deal together: data, payment requests and vouchers travel between
    them, each in order but with any delays, while both state machines run. */
module Lockstep {
  import opened Options
  import opened Deals
  import opened Intervals
  import opened Numbers
  import opened Runs
  import P = Provider
  import R = Revalidator
  import E = Exposure
  import C = Client
  import M = ClientRuns
  import L = ClientLadder

  /** `data` holds the cumulative byte counts on the way to the client and `asks` the events its
      responses will raise there. The provider has taken the first `taken` of the client's
      vouchers; `partials` counts its answers that asked for more, `asked` sums what it asked. */
  datatype Joint = Joint(
    t: E.Transfer,
    m: M.Machine,
    data: seq<nat>,
    asks: seq<C.Event>,
    taken: nat,
    partials: nat,
    asked: int)

  datatype Move =
    | ProviderSends(chunk: nat)
    | ProviderFinishes
    | DeliverData
    | DeliverLastBlock
    | DeliverAsk
    | DeliverVoucher
    | LocalEvent(e: C.Event)
    | ClientProcesses(w: C.World)
    | ClientSettles

  /** Events that do not come from the exchange of data and money. */
  const LOCAL: set<C.Event> := {
    C.DealAccepted, C.DealRejected, C.NotFound, C.ProviderErrored, C.DataTransferError,
    C.ProviderCancelled, C.Cancel, C.UnknownResponseReceived
  }

  /** Client and provider once the proposal is on its way and the transfer is accepted. */
  function Begin(p: Params, id: nat, totalFunds: int): Joint {
    Joint(E.Start(p, id),
          M.Machine(C.Start(p, totalFunds).(status := WaitForAcceptance), [], None, [], 0, 0),
          [], [], 0, 0, 0)
  }

  /** The payment channel is funded: it refuses a voucher exactly when its amount does not grow. */
  predicate FundedLane(m: M.Machine, w: C.World) {
    && w.writeOk
    && (m.queue != [] ==>
          w.voucher == if forall i :: 0 <= i < |m.vouchers| ==>
                          m.vouchers[i] < C.AmountToSend(C.Apply(m.cs, m.queue[0]))
                       then C.Created else C.Refused)
  }

  predicate Enabled(j: Joint, mv: Move) {
    match mv
    case ProviderSends(n) => E.Enabled(j.t, E.Send(n))
    case ProviderFinishes => E.Enabled(j.t, E.Finish)
    case DeliverData => j.data != []
    case DeliverLastBlock => j.t.complete && j.data == []
    case DeliverAsk => j.asks != []
    case DeliverVoucher => j.taken < |j.m.vouchers| && j.t.open
    case LocalEvent(e) => e in LOCAL
    case ClientProcesses(w) => M.Enabled(j.m, M.Process(w)) && FundedLane(j.m, w)
    case ClientSettles => M.Enabled(j.m, M.Settle)
  }

  /** Moves in which no chunk is longer than c bytes. */
  function EnabledUpTo(c: nat): (Joint, Move) -> bool {
    (j, mv) => Enabled(j, mv) && (mv.ProviderSends? ==> mv.chunk <= c)
  }

  /** The event that a provider's response raises at the client (retrieval/client/dtsubscriber.go). */
  function EventOf(r: Response): C.Event {
    match r.status
    case Errored => C.ProviderErrored
    case FundsNeededLastPayment => C.LastPaymentRequested(r.paymentOwed)
    case Completed => C.Complete
    case FundsNeeded => C.PaymentRequested(r.paymentOwed)
    case Ongoing => C.PaymentRequested(r.paymentOwed)
    case _ => C.UnknownResponseReceived
  }

  /** The provider's side has moved to t and answered with reply. */
  function Answered(j: Joint, t: E.Transfer, reply: R.Reply): Joint {
    match reply.response
    case None => j.(t := t)
    case Some(r) => j.(t := t, asks := j.asks + [EventOf(r)], asked := j.asked + M.OwedIn(EventOf(r)))
  }

  /** What the next voucher adds to its lane; an amount that does not grow is not accepted. */
  function Received(j: Joint): Option<nat>
    requires j.taken < |j.m.vouchers|
  {
    var delta := j.m.vouchers[j.taken] - if j.taken == 0 then 0 else j.m.vouchers[j.taken - 1];
    if delta < 0 then None else Some(delta)
  }

  const PAYCH: P.Address := "paych"

  function Next(j: Joint, mv: Move): Joint {
    match mv
    case ProviderSends(n) =>
      var t := E.Next(j.t, E.Send(n));
      Answered(j, t, R.OnPullDataSent(j.t.deal, j.t.ch, n).reply).(data := j.data + [t.deal.totalSent])
    case ProviderFinishes =>
      Answered(j, E.Next(j.t, E.Finish), R.OnComplete(j.t.deal, j.t.ch).reply)
    case DeliverData =>
      if j.data == [] then j
      else j.(m := M.Next(j.m, M.Enqueue(C.BlocksReceived(j.data[0]))), data := j.data[1..])
    case DeliverLastBlock => j.(m := M.Next(j.m, M.Enqueue(C.AllBlocksReceived)))
    case DeliverAsk =>
      if j.asks == [] then j
      else j.(m := M.Next(j.m, M.Enqueue(j.asks[0])), asks := j.asks[1..])
    case DeliverVoucher =>
      if j.taken >= |j.m.vouchers| then j
      else
        var received := Received(j);
        var reply := R.Revalidate(j.t.deal, j.t.ch, received, PAYCH).reply;
        Answered(j, E.Next(j.t, E.Pay(received, PAYCH)), reply)
          .(taken := j.taken + 1, partials := if reply.signal == R.Pause then j.partials + 1 else j.partials)
    case LocalEvent(e) => j.(m := M.Next(j.m, M.Enqueue(e)))
    case ClientProcesses(w) => j.(m := M.Next(j.m, M.Process(w)))
    case ClientSettles => j.(m := M.Next(j.m, M.Settle))
  }

  // ---------- Lockstep ----------

  /** Byte counts on the way are in order, after what was announced and up to what was sent. */
  ghost predicate InFlight(j: Joint) {
    && j.m.announced <= j.t.deal.totalSent
    && (forall i :: 0 <= i < |j.data| ==> j.m.announced <= j.data[i] <= j.t.deal.totalSent)
    && (forall i, k :: 0 <= i < k < |j.data| ==> j.data[i] <= j.data[k])
    && (forall i :: 0 <= i < |j.asks| ==> !j.asks[i].PaymentSent? && !j.asks[i].BlocksReceived?)
  }

  /** The provider has been paid exactly for the boundaries of the vouchers it took. */
  ghost predicate Matched(p: Params, j: Joint) {
    && j.t.accepted == j.taken <= |j.m.vouchers|
    && j.t.deal.fundsReceived == L.Rung(p, j.taken)
    && j.partials == 0
  }

  /** What holds of both sides at any unseal price. */
  ghost predicate Base(p: Params, j: Joint) {
    && E.Inv(p, j.t)
    && M.Inv(j.m) && j.m.cs.params == p
    && InFlight(j)
    && j.taken <= |j.m.vouchers|
  }

  ghost predicate Inv(p: Params, j: Joint) {
    && Base(p, j)
    && L.Ladder(p, j.m)
    && (!j.m.cs.allBlocksReceived ==> Matched(p, j))
  }

  lemma EventOfIsAsk(r: Response)
    ensures !EventOf(r).PaymentSent? && !EventOf(r).BlocksReceived?
  {
  }

  /** The provider has moved on and answered. */
  lemma AnswerKeepsBase(p: Params, j: Joint, t: E.Transfer, reply: R.Reply, data: seq<nat>)
    requires Base(p, j) && E.Inv(p, t) && j.t.deal.totalSent <= t.deal.totalSent
    requires data == j.data || data == j.data + [t.deal.totalSent]
    ensures Base(p, Answered(j, t, reply).(data := data))
  {
    hide E.Inv, M.Inv, EventOf;
    if reply.response.Some? { EventOfIsAsk(reply.response.value); }
  }

  lemma SentTotal(p: Params, t: E.Transfer, n: nat)
    requires E.Inv(p, t) && E.Enabled(t, E.Send(n))
    ensures var t' := E.Next(t, E.Send(n));
            && t'.deal.totalSent == t.deal.totalSent + n
            && t'.deal.fundsReceived == t.deal.fundsReceived && t'.accepted == t.accepted
  {
    hide E.PriceOf, Boundary, NextInterval;
  }

  lemma FinishedTotal(p: Params, t: E.Transfer)
    requires E.Inv(p, t) && E.Enabled(t, E.Finish)
    ensures var t' := E.Next(t, E.Finish);
            && t'.deal.totalSent == t.deal.totalSent
            && t'.deal.fundsReceived == t.deal.fundsReceived && t'.accepted == t.accepted
  {
    hide E.PriceOf, Boundary, NextInterval;
  }

  lemma PaidTotal(t: E.Transfer, received: Option<nat>)
    ensures E.Next(t, E.Pay(received, PAYCH)).deal.totalSent == t.deal.totalSent
  {
    hide R.PaymentOwed, NextInterval;
  }

  /** The provider's step behind a move of its own. */
  lemma ProviderKeepsBase(p: Params, j: Joint, mv: Move)
    requires Base(p, j) && Enabled(j, mv) && (mv.ProviderSends? || mv.ProviderFinishes? || mv.DeliverVoucher?)
    ensures Base(p, Next(j, mv))
  {
    assert E.Inv(p, j.t) && j.data == j.data;
    hide Base, E.Inv, E.Next, R.OnPullDataSent, R.OnComplete, R.Revalidate, Received;
    match mv
    case ProviderSends(n) =>
      E.StepKeepsInv(p, j.t, E.Send(n));
      SentTotal(p, j.t, n);
      var t := E.Next(j.t, E.Send(n));
      AnswerKeepsBase(p, j, t, R.OnPullDataSent(j.t.deal, j.t.ch, n).reply, j.data + [t.deal.totalSent]);
    case ProviderFinishes =>
      E.StepKeepsInv(p, j.t, E.Finish);
      FinishedTotal(p, j.t);
      AnswerKeepsBase(p, j, E.Next(j.t, E.Finish), R.OnComplete(j.t.deal, j.t.ch).reply, j.data);
    case DeliverVoucher =>
      var received := Received(j);
      E.StepKeepsInv(p, j.t, E.Pay(received, PAYCH));
      PaidTotal(j.t, received);
      AnswerKeepsBase(p, j, E.Next(j.t, E.Pay(received, PAYCH)), R.Revalidate(j.t.deal, j.t.ch, received, PAYCH).reply, j.data);
      TakenBase(p, j, Answered(j, E.Next(j.t, E.Pay(received, PAYCH)), R.Revalidate(j.t.deal, j.t.ch, received, PAYCH).reply).(data := j.data), Next(j, mv));
  }

  lemma TakenBase(p: Params, j: Joint, j0: Joint, j': Joint)
    requires Base(p, j0) && j0.m == j.m && j0.taken == j.taken < |j.m.vouchers|
    requires j' == j0.(taken := j.taken + 1, partials := j'.partials)
    ensures Base(p, j')
  {
    hide E.Inv, M.Inv;
  }

  /** The client's step behind a move that only concerns the client. */
  function ClientStep(j: Joint, mv: Move): M.Step
    requires Enabled(j, mv) && !mv.ProviderSends? && !mv.ProviderFinishes? && !mv.DeliverVoucher?
  {
    match mv
    case DeliverData => M.Enqueue(C.BlocksReceived(j.data[0]))
    case DeliverLastBlock => M.Enqueue(C.AllBlocksReceived)
    case DeliverAsk => M.Enqueue(j.asks[0])
    case LocalEvent(e) => M.Enqueue(e)
    case ClientProcesses(w) => M.Process(w)
    case ClientSettles => M.Settle
  }

  lemma StepIsHonest(p: Params, j: Joint, mv: Move)
    requires Base(p, j) && Enabled(j, mv)
    requires !mv.ProviderSends? && !mv.ProviderFinishes? && !mv.DeliverVoucher?
    ensures L.LaneEnabled(j.m, ClientStep(j, mv))
  {
    hide E.Inv, M.Inv, C.AmountToSend, C.Apply;
  }

  /** A step of the client alone. */
  lemma ClientGrows(m: M.Machine, s: M.Step)
    requires M.Enabled(m, s)
    ensures var m' := M.Next(m, s);
            && (m.cs.allBlocksReceived ==> m'.cs.allBlocksReceived)
            && m'.announced == (if s.Enqueue? && s.e.BlocksReceived? then s.e.total else m.announced)
            && m.vouchers <= m'.vouchers
  {
    if s.Process? { L.AllBlocksStay(m.cs, m.queue[0]); }
    hide C.Handler, C.Transition, C.AmountToSend, C.RunsHandler, C.Apply;
  }

  lemma ClientKeepsBase(p: Params, j: Joint, mv: Move)
    requires Base(p, j) && Enabled(j, mv)
    requires !mv.ProviderSends? && !mv.ProviderFinishes? && !mv.DeliverVoucher?
    ensures Base(p, Next(j, mv)) && Next(j, mv) == j.(m := M.Next(j.m, ClientStep(j, mv)), data := Next(j, mv).data, asks := Next(j, mv).asks)
  {
    hide E.Inv, M.Inv, M.Next, C.AmountToSend, C.Apply, E.Next;
    var s := ClientStep(j, mv);
    StepIsHonest(p, j, mv);
    hide L.HonestLane;
    M.StepKeepsInv(j.m, s);
    ClientGrows(j.m, s);
    assert j.data != [] ==> forall i :: 0 <= i < |j.data| - 1 ==> j.data[1..][i] == j.data[i + 1];
    assert j.asks != [] ==> forall i :: 0 <= i < |j.asks| - 1 ==> j.asks[1..][i] == j.asks[i + 1];
  }

  lemma StepKeepsBase(p: Params, j: Joint, mv: Move)
    requires Base(p, j) && Enabled(j, mv)
    ensures Base(p, Next(j, mv))
  {
    hide Base, Next, Enabled;
    match mv
    case ProviderSends(_) => ProviderKeepsBase(p, j, mv);
    case ProviderFinishes => ProviderKeepsBase(p, j, mv);
    case DeliverVoucher => ProviderKeepsBase(p, j, mv);
    case _ => ClientKeepsBase(p, j, mv);
  }

  lemma RunKeepsBase(p: Params, id: nat, totalFunds: int, moves: seq<Move>)
    requires Exec(Begin(p, id, totalFunds), Enabled, Next, moves).Some?
    ensures Base(p, Exec(Begin(p, id, totalFunds), Enabled, Next, moves).value)
  {
    assert Boundary(p, 1) == p.Step(0);
    assert Base(p, Begin(p, id, totalFunds));
    hide Next, Enabled, Base, Begin;
    forall j, mv | Base(p, j) && Enabled(j, mv) ensures Base(p, Next(j, mv)) { StepKeepsBase(p, j, mv); }
    Invariance(Begin(p, id, totalFunds), Enabled, Next, j => Base(p, j), moves);
  }

  /** The k-th voucher reaches a provider at B(k) that has been paid for B(k - 1): it is enough. */
  lemma VoucherIsEnough(p: Params, j: Joint)
    requires Inv(p, j) && Enabled(j, DeliverVoucher) && !j.m.cs.allBlocksReceived
    ensures Received(j) == Some(L.Rung(p, j.taken + 1) - L.Rung(p, j.taken))
    ensures E.PriceOf(p, j.taken) <= j.t.deal.fundsReceived + Received(j).value
    ensures R.Revalidate(j.t.deal, j.t.ch, Received(j), PAYCH).reply.signal == R.Resume
  {
    BoundaryMonotone(p, j.taken, j.taken + 1);
    MulMonotone(Boundary(p, j.taken), Boundary(p, j.taken + 1), p.pricePerByte);
    hide Boundary, NextInterval, P.Apply;
    E.OwedNothing(j.t.deal, j.taken, j.t.deal.fundsReceived + Received(j).value);
    hide R.PaymentOwed;
  }

  /** The provider after taking the next voucher. */
  lemma VoucherTaken(p: Params, j: Joint)
    requires Inv(p, j) && Enabled(j, DeliverVoucher) && !j.m.cs.allBlocksReceived
    ensures var t := E.Next(j.t, E.Pay(Received(j), PAYCH));
            t.accepted == j.taken + 1 && t.deal.fundsReceived == L.Rung(p, j.taken + 1)
            && !t.paused && t.open && t.complete == j.t.complete
  {
    VoucherIsEnough(p, j);
    hide Received, E.PriceOf, L.Rung, Boundary, R.Revalidate, E.Next;
    E.EnoughPaid(j.t, Received(j).value, PAYCH);
  }

  lemma VoucherMatches(p: Params, j: Joint)
    requires Inv(p, j) && Enabled(j, DeliverVoucher) && !j.m.cs.allBlocksReceived
    ensures Matched(p, Next(j, DeliverVoucher))
  {
    hide Base, L.Ladder, E.Next, R.Revalidate, EventOf, L.Rung, E.PriceOf, Received;
    VoucherIsEnough(p, j);
    VoucherTaken(p, j);
  }

  lemma ProviderMatches(p: Params, j: Joint, mv: Move)
    requires Inv(p, j) && Enabled(j, mv) && (mv.ProviderSends? || mv.ProviderFinishes?) && !j.m.cs.allBlocksReceived
    ensures Matched(p, Next(j, mv))
  {
    if mv.ProviderSends? { SentTotal(p, j.t, mv.chunk); } else { FinishedTotal(p, j.t); }
    hide Base, L.Ladder, E.Next, R.OnPullDataSent, R.OnComplete, EventOf, L.Rung;
  }

  lemma StepKeepsInv(p: Params, j: Joint, mv: Move)
    requires Inv(p, j) && Enabled(j, mv)
    ensures Inv(p, Next(j, mv))
  {
    hide Base, E.Inv, M.Inv, L.Ladder, Received, L.Rung, E.Next, R.OnPullDataSent, R.OnComplete, R.Revalidate, M.Next, Enabled, EventOf;
    StepKeepsBase(p, j, mv);
    match mv
    case ProviderSends(_) => if !j.m.cs.allBlocksReceived { ProviderMatches(p, j, mv); }
    case ProviderFinishes => if !j.m.cs.allBlocksReceived { ProviderMatches(p, j, mv); }
    case DeliverVoucher => if !j.m.cs.allBlocksReceived { VoucherMatches(p, j); }
    case _ => ClientKeepsInv(p, j, mv);
  }

  lemma ClientKeepsInv(p: Params, j: Joint, mv: Move)
    requires Inv(p, j) && Enabled(j, mv)
    requires !mv.ProviderSends? && !mv.ProviderFinishes? && !mv.DeliverVoucher?
    ensures Inv(p, Next(j, mv))
  {
    hide Base, Next, Enabled, L.LaneEnabled, L.Ladder, M.Next, L.Rung;
    var s := ClientStep(j, mv);
    StepIsHonest(p, j, mv);
    ClientKeepsBase(p, j, mv);
    L.StepKeepsLadder(p, j.m, s);
    L.LaneIsEnabled(j.m, s);
    ClientGrows(j.m, s);
  }

  /** Both sides in step: voucher k is worth B(k); the provider took `taken` of them, each at its own
      boundary and none of them partial, and waits for the next; the client waits for the boundary
      after its last voucher once that payment is recorded. */
  ghost predicate InStep(p: Params, j: Joint) {
    var k := |j.m.vouchers|;
    && (forall i :: 0 <= i < k ==> j.m.vouchers[i] == Boundary(p, i + 1) * p.pricePerByte)
    && j.taken <= k
    && j.t.deal.currentInterval == Boundary(p, j.taken + 1)
    && j.t.deal.fundsReceived == Boundary(p, j.taken) * p.pricePerByte
    && j.partials == 0
    && (j.m.cs.currentInterval == Boundary(p, k + 1) || (0 < k && j.m.cs.currentInterval == Boundary(p, k)))
  }

  /** In every joint run, until the client has received all blocks, both sides are in step. */
  lemma LockstepHolds(p: Params, id: nat, totalFunds: int, moves: seq<Move>)
    requires p.unsealPrice == 0 && p.pricePerByte > 0
    requires Exec(Begin(p, id, totalFunds), Enabled, Next, moves).Some?
    ensures var j := Exec(Begin(p, id, totalFunds), Enabled, Next, moves).value;
            !j.m.cs.allBlocksReceived ==> InStep(p, j)
  {
    hide Next, Enabled, Inv, Begin, InStep;
    BeginInv(p, id, totalFunds);
    forall j, mv | Inv(p, j) && Enabled(j, mv) ensures Inv(p, Next(j, mv)) { StepKeepsInv(p, j, mv); }
    Invariance(Begin(p, id, totalFunds), Enabled, Next, j => Inv(p, j), moves);
    InvInStep(p, Exec(Begin(p, id, totalFunds), Enabled, Next, moves).value);
  }

  lemma BeginInv(p: Params, id: nat, totalFunds: int)
    requires p.unsealPrice == 0 && p.pricePerByte > 0
    ensures Inv(p, Begin(p, id, totalFunds))
  {
    assert Boundary(p, 0) == 0 && L.Rung(p, 0) == 0 && Boundary(p, 1) == p.Step(0);
  }

  lemma InvInStep(p: Params, j: Joint)
    requires Inv(p, j)
    ensures !j.m.cs.allBlocksReceived ==> InStep(p, j)
  {
    hide Boundary;
    L.UseLadder(p, j.m);
  }
}
