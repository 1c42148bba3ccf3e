/** The record that payments leave behind holds in every run, whatever the provider asks and with any unseal
    price; so the client's own cycle comes to rest exactly when the record says so. */
module ClientBooks {
  import opened Options
  import opened Deals
  import opened Intervals
  import opened Numbers
  import opened Client
  import opened ClientRuns
  import opened ClientLadder
  import opened ClientCycle
  import opened Runs

  /** Reports on their way: of vouchers made, in order, and none below what is recorded as spent. */
  ghost predicate Reports(es: seq<Event>, spent: int, vouchers: seq<int>) {
    && (forall i :: 0 <= i < |es| && es[i].PaymentSent? ==> spent <= es[i].amount && es[i].amount in vouchers)
    && (forall i, j :: 0 <= i < j < |es| && es[i].PaymentSent? && es[j].PaymentSent? ==> es[i].amount <= es[j].amount)
  }

  ghost predicate Kept(m: Machine) {
    && m.cs.params.pricePerByte > 0
    && Books(m.cs)
    && Reports(Coming(m), m.cs.fundsSpent, m.vouchers)
  }

  /** Recording a payment that is not below the last keeps the books. */
  lemma RecordingKeepsBooks(ds: ClientState, amount: int)
    requires Books(ds) && ds.fundsSpent <= amount
    ensures Books(RecordPaymentSent(ds, amount))
  {
    if ds.fundsSpent == ds.params.unsealPrice { assert 0 / ds.params.pricePerByte == 0; }
    hide NextInterval, Boundary;
  }

  lemma StatusIrrelevant(ds: ClientState, s: Status)
    requires Books(ds)
    ensures Books(ds.(status := s))
  {
  }

  /** Applying the front event keeps the books, and the reports behind it. */
  lemma ApplyKeepsBooks(ds: ClientState, es: seq<Event>, vouchers: seq<int>)
    requires Books(ds) && es != [] && Reports(es, ds.fundsSpent, vouchers)
    ensures var ds' := Apply(ds, es[0]);
            Books(ds') && Reports(es[1..], ds'.fundsSpent, vouchers)
  {
    var e, ds' := es[0], Apply(ds, es[0]);
    assert forall i :: 0 <= i < |es| - 1 ==> es[1..][i] == es[i + 1];
    ParamsStay(ds, e);
    if e.PaymentSent? && !Transition(ds.status, e).Invalid? {
      RecordingKeepsBooks(ds, e.amount);
      ReportApplied(ds, e.amount);
      SpentRecorded(ds, e.amount);
      hide Apply, RecordPaymentSent, Transition;
      StatusIrrelevant(RecordPaymentSent(ds, e.amount), ds'.status);
    } else if Transition(ds.status, e).Invalid? {
      InvalidStays(ds, e);
      hide Apply, Transition;
    } else {
      OtherEventStays(ds, e);
      hide Apply, Transition;
    }
  }

  lemma SpentRecorded(ds: ClientState, amount: int)
    ensures RecordPaymentSent(ds, amount).fundsSpent == amount
  {
    hide NextInterval;
  }

  /** What the handler triggers behind the reports: nothing of the kind, or the report of a higher voucher. */
  lemma HandlerKeepsReports(ds: ClientState, w: World, es: seq<Event>, vouchers: seq<int>)
    requires Reports(es, ds.fundsSpent, vouchers) && w.writeOk
    requires w.voucher.Created? ==> forall i :: 0 <= i < |vouchers| ==> vouchers[i] < AmountToSend(ds)
    ensures var eff := Handler(ds, w);
            Reports(es + (if eff.trigger.Some? then [eff.trigger.value] else []), ds.fundsSpent,
                    vouchers + if eff.voucher.Some? then [eff.voucher.value] else [])
  {
    VoucherIsAmount(ds, w);
    var eff := Handler(ds, w);
    hide Handler, AmountToSend;
    var vouchers' := vouchers + if eff.voucher.Some? then [eff.voucher.value] else [];
    assert eff.voucher.Some? ==> vouchers'[|vouchers|] == eff.voucher.value;
    assert forall v :: v in vouchers ==> v in vouchers';
  }

  lemma ProcessKeepsBooks(m: Machine, w: World)
    requires Kept(m) && m.pending.None? && m.queue != [] && HonestLane(m, w)
    ensures Kept(ProcessFront(m, w))
  {
    var e, m' := m.queue[0], ProcessFront(m, w);
    assert Coming(m) == m.queue;
    ApplyKeepsBooks(m.cs, m.queue, m.vouchers);
    ParamsStay(m.cs, e);
    if Transition(m.cs.status, e).Invalid? { InvalidStays(m.cs, e); }
    HandlerKeepsReports(Apply(m.cs, e), w, m.queue[1..], m.vouchers);
    hide Transition, Apply, Handler, AmountToSend, RunsHandler, Books, Reports;
    assert m.queue[1..] + [] == m.queue[1..];
  }

  lemma InsertKeepsReports(q: seq<Event>, e: Event, tail: seq<Event>, spent: int, vouchers: seq<int>)
    requires !e.PaymentSent? && |tail| <= 1 && Reports(q + tail, spent, vouchers)
    ensures Reports(q + [e] + tail, spent, vouchers)
  {
    var es, es' := q + tail, q + [e] + tail;
    assert forall i :: 0 <= i < |q| ==> es'[i] == es[i];
    assert tail != [] ==> es'[|q| + 1] == es[|q|];
  }

  lemma StepKeepsBooks(m: Machine, s: Step)
    requires Kept(m) && LaneEnabled(m, s)
    ensures Kept(Next(m, s))
  {
    match s
    case Enqueue(e) =>
      hide Books, Reports;
      InsertKeepsReports(m.queue, e, if m.pending.Some? then [m.pending.value] else [], m.cs.fundsSpent, m.vouchers);
    case Process(w) => ProcessKeepsBooks(m, w);
    case Settle => assert Coming(Next(m, s)) == Coming(m);
  }

  /** More blocks are to come, unsealing is paid, and the bytes paid for lie at or past the interval and
      short of the bytes received. */
  predicate PaidPastInterval(ds: ClientState) {
    && !ds.allBlocksReceived && ds.unsealFundsPaid == ds.params.unsealPrice
    && ds.currentInterval <= ds.bytesPaidFor < ds.totalReceived
  }

  /** In every run, whenever the client has just entered Ongoing with a payment still requested and nothing
      else to do, its cycle comes to rest exactly when it has not paid past its interval. */
  lemma CycleRestsOverRuns(p: Params, totalFunds: int, steps: seq<Step>)
    requires p.pricePerByte > 0
    requires Exec(Begin(p, totalFunds), LaneEnabled, Next, steps).Some?
    ensures var m := Exec(Begin(p, totalFunds), LaneEnabled, Next, steps).value;
            AtOngoing(m) ==> (Quiesces(m) <==> !PaidPastInterval(m.cs))
  {
    var inv := m => Inv(m) && Kept(m);
    assert 0 / p.pricePerByte == 0;
    assert inv(Begin(p, totalFunds));
    hide Next, LaneEnabled, Inv, Kept, Begin, AtOngoing, Quiesces, Futile, Recorded;
    forall m, s | inv(m) && LaneEnabled(m, s) ensures inv(Next(m, s)) {
      LaneIsEnabled(m, s);
      StepKeepsInv(m, s);
      StepKeepsBooks(m, s);
    }
    Invariance(Begin(p, totalFunds), LaneEnabled, Next, inv, steps);
    var m := Exec(Begin(p, totalFunds), LaneEnabled, Next, steps).value;
    KeptFacts(m);
    if AtOngoing(m) {
      CycleRestsExactly(m);
      FutileGuard(m.cs);
    }
  }

  lemma KeptFacts(m: Machine)
    requires Inv(m) && Kept(m)
    ensures m.cs.params.pricePerByte > 0 && Recorded(m.cs) && Books(m.cs) && m.cs.fundsSpent <= Worth(m.cs)
  {
    hide Worth, Reports;
  }
}
