/** The amounts a client pays, whatever the provider asks and in whatever order events arrive:
    with no unseal price, until all blocks are received, the k-th voucher is worth B(k). */
module ClientLadder {
  import opened Options
  import opened Deals
  import opened Intervals
  import opened Numbers
  import opened Client
  import opened ClientRuns
  import opened Runs

  /** The payment channel creates vouchers of growing amounts only (payments/channel.go:804),
      and created vouchers are sent. */
  predicate HonestLane(m: Machine, w: World) {
    && w.writeOk
    && (m.queue != [] && w.voucher.Created? ==>
          forall i :: 0 <= i < |m.vouchers| ==> m.vouchers[i] < AmountToSend(Apply(m.cs, m.queue[0])))
  }

  predicate LaneEnabled(m: Machine, s: Step) {
    Enabled(m, s) && (s.Process? ==> HonestLane(m, s.w))
  }

  lemma LaneIsEnabled(m: Machine, s: Step)
    requires LaneEnabled(m, s)
    ensures Enabled(m, s)
  {
    hide HonestLane;
  }

  /** Events on their way to the deal, the one about to be triggered last. */
  function Coming(m: Machine): seq<Event> {
    m.queue + if m.pending.Some? then [m.pending.value] else []
  }

  function Rung(p: Params, k: nat): nat {
    Boundary(p, k) * p.pricePerByte
  }

  /** The deal has recorded payment up to B(j) and waits for B(j + 1). */
  ghost predicate At(p: Params, ds: ClientState, j: nat) {
    ds.fundsSpent == Rung(p, j) && ds.bytesPaidFor == Boundary(p, j) && ds.currentInterval == Boundary(p, j + 1)
  }

  ghost predicate NoReport(es: seq<Event>) {
    forall i :: 0 <= i < |es| ==> !es[i].PaymentSent?
  }

  ghost predicate OneReport(es: seq<Event>, v: int) {
    && (forall i :: 0 <= i < |es| && es[i].PaymentSent? ==> es[i].amount == v)
    && (forall i, j :: 0 <= i < j < |es| ==> !(es[i].PaymentSent? && es[j].PaymentSent?))
  }

  /** Either every voucher's payment is recorded, or only the last one's is not. */
  ghost predicate Rungs(p: Params, ds: ClientState, vouchers: seq<int>, es: seq<Event>) {
    var k := |vouchers|;
    && (forall i :: 0 <= i < k ==> vouchers[i] == Rung(p, i + 1))
    && ds.unsealFundsPaid == 0
    && (0 < k ==> Boundary(p, k) <= ds.totalReceived)
    && (|| (At(p, ds, k) && NoReport(es))
        || (0 < k && At(p, ds, k - 1) && Rung(p, k - 1) < Rung(p, k) && OneReport(es, Rung(p, k))))
  }

  ghost predicate Ladder(p: Params, m: Machine) {
    && m.cs.params == p && p.unsealPrice == 0 && p.pricePerByte > 0
    && Inv(m)
    && (!m.cs.allBlocksReceived ==> Rungs(p, m.cs, m.vouchers, Coming(m)))
  }

  // ---------- One step ----------

  /** Recording the report moves the deal up one rung. */
  lemma ReportClimbs(p: Params, ds: ClientState, k: nat)
    requires ds.params == p && p.unsealPrice == 0 && p.pricePerByte > 0
    requires 0 < k && At(p, ds, k - 1) && Rung(p, k - 1) < Rung(p, k)
    ensures var ds' := RecordPaymentSent(ds, Rung(p, k));
            && At(p, ds', k) && ds'.unsealFundsPaid == 0
            && ds'.totalReceived == ds.totalReceived && ds'.allBlocksReceived == ds.allBlocksReceived
  {
    hide Boundary, NextInterval;
    QuotientExact(Boundary(p, k), p.pricePerByte);
    assert Boundary(p, k - 1) < Boundary(p, k) by {
      if Boundary(p, k) <= Boundary(p, k - 1) { MulMonotone(Boundary(p, k), Boundary(p, k - 1), p.pricePerByte); }
    }
    NextAfter(p, k);
  }

  lemma NextAfter(p: Params, k: nat)
    requires 0 < k
    ensures NextInterval(p, Boundary(p, k)) == Boundary(p, k + 1)
  {
    IntervalsInverseOnBoundaries(p, k);
  }

  /** Other events leave the recorded payments alone. */
  lemma OtherEventStays(ds: ClientState, e: Event)
    requires !e.PaymentSent?
    ensures var ds' := Apply(ds, e);
            && ds'.fundsSpent == ds.fundsSpent && ds'.bytesPaidFor == ds.bytesPaidFor
            && ds'.currentInterval == ds.currentInterval && ds'.unsealFundsPaid == ds.unsealFundsPaid
            && (ds.allBlocksReceived ==> ds'.allBlocksReceived)
  {
    assert var a := Act(ds, e);
           && a.fundsSpent == ds.fundsSpent && a.bytesPaidFor == ds.bytesPaidFor
           && a.currentInterval == ds.currentInterval && a.unsealFundsPaid == ds.unsealFundsPaid
           && (ds.allBlocksReceived ==> a.allBlocksReceived);
    hide Act;
    var t := Transition(ds.status, e);
    assert t.To? ==> Apply(ds, e) == Act(ds, e).(status := t.status);
  }

  lemma ReportApplied(ds: ClientState, amount: int)
    requires !Transition(ds.status, PaymentSent(amount)).Invalid?
    ensures var ds' := Apply(ds, PaymentSent(amount));
            ds' == RecordPaymentSent(ds, amount).(status := ds'.status)
  {
    hide RecordPaymentSent;
  }

  lemma ReportKeepsFlags(ds: ClientState, amount: int)
    ensures Apply(ds, PaymentSent(amount)).allBlocksReceived == ds.allBlocksReceived
  {
    hide NextInterval;
    if !Transition(ds.status, PaymentSent(amount)).Invalid? {
      ReportApplied(ds, amount);
      hide Apply;
    }
  }

  /** Applying the front event keeps the rungs. */
  lemma ApplyKeepsRungs(p: Params, ds: ClientState, vouchers: seq<int>, es: seq<Event>)
    requires ds.params == p && p.unsealPrice == 0 && p.pricePerByte > 0
    requires es != [] && Rungs(p, ds, vouchers, es)
    requires ds.totalReceived <= Apply(ds, es[0]).totalReceived
    ensures Rungs(p, Apply(ds, es[0]), vouchers, es[1..])
  {
    hide Apply, Rung, Boundary;
    var e, k := es[0], |vouchers|;
    assert forall i :: 0 <= i < |es| - 1 ==> es[1..][i] == es[i + 1];
    if e.PaymentSent? {
      if Transition(ds.status, e).Invalid? {
        assert Apply(ds, e) == ds by { InvalidStays(ds, e); }
      } else {
        ReportClimbs(p, ds, k);
        ReportApplied(ds, e.amount);
      }
    } else {
      OtherEventStays(ds, e);
    }
  }

  lemma InvalidStays(ds: ClientState, e: Event)
    requires Transition(ds.status, e).Invalid?
    ensures Apply(ds, e) == ds
  {
  }

  /** A voucher is created only from the top rung, for the next boundary. */
  lemma HandlerClimbs(p: Params, ds: ClientState, vouchers: seq<int>, es: seq<Event>, w: World)
    requires ds.params == p && p.unsealPrice == 0 && p.pricePerByte > 0 && !ds.allBlocksReceived
    requires Rungs(p, ds, vouchers, es) && w.writeOk
    requires w.voucher.Created? ==> forall i :: 0 <= i < |vouchers| ==> vouchers[i] < AmountToSend(ds)
    ensures var eff := Handler(ds, w);
            var vouchers' := vouchers + if eff.voucher.Some? then [eff.voucher.value] else [];
            var es' := es + if eff.trigger.Some? then [eff.trigger.value] else [];
            Rungs(p, ds, vouchers', es')
  {
    VoucherIsAmount(ds, w);
    var k := |vouchers|;
    var eff := Handler(ds, w);
    hide Boundary, Handler;
    if eff.voucher.Some? {
      assert AmountToSend(ds) == ds.currentInterval * p.pricePerByte;
      assert 0 < k ==> vouchers[k - 1] == Rung(p, k) < AmountToSend(ds);
      assert At(p, ds, k);
      assert eff.voucher.value == Rung(p, k + 1);
    } else {
      assert vouchers + [] == vouchers;
    }
  }

  lemma VoucherIsAmount(ds: ClientState, w: World)
    requires w.writeOk
    ensures var eff := Handler(ds, w);
            && (eff.voucher.Some? ==>
                  && eff.voucher.value == AmountToSend(ds) > ds.fundsSpent
                  && w.voucher.Created?
                  && ds.status in {SendFunds, SendFundsLastPayment}
                  && eff.trigger == Some(PaymentSent(AmountToSend(ds))))
            && (eff.voucher.None? && eff.trigger.Some? ==> !eff.trigger.value.PaymentSent?)
  {
    hide AmountToSend;
  }

  lemma ProcessKeepsLadder(p: Params, m: Machine, w: World)
    requires Ladder(p, m) && m.pending.None? && m.queue != [] && HonestLane(m, w)
    ensures Ladder(p, ProcessFront(m, w))
  {
    hide Transition, Apply, Handler, AmountToSend, Rungs, RunsHandler, Worth;
    var e, m' := m.queue[0], ProcessFront(m, w);
    ProcessKeepsInv(m, w);
    assert Coming(m) == m.queue;
    if Transition(m.cs.status, e).Invalid? {
      InvalidStays(m.cs, e);
    } else {
      ActTotalReceived(m.cs, e);
      AllBlocksStay(m.cs, e);
    }
    if !Apply(m.cs, e).allBlocksReceived {
      AllBlocksStay(m.cs, e);
      ActTotalReceived(m.cs, e);
      ApplyKeepsRungs(p, m.cs, m.vouchers, m.queue);
      HandlerClimbs(p, Apply(m.cs, e), m.vouchers, m.queue[1..], w);
      assert Coming(m') == m'.queue + if m'.pending.Some? then [m'.pending.value] else [];
      assert m.queue[1..] + [] == m.queue[1..];
    }
  }

  lemma AllBlocksStay(ds: ClientState, e: Event)
    ensures ds.allBlocksReceived ==> Apply(ds, e).allBlocksReceived
  {
    if e.PaymentSent? { ReportKeepsFlags(ds, e.amount); } else { OtherEventStays(ds, e); }
  }

  lemma InsertReport(q: seq<Event>, e: Event, tail: seq<Event>, v: int)
    requires !e.PaymentSent? && |tail| <= 1
    ensures NoReport(q + tail) ==> NoReport(q + [e] + tail)
    ensures OneReport(q + tail, v) ==> OneReport(q + [e] + tail, v)
  {
    var es, es' := q + tail, q + [e] + tail;
    assert forall i :: 0 <= i < |q| ==> es'[i] == es[i];
    assert tail != [] ==> es'[|q| + 1] == es[|q|];
  }

  lemma StepKeepsLadder(p: Params, m: Machine, s: Step)
    requires Ladder(p, m) && LaneEnabled(m, s)
    ensures Ladder(p, Next(m, s))
  {
    hide Rung, Boundary, At, Worth;
    StepKeepsInv(m, s);
    match s
    case Enqueue(e) =>
      var tail := if m.pending.Some? then [m.pending.value] else [];
      InsertReport(m.queue, e, tail, Rung(p, |m.vouchers|));
    case Process(w) => ProcessKeepsLadder(p, m, w);
    case Settle =>
      assert Coming(Next(m, s)) == Coming(m);
  }

  /** In every interleaving, against any provider: until all blocks are received, the vouchers are
      worth B(1), B(2), ..., B(k) times the price, each created only after its bytes arrived, and
      the client's interval is B(k), or B(k + 1) once the last payment is recorded. */
  lemma VouchersClimbBoundaries(p: Params, totalFunds: int, steps: seq<Step>)
    requires p.unsealPrice == 0 && p.pricePerByte > 0
    requires Exec(Begin(p, totalFunds), LaneEnabled, Next, steps).Some?
    ensures var m := Exec(Begin(p, totalFunds), LaneEnabled, Next, steps).value;
            var k := |m.vouchers|;
            !m.cs.allBlocksReceived ==>
              && (forall i :: 0 <= i < k ==> m.vouchers[i] == Boundary(p, i + 1) * p.pricePerByte)
              && (0 < k ==> Boundary(p, k) <= m.cs.totalReceived)
              && (m.cs.currentInterval == Boundary(p, k + 1) ||
                  (0 < k && m.cs.currentInterval == Boundary(p, k)))
  {
    assert Rung(p, 0) == 0 && Boundary(p, 1) == p.Step(0);
    assert Ladder(p, Begin(p, totalFunds));
    hide Next, LaneEnabled, Ladder, Begin;
    forall m, s | Ladder(p, m) && LaneEnabled(m, s) ensures Ladder(p, Next(m, s)) { StepKeepsLadder(p, m, s); }
    Invariance(Begin(p, totalFunds), LaneEnabled, Next, m => Ladder(p, m), steps);
    UseLadder(p, Exec(Begin(p, totalFunds), LaneEnabled, Next, steps).value);
  }

  lemma UseLadder(p: Params, m: Machine)
    requires Ladder(p, m)
    ensures var k := |m.vouchers|;
            !m.cs.allBlocksReceived ==>
              && (forall i :: 0 <= i < k ==> m.vouchers[i] == Boundary(p, i + 1) * p.pricePerByte)
              && (0 < k ==> Boundary(p, k) <= m.cs.totalReceived)
              && (m.cs.currentInterval == Boundary(p, k + 1) ||
                  (0 < k && m.cs.currentInterval == Boundary(p, k)))
  {
    hide Boundary, Inv;
  }

  // ---------- No first interval ----------

  /** Until all blocks are received nothing was paid. */
  ghost predicate Unpaid(p: Params, m: Machine) {
    Ladder(p, m) && (!m.cs.allBlocksReceived ==> m.vouchers == [])
  }

  /** At an interval of zero the amount to send is zero. */
  lemma ZeroHandler(p: Params, ds: ClientState, es: seq<Event>, w: World)
    requires ds.params == p && p.unsealPrice == 0 && p.paymentInterval == 0 && !ds.allBlocksReceived
    requires Rungs(p, ds, [], es) && w.writeOk
    ensures Handler(ds, w).voucher.None?
  {
    assert Boundary(p, 0) == 0 && Boundary(p, 1) == p.Step(0) == 0;
    VoucherIsAmount(ds, w);
    hide Handler, Boundary;
  }

  lemma StepKeepsUnpaid(p: Params, m: Machine, s: Step)
    requires Unpaid(p, m) && LaneEnabled(m, s) && p.paymentInterval == 0
    ensures Unpaid(p, Next(m, s))
  {
    hide Inv, Rungs;
    StepKeepsLadder(p, m, s);
    if s.Process? {
      var e := m.queue[0];
      hide Transition, Apply, Handler, RunsHandler, Ladder;
      AllBlocksStay(m.cs, e);
      if !Apply(m.cs, e).allBlocksReceived {
        FrontRungs(p, m);
        ZeroHandler(p, Apply(m.cs, e), m.queue[1..], s.w);
      }
      if Transition(m.cs.status, e).Invalid? { InvalidStays(m.cs, e); }
    }
  }

  lemma FrontRungs(p: Params, m: Machine)
    requires Ladder(p, m) && m.pending.None? && m.queue != [] && !m.cs.allBlocksReceived
    ensures var ds := Apply(m.cs, m.queue[0]);
            Rungs(p, ds, m.vouchers, m.queue[1..]) && ds.params == p && p.unsealPrice == 0
  {
    hide Apply, Transition, Rungs;
    assert Coming(m) == m.queue;
    ActTotalReceived(m.cs, m.queue[0]);
    ReceivedGrows(m);
    ApplyKeepsRungs(p, m.cs, m.vouchers, m.queue);
    ParamsStay(m.cs, m.queue[0]);
  }

  lemma ReceivedGrows(m: Machine)
    requires Inv(m) && m.queue != []
    ensures m.queue[0].BlocksReceived? ==> m.cs.totalReceived <= m.queue[0].total
  {
    hide Worth;
  }

  lemma ParamsStay(ds: ClientState, e: Event)
    ensures Apply(ds, e).params == ds.params
  {
    hide Transition, NextInterval;
    assert Act(ds, e).params == ds.params;
  }

  /** With a first interval of zero the client makes no voucher until all blocks are received, in whatever
      run. */
  lemma ZeroIntervalNeverPays(p: Params, totalFunds: int, steps: seq<Step>)
    requires p.unsealPrice == 0 && p.pricePerByte > 0 && p.paymentInterval == 0
    requires Exec(Begin(p, totalFunds), LaneEnabled, Next, steps).Some?
    ensures var m := Exec(Begin(p, totalFunds), LaneEnabled, Next, steps).value;
            !m.cs.allBlocksReceived ==> m.vouchers == []
  {
    assert Rung(p, 0) == 0 && Boundary(p, 1) == p.Step(0);
    assert Unpaid(p, Begin(p, totalFunds));
    hide Next, LaneEnabled, Ladder, Begin;
    forall m, s | Unpaid(p, m) && LaneEnabled(m, s) ensures Unpaid(p, Next(m, s)) { StepKeepsUnpaid(p, m, s); }
    Invariance(Begin(p, totalFunds), LaneEnabled, Next, m => Unpaid(p, m), steps);
  }
}
