/** How a client's deal comes to its end: what it concludes when the provider says that it is done, and which deals are
    completed (retrieval/client/fsm.go:343-432 and 620-642). */
module ClientCompletion {
  import opened Options
  import opened Deals
  import opened Intervals
  import opened Numbers
  import opened Client
  import opened ClientRuns
  import opened ClientLadder
  import opened ClientProgress
  import opened ClientOutcome
  import opened ClientSteps
  import opened Runs

  /** What the client itself concludes. */
  predicate IsVerdict(e: Event) { e in {CompleteVerified, EarlyTermination, WaitForLastBlocks} }

  /** The conclusion from a deal: all blocks are there, or none more is paid for, or they are waited for. */
  function Verdict(ds: ClientState): Event {
    if ds.allBlocksReceived then CompleteVerified
    else if ds.params.pricePerByte > 0 then EarlyTermination
    else WaitForLastBlocks
  }

  /** Runs in which no conclusion comes from outside. */
  predicate CanRun(m: Machine, s: Step) {
    Enabled(m, s) && (s.Enqueue? ==> !IsVerdict(s.e))
  }

  /** Statuses from which a deal does not come to be checked any more. */
  const BEYOND: set<Status> := {
    ClientWaitingForLastBlocks, Completed, Errored, Failing, Cancelling, Cancelled, Rejected, DealNotFound
  }

  predicate Unconcluded(es: seq<Event>) { forall i :: 0 <= i < |es| ==> !IsVerdict(es[i]) }

  /** The conclusion is among the events, and no other. */
  predicate Just(v: Event, es: seq<Event>) {
    v in es && forall i :: 0 <= i < |es| && IsVerdict(es[i]) ==> es[i] == v
  }

  /** While a deal is checked just the right conclusion is on its way, and before that none. */
  predicate Concludes(ds: ClientState, es: seq<Event>) {
    && (ds.status == CheckComplete ==> Just(Verdict(ds), es))
    && (ds.status !in BEYOND && ds.status != CheckComplete ==> Unconcluded(es))
  }

  lemma InsertKeeps(q: seq<Event>, e: Event, tail: seq<Event>, v: Event)
    requires !IsVerdict(e) && |tail| <= 1
    ensures Unconcluded(q + tail) ==> Unconcluded(q + [e] + tail)
    ensures Just(v, q + tail) ==> Just(v, q + [e] + tail)
  {
    hide IsVerdict;
    var es, es' := q + tail, q + [e] + tail;
    forall i | 0 <= i < |es'| && IsVerdict(es'[i]) ensures i != |q| && es'[i] == es[if i < |q| then i else i - 1] { }
    if v in es {
      var i :| 0 <= i < |es| && es[i] == v;
      assert es'[if i < |q| then i else i + 1] == v;
    }
  }

  lemma TailKeeps(es: seq<Event>, trig: seq<Event>, v: Event)
    requires es != []
    ensures Unconcluded(es) && Unconcluded(trig) ==> Unconcluded(es[1..] + trig)
    ensures Unconcluded(es) && trig == [v] ==> Just(v, es[1..] + trig)
    ensures Just(v, es) && es[0] != v && (trig == [] || trig == [v]) ==> Just(v, es[1..] + trig)
  {
    hide IsVerdict;
    var es' := es[1..] + trig;
    assert forall i :: 0 <= i < |es'| ==> es'[i] == if i < |es| - 1 then es[i + 1] else trig[i - (|es| - 1)];
    if v in es && es[0] != v {
      var i :| 0 <= i < |es| && es[i] == v;
      assert es'[i - 1] == v;
    }
    if trig == [v] { assert es'[|es| - 1] == v; }
  }

  /** The last payment was requested before it is sent, and a completed deal has all its blocks or was asked for it. */
  predicate Ended(ds: ClientState) {
    && (ds.status in {FundsNeededLastPayment, SendFundsLastPayment, Finalizing} ==> ds.lastPaymentRequested)
    && (ds.status == ClientWaitingForLastBlocks ==> ds.params.pricePerByte == 0)
    && (ds.status == Completed ==> ds.allBlocksReceived || ds.lastPaymentRequested)
  }

  // ---------- One event ----------

  lemma CheckedLeads(s: Status, e: Event)
    ensures s == CheckComplete ==>
              && (Transition(s, e).JustRecord? ==> false)
              && (Transition(s, e).NoChange? ==> !IsVerdict(e) && !e.AllBlocksReceived?)
              && (Transition(s, e).Invalid? ==> !IsVerdict(e) && !e.AllBlocksReceived?)
              && (Transition(s, e).To? ==> Transition(s, e).status in BEYOND && Transition(s, e).status != CheckComplete)
  {
  }

  lemma BeyondStays(s: Status, e: Event)
    requires s in BEYOND
    ensures Transition(s, e).To? ==> Transition(s, e).status in BEYOND
  {
  }

  lemma FlagsMove(ds: ClientState, e: Event)
    ensures var ds' := Apply(ds, e);
            && ds'.params == ds.params
            && ds'.status == (if Transition(ds.status, e).To? then Transition(ds.status, e).status else ds.status)
            && (ds'.allBlocksReceived <==> ds.allBlocksReceived || (e.AllBlocksReceived? && !Transition(ds.status, e).Invalid?))
            && (ds'.lastPaymentRequested <==> ds.lastPaymentRequested || (e.LastPaymentRequested? && !Transition(ds.status, e).Invalid?))
  {
    ActFlags(ds, e);
    StatusApplied(ds, e);
    ParamsStay(ds, e);
    hide Transition, Act;
  }

  lemma ActFlags(ds: ClientState, e: Event)
    ensures Act(ds, e).allBlocksReceived <==> ds.allBlocksReceived || e.AllBlocksReceived?
    ensures Act(ds, e).lastPaymentRequested <==> ds.lastPaymentRequested || e.LastPaymentRequested?
  {
    hide NextInterval;
  }

  /** The handler concludes exactly in CheckComplete. */
  lemma HandlerConcludes(ds: ClientState, w: World)
    ensures var trigger := Handler(ds, w).trigger;
            && (ds.status == CheckComplete ==> trigger == Some(Verdict(ds)))
            && (ds.status != CheckComplete && trigger.Some? ==> !IsVerdict(trigger.value))
  {
    hide AmountToSend, MustSend;
  }

  /** How the statuses of the end are reached. */
  lemma LastLeads(s: Status, e: Event)
    requires Transition(s, e).To? && Transition(s, e).status in {FundsNeededLastPayment, SendFundsLastPayment, Finalizing}
    ensures e.LastPaymentRequested? || s in {FundsNeededLastPayment, SendFundsLastPayment, Finalizing}
  {
  }

  lemma CompletedLeads(s: Status, e: Event)
    requires Transition(s, e) == To(Completed)
    ensures e.AllBlocksReceived? || s == Finalizing || (s == CheckComplete && e == CompleteVerified)
  {
  }

  lemma WaitingLeads(s: Status, e: Event)
    requires Transition(s, e) == To(ClientWaitingForLastBlocks)
    ensures s == CheckComplete && e == WaitForLastBlocks
  {
  }

  lemma ApplyKeepsEnded(ds: ClientState, e: Event)
    requires Ended(ds) && (ds.status == CheckComplete && IsVerdict(e) ==> e == Verdict(ds))
    ensures Ended(Apply(ds, e))
  {
    FlagsMove(ds, e);
    hide Apply, Transition;
    if Transition(ds.status, e).To? {
      var s' := Transition(ds.status, e).status;
      if s' in {FundsNeededLastPayment, SendFundsLastPayment, Finalizing} { LastLeads(ds.status, e); }
      if s' == Completed { CompletedLeads(ds.status, e); }
      if s' == ClientWaitingForLastBlocks { WaitingLeads(ds.status, e); }
    }
  }

  /** Processing an event leaves the rest, with what the handler triggered behind. */
  lemma ProcessShape(m: Machine, w: World) returns (trig: seq<Event>)
    requires m.pending.None? && m.queue != []
    ensures var m', e := ProcessFront(m, w), m.queue[0];
            && m'.cs == Apply(m.cs, e) && Coming(m') == m.queue[1..] + trig
            && trig == if RunsHandler(m.cs.status, e) && Handler(m'.cs, w).trigger.Some? then [Handler(m'.cs, w).trigger.value] else []
  {
    var e, m' := m.queue[0], ProcessFront(m, w);
    if Transition(m.cs.status, e).Invalid? { InvalidStays(m.cs, e); }
    hide Transition, Apply, Handler;
    trig := if m'.pending.Some? then [m'.pending.value] else [];
  }

  lemma ProcessKeepsConclusion(m: Machine, w: World)
    requires Concludes(m.cs, Coming(m)) && Ended(m.cs) && m.pending.None? && m.queue != []
    ensures var m' := ProcessFront(m, w); Concludes(m'.cs, Coming(m')) && Ended(m'.cs)
  {
    hide *;
    var e, s, ds' := m.queue[0], m.cs.status, Apply(m.cs, m.queue[0]);
    AllComing(m);
    var trig := ProcessShape(m, w);
    FrontVerdict(m.cs, m.queue);
    ApplyKeepsEnded(m.cs, e);
    FlagsMove(m.cs, e);
    if s in BEYOND { BeyondStays(s, e); }
    CheckedLeads(s, e);
    HandlerConcludes(ds', w);
    VerdictBy(m.cs, ds');
    TrigUnconcluded(trig);
    RunsOnChange(s, e);
    ConcludesOn(m.cs, m.queue, ds', trig);
  }

  lemma AllComing(m: Machine)
    requires m.pending.None?
    ensures Coming(m) == m.queue
  {
  }

  /** The conclusions under way, by where the deal goes. */
  lemma ConcludesOn(ds: ClientState, es: seq<Event>, ds': ClientState, trig: seq<Event>)
    requires Concludes(ds, es) && es != []
    requires ds.status in BEYOND ==> ds'.status in BEYOND
    requires ds.status == CheckComplete && ds'.status != CheckComplete ==> ds'.status in BEYOND
    requires ds.status == CheckComplete && ds'.status == CheckComplete ==>
               Verdict(ds') == Verdict(ds) && es[0] != Verdict(ds) && (trig == [] || trig == [Verdict(ds)])
    requires ds.status != CheckComplete && ds'.status == CheckComplete ==> trig == [Verdict(ds')]
    requires ds.status != CheckComplete && ds'.status != CheckComplete ==> Unconcluded(trig)
    ensures Concludes(ds', es[1..] + trig)
  {
    hide Just, Unconcluded, Verdict;
    TailKeeps(es, trig, Verdict(ds'));
  }

  lemma RunsOnChange(s: Status, e: Event)
    ensures Transition(s, e).To? || Transition(s, e).NoChange? <==> RunsHandler(s, e)
  {
  }

  lemma TrigUnconcluded(trig: seq<Event>)
    ensures trig == [] ==> Unconcluded(trig)
    ensures |trig| == 1 && !IsVerdict(trig[0]) ==> Unconcluded(trig)
  {
  }

  /** The conclusion depends on the blocks and the price only. */
  lemma VerdictBy(ds: ClientState, ds': ClientState)
    ensures ds'.allBlocksReceived == ds.allBlocksReceived && ds'.params == ds.params ==> Verdict(ds') == Verdict(ds)
    ensures IsVerdict(Verdict(ds))
  {
  }

  lemma FrontVerdict(ds: ClientState, es: seq<Event>)
    requires Concludes(ds, es) && es != []
    ensures ds.status == CheckComplete && IsVerdict(es[0]) ==> es[0] == Verdict(ds)
  {
  }

  lemma StepKeepsConclusion(m: Machine, s: Step)
    requires Concludes(m.cs, Coming(m)) && Ended(m.cs) && CanRun(m, s)
    ensures var m' := Next(m, s); Concludes(m'.cs, Coming(m')) && Ended(m'.cs)
  {
    hide IsVerdict, Ended, Just, Unconcluded, Verdict;
    match s
    case Enqueue(e) => InsertKeeps(m.queue, e, if m.pending.Some? then [m.pending.value] else [], Verdict(m.cs));
    case Process(w) => ProcessKeepsConclusion(m, w);
    case Settle => assert Coming(Next(m, s)) == Coming(m);
  }

  /** In every run: while a deal is checked, it is on its way to Completed exactly when all blocks are there, to its early
      end exactly when they are not and bytes are paid for, and to wait for them exactly when they are free; and every
      completed deal has all its blocks or was asked for its last payment. */
  lemma EndsAsConcluded(p: Params, totalFunds: int, steps: seq<Step>)
    requires Exec(Begin(p, totalFunds), CanRun, Next, steps).Some?
    ensures var m := Exec(Begin(p, totalFunds), CanRun, Next, steps).value;
            var ds, es := m.cs, Coming(m);
            && (ds.status == CheckComplete ==>
                  && (CompleteVerified in es <==> ds.allBlocksReceived)
                  && (EarlyTermination in es <==> !ds.allBlocksReceived && p.pricePerByte > 0)
                  && (WaitForLastBlocks in es <==> !ds.allBlocksReceived && p.pricePerByte == 0))
            && (ds.status == ClientWaitingForLastBlocks ==> p.pricePerByte == 0)
            && (ds.status == Completed ==> ds.allBlocksReceived || ds.lastPaymentRequested)
  {
    var inv := (m: Machine) => Concludes(m.cs, Coming(m)) && Ended(m.cs) && m.cs.params == p;
    assert inv(Begin(p, totalFunds));
    hide Next, CanRun, Begin, Concludes, Ended;
    forall m, s | inv(m) && CanRun(m, s) ensures inv(Next(m, s)) {
      StepKeepsConclusion(m, s);
      StepKeepsParams(m, s);
    }
    Invariance(Begin(p, totalFunds), CanRun, Next, inv, steps);
    ConcludesExactly(Exec(Begin(p, totalFunds), CanRun, Next, steps).value);
  }

  lemma StepKeepsParams(m: Machine, s: Step)
    ensures Next(m, s).cs.params == m.cs.params
  {
    if s.Process? && m.queue != [] { ParamsStay(m.cs, m.queue[0]); }
    hide Apply, Handler, Transition;
  }

  lemma ConcludesExactly(m: Machine)
    requires Concludes(m.cs, Coming(m)) && Ended(m.cs)
    ensures var ds, es := m.cs, Coming(m);
            && (ds.status == CheckComplete ==>
                  && (CompleteVerified in es <==> ds.allBlocksReceived)
                  && (EarlyTermination in es <==> !ds.allBlocksReceived && ds.params.pricePerByte > 0)
                  && (WaitForLastBlocks in es <==> !ds.allBlocksReceived && ds.params.pricePerByte == 0))
            && (ds.status == ClientWaitingForLastBlocks ==> ds.params.pricePerByte == 0)
            && (ds.status == Completed ==> ds.allBlocksReceived || ds.lastPaymentRequested)
  {
    var ds, es := m.cs, Coming(m);
    if ds.status == CheckComplete {
      forall v | v in es && IsVerdict(v) ensures v == Verdict(ds) {
        var i :| 0 <= i < |es| && es[i] == v;
      }
    }
  }

  // ---------- Completed without all blocks ----------

  /** The last payment is sent without looking at the blocks. */
  lemma LastRequestArrives(p: Params, funds: int, n: nat, owed: int)
    requires 0 < n == p.paymentInterval
    ensures Happens(Deal(p, funds, Ongoing, n, 0, n, 0, 0), LastPaymentRequested(owed),
                    Deal(p, funds, FundsNeededLastPayment, n, 0, n, owed, 0).(lastPaymentRequested := true), false, Trigger(SendFundsNow))
  {
  }

  lemma LastIsSent(p: Params, funds: int, n: nat, owed: int, v: int)
    requires v == n * p.pricePerByte + p.unsealPrice > 0
    ensures AmountToSend(Deal(p, funds, SendFundsLastPayment, n, 0, n, owed, 0).(lastPaymentRequested := true)) == v
    ensures Happens(Deal(p, funds, FundsNeededLastPayment, n, 0, n, owed, 0).(lastPaymentRequested := true), SendFundsNow,
                    Deal(p, funds, SendFundsLastPayment, n, 0, n, owed, 0).(lastPaymentRequested := true), true,
                    Effect(Some(PaymentSent(v)), Some(v)))
  {
  }

  lemma LastIsRecorded(ds: ClientState, v: int)
    requires ds.status == SendFundsLastPayment && !ds.allBlocksReceived
    ensures var ds' := Apply(ds, PaymentSent(v));
            && Happens(ds, PaymentSent(v), ds', false, Effect(None, None))
            && ds'.status == Finalizing && !ds'.allBlocksReceived
  {
    ReportKeepsFlags(ds, v);
    StatusApplied(ds, PaymentSent(v));
    hide RecordPaymentSent;
  }

  lemma Completes(ds: ClientState)
    requires ds.status == Finalizing
    ensures Happens(ds, Complete, ds.(status := Completed), false, Effect(None, None))
  {
  }

  /** At every price and interval, a run to a completed deal with more blocks to come: the request for the last payment
      overtakes them. */
  lemma CompletedWithoutAllBlocks(p: Params, funds: int, owed: int) returns (steps: seq<Step>, m: Machine)
    requires p.pricePerByte > 0 && p.paymentInterval > 0
    ensures Exec(Begin(p, funds), LaneEnabled, Next, steps) == Some(m)
    ensures m.cs.status == Completed && !m.cs.allBlocksReceived && m.vouchers == [p.paymentInterval * p.pricePerByte + p.unsealPrice]
  {
    hide *;
    var n, begin := p.paymentInterval, Begin(p, funds);
    var v := n * p.pricePerByte + p.unsealPrice;
    MulStrict(0, n, p.pricePerByte);
    steps, m := GetsUnderWay(p, funds);
    FreshOngoing(p, funds);
    CanArrive(m, n, 0);
    BytesArrive(p, funds, Ongoing, 0, n, 0, n, 0, 0, false);
    steps, m := TakesOne(begin, steps, m, BlocksReceived(n), Deal(p, funds, Ongoing, n, 0, n, 0, 0), Effect(None, None), false);
    CanEnd(m, owed);
    LastRequestArrives(p, funds, n, owed);
    steps, m := TakesOne(begin, steps, m, LastPaymentRequested(owed),
                         Deal(p, funds, FundsNeededLastPayment, n, 0, n, owed, 0).(lastPaymentRequested := true), Trigger(SendFundsNow), false);
    TriggersOne(SendFundsNow);
    LastIsSent(p, funds, n, owed, v);
    NoVouchers(v);
    steps, m := TakesOne(begin, steps, m, SendFundsNow,
                         Deal(p, funds, SendFundsLastPayment, n, 0, n, owed, 0).(lastPaymentRequested := true),
                         Effect(Some(PaymentSent(v)), Some(v)), true);
    LastDeal(p, funds, n, owed);
    LastIsRecorded(m.cs, v);
    steps, m := TakesOne(begin, steps, m, PaymentSent(v), Apply(m.cs, PaymentSent(v)), Effect(None, None), false);
    CanEnd(m, owed);
    Completes(m.cs);
    steps, m := TakesOne(begin, steps, m, Complete, m.cs.(status := Completed), Effect(None, None), false);
  }

  lemma FreshOngoing(p: Params, funds: int)
    ensures Fresh(p, funds, Ongoing) == Deal(p, funds, Ongoing, 0, 0, p.paymentInterval, 0, 0) && Reminder(0) == Effect(None, None)
    ensures Listed<int>(None) == []
  {
  }

  lemma CanEnd(m: Machine, owed: int)
    ensures Enabled(m, Enqueue(LastPaymentRequested(owed))) && Enabled(m, Enqueue(Complete))
  {
  }

  lemma TriggersOne(e: Event)
    ensures Trigger(e) == Effect(Some(e), None)
  {
  }

  lemma NoVouchers(v: int)
    ensures Grants([], v) && Listed(Some(v)) == [v] && [] + [v] == [v]
  {
  }

  lemma LastDeal(p: Params, funds: int, n: nat, owed: int)
    ensures var ds := Deal(p, funds, SendFundsLastPayment, n, 0, n, owed, 0).(lastPaymentRequested := true);
            ds.status == SendFundsLastPayment && !ds.allBlocksReceived
  {
  }

  // ---------- The last payment ----------

  /** All blocks are there and the last payment is requested, in either order, with the second of the two, or the attempt to
      pay, in the queue, and more is due than was vouched for. */
  ghost predicate AtLast(m: Machine) {
    && m.pending.None? && |m.queue| == 1
    && (|| (m.cs.status == BlocksComplete && m.cs.allBlocksReceived && m.queue[0].LastPaymentRequested?)
        || (m.cs.status == FundsNeededLastPayment && m.queue[0] == AllBlocksReceived)
        || (m.cs.status == FundsNeededLastPayment && m.cs.allBlocksReceived && m.queue[0] == SendFundsNow))
    && m.cs.params.pricePerByte > 0 && 0 < m.cs.totalReceived
    && m.cs.fundsSpent < Worth(m.cs) && forall i :: 0 <= i < |m.vouchers| ==> m.vouchers[i] < Worth(m.cs)
  }

  lemma LastIsDue(m: Machine)
    requires AtLast(m)
    ensures var ds := Apply(m.cs, m.queue[0]);
            && RunsHandler(m.cs.status, m.queue[0]) && ds.status == SendFundsLastPayment && ds.allBlocksReceived
            && ds.params == m.cs.params && ds.totalReceived == m.cs.totalReceived && ds.fundsSpent == m.cs.fundsSpent
            && AmountToSend(ds) == Worth(m.cs)
  {
  }

  lemma FundedSends(m: Machine)
    requires AtLast(m)
    ensures var m', v := Alone(m), Worth(m.cs);
            && m'.cs == Apply(m.cs, m.queue[0]) && m'.queue == [] && m'.pending == Some(PaymentSent(v))
            && m'.vouchers == m.vouchers + [v]
  {
    LastIsDue(m);
    FundedCreates(m, Worth(m.cs));
    hide Apply, Transition, AmountToSend, Funded, Worth;
    InvalidRunsNothing(m.cs.status, m.queue[0]);
    assert m.queue[1..] == [];
  }

  lemma RecordsAll(ds: ClientState, v: int)
    requires ds.status == SendFundsLastPayment && ds.params.pricePerByte > 0 && 0 < ds.totalReceived && v == Worth(ds)
    ensures var ds' := Apply(ds, PaymentSent(v));
            && ds'.status == Finalizing && ds'.fundsSpent == v && ds'.bytesPaidFor == ds.totalReceived
            && ds'.totalReceived == ds.totalReceived && ds'.unsealFundsPaid == ds.params.unsealPrice
            && ds'.allBlocksReceived == ds.allBlocksReceived
  {
    QuotientExact(ds.totalReceived, ds.params.pricePerByte);
    hide NextInterval;
  }

  lemma ReportEnds(m: Machine, v: int)
    requires m.cs.status == SendFundsLastPayment && m.queue == [] && m.pending == Some(PaymentSent(v))
    ensures var m' := Alone(Alone(m));
            m'.cs == Apply(m.cs, PaymentSent(v)) && m'.queue == [] && m'.pending.None? && m'.vouchers == m.vouchers
  {
    var m1 := Alone(m);
    assert [] + [PaymentSent(v)] == [PaymentSent(v)];
    assert m1 == m.(queue := [PaymentSent(v)], pending := None);
    assert RunsHandler(SendFundsLastPayment, PaymentSent(v));
    StatusApplied(m.cs, PaymentSent(v));
    assert Apply(m.cs, PaymentSent(v)).status == Finalizing;
    hide Apply, Funded, Transition;
    assert [PaymentSent(v)][1..] == [] && m.vouchers + [] == m.vouchers;
  }

  /** Left alone, the client then pays for all bytes received and unsealing, and waits; the provider's word that it is done
      completes the deal. */
  lemma LastPaymentPaysAll(m: Machine, w: World)
    requires AtLast(m)
    ensures var m' := Iterate(Alone, m, 3);
            && m'.vouchers == m.vouchers + [Worth(m.cs)]
            && m'.cs.status == Finalizing && m'.cs.allBlocksReceived && m'.queue == [] && m'.pending.None?
            && m'.cs.fundsSpent == Worth(m'.cs) == Worth(m.cs) && m'.cs.bytesPaidFor == m'.cs.totalReceived == m.cs.totalReceived
            && Next(Next(m', Enqueue(Complete)), Process(w)).cs.status == Completed
  {
    LastIsDue(m);
    FundedSends(m);
    var m1, v := Alone(m), Worth(m.cs);
    RecordsAll(m1.cs, v);
    ReportEnds(m1, v);
    var m3 := Alone(Alone(m1));
    ParamsStay(m1.cs, PaymentSent(v));
    assert Worth(m3.cs) == v;
    WordCompletes(m3, w);
    hide Alone, Apply, Worth, Next, AtLast;
    assert Iterate(Alone, m, 3) == Iterate(Alone, m1, 2) == Iterate(Alone, Alone(m1), 1) == m3;
  }

  /** A request for the last payment that is met while another payment is sent. */
  ghost predicate AskedWhileSending(m: Machine) {
    && m.cs.status == SendFunds && m.cs.allBlocksReceived && m.pending.None?
    && |m.queue| == 1 && m.queue[0].LastPaymentRequested? && 0 < m.cs.paymentRequested + m.queue[0].owed
    && m.cs.params.pricePerByte > 0 && m.cs.bytesPaidFor < m.cs.totalReceived
    && m.cs.fundsSpent < Worth(m.cs) && forall i :: 0 <= i < |m.vouchers| ==> m.vouchers[i] < Worth(m.cs)
  }

  lemma RemindsOfLast(m: Machine)
    requires AskedWhileSending(m)
    ensures var m' := Alone(Alone(m));
            && m'.cs == m.cs.(status := Ongoing, lastPaymentRequested := true, paymentRequested := m.cs.paymentRequested + m.queue[0].owed)
            && m'.queue == [LastPaymentRequested(0)] && m'.pending.None? && m'.vouchers == m.vouchers
  {
    assert m.queue[1..] == [] && m.vouchers + [] == m.vouchers && [] + [LastPaymentRequested(0)] == [LastPaymentRequested(0)];
    hide Funded, Worth;
  }

  lemma ReminderIsDue(m: Machine)
    requires m.cs.status == Ongoing && m.cs.allBlocksReceived && m.cs.bytesPaidFor < m.cs.totalReceived
    requires m.queue == [LastPaymentRequested(0)] && m.pending.None?
    ensures var m' := Alone(Alone(m));
            && m'.cs == m.cs.(status := FundsNeededLastPayment, lastPaymentRequested := true)
            && m'.queue == [SendFundsNow] && m'.pending.None? && m'.vouchers == m.vouchers
  {
    assert m.queue[1..] == [] && m.vouchers + [] == m.vouchers && [] + [SendFundsNow] == [SendFundsNow];
    hide Funded;
  }

  /** Then too the client alone pays for all bytes and unsealing: it reminds itself of the request for the last payment. */
  lemma LastRequestIsRemembered(m: Machine, w: World)
    requires AskedWhileSending(m)
    ensures var m' := Iterate(Alone, m, 7);
            && m'.vouchers == m.vouchers + [Worth(m.cs)] && m'.cs.status == Finalizing && m'.cs.bytesPaidFor == m.cs.totalReceived
            && Next(Next(m', Enqueue(Complete)), Process(w)).cs.status == Completed
  {
    RemindsOfLast(m);
    var m2 := Alone(Alone(m));
    ReminderIsDue(m2);
    var m4 := Alone(Alone(m2));
    assert Worth(m4.cs) == Worth(m.cs);
    assert AtLast(m4);
    hide *;
    LastPaymentPaysAll(m4, w);
    FourSteps(m);
    IterateCompose(Alone, m, 4, 3);
  }

  lemma FourSteps(m: Machine)
    ensures Iterate(Alone, m, 4) == Alone(Alone(Alone(Alone(m))))
  {
    hide Alone;
    assert Iterate(Alone, m, 4) == Iterate(Alone, Alone(m), 3) == Iterate(Alone, Alone(Alone(m)), 2);
    assert Iterate(Alone, Alone(Alone(m)), 2) == Iterate(Alone, Alone(Alone(Alone(m))), 1) == Alone(Alone(Alone(Alone(m))));
  }

  lemma WordCompletes(m: Machine, w: World)
    requires m.cs.status == Finalizing && m.queue == []
    ensures Next(Next(m, Enqueue(Complete)), Process(w)).cs.status == Completed
  {
    assert Transition(Finalizing, Complete) == To(Completed);
    StatusApplied(m.cs, Complete);
    hide *;
    assert [] + [Complete] == [Complete];
    Processed(Next(m, Enqueue(Complete)), w);
    Enqueued(m, Complete);
  }

  lemma Processed(m: Machine, w: World)
    ensures m.queue != [] ==> Next(m, Process(w)).cs == Apply(m.cs, m.queue[0])
  {
    if m.queue != [] && Transition(m.cs.status, m.queue[0]).Invalid? { InvalidStays(m.cs, m.queue[0]); }
    hide Apply, Transition, Handler;
  }

  lemma Enqueued(m: Machine, e: Event)
    ensures Next(m, Enqueue(e)).cs == m.cs && Next(m, Enqueue(e)).queue == m.queue + [e]
  {
  }

  // ---------- Closing a deal ----------

  const CLOSING: set<Status> := {Failing, Cancelling}

  /** The answers to closing the transfer. */
  predicate Closer(e: Event) { e in {CancelComplete, DataTransferError} }

  predicate HasCloser(es: seq<Event>) { exists i :: 0 <= i < |es| && Closer(es[i]) }

  /** Number of events before the first such answer. */
  function CloserAt(es: seq<Event>): nat { if es == [] || Closer(es[0]) then 0 else 1 + CloserAt(es[1..]) }

  lemma {:induction false} CloserAtExtend(es: seq<Event>, more: seq<Event>)
    requires HasCloser(es)
    ensures CloserAt(es + more) == CloserAt(es)
  {
    hide Closer;
    if !Closer(es[0]) {
      assert (es + more)[1..] == es[1..] + more;
      TailHasCloser(es, []);
      assert es[1..] + [] == es[1..];
      CloserAtExtend(es[1..], more);
    }
  }

  lemma TailHasCloser(es: seq<Event>, more: seq<Event>)
    requires HasCloser(es) && !Closer(es[0])
    ensures HasCloser(es[1..] + more)
  {
    hide Closer;
    var i :| 0 <= i < |es| && Closer(es[i]);
    assert Closer((es[1..] + more)[i - 1]);
  }

  lemma ClosingLeads(s: Status, e: Event)
    requires s in CLOSING
    ensures Closer(e) ==> Transition(s, e).To? && Transition(s, e).status in {Errored, Cancelled}
    ensures Transition(s, e).To? ==> Transition(s, e).status in CLOSING + {Errored, Cancelled}
    ensures !Transition(s, e).NoChange?
  {
    hide Transition;
    if s == Failing { FailingLeads(e); } else { CancellingLeads(e); }
  }

  lemma FailingLeads(e: Event)
    ensures Closer(e) ==> Transition(Failing, e) == To(Errored)
    ensures Transition(Failing, e).To? ==> Transition(Failing, e).status in {Failing, Cancelling, Errored}
    ensures !Transition(Failing, e).NoChange?
  {
  }

  lemma CancellingLeads(e: Event)
    ensures Closer(e) ==> Transition(Cancelling, e).To? && Transition(Cancelling, e).status in {Errored, Cancelled}
    ensures Transition(Cancelling, e).To? ==> Transition(Cancelling, e).status in {Failing, Cancelling, Errored, Cancelled}
    ensures !Transition(Cancelling, e).NoChange?
  {
  }

  lemma HandlerCloses(ds: ClientState, w: World)
    requires ds.status in CLOSING
    ensures Handler(ds, w).trigger.Some? && Closer(Handler(ds, w).trigger.value)
  {
  }

  /** The answer to closing is never lost. */
  lemma ProcessKeepsCloser(m: Machine, w: World)
    requires m.pending.None? && m.queue != [] && (m.cs.status in CLOSING ==> HasCloser(Coming(m)))
    ensures var m' := ProcessFront(m, w); m'.cs.status in CLOSING ==> HasCloser(Coming(m'))
  {
    hide *;
    var e, s, ds' := m.queue[0], m.cs.status, Apply(m.cs, m.queue[0]);
    AllComing(m);
    var trig := ProcessShape(m, w);
    FlagsMove(m.cs, e);
    RunsOnChange(s, e);
    if ds'.status in CLOSING {
      if RunsHandler(s, e) {
        HandlerCloses(ds', w);
        LastCloser(m.queue[1..], trig);
      } else {
        ClosingLeads(s, e);
        TailHasCloser(m.queue, trig);
      }
    }
  }

  lemma LastCloser(es: seq<Event>, trig: seq<Event>)
    requires |trig| == 1 && Closer(trig[0])
    ensures HasCloser(es + trig)
  {
    assert Closer((es + trig)[|es|]);
  }

  lemma InsertKeepsCloser(q: seq<Event>, e: Event, tail: seq<Event>)
    requires HasCloser(q + tail)
    ensures HasCloser(q + [e] + tail)
  {
    hide Closer;
    var es, es' := q + tail, q + [e] + tail;
    var i :| 0 <= i < |es| && Closer(es[i]);
    assert es'[if i < |q| then i else i + 1] == es[i];
  }

  lemma StepKeepsCloser(m: Machine, s: Step)
    requires Enabled(m, s) && (m.cs.status in CLOSING ==> HasCloser(Coming(m)))
    ensures var m' := Next(m, s); m'.cs.status in CLOSING ==> HasCloser(Coming(m'))
  {
    hide HasCloser, ProcessFront;
    match s
    case Enqueue(e) =>
      if m.cs.status in CLOSING { InsertKeepsCloser(m.queue, e, if m.pending.Some? then [m.pending.value] else []); }
    case Process(w) => ProcessKeepsCloser(m, w);
    case Settle => assert Coming(Next(m, s)) == Coming(m);
  }

  /** The client alone comes to the deal's end. */
  ghost predicate Closes(m: Machine) {
    exists n: nat :: Iterate(Alone, m, n).cs.status in {Errored, Cancelled}
  }

  lemma ClosesLater(m: Machine)
    requires Closes(Alone(m))
    ensures Closes(m)
  {
    hide Alone;
    var n: nat :| Iterate(Alone, Alone(m), n).cs.status in {Errored, Cancelled};
    assert Iterate(Alone, m, n + 1) == Iterate(Alone, Alone(m), n);
  }

  lemma {:induction false} ClosesAlone(m: Machine)
    requires m.cs.status in CLOSING && HasCloser(Coming(m))
    ensures Closes(m)
    decreases CloserAt(Coming(m)), if m.pending.Some? then 1 else 0
  {
    hide *;
    if m.pending.Some? {
      SettlesAll(m);
      ClosesAlone(Alone(m));
    } else {
      AllComing(m);
      CloserComes(m.queue);
      AloneProcesses(m);
      var e := m.queue[0];
      var trig := ProcessShape(m, Funded(m));
      FlagsMove(m.cs, e);
      ClosingLeads(m.cs.status, e);
      if Alone(m).cs.status in {Errored, Cancelled} {
        ClosesNow(Alone(m));
      } else {
        TailHasCloser(m.queue, trig);
        CloserNearer(m.queue, trig);
        ClosesAlone(Alone(m));
      }
    }
    ClosesLater(m);
  }

  lemma CloserNearer(es: seq<Event>, trig: seq<Event>)
    requires HasCloser(es) && !Closer(es[0])
    ensures CloserAt(es[1..] + trig) < CloserAt(es)
  {
    hide Closer;
    TailHasCloser(es, []);
    assert es[1..] + [] == es[1..];
    CloserAtExtend(es[1..], trig);
  }

  lemma CloserComes(es: seq<Event>)
    ensures HasCloser(es) ==> es != []
  {
  }

  lemma ClosesNow(m: Machine)
    requires m.cs.status in {Errored, Cancelled}
    ensures Closes(m)
  {
    assert Iterate(Alone, m, 0) == m;
  }

  lemma AloneProcesses(m: Machine)
    requires m.pending.None? && m.queue != []
    ensures Alone(m) == ProcessFront(m, Funded(m))
  {
  }

  lemma SettlesAll(m: Machine)
    requires m.pending.Some?
    ensures Alone(m).cs == m.cs && Coming(Alone(m)) == Coming(m) && Alone(m).pending.None?
  {
  }

  /** In every run a deal that fails or is cancelled is closed by the client alone, whatever else is in its queue. */
  lemma FailingDealCloses(p: Params, totalFunds: int, steps: seq<Step>)
    requires Exec(Begin(p, totalFunds), Enabled, Next, steps).Some?
    ensures var m := Exec(Begin(p, totalFunds), Enabled, Next, steps).value; m.cs.status in {Failing, Cancelling} ==> Closes(m)
  {
    hide Next, Enabled, HasCloser, Closes;
    var inv := (m: Machine) => m.cs.status in CLOSING ==> HasCloser(Coming(m));
    assert inv(Begin(p, totalFunds));
    forall m, s | inv(m) && Enabled(m, s) ensures inv(Next(m, s)) { StepKeepsCloser(m, s); }
    Invariance(Begin(p, totalFunds), Enabled, Next, inv, steps);
    var m := Exec(Begin(p, totalFunds), Enabled, Next, steps).value;
    if m.cs.status in {Failing, Cancelling} { ClosesAlone(m); }
  }

  /** A live deal that is cancelled, or meets an answer it does not know, is closed in three steps: as cancelled exactly when
      it was cancelled and its transfer could be closed. */
  lemma CancelledExactly(m: Machine, w: World)
    requires m.cs.status !in FINALITY_STATES + CLOSING && m.pending.None?
    requires |m.queue| == 1 && m.queue[0] in {Cancel, ProviderCancelled, UnknownResponseReceived}
    ensures var m' := Next(Next(Next(m, Process(w)), Settle), Process(w));
            m'.cs.status == if w.closeOk && m.queue[0] != UnknownResponseReceived then Cancelled else Errored
  {
    TurnsToClose(m, w);
    hide *;
    var m1 := Next(m, Process(w));
    var e := if w.closeOk then CancelComplete else DataTransferError;
    SettledOne(m1, e);
    Processed(Next(m1, Settle), w);
    FlagsMove(m1.cs, e);
    CloserEnds(m1.cs.status, e);
  }

  lemma SettledOne(m: Machine, e: Event)
    requires m.queue == [] && m.pending == Some(e)
    ensures Next(m, Settle).cs == m.cs && Next(m, Settle).queue == [e]
  {
    assert [] + [e] == [e];
  }

  lemma TurnsToClose(m: Machine, w: World)
    requires m.cs.status !in FINALITY_STATES + CLOSING && m.pending.None?
    requires |m.queue| == 1 && m.queue[0] in {Cancel, ProviderCancelled, UnknownResponseReceived}
    ensures var m' := Next(m, Process(w));
            && m'.cs.status == (if m.queue[0] == UnknownResponseReceived then Failing else Cancelling) && m'.queue == []
            && m'.pending == Some(if w.closeOk then CancelComplete else DataTransferError)
  {
    var e := m.queue[0];
    TurnLeads(m.cs.status, e);
    FlagsMove(m.cs, e);
    RunsOnChange(m.cs.status, e);
    hide Transition, Apply;
    assert m.queue[1..] == [];
  }

  lemma TurnLeads(s: Status, e: Event)
    requires s !in FINALITY_STATES + CLOSING && e in {Cancel, ProviderCancelled, UnknownResponseReceived}
    ensures Transition(s, e) == To(if e == UnknownResponseReceived then Failing else Cancelling)
  {
  }

  lemma CloserEnds(s: Status, e: Event)
    requires s in CLOSING && Closer(e)
    ensures Transition(s, e) == To(if s == Cancelling && e == CancelComplete then Cancelled else Errored)
  {
  }
}
