/** Whole runs of the client's state machine over its event queue. Events join the back of the
    queue; one event at a time is applied and its handler run on the resulting state; the event a
    handler triggers joins the back of the queue only when the handler has finished, so other
    events may get in before it. */
module ClientRuns {
  import opened Options
  import opened Deals
  import opened Intervals
  import opened Numbers
  import opened Client
  import opened Runs

  /** `pending` is what the running handler is about to trigger, `vouchers` the amounts of the
      vouchers created so far, `accepted` the sum of the amounts owed in the requests that were
      applied, `announced` the last cumulative byte count that the transport reported. */
  datatype Machine = Machine(
    cs: ClientState,
    queue: seq<Event>,
    pending: Option<Event>,
    vouchers: seq<int>,
    accepted: int,
    announced: nat)

  datatype Step = Enqueue(e: Event) | Process(w: World) | Settle

  function Begin(p: Params, totalFunds: int): Machine {
    Machine(Start(p, totalFunds), [Open], None, [], 0, 0)
  }

  /** The environment may send any event except the client's own report of a payment, and its
      cumulative byte counts never shrink. */
  predicate Enabled(m: Machine, s: Step) {
    match s
    case Enqueue(e) => !e.PaymentSent? && (e.BlocksReceived? ==> m.announced <= e.total)
    case Process(_) => m.pending.None? && m.queue != []
    case Settle => m.pending.Some?
  }

  function OwedIn(e: Event): int {
    match e
    case LastPaymentRequested(owed) => owed
    case PaymentRequested(owed) => owed
    case UnsealPaymentRequested(owed) => owed
    case _ => 0
  }

  /** Applies the front event and runs the handler it leads to. */
  function ProcessFront(m: Machine, w: World): Machine
    requires m.queue != []
  {
    var e := m.queue[0];
    var rest := m.(queue := m.queue[1..]);
    if Transition(m.cs.status, e).Invalid? then rest
    else
      var applied := rest.(cs := Apply(m.cs, e), accepted := m.accepted + OwedIn(e));
      if !RunsHandler(m.cs.status, e) then applied
      else
        var eff := Handler(applied.cs, w);
        applied.(pending := eff.trigger,
                 vouchers := m.vouchers + if eff.voucher.Some? then [eff.voucher.value] else [])
  }

  function Next(m: Machine, s: Step): Machine {
    match s
    case Enqueue(e) =>
      m.(queue := m.queue + [e], announced := if e.BlocksReceived? then e.total else m.announced)
    case Process(w) => if m.queue == [] then m else ProcessFront(m, w)
    case Settle => if m.pending.None? then m else m.(queue := m.queue + [m.pending.value], pending := None)
  }

  // ---------- The client never pays for bytes it has not received ----------

  /** What the bytes received so far are worth, unsealing included. */
  function Worth(ds: ClientState): int {
    ds.params.unsealPrice + ds.totalReceived * ds.params.pricePerByte
  }

  ghost predicate Covered(e: Event, ds: ClientState, announced: nat) {
    && (e.PaymentSent? ==> e.amount <= Worth(ds))
    && (e.BlocksReceived? ==> ds.totalReceived <= e.total <= announced)
  }

  ghost predicate Inv(m: Machine) {
    && m.cs.totalReceived <= m.announced
    && m.cs.fundsSpent <= Worth(m.cs)
    && m.cs.bytesPaidFor <= m.cs.totalReceived
    && m.cs.fundsSpent + m.cs.paymentRequested == m.accepted
    && (forall i :: 0 <= i < |m.vouchers| ==> m.vouchers[i] <= Worth(m.cs))
    && (forall i :: 0 <= i < |m.queue| ==> Covered(m.queue[i], m.cs, m.announced))
    && (forall i, j :: 0 <= i < j < |m.queue| && m.queue[i].BlocksReceived? && m.queue[j].BlocksReceived? ==>
          m.queue[i].total <= m.queue[j].total)
    && (m.pending.Some? ==> !m.pending.value.BlocksReceived? && Covered(m.pending.value, m.cs, m.announced))
  }

  /** The next payment never exceeds what was received. */
  lemma AmountToSendCovered(ds: ClientState)
    ensures AmountToSend(ds) <= Worth(ds)
  {
    if ds.currentInterval <= ds.totalReceived {
      MulMonotone(ds.currentInterval, ds.totalReceived, ds.params.pricePerByte);
    }
  }

  /** An action keeps the accounts, and what the deal is worth never falls. */
  ghost predicate Accounted(ds: ClientState, e: Event, ds': ClientState) {
    && ds'.params == ds.params
    && ds.totalReceived <= ds'.totalReceived
    && Worth(ds) <= Worth(ds')
    && ds'.fundsSpent <= Worth(ds')
    && ds'.bytesPaidFor <= ds'.totalReceived
    && ds'.fundsSpent + ds'.paymentRequested == ds.fundsSpent + ds.paymentRequested + OwedIn(e)
  }

  lemma PaymentSentAccounted(ds: ClientState, amount: int)
    requires amount <= Worth(ds) && ds.bytesPaidFor <= ds.totalReceived
    ensures Accounted(ds, PaymentSent(amount), RecordPaymentSent(ds, amount))
  {
    if ds.params.pricePerByte > 0 && ds.params.unsealPrice < amount {
      QuotientCompares(amount - ds.params.unsealPrice, ds.params.pricePerByte, ds.totalReceived + 1);
      assert (ds.totalReceived + 1) * ds.params.pricePerByte
          == ds.totalReceived * ds.params.pricePerByte + ds.params.pricePerByte;
    }
  }

  lemma ActAccounted(ds: ClientState, e: Event, announced: nat)
    requires Covered(e, ds, announced)
    requires ds.fundsSpent <= Worth(ds) && ds.bytesPaidFor <= ds.totalReceived
    ensures Accounted(ds, e, Act(ds, e))
  {
    hide RecordPaymentSent;
    match e
    case PaymentSent(amount) => PaymentSentAccounted(ds, amount);
    case BlocksReceived(total) => MulMonotone(ds.totalReceived, total, ds.params.pricePerByte);
    case _ =>
  }

  lemma ApplyKeepsAccounts(ds: ClientState, e: Event, announced: nat)
    requires Covered(e, ds, announced)
    requires ds.fundsSpent <= Worth(ds) && ds.bytesPaidFor <= ds.totalReceived
    requires !Transition(ds.status, e).Invalid?
    ensures Accounted(ds, e, Apply(ds, e))
  {
    hide Transition, Act;
    ActAccounted(ds, e, announced);
    var t := Transition(ds.status, e);
    assert t.To? ==> Apply(ds, e) == Act(ds, e).(status := t.status);
  }

  lemma HandlerCovered(ds: ClientState, w: World)
    ensures var eff := Handler(ds, w);
            && (eff.voucher.Some? ==> eff.voucher.value <= Worth(ds))
            && (eff.trigger.Some? ==> !eff.trigger.value.BlocksReceived?)
            && (eff.trigger.Some? && eff.trigger.value.PaymentSent? ==> eff.trigger.value.amount <= Worth(ds))
  {
    AmountToSendCovered(ds);
  }

  /** Dropping the front event, with the deal moved on in an accounted way. */
  lemma AppliedKeepsInv(m: Machine, cs': ClientState)
    requires Inv(m) && m.queue != [] && m.pending.None?
    requires Accounted(m.cs, m.queue[0], cs')
    requires m.queue[0].BlocksReceived? ==> cs'.totalReceived in {m.cs.totalReceived, m.queue[0].total}
    requires !m.queue[0].BlocksReceived? ==> cs'.totalReceived == m.cs.totalReceived
    ensures Inv(m.(queue := m.queue[1..], cs := cs', accepted := m.accepted + OwedIn(m.queue[0])))
  {
    hide OwedIn, Worth;
    var m' := m.(queue := m.queue[1..], cs := cs', accepted := m.accepted + OwedIn(m.queue[0]));
    forall i | 0 <= i < |m'.queue|
      ensures Covered(m'.queue[i], cs', m.announced)
    {
      assert Covered(m.queue[i + 1], m.cs, m.announced);
    }
  }

  lemma HandledKeepsInv(m: Machine, w: World)
    requires Inv(m) && m.pending.None?
    ensures var eff := Handler(m.cs, w);
            Inv(m.(pending := eff.trigger,
                   vouchers := m.vouchers + if eff.voucher.Some? then [eff.voucher.value] else []))
  {
    hide Handler, Worth;
    HandlerCovered(m.cs, w);
  }

  lemma ActTotalReceived(ds: ClientState, e: Event)
    ensures Apply(ds, e).totalReceived ==
              if e.BlocksReceived? && !Transition(ds.status, e).Invalid? then e.total else ds.totalReceived
  {
    assert Act(ds, e).totalReceived == if e.BlocksReceived? then e.total else ds.totalReceived;
    var t := Transition(ds.status, e);
    assert t.To? ==> Apply(ds, e) == Act(ds, e).(status := t.status);
  }

  lemma ProcessKeepsInv(m: Machine, w: World)
    requires Inv(m) && m.pending.None? && m.queue != []
    ensures Inv(ProcessFront(m, w)) && ProcessFront(m, w).cs.params == m.cs.params
  {
    hide Transition, Act, Handler;
    var e := m.queue[0];
    if Transition(m.cs.status, e).Invalid? {
      assert forall i :: 0 <= i < |m.queue| - 1 ==> m.queue[1..][i] == m.queue[i + 1];
    } else {
      ApplyKeepsAccounts(m.cs, e, m.announced);
      ActTotalReceived(m.cs, e);
      var cs' := Apply(m.cs, e);
      AppliedKeepsInv(m, cs');
      HandledKeepsInv(m.(queue := m.queue[1..], cs := cs', accepted := m.accepted + OwedIn(e)), w);
    }
  }

  lemma StepKeepsInv(m: Machine, s: Step)
    requires Inv(m) && Enabled(m, s)
    ensures Inv(Next(m, s)) && Next(m, s).cs.params == m.cs.params
  {
    match s
    case Enqueue(_) =>
    case Process(w) => ProcessKeepsInv(m, w);
    case Settle =>
  }

  /** In every interleaving: nothing spent, sent or about to be recorded as sent exceeds the value
      of the bytes received, and the accounts balance against the requests accepted. */
  lemma NeverPaysAhead(p: Params, totalFunds: int, steps: seq<Step>)
    requires Exec(Begin(p, totalFunds), Enabled, Next, steps).Some?
    ensures var m := Exec(Begin(p, totalFunds), Enabled, Next, steps).value;
            var worth := p.unsealPrice + m.cs.totalReceived * p.pricePerByte;
            && m.cs.fundsSpent <= worth
            && (forall v :: v in m.vouchers ==> v <= worth)
            && (forall v :: PaymentSent(v) in m.queue || m.pending == Some(PaymentSent(v)) ==> v <= worth)
            && m.cs.bytesPaidFor <= m.cs.totalReceived
            && m.cs.fundsSpent + m.cs.paymentRequested == m.accepted
  {
    var inv := m => Inv(m) && m.cs.params == p;
    assert inv(Begin(p, totalFunds));
    hide Next, Enabled, Begin;
    forall m, s | inv(m) && Enabled(m, s) ensures inv(Next(m, s)) {
      StepKeepsInv(m, s);
    }
    Invariance(Begin(p, totalFunds), Enabled, Next, inv, steps);
  }
}
