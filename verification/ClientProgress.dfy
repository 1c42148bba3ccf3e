/** A client that owes money never forgets it: while a payment is due, some event that leads to paying is on its way;
    and the client with nothing more arriving from outside. */
module ClientProgress {
  import opened Options
  import opened Deals
  import opened Intervals
  import opened Numbers
  import opened Client
  import opened ClientRuns
  import opened ClientLadder
  import opened Runs

  predicate IsAsk(e: Event) { e.PaymentRequested? || e.LastPaymentRequested? }

  /** The events with which an attempt to send funds ends. */
  predicate IsOutcome(e: Event) {
    e.PaymentSent? || e.PaymentNotSent? || e.VoucherShortfall? || e.CreateVoucherFailed? || e.WriteDealPaymentErrored?
  }

  predicate HasAsk(es: seq<Event>) { exists i :: 0 <= i < |es| && IsAsk(es[i]) }

  predicate HasOutcome(es: seq<Event>) { exists i :: 0 <= i < |es| && IsOutcome(es[i]) }

  /** What is due in a status is on its way among the events es. */
  predicate Token(ds: ClientState, es: seq<Event>) {
    && (ds.status == Ongoing && ds.paymentRequested > 0 ==> HasAsk(es))
    && (ds.status == FundsNeeded && MustSend(ds) ==> SendFundsNow in es)
    && (ds.status == SendFunds ==> HasOutcome(es))
  }

  // ---------- Tokens are never lost ----------

  /** An event that is dropped was not the token. */
  lemma DroppedIsNoToken(s: Status, e: Event)
    requires Transition(s, e).Invalid?
    ensures s == Ongoing ==> !IsAsk(e)
    ensures s == FundsNeeded ==> !e.SendFundsNow?
    ensures s == SendFunds ==> !IsOutcome(e)
  {
  }

  /** Only a payment report or its absence is recorded in Ongoing without running the handler. */
  lemma RecordedIsNoToken(s: Status, e: Event)
    requires Transition(s, e).JustRecord?
    ensures s == Ongoing ==> e.PaymentSent? || e.PaymentNotSent?
    ensures s != FundsNeeded && s != SendFunds
  {
  }

  lemma HandlerGivesToken(ds: ClientState, w: World, es: seq<Event>)
    ensures Token(ds, es + if Handler(ds, w).trigger.Some? then [Handler(ds, w).trigger.value] else [])
  {
    hide AmountToSend, MustSend;
    var trigger := Handler(ds, w).trigger;
    if trigger.Some? {
      var es' := es + [trigger.value];
      assert es'[|es|] == trigger.value;
      assert ds.status == Ongoing && ds.paymentRequested > 0 ==> IsAsk(es'[|es|]);
      assert ds.status == SendFunds ==> IsOutcome(es'[|es|]);
    }
  }

  lemma TailKeepsToken(ds: ClientState, ds': ClientState, es: seq<Event>)
    requires es != [] && Token(ds, es) && ds'.status == ds.status
    requires ds.status == Ongoing ==> !IsAsk(es[0]) && (ds'.paymentRequested > 0 ==> ds.paymentRequested > 0)
    requires ds.status == FundsNeeded ==> !es[0].SendFundsNow? && (MustSend(ds') ==> MustSend(ds))
    requires ds.status == SendFunds ==> !IsOutcome(es[0])
    ensures Token(ds', es[1..])
  {
    hide MustSend;
    assert es == [es[0]] + es[1..];
    if HasAsk(es) {
      var i :| 0 <= i < |es| && IsAsk(es[i]);
      assert i > 0 ==> IsAsk(es[1..][i - 1]);
    }
    if HasOutcome(es) {
      var i :| 0 <= i < |es| && IsOutcome(es[i]);
      assert i > 0 ==> IsOutcome(es[1..][i - 1]);
    }
  }

  lemma RecordedPayment(ds: ClientState, e: Event)
    requires ds.status == Ongoing && (e.PaymentNotSent? || (e.PaymentSent? && ds.fundsSpent <= e.amount))
    ensures Apply(ds, e).status == Ongoing && Apply(ds, e).paymentRequested <= ds.paymentRequested
  {
    hide NextInterval;
  }

  lemma ProcessKeepsToken(m: Machine, w: World)
    requires Token(m.cs, Coming(m)) && m.pending.None? && m.queue != []
    requires m.queue[0].PaymentSent? ==> m.cs.fundsSpent <= m.queue[0].amount
    ensures Token(ProcessFront(m, w).cs, Coming(ProcessFront(m, w)))
  {
    hide Transition, Apply, Handler, Token, IsAsk, IsOutcome, MustSend;
    var e, t, m' := m.queue[0], Transition(m.cs.status, m.queue[0]), ProcessFront(m, w);
    assert Coming(m) == m.queue;
    if t.Invalid? {
      DroppedIsNoToken(m.cs.status, e);
      assert Coming(m') == m.queue[1..];
      TailKeepsToken(m.cs, m.cs, m.queue);
    } else if t.JustRecord? {
      RecordedIsNoToken(m.cs.status, e);
      assert Coming(m') == m.queue[1..];
      StatusRecorded(m.cs, e);
      if m.cs.status == Ongoing {
        RecordedPayment(m.cs, e);
        NotAsk(e);
      }
      TailKeepsToken(m.cs, m'.cs, m.queue);
    } else {
      HandlerGivesToken(Apply(m.cs, e), w, m.queue[1..]);
      assert Coming(m') == m'.queue + if m'.pending.Some? then [m'.pending.value] else [];
    }
  }

  lemma NotAsk(e: Event)
    ensures e.PaymentSent? || e.PaymentNotSent? ==> !IsAsk(e)
  {
  }

  lemma StatusRecorded(ds: ClientState, e: Event)
    requires Transition(ds.status, e).JustRecord?
    ensures Apply(ds, e).status == ds.status
  {
    hide Transition, NextInterval;
    assert Apply(ds, e) == Act(ds, e);
  }

  lemma InsertKeepsToken(ds: ClientState, q: seq<Event>, e: Event, tail: seq<Event>)
    requires Token(ds, q + tail) && |tail| <= 1
    ensures Token(ds, q + [e] + tail)
  {
    hide MustSend, IsAsk, IsOutcome;
    var es, es' := q + tail, q + [e] + tail;
    assert forall i :: 0 <= i < |es| ==> es[i] == es'[if i < |q| then i else i + 1];
    if HasAsk(es) {
      var i :| 0 <= i < |es| && IsAsk(es[i]);
      assert IsAsk(es'[if i < |q| then i else i + 1]);
    }
    if HasOutcome(es) {
      var i :| 0 <= i < |es| && IsOutcome(es[i]);
      assert IsOutcome(es'[if i < |q| then i else i + 1]);
    }
  }

  // ---------- The client alone ----------

  /** Sum of the amounts owed in the requests among es. */
  function OwedSum(es: seq<Event>): int {
    if es == [] then 0 else OwedIn(es[0]) + OwedSum(es[1..])
  }

  lemma {:induction false} OwedSumAppend(a: seq<Event>, b: seq<Event>)
    ensures OwedSum(a + b) == OwedSum(a) + OwedSum(b)
  {
    if a == [] {
      assert a + b == b;
    } else {
      assert (a + b)[1..] == a[1..] + b;
      OwedSumAppend(a[1..], b);
    }
  }

  /** The statuses between which a client pays. */
  const PAYING: set<Status> := {Ongoing, FundsNeeded, SendFunds}

  /** Statuses up to and in the paying phase. */
  const ALIVE: set<Status> := CREATION_STATES + PAYING

  /** Statuses after which the deal never pays again. */
  const DEAD: set<Status> := {
    CheckComplete, ClientWaitingForLastBlocks, Finalizing, Completed, Failing, Errored, Cancelling,
    Cancelled, Rejected, DealNotFound
  }

  /** Events that neither report a payment nor belong to the end of the transfer, to unsealing or to a
      shortfall. */
  predicate Ordinary(e: Event) {
    && !e.PaymentSent? && !e.LastPaymentRequested? && !e.AllBlocksReceived?
    && !e.UnsealPaymentRequested? && !e.VoucherShortfall?
  }

  predicate Kills(s: Status, e: Event) {
    Transition(s, e).To? && Transition(s, e).status in DEAD
  }

  predicate SetsSending(s: Status, e: Event) { s == FundsNeeded && e.SendFundsNow? }

  /** The status an event leads to. */
  function Moved(s: Status, e: Event): Status {
    if Transition(s, e).To? then Transition(s, e).status else s
  }

  predicate OrderedBytes(received: nat, es: seq<Event>) {
    && (forall i :: 0 <= i < |es| && es[i].BlocksReceived? ==> received <= es[i].total)
    && (forall i, j :: 0 <= i < j < |es| && es[i].BlocksReceived? && es[j].BlocksReceived? ==> es[i].total <= es[j].total)
  }

  /** Bytes received once the events es are applied. */
  function LastTotal(received: nat, es: seq<Event>): nat
    decreases es
  {
    if es == [] then received
    else LastTotal(if es[0].BlocksReceived? then es[0].total else received, es[1..])
  }

  lemma {:induction false} LastTotalAppend(received: nat, es: seq<Event>, e: Event)
    ensures LastTotal(received, es + [e]) == if e.BlocksReceived? then e.total else LastTotal(received, es)
    decreases es
  {
    if es == [] {
      assert es + [e] == [e] && [e][1..] == [];
    } else {
      assert (es + [e])[1..] == es[1..] + [e];
      LastTotalAppend(if es[0].BlocksReceived? then es[0].total else received, es[1..], e);
    }
  }

  /** The environment of a funded payment channel. */
  function Funded(m: Machine): World {
    var ok := m.queue != [] &&
              forall i :: 0 <= i < |m.vouchers| ==> m.vouchers[i] < AmountToSend(Apply(m.cs, m.queue[0]));
    World(true, ChannelReady, true, Some(0), if ok then Created else Refused, true, None, true)
  }

  /** One step of the client with nothing arriving from outside. */
  function Alone(m: Machine): Machine {
    if m.pending.Some? then Next(m, Settle) else Next(m, Process(Funded(m)))
  }

  ghost predicate Pays(m: Machine, v: int) {
    exists n: nat :: Iterate(Alone, m, n).vouchers == m.vouchers + [v]
  }

  lemma PaysLater(m: Machine, v: int)
    requires Alone(m).vouchers == m.vouchers && Pays(Alone(m), v)
    ensures Pays(m, v)
  {
    hide Alone;
    var n: nat :| Iterate(Alone, Alone(m), n).vouchers == Alone(m).vouchers + [v];
    assert Iterate(Alone, m, n + 1) == Iterate(Alone, Alone(m), n);
  }

  /** What handlers trigger on a funded channel up to and in the paying phase without making a voucher. */
  predicate Triggered(e: Event) {
    e in {PaymentRequested(0), SendFundsNow, CreateVoucherFailed, PaymentNotSent,
          PaymentChannelSkip, PaymentChannelReady, LaneAllocated(0)}
  }

  predicate AtMostOne(trig: seq<Event>) {
    |trig| <= 1 && (trig != [] ==> Triggered(trig[0]))
  }

  lemma TriggeredIsOrdinary(trig: seq<Event>)
    requires AtMostOne(trig)
    ensures forall i :: 0 <= i < |trig| ==> Ordinary(trig[i]) && !trig[i].BlocksReceived?
    ensures OwedSum(trig) == 0
  {
    if trig != [] { assert trig[1..] == []; }
  }

  /** In Ongoing and FundsNeeded the handler triggers a request for nothing, or sending. */
  lemma QuietHandler(ds: ClientState, w: World)
    requires ds.status in {Ongoing, FundsNeeded} && !ds.lastPaymentRequested
    ensures var eff := Handler(ds, w);
            && eff.voucher.None?
            && (eff.trigger.Some? ==> eff.trigger.value in {PaymentRequested(0), SendFundsNow})
  {
    hide MustSend;
  }

  lemma RungStrict(p: Params, i: nat, k: nat)
    requires p.pricePerByte > 0 && 1 <= i < k
    ensures Rung(p, i) < Rung(p, k)
  {
    BoundaryStrict(p, i, k);
    MulStrict(Boundary(p, i), Boundary(p, k), p.pricePerByte);
  }

  lemma SendingApplied(ds: ClientState)
    requires ds.status == FundsNeeded
    ensures RunsHandler(ds.status, SendFundsNow)
    ensures Apply(ds, SendFundsNow) == ds.(status := SendFunds) && AmountToSend(ds.(status := SendFunds)) == AmountToSend(ds)
  {
  }

  lemma FundedCreates(m: Machine, v: int)
    requires m.queue != [] && AmountToSend(Apply(m.cs, m.queue[0])) == v
    ensures Funded(m).writeOk
    ensures Funded(m).voucher == if forall i :: 0 <= i < |m.vouchers| ==> m.vouchers[i] < v then Created else Refused
  {
    hide AmountToSend, Apply;
  }
}
