/** What becomes of a provider that paused for payment, in every joint run, at any unseal price and with chunks of any
    size: once the bytes it sent and its requests have reached the client's queue, that queue and the client's deal
    decide whether the client goes on to make a voucher, and which one. */
module PausedProvider {
  import opened Options
  import opened Deals
  import opened Intervals
  import opened Numbers
  import opened Runs
  import P = Provider
  import R = Revalidator
  import E = Exposure
  import C = Client
  import M = ClientRuns
  import L = ClientLadder
  import K = ClientBooks
  import G = ClientProgress
  import CY = ClientCycle
  import O = ClientOutcome
  import S = ClientSetup
  import F = ClientFate
  import I = ClientIdle
  import J = Lockstep

  /** A funded channel never falls short, and this provider never asks for unsealing. */
  predicate Proper(e: C.Event) { !e.VoucherShortfall? && !e.UnsealPaymentRequested? }

  /** The client's side of a deal that can still pay: what is due is on its way, and the reports under way account
      for the vouchers made. */
  ghost predicate Flowing(ds: C.ClientState, vouchers: seq<int>, es: seq<C.Event>) {
    && G.Token(ds, es) && S.SetupToken(ds.status, es)
    && (ds.status in C.CREATION_STATES ==> vouchers == [])
    && F.Spent(ds.fundsSpent, es) == F.Last(vouchers)
    && F.Calm(ds, F.Last(vouchers))
  }

  ghost predicate Live(m: M.Machine) {
    var es := L.Coming(m);
    && K.Kept(m) && F.Rising(m.vouchers)
    && (forall i :: 0 <= i < |es| ==> Proper(es[i]))
    && (!m.cs.allBlocksReceived && !m.cs.lastPaymentRequested ==>
          && m.cs.status in G.ALIVE + G.DEAD
          && (m.cs.status in G.ALIVE ==> Flowing(m.cs, m.vouchers, es)))
  }

  predicate CanPay(ds: C.ClientState) {
    !ds.allBlocksReceived && !ds.lastPaymentRequested && ds.status in G.ALIVE
  }

  // ---------- The client's steps ----------

  lemma AliveLeads(s: Status, e: C.Event)
    requires s in G.ALIVE && Proper(e)
    ensures C.Transition(s, e).To? && !e.LastPaymentRequested? && !e.AllBlocksReceived? ==>
              && C.Transition(s, e).status in G.ALIVE + G.DEAD
              && (C.Transition(s, e).status in C.CREATION_STATES ==> s in C.CREATION_STATES)
  {
    hide C.Transition;
    if C.Transition(s, e).To? && !e.LastPaymentRequested? && !e.AllBlocksReceived? {
      if s in C.CREATION_STATES { SetupLeads(s, e); } else { PayingLeads(s, e); }
    }
  }

  lemma SetupLeads(s: Status, e: C.Event)
    requires s in C.CREATION_STATES && C.Transition(s, e).To?
    ensures C.Transition(s, e).status in G.ALIVE + G.DEAD
  {
  }

  lemma PayingLeads(s: Status, e: C.Event)
    requires s in G.PAYING && Proper(e) && C.Transition(s, e).To? && !e.LastPaymentRequested? && !e.AllBlocksReceived?
    ensures C.Transition(s, e).status in G.PAYING + G.DEAD
  {
  }

  lemma AliveDrops(s: Status, e: C.Event)
    requires s in G.ALIVE && Proper(e) && C.Transition(s, e).Invalid?
    ensures M.OwedIn(e) == 0 && !e.BlocksReceived? && !e.LastPaymentRequested? && !e.AllBlocksReceived?
    ensures e.PaymentSent? ==> s in C.CREATION_STATES
  {
  }

  lemma Flags(ds: C.ClientState, e: C.Event)
    ensures var ds' := C.Apply(ds, e);
            && (ds.allBlocksReceived ==> ds'.allBlocksReceived)
            && (ds.lastPaymentRequested ==> ds'.lastPaymentRequested)
            && (e.LastPaymentRequested? && !C.Transition(ds.status, e).Invalid? ==> ds'.lastPaymentRequested)
            && (e.AllBlocksReceived? && !C.Transition(ds.status, e).Invalid? ==> ds'.allBlocksReceived)
            && ds'.status == (if C.Transition(ds.status, e).To? then C.Transition(ds.status, e).status else ds.status)
  {
    hide NextInterval, C.Transition;
    assert var a := C.Act(ds, e);
           && (ds.allBlocksReceived ==> a.allBlocksReceived)
           && (ds.lastPaymentRequested ==> a.lastPaymentRequested)
           && (e.LastPaymentRequested? ==> a.lastPaymentRequested)
           && (e.AllBlocksReceived? ==> a.allBlocksReceived)
           && a.status == ds.status;
    hide C.Act;
  }

  /** What handlers trigger owes nothing, reports no bytes, and is proper on a funded channel. */
  lemma TriggerIsProper(ds: C.ClientState, w: C.World)
    requires !w.voucher.Short?
    ensures var trigger := C.Handler(ds, w).trigger;
            trigger.Some? ==> Proper(trigger.value) && M.OwedIn(trigger.value) == 0 && !trigger.value.BlocksReceived?
  {
    hide C.AmountToSend, C.MustSend;
  }

  /** Applying the front event: the deal stays alive, or dies. */
  lemma ApplyKeepsAlive(m: M.Machine)
    requires Live(m) && m.pending.None? && m.queue != []
    ensures var ds := C.Apply(m.cs, m.queue[0]);
            !ds.allBlocksReceived && !ds.lastPaymentRequested ==>
              && ds.status in G.ALIVE + G.DEAD
              && (ds.status in G.ALIVE ==>
                    && CanPay(m.cs)
                    && !m.queue[0].LastPaymentRequested? && !m.queue[0].AllBlocksReceived?
                    && (ds.status in C.CREATION_STATES ==> m.cs.status in C.CREATION_STATES))
  {
    hide C.Transition, C.Apply, Flowing, K.Kept, F.Rising;
    var e, ds := m.queue[0], C.Apply(m.cs, m.queue[0]);
    assert L.Coming(m) == m.queue;
    assert Proper(m.queue[0]);
    hide Proper;
    Flags(m.cs, e);
    if !ds.allBlocksReceived && !ds.lastPaymentRequested {
      if m.cs.status in G.DEAD {
        O.DeadStays(m.cs.status, e);
      } else {
        AliveLeads(m.cs.status, e);
        if C.Transition(m.cs.status, e).Invalid? { AliveDrops(m.cs.status, e); }
      }
    }
  }

  /** What processing does to the events to come, the vouchers and the accounts: a voucher is made exactly when sending
      sets in for more than was spent and vouched for. */
  lemma ProcessShape(m: M.Machine, w: C.World) returns (trig: seq<C.Event>)
    requires m.pending.None? && m.queue != [] && J.FundedLane(m, w) && F.Rising(m.vouchers)
    ensures var m', e := M.ProcessFront(m, w), m.queue[0];
            && m'.cs == C.Apply(m.cs, e)
            && m'.accepted == m.accepted + (if C.Transition(m.cs.status, e).Invalid? then 0 else M.OwedIn(e))
            && L.Coming(m') == m.queue[1..] + trig
            && F.Rising(m'.vouchers)
            && (|| (m'.vouchers == m.vouchers && (trig != [] ==> !trig[0].PaymentSent?)
                    && (C.RunsHandler(m.cs.status, e) && m'.cs.status == SendFunds ==> !F.Pushes(m'.cs, F.Last(m.vouchers))))
                || (var v := C.AmountToSend(m'.cs);
                    m'.vouchers == m.vouchers + [v] && trig == [C.PaymentSent(v)] && m'.cs.status !in C.CREATION_STATES))
    ensures |trig| <= 1
    ensures trig != [] ==> Proper(trig[0]) && M.OwedIn(trig[0]) == 0 && !trig[0].BlocksReceived?
  {
    var e, m', ds := m.queue[0], M.ProcessFront(m, w), C.Apply(m.cs, m.queue[0]);
    NeverShort(m, w);
    TriggerIsProper(ds, w);
    L.VoucherIsAmount(ds, w);
    HandlerCalm(m, w);
    if C.Transition(m.cs.status, e).Invalid? { L.InvalidStays(m.cs, e); }
    hide C.Transition, C.Apply, C.Handler, C.AmountToSend, C.RunsHandler, Proper, M.OwedIn, F.Pushes, F.Last;
    trig := if m'.pending.Some? then [m'.pending.value] else [];
    assert m'.queue == m.queue[1..];
    assert m.vouchers + [] == m.vouchers;
  }

  lemma NeverShort(m: M.Machine, w: C.World)
    requires m.queue != [] && J.FundedLane(m, w)
    ensures w.writeOk && !w.voucher.Short?
  {
    hide C.AmountToSend, C.Apply;
  }

  lemma HandlerCalm(m: M.Machine, w: C.World)
    requires m.queue != [] && J.FundedLane(m, w) && F.Rising(m.vouchers)
    ensures var ds := C.Apply(m.cs, m.queue[0]);
            var eff := C.Handler(ds, w);
            && (ds.status == SendFunds && eff.voucher.None? ==> !F.Pushes(ds, F.Last(m.vouchers)))
            && (eff.voucher.Some? ==> F.Rising(m.vouchers + [C.AmountToSend(ds)]))
  {
    var ds := C.Apply(m.cs, m.queue[0]);
    L.VoucherIsAmount(ds, w);
    hide C.Apply, C.AmountToSend;
    if ds.status == SendFunds && w.voucher == C.Refused {
      var i :| 0 <= i < |m.vouchers| && m.vouchers[i] >= C.AmountToSend(ds);
      assert i < |m.vouchers| - 1 ==> m.vouchers[i] < m.vouchers[|m.vouchers| - 1];
    }
    hide C.Handler;
  }

  /** Recorded payments and those reported under way, after the front event. */
  lemma ProcessKeepsSpent(m: M.Machine)
    requires Live(m) && CanPay(m.cs) && m.pending.None? && m.queue != []
    requires G.Ordinary(m.queue[0]) || m.queue[0].PaymentSent?
    ensures F.Spent(C.Apply(m.cs, m.queue[0]).fundsSpent, m.queue[1..]) == F.Last(m.vouchers)
  {
    var e, ds := m.queue[0], m.cs;
    assert L.Coming(m) == m.queue;
    F.EventApplied(ds, e);
    F.NoReportWithoutVoucher(m.queue, ds.fundsSpent, m.vouchers);
    if C.Transition(ds.status, e).Invalid? { AliveDrops(ds.status, e); }
    hide C.Transition, C.Apply, Proper, G.Ordinary, F.Rising, F.Calm, F.Last, G.Token, S.SetupToken;
    assert F.Spent(ds.fundsSpent, m.queue) == F.Spent(if e.PaymentSent? then e.amount else ds.fundsSpent, m.queue[1..]);
  }

  lemma SpentTriggered(spent: int, es: seq<C.Event>, trig: seq<C.Event>)
    requires |trig| <= 1
    ensures F.Spent(spent, es + trig) == if trig != [] && trig[0].PaymentSent? then trig[0].amount else F.Spent(spent, es)
  {
    F.SpentAppend(spent, es, trig);
    if trig != [] { assert trig[1..] == []; }
  }

  /** Sending stays under way only with nothing happening to it. */
  lemma ProcessKeepsCalm(m: M.Machine)
    requires Live(m) && CanPay(m.cs) && m.pending.None? && m.queue != []
    requires G.Ordinary(m.queue[0]) || m.queue[0].PaymentSent?
    ensures var ds, e := C.Apply(m.cs, m.queue[0]), m.queue[0];
            ds.status == SendFunds && !C.RunsHandler(m.cs.status, e) ==> F.Calm(ds, F.Last(m.vouchers))
  {
    var e, s := m.queue[0], m.cs.status;
    F.EventApplied(m.cs, e);
    StaysSending(s, e);
    if C.Transition(s, e).Invalid? { L.InvalidStays(m.cs, e); }
    hide C.Transition, C.Apply, Proper, G.Ordinary, F.Rising, F.Last, F.Pushes, G.Token, S.SetupToken, K.Kept;
  }

  lemma StaysSending(s: Status, e: C.Event)
    requires s in G.ALIVE
    ensures G.Moved(s, e) == SendFunds && !C.RunsHandler(s, e) ==> s == SendFunds && C.Transition(s, e).Invalid?
  {
  }

  /** Bytes and money on their way into the deal are neither lost nor made up. */
  lemma ProcessKeepsFlow(m: M.Machine, w: C.World)
    requires Live(m) && CanPay(m.cs) && m.pending.None? && m.queue != [] && J.FundedLane(m, w)
    ensures var m' := M.ProcessFront(m, w);
            && G.LastTotal(m'.cs.totalReceived, L.Coming(m')) == G.LastTotal(m.cs.totalReceived, L.Coming(m))
            && m'.accepted + G.OwedSum(L.Coming(m')) == m.accepted + G.OwedSum(L.Coming(m))
  {
    hide C.Transition, C.Apply, Proper, M.OwedIn, M.ProcessFront, Flowing, K.Kept, F.Rising, J.FundedLane, F.Pushes;
    var e, m' := m.queue[0], M.ProcessFront(m, w);
    var trig := ProcessShape(m, w);
    assert L.Coming(m) == m.queue && Proper(m.queue[0]);
    if C.Transition(m.cs.status, e).Invalid? { AliveDrops(m.cs.status, e); }
    M.ActTotalReceived(m.cs, e);
    G.OwedSumAppend(m.queue[1..], trig);
    if trig == [] {
      assert m.queue[1..] + trig == m.queue[1..];
    } else {
      assert trig == [trig[0]] && trig[1..] == [];
      G.LastTotalAppend(m'.cs.totalReceived, m.queue[1..], trig[0]);
      assert G.OwedSum(trig) == M.OwedIn(trig[0]) + G.OwedSum([]);
    }
  }

  lemma EnqueueAddsFlow(m: M.Machine, e: C.Event)
    requires m.pending.Some? ==> !m.pending.value.BlocksReceived?
    ensures var m' := M.Next(m, M.Enqueue(e));
            && G.LastTotal(m'.cs.totalReceived, L.Coming(m')) ==
                 (if e.BlocksReceived? then e.total else G.LastTotal(m.cs.totalReceived, L.Coming(m)))
            && m'.accepted + G.OwedSum(L.Coming(m')) == m.accepted + G.OwedSum(L.Coming(m)) + M.OwedIn(e)
  {
    hide M.OwedIn;
    var tail := if m.pending.Some? then [m.pending.value] else [];
    var q, m' := m.queue, M.Next(m, M.Enqueue(e));
    assert L.Coming(m') == q + [e] + tail;
    G.OwedSumAppend(q + [e], tail);
    G.OwedSumAppend(q, [e]);
    G.OwedSumAppend(q, tail);
    assert [e][1..] == [] && G.OwedSum([e]) == M.OwedIn(e) + G.OwedSum([]);
    G.LastTotalAppend(m.cs.totalReceived, q, e);
    if tail == [] {
      assert q + [e] + tail == q + [e] && q + tail == q;
    } else {
      G.LastTotalAppend(m.cs.totalReceived, q + [e], tail[0]);
      G.LastTotalAppend(m.cs.totalReceived, q, tail[0]);
    }
  }

  /** Processing keeps a deal that can pay flowing. */
  lemma ProcessKeepsFlowing(m: M.Machine, w: C.World)
    requires Live(m) && CanPay(m.cs) && m.pending.None? && m.queue != [] && J.FundedLane(m, w)
    requires G.Ordinary(m.queue[0]) || m.queue[0].PaymentSent?
    requires C.Apply(m.cs, m.queue[0]).status in C.CREATION_STATES ==> m.cs.status in C.CREATION_STATES
    ensures var m' := M.ProcessFront(m, w); Flowing(m'.cs, m'.vouchers, L.Coming(m'))
  {
    hide C.Transition, C.Apply, G.Token, S.SetupToken, Proper, M.OwedIn, M.ProcessFront, F.Pushes, F.Rising, J.FundedLane,
      C.AmountToSend, G.Ordinary, F.Spent, C.RunsHandler;
    LiveFront(m);
    var trig := ProcessShape(m, w);
    G.ProcessKeepsToken(m, w);
    S.ProcessKeepsSetup(m, w);
    ProcessKeepsSpent(m);
    ProcessKeepsCalm(m);
    SpentTriggered(C.Apply(m.cs, m.queue[0]).fundsSpent, m.queue[1..], trig);
    MadeCalm(M.ProcessFront(m, w).cs, m.vouchers);
  }

  lemma MadeCalm(ds: C.ClientState, vouchers: seq<int>)
    ensures var v := C.AmountToSend(ds); F.Last(vouchers + [v]) == v && F.Calm(ds, v)
  {
    hide C.AmountToSend;
  }

  lemma LiveFront(m: M.Machine)
    requires Live(m) && m.pending.None? && m.queue != []
    ensures L.Coming(m) == m.queue && F.Rising(m.vouchers) && Proper(m.queue[0]) && K.Kept(m)
    ensures m.queue[0].PaymentSent? ==> m.cs.fundsSpent <= m.queue[0].amount
    ensures CanPay(m.cs) ==> G.Token(m.cs, m.queue) && S.SetupToken(m.cs.status, m.queue)
    ensures CanPay(m.cs) && m.cs.status in C.CREATION_STATES ==> m.vouchers == []
  {
    hide G.Token, S.SetupToken, Proper, F.Rising, F.Calm;
    assert L.Coming(m) == m.queue;
  }

  lemma ProcessKeepsLive(m: M.Machine, w: C.World)
    requires Live(m) && m.pending.None? && m.queue != [] && J.FundedLane(m, w)
    ensures Live(M.ProcessFront(m, w))
  {
    hide C.Transition, C.Apply, Flowing, M.OwedIn, M.ProcessFront, F.Pushes, F.Rising, J.FundedLane, K.Kept, C.AmountToSend;
    var e, m' := m.queue[0], M.ProcessFront(m, w);
    LiveFront(m);
    var trig := ProcessShape(m, w);
    var es' := m.queue[1..] + trig;
    forall i | 0 <= i < |es'| ensures Proper(es'[i]) {
      assert i < |m.queue| - 1 ==> es'[i] == m.queue[i + 1];
    }
    FundedIsHonest(m, w);
    K.ProcessKeepsBooks(m, w);
    ApplyKeepsAlive(m);
    if CanPay(m'.cs) { ProcessKeepsFlowing(m, w); }
  }

  lemma FundedIsHonest(m: M.Machine, w: C.World)
    requires J.FundedLane(m, w)
    ensures L.HonestLane(m, w)
  {
    hide C.Apply, C.AmountToSend;
  }

  lemma EnqueueKeepsLive(m: M.Machine, e: C.Event)
    requires Live(m) && Proper(e) && L.LaneEnabled(m, M.Enqueue(e))
    ensures Live(M.Next(m, M.Enqueue(e)))
  {
    hide G.Token, Proper, K.Kept, F.Rising, F.Calm, F.Last, S.SetupToken;
    var tail := if m.pending.Some? then [m.pending.value] else [];
    var es, es' := m.queue + tail, m.queue + [e] + tail;
    assert L.Coming(m) == es && L.Coming(M.Next(m, M.Enqueue(e))) == es';
    assert forall i :: 0 <= i < |m.queue| ==> es'[i] == es[i];
    assert tail != [] ==> es'[|m.queue| + 1] == es[|m.queue|];
    K.StepKeepsBooks(m, M.Enqueue(e));
    if CanPay(m.cs) {
      G.InsertKeepsToken(m.cs, m.queue, e, tail);
      S.InsertKeepsSetup(m.cs.status, m.queue, e, tail);
      F.SpentAppend(m.cs.fundsSpent, m.queue, tail);
      F.SpentAppend(m.cs.fundsSpent, m.queue + [e], tail);
      SpentTriggered(m.cs.fundsSpent, m.queue, [e]);
    }
  }

  lemma SettleKeepsLive(m: M.Machine)
    requires Live(m) && m.pending.Some?
    ensures var m' := M.Next(m, M.Settle);
            Live(m') && m'.cs == m.cs && L.Coming(m') == L.Coming(m) && m'.accepted == m.accepted
  {
    hide Flowing, Proper, F.Rising, K.Reports, CY.Books;
    assert L.Coming(M.Next(m, M.Settle)) == L.Coming(m);
  }

  // ---------- Joint runs ----------

  /** Every byte sent has reached the client's deal or is on its way there. */
  predicate Delivered(j: J.Joint) {
    j.t.deal.totalSent ==
    if j.data == [] then G.LastTotal(j.m.cs.totalReceived, L.Coming(j.m)) else j.data[|j.data| - 1]
  }

  /** So has every amount asked for. */
  predicate Charged(j: J.Joint) {
    j.m.accepted + G.OwedSum(L.Coming(j.m)) + G.OwedSum(j.asks) == j.asked
  }

  /** What holds of every joint run. */
  ghost predicate Paced(p: Params, j: J.Joint) {
    && J.Base(p, j)
    && Live(j.m)
    && (forall i :: 0 <= i < |j.asks| ==> Proper(j.asks[i]))
    && (CanPay(j.m.cs) ==> Delivered(j) && Charged(j))
  }

  lemma PacedFacts(p: Params, j: J.Joint)
    requires Paced(p, j)
    ensures J.Base(p, j) && Live(j.m) && E.Inv(p, j.t) && M.Inv(j.m) && j.m.cs.params == p && p.pricePerByte > 0
    ensures CanPay(j.m.cs) ==> Delivered(j) && Charged(j)
    ensures j.m.pending.Some? ==> !j.m.pending.value.BlocksReceived?
    ensures forall i :: 0 <= i < |j.asks| ==> Proper(j.asks[i]) && !j.asks[i].BlocksReceived?
  {
    hide E.Inv, Proper, CanPay, Delivered, Charged, Flowing, F.Rising, CY.Books, K.Reports;
  }

  /** Handing the client an event delivers what was on its way. */
  lemma HandingKeepsFlow(j: J.Joint, j': J.Joint, e: C.Event)
    requires Delivered(j) && Charged(j)
    requires j' == j.(m := M.Next(j.m, M.Enqueue(e)), data := j'.data, asks := j'.asks)
    requires j.m.pending.Some? ==> !j.m.pending.value.BlocksReceived?
    requires if e.BlocksReceived? then |j.data| > 0 && j'.data == j.data[1..] && e.total == j.data[0] else j'.data == j.data
    requires G.OwedSum(j'.asks) + M.OwedIn(e) == G.OwedSum(j.asks)
    ensures Delivered(j') && Charged(j')
  {
    EnqueueAddsFlow(j.m, e);
    hide M.Next, M.OwedIn, L.Coming, G.OwedSum, G.LastTotal;
  }

  /** The event a move hands over, and what is left on its way. */
  lemma HandedEvent(p: Params, j: J.Joint, mv: J.Move)
    requires Paced(p, j) && J.Enabled(j, mv)
    requires mv.DeliverData? || mv.DeliverLastBlock? || mv.DeliverAsk? || mv.LocalEvent?
    ensures var e, j' := J.ClientStep(j, mv).e, J.Next(j, mv);
            && Proper(e) && J.ClientStep(j, mv).Enqueue?
            && j' == j.(m := M.Next(j.m, M.Enqueue(e)), data := j'.data, asks := j'.asks)
            && j'.m.cs == j.m.cs
            && (if e.BlocksReceived? then |j.data| > 0 && j'.data == j.data[1..] && e.total == j.data[0] else j'.data == j.data)
            && G.OwedSum(j'.asks) + M.OwedIn(e) == G.OwedSum(j.asks)
            && (forall i :: 0 <= i < |j'.asks| ==> Proper(j'.asks[i]))
  {
    PacedFacts(p, j);
    hide Paced, J.Base, E.Inv, M.Inv, Live, L.Coming, Charged, Delivered;
    assert j.asks != [] ==> forall i :: 0 <= i < |j.asks| - 1 ==> j.asks[1..][i] == j.asks[i + 1];
  }

  /** Moves that hand the client an event. */
  lemma EnqueueKeepsPaced(p: Params, j: J.Joint, mv: J.Move)
    requires Paced(p, j) && J.Enabled(j, mv)
    requires mv.DeliverData? || mv.DeliverLastBlock? || mv.DeliverAsk? || mv.LocalEvent?
    ensures Paced(p, J.Next(j, mv))
  {
    hide J.Base, E.Inv, M.Inv, Live, Proper, Delivered, Charged, J.Enabled, J.Next, M.Next, L.LaneEnabled, G.OwedSum, M.OwedIn;
    PacedFacts(p, j);
    J.StepKeepsBase(p, j, mv);
    J.StepIsHonest(p, j, mv);
    HandedEvent(p, j, mv);
    var e, j' := J.ClientStep(j, mv).e, J.Next(j, mv);
    EnqueueKeepsLive(j.m, e);
    if CanPay(j.m.cs) { HandingKeepsFlow(j, j', e); }
  }

  lemma ProcessesKeepsPaced(p: Params, j: J.Joint, w: C.World)
    requires Paced(p, j) && J.Enabled(j, J.ClientProcesses(w))
    ensures Paced(p, J.Next(j, J.ClientProcesses(w)))
  {
    hide J.Base, E.Inv, M.Inv, Live, Proper, M.ProcessFront, J.FundedLane, L.Coming, G.OwedSum, G.LastTotal;
    J.StepKeepsBase(p, j, J.ClientProcesses(w));
    var m' := M.ProcessFront(j.m, w);
    assert J.Next(j, J.ClientProcesses(w)) == j.(m := m');
    ProcessKeepsLive(j.m, w);
    ProcessKeepsCount(j.m, w);
  }

  lemma ProcessKeepsCount(m: M.Machine, w: C.World)
    requires Live(m) && m.pending.None? && m.queue != [] && J.FundedLane(m, w)
    ensures var m' := M.ProcessFront(m, w);
            CanPay(m'.cs) ==>
              && CanPay(m.cs)
              && G.LastTotal(m'.cs.totalReceived, L.Coming(m')) == G.LastTotal(m.cs.totalReceived, L.Coming(m))
              && m'.accepted + G.OwedSum(L.Coming(m')) == m.accepted + G.OwedSum(L.Coming(m))
  {
    hide C.Apply, Proper, M.ProcessFront, Live, L.Coming, C.Transition, G.OwedSum, G.LastTotal, J.FundedLane, F.Rising, F.Pushes;
    LiveFront(m);
    var trig := ProcessShape(m, w);
    ApplyKeepsAlive(m);
    if CanPay(M.ProcessFront(m, w).cs) { ProcessKeepsFlow(m, w); }
  }

  lemma SettlesKeepsPaced(p: Params, j: J.Joint)
    requires Paced(p, j) && J.Enabled(j, J.ClientSettles)
    ensures Paced(p, J.Next(j, J.ClientSettles))
  {
    hide J.Base, E.Inv, M.Inv, Live, Proper, M.Next, L.Coming, G.OwedSum, G.LastTotal;
    J.StepKeepsBase(p, j, J.ClientSettles);
    SettleKeepsLive(j.m);
  }

  lemma AnswerCharged(j: J.Joint, t: E.Transfer, reply: R.Reply)
    requires forall i :: 0 <= i < |j.asks| ==> Proper(j.asks[i])
    ensures var j' := J.Answered(j, t, reply);
            && j'.asked - G.OwedSum(j'.asks) == j.asked - G.OwedSum(j.asks)
            && (forall i :: 0 <= i < |j'.asks| ==> Proper(j'.asks[i]))
            && j' == j.(t := t, asks := j'.asks, asked := j'.asked)
  {
    if reply.response.Some? {
      var e := J.EventOf(reply.response.value);
      assert Proper(e);
      hide M.OwedIn, J.EventOf, Proper;
      G.OwedSumAppend(j.asks, [e]);
      assert [e][1..] == [] && G.OwedSum([e]) == M.OwedIn(e) + G.OwedSum([]);
    }
  }

  /** The provider's moves leave the client alone and account for what is sent and asked. */
  lemma AnswerKeepsPaced(p: Params, j: J.Joint, t: E.Transfer, reply: R.Reply, j': J.Joint)
    requires Paced(p, j) && J.Base(p, j')
    requires j' == J.Answered(j, t, reply).(data := j'.data, taken := j'.taken, partials := j'.partials)
    requires if t.deal.totalSent == j.t.deal.totalSent then j'.data == j.data || j'.data == j.data + [t.deal.totalSent]
             else j'.data == j.data + [t.deal.totalSent]
    ensures Paced(p, j')
  {
    hide J.Base, Live, Proper, L.Coming, G.OwedSum, G.LastTotal, J.Answered, CanPay;
    AnswerCharged(j, t, reply);
  }

  lemma ProviderKeepsPaced(p: Params, j: J.Joint, mv: J.Move)
    requires Paced(p, j) && J.Enabled(j, mv) && (mv.ProviderSends? || mv.ProviderFinishes? || mv.DeliverVoucher?)
    ensures Paced(p, J.Next(j, mv))
  {
    hide Paced, J.Base, E.Inv, M.Inv, R.OnPullDataSent, R.OnComplete, R.Revalidate, E.Next, J.Received, J.Answered;
    PacedFacts(p, j);
    J.StepKeepsBase(p, j, mv);
    var j' := J.Next(j, mv);
    match mv
    case ProviderSends(n) =>
      J.SentTotal(p, j.t, n);
      AnswerKeepsPaced(p, j, E.Next(j.t, E.Send(n)), R.OnPullDataSent(j.t.deal, j.t.ch, n).reply, j');
    case ProviderFinishes =>
      J.FinishedTotal(p, j.t);
      AnsweredStays(j, E.Next(j.t, E.Finish), R.OnComplete(j.t.deal, j.t.ch).reply);
      AnswerKeepsPaced(p, j, E.Next(j.t, E.Finish), R.OnComplete(j.t.deal, j.t.ch).reply, j');
    case DeliverVoucher =>
      var received := J.Received(j);
      J.PaidTotal(j.t, received);
      AnsweredStays(j, E.Next(j.t, E.Pay(received, J.PAYCH)), R.Revalidate(j.t.deal, j.t.ch, received, J.PAYCH).reply);
      AnswerKeepsPaced(p, j, E.Next(j.t, E.Pay(received, J.PAYCH)), R.Revalidate(j.t.deal, j.t.ch, received, J.PAYCH).reply, j');
  }

  lemma AnsweredStays(j: J.Joint, t: E.Transfer, reply: R.Reply)
    ensures J.Answered(j, t, reply).data == j.data
  {
    hide J.EventOf, M.OwedIn;
  }

  lemma StepKeepsPaced(p: Params, j: J.Joint, mv: J.Move)
    requires Paced(p, j) && J.Enabled(j, mv)
    ensures Paced(p, J.Next(j, mv))
  {
    hide Paced, J.Next, J.Enabled;
    match mv
    case ProviderSends(_) => ProviderKeepsPaced(p, j, mv);
    case ProviderFinishes => ProviderKeepsPaced(p, j, mv);
    case DeliverVoucher => ProviderKeepsPaced(p, j, mv);
    case ClientProcesses(w) => ProcessesKeepsPaced(p, j, w);
    case ClientSettles => SettlesKeepsPaced(p, j);
    case _ => EnqueueKeepsPaced(p, j, mv);
  }

  lemma BeginPaced(p: Params, id: nat, totalFunds: int)
    requires p.pricePerByte > 0
    ensures Paced(p, J.Begin(p, id, totalFunds))
  {
    var j := J.Begin(p, id, totalFunds);
    assert Boundary(p, 1) == p.Step(0);
    assert J.Base(p, j);
    BeginLive(p, totalFunds);
    hide J.Base, Live;
  }

  lemma BeginLive(p: Params, totalFunds: int)
    requires p.pricePerByte > 0
    ensures Live(M.Machine(C.Start(p, totalFunds).(status := WaitForAcceptance), [], None, [], 0, 0))
  {
    assert 0 / p.pricePerByte == 0;
    hide C.Transition;
  }

  // ---------- Before the transfer ends ----------

  /** Events of the transfer's end. */
  predicate EndEvent(e: C.Event) { e.LastPaymentRequested? || e.AllBlocksReceived? }

  /** Until the provider has sent everything, nothing of the end is under way. */
  predicate Early(j: J.Joint) {
    !j.t.complete ==>
      && !j.m.cs.allBlocksReceived && !j.m.cs.lastPaymentRequested
      && (forall i :: 0 <= i < |L.Coming(j.m)| ==> !EndEvent(L.Coming(j.m)[i]))
      && (forall i :: 0 <= i < |j.asks| ==> !EndEvent(j.asks[i]))
  }

  lemma NoEndTriggered(ds: C.ClientState, w: C.World)
    requires !ds.lastPaymentRequested
    ensures C.Handler(ds, w).trigger.Some? ==> !EndEvent(C.Handler(ds, w).trigger.value)
  {
    hide C.AmountToSend, C.MustSend;
  }

  lemma NoEndApplied(ds: C.ClientState, e: C.Event)
    requires !EndEvent(e) && !ds.allBlocksReceived && !ds.lastPaymentRequested
    ensures !C.Apply(ds, e).allBlocksReceived && !C.Apply(ds, e).lastPaymentRequested
  {
    hide NextInterval, C.Transition;
    assert !C.Act(ds, e).allBlocksReceived && !C.Act(ds, e).lastPaymentRequested;
  }

  lemma ProcessKeepsEarly(j: J.Joint, w: C.World)
    requires Early(j) && M.Enabled(j.m, M.Process(w))
    ensures Early(j.(m := M.ProcessFront(j.m, w)))
  {
    if !j.t.complete {
      var m, m' := j.m, M.ProcessFront(j.m, w);
      assert L.Coming(m) == m.queue && !EndEvent(m.queue[0]);
      NoEndApplied(m.cs, m.queue[0]);
      NoEndTriggered(C.Apply(m.cs, m.queue[0]), w);
      hide C.Apply, C.Handler, C.Transition, C.RunsHandler, EndEvent;
      assert forall i :: 0 <= i < |m.queue| - 1 ==> m.queue[1..][i] == m.queue[i + 1];
    }
  }

  lemma EnqueueKeepsEarly(j: J.Joint, e: C.Event, data: seq<nat>, asks: seq<C.Event>)
    requires Early(j) && !EndEvent(e) && (!j.t.complete ==> forall i :: 0 <= i < |asks| ==> !EndEvent(asks[i]))
    ensures Early(j.(m := M.Next(j.m, M.Enqueue(e)), data := data, asks := asks))
  {
    hide EndEvent;
    var tail := if j.m.pending.Some? then [j.m.pending.value] else [];
    var es, es' := j.m.queue + tail, j.m.queue + [e] + tail;
    assert L.Coming(j.m) == es && L.Coming(M.Next(j.m, M.Enqueue(e))) == es';
    forall i | 0 <= i < |es'| && !j.t.complete ensures !EndEvent(es'[i]) {
      assert es'[i] == if i < |j.m.queue| then es[i] else if i == |j.m.queue| then e else es[i - 1];
    }
  }

  /** What the provider answers before it has sent everything. */
  lemma AnsweredEarly(p: Params, j: J.Joint, n: nat, received: Option<nat>)
    requires E.Inv(p, j.t) && j.t.open && !j.t.complete
    ensures var r := R.OnPullDataSent(j.t.deal, j.t.ch, n).reply.response; r.Some? ==> !EndEvent(J.EventOf(r.value))
    ensures var r := R.Revalidate(j.t.deal, j.t.ch, received, J.PAYCH).reply.response; r.Some? ==> !EndEvent(J.EventOf(r.value))
    ensures E.Next(j.t, E.Send(n)).complete == E.Next(j.t, E.Pay(received, J.PAYCH)).complete == false
  {
    hide P.Apply, R.PaymentOwed, Boundary;
  }

  lemma AnswerKeepsEarly(j: J.Joint, t: E.Transfer, reply: R.Reply)
    requires Early(j) && t.complete == j.t.complete
    requires !j.t.complete && reply.response.Some? ==> !EndEvent(J.EventOf(reply.response.value))
    ensures Early(J.Answered(j, t, reply))
  {
    hide EndEvent, J.EventOf, L.Coming;
  }

  lemma StepKeepsEarly(p: Params, j: J.Joint, mv: J.Move)
    requires E.Inv(p, j.t) && Early(j) && J.Enabled(j, mv)
    ensures Early(J.Next(j, mv))
  {
    hide E.Inv, E.Next, R.OnPullDataSent, R.Revalidate, R.OnComplete, M.ProcessFront, L.Coming, J.EventOf;
    match mv
    case ProviderSends(n) =>
      if !j.t.complete { AnsweredEarly(p, j, n, None); }
      AnswerKeepsEarly(j, E.Next(j.t, E.Send(n)), R.OnPullDataSent(j.t.deal, j.t.ch, n).reply);
    case ProviderFinishes => FinishIsComplete(j.t);
    case DeliverVoucher =>
      var received := J.Received(j);
      PayKeepsComplete(j.t, received);
      if !j.t.complete { AnsweredEarly(p, j, 0, received); }
      AnswerKeepsEarly(j, E.Next(j.t, E.Pay(received, J.PAYCH)), R.Revalidate(j.t.deal, j.t.ch, received, J.PAYCH).reply);
    case DeliverData => EnqueueKeepsEarly(j, C.BlocksReceived(j.data[0]), j.data[1..], j.asks);
    case DeliverLastBlock =>
    case DeliverAsk =>
      if !j.t.complete {
        assert forall i :: 0 <= i < |j.asks| - 1 ==> j.asks[1..][i] == j.asks[i + 1];
        EnqueueKeepsEarly(j, j.asks[0], j.data, j.asks[1..]);
      }
    case LocalEvent(e) => EnqueueKeepsEarly(j, e, j.data, j.asks);
    case ClientProcesses(w) => ProcessKeepsEarly(j, w);
    case ClientSettles => SettlesEarly(j);
  }

  lemma FinishIsComplete(t: E.Transfer)
    ensures E.Next(t, E.Finish).complete
  {
    hide R.OnComplete;
  }

  lemma PayKeepsComplete(t: E.Transfer, received: Option<nat>)
    ensures E.Next(t, E.Pay(received, J.PAYCH)).complete == t.complete
  {
    hide R.Revalidate;
  }

  lemma SettlesEarly(j: J.Joint)
    requires Early(j) && j.m.pending.Some?
    ensures Early(j.(m := M.Next(j.m, M.Settle)))
  {
    assert L.Coming(M.Next(j.m, M.Settle)) == L.Coming(j.m);
  }

  // ---------- What becomes of a waiting provider ----------

  /** The provider waits, all it sent and asked has been handed to the client, and it has taken every voucher. */
  predicate Waiting(j: J.Joint) {
    j.t.open && j.t.paused && !j.t.complete && j.data == [] && j.asks == [] && j.taken == |j.m.vouchers|
  }

  /** What the client's deal and its queue foretell. */
  function Foreseen(m: M.Machine): F.Verdict {
    if m.cs.status in G.DEAD then F.Over else F.Told(m)
  }

  /** The client alone makes the voucher v, and with it the provider's transfer goes on. */
  ghost predicate Resumes(j: J.Joint, v: int) {
    exists n: nat :: var m := Iterate(G.Alone, j.m, n);
      m.vouchers == j.m.vouchers + [v] && !J.Next(j.(m := m), J.DeliverVoucher).t.paused
  }

  /** The provider's books cover its lower boundary once the voucher v is added to them. */
  ghost predicate Covers(j: J.Joint, v: int) {
    E.PriceOf(j.t.deal.params, j.t.accepted) <= j.t.deal.fundsReceived + (v - F.Last(j.m.vouchers))
  }

  /** Before the transfer ends, a deal that is not over fits. */
  lemma EarlyFits(p: Params, j: J.Joint)
    requires Paced(p, j) && Early(j) && !j.t.complete && j.m.cs.status in G.ALIVE
    ensures F.Fit(j.m) && CanPay(j.m.cs) && S.SetupToken(j.m.cs.status, L.Coming(j.m))
  {
    var es := L.Coming(j.m);
    assert forall i :: 0 <= i < |es| ==> Proper(es[i]) && !EndEvent(es[i]);
    assert forall i :: 0 <= i < |es| ==> G.Ordinary(es[i]) || es[i].PaymentSent?;
    hide J.Base, Proper, EndEvent, G.Ordinary, G.Token, S.SetupToken, Delivered, Charged, F.Rising, F.Calm, F.Last, CY.Books, K.Reports, L.Coming;
  }

  lemma EarlyAliveOrDead(p: Params, j: J.Joint)
    requires Paced(p, j) && Early(j) && !j.t.complete && j.m.cs.status !in G.DEAD
    ensures j.m.cs.status in G.ALIVE
  {
    hide J.Base, Proper, EndEvent, Delivered, Charged, F.Rising, Flowing, K.Kept, L.Coming;
  }

  lemma FateForeseen(p: Params, j: J.Joint)
    requires Paced(p, j) && Early(j) && !j.t.complete
    ensures match Foreseen(j.m)
            case Paid(v) => G.Pays(j.m, v)
            case Over => O.Dies(j.m)
            case Never => F.NeverPays(j.m)
  {
    hide Paced, Early, F.Foretold, F.Fit, G.Pays, O.Dies, F.NeverPays, S.SetupToken;
    if j.m.cs.status in G.DEAD {
      O.DeadDies(j.m);
    } else {
      EarlyAliveOrDead(p, j);
      EarlyFits(p, j);
      F.FateDecides(j.m);
    }
  }

  /** A voucher resumes the transfer exactly when it covers what the provider waits for. */
  lemma VoucherDecides(p: Params, j: J.Joint, m: M.Machine, v: int)
    requires E.Inv(p, j.t) && j.t.open && j.taken == |j.m.vouchers|
    requires m.vouchers == j.m.vouchers + [v] && F.Last(j.m.vouchers) <= v
    ensures !J.Next(j.(m := m), J.DeliverVoucher).t.paused <==> Covers(j, v)
  {
    var j', amt := j.(m := m), v - F.Last(j.m.vouchers);
    assert J.Received(j') == Some(amt);
    hide J.Received, E.PriceOf, Boundary, NextInterval;
    E.OwedNothing(j.t.deal, j.t.accepted, j.t.deal.fundsReceived + amt);
    hide R.PaymentOwed;
    if Covers(j, v) {
      E.EnoughPaid(j.t, amt, J.PAYCH);
    } else {
      NotEnough(j.t, amt);
    }
    hide E.Next, R.Revalidate;
  }

  lemma NotEnough(t: E.Transfer, amt: nat)
    requires R.PaymentOwed(t.deal, t.deal.fundsReceived + amt) > 0
    ensures E.Next(t, E.Pay(Some(amt), J.PAYCH)).paused
  {
    hide R.PaymentOwed, P.Apply;
  }

  lemma ResumesExactly(p: Params, j: J.Joint, v: int)
    requires Paced(p, j) && Early(j) && Waiting(j)
    ensures Resumes(j, v) <==> Foreseen(j.m) == F.Paid(v) && Covers(j, v)
  {
    hide Paced, Early, F.Foretold, J.Next, G.Alone, Iterate, Covers, E.Inv, F.Last, O.Dies, J.Base, M.Inv, Live, Delivered, Charged;
    PacedFacts(p, j);
    FateForeseen(p, j);
    F.PaidMore(j.m);
    if Foreseen(j.m).Paid? {
      var v0 := Foreseen(j.m).v;
      var n0: nat :| Iterate(G.Alone, j.m, n0).vouchers == j.m.vouchers + [v0];
      VoucherDecides(p, j, Iterate(G.Alone, j.m, n0), v0);
      if Resumes(j, v) { ResumesThat(p, j, v, n0, v0); }
    } else {
      UnpaidStays(j.m);
      forall n: nat ensures Iterate(G.Alone, j.m, n).vouchers != j.m.vouchers + [v] {
        assert Iterate(G.Alone, j.m, n).vouchers == j.m.vouchers && |j.m.vouchers + [v]| == |j.m.vouchers| + 1;
      }
    }
  }

  lemma ResumesThat(p: Params, j: J.Joint, v: int, n: nat, v0: int)
    requires E.Inv(p, j.t) && j.t.open && j.taken == |j.m.vouchers| && F.Last(j.m.vouchers) <= v0
    requires Resumes(j, v) && Iterate(G.Alone, j.m, n).vouchers == j.m.vouchers + [v0]
    ensures v == v0 && Covers(j, v)
  {
    hide J.Next, G.Alone, Iterate, E.Inv, Covers, F.Last;
    var n': nat :| var m := Iterate(G.Alone, j.m, n');
      m.vouchers == j.m.vouchers + [v] && !J.Next(j.(m := m), J.DeliverVoucher).t.paused;
    F.NextVoucherIsOne(j.m, n', v, n, v0);
    VoucherDecides(p, j, Iterate(G.Alone, j.m, n'), v);
  }

  lemma UnpaidStays(m: M.Machine)
    requires O.Dies(m) || F.NeverPays(m)
    ensures forall n: nat :: Iterate(G.Alone, m, n).vouchers == m.vouchers
  {
    hide G.Alone, Iterate;
  }

  /** The deal is over for the client, or an event in its queue ends it before it pays. */
  predicate Ended(j: J.Joint) { Foreseen(j.m) == F.Over }

  /** The deal is not accepted, or adding its first funds failed, and no event in the queue leads on. */
  predicate Stuck(j: J.Joint) { S.Stalled(j.m.cs.status, L.Coming(j.m)) }

  /** The queue leaves the client with a voucher to make that nothing calls for. */
  predicate Idle(j: J.Joint) {
    j.m.cs.status in G.ALIVE && I.Idles(j.m.cs, F.Last(j.m.vouchers), L.Coming(j.m))
  }

  /** The queue leaves the client with no voucher to make. */
  predicate Settled(j: J.Joint) {
    j.m.cs.status in G.ALIVE && I.Settled(j.m.cs, F.Last(j.m.vouchers), L.Coming(j.m))
  }

  /** The four reasons for which a waiting provider gets no voucher, and no other. */
  lemma UnpaidExactly(p: Params, j: J.Joint)
    requires Paced(p, j) && Early(j) && Waiting(j)
    ensures Foreseen(j.m).Paid? <==> !Ended(j) && !Stuck(j) && !Idle(j) && !Settled(j)
    ensures Stuck(j) ==> S.Rests(j.m) && j.m.cs.status in {WaitForAcceptance, PaymentChannelAddingInitialFunds}
  {
    hide Paced, Early, F.Foretold, F.Fit, S.Rests, S.SetupToken, I.Idles, I.Settled, S.Stalled;
    I.NeverExactly(j.m);
    if j.m.cs.status in G.DEAD {
      DeadNotStalled(j.m);
    } else {
      EarlyAliveOrDead(p, j);
      EarlyFits(p, j);
      if Stuck(j) {
        S.StalledRests(j.m);
        S.StalledWhere(j.m.cs.status, L.Coming(j.m));
      }
    }
  }

  lemma DeadNotStalled(m: M.Machine)
    requires m.cs.status in G.DEAD
    ensures !S.Stalled(m.cs.status, L.Coming(m))
  {
  }

  /** An idle client has a last voucher worth all that was asked of it, or more. */
  lemma IdleIsOverpaid(p: Params, j: J.Joint)
    requires Paced(p, j) && Early(j) && Waiting(j) && Idle(j)
    ensures j.asked <= F.Last(j.m.vouchers)
  {
    hide J.Base, E.Inv, F.Fit, I.Idles, Live, Proper, EndEvent, F.Last, G.OwedSum, L.Coming, Delivered, M.Worth, M.Covered;
    PacedFacts(p, j);
    EarlyFits(p, j);
    I.IdlesOverpaid(j.m);
    EmptySum();
  }

  lemma EmptySum()
    ensures G.OwedSum([]) == 0
  {
  }

  lemma RunsPaced(p: Params, id: nat, totalFunds: int, moves: seq<J.Move>)
    requires p.pricePerByte > 0
    requires Exec(J.Begin(p, id, totalFunds), J.Enabled, J.Next, moves).Some?
    ensures var j := Exec(J.Begin(p, id, totalFunds), J.Enabled, J.Next, moves).value; Paced(p, j) && Early(j)
  {
    hide J.Next, J.Enabled, Paced, J.Begin, Early;
    BeginPaced(p, id, totalFunds);
    BeginEarly(p, id, totalFunds);
    forall j, mv | Paced(p, j) && Early(j) && J.Enabled(j, mv)
      ensures Paced(p, J.Next(j, mv)) && Early(J.Next(j, mv))
    {
      StepKeepsPaced(p, j, mv);
      PacedFacts(p, j);
      StepKeepsEarly(p, j, mv);
    }
    Invariance(J.Begin(p, id, totalFunds), J.Enabled, J.Next, j => Paced(p, j) && Early(j), moves);
  }

  lemma BeginEarly(p: Params, id: nat, totalFunds: int)
    ensures Early(J.Begin(p, id, totalFunds))
  {
  }

  /** In every joint run, at any unseal price and with chunks of any size, whenever the provider waits: the client
      alone makes the voucher that its deal and its queue foretell, or its deal ends, or it never makes another; the
      transfer is resumed exactly by a voucher that is foretold and covers what the provider waits for; a voucher is
      foretold unless the deal has ended or ends before, is stuck in its set-up, or the queue leaves the client idle
      or with none to make; and an idle client's last voucher is worth all that was asked of it, or more. */
  lemma PausedProviderIsPaidExactly(p: Params, id: nat, totalFunds: int, moves: seq<J.Move>)
    requires p.pricePerByte > 0
    requires Exec(J.Begin(p, id, totalFunds), J.Enabled, J.Next, moves).Some?
    ensures var j := Exec(J.Begin(p, id, totalFunds), J.Enabled, J.Next, moves).value;
            Waiting(j) ==>
              && (match Foreseen(j.m)
                  case Paid(v) => G.Pays(j.m, v)
                  case Over => O.Dies(j.m)
                  case Never => F.NeverPays(j.m))
              && (forall v :: Resumes(j, v) <==> Foreseen(j.m) == F.Paid(v) && Covers(j, v))
              && (Foreseen(j.m).Paid? <==> !Ended(j) && !Stuck(j) && !Idle(j) && !Settled(j))
              && (Stuck(j) ==> S.Rests(j.m) && j.m.cs.status in {WaitForAcceptance, PaymentChannelAddingInitialFunds})
              && (Idle(j) ==> j.asked <= F.Last(j.m.vouchers))
  {
    hide J.Next, J.Enabled, Paced, J.Begin, Resumes, O.Dies, G.Pays, F.NeverPays, Ended, Stuck, Early, S.Rests, Idle, Settled, Foreseen, Covers;
    RunsPaced(p, id, totalFunds, moves);
    var j := Exec(J.Begin(p, id, totalFunds), J.Enabled, J.Next, moves).value;
    if Waiting(j) {
      FateForeseen(p, j);
      forall v ensures Resumes(j, v) <==> Foreseen(j.m) == F.Paid(v) && Covers(j, v) { ResumesExactly(p, j, v); }
      UnpaidExactly(p, j);
      if Idle(j) { IdleIsOverpaid(p, j); }
    }
  }
}
