/** A deal that is still being set up: what moves it on is never lost, and without it the deal stays where it is. */
module ClientSetup {
  import opened Options
  import opened Deals
  import opened Intervals
  import opened Numbers
  import opened Client
  import opened ClientRuns
  import opened ClientLadder
  import opened ClientProgress
  import opened ClientOutcome
  import opened Runs

  /** No event under way leads on from this status: the provider has not accepted, or adding the first funds
      failed, which no transition takes up (retrieval/client/fsm.go:103-108). */
  predicate Stalled(s: Status, es: seq<Event>) {
    s in CREATION_STATES && forall i :: 0 <= i < |es| ==> !Transition(s, es[i]).To?
  }

  /** The deal stays where it is. */
  ghost predicate Rests(m: Machine) {
    forall n: nat :: Iterate(Alone, m, n).cs.status == m.cs.status && Iterate(Alone, m, n).vouchers == m.vouchers
  }

  lemma StalledStep(m: Machine)
    requires Stalled(m.cs.status, Coming(m))
    ensures Alone(m).cs.status == m.cs.status && Alone(m).vouchers == m.vouchers
    ensures Stalled(Alone(m).cs.status, Coming(Alone(m)))
  {
    if m.pending.Some? {
      assert Coming(Alone(m)) == Coming(m);
    } else if m.queue != [] {
      var e := m.queue[0];
      assert Coming(m) == m.queue && !Transition(m.cs.status, e).To?;
      StatusApplied(m.cs, e);
      NoHandler(m.cs.status, e);
      hide Transition, Apply, Handler, Funded;
      assert Coming(Alone(m)) == m.queue[1..];
      assert forall i :: 0 <= i < |m.queue| - 1 ==> m.queue[1..][i] == m.queue[i + 1];
    }
  }

  lemma NoHandler(s: Status, e: Event)
    requires s in CREATION_STATES && !Transition(s, e).To?
    ensures !RunsHandler(s, e)
  {
  }

  lemma {:induction false} StalledForever(m: Machine, n: nat)
    requires Stalled(m.cs.status, Coming(m))
    ensures Iterate(Alone, m, n).cs.status == m.cs.status && Iterate(Alone, m, n).vouchers == m.vouchers
    decreases n
  {
    hide Alone, Stalled;
    if n > 0 {
      StalledStep(m);
      StalledForever(Alone(m), n - 1);
    }
  }

  lemma StalledRests(m: Machine)
    requires Stalled(m.cs.status, Coming(m))
    ensures Rests(m)
  {
    hide Alone, Iterate, Stalled;
    forall n: nat ensures Iterate(Alone, m, n).cs.status == m.cs.status && Iterate(Alone, m, n).vouchers == m.vouchers {
      StalledForever(m, n);
    }
  }

  // ---------- Under way ----------

  predicate HasStep(s: Status, es: seq<Event>) { exists i :: 0 <= i < |es| && Transition(s, es[i]).To? }

  lemma TailHasStep(s: Status, es: seq<Event>)
    requires HasStep(s, es) && !Transition(s, es[0]).To?
    ensures HasStep(s, es[1..])
  {
    hide Transition;
    var i :| 0 <= i < |es| && Transition(s, es[i]).To?;
    assert es[1..][i - 1] == es[i];
  }

  function Rank(s: Status): nat {
    match s
    case WaitForAcceptance => 4
    case Accepted => 3
    case PaymentChannelCreating => 2
    case PaymentChannelAddingInitialFunds => 2
    case PaymentChannelAllocatingLane => 1
    case _ => 0
  }

  /** Where an ordinary event leads that does not end the deal. */
  lemma SetupLeads(s: Status, e: Event)
    requires s in CREATION_STATES && Ordinary(e) && !Kills(s, e)
    ensures Transition(s, e).To? ==> Moved(s, e) == Ongoing || (Moved(s, e) in CREATION_STATES && Rank(Moved(s, e)) < Rank(s))
    ensures Transition(s, e).Invalid? ==> OwedIn(e) == 0 && !e.BlocksReceived?
    ensures !Transition(s, e).NoChange?
  {
    if Transition(s, e).To? { SetupGoes(s, e); } else { NoHandler(s, e); }
    if e.PaymentRequested? || e.BlocksReceived? { SetupRecords(s, e); }
    hide Transition;
  }

  lemma SetupGoes(s: Status, e: Event)
    requires s in CREATION_STATES && Ordinary(e) && Transition(s, e).To? && Transition(s, e).status !in DEAD
    ensures var s' := Transition(s, e).status; s' == Ongoing || (s' in CREATION_STATES && Rank(s') < Rank(s))
  {
  }

  lemma SetupRecords(s: Status, e: Event)
    requires s in CREATION_STATES && (e.PaymentRequested? || e.BlocksReceived?)
    ensures Transition(s, e).JustRecord?
  {
  }

  /** On a funded channel every stage of the set-up triggers the event that leads on. */
  lemma SetupHandler(ds: ClientState, m: Machine)
    requires ds.status in CREATION_STATES && ds.status != WaitForAcceptance
    ensures var eff := Handler(ds, Funded(m));
            eff.voucher.None? && eff.trigger.Some? && Triggered(eff.trigger.value)
            && !eff.trigger.value.CreateVoucherFailed? && Transition(ds.status, eff.trigger.value).To?
  {
  }

  // ---------- What leads on is never lost ----------

  /** Stages whose every outcome leads on. */
  const BUSY: set<Status> := {Accepted, PaymentChannelCreating, PaymentChannelAllocatingLane}

  /** In those, what leads on is among the events es. */
  predicate SetupToken(s: Status, es: seq<Event>) {
    s in BUSY ==> HasStep(s, es)
  }

  lemma BusyHandler(ds: ClientState, w: World)
    requires ds.status in BUSY
    ensures Handler(ds, w).trigger.Some? && Transition(ds.status, Handler(ds, w).trigger.value).To?
  {
  }

  lemma ProcessKeepsSetup(m: Machine, w: World)
    requires SetupToken(m.cs.status, Coming(m)) && m.pending.None? && m.queue != []
    ensures SetupToken(ProcessFront(m, w).cs.status, Coming(ProcessFront(m, w)))
  {
    var e, s, m' := m.queue[0], m.cs.status, ProcessFront(m, w);
    assert Coming(m) == m.queue;
    StatusApplied(m.cs, e);
    if Transition(s, e).To? {
      if Apply(m.cs, e).status in BUSY { BusyHandler(Apply(m.cs, e), w); }
      hide Transition, Apply, Handler;
      if m'.cs.status in BUSY { assert Coming(m')[|m.queue| - 1] == m'.pending.value; }
    } else if s in BUSY {
      NoHandler(s, e);
      hide Transition, Apply, Handler;
      assert Coming(m') == m.queue[1..];
      TailHasStep(s, m.queue);
    }
  }

  lemma InsertKeepsSetup(s: Status, q: seq<Event>, e: Event, tail: seq<Event>)
    requires SetupToken(s, q + tail)
    ensures SetupToken(s, q + [e] + tail)
  {
    hide Transition;
    var es, es' := q + tail, q + [e] + tail;
    assert forall i :: 0 <= i < |es| ==> es[i] == es'[if i < |q| then i else i + 1];
    if s in BUSY {
      var i :| 0 <= i < |es| && Transition(s, es[i]).To?;
      assert es'[if i < |q| then i else i + 1] == es[i];
    }
  }

  /** A deal that is stalled waits for acceptance or for its first funds, and is not doomed. */
  lemma StalledWhere(s: Status, es: seq<Event>)
    requires Stalled(s, es) && SetupToken(s, es)
    ensures s in {WaitForAcceptance, PaymentChannelAddingInitialFunds}
  {
    hide Transition;
  }

  lemma RestsNotDies(m: Machine)
    requires Rests(m) && m.cs.status in CREATION_STATES
    ensures !Dies(m) && forall v :: !Pays(m, v)
  {
    hide Alone, Iterate;
    forall v, n: nat ensures Iterate(Alone, m, n).vouchers != m.vouchers + [v] {
      assert Iterate(Alone, m, n).vouchers == m.vouchers && |m.vouchers + [v]| == |m.vouchers| + 1;
    }
    forall n: nat ensures Iterate(Alone, m, n).cs.status !in DEAD {
      assert Iterate(Alone, m, n).cs.status == m.cs.status;
    }
  }
}
