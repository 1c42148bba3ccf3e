/** When a client with a voucher to make rests without making it: the unseal price is settled out of what was
    requested, and with nothing requested the deal stays in Ongoing (retrieval/client/fsm.go:309-310,487). */
module ClientIdle {
  import opened Options
  import opened Deals
  import opened Intervals
  import opened Client
  import opened ClientRuns
  import opened ClientLadder
  import opened ClientCycle
  import opened ClientBooks
  import opened ClientProgress
  import opened ClientOutcome
  import opened ClientSetup
  import opened ClientFate
  import opened Runs

  // ---------- The accounts of a walk ----------

  lemma EventAccounts(ds: ClientState, e: Event)
    requires ds.status in ALIVE && (Ordinary(e) || e.PaymentSent?) && !Kills(ds.status, e)
    requires e.PaymentSent? ==> ds.status in PAYING
    ensures var ds' := Apply(ds, e);
            && ds'.paymentRequested + ds'.fundsSpent == ds.paymentRequested + ds.fundsSpent + OwedIn(e)
            && ds'.totalReceived == if e.BlocksReceived? then e.total else ds.totalReceived
  {
    EventLeads(ds.status, e);
    ActTotalReceived(ds, e);
    ActBalances(ds, e);
    if Transition(ds.status, e).Invalid? { InvalidStays(ds, e); }
    hide Act, Transition, Ordinary, Kills, OwedIn;
  }

  lemma ActBalances(ds: ClientState, e: Event)
    requires Ordinary(e) || e.PaymentSent?
    ensures var a := Act(ds, e);
            a.paymentRequested + a.fundsSpent == ds.paymentRequested + ds.fundsSpent + OwedIn(e)
  {
    hide NextInterval;
  }

  /** What the events leave behind: all that was requested, spent and received. */
  lemma {:induction false} WalkAccounts(ds: ClientState, vouchers: seq<int>, reminded: bool, es: seq<Event>)
    requires Sound(ds, vouchers, es)
    ensures var f := Walk(ds, Last(vouchers), reminded, es);
            f.Left? ==>
              && f.ds.fundsSpent == Last(vouchers)
              && f.ds.paymentRequested + f.ds.fundsSpent == ds.paymentRequested + ds.fundsSpent + OwedSum(es)
              && f.ds.totalReceived == LastTotal(ds.totalReceived, es)
    decreases |es|
  {
    hide Sound, Kills, Apply, SetsSending, Pushes, Reminds, Last, AmountToSend, OwedIn, Ordinary;
    if es == [] {
      SpentAll(ds, vouchers);
    } else if !Kills(ds.status, es[0]) && !(SetsSending(ds.status, es[0]) && Pushes(Apply(ds, es[0]), Last(vouchers))) {
      SoundFront(ds, vouchers, es);
      EventAccounts(ds, es[0]);
      SoundStep(ds, vouchers, es);
      WalkAccounts(Apply(ds, es[0]), vouchers, reminded || Reminds(ds, es[0]), es[1..]);
    }
  }

  lemma SpentAll(ds: ClientState, vouchers: seq<int>)
    requires Sound(ds, vouchers, [])
    ensures ds.fundsSpent == Last(vouchers)
  {
    hide Books, Last, Pushes;
  }

  lemma SoundFront(ds: ClientState, vouchers: seq<int>, es: seq<Event>)
    requires Sound(ds, vouchers, es) && es != []
    ensures ds.status in ALIVE && (Ordinary(es[0]) || es[0].PaymentSent?)
    ensures es[0].PaymentSent? ==> ds.status in PAYING && ds.fundsSpent <= es[0].amount
  {
    NoReportWithoutVoucher(es, ds.fundsSpent, vouchers);
    hide Books, Last, Ordinary, Pushes;
  }

  /** A request still open in Ongoing has an event on its way that asks for it, or the client reminded itself. */
  predicate Called(ds: ClientState, reminded: bool, es: seq<Event>) {
    ds.status == Ongoing && ds.paymentRequested > 0 ==> reminded || HasAsk(es)
  }

  lemma CalledStep(ds: ClientState, reminded: bool, es: seq<Event>)
    requires ds.status in ALIVE && es != [] && !Kills(ds.status, es[0]) && (Ordinary(es[0]) || es[0].PaymentSent?)
    requires es[0].PaymentSent? ==> ds.fundsSpent <= es[0].amount
    requires Called(ds, reminded, es)
    ensures Called(Apply(ds, es[0]), reminded || Reminds(ds, es[0]), es[1..])
  {
    var e, ds' := es[0], Apply(ds, es[0]);
    hide Transition, Apply, Kills, Ordinary, IsAsk;
    EventLeads(ds.status, e);
    EventApplied(ds, e);
    if ds'.status == Ongoing && ds'.paymentRequested > 0 && !Reminds(ds, e) {
      assert !RunsHandler(ds.status, e) && ds.status == Ongoing;
      if Transition(Ongoing, e).Invalid? {
        InvalidStays(ds, e);
        DroppedIsNoToken(Ongoing, e);
      } else {
        RecordedIsNoToken(Ongoing, e);
        RecordedPayment(ds, e);
        NotAsk(e);
      }
      if HasAsk(es) {
        var i :| 0 <= i < |es| && IsAsk(es[i]);
        assert es[1..][i - 1] == es[i];
      }
    }
  }

  lemma {:induction false} WalkCalled(ds: ClientState, vouchers: seq<int>, reminded: bool, es: seq<Event>)
    requires Sound(ds, vouchers, es) && Called(ds, reminded, es)
    ensures var f := Walk(ds, Last(vouchers), reminded, es); f.Left? ==> Called(f.ds, f.reminded, [])
    decreases |es|
  {
    hide Sound, Kills, Apply, SetsSending, Pushes, Reminds, Last, AmountToSend, Called, Ordinary;
    if es != [] && !Kills(ds.status, es[0]) && !(SetsSending(ds.status, es[0]) && Pushes(Apply(ds, es[0]), Last(vouchers))) {
      SoundFront(ds, vouchers, es);
      CalledStep(ds, reminded, es);
      SoundStep(ds, vouchers, es);
      WalkCalled(Apply(ds, es[0]), vouchers, reminded || Reminds(ds, es[0]), es[1..]);
    }
  }

  /** The events leave a deal behind that has a voucher to make and does not turn to its payments again. */
  predicate Idles(ds: ClientState, last: int, es: seq<Event>) {
    var f := Walk(ds, last, false, es);
    f.Left? && Pushes(f.ds, last) && !Goes(f.ds, f.reminded)
  }

  /** The events leave a deal behind that has no voucher to make: it waits for bytes, or has paid for its interval. */
  predicate Settled(ds: ClientState, last: int, es: seq<Event>) {
    var f := Walk(ds, last, false, es);
    f.Left? && !Pushes(f.ds, last)
  }

  /** Why no voucher is foretold: the set-up is stalled, or the client idles, or has none to make. */
  lemma NeverExactly(m: Machine)
    ensures var last, es := Last(m.vouchers), Coming(m);
            Told(m) == Never <==> Stalled(m.cs.status, es) || Idles(m.cs, last, es) || Settled(m.cs, last, es)
  {
    hide Walk, Pushes, Last, Coming, Goes, Stalled;
  }

  /** A client idles only when no more was requested, in all, than its last voucher is worth, and then in Ongoing
      or on the way there. */
  lemma IdlesOverpaid(m: Machine)
    requires Fit(m) && Idles(m.cs, Last(m.vouchers), Coming(m))
    ensures m.cs.paymentRequested + m.cs.fundsSpent + OwedSum(Coming(m)) <= Last(m.vouchers)
    ensures Walk(m.cs, Last(m.vouchers), false, Coming(m)).ds.status in CREATION_STATES + {Ongoing}
  {
    var es, last := Coming(m), Last(m.vouchers);
    var f := Walk(m.cs, last, false, es);
    assert Called(m.cs, false, es);
    hide Sound, Walk, Pushes, Last;
    WalkAccounts(m.cs, m.vouchers, false, es);
    WalkCalled(m.cs, m.vouchers, false, es);
    WalkSound(m.cs, m.vouchers, false, es);
    SoundFacts(f.ds, m.vouchers, []);
  }

  // ---------- At rest ----------

  /** The client comes to rest with the deal d and without another voucher. */
  ghost predicate RestsAt(m: Machine, d: ClientState) {
    exists n: nat :: var m' := Iterate(Alone, m, n); Quiet(m') && m'.cs == d && m'.vouchers == m.vouchers
  }

  lemma RestsLater(m: Machine, d: ClientState)
    requires Alone(m).vouchers == m.vouchers && RestsAt(Alone(m), d)
    ensures RestsAt(m, d)
  {
    hide Alone, Quiet;
    var n: nat :| var m' := Iterate(Alone, Alone(m), n); Quiet(m') && m'.cs == d && m'.vouchers == Alone(m).vouchers;
    assert Iterate(Alone, m, n + 1) == Iterate(Alone, Alone(m), n);
  }

  /** Triggers that are no requests. */
  predicate Leftovers(es: seq<Event>) {
    forall i :: 0 <= i < |es| ==> Triggered(es[i]) && !es[i].PaymentRequested?
  }

  /** Such a trigger does nothing in Ongoing. */
  lemma LeftoverDropped(m: Machine)
    requires m.cs.status == Ongoing && m.pending.None? && m.queue != [] && Triggered(m.queue[0]) && !m.queue[0].PaymentRequested?
    ensures var m' := Alone(m);
            m'.cs == m.cs && m'.vouchers == m.vouchers && m'.queue == m.queue[1..] && m'.pending.None?
  {
  }

  lemma {:induction false} LeftoversRest(m: Machine)
    requires m.cs.status == Ongoing && Leftovers(Coming(m))
    ensures RestsAt(m, m.cs)
    decreases |Coming(m)|, if m.pending.Some? then 1 else 0
  {
    hide Triggered;
    if m.pending.Some? {
      SettlesFit(m);
      hide Alone;
      LeftoversRest(Alone(m));
      RestsLater(m, m.cs);
    } else {
      assert Coming(m) == m.queue;
      if m.queue == [] {
        assert Iterate(Alone, m, 0) == m;
      } else {
        LeftoverDropped(m);
        hide Alone;
        assert Coming(Alone(m)) == m.queue[1..];
        LeftoversRest(Alone(m));
        RestsLater(m, m.cs);
      }
    }
  }

  /** The events a are taken one by one; of what the handlers trigger no request joins the leftovers b. */
  lemma {:induction false} Drains(m: Machine, a: seq<Event>, b: seq<Event>)
    requires Fit(m) && Coming(m) == a + b && Leftovers(b)
    requires var f := Walk(m.cs, Last(m.vouchers), false, a); f.Left? && f.ds.status == Ongoing && !f.reminded
    ensures RestsAt(m, Walk(m.cs, Last(m.vouchers), false, a).ds)
    decreases |a|, if m.pending.Some? then 1 else 0
  {
    hide Fit, Pushes, Last, Kills, SetsSending, Apply, Funded, ProcessFront, Reminds, Leftovers, Coming, RestsAt;
    var d := Walk(m.cs, Last(m.vouchers), false, a).ds;
    if a == [] {
      assert a + b == b;
      LeftoversRest(m);
    } else if m.pending.Some? {
      SettlesFit(m);
      hide Alone;
      Drains(Alone(m), a, b);
      RestsLater(m, d);
    } else {
      FrontIs(m, a, b);
      var trig := StepShape(m);
      FitStep(m);
      WalkReminded(Apply(m.cs, a[0]), Last(m.vouchers), a[1..]);
      LeftoverJoins(b, trig);
      assert m.queue[1..] + trig == a[1..] + (b + trig);
      assert Alone(m) == ProcessFront(m, Funded(m));
      hide Alone;
      Drains(Alone(m), a[1..], b + trig);
      RestsLater(m, d);
    }
  }

  lemma FrontIs(m: Machine, a: seq<Event>, b: seq<Event>)
    requires Coming(m) == a + b && m.pending.None? && a != []
    ensures m.queue == a + b && m.queue[0] == a[0] && m.queue[1..] == a[1..] + b
  {
  }

  lemma LeftoverJoins(b: seq<Event>, trig: seq<Event>)
    requires Leftovers(b) && AtMostOne(trig) && !(trig != [] && trig[0].PaymentRequested?)
    ensures Leftovers(b + trig)
  {
    hide Triggered;
  }

  /** A client whose walk ends in Ongoing without a reminder comes to rest there, just as the walk left it. */
  lemma IdleRests(m: Machine)
    requires Fit(m)
    requires var f := Walk(m.cs, Last(m.vouchers), false, Coming(m)); f.Left? && f.ds.status == Ongoing && !f.reminded
    ensures RestsAt(m, Walk(m.cs, Last(m.vouchers), false, Coming(m)).ds)
  {
    hide Fit, Walk, RestsAt, Last, Coming;
    assert Coming(m) + [] == Coming(m);
    Drains(m, Coming(m), []);
  }
}
