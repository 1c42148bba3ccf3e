/** What becomes of a client with nothing more arriving from outside, told from its deal and the events on their way
    to it alone, at any unseal price: it makes the next voucher, or the deal ends, or no voucher is ever made. */
module ClientFate {
  import opened Options
  import opened Deals
  import opened Intervals
  import opened Numbers
  import opened Client
  import opened ClientRuns
  import opened ClientLadder
  import opened ClientCycle
  import opened ClientBooks
  import opened ClientProgress
  import opened ClientOutcome
  import opened ClientSetup
  import opened Runs

  // ---------- Walking over the events ----------

  /** The amount of the last voucher made. */
  function Last(vouchers: seq<int>): int { if vouchers == [] then 0 else vouchers[|vouchers| - 1] }

  /** Sending funds would make a voucher: for more than is recorded as spent, and more than the last one. */
  predicate Pushes(ds: ClientState, last: int) {
    ds.fundsSpent < AmountToSend(ds) && last < AmountToSend(ds)
  }

  /** Event e brings the deal to Ongoing with a payment still requested, of which the handler reminds itself. */
  predicate Reminds(ds: ClientState, e: Event) {
    RunsHandler(ds.status, e) && Apply(ds, e).status == Ongoing && Apply(ds, e).paymentRequested > 0
  }

  /** What a walk over events comes to: the deal's end, a voucher, or the deal they leave behind, and whether the
      client reminded itself of a request on the way. */
  datatype Fate = Ends | Makes(v: int) | Left(ds: ClientState, reminded: bool)

  /** The events es applied one by one, without what the handlers trigger. */
  function Walk(ds: ClientState, last: int, reminded: bool, es: seq<Event>): Fate
    decreases |es|
  {
    if es == [] then Left(ds, reminded)
    else if Kills(ds.status, es[0]) then Ends
    else
      var ds' := Apply(ds, es[0]);
      if SetsSending(ds.status, es[0]) && Pushes(ds', last) then Makes(AmountToSend(ds'))
      else Walk(ds', last, reminded || Reminds(ds, es[0]), es[1..])
  }

  /** A deal left behind that turns to its payments once more. */
  predicate Goes(ds: ClientState, reminded: bool) {
    reminded || ds.status == FundsNeeded || (ds.status in CREATION_STATES && ds.paymentRequested > 0)
  }

  datatype Verdict = Paid(v: int) | Over | Never

  function Judge(f: Fate, last: int): Verdict {
    match f
    case Ends => Over
    case Makes(v) => Paid(v)
    case Left(ds, reminded) => if Pushes(ds, last) && Goes(ds, reminded) then Paid(AmountToSend(ds)) else Never
  }

  /** What the deal and the events on their way to it foretell. */
  function Foretold(ds: ClientState, last: int, es: seq<Event>): Verdict {
    if Stalled(ds.status, es) then Never else Judge(Walk(ds, last, false, es), last)
  }

  function Told(m: Machine): Verdict { Foretold(m.cs, Last(m.vouchers), Coming(m)) }

  lemma {:induction false} WalkReminded(ds: ClientState, last: int, es: seq<Event>)
    ensures Walk(ds, last, true, es) == match Walk(ds, last, false, es) case Left(d, _) => Left(d, true) case f => f
    decreases |es|
  {
    hide Kills, Apply, SetsSending, Pushes, Reminds, AmountToSend;
    if es != [] {
      WalkReminded(Apply(ds, es[0]), last, es[1..]);
    }
  }

  lemma {:induction false} WalkExtend(ds: ClientState, last: int, reminded: bool, es: seq<Event>, x: Event)
    ensures Walk(ds, last, reminded, es + [x]) ==
            match Walk(ds, last, reminded, es) case Left(d, r) => Walk(d, last, r, [x]) case f => f
    decreases |es|
  {
    hide Kills, Apply, SetsSending, Pushes, Reminds, AmountToSend;
    if es == [] {
      assert es + [x] == [x];
    } else {
      assert (es + [x])[0] == es[0] && (es + [x])[1..] == es[1..] + [x];
      WalkExtend(Apply(ds, es[0]), last, reminded || Reminds(ds, es[0]), es[1..], x);
    }
  }

  // ---------- Deals and events that fit together ----------

  /** Sending is under way only when no voucher is to be made. */
  predicate Calm(ds: ClientState, last: int) { ds.status == SendFunds ==> !Pushes(ds, last) }

  /** What is recorded as spent once the events es are applied. */
  function Spent(spent: int, es: seq<Event>): int
    decreases es
  {
    if es == [] then spent else Spent(if es[0].PaymentSent? then es[0].amount else spent, es[1..])
  }

  lemma {:induction false} SpentAppend(spent: int, a: seq<Event>, b: seq<Event>)
    ensures Spent(spent, a + b) == Spent(Spent(spent, a), b)
    decreases a
  {
    if a == [] {
      assert a + b == b;
    } else {
      assert (a + b)[0] == a[0] && (a + b)[1..] == a[1..] + b;
      SpentAppend(if a[0].PaymentSent? then a[0].amount else spent, a[1..], b);
    }
  }

  /** A deal before its end, with events to come that do not belong to the end, and whose reports account for the
      vouchers made. */
  ghost predicate Sound(ds: ClientState, vouchers: seq<int>, es: seq<Event>) {
    && ds.status in ALIVE && !ds.allBlocksReceived && !ds.lastPaymentRequested
    && Books(ds)
    && Reports(es, ds.fundsSpent, vouchers)
    && (forall i :: 0 <= i < |es| ==> Ordinary(es[i]) || es[i].PaymentSent?)
    && (ds.status in CREATION_STATES ==> vouchers == [])
    && Spent(ds.fundsSpent, es) == Last(vouchers)
    && Calm(ds, Last(vouchers))
  }

  ghost predicate Rising(vouchers: seq<int>) {
    forall i, j :: 0 <= i < j < |vouchers| ==> vouchers[i] < vouchers[j]
  }

  ghost predicate Fit(m: Machine) {
    Sound(m.cs, m.vouchers, Coming(m)) && Token(m.cs, Coming(m)) && Rising(m.vouchers)
  }

  /** What an event tells about bytes or payments. */
  predicate Tells(e: Event) { e.BlocksReceived? || e.PaymentSent? }

  /** Where an event leads that does not end the deal. */
  lemma EventLeads(s: Status, e: Event)
    requires s in ALIVE && (Ordinary(e) || e.PaymentSent?) && !Kills(s, e)
    ensures Moved(s, e) in ALIVE && (s in PAYING ==> Moved(s, e) in PAYING)
    ensures Transition(s, e).NoChange? ==> e.BlocksReceived?
    ensures Transition(s, e).Invalid? ==> !e.BlocksReceived? && OwedIn(e) == 0 && (e.PaymentSent? ==> s in CREATION_STATES)
    ensures s == Ongoing && Moved(s, e) != s ==> Moved(s, e) == FundsNeeded && e.PaymentRequested?
    ensures s == FundsNeeded && Moved(s, e) != s ==> SetsSending(s, e) || e.PaymentSent?
    ensures Moved(s, e) == SendFunds ==> SetsSending(s, e) || (s == SendFunds && Transition(s, e).Invalid?)
    ensures s in CREATION_STATES ==> !Transition(s, e).NoChange?
  {
    if s in CREATION_STATES { LeadsFromSetup(s, e); } else { LeadsFromPaying(s, e); }
  }

  lemma LeadsFromSetup(s: Status, e: Event)
    requires s in CREATION_STATES && (Ordinary(e) || e.PaymentSent?) && !Kills(s, e)
    ensures Moved(s, e) in ALIVE && Moved(s, e) != SendFunds && !Transition(s, e).NoChange?
    ensures Transition(s, e).Invalid? ==> !e.BlocksReceived? && OwedIn(e) == 0
  {
    if Ordinary(e) { SetupLeads(s, e); }
  }

  lemma LeadsFromPaying(s: Status, e: Event)
    requires s in PAYING && (Ordinary(e) || e.PaymentSent?) && !Kills(s, e)
    ensures Moved(s, e) in PAYING
    ensures Transition(s, e).NoChange? ==> e.BlocksReceived?
    ensures Transition(s, e).Invalid? ==> !e.BlocksReceived? && OwedIn(e) == 0 && !e.PaymentSent?
    ensures s == Ongoing && Moved(s, e) != s ==> Moved(s, e) == FundsNeeded && e.PaymentRequested?
    ensures s == FundsNeeded && Moved(s, e) != s ==> SetsSending(s, e) || e.PaymentSent?
    ensures Moved(s, e) == SendFunds ==> SetsSending(s, e) || (s == SendFunds && Transition(s, e).Invalid?)
  {
  }

  /** What an event leaves alone. */
  lemma EventApplied(ds: ClientState, e: Event)
    requires Ordinary(e) || e.PaymentSent?
    ensures var ds' := Apply(ds, e);
            && ds'.status == Moved(ds.status, e) && ds'.params == ds.params
            && ds'.allBlocksReceived == ds.allBlocksReceived && ds'.lastPaymentRequested == ds.lastPaymentRequested
            && (!Tells(e) ==> AmountToSend(ds') == AmountToSend(ds) && ds'.fundsSpent == ds.fundsSpent)
            && (e.PaymentSent? && !Transition(ds.status, e).Invalid? ==> ds'.fundsSpent == e.amount)
            && (!e.PaymentSent? ==> ds'.fundsSpent == ds.fundsSpent)
  {
    ActKeeps(ds, e);
    AmountAnywhere(Act(ds, e), Moved(ds.status, e));
    hide Act, Transition, AmountToSend, Tells, Ordinary;
  }

  lemma ActKeeps(ds: ClientState, e: Event)
    requires Ordinary(e) || e.PaymentSent?
    ensures var a := Act(ds, e);
            && a.status == ds.status && a.params == ds.params
            && a.allBlocksReceived == ds.allBlocksReceived && a.lastPaymentRequested == ds.lastPaymentRequested
            && (!Tells(e) ==> AmountToSend(a) == AmountToSend(ds))
            && a.fundsSpent == if e.PaymentSent? then e.amount else ds.fundsSpent
  {
    if e.PaymentSent? {
      hide NextInterval, AmountToSend;
    } else if Tells(e) {
    } else {
      SameAmount(ds, Act(ds, e));
    }
  }

  lemma SameAmount(ds: ClientState, ds': ClientState)
    requires ds'.params == ds.params && ds'.unsealFundsPaid == ds.unsealFundsPaid && ds'.currentInterval == ds.currentInterval
    requires ds'.allBlocksReceived == ds.allBlocksReceived && ds'.totalReceived == ds.totalReceived
    ensures AmountToSend(ds') == AmountToSend(ds)
  {
  }

  lemma AmountAnywhere(ds: ClientState, s: Status)
    ensures AmountToSend(ds.(status := s)) == AmountToSend(ds)
  {
  }

  /** An event that neither ends the deal nor makes a voucher leaves the rest fitting. */
  lemma SoundStep(ds: ClientState, vouchers: seq<int>, es: seq<Event>)
    requires es != [] && Sound(ds, vouchers, es) && !Kills(ds.status, es[0])
    requires !(SetsSending(ds.status, es[0]) && Pushes(Apply(ds, es[0]), Last(vouchers)))
    ensures Sound(Apply(ds, es[0]), vouchers, es[1..])
    ensures ds.status in PAYING ==> Apply(ds, es[0]).status in PAYING
  {
    hide Apply, Kills, Ordinary, Books, Reports, SetsSending, Moved, Tells, Transition, AmountToSend, Last, Pushes;
    var e, ds' := es[0], Apply(ds, es[0]);
    assert Ordinary(e) || e.PaymentSent?;
    EventLeads(ds.status, e);
    EventApplied(ds, e);
    ApplyKeepsBooks(ds, es, vouchers);
    assert forall i :: 0 <= i < |es| - 1 ==> es[1..][i] == es[i + 1];
    if Transition(ds.status, e).Invalid? {
      InvalidStays(ds, e);
      NoReportWithoutVoucher(es, ds.fundsSpent, vouchers);
    }
  }

  lemma NoReportWithoutVoucher(es: seq<Event>, spent: int, vouchers: seq<int>)
    requires es != [] && Reports(es, spent, vouchers)
    ensures vouchers == [] ==> !es[0].PaymentSent?
  {
  }

  lemma SoundTrigger(ds: ClientState, vouchers: seq<int>, es: seq<Event>, trig: seq<Event>)
    requires Sound(ds, vouchers, es) && AtMostOne(trig)
    ensures Sound(ds, vouchers, es + trig)
  {
    TriggeredIsOrdinary(trig);
    var es' := es + trig;
    assert forall i :: 0 <= i < |es| ==> es'[i] == es[i];
    assert forall i :: |es| <= i < |es'| ==> es'[i] == trig[i - |es|] && !es'[i].PaymentSent?;
    SpentAppend(ds.fundsSpent, es, trig);
    hide Books, Pushes, Ordinary, AtMostOne, Last;
    assert Spent(Spent(ds.fundsSpent, es), trig) == Spent(ds.fundsSpent, es) by {
      if trig != [] { assert trig[1..] == []; }
    }
  }

  lemma {:induction false} WalkSound(ds: ClientState, vouchers: seq<int>, reminded: bool, es: seq<Event>)
    requires Sound(ds, vouchers, es)
    ensures var f := Walk(ds, Last(vouchers), reminded, es);
            f.Left? ==> Sound(f.ds, vouchers, []) && (ds.status in PAYING ==> f.ds.status in PAYING)
    decreases |es|
  {
    hide Sound, Kills, Apply, SetsSending, Pushes, Reminds, Last, AmountToSend;
    if es != [] && !Kills(ds.status, es[0]) &&
       !(SetsSending(ds.status, es[0]) && Pushes(Apply(ds, es[0]), Last(vouchers))) {
      SoundStep(ds, vouchers, es);
      WalkSound(Apply(ds, es[0]), vouchers, reminded || Reminds(ds, es[0]), es[1..]);
    }
  }

  // ---------- Triggers change nothing that is foretold ----------

  lemma TriggerLeads(s: Status, x: Event)
    requires s in ALIVE && Triggered(x)
    ensures Kills(s, x) <==> s == SendFunds && x.CreateVoucherFailed?
    ensures s == Ongoing ==> Moved(s, x) == (if x.PaymentRequested? then FundsNeeded else Ongoing) &&
                             (Moved(s, x) == s ==> !RunsHandler(s, x))
    ensures s == FundsNeeded ==> Moved(s, x) == if x.SendFundsNow? then SendFunds else FundsNeeded
    ensures s in CREATION_STATES ==> Moved(s, x) in CREATION_STATES || (Moved(s, x) == Ongoing && RunsHandler(s, x))
  {
    if s in CREATION_STATES { TriggerLeadsSetup(s, x); } else { TriggerLeadsPaying(s, x); }
    hide Transition, Triggered;
  }

  lemma TriggerLeadsSetup(s: Status, x: Event)
    requires s in CREATION_STATES && Triggered(x)
    ensures !Kills(s, x) && (Moved(s, x) in CREATION_STATES || (Moved(s, x) == Ongoing && RunsHandler(s, x)))
  {
  }

  lemma TriggerLeadsPaying(s: Status, x: Event)
    requires s in PAYING && Triggered(x)
    ensures Kills(s, x) <==> s == SendFunds && x.CreateVoucherFailed?
    ensures s == Ongoing ==> Moved(s, x) == (if x.PaymentRequested? then FundsNeeded else Ongoing) &&
                             (Moved(s, x) == s ==> !RunsHandler(s, x))
    ensures s == FundsNeeded ==> Moved(s, x) == if x.SendFundsNow? then SendFunds else FundsNeeded
  {
  }

  lemma TriggerApplied(ds: ClientState, x: Event)
    requires Triggered(x)
    ensures var ds' := Apply(ds, x);
            && ds'.status == Moved(ds.status, x) && ds'.paymentRequested == ds.paymentRequested
            && AmountToSend(ds') == AmountToSend(ds) && ds'.fundsSpent == ds.fundsSpent
  {
    assert Ordinary(x) && !Tells(x) && Act(ds, x).paymentRequested == ds.paymentRequested;
    EventApplied(ds, x);
    hide Transition, Act, AmountToSend, Ordinary;
  }

  /** A trigger behind the events changes the judgement at most from no voucher to the deal's end. */
  lemma JudgeTrigger(d: ClientState, last: int, r: bool, x: Event)
    requires d.status in ALIVE && Calm(d, last) && Triggered(x) && (x.PaymentRequested? ==> d.status in PAYING)
    ensures var j, j' := Judge(Left(d, r || x.PaymentRequested?), last), Judge(Walk(d, last, r, [x]), last);
            j' == j || (j == Never && j' == Over)
  {
    var d' := Apply(d, x);
    assert [x][1..] == [];
    TriggerLeads(d.status, x);
    TriggerApplied(d, x);
    hide Apply, Kills, Moved, Triggered, AmountToSend, RunsHandler;
    assert Pushes(d', last) == Pushes(d, last);
  }

  /** What handlers trigger when no voucher is made. */
  lemma HandlerTriggers(ds: ClientState, m: Machine)
    requires m.queue != [] && ds == Apply(m.cs, m.queue[0]) && !ds.lastPaymentRequested
    requires ds.status in ALIVE && ds.status != WaitForAcceptance && Calm(ds, Last(m.vouchers)) && 0 <= ds.fundsSpent
    ensures var eff := Handler(ds, Funded(m));
            && eff.voucher.None? && (eff.trigger.Some? ==> Triggered(eff.trigger.value))
            && (eff.trigger == Some(PaymentRequested(0)) <==> ds.status == Ongoing && ds.paymentRequested > 0)
            && (ds.status in CREATION_STATES ==> eff.trigger.Some? && Transition(ds.status, eff.trigger.value).To?)
  {
    if ds.status == SendFunds {
      FundedCreates(m, AmountToSend(ds));
      hide AmountToSend, Apply, Funded;
      if AmountToSend(ds) > ds.fundsSpent {
        assert m.vouchers[|m.vouchers| - 1] >= AmountToSend(ds);
      }
    } else if ds.status in CREATION_STATES {
      SetupHandler(ds, m);
      SetupAsksNothing(ds, m);
    } else {
      QuietHandler(ds, Funded(m));
      hide MustSend, Apply, Funded;
    }
  }

  lemma SetupAsksNothing(ds: ClientState, m: Machine)
    requires ds.status in CREATION_STATES
    ensures Handler(ds, Funded(m)).trigger != Some(PaymentRequested(0))
  {
  }

  /** One event that neither ends the deal nor makes a voucher: at most one follows it, a reminder exactly when it
      reminds, and the next stage of a set-up that moves on. */
  lemma StepShape(m: Machine) returns (trig: seq<Event>)
    requires Fit(m) && m.pending.None? && m.queue != [] && !Kills(m.cs.status, m.queue[0])
    requires !(SetsSending(m.cs.status, m.queue[0]) && Pushes(Apply(m.cs, m.queue[0]), Last(m.vouchers)))
    ensures var m', s, e := ProcessFront(m, Funded(m)), m.cs.status, m.queue[0];
            && m'.cs == Apply(m.cs, e) && m'.vouchers == m.vouchers && Coming(m') == m.queue[1..] + trig
            && AtMostOne(trig) && (trig != [] && trig[0].PaymentRequested? <==> Reminds(m.cs, e))
            && (Transition(s, e).To? && Moved(s, e) in CREATION_STATES ==> |trig| == 1 && Transition(Moved(s, e), trig[0]).To?)
            && (s in CREATION_STATES && !Transition(s, e).To? ==> trig == [])
  {
    var e, s, ds', m' := m.queue[0], m.cs.status, Apply(m.cs, m.queue[0]), ProcessFront(m, Funded(m));
    FitFacts(m);
    SoundStep(m.cs, m.vouchers, m.queue);
    SoundFacts(ds', m.vouchers, m.queue[1..]);
    EventLeads(s, e);
    EventApplied(m.cs, e);
    if Transition(s, e).Invalid? { InvalidStays(m.cs, e); }
    if RunsHandler(s, e) {
      NeverBack(s, e);
      HandlerTriggers(ds', m);
    }
    hide Fit, Sound, Apply, Handler, Transition, Kills, Ordinary, Token, Moved, Funded, AmountToSend, Pushes, Triggered;
    trig := if m'.pending.Some? then [m'.pending.value] else [];
    assert m.vouchers + [] == m.vouchers;
    TriggeredRequest(trig);
  }

  lemma NeverBack(s: Status, e: Event)
    requires s in ALIVE && RunsHandler(s, e)
    ensures Moved(s, e) != WaitForAcceptance
  {
  }

  lemma TriggeredRequest(trig: seq<Event>)
    ensures AtMostOne(trig) && trig != [] && trig[0].PaymentRequested? ==> trig[0] == PaymentRequested(0)
  {
  }

  lemma FitFacts(m: Machine)
    requires Fit(m) && m.pending.None? && m.queue != []
    ensures Coming(m) == m.queue && Sound(m.cs, m.vouchers, m.queue) && Token(m.cs, m.queue) && Rising(m.vouchers)
    ensures m.cs.status in ALIVE && !m.cs.lastPaymentRequested && (Ordinary(m.queue[0]) || m.queue[0].PaymentSent?)
    ensures m.queue[0].PaymentSent? ==> m.cs.fundsSpent <= m.queue[0].amount
  {
    hide Token, Rising, Ordinary, Books, Pushes, Last;
    assert Coming(m) == m.queue;
  }

  lemma SoundFacts(ds: ClientState, vouchers: seq<int>, es: seq<Event>)
    requires Sound(ds, vouchers, es)
    ensures ds.status in ALIVE && Calm(ds, Last(vouchers)) && 0 <= ds.fundsSpent && !ds.lastPaymentRequested
    ensures Books(ds)
  {
    hide Reports, Ordinary, Pushes, Last;
  }

  /** Such an event leaves a client that fits. */
  lemma FitStep(m: Machine)
    requires Fit(m) && m.pending.None? && m.queue != [] && !Kills(m.cs.status, m.queue[0])
    requires !(SetsSending(m.cs.status, m.queue[0]) && Pushes(Apply(m.cs, m.queue[0]), Last(m.vouchers)))
    ensures Fit(ProcessFront(m, Funded(m)))
  {
    hide Sound, Token, Rising, Funded, ProcessFront, Kills, SetsSending, Pushes, Last, Apply, Reminds, AtMostOne, Coming,
      Transition, Moved, Ordinary;
    FitFacts(m);
    var trig := StepShape(m);
    SoundStep(m.cs, m.vouchers, m.queue);
    SoundTrigger(Apply(m.cs, m.queue[0]), m.vouchers, m.queue[1..], trig);
    ProcessKeepsToken(m, Funded(m));
  }

  /** What the rest and a trigger behind it foretell. */
  lemma RestForetells(ds: ClientState, vouchers: seq<int>, reminded: bool, es: seq<Event>, trig: seq<Event>)
    requires Sound(ds, vouchers, es) && AtMostOne(trig) && (reminded ==> ds.status in PAYING)
    requires trig != [] && trig[0].PaymentRequested? <==> reminded
    ensures var j, j' := Judge(Walk(ds, Last(vouchers), reminded, es), Last(vouchers)),
                         Judge(Walk(ds, Last(vouchers), false, es + trig), Last(vouchers));
            j' == j || (j == Never && j' == Over)
  {
    var last := Last(vouchers);
    var f := Walk(ds, last, false, es);
    WalkReminded(ds, last, es);
    WalkSound(ds, vouchers, false, es);
    hide Walk, Sound, Judge, Calm, Last;
    if trig == [] {
      assert es + trig == es;
    } else {
      assert trig == [trig[0]];
      WalkExtend(ds, last, false, es, trig[0]);
      if f.Left? {
        SoundFacts(f.ds, vouchers, []);
        JudgeTrigger(f.ds, last, f.reminded, trig[0]);
      }
    }
  }

  /** Whether a set-up is stalled does not change with an event, whatever follows it. */
  lemma StallStep(s: Status, es: seq<Event>, trig: seq<Event>)
    requires s in ALIVE && es != [] && !Kills(s, es[0]) && (Ordinary(es[0]) || es[0].PaymentSent?)
    requires Transition(s, es[0]).To? && Moved(s, es[0]) in CREATION_STATES ==> |trig| == 1 && Transition(Moved(s, es[0]), trig[0]).To?
    requires s in CREATION_STATES && !Transition(s, es[0]).To? ==> trig == []
    ensures Stalled(Moved(s, es[0]), es[1..] + trig) <==> Stalled(s, es)
  {
    var es', s' := es[1..] + trig, Moved(s, es[0]);
    EventLeads(s, es[0]);
    hide Transition, Kills, Ordinary;
    if s in CREATION_STATES && !Transition(s, es[0]).To? {
      assert es' == es[1..];
      assert forall i :: 0 <= i < |es| - 1 ==> es'[i] == es[i + 1];
      if !Stalled(s, es) {
        var i :| 0 <= i < |es| && Transition(s, es[i]).To?;
        assert es'[i - 1] == es[i];
      }
    } else if s' in CREATION_STATES {
      assert es'[|es| - 1] == trig[0];
    }
  }

  /** What is foretold stays so from step to step; where no voucher is foretold, the deal may still end. */
  lemma ToldStep(m: Machine)
    requires Fit(m) && m.pending.None? && m.queue != [] && !Kills(m.cs.status, m.queue[0])
    requires !(SetsSending(m.cs.status, m.queue[0]) && Pushes(Apply(m.cs, m.queue[0]), Last(m.vouchers)))
    ensures var m' := ProcessFront(m, Funded(m));
            m'.vouchers == m.vouchers && (Told(m') == Told(m) || (Told(m) == Never && Told(m') == Over))
  {
    hide Fit, Sound, Token, Rising, Funded, ProcessFront, Kills, SetsSending, Pushes, Last, Apply, AtMostOne, Coming,
      Transition, Moved, Ordinary, Stalled, Judge;
    var e, ds', last := m.queue[0], Apply(m.cs, m.queue[0]), Last(m.vouchers);
    FitFacts(m);
    var trig := StepShape(m);
    EventApplied(m.cs, e);
    StallStep(m.cs.status, m.queue, trig);
    SoundStep(m.cs, m.vouchers, m.queue);
    RestForetells(ds', m.vouchers, Reminds(m.cs, e), m.queue[1..], trig);
    assert Walk(m.cs, last, false, m.queue) == Walk(ds', last, Reminds(m.cs, e), m.queue[1..]);
  }

  /** An event that sets sending in when a voucher is to be made makes it. */
  lemma PushStep(m: Machine)
    requires Fit(m) && m.pending.None? && m.queue != []
    requires SetsSending(m.cs.status, m.queue[0]) && Pushes(Apply(m.cs, m.queue[0]), Last(m.vouchers))
    ensures Told(m) == Paid(AmountToSend(Apply(m.cs, m.queue[0])))
    ensures ProcessFront(m, Funded(m)).vouchers == m.vouchers + [AmountToSend(Apply(m.cs, m.queue[0]))]
  {
    FitFacts(m);
    SendingApplied(m.cs);
    var v := AmountToSend(Apply(m.cs, m.queue[0]));
    FundedCreates(m, v);
    SendingSpares(m.cs.status, m.queue[0]);
    forall i | 0 <= i < |m.vouchers| ensures m.vouchers[i] < v {
      assert i < |m.vouchers| - 1 ==> m.vouchers[i] < m.vouchers[|m.vouchers| - 1];
    }
    hide Fit, Sound, Token, Rising, Funded, AmountToSend, Apply, Transition, Kills;
  }

  lemma SendingSpares(s: Status, e: Event)
    requires SetsSending(s, e)
    ensures !Kills(s, e) && s !in CREATION_STATES && Moved(s, e) == SendFunds
  {
  }

  // ---------- No voucher ----------

  /** No voucher is ever made again. */
  ghost predicate NeverPays(m: Machine) {
    forall n: nat :: Iterate(Alone, m, n).vouchers == m.vouchers
  }

  /** The deal is over, or no voucher is foretold. */
  ghost predicate Barren(m: Machine) {
    m.cs.status in DEAD || (Fit(m) && !Told(m).Paid?)
  }

  lemma BarrenStep(m: Machine)
    requires Barren(m)
    ensures Barren(Alone(m)) && Alone(m).vouchers == m.vouchers
  {
    hide Fit, Foretold, Funded, ProcessFront, Kills, SetsSending, Pushes, Apply, Last;
    if m.cs.status in DEAD {
      DeadStep(m);
    } else if m.pending.Some? {
      SettlesFit(m);
    } else if m.queue != [] {
      if Kills(m.cs.status, m.queue[0]) {
        DeadStep(m);
      } else if SetsSending(m.cs.status, m.queue[0]) && Pushes(Apply(m.cs, m.queue[0]), Last(m.vouchers)) {
        PushStep(m);
      } else {
        FitStep(m);
        ToldStep(m);
      }
    }
  }

  lemma SettlesFit(m: Machine)
    requires m.pending.Some?
    ensures var m' := Alone(m); m'.cs == m.cs && m'.vouchers == m.vouchers && Coming(m') == Coming(m) && m'.pending.None?
    ensures Fit(Alone(m)) == Fit(m) && Told(Alone(m)) == Told(m)
  {
    assert Coming(Alone(m)) == Coming(m);
    hide Sound, Token, Rising, Foretold, Last;
  }

  lemma {:induction false} BarrenForever(m: Machine, n: nat)
    requires Barren(m)
    ensures Iterate(Alone, m, n).vouchers == m.vouchers
    decreases n
  {
    hide Alone, Barren;
    if n > 0 {
      BarrenStep(m);
      BarrenForever(Alone(m), n - 1);
    }
  }

  lemma BarrenNeverPays(m: Machine)
    requires Barren(m)
    ensures NeverPays(m)
  {
    hide Alone, Barren, Iterate;
    forall n: nat ensures Iterate(Alone, m, n).vouchers == m.vouchers { BarrenForever(m, n); }
  }

  // ---------- The deal's end ----------

  /** Number of events before the one that ends the deal. */
  function EndsAt(ds: ClientState, es: seq<Event>): nat
    decreases |es|
  {
    if es == [] || Kills(ds.status, es[0]) then 0 else 1 + EndsAt(Apply(ds, es[0]), es[1..])
  }

  lemma {:induction false} EndsAtExtend(ds: ClientState, last: int, reminded: bool, es: seq<Event>, more: seq<Event>)
    requires Walk(ds, last, reminded, es) == Ends
    ensures EndsAt(ds, es + more) == EndsAt(ds, es)
    decreases |es|
  {
    hide Kills, Apply, SetsSending, Pushes, Reminds;
    assert (es + more)[0] == es[0] && (es + more)[1..] == es[1..] + more;
    if !Kills(ds.status, es[0]) {
      EndsAtExtend(Apply(ds, es[0]), last, reminded || Reminds(ds, es[0]), es[1..], more);
    }
  }

  lemma CloserToEnd(m: Machine)
    requires Fit(m) && Told(m) == Over && m.pending.None? && m.queue != [] && !Kills(m.cs.status, m.queue[0])
    requires !(SetsSending(m.cs.status, m.queue[0]) && Pushes(Apply(m.cs, m.queue[0]), Last(m.vouchers)))
    ensures var m' := ProcessFront(m, Funded(m)); EndsAt(m'.cs, Coming(m')) < EndsAt(m.cs, Coming(m))
  {
    FitFacts(m);
    hide Fit, Sound, Token, Rising, Funded, ProcessFront, Kills, SetsSending, Pushes, Last, Apply, AtMostOne, Coming,
      Transition, Moved, Ordinary, Stalled, Reminds;
    var trig := StepShape(m);
    EndsAtExtend(Apply(m.cs, m.queue[0]), Last(m.vouchers), Reminds(m.cs, m.queue[0]), m.queue[1..], trig);
  }

  lemma {:induction false} OverDies(m: Machine)
    requires Fit(m) && Told(m) == Over
    ensures Dies(m)
    decreases EndsAt(m.cs, Coming(m)), if m.pending.Some? then 1 else 0
  {
    hide Fit, Foretold, Funded, ProcessFront, Kills, SetsSending, Pushes, Apply, Last, EndsAt, Dies;
    if m.pending.Some? {
      SettlesFit(m);
      OverDies(Alone(m));
    } else {
      OverComes(m);
      assert Alone(m) == ProcessFront(m, Funded(m));
      if Kills(m.cs.status, m.queue[0]) {
        DeadStep(m);
        DeadDies(Alone(m));
      } else {
        if SetsSending(m.cs.status, m.queue[0]) && Pushes(Apply(m.cs, m.queue[0]), Last(m.vouchers)) { PushStep(m); }
        FitStep(m);
        ToldStep(m);
        CloserToEnd(m);
        OverDies(Alone(m));
      }
    }
    DiesLater(m);
  }

  lemma OverComes(m: Machine)
    requires Told(m) == Over && m.pending.None?
    ensures m.queue != []
  {
    hide Stalled, Pushes;
  }

  // ---------- The next voucher ----------

  /** Number of events up to the last that tells about bytes or payments. */
  function LastTold(es: seq<Event>): nat {
    if es == [] then 0
    else
      var n := LastTold(es[1..]);
      if n > 0 then n + 1 else if Tells(es[0]) then 1 else 0
  }

  lemma {:induction false} LastToldExtend(es: seq<Event>, trig: seq<Event>)
    requires forall i :: 0 <= i < |trig| ==> !Tells(trig[i])
    ensures LastTold(es + trig) == LastTold(es)
    decreases |es|, |trig|
  {
    hide Tells;
    if es != [] {
      assert (es + trig)[0] == es[0] && (es + trig)[1..] == es[1..] + trig;
      LastToldExtend(es[1..], trig);
    } else if trig != [] {
      assert es + trig == trig && [] + trig[1..] == trig[1..];
      LastToldExtend([], trig[1..]);
    }
  }

  lemma {:induction false} NothingTold(es: seq<Event>)
    requires LastTold(es) == 0
    ensures forall i :: 0 <= i < |es| ==> !Tells(es[i])
  {
    hide Tells;
    if es != [] {
      NothingTold(es[1..]);
      assert forall i :: 1 <= i < |es| ==> es[i] == es[1..][i - 1];
    }
  }

  lemma TriggersTellNothing(trig: seq<Event>)
    requires AtMostOne(trig)
    ensures forall i :: 0 <= i < |trig| ==> !Tells(trig[i])
  {
    TriggeredIsOrdinary(trig);
  }

  predicate Stirs(s: Status, e: Event) { Moved(s, e) != s }

  predicate HasStir(s: Status, es: seq<Event>) { exists i :: 0 <= i < |es| && Stirs(s, es[i]) }

  /** Number of events before the first that moves the deal to another status. */
  function StirAt(s: Status, es: seq<Event>): nat {
    if es == [] || Stirs(s, es[0]) then 0 else 1 + StirAt(s, es[1..])
  }

  lemma {:induction false} StirAtExtend(s: Status, es: seq<Event>, more: seq<Event>)
    requires HasStir(s, es)
    ensures StirAt(s, es + more) == StirAt(s, es)
  {
    hide Stirs;
    if !Stirs(s, es[0]) {
      assert (es + more)[1..] == es[1..] + more;
      TailHasStir(s, es);
      StirAtExtend(s, es[1..], more);
    }
  }

  lemma TailHasStir(s: Status, es: seq<Event>)
    requires HasStir(s, es) && !Stirs(s, es[0])
    ensures HasStir(s, es[1..])
  {
    hide Stirs;
    var i :| 0 <= i < |es| && Stirs(s, es[i]);
    assert Stirs(s, es[1..][i - 1]);
  }

  /** Nothing told of bytes and payments, whether a voucher is to be made stays the same. */
  lemma {:induction false} PushesStays(ds: ClientState, last: int, reminded: bool, es: seq<Event>)
    requires forall i :: 0 <= i < |es| ==> Ordinary(es[i]) && !Tells(es[i])
    ensures Judge(Walk(ds, last, reminded, es), last).Paid? ==> Pushes(ds, last)
    decreases |es|
  {
    if es != [] {
      EventApplied(ds, es[0]);
      hide Kills, Apply, SetsSending, Reminds, AmountToSend, Ordinary, Tells, Goes, Moved;
      assert forall i :: 0 <= i < |es| - 1 ==> es[1..][i] == es[i + 1];
      PushesStays(Apply(ds, es[0]), last, reminded || Reminds(ds, es[0]), es[1..]);
    }
  }

  /** Without an event that moves it on, a deal stays as it is. */
  lemma {:induction false} NoStirNoGo(ds: ClientState, last: int, es: seq<Event>)
    requires ds.status in ALIVE && !HasStir(ds.status, es)
    requires forall i :: 0 <= i < |es| ==> Ordinary(es[i]) && !Tells(es[i])
    ensures var f := Walk(ds, last, false, es);
            f.Left? && f.ds.status == ds.status && !f.reminded
    decreases |es|
  {
    if es != [] {
      var e := es[0];
      assert !Stirs(ds.status, e);
      EventApplied(ds, e);
      AliveUnstirred(ds.status, e);
      EventLeads(ds.status, e);
      hide Transition, Apply, Ordinary, Tells, Pushes;
      assert forall i :: 0 <= i < |es| - 1 ==> es[1..][i] == es[i + 1];
      assert !HasStir(ds.status, es[1..]);
      NoStirNoGo(Apply(ds, e), last, es[1..]);
    }
  }

  lemma AliveUnstirred(s: Status, e: Event)
    requires s in ALIVE && !Stirs(s, e)
    ensures !Kills(s, e) && !SetsSending(s, e) && (Transition(s, e).To? ==> s == FundsNeeded)
  {
    hide Transition;
    if s in CREATION_STATES { SetupNeverStays(s, e); } else { PayingStays(s, e); }
    if SetsSending(s, e) { SendingSpares(s, e); }
  }

  lemma PayingStays(s: Status, e: Event)
    requires s in PAYING
    ensures Transition(s, e).To? && Transition(s, e).status == s ==> s == FundsNeeded
  {
  }

  lemma SetupNeverStays(s: Status, e: Event)
    requires s in CREATION_STATES
    ensures Transition(s, e).To? ==> Transition(s, e).status != s
  {
  }

  /** Where a voucher is foretold and nothing told any more, an event leads on, and sending has not set in. */
  lemma PaidStirs(m: Machine)
    requires Fit(m) && Told(m).Paid? && LastTold(Coming(m)) == 0
    ensures HasStir(m.cs.status, Coming(m)) && Pushes(m.cs, Last(m.vouchers)) && m.cs.status != SendFunds
  {
    var es, last := Coming(m), Last(m.vouchers);
    NothingTold(es);
    assert forall i :: 0 <= i < |es| ==> Ordinary(es[i]) && !Tells(es[i]) by { FitOrdinary(m); }
    PushesStays(m.cs, last, false, es);
    SoundFacts(m.cs, m.vouchers, es);
    assert !Stalled(m.cs.status, es) && !m.cs.allBlocksReceived && Token(m.cs, es);
    PushesMustSend(m.cs, last);
    hide Sound, Walk, Pushes, Ordinary, Tells, MustSend, Books, Stalled, HasStir;
    if m.cs.status == FundsNeeded {
      SendingStirs(es);
    } else if m.cs.status in CREATION_STATES {
      NotStalledStirs(m.cs.status, es);
    } else if !HasStir(m.cs.status, es) {
      NoStirNoGo(m.cs, last, es);
    }
  }

  lemma SendingStirs(es: seq<Event>)
    requires SendFundsNow in es
    ensures HasStir(FundsNeeded, es)
  {
    var i :| 0 <= i < |es| && es[i] == SendFundsNow;
    assert Stirs(FundsNeeded, es[i]);
  }

  lemma FitOrdinary(m: Machine)
    requires Fit(m)
    ensures forall i :: 0 <= i < |Coming(m)| ==> Ordinary(Coming(m)[i]) || Coming(m)[i].PaymentSent?
  {
    hide Ordinary, Token, Books, Reports, Rising, Calm, Last;
  }

  lemma NotStalledStirs(s: Status, es: seq<Event>)
    requires s in CREATION_STATES && !Stalled(s, es)
    ensures HasStir(s, es)
  {
    hide Transition;
    var i :| 0 <= i < |es| && Transition(s, es[i]).To?;
    SetupNeverStays(s, es[i]);
    assert Stirs(s, es[i]);
  }

  /** With the books kept, a voucher to be made is one that the client decides to send. */
  lemma PushesMustSend(ds: ClientState, last: int)
    requires Books(ds) && Pushes(ds, last) && !ds.allBlocksReceived
    ensures MustSend(ds)
  {
    if !MustSend(ds) {
      var price, u := ds.params.pricePerByte, ds.params.unsealPrice;
      assert ds.fundsSpent >= u;
      QuotientCompares(ds.fundsSpent - u, price, ds.currentInterval);
    }
  }

  function Stage(s: Status): nat {
    match s
    case FundsNeeded => 0
    case Ongoing => 1
    case _ => 2 + Rank(s)
  }

  /** Every event that makes no voucher brings the foretold one closer. */
  lemma CloserToPaying(m: Machine)
    requires Fit(m) && Told(m).Paid? && m.pending.None? && m.queue != [] && !Kills(m.cs.status, m.queue[0])
    requires !(SetsSending(m.cs.status, m.queue[0]) && Pushes(Apply(m.cs, m.queue[0]), Last(m.vouchers)))
    ensures var m' := ProcessFront(m, Funded(m));
            var n, n', s, s' := LastTold(Coming(m)), LastTold(Coming(m')), m.cs.status, m'.cs.status;
            || n' < n
            || (n' == n == 0 && (Stage(s') < Stage(s) || (s' == s && StirAt(s, Coming(m')) < StirAt(s, Coming(m)))))
  {
    var s, e, m' := m.cs.status, m.queue[0], ProcessFront(m, Funded(m));
    FitFacts(m);
    var trig := StepShape(m);
    TriggersTellNothing(trig);
    LastToldExtend(m.queue[1..], trig);
    if LastTold(m.queue) == 0 {
      PaidStirs(m);
      NothingTold(m.queue);
      UntoldLeads(m);
      hide Fit, Sound, Token, Rising, Funded, ProcessFront, Kills, SetsSending, Pushes, Last, Apply, AtMostOne, Foretold,
        Transition, Ordinary, Tells, Reminds, Stage;
      if m'.cs.status == s {
        TailHasStir(s, m.queue);
        StirAtExtend(s, m.queue[1..], trig);
      }
    }
  }

  lemma UntoldLeads(m: Machine)
    requires Fit(m) && m.pending.None? && m.queue != [] && !Kills(m.cs.status, m.queue[0]) && !Tells(m.queue[0])
    requires Pushes(m.cs, Last(m.vouchers)) && m.cs.status != SendFunds
    requires !(SetsSending(m.cs.status, m.queue[0]) && Pushes(Apply(m.cs, m.queue[0]), Last(m.vouchers)))
    ensures var s, s' := m.cs.status, Apply(m.cs, m.queue[0]).status;
            s' == Moved(s, m.queue[0]) && (s' != s ==> Stage(s') < Stage(s))
  {
    var s, e := m.cs.status, m.queue[0];
    FitFacts(m);
    EventApplied(m.cs, e);
    EventLeads(s, e);
    if s in CREATION_STATES { SetupLeads(s, e); }
    hide Fit, Sound, Token, Rising, Kills, Last, Apply, Transition, Ordinary, Funded;
  }

  /** A client for which a voucher is foretold makes it. */
  lemma {:induction false} PaidPays(m: Machine)
    requires Fit(m) && Told(m).Paid?
    ensures Pays(m, Told(m).v)
    decreases LastTold(Coming(m)), if LastTold(Coming(m)) > 0 then 0 else Stage(m.cs.status),
              if LastTold(Coming(m)) > 0 then 0 else StirAt(m.cs.status, Coming(m)), if m.pending.Some? then 1 else 0
  {
    hide Fit, Foretold, Funded, ProcessFront, Kills, SetsSending, Pushes, Apply, Last, Pays, LastTold, Stage, StirAt, AmountToSend;
    if m.pending.Some? {
      SettlesFit(m);
      PaidPays(Alone(m));
      PaysLater(m, Told(m).v);
    } else {
      PaidComes(m);
      assert Alone(m) == ProcessFront(m, Funded(m));
      if SetsSending(m.cs.status, m.queue[0]) && Pushes(Apply(m.cs, m.queue[0]), Last(m.vouchers)) {
        PushStep(m);
        PaysNow(m, Told(m).v);
      } else {
        FitStep(m);
        ToldStep(m);
        CloserToPaying(m);
        PaidPays(Alone(m));
        PaysLater(m, Told(m).v);
      }
    }
  }

  lemma PaysNow(m: Machine, v: int)
    requires Alone(m).vouchers == m.vouchers + [v]
    ensures Pays(m, v)
  {
    hide Alone;
    assert Iterate(Alone, m, 1) == Alone(m);
  }

  lemma PaidComes(m: Machine)
    requires Fit(m) && Told(m).Paid? && m.pending.None?
    ensures m.queue != [] && !Kills(m.cs.status, m.queue[0])
  {
    if m.queue == [] {
      assert Coming(m) == [];
      PaidStirs(m);
    } else {
      assert Coming(m) == m.queue;
    }
  }

  /** With nothing more arriving, the client makes the voucher foretold; or, the deal's end foretold, it ends
      without one; or no voucher is made however long it goes on. */
  lemma FateDecides(m: Machine)
    requires Fit(m)
    ensures match Told(m)
            case Paid(v) => Pays(m, v)
            case Over => Dies(m)
            case Never => NeverPays(m)
  {
    hide Fit, Foretold, Pays, Dies, NeverPays;
    match Told(m)
    case Paid(_) => PaidPays(m);
    case Over => OverDies(m);
    case Never => BarrenNeverPays(m);
  }

  /** A voucher foretold is for more than the last one. */
  lemma {:induction false} MakesMore(ds: ClientState, last: int, reminded: bool, es: seq<Event>)
    ensures var f := Walk(ds, last, reminded, es); f.Makes? ==> last < f.v
    decreases |es|
  {
    hide Kills, Apply, SetsSending, Reminds, AmountToSend;
    if es != [] { MakesMore(Apply(ds, es[0]), last, reminded || Reminds(ds, es[0]), es[1..]); }
  }

  lemma PaidMore(m: Machine)
    ensures Told(m).Paid? ==> Last(m.vouchers) < Told(m).v
  {
    hide Walk, Stalled, Goes, Last;
    MakesMore(m.cs, Last(m.vouchers), false, Coming(m));
  }

  lemma AloneGrows(m: Machine)
    ensures m.vouchers <= Alone(m).vouchers
  {
    hide Transition, Apply, Handler, RunsHandler, Funded;
  }

  lemma {:induction false} VouchersGrow(m: Machine, n: nat)
    ensures m.vouchers <= Iterate(Alone, m, n).vouchers
    decreases n
  {
    hide Alone;
    if n > 0 {
      AloneGrows(m);
      VouchersGrow(Alone(m), n - 1);
    }
  }

  /** The next voucher is the same whenever one looks. */
  lemma NextVoucherIsOne(m: Machine, a: nat, v: int, b: nat, w: int)
    requires Iterate(Alone, m, a).vouchers == m.vouchers + [v] && Iterate(Alone, m, b).vouchers == m.vouchers + [w]
    ensures v == w
  {
    hide Alone, Iterate;
    var lo, hi := if a <= b then a else b, if a <= b then b else a;
    IterateCompose(Alone, m, lo, hi - lo);
    VouchersGrow(Iterate(Alone, m, lo), hi - lo);
    assert (m.vouchers + [v])[|m.vouchers|] == v && (m.vouchers + [w])[|m.vouchers|] == w;
  }
}
