/** Whole sessions of the offer worker (exchange/tx.go:849-1052). */
module SessionRuns {
  import opened Options
  import opened Runs
  import opened Session

  /** Where the waiting offers came from once an execution has begun: pushed in front since, left over from
      the sorted collection, and pushed back since. */
  datatype Parts = Parts(fronts: seq<Offer>, ordered: seq<Offer>, late: seq<Offer>)

  function Joined(p: Parts): seq<Offer> {
    p.fronts + p.ordered + p.late
  }

  /** The worker beside its history. */
  datatype Machine = Machine(w: Worker, received: seq<Offer>, ignored: seq<Offer>, executed: seq<Offer>,
                             outcomes: seq<bool>, reports: seq<bool>, parts: Parts)

  function Popped(p: Parts): Parts {
    if p.fronts != [] then p.(fronts := p.fronts[1..])
    else if p.ordered != [] then p.(ordered := p.ordered[1..])
    else if p.late != [] then p.(late := p.late[1..])
    else p
  }

  function PartsNext(w: Worker, p: Parts, a: Act): Parts {
    match a
    case Closing => p
    case Back(of, sorted) =>
      if Ignores(w.cfg, of) then p
      else if w.started then p.(late := p.late + [of])
      else if !Immediate(w.cfg) && Enough(w) && sorted != [] then p.(ordered := sorted[1..])
      else p
    case Front(of) => if w.started then p.(fronts := [of] + p.fronts) else p.(late := w.q)
    case Delay(sorted) => if !w.started && sorted != [] then p.(ordered := sorted[1..]) else p
    case Result(failed) => if failed && w.q != [] then Popped(p) else p
  }

  function Listed<T>(o: Option<T>): seq<T> {
    if o.Some? then [o.value] else []
  }

  function Arrives(a: Act): seq<Offer> {
    if a.Back? || a.Front? then [a.of] else []
  }

  function Dismissed(w: Worker, a: Act): seq<Offer> {
    if a.Back? && Ignores(w.cfg, a.of) then [a.of] else []
  }

  predicate Can(m: Machine, a: Act) {
    Enabled(m.w, a)
  }

  function Step(m: Machine, a: Act): Machine {
    Machine(Next(m.w, a), m.received + Arrives(a), m.ignored + Dismissed(m.w, a),
            m.executed + Listed(Starts(m.w, a)), if a.Result? then m.outcomes + [a.failed] else m.outcomes,
            m.reports + Listed(Finishes(m.w, a)), PartsNext(m.w, m.parts, a))
  }

  function Init(cfg: Config): Machine {
    Machine(Begin(cfg), [], [], [], [], [], Parts([], [], []))
  }

  // ---------- What every turn keeps ----------

  /** Every offer received was ignored, was executed once, or is waiting. */
  ghost predicate Conserved(m: Machine) {
    multiset(m.received) == multiset(m.ignored) + multiset(m.executed) + multiset(m.w.q)
  }

  /** One execution at a time: all executed offers but the one running have their outcome. */
  ghost predicate OneAtATime(m: Machine) {
    && (m.w.started <==> m.executed != [])
    && (m.w.running.Some? ==> m.executed != [] && m.w.running.value == m.executed[|m.executed| - 1])
    && |m.executed| == |m.outcomes| + if m.w.running.Some? then 1 else 0
  }

  /** The session is reported once, with the last outcome, after which nothing runs; every outcome before
      it was a failure. */
  ghost predicate ReportedOnce(m: Machine) {
    && (m.w.running.Some? || !m.w.started ==> m.reports == [] && forall i :: 0 <= i < |m.outcomes| ==> m.outcomes[i])
    && (m.w.running.None? && m.w.started ==> m.outcomes != [] && m.reports == [m.outcomes[|m.outcomes| - 1]])
    && (forall i :: 0 <= i < |m.outcomes| - 1 ==> m.outcomes[i])
  }

  /** Before the first execution, fewer offers wait than the threshold, and none without thresholds. */
  ghost predicate Collecting(m: Machine) {
    !m.w.started ==> (Immediate(m.w.cfg) ==> m.w.q == []) && (m.w.cfg.num > 0 ==> |m.w.q| < m.w.cfg.num)
  }

  /** The queue: what was pushed in front, the rest of the sorted collection, what was pushed back. */
  ghost predicate InParts(m: Machine) {
    && Sorted(m.parts.ordered)
    && if m.w.started then m.w.q == Joined(m.parts) else m.parts == Parts([], [], [])
  }

  ghost predicate Sound(m: Machine) {
    Conserved(m) && OneAtATime(m) && ReportedOnce(m) && Collecting(m) && InParts(m)
  }

  lemma SortedTail(q: seq<Offer>, sorted: seq<Offer>)
    requires Sorts(q, sorted) && q != []
    ensures multiset(q) == multiset{sorted[0]} + multiset(sorted[1..]) && Sorted(sorted[1..])
  {
    assert sorted == [sorted[0]] + sorted[1..];
  }

  /** A turn moves offers: those that wait and arrive are those dismissed, set off and left waiting. */
  ghost predicate Moves(w: Worker, a: Act) {
    multiset(w.q) + multiset(Arrives(a)) == multiset(Dismissed(w, a)) + multiset(Listed(Starts(w, a))) + multiset(Queue(w, a))
  }

  lemma BackMoves(w: Worker, a: Act)
    requires Enabled(w, a) && a.Back?
    ensures Moves(w, a)
  {
    hide Sorts;
    if !Ignores(w.cfg, a.of) && !(Immediate(w.cfg) && !w.started) && Enough(w) {
      SortedTail(w.q + [a.of], a.sorted);
      assert a.sorted != [] by { SortsAll(w.q + [a.of], a.sorted); }
    }
  }

  lemma DelayMoves(w: Worker, a: Act)
    requires Enabled(w, a) && a.Delay?
    ensures Moves(w, a)
  {
    hide Sorts;
    if !w.started {
      SortsAll(w.q, a.sorted);
      if w.q != [] { SortedTail(w.q, a.sorted); }
    }
  }

  lemma ResultMoves(w: Worker, a: Act)
    requires a.Result?
    ensures Moves(w, a)
  {
    if w.q != [] { assert w.q == [w.q[0]] + w.q[1..]; }
  }

  lemma TurnMoves(w: Worker, a: Act)
    requires Enabled(w, a)
    ensures Moves(w, a)
  {
    match a
    case Closing =>
    case Back(of, sorted) => BackMoves(w, a);
    case Front(of) =>
    case Delay(sorted) => DelayMoves(w, a);
    case Result(failed) => ResultMoves(w, a);
  }

  lemma AddUp(received: seq<Offer>, ignored: seq<Offer>, executed: seq<Offer>, q: seq<Offer>,
              arrives: seq<Offer>, dismissed: seq<Offer>, started: seq<Offer>, q': seq<Offer>)
    requires multiset(received) == multiset(ignored) + multiset(executed) + multiset(q)
    requires multiset(q) + multiset(arrives) == multiset(dismissed) + multiset(started) + multiset(q')
    ensures multiset(received + arrives) == multiset(ignored + dismissed) + multiset(executed + started) + multiset(q')
  {
    var r, i, e, q0, a, d, s, q1 := multiset(received), multiset(ignored), multiset(executed), multiset(q),
        multiset(arrives), multiset(dismissed), multiset(started), multiset(q');
    assert r + a == i + d + (e + s) + q1 by {
      forall x: Offer ensures (r + a)[x] == (i + d + (e + s) + q1)[x] {
        assert (q0 + a)[x] == (d + s + q1)[x];
      }
    }
  }

  lemma StepConserves(m: Machine, a: Act)
    requires Conserved(m) && Can(m, a)
    ensures Conserved(Step(m, a))
  {
    TurnMoves(m.w, a);
    hide Starts, Queue, Dismissed, Enabled, Listed, Arrives;
    AddUp(m.received, m.ignored, m.executed, m.w.q,
          Arrives(a), Dismissed(m.w, a), Listed(Starts(m.w, a)), Queue(m.w, a));
  }

  lemma StepKeepsOne(m: Machine, a: Act)
    requires OneAtATime(m) && Can(m, a)
    ensures OneAtATime(Step(m, a))
  {
    hide Sorts;
  }

  lemma StepKeepsReport(m: Machine, a: Act)
    requires OneAtATime(m) && ReportedOnce(m) && Can(m, a)
    ensures ReportedOnce(Step(m, a))
  {
    hide Sorts;
  }

  lemma StepKeepsCollecting(m: Machine, a: Act)
    requires Collecting(m) && Can(m, a)
    ensures Collecting(Step(m, a))
  {
  }

  lemma BackKeepsParts(m: Machine, a: Act)
    requires InParts(m) && Collecting(m) && Can(m, a) && a.Back?
    ensures InParts(Step(m, a))
  {
    hide Sorts, Sorted;
    if m.w.started {
      assert m.w.q + [a.of] == m.parts.fronts + m.parts.ordered + (m.parts.late + [a.of]);
    } else if !Ignores(m.w.cfg, a.of) && Enough(m.w) {
      SortedTail(m.w.q + [a.of], a.sorted);
    }
  }

  lemma FrontKeepsParts(m: Machine, a: Act)
    requires InParts(m) && a.Front?
    ensures InParts(Step(m, a))
  {
    hide Sorted, Sorts, Ignores, Enough;
    FrontJoins(a.of, m.parts.fronts, m.parts.ordered, m.parts.late);
  }

  lemma FrontJoins(of: Offer, fronts: seq<Offer>, ordered: seq<Offer>, late: seq<Offer>)
    ensures [of] + (fronts + ordered + late) == ([of] + fronts) + ordered + late
  {
  }

  lemma DelayKeepsParts(m: Machine, a: Act)
    requires InParts(m) && Can(m, a) && a.Delay?
    ensures InParts(Step(m, a))
  {
    hide Sorts, Sorted;
    if !m.w.started {
      SortsAll(m.w.q, a.sorted);
      if m.w.q != [] { SortedTail(m.w.q, a.sorted); }
    }
  }

  lemma TailSorted(s: seq<Offer>)
    requires Sorted(s) && s != []
    ensures Sorted(s[1..])
  {
  }

  lemma PopKeeps(p: Parts)
    requires Joined(p) != [] && Sorted(p.ordered)
    ensures Joined(Popped(p)) == Joined(p)[1..] && Sorted(Popped(p).ordered)
  {
    hide Sorted;
    if p.fronts == [] && p.ordered != [] { TailSorted(p.ordered); }
  }

  lemma ResultKeepsParts(m: Machine, a: Act)
    requires InParts(m) && m.w.started && a.Result?
    ensures InParts(Step(m, a))
  {
    hide Sorted, Popped;
    if Joined(m.parts) != [] { PopKeeps(m.parts); }
  }

  lemma StepKeepsParts(m: Machine, a: Act)
    requires InParts(m) && Collecting(m) && OneAtATime(m) && Can(m, a)
    ensures InParts(Step(m, a))
  {
    match a
    case Closing =>
    case Back(of, sorted) => BackKeepsParts(m, a);
    case Front(of) => FrontKeepsParts(m, a);
    case Delay(sorted) => DelayKeepsParts(m, a);
    case Result(failed) => ResultKeepsParts(m, a);
  }

  lemma StepKeepsSound(m: Machine, a: Act)
    requires Sound(m) && Can(m, a)
    ensures Sound(Step(m, a))
  {
    hide Conserved, OneAtATime, ReportedOnce, Collecting, InParts, Step, Can;
    StepConserves(m, a);
    StepKeepsOne(m, a);
    StepKeepsReport(m, a);
    StepKeepsCollecting(m, a);
    StepKeepsParts(m, a);
  }

  /** Over every session: no offer is lost or run twice, one runs at a time, the end is reported once. */
  lemma SessionStaysSound(cfg: Config, acts: seq<Act>)
    requires Exec(Init(cfg), Can, Step, acts).Some?
    ensures Sound(Exec(Init(cfg), Can, Step, acts).value)
  {
    hide Sound, Can, Step, Init;
    InitSound(cfg);
    forall m, a | Sound(m) && Can(m, a) ensures Sound(Step(m, a)) {
      StepKeepsSound(m, a);
    }
    Invariance(Init(cfg), Can, Step, Sound, acts);
  }

  lemma InitSound(cfg: Config)
    ensures Sound(Init(cfg))
  {
  }

  // ---------- The end of a session ----------

  ghost predicate Over(m: Machine, executed: seq<Offer>, reports: seq<bool>) {
    Sound(m) && m.reports != [] && m.executed == executed && m.reports == reports
  }

  lemma StepKeepsOver(m: Machine, a: Act)
    requires Sound(m) && m.reports != [] && Can(m, a)
    ensures Step(m, a).executed == m.executed && Step(m, a).reports == m.reports
  {
    hide Sorts, Conserved, InParts;
  }

  /** Once the end is reported, nothing is executed or reported any more, whatever arrives. */
  lemma FinishIsFinal(m: Machine, acts: seq<Act>)
    requires Sound(m) && m.reports != [] && Exec(m, Can, Step, acts).Some?
    ensures var end := Exec(m, Can, Step, acts).value; end.executed == m.executed && end.reports == m.reports
  {
    var inv := s => Over(s, m.executed, m.reports);
    hide Sound, Can, Step;
    forall s, a | inv(s) && Can(s, a) ensures inv(Step(s, a)) {
      StepKeepsOver(s, a);
      StepKeepsSound(s, a);
    }
    Invariance(m, Can, Step, inv, acts);
  }

  /** A session that is closed takes nothing any more: closing is its last turn. */
  lemma {:induction false} ClosingIsLast(cfg: Config, acts: seq<Act>, i: nat)
    requires Exec(Init(cfg), Can, Step, acts).Some? && i < |acts| && acts[i].Closing?
    ensures i == |acts| - 1 && !Exec(Init(cfg), Can, Step, acts).value.w.open
  {
    var init, a := acts[..|acts| - 1], acts[|acts| - 1];
    var m := Exec(Init(cfg), Can, Step, init).value;
    if i < |init| {
      assert init[i] == acts[i];
      ClosingIsLast(cfg, init, i);
      ClosedTakesNothing(m, a);
    }
  }

  lemma ClosedTakesNothing(m: Machine, a: Act)
    ensures !m.w.open ==> !Can(m, a)
  {
  }

  /** A failure is reported only when every offer that was kept has been executed and has failed. */
  lemma FailureMeansExhausted(m: Machine, a: Act)
    requires Sound(m) && Can(m, a) && Finishes(m.w, a) == Some(true)
    ensures var m' := Step(m, a);
            && multiset(m'.received) == multiset(m'.ignored) + multiset(m'.executed)
            && |m'.outcomes| == |m'.executed| && forall i :: 0 <= i < |m'.outcomes| ==> m'.outcomes[i]
  {
    LastFails(m, a);
    hide Step, Can, InParts, Collecting, Finishes;
    assert Conserved(m) && OneAtATime(m) && ReportedOnce(m);
  }

  /** The last failure leaves nothing waiting, and is one more outcome. */
  lemma LastFails(m: Machine, a: Act)
    requires Can(m, a) && Finishes(m.w, a) == Some(true)
    ensures m.w.q == [] && m.w.running.Some?
    ensures var m' := Step(m, a);
            m'.received == m.received && m'.ignored == m.ignored && m'.executed == m.executed && m'.outcomes == m.outcomes + [true]
  {
  }

  /** The timer finds nothing to execute, and the loop crashes, exactly when every offer so far was ignored. */
  lemma TimerCrashesExactly(m: Machine, a: Act)
    requires Sound(m) && Can(m, a) && a.Delay?
    ensures Crashes(m.w, a) <==> multiset(m.received) == multiset(m.ignored)
  {
    if multiset(m.received) == multiset(m.ignored) {
      assert |multiset(m.executed) + multiset(m.w.q)| == 0 by {
        assert |multiset(m.received)| == |multiset(m.ignored)| + |multiset(m.executed) + multiset(m.w.q)|;
      }
    }
  }

  /** A session that crashes: any number of offers asked for, a timer, and offers below the ceiling only. */
  lemma TimerCrashes(num: int, time: nat, ceiling: int, of: Offer) returns (m: Machine)
    requires ceiling != -1 && of.price < ceiling
    ensures Exec(Init(Config(num, time, ceiling)), Can, Step, [Back(of, [])]) == Some(m)
    ensures Can(m, Delay([])) && Crashes(m.w, Delay([])) && !Step(m, Delay([])).w.open
  {
    var start := Init(Config(num, time, ceiling));
    m := Step(start, Back(of, []));
    OfferIgnored(start, of);
    TimerFinds(m);
    hide *;
    NoActs(start);
    ExecExtend(start, Can, Step, [], Back(of, []));
    assert [] + [Back(of, [])] == [Back(of, [])];
  }

  lemma NoActs(m: Machine)
    ensures Exec(m, Can, Step, []) == Some(m)
  {
  }

  /** An offer below the ceiling leaves the worker as it was. */
  lemma OfferIgnored(m: Machine, of: Offer)
    requires m.w.open && m.w.cfg.ceiling != -1 && of.price < m.w.cfg.ceiling
    ensures Can(m, Back(of, [])) && Step(m, Back(of, [])).w == m.w
  {
  }

  lemma TimerFinds(m: Machine)
    requires m.w.open && m.w.armed && !m.w.started && m.w.q == []
    ensures Can(m, Delay([])) && Crashes(m.w, Delay([])) && !Step(m, Delay([])).w.open
  {
  }

  // ---------- Which offer runs first ----------

  /** When a threshold sets off the first execution, no offer kept so far is cheaper; by count, exactly as
      many were kept as asked for. */
  lemma FirstIsCheapest(m: Machine, a: Act, x: Offer)
    requires Sound(m) && Can(m, a) && !m.w.started && (m.w.cfg.num >= 0 || m.w.cfg.time >= 0)
    requires (a.Back? || a.Delay?) && Starts(m.w, a) == Some(x)
    ensures forall y :: y in multiset(Step(m, a).received) - multiset(Step(m, a).ignored) ==> x.price <= y.price
    ensures a.Back? ==> |Step(m, a).received| - |Step(m, a).ignored| == m.w.cfg.num
  {
    assert Conserved(m) && OneAtATime(m);
    hide *;
    var kept := FirstStart(m, a, x);
    SortsAll(kept, a.sorted);
    StepConserves(m, a);
    KeptSoFar(Step(m, a));
    HeadIsCheapest(kept, a.sorted);
  }

  lemma HeadIsCheapest(q: seq<Offer>, sorted: seq<Offer>)
    requires Sorts(q, sorted) && sorted != []
    ensures forall y :: y in multiset([sorted[0]]) + multiset(sorted[1..]) ==> sorted[0].price <= y.price
  {
    forall y | y in multiset([sorted[0]]) + multiset(sorted[1..]) ensures sorted[0].price <= y.price {
      if y != sorted[0] {
        assert y in sorted[1..];
        var i :| 1 <= i < |sorted| && sorted[i] == y;
      }
    }
  }

  /** A threshold sorts what was kept and sets off the head. */
  lemma FirstStart(m: Machine, a: Act, x: Offer) returns (kept: seq<Offer>)
    requires OneAtATime(m) && Can(m, a) && !m.w.started && (m.w.cfg.num >= 0 || m.w.cfg.time >= 0)
    requires (a.Back? || a.Delay?) && Starts(m.w, a) == Some(x)
    ensures kept != [] && Sorts(kept, a.sorted) && a.sorted != [] && a.sorted[0] == x
    ensures Step(m, a).executed == [x] && Step(m, a).w.q == a.sorted[1..]
    ensures a.Back? ==> |kept| == m.w.cfg.num
  {
    hide Sorted, PartsNext;
    kept := if a.Back? then m.w.q + [a.of] else m.w.q;
    assert m.executed == [];
  }

  lemma KeptSoFar(m: Machine)
    requires Conserved(m)
    ensures multiset(m.received) - multiset(m.ignored) == multiset(m.executed) + multiset(m.w.q)
    ensures |m.received| == |m.ignored| + |m.executed| + |m.w.q|
  {
    assert |multiset(m.received)| == |multiset(m.ignored)| + |multiset(m.executed)| + |multiset(m.w.q)|;
  }

  // ---------- When the first offer runs ----------

  /** Offers received and not ignored. */
  function Count(m: Machine): int { |m.received| - |m.ignored| }

  /** The first execution is due: an offer was pushed in front, or one was kept and there are no thresholds, or as many as
      asked for were kept, or the timer has fired with one kept. */
  predicate Due(cfg: Config, count: int, pushed: bool, fired: bool) {
    || pushed
    || (cfg.num < 0 && cfg.time < 0 && 0 < count)
    || 0 < cfg.num <= count
    || (fired && 0 < count)
  }

  ghost predicate Fronted(acts: seq<Act>) { exists i :: 0 <= i < |acts| && acts[i].Front? }

  ghost predicate Fired(acts: seq<Act>) { exists i :: 0 <= i < |acts| && acts[i].Delay? }

  lemma AlsoHappened(acts: seq<Act>, a: Act)
    ensures Fronted(acts + [a]) <==> Fronted(acts) || a.Front?
    ensures Fired(acts + [a]) <==> Fired(acts) || a.Delay?
  {
    var acts' := acts + [a];
    assert acts'[|acts|] == a && forall i :: 0 <= i < |acts| ==> acts'[i] == acts[i];
    if Fronted(acts) { var i :| 0 <= i < |acts| && acts[i].Front?; assert acts'[i].Front?; }
    if Fired(acts) { var i :| 0 <= i < |acts| && acts[i].Delay?; assert acts'[i].Delay?; }
  }

  /** Before the first execution the offers kept are those that wait. */
  lemma CountWaits(m: Machine)
    requires Conserved(m) && OneAtATime(m)
    ensures Count(m) == |m.executed| + |m.w.q| && (m.w.started <==> m.executed != [])
  {
    KeptSoFar(m);
  }

  lemma StepKeepsDue(m: Machine, a: Act, pushed: bool, fired: bool)
    requires Sound(m) && Can(m, a)
    requires (m.w.started <==> Due(m.w.cfg, Count(m), pushed, fired)) && (fired && m.w.open ==> m.w.started)
    ensures var m' := Step(m, a);
            && (m'.w.started <==> Due(m'.w.cfg, Count(m'), pushed || a.Front?, fired || a.Delay?))
            && ((fired || a.Delay?) && m'.w.open ==> m'.w.started)
  {
    assert Conserved(m) && OneAtATime(m) && Collecting(m);
    CountWaits(m);
    hide Sorted, Conserved, OneAtATime, ReportedOnce, InParts, PartsNext, Finishes;
    if a.Delay? && !m.w.started { SortsAll(m.w.q, a.sorted); }
    if a.Back? && Enough(m.w) && !Ignores(m.w.cfg, a.of) { SortsAll(m.w.q + [a.of], a.sorted); }
  }

  /** In every session an offer has been executed exactly when one was pushed in front, or, counting the offers that were not
      ignored: one came in without thresholds, or as many as asked for, or the timer has fired with one in. Once the timer
      has fired, one was, unless the worker is gone. */
  lemma {:induction false} ExecutesExactly(cfg: Config, acts: seq<Act>)
    requires Exec(Init(cfg), Can, Step, acts).Some?
    ensures var m := Exec(Init(cfg), Can, Step, acts).value;
            && m.w.cfg == cfg
            && (m.executed != [] <==>
                  || Fronted(acts)
                  || (cfg.num < 0 && cfg.time < 0 && |m.ignored| < |m.received|)
                  || 0 < cfg.num <= |m.received| - |m.ignored|
                  || (Fired(acts) && |m.ignored| < |m.received|))
            && (Fired(acts) && m.w.open ==> m.executed != [])
  {
    hide Step, Can, Sound;
    SessionStaysSound(cfg, acts);
    var m := Exec(Init(cfg), Can, Step, acts).value;
    if acts != [] {
      var init, a := acts[..|acts| - 1], acts[|acts| - 1];
      assert acts == init + [a];
      ExecutesExactly(cfg, init);
      SessionStaysSound(cfg, init);
      AlsoHappened(init, a);
      var m0 := Exec(Init(cfg), Can, Step, init).value;
      StartedIs(m0);
      StepKeepsDue(m0, a, Fronted(init), Fired(init));
      SameConfig(m0, a);
    }
    StartedIs(m);
  }

  lemma StartedIs(m: Machine)
    requires Sound(m)
    ensures m.w.started <==> m.executed != []
  {
    hide Conserved, ReportedOnce, Collecting, InParts;
  }

  lemma SameConfig(m: Machine, a: Act)
    ensures Step(m, a).w.cfg == m.w.cfg
  {
  }

  predicate CanBack(m: Machine, a: Act) {
    Can(m, a) && !a.Front?
  }

  ghost predicate Fifo(m: Machine) {
    Immediate(m.w.cfg) && !m.w.armed && m.w.cfg.ceiling == -1 && (!m.w.started ==> m.w.q == []) && m.executed + m.w.q == m.received
  }

  /** Without thresholds and ceiling, a turn without PushFront keeps the offers in line. */
  lemma TurnKeepsLine(w: Worker, a: Act)
    requires Immediate(w.cfg) && !w.armed && w.cfg.ceiling == -1 && (!w.started ==> w.q == [])
    requires Enabled(w, a) && !a.Front?
    ensures w.q + Arrives(a) == Listed(Starts(w, a)) + Queue(w, a)
  {
  }

  /** The queue is empty until something was set off. */
  lemma TurnKeepsEmpty(w: Worker, a: Act)
    requires Immediate(w.cfg) && !w.armed && w.cfg.ceiling == -1 && (!w.started ==> w.q == [])
    requires Enabled(w, a) && !a.Front?
    ensures !Next(w, a).started ==> Queue(w, a) == []
  {
  }

  lemma LineUp(e: seq<Offer>, q: seq<Offer>, arrives: seq<Offer>, begun: seq<Offer>, q': seq<Offer>)
    requires q + arrives == begun + q'
    ensures (e + begun) + q' == (e + q) + arrives
  {
    assert (e + begun) + q' == e + (begun + q');
    assert (e + q) + arrives == e + (q + arrives);
  }

  lemma StepKeepsFifo(m: Machine, a: Act)
    requires Fifo(m) && CanBack(m, a)
    ensures Fifo(Step(m, a))
  {
    TurnKeepsLine(m.w, a);
    TurnKeepsEmpty(m.w, a);
    LineUp(m.executed, m.w.q, Arrives(a), Listed(Starts(m.w, a)), Queue(m.w, a));
    hide Enabled, Queue, Starts, PartsNext, Listed, Arrives, Finishes, Dismissed, CanBack;
  }

  /** SelectFirst executes offers in the order they were pushed back. */
  lemma FirstComeFirstServed(acts: seq<Act>)
    requires Exec(Init(SELECT_FIRST), CanBack, Step, acts).Some?
    ensures var m := Exec(Init(SELECT_FIRST), CanBack, Step, acts).value; m.executed + m.w.q == m.received
  {
    assert Fifo(Init(SELECT_FIRST));
    hide Fifo, CanBack, Step;
    forall m, a | Fifo(m) && CanBack(m, a) ensures Fifo(Step(m, a)) {
      StepKeepsFifo(m, a);
    }
    Invariance(Init(SELECT_FIRST), CanBack, Step, Fifo, acts);
    FifoOrder(Exec(Init(SELECT_FIRST), CanBack, Step, acts).value);
  }

  lemma FifoOrder(m: Machine)
    requires Fifo(m)
    ensures m.executed + m.w.q == m.received
  {
  }

  // ---------- Which offer runs next ----------

  predicate Cheapest(x: Offer, q: seq<Offer>) {
    forall y :: y in q ==> x.price <= y.price
  }

  /** After a failure the head of the queue runs. It is the cheapest that waits exactly when none of the
      offers pushed in front, the first left of the sorted collection, and none of the offers pushed back
      since the first execution is cheaper. */
  lemma NextIsCheapestExactly(m: Machine, a: Act, x: Offer)
    requires Sound(m) && a == Result(true) && m.w.started
    requires Starts(m.w, a) == Some(x)
    ensures var p := m.parts;
            Cheapest(x, m.w.q) <==>
            Cheapest(x, p.fronts) && (p.ordered != [] ==> x.price <= p.ordered[0].price) && Cheapest(x, p.late)
  {
    var p := m.parts;
    assert m.w.q == p.fronts + p.ordered + p.late;
    if p.ordered != [] { assert p.ordered[0] in m.w.q; }
    if Cheapest(x, p.fronts) && (p.ordered != [] ==> x.price <= p.ordered[0].price) && Cheapest(x, p.late) {
      forall y | y in m.w.q ensures x.price <= y.price {
        if y !in p.late && y !in p.fronts {
          var i :| 0 <= i < |p.ordered| && p.ordered[i] == y;
          assert i > 0 ==> p.ordered[0].price <= p.ordered[i].price;
        }
      }
    }
  }

  const CHEAPEST_OF_TWO := SelectCheapest(2, 0)

  /** One offer collected of two. */
  function Collected(mid: Offer): Machine {
    Machine(Worker(CHEAPEST_OF_TWO, [mid], None, false, true, true), [mid], [], [], [], [], Parts([], [], []))
  }

  /** The cheaper of two running, and some that came late waiting behind the other. */
  function Running(mid: Offer, dear: Offer, late: seq<Offer>): Machine {
    Machine(Worker(CHEAPEST_OF_TWO, [dear] + late, Some(mid), true, true, true),
            [mid, dear] + late, [], [mid], [], [], Parts([], [dear], late))
  }

  lemma Collects(of: Offer)
    ensures Can(Init(CHEAPEST_OF_TWO), Back(of, [])) && Step(Init(CHEAPEST_OF_TWO), Back(of, [])) == Collected(of)
  {
  }

  lemma SetsOff(mid: Offer, dear: Offer)
    requires mid.price <= dear.price
    ensures Can(Collected(mid), Back(dear, [mid, dear]))
    ensures Step(Collected(mid), Back(dear, [mid, dear])) == Running(mid, dear, [])
  {
    TwoSorted(mid, dear);
    hide Sorts;
    assert [mid, dear][1..] == [dear];
  }

  lemma TwoSorted(mid: Offer, dear: Offer)
    requires mid.price <= dear.price
    ensures [mid] + [dear] == [mid, dear] && Sorts([mid] + [dear], [mid, dear])
  {
    assert [mid] + [dear] == [mid, dear];
  }

  lemma TakesLate(mid: Offer, dear: Offer, late: Offer)
    ensures Can(Running(mid, dear, []), Back(late, []))
    ensures Step(Running(mid, dear, []), Back(late, [])) == Running(mid, dear, [late])
    ensures Can(Running(mid, dear, [late]), Result(true))
    ensures Starts(Running(mid, dear, [late]).w, Result(true)) == Some(dear)
  {
  }

  lemma Extended(start: Machine, acts: seq<Act>, m: Machine, a: Act, m': Machine) returns (acts': seq<Act>)
    requires Exec(start, Can, Step, acts) == Some(m) && Can(m, a) && Step(m, a) == m'
    ensures Exec(start, Can, Step, acts') == Some(m')
  {
    ExecExtend(start, Can, Step, acts, a);
    acts' := acts + [a];
  }

  /** A worker that waits for two offers executes the cheaper one, then takes in a third that is cheaper
      still; if the first fails, the dearer one is next. */
  lemma CheaperLateOfferWaits(dear: Offer, mid: Offer, cheap: Offer) returns (acts: seq<Act>, end: Machine)
    requires cheap.price < mid.price <= dear.price
    ensures Exec(Init(SelectCheapest(2, 0)), Can, Step, acts) == Some(end)
    ensures end.received == [mid, dear, cheap] && end.w.q == [dear, cheap] && end.executed == [mid]
    ensures Can(end, Result(true)) && Starts(end.w, Result(true)) == Some(dear)
  {
    end := Running(mid, dear, [cheap]);
    assert end.received == [mid, dear, cheap] && end.w.q == [dear, cheap] && end.executed == [mid];
    assert CHEAPEST_OF_TWO == SelectCheapest(2, 0);
    hide *;
    var start := Init(CHEAPEST_OF_TWO);
    Collects(mid);
    SetsOff(mid, dear);
    TakesLate(mid, dear, cheap);
    NoActs(start);
    acts := Extended(start, [], start, Back(mid, []), Collected(mid));
    acts := Extended(start, acts, Collected(mid), Back(dear, [mid, dear]), Running(mid, dear, []));
    acts := Extended(start, acts, Running(mid, dear, []), Back(cheap, []), end);
  }

  // ---------- The price ceiling ----------

  /** The ceiling is documented as the price over which an offer is ignored; the comparison is the other
      way round, and the two agree on an offer exactly when its price is the ceiling. */
  lemma CeilingReversed(cfg: Config, of: Offer)
    requires cfg.ceiling != -1
    ensures (Ignores(cfg, of) <==> of.price > cfg.ceiling) <==> of.price == cfg.ceiling
  {
  }

  predicate AtLeast(s: seq<Offer>, price: int) {
    forall x :: x in s ==> x.price >= price
  }

  ghost predicate AboveCeiling(m: Machine) {
    && Immediate(m.w.cfg) && !m.w.armed && (!m.w.started ==> m.w.q == []) && m.w.cfg.ceiling != -1
    && AtLeast(m.executed, m.w.cfg.ceiling) && AtLeast(m.w.q, m.w.cfg.ceiling)
    && (forall x :: x in m.ignored ==> x.price < m.w.cfg.ceiling)
  }

  lemma StepKeepsCeiling(m: Machine, a: Act)
    requires AboveCeiling(m) && CanBack(m, a)
    ensures AboveCeiling(Step(m, a))
  {
    hide Sorts;
  }

  /** Over every session of offers pushed back, SelectFirstLowerThan executes and keeps only offers at or
      above the amount, and ignores only offers below it. */
  lemma OnlyAboveTheAmount(amount: int, acts: seq<Act>)
    requires amount != -1 && Exec(Init(SelectFirstLowerThan(amount)), CanBack, Step, acts).Some?
    ensures var m := Exec(Init(SelectFirstLowerThan(amount)), CanBack, Step, acts).value;
            && m.w.cfg.ceiling == amount && AtLeast(m.executed, amount) && AtLeast(m.w.q, amount)
            && forall x :: x in m.ignored ==> x.price < amount
  {
    var start := Init(SelectFirstLowerThan(amount));
    var inv := m => AboveCeiling(m) && m.w.cfg.ceiling == amount;
    assert inv(start);
    forall m, a | inv(m) && CanBack(m, a) ensures inv(Step(m, a)) {
      StepKeepsCeiling(m, a);
    }
    hide CanBack, Step;
    Invariance(start, CanBack, Step, inv, acts);
  }
}
