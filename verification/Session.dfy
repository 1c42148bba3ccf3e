/** The worker that collects offers and executes them one at a time (exchange/tx.go:849-1052). */
module Session {
  import opened Options

  datatype Offer = Offer(id: nat, price: int)

  /** Thresholds and ceiling; -1 switches each off. */
  datatype Config = Config(num: int, time: int, ceiling: int)

  /** SelectFirst, SelectCheapest and SelectFirstLowerThan. */
  const SELECT_FIRST := Config(-1, -1, -1)

  function SelectCheapest(after: int, t: int): Config {
    Config(after, t, -1)
  }

  function SelectFirstLowerThan(amount: int): Config {
    Config(-1, -1, amount)
  }

  /** The worker's loop: the queue, the offer being executed, whether one ever was, whether the timer is
      still to fire, and whether the loop goes on. */
  datatype Worker = Worker(cfg: Config, q: seq<Offer>, running: Option<Offer>, started: bool, armed: bool, open: bool)

  /** What the loop selects on; the order that sorting gives equal prices is left open. */
  datatype Act =
    | Closing
    | Back(of: Offer, sorted: seq<Offer>)
    | Front(of: Offer)
    | Delay(sorted: seq<Offer>)
    | Result(failed: bool)

  // ---------- Sorting ----------

  predicate Sorted(s: seq<Offer>) {
    forall i, j :: 0 <= i < j < |s| ==> s[i].price <= s[j].price
  }

  predicate Sorts(q: seq<Offer>, sorted: seq<Offer>) {
    Sorted(sorted) && multiset(sorted) == multiset(q) && |sorted| == |q|
  }

  lemma InsertSorts(q: seq<Offer>, s: seq<Offer>, i: nat, x: Offer)
    requires Sorts(q, s) && i <= |s|
    requires forall j :: 0 <= j < i ==> s[j].price <= x.price
    requires i < |s| ==> x.price < s[i].price
    ensures Sorts(q + [x], s[..i] + [x] + s[i..])
  {
    InsertSorted(s, i, x);
    hide Sorted;
    assert s == s[..i] + s[i..];
  }

  lemma InsertSorted(s: seq<Offer>, i: nat, x: Offer)
    requires Sorted(s) && i <= |s|
    requires forall j :: 0 <= j < i ==> s[j].price <= x.price
    requires i < |s| ==> x.price < s[i].price
    ensures Sorted(s[..i] + [x] + s[i..])
  {
  }

  /** The offers in order of price. */
  method SortOffers(q: seq<Offer>) returns (sorted: seq<Offer>)
    ensures Sorts(q, sorted)
  {
    sorted := [];
    var n := 0;
    while n < |q|
      invariant 0 <= n <= |q| && Sorts(q[..n], sorted)
    {
      hide Sorts;
      var i := 0;
      while i < |sorted| && sorted[i].price <= q[n].price
        invariant 0 <= i <= |sorted|
        invariant forall j :: 0 <= j < i ==> sorted[j].price <= q[n].price
      {
        i := i + 1;
      }
      InsertSorts(q[..n], sorted, i, q[n]);
      sorted := sorted[..i] + [q[n]] + sorted[i..];
      assert q[..n + 1] == q[..n] + [q[n]];
      n := n + 1;
    }
    assert q[..n] == q;
  }

  lemma SortsAll(q: seq<Offer>, sorted: seq<Offer>)
    requires Sorts(q, sorted)
    ensures |sorted| == |q|
  {
  }

  // ---------- One turn of the loop ----------

  predicate Ignores(cfg: Config, of: Offer) {
    cfg.ceiling != -1 && of.price < cfg.ceiling
  }

  predicate Immediate(cfg: Config) {
    cfg.num < 0 && cfg.time < 0
  }

  /** Enough offers are in with this one. */
  predicate Enough(w: Worker) {
    !w.started && |w.q| + 1 == w.cfg.num
  }

  predicate Enabled(w: Worker, a: Act) {
    && w.open
    && match a
       case Closing => true
       case Back(of, sorted) => Enough(w) && !Ignores(w.cfg, of) ==> Sorts(w.q + [of], sorted)
       case Front(_) => true
       case Delay(sorted) => w.armed && (!w.started ==> Sorts(w.q, sorted))
       case Result(_) => w.running.Some?
  }

  /** The offer that a turn sets off. */
  function Starts(w: Worker, a: Act): Option<Offer> {
    match a
    case Closing => None
    case Back(of, sorted) =>
      if Ignores(w.cfg, of) then None
      else if Immediate(w.cfg) && !w.started then Some(of)
      else if Enough(w) && sorted != [] then Some(sorted[0])
      else None
    case Front(of) => if w.started then None else Some(of)
    case Delay(sorted) => if !w.started && sorted != [] then Some(sorted[0]) else None
    case Result(failed) => if failed && w.q != [] then Some(w.q[0]) else None
  }

  function Queue(w: Worker, a: Act): seq<Offer> {
    match a
    case Closing => w.q
    case Back(of, sorted) =>
      if Ignores(w.cfg, of) || (Immediate(w.cfg) && !w.started) then w.q
      else if Enough(w) && sorted != [] then sorted[1..]
      else w.q + [of]
    case Front(of) => if w.started then [of] + w.q else w.q
    case Delay(sorted) => if !w.started && sorted != [] then sorted[1..] else w.q
    case Result(failed) => if failed && w.q != [] then w.q[1..] else w.q
  }

  /** The timer fires with nothing collected and nothing executed: the first of no offers is taken. */
  predicate Crashes(w: Worker, a: Act) {
    a.Delay? && !w.started && w.q == []
  }

  /** What a turn reports as the end of the session. */
  function Finishes(w: Worker, a: Act): Option<bool> {
    if a.Result? && (!a.failed || w.q == []) then Some(a.failed) else None
  }

  function Next(w: Worker, a: Act): Worker {
    var begun := Starts(w, a);
    Worker(w.cfg, Queue(w, a), if begun.Some? then begun else if a.Result? then None else w.running,
           w.started || begun.Some?, w.armed && !a.Delay?, !a.Closing? && !Crashes(w, a))
  }

  function Begin(cfg: Config): Worker {
    Worker(cfg, [], None, false, cfg.time >= 0, true)
  }

  /** The goroutine's loop with its variables. */
  class SessionWorker {
    const cfg: Config
    var q: seq<Offer>
    var running: Option<Offer>
    var started: bool
    var armed: bool
    var open: bool

    ghost function View(): Worker
      reads this
    {
      Worker(cfg, q, running, started, armed, open)
    }

    constructor (cfg: Config)
      ensures View() == Begin(cfg)
    {
      this.cfg, q, running, started, armed, open := cfg, [], None, false, cfg.time >= 0, true;
    }

    method Exec(of: Offer)
      modifies `running, `started
      ensures running == Some(of) && started
    {
      running, started := Some(of), true;
    }

    /** The caller looks once for the answer. If it is not there yet, the caller gets nothing, and the worker,
        whose answer nobody takes any more, does not return; it takes no offer either way. */
    method Close(answered: bool) returns (unused: seq<Offer>, finished: bool)
      requires open
      modifies `open
      ensures View() == Next(old(View()), Closing) && unused == (if answered then q else []) && finished == answered
    {
      open := false;
      if !answered { return [], false; }
      return q, true;
    }

    method PushBack(of: Offer) returns (ghost a: Act)
      requires open
      modifies `q, `running, `started
      ensures a.Back? && a.of == of && Enabled(old(View()), a) && View() == Next(old(View()), a)
    {
      hide Sorts;
      a := Back(of, []);
      if cfg.ceiling != -1 && of.price < cfg.ceiling { return; }
      if cfg.num < 0 && cfg.time < 0 && !started {
        Exec(of);
        return;
      }
      q := q + [of];
      if started { return; }
      if |q| == cfg.num {
        var sorted := SortOffers(q);
        a := Back(of, sorted);
        SortsAll(q, sorted);
        Exec(sorted[0]);
        q := sorted[1..];
      }
    }

    method PushFront(of: Offer)
      requires open
      modifies `q, `running, `started
      ensures View() == Next(old(View()), Front(of))
    {
      if !started {
        Exec(of);
        return;
      }
      q := [of] + q;
    }

    method OnDelay() returns (ghost a: Act, crash: bool)
      requires open && armed
      modifies `q, `running, `started, `armed, `open
      ensures a.Delay? && Enabled(old(View()), a) && View() == Next(old(View()), a)
      ensures crash == Crashes(old(View()), a)
    {
      armed, crash := false, false;
      a := Delay([]);
      if started { return; }
      var sorted := SortOffers(q);
      a := Delay(sorted);
      if sorted == [] {
        open, crash := false, true;
        return;
      }
      Exec(sorted[0]);
      q := sorted[1..];
    }

    method OnResult(failed: bool) returns (finish: Option<bool>)
      requires open && running.Some?
      modifies `q, `running, `started
      ensures View() == Next(old(View()), Result(failed)) && finish == Finishes(old(View()), Result(failed))
    {
      running, finish := None, None;
      if failed && |q| > 0 {
        Exec(q[0]);
        q := q[1..];
        return;
      }
      if !failed || |q| == 0 {
        finish := Some(failed);
      }
    }
  }
}
