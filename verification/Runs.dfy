/** Runs of a state machine, and what follows for all of them from one step. */
module Runs {
  import opened Options

  /** The state that a sequence of actions leads to; None when one of them was not enabled. */
  ghost function Exec<S, A>(start: S, enabled: (S, A) -> bool, next: (S, A) -> S, acts: seq<A>): Option<S> {
    if acts == [] then Some(start)
    else
      match Exec(start, enabled, next, acts[..|acts| - 1])
      case None => None
      case Some(s) =>
        var a := acts[|acts| - 1];
        if enabled(s, a) then Some(next(s, a)) else None
  }

  /** What holds at the start and is kept by every enabled step holds after every run. */
  lemma {:induction false} Invariance<S(!new), A(!new)>(
    start: S, enabled: (S, A) -> bool, next: (S, A) -> S, inv: S -> bool, acts: seq<A>)
    requires inv(start)
    requires forall s, a :: inv(s) && enabled(s, a) ==> inv(next(s, a))
    requires Exec(start, enabled, next, acts).Some?
    ensures inv(Exec(start, enabled, next, acts).value)
  {
    if acts != [] {
      Invariance(start, enabled, next, inv, acts[..|acts| - 1]);
    }
  }

  /** A run extended by one enabled action. */
  lemma ExecExtend<S, A>(start: S, enabled: (S, A) -> bool, next: (S, A) -> S, acts: seq<A>, a: A)
    requires Exec(start, enabled, next, acts).Some?
    requires enabled(Exec(start, enabled, next, acts).value, a)
    ensures Exec(start, enabled, next, acts + [a]) == Some(next(Exec(start, enabled, next, acts).value, a))
  {
    assert (acts + [a])[..|acts + [a]| - 1] == acts;
  }

  /** A run is one under any laxer rule. */
  lemma {:induction false} ExecLaxer<S(!new), A(!new)>(
    start: S, enabled: (S, A) -> bool, laxer: (S, A) -> bool, next: (S, A) -> S, acts: seq<A>)
    requires forall s, a :: enabled(s, a) ==> laxer(s, a)
    requires Exec(start, enabled, next, acts).Some?
    ensures Exec(start, laxer, next, acts) == Exec(start, enabled, next, acts)
  {
    if acts != [] { ExecLaxer(start, enabled, laxer, next, acts[..|acts| - 1]); }
  }

  /** A deterministic machine after n steps. */
  ghost function Iterate<S>(step: S -> S, s: S, n: nat): S
    decreases n
  {
    if n == 0 then s else Iterate(step, step(s), n - 1)
  }

  lemma {:induction false} IterateCompose<S>(step: S -> S, s: S, a: nat, b: nat)
    ensures Iterate(step, s, a + b) == Iterate(step, Iterate(step, s, a), b)
    decreases a
  {
    if a > 0 { IterateCompose(step, step(s), a - 1, b); }
  }
}
