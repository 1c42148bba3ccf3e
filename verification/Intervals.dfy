/** Deal parameters and the arithmetic of payment intervals (retrieval/deal/types.go).

    Data is paid for at the boundaries B(0) = 0, B(k+1) = B(k) + P + k * I, where P is the
    payment interval and I its increase. Both loops of the source walk these boundaries. */
module Intervals {

  datatype RawParams = Params(
    pricePerByte: nat,
    paymentInterval: nat,
    paymentIntervalIncrease: nat,
    unsealPrice: nat)
  {
    /** Size of the k-th interval: P + k * I. */
    function Step(k: nat): nat {
      if k == 0 then paymentInterval else Step(k - 1) + paymentIntervalIncrease
    }
  }

  /** Parameters whose interval sizes are not all zero: on others NextInterval does not terminate. */
  type Params = p: RawParams | p.paymentInterval > 0 || p.paymentIntervalIncrease > 0
    witness Params(0, 1, 0, 0)

  lemma {:induction false} StepClosedForm(p: Params, k: nat)
    ensures p.Step(k) == p.paymentInterval + k * p.paymentIntervalIncrease
  {
    if k > 0 { StepClosedForm(p, k - 1); }
  }

  /** B(k). */
  function Boundary(p: Params, k: nat): nat {
    if k == 0 then 0 else Boundary(p, k - 1) + p.Step(k - 1)
  }

  /** B(k) = k * P + I * k * (k - 1) / 2, written without the division. */
  lemma {:induction false} BoundaryClosedForm(p: Params, k: nat)
    ensures 2 * Boundary(p, k) == 2 * k * p.paymentInterval + p.paymentIntervalIncrease * (k * (k - 1))
  {
    if k > 0 {
      BoundaryClosedForm(p, k - 1);
      StepClosedForm(p, k - 1);
      var i, q := p.paymentIntervalIncrease, p.paymentInterval;
      calc {
        2 * Boundary(p, k);
        2 * Boundary(p, k - 1) + 2 * (q + (k - 1) * i);
        2 * (k - 1) * q + i * ((k - 1) * (k - 2)) + 2 * (q + (k - 1) * i);
        { SquareStep(i, q, k); }
        2 * k * q + i * (k * (k - 1));
      }
    }
  }

  lemma SquareStep(i: int, q: int, k: int)
    ensures 2 * (k - 1) * q + i * ((k - 1) * (k - 2)) + 2 * (q + (k - 1) * i) == 2 * k * q + i * (k * (k - 1))
  {
    assert k * (k - 1) == (k - 1) * (k - 2) + 2 * (k - 1);
    assert i * (k * (k - 1)) == i * ((k - 1) * (k - 2)) + i * (2 * (k - 1));
  }

  lemma {:induction false} StepGrows(p: Params, k: nat)
    ensures 1 <= k ==> 1 <= p.Step(k)
    ensures p.paymentInterval <= p.Step(k)
    ensures 1 <= k ==> p.paymentInterval + p.paymentIntervalIncrease <= p.Step(k)
  {
    if k > 0 { StepGrows(p, k - 1); }
  }

  lemma {:induction false} BoundaryMonotone(p: Params, j: nat, k: nat)
    requires j <= k
    ensures Boundary(p, j) <= Boundary(p, k)
    decreases k - j
  {
    if j < k {
      BoundaryMonotone(p, j, k - 1);
    }
  }

  /** From B(1) on, boundaries are strictly increasing and at least k - 1 large. */
  lemma {:induction false} BoundaryStrict(p: Params, j: nat, k: nat)
    requires 1 <= j < k
    ensures Boundary(p, j) < Boundary(p, k)
    decreases k - j
  {
    StepGrows(p, k - 1);
    BoundaryMonotone(p, j, k - 1);
  }

  lemma {:induction false} BoundaryUnbounded(p: Params, k: nat)
    ensures k <= Boundary(p, k + 1)
  {
    if k > 0 {
      BoundaryUnbounded(p, k - 1);
      StepGrows(p, k);
    }
  }

  /** Index of the first boundary above c, searched from k on. */
  function FirstAbove(p: Params, c: nat, k: nat): nat
    decreases c + 2 - k
  {
    if c < Boundary(p, k) then k
    else
      assert k <= c + 1 by {
        if k > c + 1 { BoundaryUnbounded(p, k - 1); }
      }
      FirstAbove(p, c, k + 1)
  }

  lemma {:induction false} FirstAboveIsAbove(p: Params, c: nat, k: nat)
    ensures k <= FirstAbove(p, c, k) && c < Boundary(p, FirstAbove(p, c, k))
    decreases c + 2 - k
  {
    if Boundary(p, k) <= c {
      if k > c + 1 { BoundaryUnbounded(p, k - 1); }
      FirstAboveIsAbove(p, c, k + 1);
    }
  }

  lemma {:induction false} FirstAboveIsFirst(p: Params, c: nat, k: nat, i: nat)
    requires k <= i
    ensures c < Boundary(p, i) ==> FirstAbove(p, c, k) <= i
    ensures i < FirstAbove(p, c, k) ==> Boundary(p, i) <= c
    decreases i - k
  {
    if k < i && Boundary(p, k) <= c { FirstAboveIsFirst(p, c, k + 1, i); }
  }

  /** Value of Params.NextInterval: the least boundary above c. */
  function NextInterval(p: Params, c: nat): nat
  {
    Boundary(p, FirstAbove(p, c, 0))
  }

  /** Value of Params.IntervalLowerBound: the greatest boundary below c, or 0. */
  function IntervalLowerBound(p: Params, c: nat): nat
  {
    if c == 0 then 0
    else
      FirstAboveIsAbove(p, c - 1, 0);
      Boundary(p, FirstAbove(p, c - 1, 0) - 1)
  }

  /** Both functions are pinned down by extremality among the boundaries. */
  lemma NextIntervalIsLeast(p: Params, c: nat, k: nat)
    ensures c < NextInterval(p, c)
    ensures c < Boundary(p, k) ==> NextInterval(p, c) <= Boundary(p, k)
  {
    FirstAboveIsAbove(p, c, 0);
    if c < Boundary(p, k) {
      FirstAboveIsFirst(p, c, 0, k);
      BoundaryMonotone(p, FirstAbove(p, c, 0), k);
    }
  }

  lemma LowerBoundIsGreatest(p: Params, c: nat, k: nat)
    ensures 0 < c ==> IntervalLowerBound(p, c) < c
    ensures Boundary(p, k) < c ==> Boundary(p, k) <= IntervalLowerBound(p, c)
  {
    if 0 < c {
      var j := FirstAbove(p, c - 1, 0);
      FirstAboveIsAbove(p, c - 1, 0);
      FirstAboveIsFirst(p, c - 1, 0, j - 1);
      if k < j {
        BoundaryMonotone(p, k, j - 1);
      } else {
        BoundaryMonotone(p, j, k);
      }
    }
  }

  /** On boundaries the two functions step forwards and backwards. */
  lemma IntervalsInverseOnBoundaries(p: Params, k: nat)
    ensures IntervalLowerBound(p, Boundary(p, k + 1)) == Boundary(p, k)
    ensures 1 <= k || 0 < p.paymentInterval ==> NextInterval(p, Boundary(p, k)) == Boundary(p, k + 1)
  {
    StepGrows(p, k);
    if Boundary(p, k + 1) > 0 {
      LowerBoundOfBoundary(p, k);
    }
    if 1 <= k || 0 < p.paymentInterval {
      NextOfBoundary(p, k);
    }
  }

  lemma LowerBoundOfBoundary(p: Params, k: nat)
    requires Boundary(p, k) < Boundary(p, k + 1)
    ensures IntervalLowerBound(p, Boundary(p, k + 1)) == Boundary(p, k)
  {
    var c := Boundary(p, k + 1) - 1;
    FirstAboveIsAbove(p, c, 0);
    FirstAboveIsFirst(p, c, 0, k + 1);
    var j := FirstAbove(p, c, 0);
    if j <= k { BoundaryMonotone(p, j, k); }
  }

  lemma NextOfBoundary(p: Params, k: nat)
    requires Boundary(p, k) < Boundary(p, k + 1)
    ensures NextInterval(p, Boundary(p, k)) == Boundary(p, k + 1)
  {
    var c := Boundary(p, k);
    FirstAboveIsAbove(p, c, 0);
    FirstAboveIsFirst(p, c, 0, k + 1);
    var j := FirstAbove(p, c, 0);
    if j <= k { BoundaryMonotone(p, j, k); }
  }

  /** For every c, not only boundaries: the two boundaries around c. */
  lemma IntervalsBracket(p: Params, c: nat, k: nat)
    ensures IntervalLowerBound(p, NextInterval(p, c)) <= c < NextInterval(p, c)
    ensures Boundary(p, k) <= c ==> Boundary(p, k) <= IntervalLowerBound(p, NextInterval(p, c))
  {
    var n := NextInterval(p, c);
    NextIntervalIsLeast(p, c, 0);
    LowerBoundIsGreatest(p, n, k);
    FirstAboveIsAbove(p, n - 1, 0);
    NextIntervalIsLeast(p, c, FirstAbove(p, n - 1, 0) - 1);
  }

  /** Params.IntervalLowerBound, the loop. */
  method ComputeIntervalLowerBound(p: Params, currentInterval: nat) returns (lowerBound: nat)
    ensures lowerBound == IntervalLowerBound(p, currentInterval)
  {
    var intervalSize := p.paymentInterval;
    lowerBound := 0;
    var target := 0;
    ghost var k := 0;
    while target < currentInterval
      invariant target == Boundary(p, k) && intervalSize == p.Step(k)
      invariant k == 0 ==> lowerBound == 0
      invariant k > 0 ==> lowerBound == Boundary(p, k - 1) < currentInterval
      decreases k == 0, currentInterval - target
    {
      StepGrows(p, k);
      lowerBound := target;
      target := target + intervalSize;
      intervalSize := intervalSize + p.paymentIntervalIncrease;
      k := k + 1;
    }
    if 0 < currentInterval {
      var c := currentInterval - 1;
      FirstAboveIsAbove(p, c, 0);
      FirstAboveIsFirst(p, c, 0, k);
      if FirstAbove(p, c, 0) < k { BoundaryMonotone(p, FirstAbove(p, c, 0), k - 1); }
    }
  }

  /** Params.NextInterval, the loop. */
  method ComputeNextInterval(p: Params, currentInterval: nat) returns (nextInterval: nat)
    ensures nextInterval == NextInterval(p, currentInterval)
  {
    var intervalSize := p.paymentInterval;
    nextInterval := 0;
    ghost var k := 0;
    while nextInterval <= currentInterval
      invariant nextInterval == Boundary(p, k) && intervalSize == p.Step(k)
      invariant k > 0 ==> Boundary(p, k - 1) <= currentInterval
      decreases k == 0, currentInterval - nextInterval + 1
    {
      StepGrows(p, k);
      nextInterval := nextInterval + intervalSize;
      intervalSize := intervalSize + p.paymentIntervalIncrease;
      k := k + 1;
    }
    FirstAboveIsAbove(p, currentInterval, 0);
    FirstAboveIsFirst(p, currentInterval, 0, k);
    var j := FirstAbove(p, currentInterval, 0);
    if j < k { BoundaryMonotone(p, j, k - 1); }
  }
}
