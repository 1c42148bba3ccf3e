/** Runs in which the client's own cycle never comes to rest. */
module ClientLivelock {
  import opened Options
  import opened Deals
  import opened Intervals
  import opened Numbers
  import opened Client
  import opened ClientRuns
  import opened ClientLadder
  import opened ClientCycle
  import opened ClientSteps
  import opened ClientUnseal
  import opened Runs

  /** A deal paid for a first block of two intervals or more, whose interval has moved on by one boundary only. */
  lemma PaidAhead(p: Params, n: nat)
    requires p.unsealPrice > 0 && p.pricePerByte > 0 && Boundary(p, 2) <= n && 0 < n
    ensures Boundary(p, 1) == p.paymentInterval <= Boundary(p, 2) == NextInterval(p, p.paymentInterval)
    ensures p.unsealPrice + Boundary(p, 2) * p.pricePerByte <= n * p.pricePerByte + p.unsealPrice
    ensures 0 <= Boundary(p, 2) * p.pricePerByte && 0 < n * p.pricePerByte + p.unsealPrice
  {
    assert Boundary(p, 1) == p.Step(0);
    NextAfter(p, 1);
    BoundaryMonotone(p, 1, 2);
    MulMonotone(Boundary(p, 2), n, p.pricePerByte);
  }

  /** The first block is paid for in full while the interval moves on by one boundary. */
  lemma FirstBlockIsPaid(p: Params, funds: int, n: nat, b: nat, v: int) returns (steps: seq<Step>, m: Machine)
    requires p.unsealPrice > 0 && p.pricePerByte > 0 && p.paymentInterval <= n && 0 < n
    requires b == NextInterval(p, p.paymentInterval) && v == n * p.pricePerByte + p.unsealPrice > 0
    ensures Exec(Begin(p, funds), LaneEnabled, Next, steps) == Some(m)
    ensures m.cs == Deal(p, funds, Ongoing, n, n, b, -v, v) && m.queue == [] && m.pending.None? && m.announced == n
  {
    hide Exec, Happens, Next, Begin, LaneEnabled, NextInterval, AmountToSend, Deal;
    Records(p, funds, SendFunds, n, 0, p.paymentInterval, b, 0, 0, n, v, -v, false);
    steps, m := FirstVoucherIsForAll(p, funds, n, 0, v);
    steps, m := TakesOne(Begin(p, funds), steps, m, PaymentSent(v), Deal(p, funds, Ongoing, n, n, b, -v, v), Effect(None, None), false);
  }

  /** The next block is requested, and nothing sent for it. */
  lemma NextBlockIsNotPaid(p: Params, funds: int, steps: seq<Step>, m: Machine, n: nat, r: nat, b: nat, v: int)
    returns (steps': seq<Step>, m': Machine)
    requires Exec(Begin(p, funds), LaneEnabled, Next, steps) == Some(m)
    requires m.cs == Deal(p, funds, Ongoing, n, n, b, -v, v) && m.queue == [] && m.pending.None? && m.announced == n
    requires b <= n < r && 0 < v && p.unsealPrice + b * p.pricePerByte <= v && 0 <= b * p.pricePerByte
    ensures Exec(Begin(p, funds), LaneEnabled, Next, steps') == Some(m')
    ensures m'.cs == Deal(p, funds, Ongoing, r, n, b, 1, v) && m'.queue == [] && m'.pending == Some(PaymentRequested(0))
  {
    hide *;
    var begin := Begin(p, funds);
    CanArrive(m, r, 0);
    BytesArrive(p, funds, Ongoing, n, r, n, b, -v, v, false);
    RequestArrives(p, funds, r, n, b, -v, v + 1, 1, v, false);
    PaysNothing(p, funds, r, n, b, 1, v, false);
    StaysAsked(p, funds, r, n, b, 1, v, false);
    Reminders(-v, 1);
    steps', m' := TakesOne(begin, steps, m, BlocksReceived(r), Deal(p, funds, Ongoing, r, n, b, -v, v), Effect(None, None), false);
    CanArrive(m', r, v + 1);
    steps', m' := TakesOne(begin, steps', m', PaymentRequested(v + 1), Deal(p, funds, FundsNeeded, r, n, b, 1, v), Trigger(SendFundsNow), false);
    steps', m' := TakesOne(begin, steps', m', SendFundsNow, Deal(p, funds, SendFunds, r, n, b, 1, v), Trigger(PaymentNotSent), false);
    steps', m' := TakesOne(begin, steps', m', PaymentNotSent, Deal(p, funds, Ongoing, r, n, b, 1, v), Trigger(PaymentRequested(0)), false);
  }

  lemma Reminders(none: int, some: int)
    requires none <= 0 < some
    ensures Reminder(none) == Effect(None, None) && Reminder(some) == Trigger(PaymentRequested(0))
    ensures forall e :: Trigger(e).trigger == Some(e)
  {
  }

  /** At every unseal price, and with every first block of two intervals or more and every second one, some run ends
      in the futile cycle: the client pays for the first block in full while its interval moves on by one boundary. */
  lemma FutileIsReachable(p: Params, funds: int, n: nat, more: nat) returns (steps: seq<Step>, m: Machine)
    requires p.unsealPrice > 0 && p.pricePerByte > 0 && Boundary(p, 2) <= n && 0 < n && 0 < more
    ensures Exec(Begin(p, funds), LaneEnabled, Next, steps) == Some(m)
    ensures AtOngoing(m) && Futile(m.cs) && !Quiesces(m)
    ensures m.cs.bytesPaidFor == n && m.cs.totalReceived == n + more && m.cs.currentInterval == Boundary(p, 2)
  {
    hide Exec, Next, Begin, LaneEnabled, Futile, Boundary, NextInterval, Quiesces, Worth, Recorded;
    var b, r, v := Boundary(p, 2), n + more, n * p.pricePerByte + p.unsealPrice;
    PaidAhead(p, n);
    FutileDeal(p, funds, r, n, b, v, 1);
    steps, m := FirstBlockIsPaid(p, funds, n, b, v);
    steps, m := NextBlockIsNotPaid(p, funds, steps, m, n, r, b, v);
    CycleRestsExactly(m);
  }

  lemma FutileDeal(p: Params, funds: int, r: nat, n: nat, b: nat, v: int, asked: int)
    requires p.pricePerByte > 0 && b <= n < r && v == n * p.pricePerByte + p.unsealPrice
    ensures var ds := Deal(p, funds, Ongoing, r, n, b, asked, v);
            Futile(ds) && ds.fundsSpent <= Worth(ds) && Recorded(ds)
  {
    MulMonotone(b, n, p.pricePerByte);
    MulMonotone(n, r, p.pricePerByte);
    assert 0 <= n * p.pricePerByte;
  }
}
