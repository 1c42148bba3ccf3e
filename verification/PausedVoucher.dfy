/** When a voucher finds the provider paused: its bytes had to be sent first, and with short chunks the provider sends no
    more until it comes. */
module PausedVoucher {
  import opened Options
  import opened Deals
  import opened Intervals
  import opened Numbers
  import opened Runs
  import opened ClientSteps
  import opened JointSteps
  import opened StuckRun
  import R = Revalidator
  import E = Exposure
  import C = Client
  import L = ClientLadder
  import J = Lockstep
  import N = NoStuckPause

  /** A voucher under way finds the transfer paused. */
  predicate FindsPause(j: J.Joint) {
    j.taken < |j.m.vouchers| && j.t.open && !j.t.complete ==> j.t.paused
  }

  // ---------- Short chunks ----------

  lemma StepKeepsBounded(p: Params, j: J.Joint, mv: J.Move, c: nat)
    requires J.Base(p, j) && p.pricePerByte > 0 && J.EnabledUpTo(c)(j, mv) && E.Bounded(j.t, c)
    requires c <= p.paymentInterval + p.paymentIntervalIncrease
    ensures E.Bounded(J.Next(j, mv).t, c)
  {
    hide E.Inv, E.Next, E.Bounded, R.OnPullDataSent, R.OnComplete, R.Revalidate, J.Received, J.EventOf, J.InFlight;
    match mv
    case ProviderSends(n) => E.StepKeepsBounded(p, j.t, E.Send(n), c);
    case ProviderFinishes => E.StepKeepsBounded(p, j.t, E.Finish, c);
    case DeliverVoucher => E.StepKeepsBounded(p, j.t, E.Pay(J.Received(j), J.PAYCH), c);
    case _ =>
  }

  lemma RunsBounded(p: Params, id: nat, funds: int, moves: seq<J.Move>, c: nat)
    requires p.pricePerByte > 0 && p.paymentInterval > 0 && c <= p.paymentInterval + p.paymentIntervalIncrease
    requires Exec(J.Begin(p, id, funds), J.EnabledUpTo(c), J.Next, moves).Some?
    ensures E.Bounded(Exec(J.Begin(p, id, funds), J.EnabledUpTo(c), J.Next, moves).value.t, c)
  {
    assert Boundary(p, 1) == p.Step(0);
    var start, inv := J.Begin(p, id, funds), (j: J.Joint) => J.Base(p, j) && E.Bounded(j.t, c);
    assert inv(start);
    hide J.Next, J.Enabled, J.Begin, J.Base, E.Bounded;
    forall j, mv | inv(j) && J.EnabledUpTo(c)(j, mv) ensures inv(J.Next(j, mv)) {
      J.StepKeepsBase(p, j, mv);
      StepKeepsBounded(p, j, mv, c);
    }
    Invariance(start, J.EnabledUpTo(c), J.Next, inv, moves);
  }

  lemma ShortFindsPause(x: Setting, moves: seq<J.Move>, j: J.Joint)
    requires Free(x) && x.chunk <= x.p.paymentInterval + x.p.paymentIntervalIncrease && Ran(x, moves, j)
    ensures FindsPause(j)
  {
    if j.taken < |j.m.vouchers| && Open(j.t) {
      RanInv(x, moves, j);
      InvFacts(x.p, j);
      N.UntakenIsSent(x.p, j);
      hide J.Next, J.Begin, Boundary, J.Inv, E.PaidBytes, L.Rung;
      RunsBounded(x.p, x.id, x.funds, moves, x.chunk);
    }
  }

  // ---------- Longer chunks ----------

  /** One byte short of the first boundary, and then a chunk that reaches the second. */
  predicate Long(x: Setting) {
    Free(x) && x.p.paymentInterval + x.p.paymentIntervalIncrease < x.chunk
  }

  lemma Reached(x: Setting, total: nat)
    requires Long(x) && total == x.p.paymentInterval - 1 + x.chunk
    ensures Free(x) && x.p.unsealPrice == 0 < x.p.pricePerByte && B(x, 0) == 0 && 0 < x.p.paymentInterval == B(x, 1) < B(x, 2) <= total
    ensures B(x, 2) == NextInterval(x.p, B(x, 1))
    ensures 0 < Price(x, 1) == B(x, 1) * x.p.pricePerByte < Price(x, 2) == B(x, 2) * x.p.pricePerByte <= total * x.p.pricePerByte
  {
    var p := x.p;
    assert Boundary(p, 1) == p.Step(0) && Boundary(p, 2) == Boundary(p, 1) + p.Step(1);
    StepGrows(p, 1);
    L.NextAfter(p, 1);
    MulStrict(0, Boundary(p, 1), p.pricePerByte);
    MulStrict(Boundary(p, 1), Boundary(p, 2), p.pricePerByte);
    MulMonotone(Boundary(p, 2), total, p.pricePerByte);
  }

  /** Both chunks and the request for them reach the client. */
  lemma BothArrive(x: Setting, total: nat, owed: int) returns (moves: seq<J.Move>, j: J.Joint)
    requires Long(x) && total == x.p.paymentInterval - 1 + x.chunk && owed == total * x.p.pricePerByte
    ensures Ran(x, moves, j) && Open(j.t) && j.taken == 0 && j.m.vouchers == []
    ensures j.m.queue == [C.BlocksReceived(x.p.paymentInterval - 1), C.BlocksReceived(total), C.PaymentRequested(owed)] && j.m.pending.None?
    ensures j.m.cs == Fresh(x.p, x.funds, Ongoing)
  {
    hide *;
    Reached(x, total);
    var n := x.p.paymentInterval - 1;
    moves, j := BothSent(x, total, owed);
    moves, j := Receives(x, moves, j);
    moves, j := Receives(x, moves, j);
    moves, j := IsAsked(x, moves, j);
    assert [n, total][1..] == [total] && [n, total][0] == n;
    assert [] + [C.BlocksReceived(n)] + [C.BlocksReceived(total)] + [C.PaymentRequested(owed)]
        == [C.BlocksReceived(n), C.BlocksReceived(total), C.PaymentRequested(owed)];
  }

  lemma BothSent(x: Setting, total: nat, owed: int) returns (moves: seq<J.Move>, j: J.Joint)
    requires Long(x) && 0 < x.p.paymentInterval && total == x.p.paymentInterval - 1 + x.chunk && owed == total * x.p.pricePerByte
    ensures Ran(x, moves, j) && Open(j.t) && j.taken == 0 && j.m.vouchers == [] && j.m.queue == [] && j.m.pending.None?
    ensures j.data == [x.p.paymentInterval - 1, total] && j.asks == [C.PaymentRequested(owed)] && j.m.cs == Fresh(x.p, x.funds, Ongoing)
  {
    hide *;
    Reached(x, total);
    var n := x.p.paymentInterval - 1;
    ShorterChunk(x);
    moves, j := Opens(x);
    AtStart(x, j);
    moves, j := SendsOn(x, moves, j, n);
    assert [] + [n] == [n] && j.asks == [];
    moves, j := SendsOn(x, moves, j, x.chunk);
    assert total - B(x, 0) == total;
    assert [n] + [total] == [n, total] && [] + [C.PaymentRequested(owed)] == [C.PaymentRequested(owed)];
  }

  lemma ShorterChunk(x: Setting)
    requires Long(x)
    ensures x.p.paymentInterval - 1 <= x.chunk
  {
  }

  /** The first boundary is due, with more received than two. */
  lemma FirstBoundaryIsDue(x: Setting, total: nat, owed: int) returns (moves: seq<J.Move>, j: J.Joint)
    requires Long(x) && total == x.p.paymentInterval - 1 + x.chunk && owed == total * x.p.pricePerByte
    ensures Ran(x, moves, j) && Open(j.t) && j.taken == 0 && j.m.vouchers == [] && j.m.queue == [ATTEMPT] && j.m.pending.None?
    ensures j.m.cs == Deal(x.p, x.funds, FundsNeeded, total, 0, B(x, 1), owed, 0)
  {
    hide *;
    Reached(x, total);
    Named();
    var n, b := x.p.paymentInterval - 1, B(x, 1);
    var br, ask := C.BlocksReceived(total), C.PaymentRequested(owed);
    moves, j := BothArrive(x, total, owed);
    FreshIs(x);
    Follows([C.BlocksReceived(n), br, ask], ATTEMPT, []);
    Follows([br, ask], ATTEMPT, []);
    Follows([ask], ATTEMPT, []);
    assert [C.BlocksReceived(n), br, ask][1..] == [br, ask] && [br, ask][1..] == [ask] && [ask][1..] + [ATTEMPT] == [ATTEMPT];
    var cs := Deal(x.p, x.funds, Ongoing, n, 0, b, 0, 0);
    BytesArrive(x.p, x.funds, Ongoing, 0, n, 0, b, 0, 0, Grants(j.m.vouchers, C.AmountToSend(cs)));
    moves, j := Turn(x, moves, j, cs, C.Effect(None, None), [br, ask]);
    cs := Deal(x.p, x.funds, Ongoing, total, 0, b, 0, 0);
    BytesArrive(x.p, x.funds, Ongoing, n, total, 0, b, 0, 0, Grants(j.m.vouchers, C.AmountToSend(cs)));
    moves, j := Turn(x, moves, j, cs, C.Effect(None, None), [ask]);
    cs := Deal(x.p, x.funds, FundsNeeded, total, 0, b, owed, 0);
    RequestArrives(x.p, x.funds, total, 0, b, 0, owed, owed, 0, Grants(j.m.vouchers, C.AmountToSend(cs)));
    moves, j := Turn(x, moves, j, cs, C.Trigger(ATTEMPT), [ATTEMPT]);
  }

  /** It is paid, and the provider may send again. */
  lemma FirstBoundaryIsPaid(x: Setting, total: nat, owed: int) returns (moves: seq<J.Move>, j: J.Joint)
    requires Long(x) && total == x.p.paymentInterval - 1 + x.chunk && owed == total * x.p.pricePerByte
    ensures Ran(x, moves, j) && Open(j.t) && !j.t.paused && j.taken == 1 && j.m.vouchers == [Price(x, 1)]
    ensures j.m.queue == [C.PaymentSent(Price(x, 1))] && j.m.pending.None?
    ensures j.m.cs == Deal(x.p, x.funds, SendFunds, total, 0, B(x, 1), owed, 0)
  {
    hide *;
    Reached(x, total);
    Named();
    var b, v := B(x, 1), Price(x, 1);
    moves, j := FirstBoundaryIsDue(x, total, owed);
    PaysInterval(x.p, x.funds, total, 0, b, owed, 0, v, true);
    GrantsFirst(v);
    Pushed([], v);
    assert [ATTEMPT][1..] + [C.PaymentSent(v)] == [C.PaymentSent(v)];
    SomeListed(C.PaymentSent(v), v);
    moves, j := Turn(x, moves, j, Deal(x.p, x.funds, SendFunds, total, 0, b, owed, 0), C.Effect(Some(C.PaymentSent(v)), Some(v)), [C.PaymentSent(v)]);
    moves, j := PaidOn(x, moves, j);
  }

  lemma SomeListed(e: C.Event, v: int)
    ensures Listed(C.Effect(Some(e), Some(v)).trigger) == [e]
  {
  }

  /** The second voucher is made while the provider is not paused. */
  lemma SecondBoundaryIsPaid(x: Setting, total: nat, owed: int) returns (moves: seq<J.Move>, j: J.Joint)
    requires Long(x) && total == x.p.paymentInterval - 1 + x.chunk && owed == total * x.p.pricePerByte
    ensures Ran(x, moves, j) && Open(j.t) && !j.t.paused && j.taken == 1 && j.m.vouchers == [Price(x, 1), Price(x, 2)]
  {
    hide *;
    Reached(x, total);
    Named();
    var b1, b2, v1, v2 := B(x, 1), B(x, 2), Price(x, 1), Price(x, 2);
    var left := owed - v1;
    moves, j := FirstBoundaryIsPaid(x, total, owed);
    Follows([C.PaymentSent(v1)], REMINDER, [v1]);
    Follows([REMINDER], ATTEMPT, [v1]);
    assert [C.PaymentSent(v1)][1..] + [REMINDER] == [REMINDER] && [REMINDER][1..] + [ATTEMPT] == [ATTEMPT];
    var cs := Deal(x.p, x.funds, Ongoing, total, b1, b2, left, v1);
    Records(x.p, x.funds, SendFunds, total, 0, b1, b2, owed, 0, b1, v1, left, Grants(j.m.vouchers, C.AmountToSend(cs)));
    IsReminded(left);
    moves, j := Turn(x, moves, j, cs, C.Trigger(REMINDER), [REMINDER]);
    cs := Deal(x.p, x.funds, FundsNeeded, total, b1, b2, left, v1);
    RequestArrives(x.p, x.funds, total, b1, b2, left, 0, left, v1, Grants(j.m.vouchers, C.AmountToSend(cs)));
    moves, j := Turn(x, moves, j, cs, C.Trigger(ATTEMPT), [ATTEMPT]);
    PaysInterval(x.p, x.funds, total, b1, b2, left, v1, v2, true);
    GrantsRising(v1, v2);
    Pushed([v1], v2);
    moves, j := Takes(x, moves, j, Deal(x.p, x.funds, SendFunds, total, b1, b2, left, v1), C.Effect(Some(C.PaymentSent(v2)), Some(v2)));
    assert [v1] + [v2] == [v1, v2];
  }

  // ---------- The limit ----------

  ghost predicate AlwaysFindsPause(x: Setting) {
    forall moves, j :: Ran(x, moves, j) ==> FindsPause(j)
  }

  /** With nothing charged for unsealing, a voucher under way finds the provider paused in every joint run exactly when
      no chunk is longer than the first interval plus its increase. */
  lemma FindsPauseExactly(p: Params, id: nat, funds: int, c: nat)
    requires p.unsealPrice == 0 && p.pricePerByte > 0 && p.paymentInterval > 0
    ensures AlwaysFindsPause(Setting(p, id, funds, c)) <==> c <= p.paymentInterval + p.paymentIntervalIncrease
  {
    var x := Setting(p, id, funds, c);
    assert Free(x);
    hide Ran, Free;
    if c <= p.paymentInterval + p.paymentIntervalIncrease {
      forall moves, j | Ran(x, moves, j) ensures FindsPause(j) { ShortFindsPause(x, moves, j); }
    } else {
      var total := p.paymentInterval - 1 + c;
      var moves, j := SecondBoundaryIsPaid(x, total, total * p.pricePerByte);
      assert !FindsPause(j);
    }
  }
}
