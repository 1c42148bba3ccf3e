/** Single steps of client and provider together, for building runs of them. */
module JointSteps {
  import opened Options
  import opened Deals
  import opened Intervals
  import opened Runs
  import opened ClientSteps
  import C = Client
  import M = ClientRuns
  import R = Revalidator
  import E = Exposure
  import J = Lockstep

  /** A deal and the longest chunk its provider sends. */
  datatype Setting = Setting(p: Params, id: nat, funds: int, chunk: nat)

  /** The moves lead to j. */
  ghost predicate Ran(x: Setting, moves: seq<J.Move>, j: J.Joint) {
    Exec(J.Begin(x.p, x.id, x.funds), J.EnabledUpTo(x.chunk), J.Next, moves) == Some(j)
  }

  lemma Moved(x: Setting, moves: seq<J.Move>, j: J.Joint, mv: J.Move) returns (moves': seq<J.Move>)
    requires Ran(x, moves, j) && J.EnabledUpTo(x.chunk)(j, mv)
    ensures Ran(x, moves', J.Next(j, mv))
  {
    ExecExtend(J.Begin(x.p, x.id, x.funds), J.EnabledUpTo(x.chunk), J.Next, moves, mv);
    moves' := moves + [mv];
  }

  /** The client takes the front event of its queue. */
  lemma Takes(x: Setting, moves: seq<J.Move>, j: J.Joint, cs': C.ClientState, eff: C.Effect)
    returns (moves': seq<J.Move>, j': J.Joint)
    requires Ran(x, moves, j) && j.m.pending.None? && j.m.queue != []
    requires Happens(j.m.cs, j.m.queue[0], cs', Grants(j.m.vouchers, C.AmountToSend(cs')), eff)
    ensures Ran(x, moves', j') && j' == j.(m := j'.m)
    ensures j'.m.cs == cs' && j'.m.queue == j.m.queue[1..] && j'.m.pending == eff.trigger
    ensures j'.m.vouchers == j.m.vouchers + Listed(eff.voucher)
  {
    hide Ran, C.Apply, C.Handler, C.Transition, C.AmountToSend, C.RunsHandler;
    var mv := J.ClientProcesses(Lane(Grants(j.m.vouchers, C.AmountToSend(cs'))));
    assert J.Enabled(j, mv);
    InvalidRunsNothing(j.m.cs.status, j.m.queue[0]);
    moves' := Moved(x, moves, j, mv);
    j' := J.Next(j, mv);
  }

  /** What its handler triggered joins the client's queue. */
  lemma Hands(x: Setting, moves: seq<J.Move>, j: J.Joint) returns (moves': seq<J.Move>, j': J.Joint)
    requires Ran(x, moves, j) && j.m.pending.Some?
    ensures Ran(x, moves', j') && j' == j.(m := j.m.(queue := j.m.queue + [j.m.pending.value], pending := None))
  {
    hide Ran;
    moves' := Moved(x, moves, j, J.ClientSettles);
    j' := J.Next(j, J.ClientSettles);
  }

  /** One turn of the client: the queue becomes q, and nothing is pending. */
  lemma Turn(x: Setting, moves: seq<J.Move>, j: J.Joint, cs': C.ClientState, eff: C.Effect, q: seq<C.Event>)
    returns (moves': seq<J.Move>, j': J.Joint)
    requires Ran(x, moves, j) && j.m.pending.None? && j.m.queue != []
    requires Happens(j.m.cs, j.m.queue[0], cs', Grants(j.m.vouchers, C.AmountToSend(cs')), eff)
    requires q == j.m.queue[1..] + Listed(eff.trigger)
    ensures Ran(x, moves', j') && j' == j.(m := j'.m)
    ensures j'.m.cs == cs' && j'.m.queue == q && j'.m.pending.None?
    ensures j'.m.vouchers == j.m.vouchers + Listed(eff.voucher)
  {
    hide Ran, Happens, C.AmountToSend, Grants;
    moves', j' := Takes(x, moves, j, cs', eff);
    if eff.trigger.Some? {
      moves', j' := Hands(x, moves', j');
    } else {
      assert j.m.queue[1..] + [] == j.m.queue[1..];
    }
  }

  /** The next bytes, and the next request, join the client's queue. */
  lemma Receives(x: Setting, moves: seq<J.Move>, j: J.Joint) returns (moves': seq<J.Move>, j': J.Joint)
    requires Ran(x, moves, j) && j.data != []
    ensures Ran(x, moves', j') && j' == j.(m := j'.m, data := j.data[1..])
    ensures j'.m == j.m.(queue := j.m.queue + [C.BlocksReceived(j.data[0])], announced := j'.m.announced)
  {
    hide Ran;
    moves' := Moved(x, moves, j, J.DeliverData);
    j' := J.Next(j, J.DeliverData);
  }

  lemma IsAsked(x: Setting, moves: seq<J.Move>, j: J.Joint) returns (moves': seq<J.Move>, j': J.Joint)
    requires Ran(x, moves, j) && j.asks != []
    ensures Ran(x, moves', j') && j' == j.(m := j'.m, asks := j.asks[1..])
    ensures j'.m == j.m.(queue := j.m.queue + [j.asks[0]], announced := j'.m.announced)
  {
    hide Ran;
    moves' := Moved(x, moves, j, J.DeliverAsk);
    j' := J.Next(j, J.DeliverAsk);
  }

  // ---------- The provider's moves ----------

  lemma RanAny(x: Setting, moves: seq<J.Move>, j: J.Joint)
    requires Ran(x, moves, j)
    ensures Exec(J.Begin(x.p, x.id, x.funds), J.Enabled, J.Next, moves) == Some(j)
  {
    hide J.Next, J.Begin, J.Enabled;
    ExecLaxer(J.Begin(x.p, x.id, x.funds), J.EnabledUpTo(x.chunk), J.Enabled, J.Next, moves);
  }

  lemma RanBase(x: Setting, moves: seq<J.Move>, j: J.Joint)
    requires Ran(x, moves, j)
    ensures J.Base(x.p, j) && E.Inv(x.p, j.t)
  {
    RanAny(x, moves, j);
    hide J.Next, J.Begin, J.Enabled, E.Inv, M.Inv, J.InFlight;
    J.RunKeepsBase(x.p, x.id, x.funds, moves);
  }

  /** The transfer runs on. */
  predicate Open(t: E.Transfer) { t.open && !t.complete }

  /** A chunk is sent; at the interval the provider pauses, and asks for what is not paid. */
  lemma Sends(x: Setting, moves: seq<J.Move>, j: J.Joint, n: nat) returns (moves': seq<J.Move>, j': J.Joint)
    requires Ran(x, moves, j) && x.p.pricePerByte > 0 && n <= x.chunk && Open(j.t) && !j.t.paused && j.t.deal.params == x.p
    ensures var total := j.t.deal.totalSent + n;
            && Ran(x, moves', j') && Open(j'.t) && j'.m == j.m && j'.taken == j.taken && j'.t.accepted == j.t.accepted
            && j'.t.deal == j.t.deal.(totalSent := total, status := j'.t.deal.status) && j'.data == j.data + [total]
            && (j'.t.paused <==> j.t.deal.currentInterval <= total)
            && j'.asks == j.asks + if j'.t.paused then [C.PaymentRequested((total - E.PaidBytes(j.t.deal)) * x.p.pricePerByte)] else []
  {
    hide Ran, J.Base, E.Inv, Boundary, R.OnPullDataSent, E.Next, E.PaidBytes;
    RanBase(x, moves, j);
    E.SendOutcome(x.p, j.t, n);
    E.RequestOwed(x.p, j.t, n);
    moves' := Moved(x, moves, j, J.ProviderSends(n));
    j' := J.Next(j, J.ProviderSends(n));
    assert j.asks + [] == j.asks;
  }

  /** A voucher that is enough is taken, and the transfer goes on. */
  lemma Paid(x: Setting, moves: seq<J.Move>, j: J.Joint, amt: nat) returns (moves': seq<J.Move>, j': J.Joint)
    requires Ran(x, moves, j) && Open(j.t) && j.taken < |j.m.vouchers| && J.Received(j) == Some(amt)
    requires E.PriceOf(x.p, j.t.accepted) <= j.t.deal.fundsReceived + amt
    ensures Ran(x, moves', j') && j' == j.(t := j'.t, taken := j.taken + 1) && Open(j'.t) && !j'.t.paused
    ensures j'.t.deal.totalSent == j.t.deal.totalSent && j'.t.deal.fundsReceived == j.t.deal.fundsReceived + amt
    ensures j'.t.deal.params == x.p && j'.t.accepted == j.t.accepted + 1 && j'.t.deal.currentInterval == Boundary(x.p, j.t.accepted + 2)
  {
    hide Ran, J.Base, Boundary, R.Revalidate, E.Next, J.Received, E.PriceOf;
    RanBase(x, moves, j);
    E.EnoughPaid(j.t, amt, J.PAYCH);
    Resumed(x.p, j, amt);
    moves' := Moved(x, moves, j, J.DeliverVoucher);
    j' := J.Next(j, J.DeliverVoucher);
  }

  lemma Resumed(p: Params, j: J.Joint, amt: nat)
    requires E.Inv(p, j.t) && Open(j.t) && E.PriceOf(p, j.t.accepted) <= j.t.deal.fundsReceived + amt
    ensures R.Revalidate(j.t.deal, j.t.ch, Some(amt), J.PAYCH).reply == R.Reply(None, R.Resume)
  {
    E.OwedNothing(j.t.deal, j.t.accepted, j.t.deal.fundsReceived + amt);
    hide R.PaymentOwed, Boundary, E.PriceOf;
  }

  // ---------- Opening a deal ----------

  /** The deal is accepted, and the client waits for data. */
  lemma Opens(x: Setting) returns (moves: seq<J.Move>, j: J.Joint)
    ensures Ran(x, moves, j) && j == J.Begin(x.p, x.id, x.funds).(m := j.m)
    ensures j.m.cs == Fresh(x.p, x.funds, Ongoing) && j.m.queue == [] && j.m.pending.None? && j.m.vouchers == []
  {
    moves, j := TakenOn(x);
    hide Ran, Happens, J.Begin, C.AmountToSend, Grants, Fresh;
    if x.funds == 0 {
      SkipsChannel(x.p, x.funds, Grants(j.m.vouchers, C.AmountToSend(Fresh(x.p, x.funds, Ongoing))));
      moves, j := Turn(x, moves, j, Fresh(x.p, x.funds, Ongoing), C.Effect(None, None), []);
    } else {
      var lane := C.Trigger(C.LaneAllocated(0));
      GetsChannel(x.p, x.funds, Grants(j.m.vouchers, C.AmountToSend(Fresh(x.p, x.funds, PaymentChannelAllocatingLane))));
      GetsLane(x.p, x.funds, Grants(j.m.vouchers, C.AmountToSend(Fresh(x.p, x.funds, Ongoing))));
      moves, j := Turn(x, moves, j, Fresh(x.p, x.funds, PaymentChannelAllocatingLane), lane, [C.LaneAllocated(0)]);
      moves, j := Turn(x, moves, j, Fresh(x.p, x.funds, Ongoing), C.Effect(None, None), []);
    }
  }

  lemma TakenOn(x: Setting) returns (moves: seq<J.Move>, j: J.Joint)
    ensures Ran(x, moves, j) && j == J.Begin(x.p, x.id, x.funds).(m := j.m)
    ensures j.m.cs == Fresh(x.p, x.funds, Accepted) && j.m.pending.None? && j.m.vouchers == []
    ensures j.m.queue == [if x.funds == 0 then C.PaymentChannelSkip else C.PaymentChannelReady]
  {
    j := J.Begin(x.p, x.id, x.funds);
    assert Ran(x, [], j) && j.m.cs == Fresh(x.p, x.funds, WaitForAcceptance);
    var mv := J.LocalEvent(C.DealAccepted);
    moves := Moved(x, [], j, mv);
    j := J.Next(j, mv);
    assert [] + [C.DealAccepted] == [C.DealAccepted];
    assert j.m.queue == [C.DealAccepted] && j.m.vouchers == [] && j.m.pending.None?;
    hide Ran, Happens, J.Begin, C.AmountToSend, Grants, Fresh;
    Accepts(x.p, x.funds, Grants(j.m.vouchers, C.AmountToSend(Fresh(x.p, x.funds, Accepted))));
    var next := if x.funds == 0 then C.PaymentChannelSkip else C.PaymentChannelReady;
    moves, j := Turn(x, moves, j, Fresh(x.p, x.funds, Accepted), C.Trigger(next), [next]);
  }

  /** Nothing is sent or paid when a transfer starts. */
  lemma AtStart(x: Setting, j: J.Joint)
    requires j == J.Begin(x.p, x.id, x.funds).(m := j.m)
    ensures Open(j.t) && !j.t.paused && j.taken == 0 && j.t.accepted == 0 && j.data == [] && j.asks == []
    ensures j.t.deal.params == x.p && j.t.deal.totalSent == 0 && j.t.deal.fundsReceived == 0 && j.t.deal.currentInterval == x.p.paymentInterval
    ensures x.p.pricePerByte > 0 ==> E.PaidBytes(j.t.deal) == 0
  {
    if x.p.pricePerByte > 0 { assert 0 / x.p.pricePerByte == 0; }
  }

  /** The first interval is sent in one chunk, and asked for. */
  lemma OpensAndSends(x: Setting, n: nat, owed: int) returns (moves: seq<J.Move>, j: J.Joint)
    requires x.p.pricePerByte > 0 && x.p.paymentInterval <= n <= x.chunk && owed == n * x.p.pricePerByte
    ensures Ran(x, moves, j) && Open(j.t) && j.taken == 0 && j.t.accepted == 0
    ensures j.t.deal.totalSent == n && j.t.deal.fundsReceived == 0 && j.t.deal.params == x.p
    ensures j.data == [n] && j.asks == [C.PaymentRequested(owed)]
    ensures j.m.cs == Fresh(x.p, x.funds, Ongoing) && j.m.queue == [] && j.m.pending.None? && j.m.vouchers == []
  {
    hide *;
    moves, j := Opens(x);
    AtStart(x, j);
    moves, j := Sends(x, moves, j, n);
    assert n - 0 == n;
    assert [] + [n] == [n] && [] + [C.PaymentRequested(owed)] == [C.PaymentRequested(owed)];
  }

  /** All of it reaches the client's queue. */
  lemma FirstInterval(x: Setting, n: nat, owed: int) returns (moves: seq<J.Move>, j: J.Joint)
    requires x.p.pricePerByte > 0 && x.p.paymentInterval <= n <= x.chunk && owed == n * x.p.pricePerByte
    ensures Ran(x, moves, j) && Open(j.t) && j.taken == 0 && j.t.accepted == 0
    ensures j.t.deal.totalSent == n && j.t.deal.fundsReceived == 0 && j.t.deal.params == x.p
    ensures j.data == [] && j.asks == [] && j.m.cs == Fresh(x.p, x.funds, Ongoing) && j.m.vouchers == []
    ensures j.m.queue == [C.BlocksReceived(n), C.PaymentRequested(owed)] && j.m.pending.None?
  {
    hide *;
    moves, j := OpensAndSends(x, n, owed);
    moves, j := Receives(x, moves, j);
    moves, j := IsAsked(x, moves, j);
    assert [] + [C.BlocksReceived(n)] + [C.PaymentRequested(owed)] == [C.BlocksReceived(n), C.PaymentRequested(owed)];
    assert [n][1..] == [] && [C.PaymentRequested(owed)][1..] == [];
  }

  /** A trigger, or nothing, follows the first of the events q. */
  lemma Follows(q: seq<C.Event>, e: C.Event, vs: seq<int>)
    requires q != []
    ensures q[1..] + Listed(C.Effect(None, None).trigger) == q[1..] && vs + Listed(C.Effect(None, None).voucher) == vs
    ensures q[1..] + Listed(C.Trigger(e).trigger) == q[1..] + [e] && vs + Listed(C.Trigger(e).voucher) == vs
  {
  }

  /** The client has asked itself to pay for the first interval. */
  lemma FirstIsDue(x: Setting, n: nat, owed: int) returns (moves: seq<J.Move>, j: J.Joint)
    requires x.p.pricePerByte > 0 && x.p.paymentInterval <= n <= x.chunk && owed == n * x.p.pricePerByte && 0 < n
    ensures Ran(x, moves, j) && Open(j.t) && j.taken == 0 && j.t.accepted == 0
    ensures j.t.deal.totalSent == n && j.t.deal.fundsReceived == 0 && j.t.deal.params == x.p
    ensures j.data == [] && j.asks == [] && j.m.vouchers == [] && j.m.queue == [C.SendFundsNow] && j.m.pending.None?
    ensures j.m.cs == Deal(x.p, x.funds, FundsNeeded, n, 0, x.p.paymentInterval, owed, 0)
  {
    hide *;
    var i, br, ask := x.p.paymentInterval, C.BlocksReceived(n), C.PaymentRequested(owed);
    moves, j := FirstInterval(x, n, owed);
    FreshIs(x);
    var cs := Deal(x.p, x.funds, Ongoing, n, 0, i, 0, 0);
    BytesArrive(x.p, x.funds, Ongoing, 0, n, 0, i, 0, 0, Grants(j.m.vouchers, C.AmountToSend(cs)));
    Follows([br, ask], C.SendFundsNow, j.m.vouchers);
    assert [br, ask][1..] == [ask];
    moves, j := Turn(x, moves, j, cs, C.Effect(None, None), [ask]);
    cs := Deal(x.p, x.funds, FundsNeeded, n, 0, i, owed, 0);
    RequestArrives(x.p, x.funds, n, 0, i, 0, owed, owed, 0, Grants(j.m.vouchers, C.AmountToSend(cs)));
    Follows([ask], C.SendFundsNow, j.m.vouchers);
    assert [ask][1..] + [C.SendFundsNow] == [C.SendFundsNow];
    moves, j := Turn(x, moves, j, cs, C.Trigger(C.SendFundsNow), [C.SendFundsNow]);
  }

  lemma FreshIs(x: Setting)
    ensures Fresh(x.p, x.funds, Ongoing) == Deal(x.p, x.funds, Ongoing, 0, 0, x.p.paymentInterval, 0, 0)
    ensures Reminder(0) == C.Effect(None, None)
  {
  }

  lemma GrantsFirst(v: int)
    ensures Grants([], v)
  {
  }

  lemma GrantsRising(v: int, w: int)
    requires v < w
    ensures Grants([v], w) && !Grants([v, w], w)
  {
    assert [v, w][1] == w;
  }

  lemma Pushed(vs: seq<int>, v: int)
    ensures vs + Listed(C.Effect(Some(C.PaymentSent(v)), Some(v)).voucher) == vs + [v] && [] + [v] == [v]
  {
  }
}
