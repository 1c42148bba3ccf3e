/** Two honest parties on a funded channel, an unseal price, and a provider that is never paid: the client pays ahead of
    its interval and finds nothing to send, or settles the unseal price out of what was requested and rests. */
module UnsealRuns {
  import opened Options
  import opened Deals
  import opened Intervals
  import opened Numbers
  import opened Runs
  import opened ClientSteps
  import opened JointSteps
  import opened LockstepUnseal
  import E = Exposure
  import C = Client
  import M = ClientRuns
  import L = ClientLadder
  import G = ClientProgress
  import CY = ClientCycle
  import V = ClientLivelock
  import F = ClientFate
  import J = Lockstep
  import Q = PausedProvider

  // ---------- Walking on ----------

  /** An event that ends nothing, makes nothing and reminds of nothing is walked over. */
  lemma WalkOn(ds: C.ClientState, ds': C.ClientState, last: int, es: seq<C.Event>)
    requires es != [] && !G.Kills(ds.status, es[0]) && !G.SetsSending(ds.status, es[0]) && C.Apply(ds, es[0]) == ds'
    requires ds'.status != Ongoing || ds'.paymentRequested <= 0
    ensures F.Walk(ds, last, false, es) == F.Walk(ds', last, false, es[1..])
  {
    hide G.Kills, C.Apply, G.SetsSending, F.Pushes, C.RunsHandler;
  }

  lemma Spared(s: Status, n: nat, owed: int, v: int)
    requires s in {Ongoing, SendFunds, FundsNeeded}
    ensures !G.Kills(s, C.BlocksReceived(n)) && !G.Kills(s, C.PaymentRequested(owed)) && !G.Kills(s, C.PaymentSent(v))
    ensures !G.SetsSending(s, C.BlocksReceived(n)) && !G.SetsSending(s, C.PaymentRequested(owed)) && !G.SetsSending(s, C.PaymentSent(v))
  {
  }

  lemma LeftBehind(ds: C.ClientState, last: int)
    ensures F.Walk(ds, last, false, []) == F.Left(ds, false)
  {
  }

  /** A waiting provider whose client's walk leaves no voucher to make is never paid. */
  lemma SettledIsNeverPaid(x: Setting, moves: seq<J.Move>, j: J.Joint, d: C.ClientState)
    requires Ran(x, moves, j) && x.p.pricePerByte > 0 && Q.Waiting(j) && j.m.cs.status in G.PAYING
    requires F.Walk(j.m.cs, F.Last(j.m.vouchers), false, L.Coming(j.m)) == F.Left(d, false) && !F.Pushes(d, F.Last(j.m.vouchers))
    ensures Q.Settled(j) && !Q.Ended(j) && !Q.Stuck(j) && F.NeverPays(j.m) && forall v :: !Q.Resumes(j, v)
  {
    RanAny(x, moves, j);
    IsSettled(j, d);
    hide *;
    Q.PausedProviderIsPaidExactly(x.p, x.id, x.funds, moves);
  }

  lemma IsSettled(j: J.Joint, d: C.ClientState)
    requires j.m.cs.status in G.PAYING
    requires F.Walk(j.m.cs, F.Last(j.m.vouchers), false, L.Coming(j.m)) == F.Left(d, false) && !F.Pushes(d, F.Last(j.m.vouchers))
    ensures Q.Settled(j) && Q.Foreseen(j.m) == F.Never && !Q.Ended(j) && !Q.Stuck(j)
  {
    hide F.Walk, F.Pushes, F.Last, L.Coming;
  }

  // ---------- Two chunks ----------

  /** A first chunk that reaches the first boundary, and a second one with which the second is reached. */
  predicate TwoChunks(x: Setting, n: nat, k: nat) {
    && x.p.unsealPrice > 0 && x.p.pricePerByte > 0 && 0 < n && 0 < k && n <= x.chunk && k <= x.chunk
    && x.p.paymentInterval <= n && Boundary(x.p, 2) <= n + k
  }

  /** The first chunk is paid for in full, and the voucher taken. */
  lemma FirstIsTaken(x: Setting, n: nat, k: nat, owed: int, v: int) returns (moves: seq<J.Move>, j: J.Joint)
    requires TwoChunks(x, n, k) && owed == n * x.p.pricePerByte && v == owed + x.p.unsealPrice > 0
    ensures Ran(x, moves, j) && Open(j.t) && !j.t.paused && j.taken == 1 && j.data == [] && j.asks == []
    ensures j.t.deal.totalSent == n && j.t.deal.params == x.p && j.t.deal.currentInterval == Boundary(x.p, 2) && E.PaidBytes(j.t.deal) == n
    ensures j.t.accepted == 1 && j.t.deal.fundsReceived == v
    ensures j.m.vouchers == [v] && j.m.queue == [] && j.m.pending == Some(C.PaymentSent(v))
    ensures j.m.cs == Deal(x.p, x.funds, SendFunds, n, 0, x.p.paymentInterval, owed, 0)
  {
    moves, j := FirstIsForAll(x, n, owed, v);
    assert J.Received(j) == Some(v);
    assert E.PriceOf(x.p, 0) == x.p.unsealPrice;
    QuotientExact(n, x.p.pricePerByte);
    hide Ran, J.Received, E.PriceOf, Boundary;
    moves, j := Paid(x, moves, j, v);
  }

  /** A chunk reaches the interval, and the bytes not paid for, unpaid of them, are asked for. */
  lemma SendsFor(x: Setting, moves: seq<J.Move>, j: J.Joint, n: nat, unpaid: nat, owed: int) returns (moves': seq<J.Move>, j': J.Joint)
    requires Ran(x, moves, j) && x.p.pricePerByte > 0 && n <= x.chunk && Open(j.t) && !j.t.paused && j.t.deal.params == x.p
    requires j.t.deal.currentInterval <= j.t.deal.totalSent + n == E.PaidBytes(j.t.deal) + unpaid && owed == unpaid * x.p.pricePerByte
    ensures Ran(x, moves', j') && Open(j'.t) && j'.t.paused && j'.m == j.m && j'.taken == j.taken && j'.t.accepted == j.t.accepted
    ensures j'.t.deal == j.t.deal.(totalSent := j.t.deal.totalSent + n, status := j'.t.deal.status)
    ensures j'.data == j.data + [j.t.deal.totalSent + n] && j'.asks == j.asks + [C.PaymentRequested(owed)]
  {
    hide *;
    moves', j' := Sends(x, moves, j, n);
    assert j.t.deal.totalSent + n - E.PaidBytes(j.t.deal) == unpaid;
  }

  /** The second chunk is sent and asked for. */
  lemma SecondIsSent(x: Setting, n: nat, k: nat, owed: int, v: int, more: int) returns (moves: seq<J.Move>, j: J.Joint)
    requires TwoChunks(x, n, k) && owed == n * x.p.pricePerByte && v == owed + x.p.unsealPrice && more == k * x.p.pricePerByte
    ensures Ran(x, moves, j) && Open(j.t) && j.t.paused && j.taken == 1 && j.t.deal.totalSent == n + k
    ensures j.t.accepted == 1 && j.t.deal.fundsReceived == v && j.t.deal.params == x.p
    ensures j.data == [n + k] && j.asks == [C.PaymentRequested(more)]
    ensures j.m.vouchers == [v] && j.m.queue == [C.PaymentSent(v)] && j.m.pending.None?
    ensures j.m.cs == Deal(x.p, x.funds, SendFunds, n, 0, x.p.paymentInterval, owed, 0)
  {
    hide *;
    Sizes(x, n, k, v);
    moves, j := FirstIsTaken(x, n, k, owed, v);
    moves, j := SendsFor(x, moves, j, k, k, more);
    assert [] + [n + k] == [n + k] && [] + [C.PaymentRequested(more)] == [C.PaymentRequested(more)];
    moves, j := Hands(x, moves, j);
    assert [] + [C.PaymentSent(v)] == [C.PaymentSent(v)];
  }

  /** All of it stands in the queue of a client that has recorded its payment. */
  lemma SecondIsAsked(x: Setting, n: nat, k: nat, b: nat, v: int, left: int, more: int) returns (moves: seq<J.Move>, j: J.Joint)
    requires TwoChunks(x, n, k) && v == n * x.p.pricePerByte + x.p.unsealPrice && more == k * x.p.pricePerByte
    requires b == Boundary(x.p, 2) && left == 0 - x.p.unsealPrice
    ensures Ran(x, moves, j) && Q.Waiting(j) && j.m.vouchers == [v] && j.t.deal.totalSent == n + k
    ensures j.t.accepted == 1 && j.t.deal.fundsReceived == v && j.t.deal.params == x.p
    ensures j.m.queue == [C.BlocksReceived(n + k), C.PaymentRequested(more)] && j.m.pending.None?
    ensures j.m.cs == Deal(x.p, x.funds, Ongoing, n, n, b, left, v)
  {
    hide *;
    var owed := n * x.p.pricePerByte;
    Sizes(x, n, k, v);
    moves, j := SecondIsSent(x, n, k, owed, v, more);
    var cs := Deal(x.p, x.funds, Ongoing, n, n, b, left, v);
    Records(x.p, x.funds, SendFunds, n, 0, x.p.paymentInterval, b, owed, 0, n, v, left, Grants(j.m.vouchers, C.AmountToSend(cs)));
    NotReminded(left);
    Follows([C.PaymentSent(v)], C.SendFundsNow, j.m.vouchers);
    assert [C.PaymentSent(v)][1..] == [];
    moves, j := Turn(x, moves, j, cs, C.Effect(None, None), []);
    moves, j := Handed(x, moves, j, n + k, more);
    assert [] + [C.BlocksReceived(n + k), C.PaymentRequested(more)] == [C.BlocksReceived(n + k), C.PaymentRequested(more)];
    NowWaits(j);
  }

  /** The last bytes and the last request are handed over. */
  lemma Handed(x: Setting, moves: seq<J.Move>, j: J.Joint, r: nat, owed: int) returns (moves': seq<J.Move>, j': J.Joint)
    requires Ran(x, moves, j) && j.data == [r] && j.asks == [C.PaymentRequested(owed)]
    ensures Ran(x, moves', j') && j'.t == j.t && j'.taken == j.taken && j'.data == [] && j'.asks == []
    ensures j'.m == j.m.(queue := j.m.queue + [C.BlocksReceived(r), C.PaymentRequested(owed)], announced := j'.m.announced)
  {
    hide *;
    moves', j' := Receives(x, moves, j);
    moves', j' := IsAsked(x, moves', j');
    assert j.m.queue + [C.BlocksReceived(r)] + [C.PaymentRequested(owed)] == j.m.queue + [C.BlocksReceived(r), C.PaymentRequested(owed)];
  }

  lemma NowWaits(j: J.Joint)
    requires Open(j.t) && j.t.paused && j.data == [] && j.asks == [] && j.taken == |j.m.vouchers|
    ensures Q.Waiting(j)
  {
  }

  lemma NotReminded(asked: int)
    requires asked <= 0
    ensures Reminder(asked) == C.Effect(None, None)
  {
  }

  lemma Sizes(x: Setting, n: nat, k: nat, v: int)
    requires TwoChunks(x, n, k) && v == n * x.p.pricePerByte + x.p.unsealPrice
    ensures x.p.unsealPrice > 0 && x.p.pricePerByte > 0 && 0 < n && 0 < k && n <= x.chunk && k <= x.chunk
    ensures x.p.paymentInterval <= n && x.p.paymentInterval <= Boundary(x.p, 2) <= n + k
    ensures Boundary(x.p, 2) == NextInterval(x.p, x.p.paymentInterval) && 0 < v
  {
    assert Boundary(x.p, 1) == x.p.Step(0);
    L.NextAfter(x.p, 1);
    BoundaryMonotone(x.p, 1, 2);
    assert 0 <= n * x.p.pricePerByte;
  }

  // ---------- Paid ahead ----------

  /** The first chunk is of two intervals or more. */
  lemma PaidAhead(x: Setting, n: nat, k: nat)
    requires x.p.unsealPrice > 0 && x.p.pricePerByte > 0 && Boundary(x.p, 2) <= n && 0 < n && n + k == x.chunk
    requires 0 < k || x.p.unsealPrice < k * x.p.pricePerByte
    ensures TwoChunks(x, n, k) && 0 < k
    ensures x.p.unsealPrice + Boundary(x.p, 2) * x.p.pricePerByte <= n * x.p.pricePerByte + x.p.unsealPrice
    ensures 0 <= Boundary(x.p, 2) * x.p.pricePerByte
  {
    V.PaidAhead(x.p, n);
    hide Boundary;
  }

  /** Paid ahead, the client has no voucher to make. */
  lemma NothingToMake(x: Setting, s: Status, r: nat, n: nat, b: nat, asked: int, v: int)
    requires x.p.unsealPrice + b * x.p.pricePerByte <= v && 0 <= b * x.p.pricePerByte
    ensures !F.Pushes(Deal(x.p, x.funds, s, r, n, b, asked, v), v)
  {
  }

  /** At every unseal price, with every first chunk of two intervals or more and every second one, two honest parties on
      a funded channel come to a provider that waits for its second payment, and is never paid: the first voucher was
      for the whole first chunk, while the client's interval moved on by one boundary only. */
  lemma PaidAheadIsNeverPaid(p: Params, id: nat, funds: int, n: nat, k: nat) returns (moves: seq<J.Move>, j: J.Joint)
    requires p.unsealPrice > 0 && p.pricePerByte > 0 && Boundary(p, 2) <= n && 0 < n && 0 < k
    ensures Exec(J.Begin(p, id, funds), J.Enabled, J.Next, moves) == Some(j)
    ensures Q.Waiting(j) && j.t.deal.totalSent == n + k && j.m.vouchers == [n * p.pricePerByte + p.unsealPrice]
    ensures Q.Settled(j) && !Q.Ended(j) && !Q.Stuck(j) && F.NeverPays(j.m) && forall v :: !Q.Resumes(j, v)
  {
    hide *;
    var x := Setting(p, id, funds, n + k);
    PaidAhead(x, n, k);
    var left, b, v, more := 0 - p.unsealPrice, Boundary(p, 2), n * p.pricePerByte + p.unsealPrice, k * p.pricePerByte;
    moves, j := SecondIsAsked(x, n, k, b, v, left, more);
    Sizes(x, n, k, v);
    RanAny(x, moves, j);
    var d := SecondIsWalked(x, n, k, b, left, more, v);
    OneVoucher(j.m, v);
    DealIs(p, funds, Ongoing, n, n, b, left, v);
    OngoingPays();
    SettledIsNeverPaid(x, moves, j, d);
  }

  lemma OngoingPays()
    ensures Ongoing in G.PAYING
  {
  }

  lemma SecondIsWalked(x: Setting, n: nat, k: nat, b: nat, left: int, more: int, v: int) returns (d: C.ClientState)
    requires left <= 0 && b <= n && 0 < k && x.p.unsealPrice + b * x.p.pricePerByte <= v && 0 <= b * x.p.pricePerByte
    ensures !F.Pushes(d, v)
    ensures F.Walk(Deal(x.p, x.funds, Ongoing, n, n, b, left, v), v, false, [C.BlocksReceived(n + k), C.PaymentRequested(more)]) == F.Left(d, false)
  {
    hide *;
    var br, ask, r := C.BlocksReceived(n + k), C.PaymentRequested(more), n + k;
    var d0, d1 := Deal(x.p, x.funds, Ongoing, n, n, b, left, v), Deal(x.p, x.funds, Ongoing, r, n, b, left, v);
    d := Deal(x.p, x.funds, FundsNeeded, r, n, b, left + more, v);
    BytesArrive(x.p, x.funds, Ongoing, n, r, n, b, left, v, true);
    RequestArrives(x.p, x.funds, r, n, b, left, more, left + more, v, true);
    Happened(d0, br, d1, true, Reminder(left));
    Happened(d1, ask, d, true, C.Trigger(C.SendFundsNow));
    DealIs(x.p, x.funds, Ongoing, n, n, b, left, v);
    DealIs(x.p, x.funds, Ongoing, r, n, b, left, v);
    DealIs(x.p, x.funds, FundsNeeded, r, n, b, left + more, v);
    WalkTwo(d0, d1, d, v, br, ask);
    NothingToMake(x, FundsNeeded, r, n, b, left + more, v);
  }

  lemma OneVoucher(m: M.Machine, v: int)
    requires m.vouchers == [v] && m.pending.None?
    ensures F.Last(m.vouchers) == v && L.Coming(m) == m.queue
  {
  }

  lemma WalkTwo(d0: C.ClientState, d1: C.ClientState, d2: C.ClientState, last: int, a: C.Event, b: C.Event)
    requires a.BlocksReceived? && b.PaymentRequested? && d0.status == Ongoing && d1.status == Ongoing && d2.status == FundsNeeded
    requires C.Apply(d0, a) == d1 && C.Apply(d1, b) == d2 && d1.paymentRequested <= 0
    ensures F.Walk(d0, last, false, [a, b]) == F.Left(d2, false)
  {
    Spared(Ongoing, a.total, b.owed, 0);
    hide G.Kills, G.SetsSending, C.Apply, F.Walk;
    WalkOn(d0, d1, last, [a, b]);
    assert [a, b][1..] == [b] && [b][1..] == [];
    WalkOn(d1, d2, last, [b]);
    LeftBehind(d2, last);
  }

  /** The client has turned to the second request, and asks itself to pay. */
  lemma SecondIsDue(x: Setting, n: nat, k: nat, b: nat, v: int, left: int, more: int, asked: int) returns (moves: seq<J.Move>, j: J.Joint)
    requires TwoChunks(x, n, k) && v == n * x.p.pricePerByte + x.p.unsealPrice && more == k * x.p.pricePerByte
    requires b == Boundary(x.p, 2) && left == 0 - x.p.unsealPrice && asked == left + more
    ensures Ran(x, moves, j) && Q.Waiting(j) && j.m.vouchers == [v] && j.t.deal.totalSent == n + k
    ensures j.t.accepted == 1 && j.t.deal.fundsReceived == v && j.t.deal.params == x.p
    ensures j.m.queue == [C.SendFundsNow] && j.m.pending.None?
    ensures j.m.cs == Deal(x.p, x.funds, FundsNeeded, n + k, n, b, asked, v)
  {
    hide *;
    var r, br, ask := n + k, C.BlocksReceived(n + k), C.PaymentRequested(more);
    Sizes(x, n, k, v);
    moves, j := SecondIsAsked(x, n, k, b, v, left, more);
    var j0 := j;
    var cs := Deal(x.p, x.funds, Ongoing, r, n, b, left, v);
    BytesArrive(x.p, x.funds, Ongoing, n, r, n, b, left, v, Grants(j.m.vouchers, C.AmountToSend(cs)));
    NotReminded(left);
    Follows([br, ask], C.SendFundsNow, j.m.vouchers);
    assert [br, ask][1..] == [ask];
    moves, j := Turn(x, moves, j, cs, C.Effect(None, None), [ask]);
    cs := Deal(x.p, x.funds, FundsNeeded, r, n, b, asked, v);
    RequestArrives(x.p, x.funds, r, n, b, left, more, asked, v, Grants(j.m.vouchers, C.AmountToSend(cs)));
    Follows([ask], C.SendFundsNow, j.m.vouchers);
    assert [ask][1..] + [C.SendFundsNow] == [C.SendFundsNow];
    moves, j := Turn(x, moves, j, cs, C.Trigger(C.SendFundsNow), [C.SendFundsNow]);
    StillWaits(j0, j);
  }

  lemma StillWaits(j: J.Joint, j': J.Joint)
    requires Q.Waiting(j) && j' == j.(m := j'.m) && |j'.m.vouchers| == |j.m.vouchers|
    ensures Q.Waiting(j')
  {
  }

  /** Nothing is sent, and the client is reminded of the request. */
  lemma NothingIsSent(x: Setting, n: nat, k: nat, b: nat, v: int, asked: int) returns (moves: seq<J.Move>, j: J.Joint)
    requires TwoChunks(x, n, k) && v == n * x.p.pricePerByte + x.p.unsealPrice && 0 < asked == k * x.p.pricePerByte - x.p.unsealPrice
    requires b == Boundary(x.p, 2) && x.p.unsealPrice + b * x.p.pricePerByte <= v && 0 <= b * x.p.pricePerByte
    ensures Ran(x, moves, j) && Q.Waiting(j) && j.m.vouchers == [v] && j.t.deal.totalSent == n + k
    ensures j.m.queue == [] && j.m.pending == Some(C.PaymentRequested(0))
    ensures j.m.cs == Deal(x.p, x.funds, Ongoing, n + k, n, b, asked, v)
  {
    hide *;
    var r := n + k;
    moves, j := SecondIsDue(x, n, k, b, v, 0 - x.p.unsealPrice, k * x.p.pricePerByte, asked);
    var j0 := j;
    var cs := Deal(x.p, x.funds, SendFunds, r, n, b, asked, v);
    PaysNothing(x.p, x.funds, r, n, b, asked, v, Grants(j.m.vouchers, C.AmountToSend(cs)));
    Follows([C.SendFundsNow], C.PaymentNotSent, j.m.vouchers);
    assert [C.SendFundsNow][1..] + [C.PaymentNotSent] == [C.PaymentNotSent];
    moves, j := Turn(x, moves, j, cs, C.Trigger(C.PaymentNotSent), [C.PaymentNotSent]);
    cs := Deal(x.p, x.funds, Ongoing, r, n, b, asked, v);
    StaysAsked(x.p, x.funds, r, n, b, asked, v, Grants(j.m.vouchers, C.AmountToSend(cs)));
    V.Reminders(0, asked);
    moves, j := Takes(x, moves, j, cs, C.Trigger(C.PaymentRequested(0)));
    Follows([C.PaymentNotSent], C.PaymentRequested(0), [v]);
    assert [C.PaymentNotSent][1..] == [];
    StillWaits(j0, j);
  }

  /** If the second chunk is worth more than the unseal price, the client's cycle never comes to rest, and the provider
      waits for ever. */
  lemma PaidAheadCycles(p: Params, id: nat, funds: int, n: nat, k: nat) returns (moves: seq<J.Move>, j: J.Joint)
    requires p.unsealPrice > 0 && p.pricePerByte > 0 && Boundary(p, 2) <= n && 0 < n && p.unsealPrice < k * p.pricePerByte
    ensures Exec(J.Begin(p, id, funds), J.Enabled, J.Next, moves) == Some(j)
    ensures Q.Waiting(j) && j.t.deal.totalSent == n + k && j.m.vouchers == [n * p.pricePerByte + p.unsealPrice]
    ensures CY.AtOngoing(j.m) && CY.Futile(j.m.cs) && !CY.Quiesces(j.m)
    ensures Q.Settled(j) && !Q.Ended(j) && !Q.Stuck(j) && F.NeverPays(j.m) && forall v :: !Q.Resumes(j, v)
  {
    hide *;
    var x := Setting(p, id, funds, n + k);
    PaidAhead(x, n, k);
    var b, v, asked := Boundary(p, 2), n * p.pricePerByte + p.unsealPrice, k * p.pricePerByte - p.unsealPrice;
    moves, j := NothingIsSent(x, n, k, b, v, asked);
    RanAny(x, moves, j);
    Cycling(x, j.m, n + k, n, b, v, asked);
    var d := ReminderIsWalked(x, n + k, n, b, asked, v);
    OneComing(j.m, v, C.PaymentRequested(0));
    DealIs(p, funds, Ongoing, n + k, n, b, asked, v);
    OngoingPays();
    SettledIsNeverPaid(x, moves, j, d);
  }

  lemma Cycling(x: Setting, m: M.Machine, r: nat, n: nat, b: nat, v: int, asked: int)
    requires x.p.pricePerByte > 0 && b <= n < r && v == n * x.p.pricePerByte + x.p.unsealPrice && asked > 0
    requires m.cs == Deal(x.p, x.funds, Ongoing, r, n, b, asked, v) && m.queue == [] && m.pending == Some(C.PaymentRequested(0))
    ensures CY.AtOngoing(m) && CY.Futile(m.cs) && !CY.Quiesces(m)
  {
    V.FutileDeal(x.p, x.funds, r, n, b, v, asked);
    hide CY.Futile, CY.Quiesces, M.Worth, CY.Recorded;
    CY.CycleRestsExactly(m);
  }

  lemma OneComing(m: M.Machine, v: int, e: C.Event)
    requires m.vouchers == [v] && m.queue == [] && m.pending == Some(e)
    ensures F.Last(m.vouchers) == v && L.Coming(m) == [e]
  {
  }

  lemma ReminderIsWalked(x: Setting, r: nat, n: nat, b: nat, asked: int, v: int) returns (d: C.ClientState)
    requires b <= n < r && x.p.unsealPrice + b * x.p.pricePerByte <= v && 0 <= b * x.p.pricePerByte
    ensures !F.Pushes(d, v)
    ensures F.Walk(Deal(x.p, x.funds, Ongoing, r, n, b, asked, v), v, false, [C.PaymentRequested(0)]) == F.Left(d, false)
  {
    hide *;
    var d0, ask := Deal(x.p, x.funds, Ongoing, r, n, b, asked, v), C.PaymentRequested(0);
    d := Deal(x.p, x.funds, FundsNeeded, r, n, b, asked, v);
    RequestArrives(x.p, x.funds, r, n, b, asked, 0, asked, v, true);
    Happened(d0, ask, d, true, C.Trigger(C.SendFundsNow));
    DealIs(x.p, x.funds, Ongoing, r, n, b, asked, v);
    DealIs(x.p, x.funds, FundsNeeded, r, n, b, asked, v);
    Spared(Ongoing, 0, 0, 0);
    WalkOn(d0, d, v, [ask]);
    assert [ask][1..] == [];
    LeftBehind(d, v);
    NothingToMake(x, FundsNeeded, r, n, b, asked, v);
  }
}
