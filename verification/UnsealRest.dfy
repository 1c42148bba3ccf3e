/** Two honest parties on a funded channel and chunks no longer than an interval, and a provider that is never paid: the
    unseal price, settled out of what is requested, leaves the client in Ongoing with nothing that calls for a payment. */
module UnsealRest {
  import opened Options
  import opened Deals
  import opened Intervals
  import opened Numbers
  import opened Runs
  import opened ClientSteps
  import opened JointSteps
  import opened UnsealRuns
  import E = Exposure
  import C = Client
  import M = ClientRuns
  import L = ClientLadder
  import G = ClientProgress
  import F = ClientFate
  import I = ClientIdle
  import J = Lockstep
  import Q = PausedProvider
  import N = NoStuckPause

  /** Unsealing costs as much as the third interval, or more, and no chunk is longer than the second. */
  predicate Dear(x: Setting) {
    && x.p.pricePerByte > 0 && x.p.paymentInterval > 0
    && x.chunk == x.p.paymentInterval + x.p.paymentIntervalIncrease
    && (x.chunk + x.p.paymentIntervalIncrease) * x.p.pricePerByte <= x.p.unsealPrice
  }

  function B(x: Setting, k: nat): nat { Boundary(x.p, k) }

  /** What boundary k costs, unsealing included. */
  function Cost(x: Setting, k: nat): int { B(x, k) * x.p.pricePerByte + x.p.unsealPrice }

  /** What interval k costs. */
  function Step(x: Setting, k: nat): int
    requires 0 < k
  {
    (B(x, k) - B(x, k - 1)) * x.p.pricePerByte
  }

  lemma Bounds(x: Setting)
    requires Dear(x)
    ensures x.p.pricePerByte > 0 && x.p.unsealPrice > 0
    ensures 0 == B(x, 0) < B(x, 1) == x.p.paymentInterval <= x.chunk && B(x, 2) == B(x, 1) + x.chunk
    ensures B(x, 3) == B(x, 2) + x.p.paymentIntervalIncrease + x.chunk && x.p.paymentIntervalIncrease <= x.chunk
    ensures B(x, 2) == NextInterval(x.p, B(x, 1)) && B(x, 3) == NextInterval(x.p, B(x, 2))
    ensures TwoChunks(x, B(x, 1), x.chunk)
  {
    var p := x.p;
    assert Boundary(p, 1) == p.Step(0) && Boundary(p, 2) == Boundary(p, 1) + p.Step(1) && Boundary(p, 3) == Boundary(p, 2) + p.Step(2);
    assert p.Step(1) == x.chunk && p.Step(2) == p.paymentIntervalIncrease + x.chunk;
    L.NextAfter(p, 1);
    L.NextAfter(p, 2);
    MulStrict(0, x.chunk + p.paymentIntervalIncrease, p.pricePerByte);
  }

  lemma Costs(x: Setting)
    requires Dear(x)
    ensures 0 < Cost(x, 1) < Cost(x, 2) < Cost(x, 3) && x.p.unsealPrice <= Cost(x, 1)
    ensures Cost(x, 2) - Cost(x, 1) == Step(x, 2) == x.chunk * x.p.pricePerByte <= x.p.unsealPrice
    ensures Cost(x, 3) - Cost(x, 2) == Step(x, 3) == (B(x, 3) - B(x, 2)) * x.p.pricePerByte <= x.p.unsealPrice
    ensures forall k :: Cost(x, k) == B(x, k) * x.p.pricePerByte + x.p.unsealPrice
  {
    Bounds(x);
    var q := x.p.pricePerByte;
    hide Boundary, NextInterval, B, TwoChunks;
    MulStrict(B(x, 1), B(x, 2), q);
    MulStrict(B(x, 2), B(x, 3), q);
    MulMonotone(x.chunk, x.chunk + x.p.paymentIntervalIncrease, q);
    assert (B(x, 2) - B(x, 1)) * q == B(x, 2) * q - B(x, 1) * q;
    assert (B(x, 3) - B(x, 2)) * q == B(x, 3) * q - B(x, 2) * q;
  }

  // ---------- The run ----------

  /** The second boundary is paid, and the report of it about to join the queue. */
  lemma SecondIsPaid(x: Setting, asked: int) returns (moves: seq<J.Move>, j: J.Joint)
    requires Dear(x) && asked == Step(x, 2) - x.p.unsealPrice
    ensures Ran(x, moves, j) && Open(j.t) && j.taken == 1 && j.data == [] && j.asks == []
    ensures j.t.accepted == 1 && j.t.deal.fundsReceived == Cost(x, 1) && j.t.deal.params == x.p && j.t.deal.totalSent == B(x, 2)
    ensures j.m.vouchers == [Cost(x, 1), Cost(x, 2)] && j.m.queue == [] && j.m.pending == Some(C.PaymentSent(Cost(x, 2)))
    ensures j.m.cs == Deal(x.p, x.funds, SendFunds, B(x, 2), B(x, 1), B(x, 2), asked, Cost(x, 1))
  {
    hide *;
    Bounds(x);
    Costs(x);
    BIs(x);
    var b1, b2, v1, v2 := B(x, 1), B(x, 2), Cost(x, 1), Cost(x, 2);
    moves, j := SecondIsDue(x, b1, x.chunk, b2, v1, 0 - x.p.unsealPrice, x.chunk * x.p.pricePerByte, asked);
    WaitingFacts(j);
    var cs := Deal(x.p, x.funds, SendFunds, b2, b1, b2, asked, v1);
    PaysInterval(x.p, x.funds, b2, b1, b2, asked, v1, v2, true);
    GrantsRising(v1, v2);
    moves, j := Takes(x, moves, j, cs, C.Effect(Some(C.PaymentSent(v2)), Some(v2)));
    Pushed([v1], v2);
    assert [C.SendFundsNow][1..] == [] && [v1] + [v2] == [v1, v2];
  }

  lemma BIs(x: Setting)
    ensures B(x, 1) == Boundary(x.p, 1) && B(x, 2) == Boundary(x.p, 2) && B(x, 3) == Boundary(x.p, 3)
  {
  }

  lemma WaitingFacts(j: J.Joint)
    requires Q.Waiting(j)
    ensures Open(j.t) && j.t.paused && j.data == [] && j.asks == [] && j.taken == |j.m.vouchers|
  {
  }

  /** It is taken. */
  lemma SecondIsTaken(x: Setting, asked: int) returns (moves: seq<J.Move>, j: J.Joint)
    requires Dear(x) && asked == Step(x, 2) - x.p.unsealPrice
    ensures Ran(x, moves, j) && Open(j.t) && !j.t.paused && j.taken == 2 && j.data == [] && j.asks == []
    ensures j.t.deal.params == x.p && j.t.deal.totalSent == B(x, 2) && j.t.deal.currentInterval == B(x, 3) && j.t.deal.fundsReceived == Cost(x, 2)
    ensures j.m.vouchers == [Cost(x, 1), Cost(x, 2)] && j.m.queue == [] && j.m.pending == Some(C.PaymentSent(Cost(x, 2)))
    ensures j.m.cs == Deal(x.p, x.funds, SendFunds, B(x, 2), B(x, 1), B(x, 2), asked, Cost(x, 1))
  {
    hide *;
    moves, j := SecondIsPaid(x, asked);
    Costs(x);
    IsEnough(x, j);
    moves, j := Paid(x, moves, j, Cost(x, 2) - Cost(x, 1));
    BIs(x);
  }

  lemma IsEnough(x: Setting, j: J.Joint)
    requires j.taken == 1 && j.m.vouchers == [Cost(x, 1), Cost(x, 2)] && Cost(x, 1) < Cost(x, 2)
    ensures J.Received(j) == Some(Cost(x, 2) - Cost(x, 1)) && E.PriceOf(x.p, 1) == Cost(x, 1)
  {
    hide Boundary;
  }

  lemma PaidIs(x: Setting, j: J.Joint)
    requires x.p.pricePerByte > 0 && j.t.deal.params == x.p && j.t.deal.fundsReceived == Cost(x, 2)
    ensures E.PaidBytes(j.t.deal) == B(x, 2)
  {
    QuotientExact(B(x, 2), x.p.pricePerByte);
    hide Boundary, B;
  }

  /** The provider sends up to its third boundary, and all of it gets ahead of the report. */
  lemma ThirdIsAsked(x: Setting, asked: int) returns (moves: seq<J.Move>, j: J.Joint)
    requires Dear(x) && asked == Step(x, 2) - x.p.unsealPrice
    ensures Ran(x, moves, j) && Q.Waiting(j) && j.t.deal.totalSent == B(x, 3)
    ensures j.m.vouchers == [Cost(x, 1), Cost(x, 2)] && j.m.pending == Some(C.PaymentSent(Cost(x, 2)))
    ensures j.m.queue == [C.BlocksReceived(B(x, 2) + x.p.paymentIntervalIncrease), C.BlocksReceived(B(x, 3)), C.PaymentRequested(Step(x, 3))]
    ensures j.m.cs == Deal(x.p, x.funds, SendFunds, B(x, 2), B(x, 1), B(x, 2), asked, Cost(x, 1))
  {
    hide *;
    Bounds(x);
    moves, j := SecondIsTaken(x, asked);
    var b2, b3, i := B(x, 2), B(x, 3), x.p.paymentIntervalIncrease;
    moves, j := Sends(x, moves, j, i);
    assert [] + [b2 + i] == [b2 + i] && j.asks == [];
    PaidIs(x, j);
    Costs(x);
    moves, j := SendsFor(x, moves, j, x.chunk, b3 - b2, Step(x, 3));
    assert [b2 + i] + [b3] == [b2 + i, b3] && [] + [C.PaymentRequested(Step(x, 3))] == [C.PaymentRequested(Step(x, 3))];
    moves, j := Receives(x, moves, j);
    assert [b2 + i, b3][1..] == [b3] && [] + [C.BlocksReceived(b2 + i)] == [C.BlocksReceived(b2 + i)];
    moves, j := Handed(x, moves, j, b3, Step(x, 3));
    assert [C.BlocksReceived(b2 + i)] + [C.BlocksReceived(b3), C.PaymentRequested(Step(x, 3))]
        == [C.BlocksReceived(b2 + i), C.BlocksReceived(b3), C.PaymentRequested(Step(x, 3))];
    NowWaits(j);
  }

  // ---------- The rest ----------

  lemma WalkFour(d0: C.ClientState, d1: C.ClientState, d2: C.ClientState, d3: C.ClientState, d4: C.ClientState, last: int,
                 a: C.Event, b: C.Event, c: C.Event, e: C.Event)
    requires a.BlocksReceived? && b.BlocksReceived? && c.PaymentRequested? && e.PaymentSent?
    requires d0.status == SendFunds && d1.status == Ongoing && d2.status == Ongoing && d3.status == FundsNeeded && d4.status == Ongoing
    requires C.Apply(d0, a) == d1 && C.Apply(d1, b) == d2 && C.Apply(d2, c) == d3 && C.Apply(d3, e) == d4
    requires d1.paymentRequested <= 0 && d2.paymentRequested <= 0 && d4.paymentRequested <= 0
    ensures F.Walk(d0, last, false, [a, b, c, e]) == F.Left(d4, false)
  {
    hide *;
    Spared(SendFunds, a.total, 0, 0);
    Spared(Ongoing, b.total, c.owed, 0);
    Spared(FundsNeeded, 0, 0, e.amount);
    assert [a, b, c, e][1..] == [b, c, e] && [b, c, e][1..] == [c, e] && [c, e][1..] == [e] && [e][1..] == [];
    WalkOn(d0, d1, last, [a, b, c, e]);
    WalkOn(d1, d2, last, [b, c, e]);
    WalkOn(d2, d3, last, [c, e]);
    WalkOn(d3, d4, last, [e]);
    LeftBehind(d4, last);
  }

  /** The deal that the events leave behind: in Ongoing, no more requested than was spent. */
  function Resting(x: Setting): C.ClientState {
    Deal(x.p, x.funds, Ongoing, B(x, 3), B(x, 2), B(x, 3), Step(x, 3) - x.p.unsealPrice, Cost(x, 2))
  }

  lemma ThirdIsWalked(x: Setting, asked: int, last: int)
    requires Dear(x) && asked == Step(x, 2) - x.p.unsealPrice
    ensures F.Walk(Deal(x.p, x.funds, SendFunds, B(x, 2), B(x, 1), B(x, 2), asked, Cost(x, 1)), last, false,
                   [C.BlocksReceived(B(x, 2) + x.p.paymentIntervalIncrease), C.BlocksReceived(B(x, 3)),
                    C.PaymentRequested(Step(x, 3)), C.PaymentSent(Cost(x, 2))]) == F.Left(Resting(x), false)
  {
    hide *;
    Bounds(x);
    Costs(x);
    RestingIs(x);
    var b1, b2, b3, r, v1, v2 := B(x, 1), B(x, 2), B(x, 3), B(x, 2) + x.p.paymentIntervalIncrease, Cost(x, 1), Cost(x, 2);
    var owed, asked', left := Step(x, 3), asked + Step(x, 3), Step(x, 3) - x.p.unsealPrice;
    var d0, d1, d2 := Deal(x.p, x.funds, SendFunds, b2, b1, b2, asked, v1), Deal(x.p, x.funds, Ongoing, r, b1, b2, asked, v1), Deal(x.p, x.funds, Ongoing, b3, b1, b2, asked, v1);
    var d3, d4 := Deal(x.p, x.funds, FundsNeeded, b3, b1, b2, asked', v1), Deal(x.p, x.funds, Ongoing, b3, b2, b3, left, v2);
    BytesArrive(x.p, x.funds, SendFunds, b2, r, b1, b2, asked, v1, true);
    Happened(d0, C.BlocksReceived(r), d1, true, Reminder(asked));
    BytesArrive(x.p, x.funds, Ongoing, r, b3, b1, b2, asked, v1, true);
    Happened(d1, C.BlocksReceived(b3), d2, true, Reminder(asked));
    RequestArrives(x.p, x.funds, b3, b1, b2, asked, owed, asked', v1, true);
    Happened(d2, C.PaymentRequested(owed), d3, true, C.Trigger(C.SendFundsNow));
    Records(x.p, x.funds, FundsNeeded, b3, b1, b2, b3, asked', v1, b2, v2, left, true);
    Happened(d3, C.PaymentSent(v2), d4, true, Reminder(left));
    DealIs(x.p, x.funds, SendFunds, b2, b1, b2, asked, v1);
    DealIs(x.p, x.funds, Ongoing, r, b1, b2, asked, v1);
    DealIs(x.p, x.funds, Ongoing, b3, b1, b2, asked, v1);
    DealIs(x.p, x.funds, FundsNeeded, b3, b1, b2, asked', v1);
    DealIs(x.p, x.funds, Ongoing, b3, b2, b3, left, v2);
    WalkFour(d0, d1, d2, d3, d4, last, C.BlocksReceived(r), C.BlocksReceived(b3), C.PaymentRequested(owed), C.PaymentSent(v2));
  }

  lemma RestingIs(x: Setting)
    ensures Resting(x) == Deal(x.p, x.funds, Ongoing, B(x, 3), B(x, 2), B(x, 3), Step(x, 3) - x.p.unsealPrice, Cost(x, 2))
    ensures Resting(x).status == Ongoing
  {
    hide Boundary;
  }

  /** A voucher is to be made there, and nothing calls for it. */
  lemma RestingPushes(x: Setting)
    requires Dear(x)
    ensures F.Pushes(Resting(x), Cost(x, 2)) && !F.Goes(Resting(x), false)
  {
    Costs(x);
    hide Boundary;
  }

  lemma IsIdle(j: J.Joint, d: C.ClientState)
    requires j.m.cs.status in G.PAYING
    requires F.Walk(j.m.cs, F.Last(j.m.vouchers), false, L.Coming(j.m)) == F.Left(d, false)
    requires F.Pushes(d, F.Last(j.m.vouchers)) && !F.Goes(d, false)
    ensures Q.Idle(j) && Q.Foreseen(j.m) == F.Never && !Q.Ended(j) && !Q.Stuck(j) && j.m.cs.status in G.ALIVE
  {
    hide F.Walk, F.Pushes, F.Last, L.Coming, F.Goes;
  }

  lemma TwoVouchers(m: M.Machine, a: C.Event, b: C.Event, c: C.Event, e: C.Event, v: int, w: int)
    requires m.vouchers == [v, w] && m.queue == [a, b, c] && m.pending == Some(e)
    ensures F.Last(m.vouchers) == w && L.Coming(m) == [a, b, c, e]
  {
  }

  /** At every price, with every unseal price of what the third interval costs or more, and with chunks of at most the
      first interval plus its increase, two honest parties on a funded channel come to a provider that waits for its
      third payment while the client comes to rest in Ongoing, with a voucher to make that nothing calls for. */
  lemma HonestDealRests(p: Params, id: nat, funds: int) returns (moves: seq<J.Move>, j: J.Joint, d: C.ClientState)
    requires p.pricePerByte > 0 && p.paymentInterval > 0
    requires (p.paymentInterval + 2 * p.paymentIntervalIncrease) * p.pricePerByte <= p.unsealPrice
    ensures Exec(J.Begin(p, id, funds), J.EnabledUpTo(p.paymentInterval + p.paymentIntervalIncrease), J.Next, moves) == Some(j)
    ensures Q.Waiting(j) && j.t.deal.totalSent == Boundary(p, 3)
    ensures j.m.vouchers == [Boundary(p, 1) * p.pricePerByte + p.unsealPrice, Boundary(p, 2) * p.pricePerByte + p.unsealPrice]
    ensures Q.Idle(j) && !Q.Ended(j) && !Q.Stuck(j) && F.NeverPays(j.m) && forall v :: !Q.Resumes(j, v)
    ensures I.RestsAt(j.m, d) && d.status == Ongoing && d.totalReceived == Boundary(p, 3) && d.paymentRequested <= 0
  {
    hide *;
    var x := Setting(p, id, funds, p.paymentInterval + p.paymentIntervalIncrease);
    IsDear(x);
    moves, j := RestsAfter(x);
    d := Resting(x);
    Rested(x, moves, j);
  }

  lemma IsDear(x: Setting)
    requires x.p.pricePerByte > 0 && x.p.paymentInterval > 0 && x.chunk == x.p.paymentInterval + x.p.paymentIntervalIncrease
    requires (x.p.paymentInterval + 2 * x.p.paymentIntervalIncrease) * x.p.pricePerByte <= x.p.unsealPrice
    ensures Dear(x)
  {
    assert x.chunk + x.p.paymentIntervalIncrease == x.p.paymentInterval + 2 * x.p.paymentIntervalIncrease;
  }

  lemma Rested(x: Setting, moves: seq<J.Move>, j: J.Joint)
    requires Dear(x) && Ran(x, moves, j)
    ensures Exec(J.Begin(x.p, x.id, x.funds), J.EnabledUpTo(x.chunk), J.Next, moves) == Some(j)
    ensures var d := Resting(x); d.status == Ongoing && d.totalReceived == Boundary(x.p, 3) && d.paymentRequested <= 0
    ensures B(x, 3) == Boundary(x.p, 3)
    ensures Cost(x, 1) == Boundary(x.p, 1) * x.p.pricePerByte + x.p.unsealPrice && Cost(x, 2) == Boundary(x.p, 2) * x.p.pricePerByte + x.p.unsealPrice
  {
    hide J.Next, J.Begin, Exec, Boundary, Dear;
    Costs(x);
  }

  lemma RestsAfter(x: Setting) returns (moves: seq<J.Move>, j: J.Joint)
    requires Dear(x)
    ensures Ran(x, moves, j) && Q.Waiting(j) && j.t.deal.totalSent == B(x, 3) && j.m.vouchers == [Cost(x, 1), Cost(x, 2)]
    ensures Q.Idle(j) && !Q.Ended(j) && !Q.Stuck(j) && F.NeverPays(j.m) && forall v :: !Q.Resumes(j, v)
    ensures I.RestsAt(j.m, Resting(x))
  {
    hide *;
    var asked := Step(x, 2) - x.p.unsealPrice;
    Bounds(x);
    moves, j := ThirdIsAsked(x, asked);
    ThirdIsWalked(x, asked, Cost(x, 2));
    RestingPushes(x);
    TwoVouchers(j.m, C.BlocksReceived(B(x, 2) + x.p.paymentIntervalIncrease), C.BlocksReceived(B(x, 3)), C.PaymentRequested(Step(x, 3)),
                C.PaymentSent(Cost(x, 2)), Cost(x, 1), Cost(x, 2));
    DealIs(x.p, x.funds, SendFunds, B(x, 2), B(x, 1), B(x, 2), asked, Cost(x, 1));
    SendingPays();
    IsIdle(j, Resting(x));
    RanAny(x, moves, j);
    Q.PausedProviderIsPaidExactly(x.p, x.id, x.funds, moves);
    Q.RunsPaced(x.p, x.id, x.funds, moves);
    WaitingFacts(j);
    OpenRuns(j.t);
    Q.EarlyFits(x.p, j);
    RestingIs(x);
    I.IdleRests(j.m);
  }

  lemma SendingPays()
    ensures SendFunds in G.PAYING
  {
  }

  lemma OpenRuns(t: E.Transfer)
    requires Open(t)
    ensures !t.complete
  {
  }

  // ---------- When every waiting provider is paid ----------

  /** Every provider that waits on a deal that is neither ended nor stuck in its set-up is paid by the client alone. */
  ghost predicate AlwaysPaid(p: Params, id: nat, funds: int) {
    forall moves :: Exec(J.Begin(p, id, funds), J.Enabled, J.Next, moves).Some? ==>
      var j := Exec(J.Begin(p, id, funds), J.Enabled, J.Next, moves).value;
      Q.Waiting(j) && !Q.Ended(j) && !Q.Stuck(j) ==> exists v :: Q.Resumes(j, v)
  }

  /** At a positive price and first interval that is so in every joint run exactly when nothing is charged for
      unsealing. */
  lemma AlwaysPaidExactly(p: Params, id: nat, funds: int)
    requires p.pricePerByte > 0 && p.paymentInterval > 0
    ensures AlwaysPaid(p, id, funds) <==> p.unsealPrice == 0
  {
    hide Exec, J.Next, J.Enabled, J.Begin, Boundary, Q.Waiting, Q.Ended, Q.Stuck, Q.Resumes, Q.Settled, F.NeverPays;
    if p.unsealPrice == 0 {
      forall moves | Exec(J.Begin(p, id, funds), J.Enabled, J.Next, moves).Some?
        ensures var j := Exec(J.Begin(p, id, funds), J.Enabled, J.Next, moves).value;
                Q.Waiting(j) && !Q.Ended(j) && !Q.Stuck(j) ==> exists v :: Q.Resumes(j, v)
      {
        N.FreeUnsealingIsPaidExactly(p, id, funds, moves);
      }
    } else {
      var moves, j := PaidAheadIsNeverPaid(p, id, funds, Boundary(p, 2) + 1, 1);
    }
  }
}
