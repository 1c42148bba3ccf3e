/** Two honest parties on a funded channel, and a provider that is never paid: an attempt to pay left over from
    before makes the client ask for a voucher twice, and the refusal ends its deal. */
module StuckRun {
  import opened Options
  import opened Deals
  import opened Intervals
  import opened Numbers
  import opened Runs
  import opened ClientSteps
  import opened JointSteps
  import R = Revalidator
  import E = Exposure
  import C = Client
  import M = ClientRuns
  import L = ClientLadder
  import G = ClientProgress
  import O = ClientOutcome
  import F = ClientFate
  import J = Lockstep
  import Q = PausedProvider
  import N = NoStuckPause

  /** Nothing is charged for unsealing. */
  predicate Free(x: Setting) {
    x.p.unsealPrice == 0 && x.p.pricePerByte > 0 && x.p.paymentInterval > 0
  }

  /** Nothing is charged for unsealing, a second interval is two bytes or more, and chunks are as long as it. */
  predicate Honest(x: Setting) {
    && Free(x)
    && x.chunk == x.p.paymentInterval + x.p.paymentIntervalIncrease >= 2
  }

  function B(x: Setting, k: nat): nat { Boundary(x.p, k) }

  function Price(x: Setting, k: nat): nat { L.Rung(x.p, k) }

  // ---------- The provider's moves ----------

  lemma RanInv(x: Setting, moves: seq<J.Move>, j: J.Joint)
    requires Free(x) && Ran(x, moves, j) && Open(j.t)
    ensures J.Inv(x.p, j) && !j.m.cs.allBlocksReceived
  {
    RanAny(x, moves, j);
    hide *;
    N.RunsBilled(x.p, x.id, x.funds, moves);
    Q.RunsPaced(x.p, x.id, x.funds, moves);
    BilledInv(x.p, j);
  }

  lemma BilledInv(p: Params, j: J.Joint)
    requires N.Billed(p, j) && Q.Early(j) && Open(j.t)
    ensures J.Inv(p, j) && !j.m.cs.allBlocksReceived
  {
    hide J.Inv, Q.EndEvent;
  }

  /** The provider has been paid for the boundaries of the vouchers it took. */
  lemma InvFacts(p: Params, j: J.Joint)
    requires J.Inv(p, j) && !j.m.cs.allBlocksReceived
    ensures j.t.deal.params == p && j.t.accepted == j.taken && j.t.deal.currentInterval == Boundary(p, j.taken + 1)
    ensures p.pricePerByte > 0 && E.PaidBytes(j.t.deal) == Boundary(p, j.taken) && j.t.deal.fundsReceived == L.Rung(p, j.taken)
  {
    QuotientExact(Boundary(p, j.taken), p.pricePerByte);
    hide Boundary, L.Rungs, M.Inv, J.InFlight;
  }

  /** A chunk is sent; at the boundary the provider pauses, and asks for what is not paid. */
  lemma SendsOn(x: Setting, moves: seq<J.Move>, j: J.Joint, n: nat) returns (moves': seq<J.Move>, j': J.Joint)
    requires Free(x) && Ran(x, moves, j) && n <= x.chunk && Open(j.t) && !j.t.paused
    ensures var total := j.t.deal.totalSent + n;
            && Ran(x, moves', j') && Open(j'.t) && j'.m == j.m && j'.taken == j.taken
            && j'.t.deal.totalSent == total && j'.data == j.data + [total]
            && (j'.t.paused <==> B(x, j.taken + 1) <= total)
            && j'.asks == j.asks + (if j'.t.paused then [C.PaymentRequested((total - B(x, j.taken)) * x.p.pricePerByte)] else [])
  {
    hide Ran, J.Inv, Boundary, E.PaidBytes;
    RanInv(x, moves, j);
    InvFacts(x.p, j);
    moves', j' := Sends(x, moves, j, n);
  }

  /** A voucher is taken, and the transfer goes on. */
  lemma PaidOn(x: Setting, moves: seq<J.Move>, j: J.Joint) returns (moves': seq<J.Move>, j': J.Joint)
    requires Free(x) && Ran(x, moves, j) && Open(j.t) && j.taken < |j.m.vouchers|
    ensures Ran(x, moves', j') && j' == j.(t := j'.t, taken := j.taken + 1) && Open(j'.t) && !j'.t.paused
    ensures j'.t.deal.totalSent == j.t.deal.totalSent
  {
    hide Ran, J.Inv, Boundary, E.PaidBytes, J.Received, E.PriceOf, L.Rung, R.Revalidate;
    RanInv(x, moves, j);
    InvFacts(x.p, j);
    J.VoucherIsEnough(x.p, j);
    moves', j' := Paid(x, moves, j, J.Received(j).value);
  }

  // ---------- The client's turns ----------

  const ATTEMPT: C.Event := C.SendFundsNow
  const REMINDER: C.Event := C.PaymentRequested(0)

  lemma Named()
    ensures ATTEMPT == C.SendFundsNow && REMINDER == C.PaymentRequested(0)
  {
  }

  /** What is requested is reminded of. */
  lemma IsReminded(asked: int)
    requires asked > 0
    ensures Reminder(asked) == C.Trigger(REMINDER)
  {
  }

  lemma Shift(a: C.Event, b: C.Event, c: C.Event, d: C.Event, e: C.Event)
    ensures [a, b, c, d][1..] + Listed(Some(e)) == [b, c, d, e] && C.Trigger(e).trigger == Some(e)
  {
  }

  // ---------- Numbers ----------

  /** The first boundaries and their prices. */
  lemma Prices(x: Setting)
    requires Honest(x)
    ensures Free(x) && x.p.unsealPrice == 0 < x.p.pricePerByte
    ensures B(x, 0) == 0 < B(x, 1) == x.p.paymentInterval <= x.chunk && 2 <= x.chunk && B(x, 2) == B(x, 1) + x.chunk
    ensures B(x, 3) == B(x, 2) + x.p.paymentIntervalIncrease + x.chunk
    ensures B(x, 2) == NextInterval(x.p, B(x, 1)) && B(x, 3) == NextInterval(x.p, B(x, 2)) && B(x, 2) < B(x, 3)
    ensures Price(x, 0) == 0 < Price(x, 1) < Price(x, 2)
    ensures Price(x, 1) == B(x, 1) * x.p.pricePerByte && Price(x, 2) == B(x, 2) * x.p.pricePerByte
    ensures (B(x, 1) - B(x, 0)) * x.p.pricePerByte == Price(x, 1)
    ensures (B(x, 2) - B(x, 1)) * x.p.pricePerByte == Price(x, 2) - Price(x, 1)
  {
    var p := x.p;
    assert Boundary(p, 1) == p.Step(0) && Boundary(p, 2) == Boundary(p, 1) + p.Step(1) && Boundary(p, 3) == Boundary(p, 2) + p.Step(2);
    assert p.Step(1) == x.chunk && p.Step(2) == p.paymentIntervalIncrease + x.chunk;
    L.NextAfter(p, 1);
    L.NextAfter(p, 2);
    O.RungsApart(p, 1);
    O.RungsApart(p, 2);
    assert (B(x, 2) - B(x, 1)) * p.pricePerByte == B(x, 2) * p.pricePerByte - B(x, 1) * p.pricePerByte;
  }

  // ---------- The run ----------

  /** The first boundary is paid, and the report of it about to join the queue. */
  lemma FirstPayment(x: Setting) returns (moves: seq<J.Move>, j: J.Joint)
    requires Honest(x)
    ensures Ran(x, moves, j) && Open(j.t) && !j.t.paused && j.taken == 1 && j.t.deal.totalSent == B(x, 1)
    ensures j.data == [] && j.asks == [] && j.m.vouchers == [Price(x, 1)] && j.m.queue == []
    ensures j.m.pending == Some(C.PaymentSent(Price(x, 1)))
    ensures j.m.cs == Deal(x.p, x.funds, SendFunds, B(x, 1), 0, B(x, 1), Price(x, 1), 0)
  {
    hide *;
    var b, v := B(x, 1), Price(x, 1);
    Prices(x);
    Named();
    moves, j := FirstIsDue(x, b, v);
    var cs := Deal(x.p, x.funds, SendFunds, b, 0, b, v, 0);
    PaysInterval(x.p, x.funds, b, 0, b, v, 0, v, true);
    GrantsFirst(v);
    moves, j := Takes(x, moves, j, cs, C.Effect(Some(C.PaymentSent(v)), Some(v)));
    Pushed([], v);
    assert [ATTEMPT][1..] == [];
    moves, j := PaidOn(x, moves, j);
  }

  /** A trigger adds no voucher. */
  lemma Unpushed(vs: seq<int>, e: C.Event)
    ensures vs + Listed(C.Trigger(e).voucher) == vs
  {
  }

  /** The second interval is sent in two chunks, and asked for. */
  lemma SentTwice(x: Setting) returns (moves: seq<J.Move>, j: J.Joint)
    requires Honest(x)
    ensures Ran(x, moves, j) && Open(j.t) && j.taken == 1 && j.t.deal.totalSent == B(x, 2) && 0 < B(x, 2) && Price(x, 1) <= Price(x, 2)
    ensures j.data == [B(x, 2) - 1, B(x, 2)] && j.asks == [C.PaymentRequested(Price(x, 2) - Price(x, 1))]
    ensures j.m.vouchers == [Price(x, 1)] && j.m.queue == [] && j.m.pending == Some(C.PaymentSent(Price(x, 1)))
    ensures j.m.cs == Deal(x.p, x.funds, SendFunds, B(x, 1), 0, B(x, 1), Price(x, 1), 0)
  {
    hide *;
    Prices(x);
    Named();
    moves, j := FirstPayment(x);
    moves, j := SendsOn(x, moves, j, x.chunk - 1);
    moves, j := SendsOn(x, moves, j, 1);
  }

  /** Before it does, two more chunks and the request for them get ahead of it. */
  lemma Overtaken(x: Setting) returns (moves: seq<J.Move>, j: J.Joint)
    requires Honest(x)
    ensures Ran(x, moves, j) && Open(j.t) && j.taken == 1 && j.t.deal.totalSent == B(x, 2)
    ensures j.data == [] && j.asks == [] && j.m.vouchers == [Price(x, 1)] && j.m.pending.None?
    ensures j.m.queue == [C.BlocksReceived(B(x, 2) - 1), C.PaymentRequested(Price(x, 2) - Price(x, 1)),
                          C.BlocksReceived(B(x, 2)), C.PaymentSent(Price(x, 1))]
    ensures j.m.cs == Deal(x.p, x.funds, SendFunds, B(x, 1), 0, B(x, 1), Price(x, 1), 0)
  {
    hide *;
    Prices(x);
    Named();
    var b, ask, ps := B(x, 2), C.PaymentRequested(Price(x, 2) - Price(x, 1)), C.PaymentSent(Price(x, 1));
    moves, j := SentTwice(x);
    moves, j := Receives(x, moves, j);
    assert j.m.queue == [C.BlocksReceived(b - 1)] && j.data == [b];
    moves, j := IsAsked(x, moves, j);
    assert j.m.queue == [C.BlocksReceived(b - 1), ask];
    moves, j := Receives(x, moves, j);
    assert j.m.queue == [C.BlocksReceived(b - 1), ask, C.BlocksReceived(b)];
    moves, j := Hands(x, moves, j);
  }

  /** The second boundary is asked for while the report waits. */
  lemma AskedTwice(x: Setting) returns (moves: seq<J.Move>, j: J.Joint)
    requires Honest(x)
    ensures Ran(x, moves, j) && Open(j.t) && j.taken == 1 && j.t.deal.totalSent == B(x, 2)
    ensures j.data == [] && j.asks == [] && j.m.vouchers == [Price(x, 1)] && j.m.pending.None?
    ensures j.m.queue == [C.PaymentSent(Price(x, 1)), REMINDER, ATTEMPT, ATTEMPT]
    ensures j.m.cs == Deal(x.p, x.funds, FundsNeeded, B(x, 2), 0, B(x, 1), Price(x, 2), 0)
  {
    hide *;
    Prices(x);
    Named();
    var b1, b2, v1, v2 := B(x, 1), B(x, 2), Price(x, 1), Price(x, 2);
    var br0, br, ps, ask := C.BlocksReceived(b2 - 1), C.BlocksReceived(b2), C.PaymentSent(v1), C.PaymentRequested(v2 - v1);
    moves, j := Overtaken(x);
    Unpushed([v1], REMINDER);
    Unpushed([v1], ATTEMPT);
    var cs := Deal(x.p, x.funds, Ongoing, b2 - 1, 0, b1, v1, 0);
    BytesArrive(x.p, x.funds, SendFunds, b1, b2 - 1, 0, b1, v1, 0, Grants(j.m.vouchers, C.AmountToSend(cs)));
    IsReminded(v1);
    Shift(br0, ask, br, ps, REMINDER);
    moves, j := Turn(x, moves, j, cs, C.Trigger(REMINDER), [ask, br, ps, REMINDER]);
    cs := Deal(x.p, x.funds, FundsNeeded, b2 - 1, 0, b1, v2, 0);
    RequestArrives(x.p, x.funds, b2 - 1, 0, b1, v1, v2 - v1, v2, 0, Grants(j.m.vouchers, C.AmountToSend(cs)));
    Shift(ask, br, ps, REMINDER, ATTEMPT);
    moves, j := Turn(x, moves, j, cs, C.Trigger(ATTEMPT), [br, ps, REMINDER, ATTEMPT]);
    cs := Deal(x.p, x.funds, FundsNeeded, b2, 0, b1, v2, 0);
    BytesAreDue(x.p, x.funds, b2 - 1, b2, 0, b1, v2, 0, Grants(j.m.vouchers, C.AmountToSend(cs)));
    Shift(br, ps, REMINDER, ATTEMPT, ATTEMPT);
    moves, j := Turn(x, moves, j, cs, C.Trigger(ATTEMPT), [ps, REMINDER, ATTEMPT, ATTEMPT]);
  }

  /** The first payment is recorded, and the second due. */
  lemma RecordedFirst(x: Setting) returns (moves: seq<J.Move>, j: J.Joint)
    requires Honest(x)
    ensures Ran(x, moves, j) && Open(j.t) && j.taken == 1 && j.t.deal.totalSent == B(x, 2)
    ensures j.data == [] && j.asks == [] && j.m.vouchers == [Price(x, 1)] && j.m.pending.None?
    ensures j.m.queue == [ATTEMPT, ATTEMPT, REMINDER, ATTEMPT]
    ensures j.m.cs == Deal(x.p, x.funds, FundsNeeded, B(x, 2), B(x, 1), B(x, 2), Price(x, 2) - Price(x, 1), Price(x, 1))
  {
    hide *;
    var b1, b2, v1, v2, owed := B(x, 1), B(x, 2), Price(x, 1), Price(x, 2), Price(x, 2) - Price(x, 1);
    var ps1 := C.PaymentSent(v1);
    Prices(x);
    Named();
    moves, j := AskedTwice(x);
    Unpushed([v1], REMINDER);
    Unpushed([v1], ATTEMPT);
    var cs := Deal(x.p, x.funds, Ongoing, b2, b1, b2, owed, v1);
    Records(x.p, x.funds, FundsNeeded, b2, 0, b1, b2, v2, 0, b1, v1, owed, Grants(j.m.vouchers, C.AmountToSend(cs)));
    IsReminded(owed);
    Shift(ps1, REMINDER, ATTEMPT, ATTEMPT, REMINDER);
    moves, j := Turn(x, moves, j, cs, C.Trigger(REMINDER), [REMINDER, ATTEMPT, ATTEMPT, REMINDER]);
    cs := Deal(x.p, x.funds, FundsNeeded, b2, b1, b2, owed, v1);
    RequestArrives(x.p, x.funds, b2, b1, b2, owed, 0, owed, v1, Grants(j.m.vouchers, C.AmountToSend(cs)));
    Shift(REMINDER, ATTEMPT, ATTEMPT, REMINDER, ATTEMPT);
    moves, j := Turn(x, moves, j, cs, C.Trigger(ATTEMPT), [ATTEMPT, ATTEMPT, REMINDER, ATTEMPT]);
  }

  /** It is paid, and the report of that stands behind two more attempts. */
  lemma SecondPayment(x: Setting) returns (moves: seq<J.Move>, j: J.Joint)
    requires Honest(x)
    ensures Ran(x, moves, j) && Open(j.t) && !j.t.paused && j.taken == 2 && j.t.deal.totalSent == B(x, 2)
    ensures j.data == [] && j.asks == [] && j.m.vouchers == [Price(x, 1), Price(x, 2)] && j.m.pending.None?
    ensures j.m.queue == [ATTEMPT, REMINDER, ATTEMPT, C.PaymentSent(Price(x, 2))]
    ensures j.m.cs == Deal(x.p, x.funds, SendFunds, B(x, 2), B(x, 1), B(x, 2), Price(x, 2) - Price(x, 1), Price(x, 1))
  {
    hide *;
    var b1, b2, v1, v2, owed := B(x, 1), B(x, 2), Price(x, 1), Price(x, 2), Price(x, 2) - Price(x, 1);
    var ps := C.PaymentSent(v2);
    Prices(x);
    Named();
    moves, j := RecordedFirst(x);
    var cs := Deal(x.p, x.funds, SendFunds, b2, b1, b2, owed, v1);
    PaysInterval(x.p, x.funds, b2, b1, b2, owed, v1, v2, true);
    GrantsRising(v1, v2);
    Shift(ATTEMPT, ATTEMPT, REMINDER, ATTEMPT, ps);
    Pushed([v1], v2);
    moves, j := Turn(x, moves, j, cs, C.Effect(Some(ps), Some(v2)), [ATTEMPT, REMINDER, ATTEMPT, ps]);
    moves, j := PaidOn(x, moves, j);
  }

  /** One of these asks for the same voucher again, and is refused. */
  lemma Refused(x: Setting) returns (moves: seq<J.Move>, j: J.Joint)
    requires Honest(x)
    ensures Ran(x, moves, j) && Open(j.t) && !j.t.paused && j.taken == 2 && j.t.deal.totalSent == B(x, 2)
    ensures j.data == [] && j.asks == [] && j.m.vouchers == [Price(x, 1), Price(x, 2)] && j.m.pending.None?
    ensures j.m.queue == [C.PaymentSent(Price(x, 2)), REMINDER, ATTEMPT, C.CreateVoucherFailed]
    ensures j.m.cs == Deal(x.p, x.funds, SendFunds, B(x, 2), B(x, 1), B(x, 2), Price(x, 2) - Price(x, 1), Price(x, 1))
  {
    hide *;
    var b1, b2, v1, v2, owed := B(x, 1), B(x, 2), Price(x, 1), Price(x, 2), Price(x, 2) - Price(x, 1);
    var ps, no := C.PaymentSent(v2), C.CreateVoucherFailed;
    Prices(x);
    Named();
    moves, j := SecondPayment(x);
    Unpushed([v1, v2], REMINDER);
    Unpushed([v1, v2], ATTEMPT);
    Unpushed([v1, v2], no);
    var cs := Deal(x.p, x.funds, Ongoing, b2, b1, b2, owed, v1);
    AttemptAgain(x.p, x.funds, b2, b1, b2, owed, v1, Grants(j.m.vouchers, C.AmountToSend(cs)));
    IsReminded(owed);
    Shift(ATTEMPT, REMINDER, ATTEMPT, ps, REMINDER);
    moves, j := Turn(x, moves, j, cs, C.Trigger(REMINDER), [REMINDER, ATTEMPT, ps, REMINDER]);
    cs := Deal(x.p, x.funds, FundsNeeded, b2, b1, b2, owed, v1);
    RequestArrives(x.p, x.funds, b2, b1, b2, owed, 0, owed, v1, Grants(j.m.vouchers, C.AmountToSend(cs)));
    Shift(REMINDER, ATTEMPT, ps, REMINDER, ATTEMPT);
    moves, j := Turn(x, moves, j, cs, C.Trigger(ATTEMPT), [ATTEMPT, ps, REMINDER, ATTEMPT]);
    cs := Deal(x.p, x.funds, SendFunds, b2, b1, b2, owed, v1);
    PaysInterval(x.p, x.funds, b2, b1, b2, owed, v1, v2, false);
    GrantsRising(v1, v2);
    Shift(ATTEMPT, ps, REMINDER, ATTEMPT, no);
    moves, j := Turn(x, moves, j, cs, C.Trigger(no), [ps, REMINDER, ATTEMPT, no]);
  }

  /** The provider sends up to its third boundary, and all of it reaches the queue behind the refusal. */
  lemma ThirdInterval(x: Setting) returns (moves: seq<J.Move>, j: J.Joint)
    requires Honest(x)
    ensures Ran(x, moves, j) && Q.Waiting(j) && j.t.deal.totalSent == B(x, 3)
    ensures j.m.vouchers == [Price(x, 1), Price(x, 2)]
    ensures j.m.cs == Deal(x.p, x.funds, SendFunds, B(x, 2), B(x, 1), B(x, 2), Price(x, 2) - Price(x, 1), Price(x, 1))
    ensures |L.Coming(j.m)| >= 4 && L.Coming(j.m)[..4] == [C.PaymentSent(Price(x, 2)), REMINDER, ATTEMPT, C.CreateVoucherFailed]
  {
    moves, j := Refused(x);
    Prices(x);
    hide Ran, Boundary, L.Rung, NextInterval, B, Price;
    var q := j.m.queue;
    moves, j := SendsOn(x, moves, j, x.p.paymentIntervalIncrease);
    moves, j := SendsOn(x, moves, j, x.chunk);
    moves, j := Receives(x, moves, j);
    moves, j := Receives(x, moves, j);
    moves, j := IsAsked(x, moves, j);
    assert L.Coming(j.m) == j.m.queue && j.m.queue[..4] == q;
  }

  /** An event that neither ends the deal nor makes a voucher leaves the end to come. */
  lemma EndsOn(ds: C.ClientState, ds': C.ClientState, last: int, es: seq<C.Event>)
    requires es != [] && !G.Kills(ds.status, es[0]) && C.Apply(ds, es[0]) == ds'
    requires !(G.SetsSending(ds.status, es[0]) && F.Pushes(ds', last))
    requires F.Walk(ds', last, false, es[1..]) == F.Ends
    ensures F.Walk(ds, last, false, es) == F.Ends
  {
    hide G.Kills, C.Apply, G.SetsSending, F.Pushes, F.Reminds;
    F.WalkReminded(ds', last, es[1..]);
  }

  lemma ReportSpares(v: int)
    ensures !G.Kills(SendFunds, C.PaymentSent(v)) && !G.SetsSending(SendFunds, C.PaymentSent(v))
  {
  }

  lemma ReminderSpares()
    ensures !G.Kills(Ongoing, REMINDER) && !G.SetsSending(Ongoing, REMINDER)
  {
  }

  lemma RefusalKills()
    ensures !G.Kills(FundsNeeded, ATTEMPT) && G.Kills(SendFunds, C.CreateVoucherFailed)
  {
  }

  /** Sending sets in before the interval is received: there is nothing to send. */
  lemma NothingToSend(x: Setting, r: nat, paid: nat, i: nat, asked: int, spent: int, last: int)
    requires Honest(x) && r < i && 0 <= spent
    ensures var ds := Deal(x.p, x.funds, SendFunds, r, paid, i, asked, spent);
            C.Apply(Deal(x.p, x.funds, FundsNeeded, r, paid, i, asked, spent), ATTEMPT) == ds && !F.Pushes(ds, last)
  {
  }

  /** A refusal behind a reminder and an attempt is met when sending has set in before the bytes due are there. */
  lemma AttemptEnds(x: Setting, r: nat, i: nat, spent: int, last: int, es: seq<C.Event>)
    requires Honest(x) && r < i && 0 <= spent && |es| >= 3 && es[0] == REMINDER && es[1] == ATTEMPT && es[2] == C.CreateVoucherFailed
    ensures F.Walk(Deal(x.p, x.funds, Ongoing, r, r, i, 0, spent), last, false, es) == F.Ends
  {
    hide *;
    var e1, e2 := es[1..], es[2..];
    assert e1[0] == es[1] && e2[0] == es[2] && e1[1..] == e2;
    var d1, d2, d3 := Deal(x.p, x.funds, Ongoing, r, r, i, 0, spent), Deal(x.p, x.funds, FundsNeeded, r, r, i, 0, spent), Deal(x.p, x.funds, SendFunds, r, r, i, 0, spent);
    DealIs(x.p, x.funds, Ongoing, r, r, i, 0, spent);
    DealIs(x.p, x.funds, FundsNeeded, r, r, i, 0, spent);
    DealIs(x.p, x.funds, SendFunds, r, r, i, 0, spent);
    RefusalKills();
    ReminderSpares();
    EndsNow(d3, last, e2);
    NothingToSend(x, r, r, i, 0, spent, last);
    EndsOn(d2, d3, last, e1);
    Asked(x, r, r, i, spent);
    EndsOn(d1, d2, last, es);
  }

  /** So it is behind the report of the second payment. */
  lemma RefusalIsMet(x: Setting, last: int, es: seq<C.Event>)
    requires Honest(x)
    requires |es| >= 4 && es[..4] == [C.PaymentSent(Price(x, 2)), REMINDER, ATTEMPT, C.CreateVoucherFailed]
    ensures F.Walk(Deal(x.p, x.funds, SendFunds, B(x, 2), B(x, 1), B(x, 2), Price(x, 2) - Price(x, 1), Price(x, 1)), last, false, es) == F.Ends
  {
    hide *;
    var b1, b2, b3, v1, v2 := B(x, 1), B(x, 2), B(x, 3), Price(x, 1), Price(x, 2);
    Prices(x);
    var head := es[..4];
    assert es[0] == head[0] && es[1..][0] == head[1] && es[1..][1] == head[2] && es[1..][2] == head[3];
    AttemptEnds(x, b2, b3, v2, last, es[1..]);
    var d0, d1 := Deal(x.p, x.funds, SendFunds, b2, b1, b2, v2 - v1, v1), Deal(x.p, x.funds, Ongoing, b2, b2, b3, 0, v2);
    Records(x.p, x.funds, SendFunds, b2, b1, b2, b3, v2 - v1, v1, b2, v2, 0, true);
    Happened(d0, es[0], d1, true, Reminder(0));
    DealIs(x.p, x.funds, SendFunds, b2, b1, b2, v2 - v1, v1);
    ReportSpares(v2);
    EndsOn(d0, d1, last, es);
  }

  lemma EndsNow(ds: C.ClientState, last: int, es: seq<C.Event>)
    requires es != [] && G.Kills(ds.status, es[0])
    ensures F.Walk(ds, last, false, es) == F.Ends
  {
  }

  /** A reminder with nothing due. */
  lemma Asked(x: Setting, r: nat, paid: nat, i: nat, spent: int)
    ensures C.Apply(Deal(x.p, x.funds, Ongoing, r, paid, i, 0, spent), REMINDER) == Deal(x.p, x.funds, FundsNeeded, r, paid, i, 0, spent)
  {
  }

  /** At every price, and with a second interval of two bytes or more, two honest parties on a funded channel
      come to a provider that waits for its third payment and a client, still in its paying phase, whose deal
      ends without it. Nothing but acceptance, data, requests and vouchers passes between them. */
  lemma HonestDealGetsStuck(p: Params, id: nat, funds: int) returns (moves: seq<J.Move>, j: J.Joint)
    requires p.unsealPrice == 0 && p.pricePerByte > 0 && p.paymentInterval > 0
    requires p.paymentInterval + p.paymentIntervalIncrease >= 2
    ensures var c := p.paymentInterval + p.paymentIntervalIncrease;
            Exec(J.Begin(p, id, funds), J.EnabledUpTo(c), J.Next, moves) == Some(j)
    ensures Q.Waiting(j) && j.m.cs.status == SendFunds && Q.Ended(j) && O.Dies(j.m)
    ensures j.t.deal.totalSent == Boundary(p, 3)
    ensures j.m.vouchers == [Boundary(p, 1) * p.pricePerByte, Boundary(p, 2) * p.pricePerByte]
  {
    var x := Setting(p, id, funds, p.paymentInterval + p.paymentIntervalIncrease);
    moves, j := ThirdInterval(x);
    Prices(x);
    assert Exec(J.Begin(p, id, funds), J.EnabledUpTo(x.chunk), J.Next, moves) == Some(j) && Honest(x);
    assert Price(x, 1) == Boundary(p, 1) * p.pricePerByte && Price(x, 2) == Boundary(p, 2) * p.pricePerByte;
    assert B(x, 3) == Boundary(p, 3) && B(x, 2) == Boundary(p, 2) && B(x, 1) == Boundary(p, 1);
    hide *;
    RefusalIsMet(x, F.Last(j.m.vouchers), L.Coming(j.m));
    DealIs(x.p, x.funds, SendFunds, B(x, 2), B(x, 1), B(x, 2), Price(x, 2) - Price(x, 1), Price(x, 1));
    IsEnded(j);
    RanAny(x, moves, j);
    N.FreeUnsealingIsPaidExactly(p, id, funds, moves);
  }

  lemma IsEnded(j: J.Joint)
    requires j.m.cs.status == SendFunds && F.Walk(j.m.cs, F.Last(j.m.vouchers), false, L.Coming(j.m)) == F.Ends
    ensures Q.Ended(j)
  {
    hide F.Walk, L.Coming;
  }
}
