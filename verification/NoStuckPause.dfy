/** With nothing charged for unsealing a provider that paused for payment is paid for the boundary it waits for, in every
    joint run and with chunks of any size, unless an event in the client's queue ends the deal first or none gets it
    under way. */
module NoStuckPause {
  import opened Options
  import opened Deals
  import opened Intervals
  import opened Numbers
  import opened Runs
  import P = Provider
  import R = Revalidator
  import E = Exposure
  import C = Client
  import M = ClientRuns
  import L = ClientLadder
  import G = ClientProgress
  import O = ClientOutcome
  import S = ClientSetup
  import F = ClientFate
  import I = ClientIdle
  import J = Lockstep
  import Q = PausedProvider

  // ---------- The client's next voucher ----------

  /** Sending funds makes a voucher only for the next boundary. */
  lemma PushesRung(p: Params, ds: C.ClientState, vouchers: seq<int>, es: seq<C.Event>)
    requires L.Rungs(p, ds, vouchers, es) && ds.params == p && p.unsealPrice == 0 && !ds.allBlocksReceived
    ensures F.Pushes(ds, F.Last(vouchers)) ==> C.AmountToSend(ds) == L.Rung(p, |vouchers| + 1)
  {
    hide Boundary;
  }

  lemma RungsStep(p: Params, ds: C.ClientState, vouchers: seq<int>, es: seq<C.Event>)
    requires es != [] && L.Rungs(p, ds, vouchers, es) && G.OrderedBytes(ds.totalReceived, es)
    requires ds.params == p && p.unsealPrice == 0 && p.pricePerByte > 0
    ensures var ds' := C.Apply(ds, es[0]);
            L.Rungs(p, ds', vouchers, es[1..]) && G.OrderedBytes(ds'.totalReceived, es[1..]) && ds'.params == p
  {
    hide C.Apply, C.Transition, L.Rungs;
    assert forall i :: 0 <= i < |es| - 1 ==> es[1..][i] == es[i + 1];
    M.ActTotalReceived(ds, es[0]);
    L.ApplyKeepsRungs(p, ds, vouchers, es);
    L.ParamsStay(ds, es[0]);
  }

  /** So does a walk, and what it leaves behind has recorded every voucher. */
  lemma {:induction false} WalkClimbs(p: Params, ds: C.ClientState, vouchers: seq<int>, reminded: bool, es: seq<C.Event>)
    requires F.Sound(ds, vouchers, es) && L.Rungs(p, ds, vouchers, es) && G.OrderedBytes(ds.totalReceived, es)
    requires ds.params == p && p.unsealPrice == 0 && p.pricePerByte > 0
    ensures match F.Walk(ds, F.Last(vouchers), reminded, es)
            case Ends => true
            case Makes(v) => v == L.Rung(p, |vouchers| + 1)
            case Left(d, _) => L.Rungs(p, d, vouchers, []) && d.params == p
    decreases |es|
  {
    hide F.Sound, L.Rungs, G.OrderedBytes, G.Kills, C.Apply, G.SetsSending, F.Pushes, F.Reminds, C.AmountToSend, L.Rung, F.Last;
    if es != [] && !G.Kills(ds.status, es[0]) {
      var ds' := C.Apply(ds, es[0]);
      RungsStep(p, ds, vouchers, es);
      if G.SetsSending(ds.status, es[0]) && F.Pushes(ds', F.Last(vouchers)) {
        SentNotAll(ds, vouchers, es);
        PushesRung(p, ds', vouchers, es[1..]);
      } else {
        F.SoundStep(ds, vouchers, es);
        WalkClimbs(p, ds', vouchers, reminded || F.Reminds(ds, es[0]), es[1..]);
      }
    }
  }

  lemma SentNotAll(ds: C.ClientState, vouchers: seq<int>, es: seq<C.Event>)
    requires F.Sound(ds, vouchers, es) && es != []
    ensures !C.Apply(ds, es[0]).allBlocksReceived
  {
    F.EventApplied(ds, es[0]);
    hide C.Apply, C.Transition;
  }

  lemma RungRises(p: Params, k: nat)
    requires p.pricePerByte > 0 && p.paymentInterval > 0
    ensures L.Rung(p, k) < L.Rung(p, k + 1)
  {
    StepGrows(p, k);
    MulStrict(Boundary(p, k), Boundary(p, k + 1), p.pricePerByte);
  }

  /** A deal left behind that has recorded every voucher and received the next boundary has its voucher to make. */
  lemma LeftPushes(p: Params, d: C.ClientState, vouchers: seq<int>)
    requires F.Sound(d, vouchers, []) && L.Rungs(p, d, vouchers, []) && d.params == p && p.unsealPrice == 0
    requires p.pricePerByte > 0 && p.paymentInterval > 0 && Boundary(p, |vouchers| + 1) <= d.totalReceived
    ensures F.Pushes(d, F.Last(vouchers)) && C.AmountToSend(d) == L.Rung(p, |vouchers| + 1)
  {
    var k := |vouchers|;
    RungRises(p, k);
    I.SpentAll(d, vouchers);
    assert k == 0 ==> L.Rung(p, 0) == 0;
    assert F.Last(vouchers) == L.Rung(p, k);
    hide Boundary;
  }

  /** More is requested, in all, than the last voucher is worth, and the next boundary is received or on its way: a
      client that is neither stalled nor at its deal's end makes the voucher for it. */
  lemma NextBoundaryIsPaid(p: Params, m: M.Machine)
    requires F.Fit(m) && L.Ladder(p, m) && p.paymentInterval > 0
    requires Boundary(p, |m.vouchers| + 1) <= G.LastTotal(m.cs.totalReceived, L.Coming(m))
    requires L.Rung(p, |m.vouchers|) < m.cs.paymentRequested + m.cs.fundsSpent + G.OwedSum(L.Coming(m))
    ensures S.Stalled(m.cs.status, L.Coming(m)) || F.Told(m) == F.Over || F.Told(m) == F.Paid(L.Rung(p, |m.vouchers| + 1))
  {
    hide *;
    var es, last := L.Coming(m), F.Last(m.vouchers);
    var f := F.Walk(m.cs, last, false, es);
    FitRungs(p, m);
    WalkClimbs(p, m.cs, m.vouchers, false, es);
    if f.Left? {
      I.WalkAccounts(m.cs, m.vouchers, false, es);
      F.WalkSound(m.cs, m.vouchers, false, es);
      LeftPushes(p, f.ds, m.vouchers);
      if I.Idles(m.cs, last, es) { I.IdlesOverpaid(m); }
    }
    if !S.Stalled(m.cs.status, L.Coming(m)) { ToldBy(m, f); }
  }

  /** What is foretold, by what the walk comes to. */
  lemma ToldBy(m: M.Machine, f: F.Fate)
    requires f == F.Walk(m.cs, F.Last(m.vouchers), false, L.Coming(m)) && !S.Stalled(m.cs.status, L.Coming(m))
    requires f.Left? ==> F.Pushes(f.ds, F.Last(m.vouchers)) && !I.Idles(m.cs, F.Last(m.vouchers), L.Coming(m))
    ensures F.Told(m) == match f case Ends => F.Over case Makes(v) => F.Paid(v) case Left(d, _) => F.Paid(C.AmountToSend(d))
  {
    hide F.Walk, F.Pushes, F.Last, L.Coming, S.Stalled, F.Goes, C.AmountToSend;
  }

  lemma FitRungs(p: Params, m: M.Machine)
    requires F.Fit(m) && L.Ladder(p, m)
    ensures F.Sound(m.cs, m.vouchers, L.Coming(m)) && L.Rungs(p, m.cs, m.vouchers, L.Coming(m))
    ensures m.cs.params == p && p.unsealPrice == 0 && p.pricePerByte > 0
    ensures F.Last(m.vouchers) == L.Rung(p, |m.vouchers|) && G.OrderedBytes(m.cs.totalReceived, L.Coming(m))
  {
    ComingBytes(m);
    assert L.Rung(p, 0) == 0;
    hide M.Inv, Boundary, L.Rung, L.At, G.Token, G.OrderedBytes, L.OneReport, L.NoReport;
  }

  /** The byte counts to come are in order. */
  lemma ComingBytes(m: M.Machine)
    requires M.Inv(m)
    ensures G.OrderedBytes(m.cs.totalReceived, L.Coming(m))
  {
    hide M.Worth;
    var es := L.Coming(m);
    assert forall i :: 0 <= i < |m.queue| ==> es[i] == m.queue[i] && M.Covered(m.queue[i], m.cs, m.announced);
    assert forall i :: |m.queue| <= i < |es| ==> !es[i].BlocksReceived?;
  }

  // ---------- What the provider has asked for ----------

  /** The provider has asked for what it was paid; it pauses only at its interval, and there it has asked for all it
      sent. */
  ghost predicate Asked(p: Params, j: J.Joint) {
    && L.Rung(p, j.taken) <= j.asked
    && (j.t.paused ==> j.t.deal.currentInterval <= j.t.deal.totalSent)
    && (j.t.deal.currentInterval <= j.t.deal.totalSent ==> j.t.deal.totalSent * p.pricePerByte <= j.asked)
  }

  ghost predicate Billed(p: Params, j: J.Joint) {
    J.Inv(p, j) && (!j.m.cs.allBlocksReceived && j.t.open && !j.t.complete ==> Asked(p, j))
  }

  lemma PaysPositive(p: Params, j: J.Joint)
    requires J.Inv(p, j)
    ensures p.pricePerByte > 0 && p.unsealPrice == 0 && E.Inv(p, j.t) && L.Ladder(p, j.m)
    ensures !j.m.cs.allBlocksReceived ==> j.t.deal.currentInterval == Boundary(p, j.taken + 1)
  {
    hide Boundary, L.Rungs, M.Inv;
  }

  /** What sending n bytes asks for. */
  lemma RequestOwed(p: Params, j: J.Joint, n: nat)
    requires J.Inv(p, j) && E.Enabled(j.t, E.Send(n)) && p.pricePerByte > 0 && !j.m.cs.allBlocksReceived
    ensures var total := j.t.deal.totalSent + n;
            R.OnPullDataSent(j.t.deal, j.t.ch, n).reply.response ==
            if total < j.t.deal.currentInterval then None
            else Some(Response(j.t.deal.dealId, FundsNeeded, (total - Boundary(p, j.taken)) * p.pricePerByte))
  {
    QuotientExact(Boundary(p, j.taken), p.pricePerByte);
    assert E.PaidBytes(j.t.deal) == Boundary(p, j.taken);
    hide Boundary, L.Ladder, E.PriceOf, J.InFlight, R.OnPullDataSent, E.PaidBytes;
    E.RequestOwed(p, j.t, n);
  }

  lemma SendKeepsAsked(p: Params, j: J.Joint, n: nat)
    requires J.Inv(p, j) && E.Enabled(j.t, E.Send(n)) && !j.m.cs.allBlocksReceived && Asked(p, j)
    ensures Asked(p, J.Next(j, J.ProviderSends(n)))
  {
    hide J.Inv, Boundary, E.Inv, E.Next, R.OnPullDataSent, L.Rung, L.Ladder;
    PaysPositive(p, j);
    RequestOwed(p, j, n);
    E.SendOutcome(p, j.t, n);
    RequestCovers(p, j.taken, j.t.deal.totalSent + n, j.asked);
  }

  lemma RequestCovers(p: Params, k: nat, total: nat, asked: int)
    requires L.Rung(p, k) <= asked
    ensures total * p.pricePerByte <= asked + (total - Boundary(p, k)) * p.pricePerByte
    ensures Boundary(p, k) <= total ==> L.Rung(p, k) <= asked + (total - Boundary(p, k)) * p.pricePerByte
    ensures Boundary(p, k) <= Boundary(p, k + 1)
  {
    var b := Boundary(p, k);
    BoundaryMonotone(p, k, k + 1);
    hide Boundary;
    assert (total - b) * p.pricePerByte == total * p.pricePerByte - b * p.pricePerByte;
    if b <= total { MulMonotone(b, total, p.pricePerByte); }
  }

  lemma ResumeAsksNothing(d: P.ProviderState, ch: R.ChannelData, received: Option<int>)
    ensures var reply := R.Revalidate(d, ch, received, J.PAYCH).reply;
            reply.signal == R.Resume && reply.response.Some? ==> M.OwedIn(J.EventOf(reply.response.value)) == 0
  {
    hide P.Apply, R.PaymentOwed;
  }

  /** A voucher not taken yet is for bytes sent, and so asked for. */
  lemma UntakenIsSent(p: Params, j: J.Joint)
    requires J.Inv(p, j) && j.taken < |j.m.vouchers| && !j.m.cs.allBlocksReceived
    ensures Boundary(p, j.taken + 1) <= j.t.deal.totalSent
  {
    var k := |j.m.vouchers|;
    BoundaryMonotone(p, j.taken + 1, k);
    hide Boundary, L.Rung, L.At;
    assert Boundary(p, k) <= j.m.cs.totalReceived <= j.m.announced <= j.t.deal.totalSent;
  }

  lemma VoucherKeepsAsked(p: Params, j: J.Joint)
    requires J.Inv(p, j) && J.Enabled(j, J.DeliverVoucher) && !j.m.cs.allBlocksReceived && Asked(p, j)
    ensures Asked(p, J.Next(j, J.DeliverVoucher))
  {
    hide J.Inv, Boundary, R.Revalidate, E.Next, J.Received, E.Inv, L.Ladder, J.EventOf;
    var received, j' := J.Received(j), J.Next(j, J.DeliverVoucher);
    PaysPositive(p, j);
    UntakenIsSent(p, j);
    J.VoucherIsEnough(p, j);
    J.VoucherTaken(p, j);
    J.PaidTotal(j.t, received);
    J.StepKeepsInv(p, j, J.DeliverVoucher);
    PaysPositive(p, j');
    ResumeAsksNothing(j.t.deal, j.t.ch, received);
    BoundaryMonotone(p, j.taken + 1, j.taken + 2);
    MulMonotone(Boundary(p, j.taken + 1), j.t.deal.totalSent, p.pricePerByte);
  }

  lemma StepKeepsBilled(p: Params, j: J.Joint, mv: J.Move)
    requires Billed(p, j) && J.Enabled(j, mv)
    ensures Billed(p, J.Next(j, mv))
  {
    hide J.Inv, E.Next, R.OnPullDataSent, R.OnComplete, R.Revalidate, J.Received, L.Rung, M.Next, L.LaneEnabled, J.Base, E.Inv, J.EventOf, M.OwedIn;
    J.StepKeepsInv(p, j, mv);
    match mv
    case ProviderSends(n) =>
      if !j.m.cs.allBlocksReceived { SendKeepsAsked(p, j, n); }
    case ProviderFinishes => Q.FinishIsComplete(j.t);
    case DeliverVoucher =>
      if !j.m.cs.allBlocksReceived && !j.t.complete { VoucherKeepsAsked(p, j); }
      Q.PayKeepsComplete(j.t, J.Received(j));
    case _ =>
      InvIsBase(p, j);
      J.StepIsHonest(p, j, mv);
      L.LaneIsEnabled(j.m, J.ClientStep(j, mv));
      J.ClientGrows(j.m, J.ClientStep(j, mv));
  }

  lemma InvIsBase(p: Params, j: J.Joint)
    requires J.Inv(p, j)
    ensures J.Base(p, j) && L.Ladder(p, j.m)
  {
    hide J.Base, L.Ladder;
  }

  lemma RunsBilled(p: Params, id: nat, totalFunds: int, moves: seq<J.Move>)
    requires p.unsealPrice == 0 && p.pricePerByte > 0 && p.paymentInterval > 0
    requires Exec(J.Begin(p, id, totalFunds), J.Enabled, J.Next, moves).Some?
    ensures Billed(p, Exec(J.Begin(p, id, totalFunds), J.Enabled, J.Next, moves).value)
  {
    J.BeginInv(p, id, totalFunds);
    assert Billed(p, J.Begin(p, id, totalFunds)) by { assert L.Rung(p, 0) == 0 && Boundary(p, 1) == p.Step(0); hide J.Inv; }
    hide J.Next, J.Enabled, Billed, J.Begin;
    forall j, mv | Billed(p, j) && J.Enabled(j, mv) ensures Billed(p, J.Next(j, mv)) { StepKeepsBilled(p, j, mv); }
    Invariance(J.Begin(p, id, totalFunds), J.Enabled, J.Next, j => Billed(p, j), moves);
  }

  // ---------- The waiting provider ----------

  /** More is requested than the last voucher is worth, and the bytes of the boundary waited for are received or in the
      queue. */
  lemma RequestedEnough(p: Params, j: J.Joint)
    requires Q.Paced(p, j) && Billed(p, j) && p.paymentInterval > 0 && Q.Waiting(j) && Q.CanPay(j.m.cs)
    ensures L.Rung(p, j.taken) < j.m.cs.paymentRequested + j.m.cs.fundsSpent + G.OwedSum(L.Coming(j.m))
    ensures j.t.deal.currentInterval == Boundary(p, j.taken + 1) <= G.LastTotal(j.m.cs.totalReceived, L.Coming(j.m))
  {
    hide J.Base, J.Inv, E.Inv, Boundary, L.Ladder, Q.Live, G.OwedSum, L.Coming, G.LastTotal, M.Covered, M.Worth, Q.Proper;
    Q.PacedFacts(p, j);
    PaysPositive(p, j);
    Q.EmptySum();
    RungRises(p, j.taken);
    MulMonotone(Boundary(p, j.taken + 1), j.t.deal.totalSent, p.pricePerByte);
  }

  lemma WaitingIsPaid(p: Params, j: J.Joint)
    requires Q.Paced(p, j) && Q.Early(j) && Billed(p, j) && p.paymentInterval > 0 && Q.Waiting(j)
    ensures j.t.deal.currentInterval == Boundary(p, j.taken + 1)
    ensures Q.Ended(j) || Q.Stuck(j) || Q.Foreseen(j.m) == F.Paid(L.Rung(p, j.taken + 1))
  {
    hide *;
    BilledFacts(p, j);
    if j.m.cs.status in G.DEAD {
      DeadIsEnded(j);
    } else {
      Q.EarlyAliveOrDead(p, j);
      Q.EarlyFits(p, j);
      RequestedEnough(p, j);
      NextBoundaryIsPaid(p, j.m);
      ForeseenAlive(j);
    }
  }

  lemma BilledFacts(p: Params, j: J.Joint)
    requires Billed(p, j) && Q.Waiting(j) && Q.Early(j)
    ensures !j.t.complete && j.taken == |j.m.vouchers| && L.Ladder(p, j.m)
    ensures j.t.deal.currentInterval == Boundary(p, j.taken + 1)
  {
    hide J.Inv, L.Ladder, Boundary, Q.EndEvent, Asked;
    PaysPositive(p, j);
  }

  lemma DeadIsEnded(j: J.Joint)
    requires j.m.cs.status in G.DEAD
    ensures Q.Ended(j)
  {
    hide F.Foretold;
  }

  lemma ForeseenAlive(j: J.Joint)
    requires j.m.cs.status in G.ALIVE
    ensures Q.Foreseen(j.m) == F.Told(j.m) && (Q.Ended(j) <==> F.Told(j.m) == F.Over)
    ensures Q.Stuck(j) <==> S.Stalled(j.m.cs.status, L.Coming(j.m))
  {
    hide F.Foretold, S.Stalled, L.Coming;
  }

  /** The voucher for the boundary waited for covers it. */
  lemma BoundaryCovers(p: Params, j: J.Joint)
    requires J.Inv(p, j) && !j.m.cs.allBlocksReceived && j.taken == |j.m.vouchers|
    ensures Q.Covers(j, L.Rung(p, j.taken + 1))
  {
    VouchersAreRungs(p, j.m);
    BoundaryMonotone(p, j.taken, j.taken + 1);
    MulMonotone(Boundary(p, j.taken), Boundary(p, j.taken + 1), p.pricePerByte);
    assert L.Rung(p, 0) == 0;
    hide L.Ladder, Boundary, M.Inv, J.InFlight;
  }

  lemma VouchersAreRungs(p: Params, m: M.Machine)
    requires L.Ladder(p, m) && !m.cs.allBlocksReceived
    ensures forall i :: 0 <= i < |m.vouchers| ==> m.vouchers[i] == L.Rung(p, i + 1)
  {
    hide M.Inv, L.At, L.Rung, Boundary;
  }

  /** With nothing charged for unsealing, in every joint run, with chunks of any size: whenever the provider waits, the
      client alone goes on to create the voucher worth the boundary that the provider waits for, and that voucher
      resumes the transfer, if and only if no event in its queue ends the deal before and the deal is not stuck in its
      set-up. In the one case the deal ends without another voucher, in the other the provider has not accepted it or
      adding its first funds failed, and it stays so. */
  lemma FreeUnsealingIsPaidExactly(p: Params, id: nat, totalFunds: int, moves: seq<J.Move>)
    requires p.unsealPrice == 0 && p.pricePerByte > 0 && p.paymentInterval > 0
    requires Exec(J.Begin(p, id, totalFunds), J.Enabled, J.Next, moves).Some?
    ensures var j := Exec(J.Begin(p, id, totalFunds), J.Enabled, J.Next, moves).value;
            Q.Waiting(j) ==>
              && j.t.deal.currentInterval == Boundary(p, j.taken + 1)
              && (Q.Resumes(j, Boundary(p, j.taken + 1) * p.pricePerByte) <==> !Q.Ended(j) && !Q.Stuck(j))
              && (O.Dies(j.m) <==> Q.Ended(j))
              && (Q.Stuck(j) ==> S.Rests(j.m) && j.m.cs.status in {WaitForAcceptance, PaymentChannelAddingInitialFunds})
  {
    hide J.Next, J.Enabled, Q.Paced, Billed, J.Begin, Q.Waiting, Q.Resumes, O.Dies, Q.Ended, Q.Stuck, Q.Early, S.Rests, Boundary;
    Q.RunsPaced(p, id, totalFunds, moves);
    RunsBilled(p, id, totalFunds, moves);
    var j := Exec(J.Begin(p, id, totalFunds), J.Enabled, J.Next, moves).value;
    if Q.Waiting(j) {
      WaitingOutcome(p, j);
      assert L.Rung(p, j.taken + 1) == Boundary(p, j.taken + 1) * p.pricePerByte;
    }
  }

  lemma WaitingOutcome(p: Params, j: J.Joint)
    requires Q.Paced(p, j) && Q.Early(j) && Billed(p, j) && p.paymentInterval > 0 && Q.Waiting(j)
    ensures j.t.deal.currentInterval == Boundary(p, j.taken + 1)
    ensures Q.Resumes(j, L.Rung(p, j.taken + 1)) <==> !Q.Ended(j) && !Q.Stuck(j)
    ensures O.Dies(j.m) <==> Q.Ended(j)
    ensures Q.Stuck(j) ==> S.Rests(j.m) && j.m.cs.status in {WaitForAcceptance, PaymentChannelAddingInitialFunds}
  {
    hide *;
    var v := L.Rung(p, j.taken + 1);
    WaitingFacts(p, j);
    WaitingIsPaid(p, j);
    Q.FateForeseen(p, j);
    Q.ResumesExactly(p, j, v);
    Q.UnpaidExactly(p, j);
    BoundaryCovers(p, j);
    EndedIs(j);
    if Q.Stuck(j) {
      StuckNotDies(j.m);
    } else if !Q.Ended(j) {
      PaysNotDies(j.m, v);
    }
  }

  lemma WaitingFacts(p: Params, j: J.Joint)
    requires Q.Paced(p, j) && Q.Early(j) && Billed(p, j) && Q.Waiting(j)
    ensures !j.t.complete && !j.m.cs.allBlocksReceived && j.taken == |j.m.vouchers| && J.Inv(p, j)
  {
    hide J.Inv, Q.Paced, Q.EndEvent, Asked;
  }

  lemma EndedIs(j: J.Joint)
    ensures Q.Ended(j) <==> Q.Foreseen(j.m) == F.Over
  {
    hide Q.Foreseen;
  }

  lemma StuckNotDies(m: M.Machine)
    requires S.Rests(m) && m.cs.status in {WaitForAcceptance, PaymentChannelAddingInitialFunds}
    ensures !O.Dies(m)
  {
    hide S.Rests, O.Dies;
    S.RestsNotDies(m);
  }

  lemma PaysNotDies(m: M.Machine, v: int)
    requires G.Pays(m, v)
    ensures !O.Dies(m)
  {
    hide G.Pays, O.Dies;
    if O.Dies(m) { O.DiesNotPays(m, v); }
  }
}
