/** What the provider asks for when a payment is too small and when all blocks are out, and what is paid for in the end
    (retrieval/validators.go:213-388). */
module Settlement {
  import opened Options
  import opened Deals
  import opened Intervals
  import opened Numbers
  import opened Provider
  import opened Revalidator
  import opened Exposure
  import opened Runs

  // ---------- Payments that are too small ----------

  /** What is owed makes up exactly what is missing: the unseal price first, and with it paid the price of the boundary
      before the current one. */
  lemma OwedExactly(d: ProviderState, k: nat, totalPaid: int)
    requires d.currentInterval == Boundary(d.params, k + 1)
    ensures totalPaid + PaymentOwed(d, totalPaid) ==
            if totalPaid < d.params.unsealPrice then d.params.unsealPrice else PriceOf(d.params, k)
  {
    IntervalsInverseOnBoundaries(d.params, k);
    hide Boundary, IntervalLowerBound;
  }

  /** A payment that is too small: the provider stays paused, records it, and asks for what is missing. */
  ghost predicate Partial(p: Params, t: Transfer, amt: nat) {
    && Inv(p, t) && t.open && t.deal.status in {FundsNeeded, FundsNeededLastPayment}
    && t.deal.fundsReceived + amt < PriceOf(p, t.accepted)
  }

  lemma PartialAnswer(p: Params, t: Transfer, amt: nat, payCh: Address) returns (owed: nat)
    requires Partial(p, t, amt)
    ensures Revalidate(t.deal, t.ch, Some(amt), payCh).reply == Reply(Some(Response(t.deal.dealId, t.deal.status, owed)), Pause)
    ensures var paid := t.deal.fundsReceived + amt;
            0 < owed && paid + owed == if paid < p.unsealPrice then p.unsealPrice else PriceOf(p, t.accepted)
    ensures Next(t, Pay(Some(amt), payCh)) ==
            t.(deal := t.deal.(fundsReceived := t.deal.fundsReceived + amt, payCh := Some(payCh)), paused := true)
  {
    var paid := t.deal.fundsReceived + amt;
    OwedExactly(t.deal, t.accepted, paid);
    hide Boundary, NextInterval, PriceOf, PaymentOwed;
    owed := PaymentOwed(t.deal, paid);
  }

  /** With unsealing paid, what a partial payment is answered with is the least amount that resumes the transfer. */
  lemma AskedResumesExactly(p: Params, t: Transfer, amt: nat, payCh: Address, next: nat)
    requires Partial(p, t, amt) && p.unsealPrice <= t.deal.fundsReceived + amt
    ensures var r := Revalidate(t.deal, t.ch, Some(amt), payCh).reply.response;
            r.Some? && (!Next(Next(t, Pay(Some(amt), payCh)), Pay(Some(next), payCh)).paused <==> r.value.paymentOwed <= next)
  {
    var owed := PartialAnswer(p, t, amt, payCh);
    var t' := Next(t, Pay(Some(amt), payCh));
    StepKeepsInv(p, t, Pay(Some(amt), payCh));
    hide Next, PriceOf, Revalidate, Boundary;
    EnoughExactly(p, t', next, payCh);
  }

  /** Below the unseal price it asks for unsealing alone; paying that resumes the transfer exactly when nothing else is
      due yet, and is otherwise answered with the price of the boundary. */
  lemma UnsealingAskedFirst(p: Params, t: Transfer, amt: nat, payCh: Address)
    requires Partial(p, t, amt) && t.deal.fundsReceived + amt < p.unsealPrice
    ensures var r := Revalidate(t.deal, t.ch, Some(amt), payCh).reply.response;
            && r.Some? && 0 < r.value.paymentOwed
            && var t', due := Next(t, Pay(Some(amt), payCh)), Boundary(p, t.accepted) * p.pricePerByte;
               var answer := Revalidate(t'.deal, t'.ch, Some(r.value.paymentOwed), payCh).reply;
               if due == 0 then answer.signal == Resume
               else answer == Reply(Some(Response(t.deal.dealId, t.deal.status, due)), Pause)
  {
    var owed := PartialAnswer(p, t, amt, payCh);
    var t' := Next(t, Pay(Some(amt), payCh));
    StepKeepsInv(p, t, Pay(Some(amt), payCh));
    assert PriceOf(p, t.accepted) == p.unsealPrice + Boundary(p, t.accepted) * p.pricePerByte;
    hide Next, PriceOf, Boundary;
    if Boundary(p, t.accepted) * p.pricePerByte == 0 {
      OwedNothing(t'.deal, t.accepted, t'.deal.fundsReceived + owed);
      hide PaymentOwed;
    } else {
      hide Revalidate;
      var due := PartialAnswer(p, t', owed, payCh);
    }
  }

  /** A payment resumes a paused transfer exactly when it covers unsealing and the boundary before the current one. */
  lemma EnoughExactly(p: Params, t: Transfer, amt: nat, payCh: Address)
    requires Inv(p, t) && t.open
    ensures !Next(t, Pay(Some(amt), payCh)).paused <==> PriceOf(p, t.accepted) <= t.deal.fundsReceived + amt
  {
    OwedNothing(t.deal, t.accepted, t.deal.fundsReceived + amt);
    hide PaymentOwed, PriceOf, Boundary, NextInterval, Apply;
  }

  /** A voucher that is not accepted ends the transfer; the deal fails if a payment was due, and nothing is recorded. */
  lemma RefusedVoucherEnds(p: Params, t: Transfer, payCh: Address)
    requires Inv(p, t) && t.open
    ensures var t' := Next(t, Pay(None, payCh));
            && !t'.open && t'.deal.fundsReceived == t.deal.fundsReceived && t'.deal.currentInterval == t.deal.currentInterval
            && t'.deal.status == if t.deal.status in {FundsNeeded, FundsNeededLastPayment} then Failing else t.deal.status
    ensures Revalidate(t.deal, t.ch, None, payCh).reply == Reply(Some(Response(t.deal.dealId, Errored, 0)), Fatal)
  {
    hide PriceOf, Boundary;
  }

  // ---------- The last request ----------

  /** When all blocks are out: the deal is reported as completed exactly when the bytes paid for are those sent;
      otherwise the transfer pauses, and asks for the difference. */
  lemma FinishAsks(p: Params, t: Transfer)
    requires Inv(p, t) && Enabled(t, Finish) && p.pricePerByte > 0
    ensures var t', reply, d := Next(t, Finish), OnComplete(t.deal, t.ch).reply, t.deal;
            && t'.open && t'.complete && t'.accepted == t.accepted
            && (reply == Reply(Some(Response(d.dealId, Completed, 0)), Continue) <==> d.totalSent == PaidBytes(d))
            && (d.totalSent != PaidBytes(d) ==>
                  reply == Reply(Some(Response(d.dealId, FundsNeededLastPayment, (d.totalSent - PaidBytes(d)) * p.pricePerByte)), Pause))
            && t'.paused == (d.totalSent != PaidBytes(d))
            && t'.deal == d.(status := if t'.paused then FundsNeededLastPayment else BlocksComplete)
  {
    var d := t.deal;
    NoneOwed(d.totalSent - PaidBytes(d), p.pricePerByte);
    hide PriceOf, Boundary;
  }

  lemma NoneOwed(n: int, price: nat)
    requires price > 0
    ensures n * price == 0 <==> n == 0
  {
    if n > 0 {
      MulStrict(0, n, price);
    } else if n < 0 {
      MulStrict(0, -n, price);
      assert (-n) * price == -(n * price);
    }
  }

  /** Paying just what the last request asks for pays for all bytes exactly when unsealing was paid before: the request
      leaves it out. */
  lemma LastRequestPaysAll(d: ProviderState, paid: int)
    requires d.params.pricePerByte > 0 && 0 <= d.fundsReceived && PaidBytes(d) < d.totalSent
    requires paid == d.fundsReceived + (d.totalSent - PaidBytes(d)) * d.params.pricePerByte
    ensures PaidBytes(d.(fundsReceived := paid)) == d.totalSent <==> d.params.unsealPrice <= d.fundsReceived
  {
    var q, u, f := d.params.pricePerByte, d.params.unsealPrice, d.fundsReceived;
    assert (d.totalSent - PaidBytes(d)) * q == d.totalSent * q - PaidBytes(d) * q;
    if u <= f {
      QuotientCompares(f - u, q, PaidBytes(d));
      QuotientCompares(f - u, q, PaidBytes(d) + 1);
      assert (PaidBytes(d) + 1) * q == PaidBytes(d) * q + q;
      PaidTimes(d.(fundsReceived := paid), d.totalSent);
    } else {
      assert 0 / q == 0;
      assert PaidBytes(d) == 0;
      CoversExactly(d.(fundsReceived := paid), d.totalSent);
    }
  }

  lemma PaidTimes(d: ProviderState, n: nat)
    requires d.params.pricePerByte > 0
    requires n * d.params.pricePerByte <= d.fundsReceived - d.params.unsealPrice < n * d.params.pricePerByte + d.params.pricePerByte
    ensures PaidBytes(d) == n
  {
    var x, q := d.fundsReceived - d.params.unsealPrice, d.params.pricePerByte;
    assert 0 <= n * q;
    QuotientCompares(x, q, n);
    QuotientCompares(x, q, n + 1);
    assert (n + 1) * q == n * q + q;
  }

  /** A number of bytes is paid for exactly when what was received covers it and unsealing. */
  lemma CoversExactly(d: ProviderState, n: nat)
    requires d.params.pricePerByte > 0 && 0 < n
    ensures n <= PaidBytes(d) <==> d.params.unsealPrice + n * d.params.pricePerByte <= d.fundsReceived
  {
    var x, q := Max(d.fundsReceived - d.params.unsealPrice, 0), d.params.pricePerByte;
    QuotientCompares(x, q, n);
    MulMonotone(1, n, q);
  }

  // ---------- Over runs ----------

  /** The deal keeps what it received. */
  lemma ReceivedGrows(p: Params, t: Transfer, a: Action)
    requires Inv(p, t) && Enabled(t, a) && t.complete
    ensures var t' := Next(t, a);
            t'.complete && t'.deal.totalSent == t.deal.totalSent && t.deal.fundsReceived <= t'.deal.fundsReceived && t'.deal.params == p
  {
    hide PriceOf, Boundary, NextInterval, PaymentOwed;
  }

  lemma PaidGrows(d: ProviderState, d': ProviderState)
    requires d'.params == d.params && d.params.pricePerByte > 0 && d.fundsReceived <= d'.fundsReceived
    ensures PaidBytes(d) <= PaidBytes(d')
  {
    var q, x, x' := d.params.pricePerByte, Max(d.fundsReceived - d.params.unsealPrice, 0), Max(d'.fundsReceived - d.params.unsealPrice, 0);
    QuotientCompares(x, q, x / q);
    QuotientCompares(x', q, x / q);
  }

  /** In every run, at the point where all blocks were out: the transfer was not paused there exactly when the bytes paid
      for were those sent, and then all bytes stay paid for. */
  lemma {:induction false} UnpausedFinishIsPaid(p: Params, id: nat, acts: seq<Action>, n: nat)
    requires p.pricePerByte > 0 && n < |acts| && acts[n] == Finish
    requires Exec(Start(p, id), Enabled, Next, acts).Some?
    ensures Exec(Start(p, id), Enabled, Next, acts[..n]).Some? && Exec(Start(p, id), Enabled, Next, acts[..n + 1]).Some?
    ensures var before, at, t := Exec(Start(p, id), Enabled, Next, acts[..n]).value,
                                 Exec(Start(p, id), Enabled, Next, acts[..n + 1]).value,
                                 Exec(Start(p, id), Enabled, Next, acts).value;
            && before.deal.params == at.deal.params == t.deal.params == p
            && (at.paused <==> before.deal.totalSent != PaidBytes(before.deal))
            && t.complete && t.deal.totalSent == before.deal.totalSent
            && (!at.paused ==> t.deal.totalSent <= PaidBytes(t.deal))
    decreases |acts|
  {
    hide Next, Enabled, Start, PaidBytes, Inv;
    RunKeepsInv(p, id, acts);
    if n == |acts| - 1 {
      assert acts[..n + 1] == acts;
      var before := Exec(Start(p, id), Enabled, Next, acts[..n]).value;
      RunKeepsInv(p, id, acts[..n]);
      InvParams(p, before);
      FinishAsks(p, before);
      SamePaid(before.deal, Next(before, Finish).deal);
    } else {
      var init, a := acts[..|acts| - 1], acts[|acts| - 1];
      assert init[..n] == acts[..n] && init[..n + 1] == acts[..n + 1];
      UnpausedFinishIsPaid(p, id, init, n);
      var t := Exec(Start(p, id), Enabled, Next, init).value;
      RunKeepsInv(p, id, init);
      ReceivedGrows(p, t, a);
      PaidGrows(t.deal, Next(t, a).deal);
    }
  }

  lemma InvParams(p: Params, t: Transfer)
    requires Inv(p, t)
    ensures t.deal.params == p
  {
    hide Boundary, PriceOf;
  }

  lemma SamePaid(d: ProviderState, d': ProviderState)
    requires d' == d.(status := d'.status) && d.params.pricePerByte > 0
    ensures PaidBytes(d') == PaidBytes(d)
  {
  }

  /** How a deal gets to its end: only with all blocks out, and with all bytes paid for or another payment accepted; it is
      at the last payment only while that is waited for. */
  ghost predicate Ending(p: Params, t: Transfer) {
    && t.deal.params == p && p.pricePerByte > 0
    && (t.deal.status in {BlocksComplete, FundsNeededLastPayment, Finalizing, Completing} ==> t.complete)
    && (t.open && t.deal.status == FundsNeededLastPayment ==> t.paused)
    && (t.deal.status == BlocksComplete ==> t.deal.totalSent <= PaidBytes(t.deal))
    && (t.deal.status in {Finalizing, Completing} ==> t.deal.totalSent <= PaidBytes(t.deal) || 1 <= t.accepted)
  }

  lemma FinishKeepsEnding(p: Params, t: Transfer)
    requires Inv(p, t) && Ending(p, t) && Enabled(t, Finish)
    ensures Ending(p, Next(t, Finish))
  {
    hide Next, OnComplete, PaidBytes, Inv;
    FinishAsks(p, t);
    SamePaid(t.deal, Next(t, Finish).deal);
  }

  lemma PayKeepsEnding(p: Params, t: Transfer, received: Option<nat>, payCh: Address)
    requires Inv(p, t) && Ending(p, t) && Enabled(t, Pay(received, payCh))
    ensures Ending(p, Next(t, Pay(received, payCh)))
  {
    var t' := Next(t, Pay(received, payCh));
    PaidStays(p, t, received, payCh);
    PaidGrows(t.deal, t'.deal);
    hide PriceOf, Boundary, NextInterval, PaymentOwed, PaidBytes;
  }

  lemma PaidStays(p: Params, t: Transfer, received: Option<nat>, payCh: Address)
    requires Inv(p, t)
    ensures var t' := Next(t, Pay(received, payCh));
            t'.deal.params == p && t'.deal.totalSent == t.deal.totalSent && t.deal.fundsReceived <= t'.deal.fundsReceived
  {
    hide PriceOf, Boundary, NextInterval, PaymentOwed;
  }

  lemma StepKeepsEnding(p: Params, t: Transfer, a: Action)
    requires Inv(p, t) && Ending(p, t) && Enabled(t, a)
    ensures Ending(p, Next(t, a))
  {
    hide PriceOf, Boundary, NextInterval, OnComplete, Revalidate, PaidBytes;
    match a
    case Send(n) => SendOutcome(p, t, n);
    case Pay(received, payCh) => PayKeepsEnding(p, t, received, payCh);
    case Finish => FinishKeepsEnding(p, t);
    case Close(e) => SamePaid(t.deal, Next(t, a).deal);
  }

  /** In every run a deal gets to its clean-up only with all blocks out, and with all bytes paid for unless a payment was
      accepted, which then covers unsealing and the boundary before the last one. */
  lemma EndsSettled(p: Params, id: nat, acts: seq<Action>)
    requires p.pricePerByte > 0 && Exec(Start(p, id), Enabled, Next, acts).Some?
    ensures var t := Exec(Start(p, id), Enabled, Next, acts).value;
            && t.deal.params == p
            && (t.open && t.complete ==> t.deal.status in {BlocksComplete, FundsNeededLastPayment, Finalizing})
            && (t.open && t.deal.status == FundsNeededLastPayment ==> t.paused)
            && (t.deal.status == BlocksComplete ==> t.complete && t.deal.totalSent <= PaidBytes(t.deal))
            && (t.deal.status in {Finalizing, Completing} ==>
                  && t.complete
                  && (|| t.deal.totalSent <= PaidBytes(t.deal)
                      || (1 <= t.accepted && PriceOf(p, t.accepted - 1) <= t.deal.fundsReceived)))
  {
    var inv := t => Inv(p, t) && Ending(p, t) && (t.complete && t.open ==> t.deal.status in {BlocksComplete, FundsNeededLastPayment, Finalizing});
    assert Boundary(p, 1) == p.Step(0);
    assert inv(Start(p, id));
    hide Next, Enabled, Start, Ending, Inv;
    forall t, a | inv(t) && Enabled(t, a) ensures inv(Next(t, a)) {
      StepKeepsInv(p, t, a);
      StepKeepsEnding(p, t, a);
      CompleteStays(p, t, a);
    }
    Invariance(Start(p, id), Enabled, Next, inv, acts);
    EndingFacts(p, Exec(Start(p, id), Enabled, Next, acts).value);
  }

  lemma CompleteStays(p: Params, t: Transfer, a: Action)
    requires Inv(p, t) && Enabled(t, a) && (t.complete ==> t.deal.status in {BlocksComplete, FundsNeededLastPayment, Finalizing})
    ensures var t' := Next(t, a); t'.complete && t'.open ==> t'.deal.status in {BlocksComplete, FundsNeededLastPayment, Finalizing}
  {
    hide PriceOf, Boundary, NextInterval, PaymentOwed;
  }

  lemma EndingFacts(p: Params, t: Transfer)
    requires Inv(p, t) && Ending(p, t)
    ensures t.deal.params == p
    ensures t.open && t.deal.status == FundsNeededLastPayment ==> t.paused
    ensures t.deal.status == BlocksComplete ==> t.complete && t.deal.totalSent <= PaidBytes(t.deal)
    ensures t.deal.status in {Finalizing, Completing} ==>
              t.complete && (t.deal.totalSent <= PaidBytes(t.deal) || (1 <= t.accepted && PriceOf(p, t.accepted - 1) <= t.deal.fundsReceived))
  {
    hide PriceOf, Boundary, PaidBytes;
  }

  /** The last payment is accepted, and the deal reported as completed, exactly when it covers unsealing and the boundary
      before the current one; all bytes are paid for exactly when it covers unsealing and them. */
  lemma LastPayment(p: Params, t: Transfer, amt: nat, payCh: Address)
    requires Inv(p, t) && t.open && t.deal.status == FundsNeededLastPayment && p.pricePerByte > 0 && 0 < t.deal.totalSent
    ensures var t', reply := Next(t, Pay(Some(amt), payCh)), Revalidate(t.deal, t.ch, Some(amt), payCh).reply;
            && t'.deal.params == p
            && (reply == Reply(Some(Response(t.deal.dealId, Completed, 0)), Resume) <==> PriceOf(p, t.accepted) <= t.deal.fundsReceived + amt)
            && (t'.deal.status == Finalizing <==> PriceOf(p, t.accepted) <= t.deal.fundsReceived + amt)
            && (t.deal.totalSent <= PaidBytes(t'.deal) <==>
                  p.unsealPrice + t.deal.totalSent * p.pricePerByte <= t.deal.fundsReceived + amt)
  {
    OwedNothing(t.deal, t.accepted, t.deal.fundsReceived + amt);
    var t' := Next(t, Pay(Some(amt), payCh));
    assert t'.deal.params == p && t'.deal.fundsReceived == t.deal.fundsReceived + amt by {
      hide PaymentOwed, PriceOf, Boundary, NextInterval;
    }
    CoversExactly(t'.deal, t.deal.totalSent);
    hide PaymentOwed, PriceOf, Boundary, NextInterval, PaidBytes;
  }

  /** A deal reported as completed need not be paid for: any transfer shorter than the first interval is completed by the
      unseal price alone. */
  lemma CompletesUnpaid(p: Params, id: nat, n: nat) returns (acts: seq<Action>, t: Transfer)
    requires p.pricePerByte > 0 && 0 < n < p.paymentInterval
    ensures Exec(Start(p, id), Enabled, Next, acts) == Some(t)
    ensures t.deal.params == p && t.deal.status == Finalizing && !t.paused && t.deal.totalSent == n && PaidBytes(t.deal) == 0
  {
    hide Exec, Next, Start, Boundary, PriceOf, Inv, PaidBytes;
    StartFacts(p, id);
    var t0, pay := Start(p, id), Pay(Some(p.unsealPrice), "paych");
    assert [] + [Send(n)] == [Send(n)] && [Send(n)] + [Finish] == [Send(n), Finish] && [Send(n), Finish] + [pay] == [Send(n), Finish, pay];
    assert Exec(t0, Enabled, Next, []) == Some(t0) by { ExecNothing(t0); }
    ExecExtend(t0, Enabled, Next, [], Send(n));
    SendOutcome(p, t0, n);
    var t1 := Next(t0, Send(n));
    ExecExtend(t0, Enabled, Next, [Send(n)], Finish);
    NothingPaid(t1.deal);
    FinishAsks(p, t1);
    var t2 := Next(t1, Finish);
    StepKeepsInv(p, t1, Finish);
    ExecExtend(t0, Enabled, Next, [Send(n), Finish], pay);
    acts, t := [Send(n), Finish, pay], Next(t2, pay);
    EnoughPaid(t2, p.unsealPrice, "paych");
    NothingPaid(t.deal);
  }

  lemma ExecNothing(t: Transfer)
    ensures Exec(t, Enabled, Next, []) == Some(t)
  {
  }

  lemma NothingPaid(d: ProviderState)
    requires d.params.pricePerByte > 0 && d.fundsReceived <= d.params.unsealPrice
    ensures PaidBytes(d) == 0
  {
    assert 0 / d.params.pricePerByte == 0;
  }

  // ---------- Free transfers ----------

  /** Without a price per byte a transfer is never paused for bytes: nothing is asked for while it sends, and it is completed
      when all blocks are out. */
  lemma FreeNeverPauses(p: Params, t: Transfer, n: nat)
    requires Inv(p, t) && p.pricePerByte == 0 && Enabled(t, Send(n))
    ensures OnPullDataSent(t.deal, t.ch, n).reply == Reply(None, Continue)
    ensures OnComplete(t.deal, t.ch).reply == Reply(Some(Response(t.deal.dealId, Completed, 0)), Continue)
    ensures var t' := Next(t, Send(n)); !t'.paused && t'.deal == t.deal.(totalSent := t.deal.totalSent + n)
    ensures var t' := Next(t, Finish); !t'.paused && t'.complete && t'.deal == t.deal.(status := BlocksComplete)
  {
    hide PriceOf, Boundary;
  }

  /** In every run of a free transfer without payments, it is never paused. */
  lemma FreeRunsOn(p: Params, id: nat, acts: seq<Action>)
    requires p.pricePerByte == 0 && Exec(Start(p, id), Enabled, Next, acts).Some?
    requires forall i :: 0 <= i < |acts| ==> acts[i].Send? || acts[i].Finish?
    ensures var t := Exec(Start(p, id), Enabled, Next, acts).value; t.open && !t.paused
  {
    hide Next, Inv, Start;
    var free := (t: Transfer, a: Action) => Enabled(t, a) && (a.Send? || a.Finish?);
    var inv := (t: Transfer) => Inv(p, t) && t.open && !t.paused;
    StartsOpen(p, id);
    forall t, a | inv(t) && free(t, a) ensures inv(Next(t, a)) {
      StepKeepsInv(p, t, a);
      StaysOpen(t, a);
      if a.Send? { FreeNeverPauses(p, t, a.chunk); } else { FreeNeverPauses(p, t, 0); }
    }
    ExecOf(p, id, free, acts);
    Invariance(Start(p, id), free, Next, inv, acts);
  }

  lemma {:induction false} ExecOf(p: Params, id: nat, free: (Transfer, Action) -> bool, acts: seq<Action>)
    requires Exec(Start(p, id), Enabled, Next, acts).Some?
    requires forall t, a :: Enabled(t, a) && (a.Send? || a.Finish?) ==> free(t, a)
    requires forall i :: 0 <= i < |acts| ==> acts[i].Send? || acts[i].Finish?
    ensures Exec(Start(p, id), free, Next, acts) == Exec(Start(p, id), Enabled, Next, acts)
  {
    hide Next, Start, Enabled;
    if acts != [] { ExecOf(p, id, free, acts[..|acts| - 1]); }
  }

  lemma StartsOpen(p: Params, id: nat)
    ensures Inv(p, Start(p, id)) && Start(p, id).open && !Start(p, id).paused
  {
    assert Boundary(p, 1) == p.Step(0);
  }

  lemma StaysOpen(t: Transfer, a: Action)
    requires t.open && (a.Send? || a.Finish?)
    ensures Next(t, a).open
  {
    hide OnPullDataSent, OnComplete;
  }
}
