/** Deals that end: nothing leads back from there, and no voucher is made any more; and when a voucher is refused, which
    ends a deal. */
module ClientOutcome {
  import opened Options
  import opened Deals
  import opened Intervals
  import opened Numbers
  import opened Client
  import opened ClientRuns
  import opened ClientLadder
  import opened ClientProgress
  import opened Runs

  // ---------- Dead deals ----------

  /** The deal ends without another voucher. */
  ghost predicate Dies(m: Machine) {
    && (exists n: nat :: Iterate(Alone, m, n).cs.status in DEAD)
    && (forall n: nat :: Iterate(Alone, m, n).vouchers == m.vouchers)
  }

  lemma DiesNotPays(m: Machine, v: int)
    requires Dies(m)
    ensures !Pays(m, v)
  {
    hide Alone, Iterate;
    forall n: nat ensures Iterate(Alone, m, n).vouchers != m.vouchers + [v] {
      assert Iterate(Alone, m, n).vouchers == m.vouchers;
      assert |m.vouchers + [v]| == |m.vouchers| + 1;
    }
  }

  lemma DiesLater(m: Machine)
    requires Alone(m).vouchers == m.vouchers && Dies(Alone(m))
    ensures Dies(m)
  {
    hide Alone;
    var n: nat :| Iterate(Alone, Alone(m), n).cs.status in DEAD;
    assert Iterate(Alone, m, n + 1) == Iterate(Alone, Alone(m), n);
    forall n: nat ensures Iterate(Alone, m, n).vouchers == m.vouchers {
      if n > 0 { assert Iterate(Alone, m, n) == Iterate(Alone, Alone(m), n - 1); }
    }
  }

  lemma DeadStays(s: Status, e: Event)
    requires s in DEAD
    ensures Transition(s, e).To? ==> Transition(s, e).status in DEAD
  {
  }

  lemma DeadHandler(ds: ClientState, w: World)
    requires ds.status in DEAD
    ensures Handler(ds, w).voucher.None?
  {
  }

  lemma StatusApplied(ds: ClientState, e: Event)
    ensures Apply(ds, e).status == if Transition(ds.status, e).To? then Transition(ds.status, e).status else ds.status
  {
    hide Transition, NextInterval;
    assert Act(ds, e).status == ds.status;
  }

  /** A dead deal stays dead and makes no voucher; nor does an event that ends it. */
  lemma DeadStep(m: Machine)
    requires m.cs.status in DEAD || (m.pending.None? && m.queue != [] && Kills(m.cs.status, m.queue[0]))
    ensures Alone(m).cs.status in DEAD && Alone(m).vouchers == m.vouchers
  {
    if m.pending.None? && m.queue != [] {
      var e, w := m.queue[0], Funded(m);
      if m.cs.status in DEAD { DeadStays(m.cs.status, e); }
      StatusApplied(m.cs, e);
      assert Apply(m.cs, e).status in DEAD;
      DeadHandler(Apply(m.cs, e), w);
      hide Apply, Transition, Handler, Funded;
      assert m.vouchers + [] == m.vouchers;
    }
  }

  lemma {:induction false} DeadForever(m: Machine, n: nat)
    requires m.cs.status in DEAD
    ensures Iterate(Alone, m, n).cs.status in DEAD && Iterate(Alone, m, n).vouchers == m.vouchers
    decreases n
  {
    hide Alone;
    if n > 0 {
      DeadStep(m);
      DeadForever(Alone(m), n - 1);
    }
  }

  lemma DeadDies(m: Machine)
    requires m.cs.status in DEAD
    ensures Dies(m)
  {
    hide Alone;
    assert Iterate(Alone, m, 0) == m;
    forall n: nat ensures Iterate(Alone, m, n).vouchers == m.vouchers { DeadForever(m, n); }
  }

  lemma RungsApart(p: Params, k: nat)
    requires 0 < k && p.pricePerByte > 0 && p.paymentInterval > 0
    ensures Rung(p, k - 1) < Rung(p, k) && 0 <= Rung(p, k - 1)
  {
    StepGrows(p, k - 1);
    assert Boundary(p, k - 1) < Boundary(p, k);
    MulStrict(Boundary(p, k - 1), Boundary(p, k), p.pricePerByte);
  }

  // ---------- Refusals ----------

  lemma LadderAmount(p: Params, m: Machine)
    requires Ladder(p, m) && !m.cs.allBlocksReceived
    ensures var k := |m.vouchers|;
            || (m.cs.fundsSpent == Rung(p, k) && AmountToSend(m.cs) in {0, Rung(p, k + 1)} && 0 <= Rung(p, k))
            || (0 < k && m.cs.fundsSpent == Rung(p, k - 1) && AmountToSend(m.cs) == Rung(p, k) && Rung(p, k - 1) < Rung(p, k))
    ensures forall i :: 0 <= i < |m.vouchers| ==> m.vouchers[i] == Rung(p, i + 1)
    ensures p.pricePerByte > 0
  {
    hide Boundary, Inv;
  }

  /** When sending sets in, a voucher is refused exactly when the one made last is not recorded yet. */
  lemma RefusedExactly(p: Params, m: Machine)
    requires Ladder(p, m) && !m.cs.allBlocksReceived
    requires m.pending.None? && m.queue != [] && SetsSending(m.cs.status, m.queue[0])
    ensures ProcessFront(m, Funded(m)).pending == Some(CreateVoucherFailed) <==>
            |m.vouchers| > 0 && m.cs.fundsSpent < m.vouchers[|m.vouchers| - 1]
  {
    LadderAmount(p, m);
    SendingApplied(m.cs);
    var k, v := |m.vouchers|, AmountToSend(m.cs);
    FundedCreates(m, v);
    hide Ladder, Boundary, Rung, AmountToSend, Apply, Funded, Transition;
    forall i | 0 <= i < k && v == Rung(p, k + 1) ensures m.vouchers[i] < v {
      RungStrict(p, i + 1, k + 1);
    }
  }
}
