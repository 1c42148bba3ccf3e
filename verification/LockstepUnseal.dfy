/** Client and provider fall out of step when unsealing is charged for. */
module LockstepUnseal {
  import opened Options
  import opened Deals
  import opened Intervals
  import opened Runs
  import opened ClientSteps
  import opened JointSteps
  import C = Client
  import J = Lockstep

  /** Both sides in step, with the unseal price paid by the first voucher: voucher k is worth B(k); the provider took
      `taken` of them, each at its own boundary and none of them partial, and waits for the next; the client waits
      for the boundary after its last voucher once that payment is recorded. */
  ghost predicate InStep(p: Params, j: J.Joint) {
    !j.m.cs.allBlocksReceived ==>
      var k := |j.m.vouchers|;
      && (forall i :: 0 <= i < k ==> j.m.vouchers[i] == Boundary(p, i + 1) * p.pricePerByte + p.unsealPrice)
      && j.taken <= k
      && j.t.deal.currentInterval == Boundary(p, j.taken + 1)
      && j.t.deal.fundsReceived == Boundary(p, j.taken) * p.pricePerByte + (if j.taken == 0 then 0 else p.unsealPrice)
      && j.partials == 0
      && (j.m.cs.currentInterval == Boundary(p, k + 1) || (0 < k && j.m.cs.currentInterval == Boundary(p, k)))
  }

  /** With an unseal price, the first request is answered with a voucher for all bytes received. */
  lemma FirstIsForAll(x: Setting, n: nat, owed: int, amount: int) returns (moves: seq<J.Move>, j: J.Joint)
    requires x.p.unsealPrice > 0 && x.p.pricePerByte > 0 && x.p.paymentInterval <= n <= x.chunk && 0 < n
    requires owed == n * x.p.pricePerByte && amount == owed + x.p.unsealPrice > 0
    ensures Ran(x, moves, j) && Open(j.t) && j.taken == 0 && j.t.accepted == 0
    ensures j.t.deal.totalSent == n && j.t.deal.fundsReceived == 0 && j.t.deal.params == x.p
    ensures j.data == [] && j.asks == [] && j.m.vouchers == [amount] && j.m.queue == [] && j.m.pending == Some(C.PaymentSent(amount))
    ensures j.m.cs == Deal(x.p, x.funds, SendFunds, n, 0, x.p.paymentInterval, owed, 0)
  {
    hide *;
    moves, j := FirstIsDue(x, n, owed);
    PaysForAll(x.p, x.funds, n, x.p.paymentInterval, owed, amount);
    GrantsFirst(amount);
    moves, j := Takes(x, moves, j, Deal(x.p, x.funds, SendFunds, n, 0, x.p.paymentInterval, owed, 0), C.Effect(Some(C.PaymentSent(amount)), Some(amount)));
    Pushed([], amount);
    assert [C.SendFundsNow][1..] == [];
  }

  /** For every unseal price, a run in which the first voucher is for one byte more than the first boundary. */
  lemma FallsOutOfStep(p: Params, id: nat, funds: int) returns (moves: seq<J.Move>, j: J.Joint)
    requires p.unsealPrice > 0 && p.pricePerByte > 0
    ensures Exec(J.Begin(p, id, funds), J.Enabled, J.Next, moves) == Some(j) && !InStep(p, j)
  {
    var b := Boundary(p, 1);
    assert Boundary(p, 0) == 0 && p.Step(0) == p.paymentInterval && b == p.Step(0);
    var amount := (b + 1) * p.pricePerByte + p.unsealPrice;
    assert amount == b * p.pricePerByte + p.pricePerByte + p.unsealPrice;
    hide Exec, J.Next, J.Begin, J.Enabled, Boundary;
    moves, j := FirstIsForAll(Setting(p, id, funds, b + 1), b + 1, (b + 1) * p.pricePerByte, amount);
    ExecLaxer(J.Begin(p, id, funds), J.EnabledUpTo(b + 1), J.Enabled, J.Next, moves);
    assert !j.m.cs.allBlocksReceived && j.m.vouchers[0] != Boundary(p, 0 + 1) * p.pricePerByte + p.unsealPrice;
  }

  /** At a positive price both sides are in step in every joint run exactly when nothing is charged for
      unsealing. */
  lemma LockstepExactly(p: Params, id: nat, funds: int)
    requires p.pricePerByte > 0
    ensures (forall moves :: Exec(J.Begin(p, id, funds), J.Enabled, J.Next, moves).Some? ==>
               InStep(p, Exec(J.Begin(p, id, funds), J.Enabled, J.Next, moves).value)) <==> p.unsealPrice == 0
  {
    hide Exec, J.Next, J.Enabled, J.Begin, Boundary;
    if p.unsealPrice == 0 {
      forall moves | Exec(J.Begin(p, id, funds), J.Enabled, J.Next, moves).Some?
        ensures InStep(p, Exec(J.Begin(p, id, funds), J.Enabled, J.Next, moves).value)
      {
        J.LockstepHolds(p, id, funds, moves);
      }
    } else {
      var moves, j := FallsOutOfStep(p, id, funds);
    }
  }
}
