/** With an unseal price the vouchers of a client do not climb the boundaries: until unsealing is recorded as paid,
    a voucher is for all bytes received (retrieval/client/fsm.go:524-543). */
module ClientUnseal {
  import opened Options
  import opened Deals
  import opened Intervals
  import opened Client
  import opened ClientRuns
  import opened ClientLadder
  import opened ClientSteps
  import opened Runs

  /** Until all blocks are received the vouchers are worth B(1), B(2), ..., B(k) at the price and the unseal price,
      each made only after its bytes arrived, and the client's interval is B(k), or B(k + 1) once the last payment
      is recorded. */
  predicate Climbs(p: Params, m: Machine) {
    !m.cs.allBlocksReceived ==>
      var k := |m.vouchers|;
      && (forall i :: 0 <= i < k ==> m.vouchers[i] == Boundary(p, i + 1) * p.pricePerByte + p.unsealPrice)
      && (0 < k ==> Boundary(p, k) <= m.cs.totalReceived)
      && (m.cs.currentInterval == Boundary(p, k + 1) || (0 < k && m.cs.currentInterval == Boundary(p, k)))
  }

  /** With an unseal price, the first voucher may be for any number of bytes, and on any request. */
  lemma FirstVoucherIsForAll(p: Params, funds: int, n: nat, owed: int, amount: int) returns (steps: seq<Step>, m: Machine)
    requires p.unsealPrice > 0 && amount == n * p.pricePerByte + p.unsealPrice && amount > 0
    ensures Exec(Begin(p, funds), LaneEnabled, Next, steps) == Some(m)
    ensures m.cs == Deal(p, funds, SendFunds, n, 0, p.paymentInterval, owed, 0) && m.vouchers == [amount]
    ensures m.queue == [] && m.pending == Some(PaymentSent(amount)) && m.announced == n
  {
    var i := p.paymentInterval;
    steps, m := GetsUnderWay(p, funds);
    assert Enabled(m, Enqueue(BlocksReceived(n)));
    BytesArrive(p, funds, Ongoing, 0, n, 0, i, 0, 0, false);
    RequestArrives(p, funds, n, 0, i, 0, owed, owed, 0, false);
    PaysForAll(p, funds, n, i, owed, amount);
    hide Exec, Happens, Next, Begin, LaneEnabled, AmountToSend;
    var begin := Begin(p, funds);
    steps, m := TakesOne(begin, steps, m, BlocksReceived(n), Deal(p, funds, Ongoing, n, 0, i, 0, 0), Effect(None, None), false);
    steps, m := TakesOne(begin, steps, m, PaymentRequested(owed), Deal(p, funds, FundsNeeded, n, 0, i, owed, 0), Trigger(SendFundsNow), false);
    steps, m := TakesOne(begin, steps, m, SendFundsNow, Deal(p, funds, SendFunds, n, 0, i, owed, 0),
                         Effect(Some(PaymentSent(amount)), Some(amount)), true);
  }

  /** At a positive price the vouchers climb the boundaries in every run exactly when nothing is charged for
      unsealing. */
  lemma LadderExactly(p: Params, funds: int)
    requires p.pricePerByte > 0
    ensures (forall steps :: Exec(Begin(p, funds), LaneEnabled, Next, steps).Some? ==>
               Climbs(p, Exec(Begin(p, funds), LaneEnabled, Next, steps).value)) <==> p.unsealPrice == 0
  {
    if p.unsealPrice == 0 {
      forall steps | Exec(Begin(p, funds), LaneEnabled, Next, steps).Some?
        ensures Climbs(p, Exec(Begin(p, funds), LaneEnabled, Next, steps).value)
      {
        VouchersClimbBoundaries(p, funds, steps);
      }
    } else {
      var b := Boundary(p, 1);
      var amount := (b + 1) * p.pricePerByte + p.unsealPrice;
      assert amount == b * p.pricePerByte + p.pricePerByte + p.unsealPrice;
      hide Exec, Next, Begin, LaneEnabled, Boundary;
      var steps, m := FirstVoucherIsForAll(p, funds, b + 1, 0, amount);
      assert m.vouchers[0] != b * p.pricePerByte + p.unsealPrice;
      assert !Climbs(p, m);
    }
  }
}
