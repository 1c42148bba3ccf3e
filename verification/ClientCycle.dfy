/** The cycle that the client drives by itself: from Ongoing with a payment requested, through
    FundsNeeded and SendFunds, back to Ongoing. When does it come to rest? */
module ClientCycle {
  import opened Options
  import opened Deals
  import opened Intervals
  import opened Numbers
  import opened Client
  import opened ClientRuns
  import opened Runs

  /** An environment in which vouchers can be created and sent. */
  const FUNDED: World := World(true, ChannelReady, true, Some(0), Created, true, None, true)

  /** One step of the machine with no event arriving from outside. */
  function Solo(m: Machine): Machine {
    if m.pending.Some? then Next(m, Settle) else Next(m, Process(FUNDED))
  }

  predicate Quiet(m: Machine) { m.queue == [] && m.pending.None? }

  ghost predicate Quiesces(m: Machine) {
    exists n: nat :: Quiet(Iterate(Solo, m, n))
  }

  /** Just entered Ongoing with a payment still requested and nothing else to do. */
  predicate AtOngoing(m: Machine) {
    && m.cs.status == Ongoing
    && m.cs.paymentRequested > 0
    && !m.cs.lastPaymentRequested
    && m.queue == []
    && m.pending == Some(PaymentRequested(0))
  }

  /** The machine decides to send funds and then finds that it has sent enough already. */
  predicate Futile(ds: ClientState) {
    MustSend(ds) && AmountToSend(ds) <= ds.fundsSpent
  }

  /** The deal after one round that had to send funds. */
  function AfterRound(ds: ClientState): ClientState {
    if AmountToSend(ds) <= ds.fundsSpent then ds else RecordPaymentSent(ds, AmountToSend(ds))
  }

  /** The event with which sending funds ends. */
  function Sent(ds: ClientState): Event {
    if AmountToSend(ds) <= ds.fundsSpent then PaymentNotSent else PaymentSent(AmountToSend(ds))
  }

  /** The six states of a round that has to send funds. */
  function Stage(m: Machine, i: nat): Machine {
    var needed := m.cs.(status := FundsNeeded);
    var sending := m.cs.(status := SendFunds);
    var vouchers := if AmountToSend(m.cs) <= m.cs.fundsSpent then m.vouchers else m.vouchers + [AmountToSend(m.cs)];
    match i
    case 0 => m
    case 1 => m.(queue := [PaymentRequested(0)], pending := None)
    case 2 => m.(cs := needed, queue := [], pending := Some(SendFundsNow))
    case 3 => m.(cs := needed, queue := [SendFundsNow], pending := None)
    case 4 => m.(cs := sending, queue := [], pending := Some(Sent(m.cs)), vouchers := vouchers)
    case 5 => m.(cs := sending, queue := [Sent(m.cs)], pending := None, vouchers := vouchers)
    case _ => m.(cs := AfterRound(m.cs), queue := [], pending := OngoingHandler(AfterRound(m.cs)).trigger,
                 vouchers := vouchers)
  }

  lemma StageOne(m: Machine)
    requires AtOngoing(m)
    ensures Solo(m) == Stage(m, 1)
  {
    assert m.queue + [PaymentRequested(0)] == [PaymentRequested(0)];
  }

  lemma StageTwo(m: Machine)
    requires AtOngoing(m)
    ensures MustSend(m.cs) ==> Solo(Stage(m, 1)) == Stage(m, 2)
    ensures !MustSend(m.cs) ==> Quiet(Solo(Stage(m, 1)))
  {
    assert Apply(m.cs, PaymentRequested(0)) == m.cs.(status := FundsNeeded);
    assert m.vouchers + [] == m.vouchers;
  }

  lemma StageThree(m: Machine)
    ensures Solo(Stage(m, 2)) == Stage(m, 3)
  {
    assert [] + [SendFundsNow] == [SendFundsNow];
  }

  lemma StageFour(m: Machine)
    ensures Solo(Stage(m, 3)) == Stage(m, 4)
  {
    var sending := m.cs.(status := SendFunds);
    assert Apply(m.cs.(status := FundsNeeded), SendFundsNow) == sending;
    assert AmountToSend(sending) == AmountToSend(m.cs);
    assert m.vouchers + [] == m.vouchers;
  }

  lemma StageFive(m: Machine)
    ensures Solo(Stage(m, 4)) == Stage(m, 5)
  {
    assert [] + [Sent(m.cs)] == [Sent(m.cs)];
  }

  lemma StageSix(m: Machine)
    requires m.cs.status == Ongoing
    ensures Solo(Stage(m, 5)) == Stage(m, 6)
  {
    var m5 := Stage(m, 5);
    SentApplied(m.cs);
    assert RunsHandler(SendFunds, Sent(m.cs)) && OwedIn(Sent(m.cs)) == 0;
    assert [Sent(m.cs)][1..] == [];
    assert m5.vouchers + [] == m5.vouchers;
    hide RecordPaymentSent, Transition, Apply, AmountToSend;
    assert AfterRound(m.cs).status == Ongoing;
  }

  lemma SentApplied(ds: ClientState)
    requires ds.status == Ongoing
    ensures Apply(ds.(status := SendFunds), Sent(ds)) == AfterRound(ds)
  {
    hide NextInterval, AmountToSend;
    RecordedAnywhere(ds, AmountToSend(ds));
    hide RecordPaymentSent;
  }

  lemma RecordedAnywhere(ds: ClientState, amount: int)
    ensures RecordPaymentSent(ds.(status := SendFunds), amount) == RecordPaymentSent(ds, amount).(status := SendFunds)
    ensures RecordPaymentSent(ds, amount).status == ds.status
  {
    hide NextInterval;
  }

  /** Funds to send: six steps lead back to Ongoing, never resting on the way. */
  lemma BusyRound(m: Machine)
    requires AtOngoing(m) && MustSend(m.cs)
    ensures Iterate(Solo, m, 6) == Stage(m, 6)
    ensures forall i :: 0 <= i < 6 ==> !Quiet(Iterate(Solo, m, i))
  {
    hide Solo, OngoingHandler, AfterRound, Sent, AmountToSend, MustSend;
    StageOne(m);
    StageTwo(m);
    StageThree(m);
    StageFour(m);
    StageFive(m);
    StageSix(m);
    forall i | 0 <= i < 6
      ensures !Quiet(Iterate(Solo, m, i))
    {
      StagesIterate(m, i);
    }
    StagesIterate(m, 6);
  }

  lemma {:induction false} StagesIterate(m: Machine, n: nat)
    requires n <= 6
    requires forall i {:trigger Stage(m, i)} :: 0 <= i < 6 ==> Solo(Stage(m, i)) == Stage(m, i + 1)
    ensures Iterate(Solo, m, n) == Stage(m, n)
  {
    hide Solo;
    if n > 0 {
      StagesIterate(m, n - 1);
      IterateCompose(Solo, m, n - 1, 1);
      hide Stage;
      assert Iterate(Solo, Stage(m, n - 1), 1) == Solo(Stage(m, n - 1));
    }
  }

  /** Nothing to send: the machine rests in FundsNeeded. */
  lemma IdleRound(m: Machine)
    requires AtOngoing(m) && !MustSend(m.cs)
    ensures Quiet(Iterate(Solo, m, 2))
  {
    hide Solo, MustSend;
    StageOne(m);
    StageTwo(m);
  }

  /** An interval to wait for, or unsealing recorded as paid only out of what was spent. */
  predicate Recorded(ds: ClientState) {
    ds.currentInterval > 0 || ds.unsealFundsPaid <= ds.fundsSpent
  }

  /** A round that pays raises what was spent, and cannot be followed by a futile one. */
  lemma PayingRound(ds: ClientState)
    requires ds.params.pricePerByte > 0 && Recorded(ds)
    requires MustSend(ds) && ds.fundsSpent < AmountToSend(ds)
    ensures var ds' := AfterRound(ds);
            && !Futile(ds')
            && ds'.params == ds.params && ds'.lastPaymentRequested == ds.lastPaymentRequested
            && ds'.status == ds.status
            && ds.fundsSpent < ds'.fundsSpent <= Worth(ds)
            && Worth(ds') == Worth(ds)
            && ds.currentInterval <= ds'.currentInterval && Recorded(ds')
  {
    var p, total := ds.params, AmountToSend(ds);
    AmountToSendCovered(ds);
    NextIntervalIsLeast(p, ds.currentInterval, 0);
    hide NextInterval;
    if ds.unsealFundsPaid >= p.unsealPrice && !ds.allBlocksReceived {
      QuotientExact(ds.currentInterval, p.pricePerByte);
      MulStrict(ds.currentInterval, NextInterval(p, ds.currentInterval), p.pricePerByte);
    } else if ds.totalReceived > 0 {
      QuotientExact(ds.totalReceived, p.pricePerByte);
    }
  }

  lemma {:induction false} RestsUnlessFutile(m: Machine)
    requires AtOngoing(m) && m.cs.params.pricePerByte > 0 && Recorded(m.cs)
    requires !Futile(m.cs) && m.cs.fundsSpent <= Worth(m.cs)
    ensures Quiesces(m)
    decreases Worth(m.cs) - m.cs.fundsSpent
  {
    hide Solo, MustSend, AmountToSend, AfterRound, Worth, Recorded;
    if !MustSend(m.cs) {
      IdleRound(m);
    } else {
      BusyRound(m);
      PayingRound(m.cs);
      var m' := Stage(m, 6);
      if m'.cs.paymentRequested > 0 {
        RestsUnlessFutile(m');
        var n: nat :| Quiet(Iterate(Solo, m', n));
        IterateCompose(Solo, m, 6, n);
        assert Quiet(Iterate(Solo, m, 6 + n));
      } else {
        assert Quiet(Iterate(Solo, m, 6));
      }
    }
  }

  lemma {:induction false} FutileForever(m: Machine, n: nat)
    requires AtOngoing(m) && Futile(m.cs)
    ensures !Quiet(Iterate(Solo, m, n))
  {
    hide Solo, MustSend, AmountToSend;
    BusyRound(m);
    assert Stage(m, 6) == m;
    if n >= 6 {
      IterateCompose(Solo, m, 6, n - 6);
      FutileForever(m, n - 6);
    }
  }

  /** The cycle comes to rest exactly when its first round is not futile. */
  lemma CycleRestsExactly(m: Machine)
    requires AtOngoing(m) && m.cs.params.pricePerByte > 0 && Recorded(m.cs)
    requires m.cs.fundsSpent <= Worth(m.cs)
    ensures Quiesces(m) <==> !Futile(m.cs)
  {
    hide Solo, AtOngoing, Futile, Worth, Recorded;
    if Futile(m.cs) {
      forall n: nat ensures !Quiet(Iterate(Solo, m, n)) { FutileForever(m, n); }
    } else {
      RestsUnlessFutile(m);
    }
  }

  /** The record that payments of growing amounts leave behind. */
  predicate Books(ds: ClientState) {
    && ds.params.pricePerByte > 0
    && 0 <= ds.fundsSpent
    && ds.unsealFundsPaid == (if ds.fundsSpent < ds.params.unsealPrice then ds.fundsSpent else ds.params.unsealPrice)
    && ds.bytesPaidFor == (if ds.fundsSpent < ds.params.unsealPrice then 0
                           else (ds.fundsSpent - ds.params.unsealPrice) / ds.params.pricePerByte)
  }

  /** With such books, a futile round means: more blocks to come, and the bytes already paid for
      lie at or past the current interval but before the bytes received. */
  lemma FutileGuard(ds: ClientState)
    requires Books(ds)
    ensures Futile(ds) <==>
              !ds.allBlocksReceived && ds.unsealFundsPaid == ds.params.unsealPrice
              && ds.currentInterval <= ds.bytesPaidFor < ds.totalReceived
  {
    var price, u := ds.params.pricePerByte, ds.params.unsealPrice;
    if ds.fundsSpent >= u {
      QuotientCompares(ds.fundsSpent - u, price, ds.currentInterval);
      QuotientCompares(ds.fundsSpent - u, price, ds.totalReceived);
    } else {
      assert ds.totalReceived * price >= 0;
    }
  }
}
