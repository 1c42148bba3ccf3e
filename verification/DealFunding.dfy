/** A retrieval client's deal over the channel it pays from: what CheckFunds reports is what SendFunds
    then finds (retrieval/client/fsm.go:524-618 over payments/channel.go:616-659). */
module DealFunding {
  import opened Options
  import opened Deals
  import opened Client
  import M = ClientRuns
  import K = ClientCompletion
  import A = ClientAnswers
  import opened Lanes
  import PC = PaymentChannel
  import CR = ChannelRuns
  import CF = ChannelFunds
  import opened Runs

  /** The channel's funds as a handler reads them. */
  ghost predicate ReadFrom(f: AvailableFunds, l: CR.Ledger) {
    f.confirmed == l.ci.amount && f.redeemed == Total(PC.View(l.ci, l.chain))
  }

  /** The channel's answer to a request for a voucher. */
  ghost predicate AnsweredBy(w: World, l: CR.Ledger, amount: int, lane: nat, signature: string, signed: bool) {
    match PC.Create(l.ci, amount, lane, signature, signed, l.chain).1
    case NewVoucher(_) => w.voucher == Created
    case Shortfall(s) => w.voucher.Short? && w.voucher.shortfall == s
    case Failed(_) => w.voucher == Refused
  }

  /** Once CheckFunds found the channel ready, a later SendFunds for no more than it checked does not fall
      short, whatever was deposited, redeemed, submitted or spent on the deal's lane meanwhile. */
  lemma CheckedDealNeverShort(l: CR.Ledger, ds: ClientState, w: World, acts: seq<CR.Action>,
                              later: ClientState, w': World, lane: nat, signature: string, signed: bool)
    requires CR.Inv(l) && l.ci.amount <= l.chain.balance
    requires ds.status == CheckFunds && w.funds.Some? && ReadFrom(w.funds.value, l)
    requires Handler(ds, w) == Trigger(PaymentChannelReady)
    requires Exec(l, CF.OnlySpends(lane, AmountToSend(ds)), CR.Next, acts).Some?
    requires later.status in {SendFunds, SendFundsLastPayment} && AmountToSend(later) <= AmountToSend(ds)
    requires AnsweredBy(w', Exec(l, CF.OnlySpends(lane, AmountToSend(ds)), CR.Next, acts).value,
                        AmountToSend(later), lane, signature, signed)
    ensures Handler(later, w').trigger.Some? && !Handler(later, w').trigger.value.VoucherShortfall?
  {
    ReadyChecked(l, ds, w);
    hide *;
    CF.ReadyChannelNeverShort(l, lane, AmountToSend(ds), acts, AmountToSend(later), signature, signed);
    AnswerNotShort(w', Exec(l, CF.OnlySpends(lane, AmountToSend(ds)), CR.Next, acts).value, AmountToSend(later), lane, signature, signed);
    SendsNotShort(later, w');
  }

  lemma ReadyChecked(l: CR.Ledger, ds: ClientState, w: World)
    requires l.ci.amount <= l.chain.balance && ds.status == CheckFunds && w.funds.Some? && ReadFrom(w.funds.value, l)
    requires Handler(ds, w) == Trigger(PaymentChannelReady)
    ensures CF.Ready(l, AmountToSend(ds))
  {
    hide AmountToSend;
  }

  lemma AnswerNotShort(w: World, l: CR.Ledger, amount: int, lane: nat, signature: string, signed: bool)
    requires AnsweredBy(w, l, amount, lane, signature, signed)
    requires !PC.Create(l.ci, amount, lane, signature, signed, l.chain).1.Shortfall?
    ensures !w.voucher.Short?
  {
    hide PC.Create;
  }

  lemma SendsNotShort(ds: ClientState, w: World)
    requires ds.status in {SendFunds, SendFundsLastPayment} && !w.voucher.Short?
    ensures Handler(ds, w).trigger.Some? && !Handler(ds, w).trigger.value.VoucherShortfall?
  {
    hide AmountToSend;
  }

  /** The lane of a deal shows its last voucher, which is the highest. */
  lemma DealLane(l: CR.Ledger, lane: nat)
    requires CR.Inv(l) && lane !in l.start
    ensures var ls, vs := PC.View(l.ci, l.chain), PC.Stored(l.ci.vouchers);
            var last := LastOn(vs, lane);
            && (lane in ls <==> last >= 0)
            && (last >= 0 ==> ls[lane] == LaneState(vs[last].amount, vs[last].nonce))
            && (forall i :: 0 <= i < |vs| && vs[i].lane == lane ==> last >= 0 && vs[i].amount <= vs[last].amount)
  {
    hide CR.Solvent, CR.Telescopes, CR.DownClosed;
    var vs := PC.Stored(l.ci.vouchers);
    CR.ViewFromStart(l);
    MergedLane(l.start, vs, lane);
    forall i | 0 <= i < |vs| && vs[i].lane == lane ensures LastOn(vs, lane) >= 0 && vs[i].amount <= vs[LastOn(vs, lane)].amount {
      CR.ViewIsHighest(l, i);
    }
  }

  /** On a lane allocated for a deal and funded up to a, a signed voucher is created exactly when it is worth
      more than every one before it: what the deal's own model assumes of its channel. */
  lemma FundedLaneCreatesExactly(l: CR.Ledger, lane: nat, a: int, amount: nat, signature: string)
    requires CR.Inv(l) && lane !in l.start && CF.Reserved(l, lane, a) && amount <= a
    ensures var vs := PC.Stored(l.ci.vouchers);
            PC.Create(l.ci, amount, lane, signature, true, l.chain).1.NewVoucher? <==>
            forall i :: 0 <= i < |vs| && vs[i].lane == lane ==> vs[i].amount < amount
  {
    DealLane(l, lane);
    var sv := Voucher(l.ci.addr, lane, PC.NextNonce(l.ci.vouchers, lane), amount, 0, signature);
    var ls, vs := PC.View(l.ci, l.chain), PC.Stored(l.ci.vouchers);
    var last := LastOn(vs, lane);
    hide CR.Inv, PC.View, PC.NextNonce, Total, CR.History;
    assert !PC.Has(l.ci.vouchers, sv);
    assert last >= 0 ==> vs[last] == l.ci.vouchers[last].voucher && vs[last].nonce < sv.nonce;
    assert TotalWith(ls, sv) <= l.chain.balance;
  }

  /** The funds once all that is in flight is confirmed, with x more added. */
  function Settled(f: AvailableFunds, x: int): AvailableFunds {
    f.(confirmed := f.confirmed + f.pending + f.queued + x, pending := 0, queued := 0)
  }

  /** What CheckFunds reports: the amount reported as missing is the least that makes the check pass once all in flight is
      confirmed; funds are waited for exactly when the check fails now, passes then with nothing added, and there is a
      message to wait for. */
  lemma FundsReportIsExact(ds: ClientState, w: World, f: AvailableFunds, x: int)
    requires ds.status == CheckFunds && !ds.waiting && w.funds == Some(f)
    ensures Handler(ds, w) == Trigger(PaymentChannelReady) <==> f.redeemed + AmountToSend(ds) <= f.confirmed
    ensures Handler(ds, w) == Trigger(FundsBeingAdded) <==>
              && Handler(ds, w) != Trigger(PaymentChannelReady) && f.hasSentinel
              && Handler(ds, w.(funds := Some(Settled(f, 0)))) == Trigger(PaymentChannelReady)
    ensures var e := Handler(ds, w).trigger;
            && e.Some? && (e.value in {PaymentChannelReady, FundsBeingAdded} || e.value.FundsExpended?)
            && (e.value.FundsExpended? ==>
                  (Handler(ds, w.(funds := Some(Settled(f, x)))) == Trigger(PaymentChannelReady) <==> e.value.shortfall <= x))
  {
    hide AmountToSend;
  }

  /** The funds are checked again. */
  function Rechecked(m: M.Machine, w: World): M.Machine {
    A.Turn(M.Next(m, M.Process(w)), w)
  }

  /** A deal whose check reported missing funds waits for them with that amount on record; checked again once all in flight
      is confirmed and x added, it goes on exactly when x is that amount or more. */
  lemma ShortfallIsRepaired(ds: ClientState, w: World, f: AvailableFunds, m: M.Machine, w': World, missing: int, x: int)
    requires ds.status == CheckFunds && !ds.waiting && w.funds == Some(f) && Handler(ds, w) == Trigger(FundsExpended(missing))
    requires m.cs == Apply(ds, FundsExpended(missing)) && m.queue == [RecheckFunds] && m.pending.None?
    requires w'.funds == Some(Settled(f, x))
    ensures m.cs.status == InsufficientFunds && m.cs.voucherShortfall == missing
    ensures Rechecked(m, w').cs.status == Ongoing <==> missing <= x
  {
    Reported(ds, w, f, missing, x);
    hide *;
    var e := Rechecks(m, w');
    FundsRead(ds.(voucherShortfall := missing), w', Settled(f, x));
    CheckedOn(M.Next(M.Next(m, M.Process(w')), M.Settle), w', e);
  }

  /** What the report leaves on record, and when the check passes. */
  lemma Reported(ds: ClientState, w: World, f: AvailableFunds, missing: int, x: int)
    requires ds.status == CheckFunds && !ds.waiting && w.funds == Some(f) && Handler(ds, w) == Trigger(FundsExpended(missing))
    ensures Apply(ds, FundsExpended(missing)) == ds.(status := InsufficientFunds, voucherShortfall := missing)
    ensures missing <= x <==> Settled(f, x).redeemed + AmountToSend(ds) <= Settled(f, x).confirmed
    ensures AmountToSend(ds.(voucherShortfall := missing)) == AmountToSend(ds)
    ensures ds.(status := InsufficientFunds, voucherShortfall := missing).(status := CheckFunds) == ds.(voucherShortfall := missing)
  {
    assert Transition(CheckFunds, FundsExpended(missing)) == To(InsufficientFunds);
    hide Transition;
  }

  lemma FundsRead(ds: ClientState, w: World, f: AvailableFunds)
    requires !ds.waiting && w.funds == Some(f)
    ensures var e := CheckFundsHandler(ds, w).trigger;
            && e.Some? && (e.value in {PaymentChannelReady, FundsBeingAdded} || e.value.FundsExpended?)
            && (e.value == PaymentChannelReady <==> f.redeemed + AmountToSend(ds) <= f.confirmed)
  {
    hide AmountToSend;
  }

  /** A deal whose funds cannot be read stays where it checks them, with nothing ahead of it: no transition takes that up. */
  lemma UnreadFundsRest(m: M.Machine, w: World)
    requires m.cs.status == InsufficientFunds && !m.cs.waiting && m.queue == [RecheckFunds] && m.pending.None? && w.funds.None?
    ensures var m' := Rechecked(m, w); m'.cs == m.cs.(status := CheckFunds) && m'.queue == [] && m'.pending.None?
  {
    var e := Rechecks(m, w);
    var m' := M.Next(M.Next(m, M.Process(w)), M.Settle);
    assert e == PaymentChannelErrored && Transition(CheckFunds, e).Invalid?;
    assert [e][1..] == [];
    hide Apply, Transition;
  }

  lemma Rechecks(m: M.Machine, w: World) returns (e: Event)
    requires m.cs.status == InsufficientFunds && m.queue == [RecheckFunds] && m.pending.None?
    ensures CheckFundsHandler(m.cs.(status := CheckFunds), w).trigger == Some(e)
    ensures var m' := M.Next(M.Next(m, M.Process(w)), M.Settle);
            m'.cs == m.cs.(status := CheckFunds) && m'.queue == [e] && m'.pending.None?
  {
    hide AmountToSend;
    var checked := m.cs.(status := CheckFunds);
    assert Apply(m.cs, RecheckFunds) == checked;
    e := CheckFundsHandler(checked, w).trigger.value;
    assert [RecheckFunds][1..] == [] && [] + [e] == [e];
  }

  lemma CheckedOn(m: M.Machine, w: World, e: Event)
    requires m.cs.status == CheckFunds && m.queue == [e] && m.pending.None?
    requires e in {PaymentChannelReady, FundsBeingAdded, PaymentChannelErrored} || e.FundsExpended?
    ensures M.Next(m, M.Process(w)).cs.status == Ongoing <==> e == PaymentChannelReady
  {
    hide *;
    CheckedLeads(e);
    K.Processed(m, w);
    K.FlagsMove(m.cs, e);
  }

  lemma CheckedLeads(e: Event)
    requires e in {PaymentChannelReady, FundsBeingAdded, PaymentChannelErrored} || e.FundsExpended?
    ensures Transition(CheckFunds, e) == To(Ongoing) <==> e == PaymentChannelReady
  {
  }

  /** A deal that waits for funds in flight goes on when their message is found on chain, and fails when it is not. */
  lemma FundsAreAwaited(m: M.Machine, w: World)
    requires m.cs.status == CheckFunds && m.queue == [FundsBeingAdded] && m.pending.None?
    ensures var m1 := M.Next(m, M.Process(w));
            && m1.cs.status == PaymentChannelAddingFunds && m1.cs.waiting
            && Rechecked(m, w).cs.status == (if w.waitOk then Ongoing else Failing)
            && (w.waitOk ==> !Rechecked(m, w).cs.waiting)
  {
    var m1 := M.Next(m, M.Process(w));
    var e := if w.waitOk then PaymentChannelReady else PaymentChannelErrored;
    assert m1.cs.status == PaymentChannelAddingFunds && m1.cs.waiting && m1.queue == [] && m1.pending == Some(e);
    assert [] + [e] == [e];
    var m2 := M.Next(m1, M.Settle);
    assert m2.queue == [e] && m2.pending.None? && m2.cs == m1.cs;
    FundsAnswered(m2, w, e);
  }

  lemma FundsAnswered(m: M.Machine, w: World, e: Event)
    requires m.cs.status == PaymentChannelAddingFunds && m.queue == [e] && m.pending.None?
    requires e in {PaymentChannelReady, PaymentChannelErrored}
    ensures var m' := M.Next(m, M.Process(w));
            m'.cs.status == (if e == PaymentChannelReady then Ongoing else Failing) && (e == PaymentChannelReady ==> !m'.cs.waiting)
  {
  }
}
