/** What a client makes of the answers of its environment: proposing the deal, setting up the channel, and sending funds
    (retrieval/client/fsm.go:434-618). */
module ClientAnswers {
  import opened Options
  import opened Deals
  import opened Intervals
  import opened Client
  import opened ClientRuns
  import opened ClientLadder
  import opened ClientProgress
  import opened ClientOutcome
  import opened ClientCompletion
  import opened ClientSteps

  /** What the running handler triggers is taken, with the same answers at hand. */
  function Turn(m: Machine, w: World): Machine { Next(Next(m, Settle), Process(w)) }

  predicate Still(m: Machine) { m.queue == [] && m.pending.None? }

  lemma StaysStill(m: Machine, w: World)
    requires Still(m)
    ensures Turn(m, w) == m
  {
  }

  /** A turn: the deal moves by the event, and its handler runs if the table says so. */
  lemma Turns(m: Machine, w: World, e: Event)
    requires m.queue == [] && m.pending == Some(e)
    ensures var m', cs' := Turn(m, w), Apply(m.cs, e);
            && m'.cs == cs' && m'.queue == []
            && m'.pending == (if RunsHandler(m.cs.status, e) then Handler(cs', w).trigger else None)
            && m'.vouchers == m.vouchers + (if RunsHandler(m.cs.status, e) then Listed(Handler(cs', w).voucher) else [])
  {
    assert [] + [e] == [e] && [e][1..] == [] && m.vouchers + [] == m.vouchers;
    if Transition(m.cs.status, e).Invalid? { InvalidStays(m.cs, e); }
    hide Apply, Handler, Transition;
  }

  /** So is the only event of a queue. */
  lemma Takes(m: Machine, w: World, e: Event)
    requires m.queue == [e] && m.pending.None?
    ensures var m', cs' := Next(m, Process(w)), Apply(m.cs, e);
            && m'.cs == cs' && m'.queue == []
            && m'.pending == (if RunsHandler(m.cs.status, e) then Handler(cs', w).trigger else None)
            && m'.vouchers == m.vouchers + (if RunsHandler(m.cs.status, e) then Listed(Handler(cs', w).voucher) else [])
  {
    assert [e][1..] == [] && m.vouchers + [] == m.vouchers;
    if Transition(m.cs.status, e).Invalid? { InvalidStays(m.cs, e); }
    hide Apply, Handler, Transition;
  }

  // ---------- Proposal ----------

  /** The deal waits for acceptance exactly when its proposal could be sent, and is at its end otherwise. */
  lemma ProposalDecides(p: Params, totalFunds: int, w: World)
    ensures Turn(Next(Begin(p, totalFunds), Process(w)), w).cs.status == if w.openOk then WaitForAcceptance else Errored
  {
    var m, e := Begin(p, totalFunds), if w.openOk then DealProposed else WriteDealProposalErrored;
    Opens(p, totalFunds, w);
    hide *;
    Takes(m, w, Open);
    Turns(Next(m, Process(w)), w, e);
    FlagsMove(Start(p, totalFunds), e);
  }

  lemma Opens(p: Params, totalFunds: int, w: World)
    ensures var m, e := Begin(p, totalFunds), if w.openOk then DealProposed else WriteDealProposalErrored;
            && m.queue == [Open] && m.pending.None? && m.cs == Start(p, totalFunds) && RunsHandler(New, Open)
            && m.cs.status == New && Apply(m.cs, Open) == m.cs && Handler(m.cs, w).trigger == Some(e)
            && Transition(New, e) == To(if w.openOk then WaitForAcceptance else Errored)
  {
  }

  // ---------- Set-up ----------

  /** After a failure the deal is at its end in one turn. */
  lemma FailureEnds(m: Machine, w: World)
    requires m.cs.status == Failing && m.queue == [] && m.pending == Some(if w.closeOk then CancelComplete else DataTransferError)
    ensures Turn(m, w).cs.status == Errored && Still(Turn(m, w))
  {
    Turns(m, w, m.pending.value);
    hide Turn;
  }

  /** The lane is allocated, and nothing is requested yet. */
  lemma LaneDecides(m: Machine, w: World)
    requires m.cs.status == PaymentChannelAllocatingLane && m.cs.paymentRequested <= 0 && m.queue == []
    requires m.pending == Some(if w.lane.Some? then LaneAllocated(w.lane.value) else AllocateLaneErrored)
    ensures var m' := Turn(m, w);
            if w.lane.Some? then m'.cs.status == Ongoing && m'.cs.lane == w.lane && Still(m')
            else m'.cs.status == Failing && m'.queue == [] && m'.pending == Some(if w.closeOk then CancelComplete else DataTransferError)
  {
    Turns(m, w, m.pending.value);
    hide Turn;
  }

  lemma ChannelIsReady(m: Machine, w: World)
    requires m.cs.status in {Accepted, PaymentChannelCreating, PaymentChannelAddingInitialFunds} && m.queue == []
    requires m.pending == Some(PaymentChannelReady)
    ensures var m' := Turn(m, w);
            && m'.cs.status == PaymentChannelAllocatingLane && m'.cs.paymentRequested == m.cs.paymentRequested && m'.queue == []
            && m'.pending == Some(if w.lane.Some? then LaneAllocated(w.lane.value) else AllocateLaneErrored)
  {
    Turns(m, w, PaymentChannelReady);
    hide Turn;
  }

  /** The channel fails: the deal does, except while its first funds are added, where no transition takes that up. */
  lemma ChannelFails(m: Machine, w: World)
    requires m.cs.status in {Accepted, PaymentChannelCreating, PaymentChannelAddingInitialFunds} && m.queue == []
    requires m.pending == Some(PaymentChannelErrored)
    ensures var m' := Turn(m, w);
            if m.cs.status == PaymentChannelAddingInitialFunds then m'.cs == m.cs && Still(m')
            else m'.cs.status == Failing && m'.queue == [] && m'.pending == Some(if w.closeOk then CancelComplete else DataTransferError)
  {
    Turns(m, w, PaymentChannelErrored);
    hide Turn;
  }

  lemma ChannelIsAwaited(m: Machine, w: World)
    requires m.cs.status == Accepted && m.queue == [] && m.pending in {Some(PaymentChannelCreateInitiated), Some(FundsBeingAdded)}
    ensures var m' := Turn(m, w);
            && m'.cs.status == (if m.pending == Some(FundsBeingAdded) then PaymentChannelAddingInitialFunds else PaymentChannelCreating)
            && m'.cs.paymentRequested == m.cs.paymentRequested && m'.queue == []
            && m'.pending == Some(if w.waitOk then PaymentChannelReady else PaymentChannelErrored)
  {
    Turns(m, w, m.pending.value);
    hide Turn;
  }

  /** The answer to the request for a channel. */
  function Channel(w: World): Event {
    match w.channel
    case ChannelError => PaymentChannelErrored
    case ChannelCreating => PaymentChannelCreateInitiated
    case ChannelReady => PaymentChannelReady
    case ChannelAddingFunds => FundsBeingAdded
  }

  lemma AcceptanceAsks(m: Machine, w: World)
    requires m.cs.status == WaitForAcceptance && m.queue == [DealAccepted] && m.pending.None?
    ensures var m' := Next(m, Process(w));
            && m'.cs == m.cs.(status := Accepted) && m'.queue == []
            && m'.pending == Some(if m.cs.totalFunds == 0 then PaymentChannelSkip else Channel(w))
  {
    Takes(m, w, DealAccepted);
    hide Next;
  }

  lemma SkipsOn(m: Machine, w: World)
    requires m.cs.status == Accepted && m.cs.paymentRequested <= 0 && m.queue == [] && m.pending == Some(PaymentChannelSkip)
    ensures Turn(m, w).cs == m.cs.(status := Ongoing) && Still(Turn(m, w))
  {
    Turns(m, w, PaymentChannelSkip);
    hide Turn;
  }

  function Turned(m: Machine, w: World, n: nat): Machine
    decreases n
  {
    if n == 0 then m else Turned(Turn(m, w), w, n - 1)
  }

  lemma {:induction false} StillTurned(m: Machine, w: World, n: nat)
    requires Still(m)
    ensures Turned(m, w, n) == m
    decreases n
  {
    hide Turn;
    if n > 0 {
      StaysStill(m, w);
      StillTurned(m, w, n - 1);
    }
  }

  /** The answers with which an accepted deal is set up. */
  predicate Favourable(w: World) {
    w.channel != ChannelError && (w.channel == ChannelReady || w.waitOk) && w.lane.Some?
  }

  /** An accepted deal gets under way, on the lane it was given, exactly when it has nothing to spend or its channel is there,
      or found on chain, and a lane is allocated; it stays where its first funds are added when they are not found there; and
      it is at its end otherwise. */
  lemma SetupDecides(m: Machine, w: World)
    requires m.cs.status == WaitForAcceptance && m.cs.paymentRequested <= 0 && m.queue == [DealAccepted] && m.pending.None?
    ensures var ds := Turned(Next(m, Process(w)), w, 4).cs;
            && ds.status == (if m.cs.totalFunds == 0 || Favourable(w) then Ongoing
                             else if w.channel == ChannelAddingFunds && !w.waitOk then PaymentChannelAddingInitialFunds
                             else Errored)
            && (m.cs.totalFunds != 0 && Favourable(w) ==> ds.lane == w.lane)
  {
    hide Turn, Next, Still;
    AcceptanceAsks(m, w);
    var m1 := Next(m, Process(w));
    if m.cs.totalFunds == 0 {
      SkipsOn(m1, w);
      StillTurned(Turn(m1, w), w, 3);
    } else if w.channel == ChannelError {
      ChannelFails(m1, w);
      FailureEnds(Turn(m1, w), w);
      StillTurned(Turn(Turn(m1, w), w), w, 2);
    } else if w.channel == ChannelReady {
      ReadyDecides(m1, w);
      Onwards(m1, w, 3);
    } else {
      ChannelIsAwaited(m1, w);
      var m2 := Turn(m1, w);
      if w.waitOk {
        ReadyDecides(m2, w);
      } else {
        ChannelFails(m2, w);
        if w.channel == ChannelAddingFunds { StillTurned(Turn(m2, w), w, 2); }
        else {
          FailureEnds(Turn(m2, w), w);
          StillTurned(Turn(Turn(m2, w), w), w, 1);
        }
      }
    }
  }

  /** From a channel that is ready, three turns. */
  lemma ReadyDecides(m: Machine, w: World)
    requires m.cs.status in {Accepted, PaymentChannelCreating, PaymentChannelAddingInitialFunds} && m.queue == []
    requires m.pending == Some(PaymentChannelReady) && m.cs.paymentRequested <= 0
    ensures var m' := Turned(m, w, 3);
            Still(m') && m'.cs.status == (if w.lane.Some? then Ongoing else Errored) && (w.lane.Some? ==> m'.cs.lane == w.lane)
  {
    hide Turn, Still;
    ChannelIsReady(m, w);
    var m1 := Turn(m, w);
    LaneDecides(m1, w);
    var m2 := Turn(m1, w);
    if w.lane.Some? { StillTurned(m2, w, 1); } else { FailureEnds(m2, w); }
    assert Turned(m, w, 3) == Turned(m1, w, 2) == Turned(m2, w, 1) == Turn(m2, w);
    if w.lane.Some? { StaysStill(m2, w); }
  }

  /** One turn more for a machine that is still after three. */
  lemma Onwards(m: Machine, w: World, n: nat)
    requires n == 3 && Still(Turned(m, w, 3))
    ensures Turned(m, w, 4) == Turned(m, w, 3)
  {
    hide Turn, Still;
    var m1, m2, m3 := Turn(m, w), Turn(Turn(m, w), w), Turn(Turn(Turn(m, w), w), w);
    assert Turned(m, w, 3) == Turned(m1, w, 2) == Turned(m2, w, 1) == m3;
    assert Turned(m, w, 4) == Turned(m1, w, 3) == Turned(m2, w, 2) == Turned(m3, w, 1);
    StillTurned(m3, w, 1);
  }

  // ---------- Sending funds ----------

  /** What sending funds comes to, by the channel's answer: no voucher when nothing more is due; one that is recorded when it
      was made and sent; the deal's end when it was made and not sent, or refused; and the check of its funds when they fall
      short. */
  lemma SendingDecides(m: Machine, w: World)
    requires m.cs.status == FundsNeeded && m.queue == [SendFundsNow] && m.pending.None?
    ensures var v, m' := AmountToSend(m.cs), Turn(Next(m, Process(w)), w);
            if v <= m.cs.fundsSpent then m'.vouchers == m.vouchers && m'.cs.status == Ongoing && m'.cs.fundsSpent == m.cs.fundsSpent
            else match w.voucher
              case Created => m'.vouchers == m.vouchers + [v] &&
                              (if w.writeOk then m'.cs.status == Ongoing && m'.cs.fundsSpent == v else m'.cs.status == Errored)
              case Short(_) => m'.vouchers == m.vouchers && m'.cs.status == CheckFunds
              case Refused => m'.vouchers == m.vouchers && m'.cs.status == Failing
  {
    var v := AmountToSend(m.cs);
    SendingApplied(m.cs);
    Takes(m, w, SendFundsNow);
    var m1 := Next(m, Process(w));
    assert m1.cs == m.cs.(status := SendFunds);
    hide AmountToSend, Next;
    var e := m1.pending.value;
    Turns(m1, w, e);
    SentLeads(m1.cs, w, e, v);
    assert m.vouchers + [] == m.vouchers && m.vouchers + [v] + [] == m.vouchers + [v];
    hide Turn, Apply, Transition, Handler;
  }

  lemma SentLeads(ds: ClientState, w: World, e: Event, v: int)
    requires ds.status == SendFunds
    ensures var ds' := Apply(ds, e);
            && (e == PaymentNotSent ==> ds' == ds.(status := Ongoing))
            && (e == PaymentSent(v) ==> ds'.status == Ongoing && ds'.fundsSpent == v)
            && (e == WriteDealPaymentErrored ==> ds'.status == Errored)
            && (e == CreateVoucherFailed ==> ds'.status == Failing)
            && (e.VoucherShortfall? ==> ds'.status == CheckFunds)
    ensures e == PaymentNotSent || e.PaymentSent? || e == WriteDealPaymentErrored || e == CreateVoucherFailed || e.VoucherShortfall? ==>
              Handler(Apply(ds, e), w).voucher.None?
  {
    IsOutcomeOf(e);
    hide *;
    FlagsMove(ds, e);
    OutcomeLeads(e);
    NotSentStays(ds);
    SpentIs(ds, v);
    if IsOutcome(e) { NoVoucherThere(Apply(ds, e), w); }
  }

  lemma IsOutcomeOf(e: Event)
    ensures IsOutcome(e) <==> e == PaymentNotSent || e.PaymentSent? || e == WriteDealPaymentErrored || e == CreateVoucherFailed || e.VoucherShortfall?
  {
  }

  lemma OutcomeLeads(e: Event)
    ensures IsOutcome(e) ==> Transition(SendFunds, e) == To(match e
                                                           case VoucherShortfall(_) => CheckFunds
                                                           case WriteDealPaymentErrored => Errored
                                                           case CreateVoucherFailed => Failing
                                                           case _ => Ongoing)
  {
  }

  lemma NotSentStays(ds: ClientState)
    requires ds.status == SendFunds
    ensures Apply(ds, PaymentNotSent) == ds.(status := Ongoing)
  {
  }

  lemma SpentIs(ds: ClientState, v: int)
    requires ds.status == SendFunds
    ensures Apply(ds, PaymentSent(v)).fundsSpent == v
  {
    hide NextInterval;
  }

  lemma NoVoucherThere(ds: ClientState, w: World)
    requires ds.status in {Ongoing, Errored, Failing, CheckFunds}
    ensures Handler(ds, w).voucher.None?
  {
    hide AmountToSend;
  }
}
