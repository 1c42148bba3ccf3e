/** Single steps of the client, for building runs of it, alone or together with a provider. */
module ClientSteps {
  import opened Options
  import opened Deals
  import opened Intervals
  import opened Numbers
  import opened Client
  import opened ClientRuns
  import opened ClientLadder
  import opened Runs

  /** A funded channel that grants the voucher asked for, or refuses it. */
  function Lane(grants: bool): World {
    World(true, ChannelReady, true, Some(0), if grants then Created else Refused, true, None, true)
  }

  /** The channel grants amounts that grow. */
  predicate Grants(vouchers: seq<int>, amount: int) {
    forall i :: 0 <= i < |vouchers| ==> vouchers[i] < amount
  }

  /** Event e moves the deal to cs' and its handler to eff. */
  predicate Happens(cs: ClientState, e: Event, cs': ClientState, grants: bool, eff: Effect) {
    RunsHandler(cs.status, e) && Apply(cs, e) == cs' && Handler(cs', Lane(grants)) == eff
  }

  function Listed<T>(o: Option<T>): seq<T> { if o.Some? then [o.value] else [] }

  lemma InvalidRunsNothing(s: Status, e: Event)
    requires RunsHandler(s, e)
    ensures !Transition(s, e).Invalid?
  {
  }

  /** A deal with its first payments: what it has received and paid, its interval, what is requested and spent, of
      which unsealing is settled first. A deal without funds skips the channel. */
  function Deal(p: Params, funds: int, s: Status, received: nat, paid: nat, interval: nat, requested: int, spent: int): ClientState {
    var lane := if funds == 0 || s in {WaitForAcceptance, Accepted} then None else Some(0);
    ClientState(p, s, funds, lane, false, false, received, paid, interval, requested, spent,
                if spent < p.unsealPrice then spent else p.unsealPrice, false, 0)
  }

  lemma DealIs(p: Params, funds: int, s: Status, received: nat, paid: nat, interval: nat, requested: int, spent: int)
    ensures var ds := Deal(p, funds, s, received, paid, interval, requested, spent);
            ds.status == s && ds.paymentRequested == requested && ds.fundsSpent == spent
  {
  }

  lemma Happened(ds: ClientState, e: Event, ds': ClientState, grants: bool, eff: Effect)
    requires Happens(ds, e, ds', grants, eff)
    ensures Apply(ds, e) == ds'
  {
  }

  /** A deal that has received and paid nothing. */
  function Fresh(p: Params, funds: int, s: Status): ClientState {
    Deal(p, funds, s, 0, 0, p.paymentInterval, 0, 0)
  }

  // ---------- Opening a deal ----------

  lemma Proposes(p: Params, funds: int, grants: bool)
    ensures Happens(Start(p, funds), DealProposed, Fresh(p, funds, WaitForAcceptance), grants, Effect(None, None))
  {
  }

  lemma Accepts(p: Params, funds: int, grants: bool)
    ensures Happens(Fresh(p, funds, WaitForAcceptance), DealAccepted, Fresh(p, funds, Accepted), grants,
                    Trigger(if funds == 0 then PaymentChannelSkip else PaymentChannelReady))
  {
  }

  lemma SkipsChannel(p: Params, funds: int, grants: bool)
    requires funds == 0
    ensures Happens(Fresh(p, funds, Accepted), PaymentChannelSkip, Fresh(p, funds, Ongoing), grants, Effect(None, None))
  {
  }

  lemma GetsChannel(p: Params, funds: int, grants: bool)
    requires funds != 0
    ensures Happens(Fresh(p, funds, Accepted), PaymentChannelReady, Fresh(p, funds, PaymentChannelAllocatingLane), grants,
                    Trigger(LaneAllocated(0)))
  {
  }

  lemma GetsLane(p: Params, funds: int, grants: bool)
    requires funds != 0
    ensures Happens(Fresh(p, funds, PaymentChannelAllocatingLane), LaneAllocated(0), Fresh(p, funds, Ongoing), grants, Effect(None, None))
  {
  }

  // ---------- Paying ----------

  /** In Ongoing the handler reminds of what is requested. */
  function Reminder(asked: int): Effect {
    if asked > 0 then Trigger(PaymentRequested(0)) else Effect(None, None)
  }

  /** More bytes in Ongoing, or while sending. */
  lemma BytesArrive(p: Params, funds: int, s: Status, r: nat, n: nat, paid: nat, i: nat, asked: int, spent: int, grants: bool)
    requires s in {Ongoing, SendFunds}
    ensures Happens(Deal(p, funds, s, r, paid, i, asked, spent), BlocksReceived(n),
                    Deal(p, funds, Ongoing, n, paid, i, asked, spent), grants, Reminder(asked))
  {
  }

  /** More bytes when a payment is due. */
  lemma BytesAreDue(p: Params, funds: int, r: nat, n: nat, paid: nat, i: nat, asked: int, spent: int, grants: bool)
    requires paid < n && i <= n
    ensures Happens(Deal(p, funds, FundsNeeded, r, paid, i, asked, spent), BlocksReceived(n),
                    Deal(p, funds, FundsNeeded, n, paid, i, asked, spent), grants, Trigger(SendFundsNow))
  {
  }

  /** A request, or a reminder of one, is due: unsealing is not paid, or an interval has been received and not paid. */
  lemma RequestArrives(p: Params, funds: int, r: nat, paid: nat, i: nat, asked: int, owed: int, asked': int, spent: int, grants: bool)
    requires asked' == asked + owed && (spent < p.unsealPrice || (paid < r && i <= r))
    ensures Happens(Deal(p, funds, Ongoing, r, paid, i, asked, spent), PaymentRequested(owed),
                    Deal(p, funds, FundsNeeded, r, paid, i, asked', spent), grants, Trigger(SendFundsNow))
  {
  }

  /** A left-over attempt, while sending. */
  lemma AttemptAgain(p: Params, funds: int, r: nat, paid: nat, i: nat, asked: int, spent: int, grants: bool)
    ensures Happens(Deal(p, funds, SendFunds, r, paid, i, asked, spent), SendFundsNow,
                    Deal(p, funds, Ongoing, r, paid, i, asked, spent), grants, Reminder(asked))
  {
  }

  /** Sending sets in before unsealing is paid: a voucher for all bytes received. */
  lemma PaysForAll(p: Params, funds: int, n: nat, i: nat, asked: int, amount: int)
    requires p.unsealPrice > 0 && amount == n * p.pricePerByte + p.unsealPrice > 0
    ensures AmountToSend(Deal(p, funds, SendFunds, n, 0, i, asked, 0)) == amount
    ensures Happens(Deal(p, funds, FundsNeeded, n, 0, i, asked, 0), SendFundsNow,
                    Deal(p, funds, SendFunds, n, 0, i, asked, 0), true, Effect(Some(PaymentSent(amount)), Some(amount)))
  {
  }

  /** Sending sets in after that: a voucher for the interval, unless it is refused. */
  lemma PaysInterval(p: Params, funds: int, r: nat, paid: nat, i: nat, asked: int, spent: int, v: int, grants: bool)
    requires p.unsealPrice <= spent < v == i * p.pricePerByte + p.unsealPrice && i <= r
    ensures AmountToSend(Deal(p, funds, SendFunds, r, paid, i, asked, spent)) == v
    ensures Happens(Deal(p, funds, FundsNeeded, r, paid, i, asked, spent), SendFundsNow,
                    Deal(p, funds, SendFunds, r, paid, i, asked, spent), grants,
                    if grants then Effect(Some(PaymentSent(v)), Some(v)) else Trigger(CreateVoucherFailed))
  {
  }

  /** The interval is paid for already: nothing is sent. */
  lemma PaysNothing(p: Params, funds: int, r: nat, paid: nat, i: nat, asked: int, spent: int, grants: bool)
    requires p.unsealPrice + i * p.pricePerByte <= spent && 0 <= i * p.pricePerByte
    ensures Happens(Deal(p, funds, FundsNeeded, r, paid, i, asked, spent), SendFundsNow,
                    Deal(p, funds, SendFunds, r, paid, i, asked, spent), grants, Trigger(PaymentNotSent))
  {
    AmountAtMost(p, funds, r, paid, i, asked, spent);
    hide AmountToSend;
  }

  lemma AmountAtMost(p: Params, funds: int, r: nat, paid: nat, i: nat, asked: int, spent: int)
    requires p.unsealPrice + i * p.pricePerByte <= spent && 0 <= i * p.pricePerByte
    ensures AmountToSend(Deal(p, funds, SendFunds, r, paid, i, asked, spent)) <= spent
  {
  }

  /** With nothing sent the request stays. */
  lemma StaysAsked(p: Params, funds: int, r: nat, paid: nat, i: nat, asked: int, spent: int, grants: bool)
    ensures Happens(Deal(p, funds, SendFunds, r, paid, i, asked, spent), PaymentNotSent,
                    Deal(p, funds, Ongoing, r, paid, i, asked, spent), grants, Reminder(asked))
  {
  }

  /** A payment for as many bytes as the interval, or more, is recorded: the interval moves on by one boundary. */
  lemma Records(p: Params, funds: int, s: Status, r: nat, paid: nat, i: nat, i': nat, asked: int, spent: int,
                bytes: nat, v: int, asked': int, grants: bool)
    requires s in {FundsNeeded, SendFunds} && p.pricePerByte > 0 && 0 < bytes && i <= bytes
    requires v == bytes * p.pricePerByte + p.unsealPrice && i' == NextInterval(p, i) && asked' == asked - (v - spent)
    ensures Happens(Deal(p, funds, s, r, paid, i, asked, spent), PaymentSent(v),
                    Deal(p, funds, Ongoing, r, bytes, i', asked', v), grants, Reminder(asked'))
  {
    QuotientExact(bytes, p.pricePerByte);
    hide NextInterval;
  }

  // ---------- Runs of the client ----------

  /** A machine with an empty queue takes event e, from outside or because it was about to trigger it. */
  lemma TakesOne(m0: Machine, steps: seq<Step>, m: Machine, e: Event, cs': ClientState, eff: Effect, grants: bool)
    returns (steps': seq<Step>, m': Machine)
    requires Exec(m0, LaneEnabled, Next, steps) == Some(m)
    requires m.queue == [] && (m.pending == Some(e) || (m.pending.None? && Enabled(m, Enqueue(e))))
    requires Happens(m.cs, e, cs', grants, eff) && (grants ==> Grants(m.vouchers, AmountToSend(cs')))
    ensures Exec(m0, LaneEnabled, Next, steps') == Some(m')
    ensures m'.cs == cs' && m'.queue == [] && m'.pending == eff.trigger
    ensures m'.vouchers == m.vouchers + Listed(eff.voucher)
    ensures m'.announced == if m.pending.None? && e.BlocksReceived? then e.total else m.announced
  {
    hide Exec, Apply, Handler, Transition, AmountToSend;
    var step, w := if m.pending == Some(e) then Settle else Enqueue(e), Lane(grants);
    assert [] + [e] == [e];
    var mid := Next(m, step);
    assert mid.queue == [e] && mid.pending.None? && mid.cs == m.cs && mid.vouchers == m.vouchers;
    InvalidRunsNothing(m.cs.status, e);
    ExecExtend(m0, LaneEnabled, Next, steps, step);
    ExecExtend(m0, LaneEnabled, Next, steps + [step], Process(w));
    steps', m' := steps + [step] + [Process(w)], Next(mid, Process(w));
    assert [e][1..] == [];
  }

  lemma Begins(p: Params, funds: int) returns (steps: seq<Step>, m: Machine)
    ensures Exec(Begin(p, funds), LaneEnabled, Next, steps) == Some(m)
    ensures m.cs == Start(p, funds) && m.queue == [] && m.vouchers == [] && m.pending == Some(DealProposed) && m.announced == 0
  {
    var begin := Begin(p, funds);
    m := Next(begin, Process(Lane(true)));
    ExecExtend(begin, LaneEnabled, Next, [], Process(Lane(true)));
    steps := [] + [Process(Lane(true))];
  }

  /** The deal is accepted, and the client waits for data. */
  lemma GetsUnderWay(p: Params, funds: int) returns (steps: seq<Step>, m: Machine)
    ensures Exec(Begin(p, funds), LaneEnabled, Next, steps) == Some(m)
    ensures m.cs == Fresh(p, funds, Ongoing) && m.queue == [] && m.vouchers == [] && m.pending.None? && m.announced == 0
  {
    hide Exec, Happens, Next, Begin, LaneEnabled, Fresh;
    Proposes(p, funds, false);
    Accepts(p, funds, false);
    var begin := Begin(p, funds);
    steps, m := Begins(p, funds);
    steps, m := TakesOne(begin, steps, m, DealProposed, Fresh(p, funds, WaitForAcceptance), Effect(None, None), false);
    var next := if funds == 0 then PaymentChannelSkip else PaymentChannelReady;
    CanBeAccepted(m);
    steps, m := TakesOne(begin, steps, m, DealAccepted, Fresh(p, funds, Accepted), Trigger(next), false);
    if funds == 0 {
      SkipsChannel(p, funds, false);
      steps, m := TakesOne(begin, steps, m, PaymentChannelSkip, Fresh(p, funds, Ongoing), Effect(None, None), false);
    } else {
      GetsChannel(p, funds, false);
      GetsLane(p, funds, false);
      steps, m := TakesOne(begin, steps, m, PaymentChannelReady, Fresh(p, funds, PaymentChannelAllocatingLane), Trigger(LaneAllocated(0)), false);
      steps, m := TakesOne(begin, steps, m, LaneAllocated(0), Fresh(p, funds, Ongoing), Effect(None, None), false);
    }
  }

  lemma CanBeAccepted(m: Machine)
    ensures Enabled(m, Enqueue(DealAccepted))
  {
  }

  lemma CanArrive(m: Machine, n: nat, owed: int)
    requires m.announced <= n
    ensures Enabled(m, Enqueue(BlocksReceived(n))) && Enabled(m, Enqueue(PaymentRequested(owed)))
  {
  }
}
