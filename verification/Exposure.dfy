/** Whole runs of one tracked transfer against an arbitrary client: how much data the provider
    can be owed for, and that its cache never misleads it. */
module Exposure {
  import opened Options
  import opened Deals
  import opened Intervals
  import opened Numbers
  import opened Provider
  import opened Revalidator
  import opened Runs

  /** A transfer as provider and transport see it. The transport stops sending when paused and
      sends nothing more once the last block is out (`complete`) or it is no longer `open`.
      `accepted` counts the payments that moved the interval on. */
  datatype Transfer = Transfer(
    deal: ProviderState,
    ch: ChannelData,
    paused: bool,
    complete: bool,
    open: bool,
    accepted: nat)

  /** The client may pay at any time, with any result; the transport sends chunks of any size. */
  datatype Action =
    | Send(chunk: nat)
    | Pay(received: Option<nat>, payCh: Address)
    | Finish
    | Close(event: Event)

  /** The state after ValidatePull accepted the proposal and the transfer was accepted. */
  function Start(p: Params, id: nat): Transfer {
    var d := ProviderState(p, id, Ongoing, 0, 0, p.paymentInterval, None);
    Transfer(d, WriteDealState(ChannelData(id, 0, 0, 0, 0, false), d), false, false, true, 0)
  }

  predicate Enabled(t: Transfer, a: Action) {
    t.open &&
    match a
    case Send(_) => !t.paused && !t.complete
    case Pay(_, _) => true
    case Finish => !t.paused && !t.complete
    case Close(e) => e in {Complete, DataTransferError, MultiStoreError, ClientCancelled}
  }

  function Next(t: Transfer, a: Action): Transfer {
    match a
    case Send(n) =>
      var o := OnPullDataSent(t.deal, t.ch, n);
      t.(deal := o.deal, ch := o.channel, paused := o.reply.signal == Pause)
    case Pay(received, payCh) =>
      var o := Revalidate(t.deal, t.ch, received, payCh);
      t.(deal := o.deal, ch := o.channel,
         paused := match o.reply.signal case Pause => true case Resume => false case _ => t.paused,
         open := o.reply.signal != Fatal,
         accepted := if o.reply.signal == Resume then t.accepted + 1 else t.accepted)
    case Finish =>
      var o := OnComplete(t.deal, t.ch);
      t.(deal := o.deal, ch := o.channel, complete := true, paused := o.reply.signal == Pause)
    case Close(e) => t.(deal := Apply(t.deal, e), open := false)
  }

  /** Runs in which no chunk is longer than c bytes. */
  function EnabledUpTo(c: nat): (Transfer, Action) -> bool {
    (t, a) => Enabled(t, a) && (a.Send? ==> a.chunk <= c)
  }

  // ---------- The invariant of every run ----------

  ghost predicate Cached(t: Transfer) {
    t.ch == WriteDealState(t.ch, t.deal)
  }

  /** What the client must have paid for the k-th boundary to be covered. */
  function PriceOf(p: Params, k: nat): nat {
    p.unsealPrice + Boundary(p, k) * p.pricePerByte
  }

  /** What holds of every run, whatever the client pays and whatever the chunk sizes. */
  ghost predicate Inv(p: Params, t: Transfer) {
    var d := t.deal;
    && d.params == p
    && t.ch.dealId == d.dealId
    && t.ch.pricePerByte == p.pricePerByte
    && t.ch.totalSent == d.totalSent
    && d.currentInterval == Boundary(p, t.accepted + 1)
    && 0 <= d.fundsReceived
    && (1 <= t.accepted ==> PriceOf(p, t.accepted - 1) <= d.fundsReceived)
    && (t.open ==> d.status in {Ongoing, FundsNeeded, BlocksComplete, FundsNeededLastPayment, Finalizing})
    && (t.open && !t.complete ==> d.status in {Ongoing, FundsNeeded})
    && (t.open && !t.paused && !t.complete ==> d.status == Ongoing)
    && (t.open && !t.paused ==> t.ch.reload || Cached(t))
  }

  /** A payment is enough exactly when it covers unsealing and the boundary before the current one. */
  lemma OwedNothing(d: ProviderState, k: nat, totalPaid: int)
    requires d.currentInterval == Boundary(d.params, k + 1)
    ensures PaymentOwed(d, totalPaid) <= 0 <==> PriceOf(d.params, k) <= totalPaid
  {
    IntervalsInverseOnBoundaries(d.params, k);
  }

  /** An enough payment moves the deal to the next boundary and resumes the transfer. */
  lemma EnoughPaid(t: Transfer, amt: nat, payCh: Address)
    requires t.open && t.deal.currentInterval == Boundary(t.deal.params, t.accepted + 1)
    requires t.deal.status in {Ongoing, FundsNeeded, BlocksComplete, FundsNeededLastPayment, Finalizing}
    requires PriceOf(t.deal.params, t.accepted) <= t.deal.fundsReceived + amt
    ensures Next(t, Pay(Some(amt), payCh)) ==
            t.(deal := t.deal.(fundsReceived := t.deal.fundsReceived + amt,
                               currentInterval := Boundary(t.deal.params, t.accepted + 2),
                               payCh := Some(payCh),
                               status := match t.deal.status case FundsNeeded => Ongoing
                                                             case FundsNeededLastPayment => Finalizing
                                                             case s => s),
               ch := t.ch.(reload := true), paused := false, accepted := t.accepted + 1)
  {
    hide PaymentOwed, PriceOf, Boundary, NextInterval;
    OwedNothing(t.deal, t.accepted, t.deal.fundsReceived + amt);
    IntervalsInverseOnBoundaries(t.deal.params, t.accepted + 1);
  }

  lemma PayKeepsInv(p: Params, t: Transfer, received: Option<nat>, payCh: Address)
    requires Inv(p, t) && Enabled(t, Pay(received, payCh))
    ensures Inv(p, Next(t, Pay(received, payCh)))
  {
    hide PaymentOwed, PriceOf, Boundary, NextInterval;
    if received.Some? {
      OwedNothing(t.deal, t.accepted, t.deal.fundsReceived + received.value);
      if PriceOf(p, t.accepted) <= t.deal.fundsReceived + received.value {
        EnoughPaid(t, received.value, payCh);
      }
    }
  }

  lemma StepKeepsInv(p: Params, t: Transfer, a: Action)
    requires Inv(p, t) && Enabled(t, a)
    ensures Inv(p, Next(t, a))
  {
    hide PriceOf, Boundary, NextInterval;
    match a
    case Send(n) =>
    case Pay(received, payCh) => PayKeepsInv(p, t, received, payCh);
    case Finish =>
    case Close(_) =>
  }

  lemma RunKeepsInv(p: Params, id: nat, acts: seq<Action>)
    requires Exec(Start(p, id), Enabled, Next, acts).Some?
    ensures Inv(p, Exec(Start(p, id), Enabled, Next, acts).value)
  {
    assert Boundary(p, 1) == p.Step(0);
    assert Inv(p, Start(p, id));
    hide Inv, Next, Enabled, Start;
    forall t, a | Inv(p, t) && Enabled(t, a) ensures Inv(p, Next(t, a)) { StepKeepsInv(p, t, a); }
    Invariance(Start(p, id), Enabled, Next, t => Inv(p, t), acts);
  }

  // ---------- Cache coherence ----------

  /** Re-reading the deal before every hook, as if nothing were cached. */
  function Fresh(t: Transfer): ChannelData {
    WriteDealState(t.ch, t.deal).(reload := false)
  }

  /** In every run, whenever the transport may send or finish, the cached channel data gives the
      same reply, the same deal and the same channel data as re-reading the deal state would. */
  lemma CacheCoherence(p: Params, id: nat, acts: seq<Action>, n: nat)
    requires Exec(Start(p, id), Enabled, Next, acts).Some?
    ensures var t := Exec(Start(p, id), Enabled, Next, acts).value;
            && (Enabled(t, Send(n)) ==> OnPullDataSent(t.deal, t.ch, n) == OnPullDataSent(t.deal, Fresh(t), n))
            && (Enabled(t, Finish) ==> OnComplete(t.deal, t.ch) == OnComplete(t.deal, Fresh(t)))
  {
    hide Next, Start, Apply;
    RunKeepsInv(p, id, acts);
    var t := Exec(Start(p, id), Enabled, Next, acts).value;
    assert Enabled(t, Finish) ==> LoadDealState(t.ch, t.deal) == LoadDealState(Fresh(t), t.deal);
  }

  // ---------- Bounded exposure ----------

  ghost predicate Bounded(t: Transfer, c: nat) {
    && t.deal.totalSent < t.deal.currentInterval + c
    && (t.open && !t.paused && !t.complete ==> t.deal.totalSent < t.deal.currentInterval)
  }

  lemma SendKeepsBounded(p: Params, t: Transfer, n: nat, c: nat)
    requires Inv(p, t) && Enabled(t, Send(n)) && Bounded(t, c)
    requires p.pricePerByte > 0 && n <= c
    ensures Bounded(Next(t, Send(n)), c)
  {
    hide PriceOf, Boundary, NextInterval;
  }

  lemma PayKeepsBounded(p: Params, t: Transfer, received: Option<nat>, payCh: Address, c: nat)
    requires Inv(p, t) && Enabled(t, Pay(received, payCh)) && Bounded(t, c)
    requires c <= p.paymentInterval + p.paymentIntervalIncrease
    ensures Bounded(Next(t, Pay(received, payCh)), c)
  {
    StepGrows(p, t.accepted + 1);
    assert t.deal.currentInterval + c <= Boundary(p, t.accepted + 2);
    hide PaymentOwed, PriceOf, Boundary, NextInterval;
    if received.Some? {
      OwedNothing(t.deal, t.accepted, t.deal.fundsReceived + received.value);
      if PriceOf(p, t.accepted) <= t.deal.fundsReceived + received.value {
        EnoughPaid(t, received.value, payCh);
      }
    }
  }

  lemma StepKeepsBounded(p: Params, t: Transfer, a: Action, c: nat)
    requires Inv(p, t) && EnabledUpTo(c)(t, a) && Bounded(t, c)
    requires p.pricePerByte > 0 && c <= p.paymentInterval + p.paymentIntervalIncrease
    ensures Bounded(Next(t, a), c)
  {
    hide PriceOf, Boundary, NextInterval, Revalidate;
    match a
    case Send(n) => SendKeepsBounded(p, t, n, c);
    case Pay(received, payCh) => PayKeepsBounded(p, t, received, payCh, c);
    case Finish =>
    case Close(_) =>
  }

  lemma RunKeepsBounded(p: Params, id: nat, acts: seq<Action>, c: nat)
    requires p.pricePerByte > 0 && p.paymentInterval > 0
    requires c <= p.paymentInterval + p.paymentIntervalIncrease
    requires Exec(Start(p, id), EnabledUpTo(c), Next, acts).Some?
    ensures var t := Exec(Start(p, id), EnabledUpTo(c), Next, acts).value; Inv(p, t) && Bounded(t, c)
  {
    assert Boundary(p, 1) == p.Step(0);
    var inv := t => Inv(p, t) && Bounded(t, c);
    assert inv(Start(p, id));
    hide Inv, Bounded, Next, Enabled, Start;
    forall t, a | inv(t) && EnabledUpTo(c)(t, a) ensures inv(Next(t, a)) {
      StepKeepsInv(p, t, a);
      StepKeepsBounded(p, t, a, c);
    }
    Invariance(Start(p, id), EnabledUpTo(c), Next, inv, acts);
  }

  /** Bytes covered by what has been received, after unsealing. */
  function PaidBytes(d: ProviderState): nat
    requires d.params.pricePerByte > 0
  {
    Max(d.fundsReceived - d.params.unsealPrice, 0) / d.params.pricePerByte
  }

  /** What sending n bytes asks for: nothing below the interval, and from there all bytes not paid for. */
  lemma RequestOwed(p: Params, t: Transfer, n: nat)
    requires Inv(p, t) && Enabled(t, Send(n)) && p.pricePerByte > 0
    ensures var total := t.deal.totalSent + n;
            OnPullDataSent(t.deal, t.ch, n).reply.response ==
            if total < t.deal.currentInterval then None
            else Some(Response(t.deal.dealId, FundsNeeded, (total - PaidBytes(t.deal)) * p.pricePerByte))
  {
    hide PriceOf, Boundary, Apply;
  }

  lemma PaidAtLeast(d: ProviderState, k: nat)
    requires d.params.pricePerByte > 0 && PriceOf(d.params, k) <= d.fundsReceived
    ensures Boundary(d.params, k) <= PaidBytes(d)
  {
    hide Boundary;
    QuotientCompares(d.fundsReceived - d.params.unsealPrice, d.params.pricePerByte, Boundary(d.params, k));
  }

  /** Against any client: after m - 1 accepted payments the interval is B(m), less than one chunk
      has been sent past it, B(m - 2) is paid for, and so less than two interval steps plus one
      chunk is unpaid. */
  lemma BoundedExposure(p: Params, id: nat, acts: seq<Action>, c: nat)
    requires p.pricePerByte > 0 && p.paymentInterval > 0
    requires c <= p.paymentInterval + p.paymentIntervalIncrease
    requires Exec(Start(p, id), EnabledUpTo(c), Next, acts).Some?
    ensures var t := Exec(Start(p, id), EnabledUpTo(c), Next, acts).value;
            var m := t.accepted + 1;
            && t.deal.params == p
            && t.deal.currentInterval == Boundary(p, m)
            && t.deal.totalSent < Boundary(p, m) + c
            && (2 <= m ==> p.unsealPrice + Boundary(p, m - 2) * p.pricePerByte <= t.deal.fundsReceived)
            && (2 <= m ==> t.deal.totalSent - PaidBytes(t.deal) < p.Step(m - 1) + p.Step(m - 2) + c)
  {
    hide Next, Start, Enabled;
    RunKeepsBounded(p, id, acts, c);
    var t := Exec(Start(p, id), EnabledUpTo(c), Next, acts).value;
    if 1 <= t.accepted {
      PaidAtLeast(t.deal, t.accepted - 1);
    }
  }

  ghost predicate BoundHoldsOnAllRuns(p: Params, id: nat, c: nat) {
    forall acts :: Exec(Start(p, id), EnabledUpTo(c), Next, acts).Some? ==>
      var t := Exec(Start(p, id), EnabledUpTo(c), Next, acts).value;
      t.deal.totalSent < t.deal.currentInterval + c
  }

  /** The chunk limit is exact: with chunks of up to c bytes the bound holds on all runs exactly
      when c is at most the first interval plus its increase. */
  lemma ExposureBoundIsExact(p: Params, id: nat, c: nat)
    requires p.pricePerByte > 0 && p.paymentInterval > 0
    ensures BoundHoldsOnAllRuns(p, id, c) <==> c <= p.paymentInterval + p.paymentIntervalIncrease
  {
    hide Next, Start, Enabled;
    if c <= p.paymentInterval + p.paymentIntervalIncrease {
      forall acts | Exec(Start(p, id), EnabledUpTo(c), Next, acts).Some?
        ensures var t := Exec(Start(p, id), EnabledUpTo(c), Next, acts).value;
                t.deal.totalSent < t.deal.currentInterval + c
      {
        RunKeepsBounded(p, id, acts, c);
      }
    } else {
      var acts := OversizedRun(p, id, c);
    }
  }

  /** A client that pays only the unseal price and a transport with oversized chunks. */
  lemma OversizedRun(p: Params, id: nat, c: nat) returns (acts: seq<Action>)
    requires p.pricePerByte > 0 && p.paymentInterval > 0
    requires p.paymentInterval + p.paymentIntervalIncrease < c
    ensures Exec(Start(p, id), EnabledUpTo(c), Next, acts).Some?
    ensures var t := Exec(Start(p, id), EnabledUpTo(c), Next, acts).value;
            t.deal.totalSent >= t.deal.currentInterval + c
  {
    hide Exec, Next, Start, Boundary, PriceOf, Inv;
    StartFacts(p, id);
    var small, big, pay := Send(p.paymentInterval - 1), Send(c), Pay(Some(p.unsealPrice), "paych");
    var t0 := Start(p, id);
    acts := Extend(t0, c, [], t0, small);
    SendOutcome(p, t0, p.paymentInterval - 1);
    var t1 := Next(t0, small);
    acts := Extend(t0, c, acts, t1, big);
    SendOutcome(p, t1, c);
    var t2 := Next(t1, big);
    acts := Extend(t0, c, acts, t2, pay);
    EnoughPaid(t2, p.unsealPrice, "paych");
    StepKeepsInv(p, t2, pay);
    var t3 := Next(t2, pay);
    acts := Extend(t0, c, acts, t3, big);
    SendOutcome(p, t3, c);
  }

  /** What sending n bytes does to a transfer that may send. */
  lemma SendOutcome(p: Params, t: Transfer, n: nat)
    requires Inv(p, t) && Enabled(t, Send(n)) && p.pricePerByte > 0
    ensures var t', total := Next(t, Send(n)), t.deal.totalSent + n;
            && Inv(p, t') && t'.open && !t'.complete && t'.accepted == t.accepted
            && t'.paused == (t.deal.currentInterval <= total)
            && t'.deal == t.deal.(totalSent := total, status := if t'.paused then FundsNeeded else Ongoing)
  {
    hide PriceOf, Boundary, NextInterval;
    StepKeepsInv(p, t, Send(n));
  }

  /** The exposure bound cannot be improved: with chunks of up to c bytes some run leaves one byte
      less than two interval steps plus one chunk unpaid. */
  lemma ExposureBoundIsTight(p: Params, id: nat, c: nat) returns (acts: seq<Action>)
    requires p.pricePerByte > 0 && p.paymentInterval > 0 && 1 <= c
    ensures Exec(Start(p, id), EnabledUpTo(c), Next, acts).Some?
    ensures var t := Exec(Start(p, id), EnabledUpTo(c), Next, acts).value;
            && t.accepted == 1 && t.deal.params == p
            && t.deal.totalSent - PaidBytes(t.deal) == p.Step(1) + p.Step(0) + c - 1
  {
    hide Exec, Next, Start, Boundary, PriceOf, Inv;
    StartFacts(p, id);
    var t0, pay := Start(p, id), Pay(Some(p.unsealPrice), "paych");
    var t1, t4;
    acts, t1 := Drip(p, t0, c, [], t0, p.paymentInterval - 1);
    acts := Extend(t0, c, acts, t1, Send(1));
    SendOutcome(p, t1, 1);
    var t2 := Next(t1, Send(1));
    acts := Extend(t0, c, acts, t2, pay);
    EnoughPaid(t2, p.unsealPrice, "paych");
    StepKeepsInv(p, t2, pay);
    acts, t4 := Drip(p, t0, c, acts, Next(t2, pay), p.Step(1) - 1);
    acts := Extend(t0, c, acts, t4, Send(c));
    SendOutcome(p, t4, c);
    assert PaidBytes(Next(t4, Send(c)).deal) == 0;
  }

  lemma StartFacts(p: Params, id: nat)
    requires p.paymentInterval > 0
    ensures var t := Start(p, id);
            && Inv(p, t) && t.open && !t.paused && !t.complete && t.accepted == 0
            && t.deal == ProviderState(p, id, Ongoing, 0, 0, p.Step(0), None)
    ensures Boundary(p, 1) == p.Step(0) && Boundary(p, 2) == p.Step(0) + p.Step(1)
    ensures PriceOf(p, 0) == p.unsealPrice && 1 <= p.Step(1)
    ensures forall c :: Exec(Start(p, id), EnabledUpTo(c), Next, []) == Some(Start(p, id))
  {
    StepGrows(p, 1);
  }

  /** Sending n bytes one at a time, below the current interval. */
  lemma {:induction false} Drip(p: Params, t0: Transfer, c: nat, acts: seq<Action>, t: Transfer, n: nat)
    returns (acts': seq<Action>, t': Transfer)
    requires p.pricePerByte > 0 && 1 <= c && Exec(t0, EnabledUpTo(c), Next, acts) == Some(t)
    requires Inv(p, t) && t.open && !t.paused && !t.complete
    requires t.deal.totalSent + n < t.deal.currentInterval
    ensures Exec(t0, EnabledUpTo(c), Next, acts') == Some(t') && Inv(p, t')
    ensures t'.open && !t'.paused && !t'.complete && t'.accepted == t.accepted
    ensures t'.deal == t.deal.(totalSent := t.deal.totalSent + n)
    decreases n
  {
    hide Exec, Next, PriceOf, Boundary;
    acts', t' := acts, t;
    if n > 0 {
      acts' := Extend(t0, c, acts, t, Send(1));
      SendOutcome(p, t, 1);
      acts', t' := Drip(p, t0, c, acts', Next(t, Send(1)), n - 1);
    }
  }

  lemma Extend(t0: Transfer, c: nat, acts: seq<Action>, t: Transfer, a: Action) returns (acts': seq<Action>)
    requires Exec(t0, EnabledUpTo(c), Next, acts) == Some(t)
    requires EnabledUpTo(c)(t, a)
    ensures Exec(t0, EnabledUpTo(c), Next, acts') == Some(Next(t, a))
  {
    hide Next, Enabled;
    ExecExtend(t0, EnabledUpTo(c), Next, acts, a);
    acts' := acts + [a];
  }
}
