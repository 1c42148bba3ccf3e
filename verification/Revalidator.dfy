/** The provider's revalidation logic (retrieval/validators.go): when data sent must pause for
    payment, what a payment unlocks, and the cache of deal state that decides it. */
module Revalidator {
  import opened Options
  import opened Deals
  import opened Intervals
  import opened Numbers
  import opened Provider

  datatype ChannelData = ChannelData(
    dealId: nat,
    totalSent: nat,
    totalPaidFor: nat,
    interval: nat,
    pricePerByte: nat,
    reload: bool)

  /** What a hook tells the transport. */
  datatype Signal = Continue | Pause | Resume | Fatal

  datatype Reply = Reply(response: Option<Response>, signal: Signal)

  datatype Outcome = Outcome(deal: ProviderState, channel: ChannelData, reply: Reply)

  /** writeDealState: the cached view of a deal. */
  function WriteDealState(ch: ChannelData, d: ProviderState): ChannelData {
    ch.(totalSent := d.totalSent,
        totalPaidFor := if d.params.pricePerByte == 0 then ch.totalPaidFor
                        else Max(d.fundsReceived - d.params.unsealPrice, 0) / d.params.pricePerByte,
        interval := d.currentInterval,
        pricePerByte := d.params.pricePerByte)
  }

  function LoadDealState(ch: ChannelData, d: ProviderState): ChannelData {
    if ch.reload then WriteDealState(ch, d).(reload := false) else ch
  }

  function PaymentOwed(d: ProviderState, totalPaid: int): int
  {
    if totalPaid < d.params.unsealPrice then d.params.unsealPrice - totalPaid
    else
      IntervalLowerBound(d.params, d.currentInterval) * d.params.pricePerByte - (totalPaid - d.params.unsealPrice)
  }

  /** processPayment; `received` is what AddVoucherInbound returned, None when it failed. */
  function ProcessPayment(d: ProviderState, received: Option<int>, payCh: Address): (ProviderState, Reply)
  {
    match received
    case None =>
      (Apply(d, SaveVoucherFailed), Reply(Some(Response(d.dealId, Errored, 0)), Fatal))
    case Some(amt) =>
      var owed := PaymentOwed(d, d.fundsReceived + amt);
      if owed > 0 then
        (Apply(d, PartialPaymentReceived(amt, payCh)), Reply(Some(Response(d.dealId, d.status, owed)), Pause))
      else
        (Apply(d, PaymentReceived(amt, payCh)),
         Reply(if d.status == FundsNeededLastPayment then Some(Response(d.dealId, Completed, 0)) else None, Resume))
  }

  function Revalidate(d: ProviderState, ch: ChannelData, received: Option<int>, payCh: Address): Outcome
  {
    var (d', reply) := ProcessPayment(d, received, payCh);
    Outcome(d', if reply.signal == Resume then ch.(reload := true) else ch, reply)
  }

  function OnPullDataSent(d: ProviderState, ch: ChannelData, additional: nat): Outcome
  {
    var loaded := LoadDealState(ch, d);
    var ch' := loaded.(totalSent := loaded.totalSent + additional);
    if ch'.pricePerByte == 0 || ch'.totalSent < ch'.interval then
      Outcome(Apply(d, BlockSent(ch'.totalSent)), ch', Reply(None, Continue))
    else
      var owed := (ch'.totalSent - ch'.totalPaidFor) * ch'.pricePerByte;
      Outcome(Apply(d, PaymentRequested(ch'.totalSent)), ch',
              Reply(Some(Response(ch'.dealId, FundsNeeded, owed)), Pause))
  }

  function OnComplete(d: ProviderState, ch: ChannelData): Outcome
  {
    var ch' := LoadDealState(ch, d);
    var d' := Apply(d, BlocksCompleted);
    var owed := (ch'.totalSent - ch'.totalPaidFor) * ch'.pricePerByte;
    if owed == 0 then
      Outcome(d', ch', Reply(Some(Response(ch'.dealId, Completed, 0)), Continue))
    else
      Outcome(Apply(d', PaymentRequested(ch'.totalSent)), ch',
              Reply(Some(Response(ch'.dealId, FundsNeededLastPayment, owed)), Pause))
  }

  /** Tracked channels of one provider, over its deal state machines. */
  class ProviderRevalidator {
    const env: StateMachines
    var trackedChannels: map<nat, ChannelData>

    ghost predicate Valid()
      reads this, env
    {
      env.Valid() && forall c :: c in trackedChannels ==> trackedChannels[c].dealId in env.deals
    }

    constructor (env: StateMachines)
      requires env.Valid()
      ensures Valid() && this.env == env && trackedChannels == map[]
    {
      this.env := env;
      trackedChannels := map[];
    }

    method TrackChannel(chid: nat, d: ProviderState)
      requires Valid() && d.dealId in env.deals
      modifies this
      ensures Valid()
      ensures trackedChannels == old(trackedChannels)[chid := WriteDealState(ChannelData(d.dealId, 0, 0, 0, 0, false), d)]
    {
      trackedChannels := trackedChannels[chid := ChannelData(d.dealId, 0, 0, 0, 0, false)];
      WriteState(chid, d);
    }

    method UntrackChannel(chid: nat)
      requires Valid()
      modifies this
      ensures Valid() && chid !in trackedChannels
      ensures forall c :: c != chid ==> (c in trackedChannels <==> c in old(trackedChannels))
      ensures forall c :: c in trackedChannels ==> trackedChannels[c] == old(trackedChannels)[c]
    {
      trackedChannels := trackedChannels - {chid};
    }

    method WriteState(chid: nat, d: ProviderState)
      requires chid in trackedChannels
      modifies this
      ensures trackedChannels == old(trackedChannels)[chid := WriteDealState(old(trackedChannels)[chid], d)]
    {
      var channel := trackedChannels[chid];
      channel := channel.(totalSent := d.totalSent);
      if d.params.pricePerByte != 0 {
        channel := channel.(totalPaidFor :=
          Max(d.fundsReceived - d.params.unsealPrice, 0) / d.params.pricePerByte);
      }
      channel := channel.(interval := d.currentInterval);
      channel := channel.(pricePerByte := d.params.pricePerByte);
      trackedChannels := trackedChannels[chid := channel];
    }

    method LoadState(chid: nat)
      requires Valid() && chid in trackedChannels
      modifies this
      ensures Valid()
      ensures var ch := old(trackedChannels)[chid];
              trackedChannels == old(trackedChannels)[chid := LoadDealState(ch, env.deals[ch.dealId])]
    {
      var channel := trackedChannels[chid];
      if !channel.reload { return; }
      WriteState(chid, env.deals[channel.dealId]);
      trackedChannels := trackedChannels[chid := trackedChannels[chid].(reload := false)];
    }

    /** Runs processPayment and marks the cache stale exactly when the transport is resumed. */
    method RevalidatePayment(chid: nat, received: Option<int>, payCh: Address) returns (reply: Reply)
      requires Valid()
      modifies this, env
      ensures Valid()
      ensures chid !in old(trackedChannels) ==>
                reply == Reply(None, Continue) && trackedChannels == old(trackedChannels) && env.deals == old(env.deals)
      ensures chid in old(trackedChannels) ==>
                var ch := old(trackedChannels)[chid];
                var o := Revalidate(old(env.deals)[ch.dealId], ch, received, payCh);
                && reply == o.reply
                && trackedChannels == old(trackedChannels)[chid := o.channel]
                && env.deals == old(env.deals)[ch.dealId := o.deal]
    {
      if chid !in trackedChannels {
        return Reply(None, Continue);
      }
      var channel := trackedChannels[chid];
      var d := env.deals[channel.dealId];
      if received.None? {
        var _ := env.Send(d.dealId, SaveVoucherFailed);
        return Reply(Some(Response(d.dealId, Errored, 0)), Fatal);
      }
      var totalPaid := d.fundsReceived + received.value;
      var owed := PaymentOwedLoop(d, totalPaid);
      if owed > 0 {
        var _ := env.Send(d.dealId, PartialPaymentReceived(received.value, payCh));
        return Reply(Some(Response(d.dealId, d.status, owed)), Pause);
      }
      var _ := env.Send(d.dealId, PaymentReceived(received.value, payCh));
      trackedChannels := trackedChannels[chid := channel.(reload := true)];
      if d.status == FundsNeededLastPayment {
        return Reply(Some(Response(d.dealId, Completed, 0)), Resume);
      }
      return Reply(None, Resume);
    }

    /** paymentOwed, over the interval loop. */
    static method PaymentOwedLoop(d: ProviderState, totalPaid: int) returns (owed: int)
      ensures owed == PaymentOwed(d, totalPaid)
    {
      if totalPaid < d.params.unsealPrice {
        return d.params.unsealPrice - totalPaid;
      }
      var transferPayment := totalPaid - d.params.unsealPrice;
      var currentLimitLower := ComputeIntervalLowerBound(d.params, d.currentInterval);
      var totalPaymentRequired := currentLimitLower * d.params.pricePerByte;
      return totalPaymentRequired - transferPayment;
    }

    method PullDataSent(chid: nat, additional: nat) returns (handled: bool, reply: Reply)
      requires Valid()
      modifies this, env
      ensures Valid()
      ensures handled == (chid in old(trackedChannels))
      ensures !handled ==>
                reply == Reply(None, Continue) && trackedChannels == old(trackedChannels) && env.deals == old(env.deals)
      ensures handled ==>
                var ch := old(trackedChannels)[chid];
                var o := OnPullDataSent(old(env.deals)[ch.dealId], ch, additional);
                && reply == o.reply
                && trackedChannels == old(trackedChannels)[chid := o.channel]
                && env.deals == old(env.deals)[ch.dealId := o.deal]
    {
      hide Apply;
      handled := chid in trackedChannels;
      if !handled {
        return handled, Reply(None, Continue);
      }
      LoadState(chid);
      var channel := trackedChannels[chid];
      channel := channel.(totalSent := channel.totalSent + additional);
      trackedChannels := trackedChannels[chid := channel];
      if channel.pricePerByte == 0 || channel.totalSent < channel.interval {
        var _ := env.Send(channel.dealId, BlockSent(channel.totalSent));
        return handled, Reply(None, Continue);
      }
      var owed := (channel.totalSent - channel.totalPaidFor) * channel.pricePerByte;
      var _ := env.Send(channel.dealId, PaymentRequested(channel.totalSent));
      return handled, Reply(Some(Response(channel.dealId, FundsNeeded, owed)), Pause);
    }

    method FinishSending(chid: nat) returns (handled: bool, reply: Reply)
      requires Valid()
      modifies this, env
      ensures Valid()
      ensures handled == (chid in old(trackedChannels))
      ensures !handled ==>
                reply == Reply(None, Continue) && trackedChannels == old(trackedChannels) && env.deals == old(env.deals)
      ensures handled ==>
                var ch := old(trackedChannels)[chid];
                var o := OnComplete(old(env.deals)[ch.dealId], ch);
                && reply == o.reply
                && trackedChannels == old(trackedChannels)[chid := o.channel]
                && env.deals == old(env.deals)[ch.dealId := o.deal]
    {
      hide Apply;
      handled := chid in trackedChannels;
      if !handled {
        return handled, Reply(None, Continue);
      }
      LoadState(chid);
      var channel := trackedChannels[chid];
      var _ := env.Send(channel.dealId, BlocksCompleted);
      var owed := (channel.totalSent - channel.totalPaidFor) * channel.pricePerByte;
      if owed == 0 {
        return handled, Reply(Some(Response(channel.dealId, Completed, 0)), Continue);
      }
      var _ := env.Send(channel.dealId, PaymentRequested(channel.totalSent));
      return handled, Reply(Some(Response(channel.dealId, FundsNeededLastPayment, owed)), Pause);
    }
  }
}
