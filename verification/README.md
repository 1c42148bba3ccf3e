# Paid retrieval, payment channels and the content index, modelled in Dafny

The project models four parts of the exchange node and proves what holds over whole runs of them.

* **Paid retrieval.** A provider sends data and stops at interval boundaries B(0) = 0,
  B(k + 1) = B(k) + PaymentInterval + k · PaymentIntervalIncrease until it is paid; a client pays with
  vouchers of growing amounts. `Intervals` is the boundary arithmetic, `Provider` the provider's table of
  events, `Revalidator` the decisions of the transport hook over cached channel data, `Client` the client's
  table of events, its actions and its handlers. `Exposure` and `Settlement` are about the provider facing any client;
  `ClientRuns`, `ClientCycle`, `ClientBooks`, `ClientLadder`, `ClientUnseal`, `ClientProgress`, `ClientOutcome`,
  `ClientSetup`, `ClientFate`, `ClientIdle`, `ClientAnswers`, `ClientCompletion` and `ClientLivelock` are about the client facing any provider, with events
  in a first-in first-out queue and a handler's trigger joining its back; `Lockstep`, `LockstepUnseal`,
  `PausedProvider`, `NoStuckPause`, `PausedVoucher`, `StuckRun`, `UnsealRuns` and `UnsealRest` are about both together,
  with data, requests and vouchers under way; `ClientSteps` and `JointSteps` build runs of them. `DealEndings` says why a
  deal of either side is in its status.
* **Payment channels.** `Lanes` and `PaymentChannel` are vouchers, lanes and submission; `ChannelRuns`, `VoucherChecks`
  and `ChannelFunds` are runs over a chain whose lanes and balance are inputs; `DealFunding` puts a client's deal
  on top of a channel. `FundsQueue`, `FundsRuns` and `FundsFailures` are the queue of requests for funds and the messages
  it sends, and `RecordedFunds` what vouchers and deposits together do to the recorded amount.
* **The content index.** `Buckets` are lists of buckets in ascending order and `Links` the doubly linked lists
  that hold them, whose elements have an identity, are held on to by refs and lead nowhere once removed; `Lfu`,
  `LfuIndex`, `LfuRuns` and `LfuStale` are the least-frequently-used index with eviction, reloading and refs set
  again, `Interest` the list of content worth fetching.
* **Offer sessions.** `Session` and `SessionRuns` are the worker that collects offers and executes them.

Objects whose methods update fields are classes here, and each method is proved against a function of the
old state; the theorems are about that function and about every sequence of its steps. `Runs` holds the
notion of a run. Where a property does not hold of the code, a lemma gives inputs on which it fails and
another one states exactly when it holds.

Inputs that come from outside are parameters: what the chain, the wallet, the message pool and the transport
answer, the order in which maps are walked, and the order in which sorting leaves equal prices.

Where code and its comments disagree, the model follows the code:

* `exchange/tx.go:931` calls the price ceiling the price over which an offer is ignored; the comparison at
  `exchange/tx.go:970` ignores offers below it (`SessionRuns.CeilingReversed`, `SessionRuns.OnlyAboveTheAmount`).
* `exchange/tx.go:887-889` promises the next cheapest offer after a failure; the queue is sorted once, and
  offers that come later are appended (`SessionRuns.NextIsCheapestExactly`, `SessionRuns.CheaperLateOfferWaits`).
* `exchange/index.go:60` speaks of least to most popular order; a new ref starts in the most used bucket
  (`LfuRuns.RankIsFrequencyExactly`, `LfuRuns.MoreReadIsEvicted`).
* `exchange/index.go:218-219` promises zero when the store is full; above the upper bound the subtraction wraps
  (`Interest.AvailableExactly`, `Interest.OverfullLooksFree`).

Properties that hold only under a condition, with the exact condition:

* The exposure bound needs chunks of at most PaymentInterval + PaymentIntervalIncrease bytes, no less
  (`Exposure.ExposureBoundIsExact`), and cannot be improved (`Exposure.ExposureBoundIsTight`).
* The client's own payment cycle comes to rest, in every run and with any unseal price, unless the bytes it has
  paid for lie at or past its interval and short of what it received (`ClientBooks.CycleRestsOverRuns`). Every unseal
  price and every first block of two intervals or more lead there (`ClientLivelock.FutileIsReachable`).
* A paused provider whose request was delivered is not always paid. Once all it sent and asked is in the client's
  queue, the client's deal and that queue decide, at any unseal price and with chunks of any size, which voucher the
  client goes on to make, or that it makes none (`ClientFate.FateDecides`, `PausedProvider.PausedProviderIsPaidExactly`):
  the events are walked over one by one, without what the handlers will trigger. No voucher is made exactly in four
  cases:
  * The deal is over, or an event in the queue ends it first. An attempt to send funds that was left in the queue makes
    the client ask for a voucher again before the last one is recorded; the channel refuses the equal amount, and the
    refusal ends the deal. `StuckRun.HonestDealGetsStuck` is such a run of two honest parties on a funded channel, at
    every price and for every second interval of two bytes or more. A voucher is refused exactly when the last one is
    not recorded (`ClientOutcome.RefusedExactly`).
  * The deal is stuck in its set-up: not accepted, or waiting for its first funds after adding them failed, which no
    transition takes up (`retrieval/client/fsm.go:103-108`).
  * The client idles: a request never includes the unseal price (`retrieval/validators.go:330`), the client settles it
    out of what was requested (`retrieval/client/fsm.go:309-310`), and with nothing requested Ongoing triggers nothing
    (`retrieval/client/fsm.go:487`). It idles only if its last voucher is worth all that was asked of it, or more
    (`ClientIdle.IdlesOverpaid`). `UnsealRest.HonestDealRests` is such a run of honest parties with chunks of at most
    PaymentInterval + PaymentIntervalIncrease bytes, for every unseal price of what the third interval costs or more.
  * The client has no voucher to make: it waits for bytes, or paid past its interval. `UnsealRuns.PaidAheadIsNeverPaid`
    is a run to the latter for every unseal price and every first chunk of two intervals or more, and in
    `UnsealRuns.PaidAheadCycles` the client cycles for ever.

  The last two need an unseal price. A waiting provider is paid in every joint run, but for deals that end or are stuck
  in their set-up, exactly when nothing is charged for unsealing (`UnsealRest.AlwaysPaidExactly`), and then it is paid
  for the boundary it waits for (`NoStuckPause.FreeUnsealingIsPaidExactly`). With a first interval of zero the client
  never pays before all blocks are received (`ClientLadder.ZeroIntervalNeverPays`).
* A voucher finds the provider paused in every joint run exactly when no chunk is longer than PaymentInterval +
  PaymentIntervalIncrease (`PausedVoucher.FindsPauseExactly`).
* Vouchers climb the interval boundaries, and client and provider stay in step, exactly when nothing is charged
  for unsealing (`ClientUnseal.LadderExactly`, `LockstepUnseal.LockstepExactly`): until unsealing is recorded as
  paid, a voucher is for all bytes received.
* A provider's deal that is reported as completed is paid for exactly when its last payment covers unsealing and all bytes;
  the last payment is only asked to cover the boundary before the current one (`Settlement.LastPayment`,
  `Settlement.CompletesUnpaid`), and the last request leaves unsealing out (`Settlement.LastRequestPaysAll`).
* A client's completed deal has all its blocks unless its last payment was requested, which is sent without looking at the
  blocks (`ClientCompletion.EndsAsConcluded`, `ClientCompletion.CompletedWithoutAllBlocks`). News of the end that reaches a
  deal while it checks or waits for funds is lost (`DealEndings.ClientHearsExactly`), and so is a failure to read the funds
  (`DealFunding.UnreadFundsRest`).
* The running total with one more voucher equals the recomputed total unless the voucher repeats its lane's
  nonce with another amount (`Lanes.IncrementalTotalRefines`).
* Submitting a voucher that was never stored leaves a total to compute exactly when it merges no lanes, and then
  within the balance exactly when it was and the lane shows a higher nonce, or the balance covers the voucher in
  place of what its lane redeemed (`ChannelFunds.UncheckedSubmissionExactly`); on every reachable ledger some voucher
  overdraws the channel (`ChannelFunds.UncheckedSubmissionOverdraws`).
* The recorded amount of a channel ends above its balance exactly when a voucher was stored between the execution
  of a deposit and its answer, which then counts it twice (`RecordedFunds.RecordedAmountExactly`,
  `RecordedFunds.DepositCountedTwice`), and by how much is `RecordedFunds.ExcessIsLargestDoubled`.
* `SetRef` of a ref object that was on the list before dereferences nil exactly when the element it still leads to
  is off the list, or is the first one and this call evicts all of it (`LfuIndex.Index.SetRef`). Of the first one
  that can be, or must be, exactly when without some, or without any, ref of it the bucket is lighter than the amount
  to free (`LfuStale.StaleExactly`).
* Reloading the index rebuilds its list unless an evicted key was not set again (`LfuRuns.ReloadExactly`), and
  dropping a persisted key finds no live ref exactly for such keys (`LfuRuns.NilRefExactly`).
* The session timer finds nothing to execute exactly when every offer so far was ignored
  (`SessionRuns.TimerCrashesExactly`, with such sessions in `SessionRuns.TimerCrashes`).

## Model

| member | source | states |
|---|---|---|
| Intervals.BoundaryClosedForm | retrieval/deal/types.go:185-206 | twice B(k) is 2kP + I·k(k − 1), for every k |
| Intervals.BoundaryStrict | retrieval/deal/types.go:185-206 | from B(1) on the boundaries strictly increase, so both loops end |
| Intervals.NextIntervalIsLeast | retrieval/deal/types.go:198-206 | the next interval is a boundary above the current one, and every boundary above it is at least as large |
| Intervals.LowerBoundIsGreatest | retrieval/deal/types.go:185-196 | the lower bound is a boundary below the current interval, and no boundary below it is larger |
| Intervals.IntervalsInverseOnBoundaries | retrieval/deal/types.go:185-206 | on boundaries the two functions undo each other |
| Intervals.IntervalsBracket | retrieval/deal/types.go:185-206 | for every c the lower bound of the next interval is at most c, which is below the next interval |
| Intervals.ComputeIntervalLowerBound | retrieval/deal/types.go:185-196 | the loop ends and computes the greatest boundary below its argument |
| Intervals.ComputeNextInterval | retrieval/deal/types.go:198-206 | the loop ends and computes the least boundary above its argument |
| Provider.StateMachines.Send | retrieval/provider/fsm.go:49-128 | an event changes only its own deal, by the table's action and transition; an unknown deal is an error |
| Revalidator.ProviderRevalidator.TrackChannel | retrieval/validators.go:172-181 | tracking caches the deal's totals and interval under the channel |
| Revalidator.ProviderRevalidator.LoadState | retrieval/validators.go:189-200 | the cache is rewritten from the deal exactly when it is marked stale |
| Revalidator.ProviderRevalidator.WriteState | retrieval/validators.go:202-211 | bytes paid for are recomputed unless the price is zero |
| Revalidator.ProviderRevalidator.RevalidatePayment | retrieval/validators.go:213-274 | the payment is partial or enough by what is owed, the deal records it, and the cache is marked stale exactly when the transfer resumes |
| Revalidator.ProviderRevalidator.PaymentOwedLoop | retrieval/validators.go:276-298 | unsealing is owed first, then the lower bound of the interval at the price per byte |
| Revalidator.ProviderRevalidator.PullDataSent | retrieval/validators.go:312-340 | the transfer pauses exactly when the bytes sent reach the interval and the price is not zero, asking for all unpaid bytes |
| Revalidator.ProviderRevalidator.FinishSending | retrieval/validators.go:354-388 | the last payment is asked for exactly when something is unpaid |
| Exposure.OwedNothing | retrieval/validators.go:276-298 | a payment is enough exactly when it covers unsealing and the boundary before the current one |
| Exposure.CacheCoherence | retrieval/validators.go:172-340 | in every run the reply, the deal and the totals taken from the cache are those of re-reading the deal at every send |
| Exposure.BoundedExposure | retrieval/validators.go:251-340 | against any client, after m − 1 accepted payments the interval is B(m), less than one chunk is sent past it, B(m − 2) is paid, and less than two steps plus one chunk is unpaid |
| Exposure.ExposureBoundIsExact | retrieval/validators.go:312-340 | with chunks of up to c bytes the bound holds on all runs if and only if c is at most PaymentInterval + PaymentIntervalIncrease |
| Exposure.OversizedRun | retrieval/validators.go:312-340 | for larger chunks, a run in which a full chunk or more is sent past the interval |
| Exposure.ExposureBoundIsTight | retrieval/validators.go:312-340 | a run that leaves one byte less than two steps plus one chunk unpaid |
| Settlement.OwedExactly | retrieval/validators.go:276-298 | what was paid and what is owed make up the unseal price while that is not paid, and from there on the unseal price and the boundary before the current one |
| Settlement.PartialAnswer | retrieval/validators.go:251-263 | a payment that is too small is recorded, keeps the transfer paused, and is answered with just that amount and the deal's status |
| Settlement.AskedResumesExactly | retrieval/validators.go:251-274 | with unsealing paid, a further payment resumes the transfer if and only if it is at least what the partial one was answered with |
| Settlement.UnsealingAskedFirst | retrieval/validators.go:276-298 | without, the answer asks for unsealing alone, and paying that resumes the transfer if nothing is due for bytes, or is answered with the price of the boundary |
| Settlement.RefusedVoucherEnds | retrieval/validators.go:237-250 | a voucher that is not accepted ends the transfer, records nothing, and fails the deal if and only if a payment was waited for |
| Settlement.FinishAsks | retrieval/validators.go:354-388 | when all blocks are out the deal is reported as completed if and only if the bytes paid for are those sent; otherwise the transfer pauses, the deal waits for the last payment, and the price of the difference is asked for |
| Settlement.LastRequestPaysAll | retrieval/validators.go:372-387 | paying just that pays for all bytes if and only if unsealing was paid before |
| Settlement.UnpausedFinishIsPaid | retrieval/validators.go:354-388 | in every run the transfer is not paused when all blocks are out if and only if the bytes paid for are those sent, and then all bytes stay paid for |
| Settlement.EndsSettled | retrieval/provider/fsm.go:49-128 | in every run a deal gets to its last statuses only with all blocks out, waits for the last payment only while paused, and is cleaned up only with all bytes paid for or with a payment accepted for the boundary before the last |
| Settlement.LastPayment | retrieval/validators.go:251-274 | the last payment completes the deal if and only if it covers unsealing and the boundary before the current one, and pays for all bytes if and only if it covers unsealing and them |
| Settlement.CompletesUnpaid | retrieval/validators.go:251-298 | for every transfer shorter than the first interval, a run in which the unseal price alone completes the deal with no byte paid for |
| Settlement.FreeRunsOn | retrieval/validators.go:312-388 | in every run of sending and finishing at no price per byte the transfer is never paused |
| Client.ClientDeal.SentPayment | retrieval/client/fsm.go:305-341 | recording a payment splits it into unsealing and bytes and moves the interval on at most once |
| Client.ClientDeal.Fire | retrieval/client/fsm.go:43-432 | an event applies its action and transition, and says whether the handler runs again |
| Client.ClientDeal.constructor | retrieval/manager.go:226-244 | the start of a deal |
| ClientRuns.AmountToSendCovered | retrieval/client/fsm.go:524-543 | the amount to send never exceeds the unseal price and the price of the bytes received |
| ClientRuns.ApplyKeepsAccounts | retrieval/client/fsm.go:187-341 | every event keeps spent plus requested equal to what was asked and accepted, and bytes paid for within bytes received |
| ClientRuns.NeverPaysAhead | retrieval/client/fsm.go:187-574 | in every interleaving funds spent, vouchers made and reports under way are at most the value of the bytes received, and the accounts balance |
| ClientCycle.BusyRound | retrieval/client/fsm.go:486-574 | with funds to send, six steps lead from Ongoing back to it without resting, paying or not |
| ClientCycle.PayingRound | retrieval/client/fsm.go:305-574 | a round that pays spends more, and the next round is not futile |
| ClientCycle.CycleRestsExactly | retrieval/client/fsm.go:486-574 | left alone, the client comes to rest if and only if it does not find itself told to send and with enough sent |
| ClientCycle.FutileGuard | retrieval/client/fsm.go:497-550 | with payments recorded as the client does, that is: more blocks to come, unsealing paid, and interval ≤ bytes paid for < bytes received |
| ClientBooks.CycleRestsOverRuns | retrieval/client/fsm.go:305-574 | in every run with a positive price and any unseal price, whenever the client enters Ongoing with a payment requested and nothing else to do, its cycle comes to rest if and only if it has not paid past its interval |
| ClientLivelock.FutileIsReachable | retrieval/client/fsm.go:486-574 | for every unseal price, every first block of two intervals or more and every second block, a run from the start of a deal into a cycle that never rests |
| ClientUnseal.FirstVoucherIsForAll | retrieval/client/fsm.go:524-543 | with an unseal price, for every number of bytes and every request a run whose first voucher is worth the bytes and the unseal price |
| ClientUnseal.LadderExactly | retrieval/client/fsm.go:305-574 | at a positive price, in every interleaving and against any provider, until all blocks are received the k-th voucher is worth B(k) and the unseal price and was made after those bytes arrived, and the interval is the boundary of the last voucher or the next, if and only if the unseal price is zero |
| ClientLadder.ZeroIntervalNeverPays | retrieval/client/fsm.go:524-543 | with a first interval of zero, in every run no voucher is made until all blocks are received |
| LockstepUnseal.LockstepExactly | retrieval/validators.go:237-298 | at a positive price, in every joint run, until all blocks are received voucher k is worth B(k) and the unseal price, the provider takes each at its own boundary and none as partial, and both then wait for the next boundary, if and only if the unseal price is zero |
| ClientProgress.ProcessKeepsToken | retrieval/client/fsm.go:486-522 | while a payment is requested, the event that keeps the client going is never lost |
| ClientOutcome.RefusedExactly | retrieval/client/fsm.go:545-574 | whenever sending sets in, the voucher is refused if and only if the one made last is not recorded yet |
| ClientFate.FateDecides | retrieval/client/fsm.go:305-574 | at any unseal price, set-up included, for every deal before its end whose queue accounts for its vouchers: left alone the client makes the very voucher that walking over the queue foretells, or the deal ends without one, or no voucher is ever made, just as the walk foretells |
| ClientFate.ToldStep | retrieval/client/fsm.go:486-574 | processing an event that neither ends the deal nor makes a voucher keeps what is foretold; only a deal for which no voucher is foretold may come to its end instead |
| ClientFate.FitStep | retrieval/client/fsm.go:486-574 | and it keeps what makes the foretelling right: the reports in the queue account for the last voucher, and what leads to paying is not lost |
| ClientFate.NextVoucherIsOne | retrieval/client/fsm.go:545-574 | the next voucher of a client left alone is the same whenever one looks |
| ClientIdle.NeverExactly | retrieval/client/fsm.go:486-574 | no voucher is foretold if and only if the set-up is stalled, or the queue leaves the deal with a voucher to make that nothing calls for, or with none to make |
| ClientIdle.IdlesOverpaid | retrieval/client/fsm.go:305-341 | nothing calls for it only if the last voucher is worth all requests taken and under way, or more, and the deal is in Ongoing or its set-up |
| ClientIdle.IdleRests | retrieval/client/fsm.go:486-495 | a deal that the queue leaves in Ongoing without a reminder comes to rest there, in just the state the walk foretells |
| ClientCompletion.EndsAsConcluded | retrieval/client/fsm.go:626-642 | in every run in which the client's own conclusions do not come from outside, a deal that is checked is on its way to be completed if and only if all blocks are there, to its early end if and only if they are not and bytes cost, to wait if and only if they are free; and a completed deal has all its blocks or was asked for its last payment |
| ClientCompletion.CompletedWithoutAllBlocks | retrieval/client/fsm.go:343-360 | at every price and interval, a run to a completed deal with blocks missing |
| ClientCompletion.LastPaymentPaysAll | retrieval/client/fsm.go:524-574 | with all blocks there and the last payment requested, in either order, the client alone pays for all bytes and unsealing, and the provider's word completes the deal |
| ClientCompletion.LastRequestIsRemembered | retrieval/client/fsm.go:486-574 | so it does when the last payment is requested while another one is sent |
| ClientCompletion.FailingDealCloses | retrieval/client/fsm.go:612-624 | in every run a deal that fails or is cancelled is closed by the client alone, whatever else is in its queue |
| ClientCompletion.CancelledExactly | retrieval/client/fsm.go:612-624 | a live deal that is cancelled, or meets an unknown answer, is closed in three steps, as cancelled if and only if it was cancelled and its transfer could be closed |
| ClientAnswers.ProposalDecides | retrieval/client/fsm.go:434-446 | the deal waits for acceptance if and only if its proposal could be sent, and is at its end otherwise |
| ClientAnswers.SetupDecides | retrieval/client/fsm.go:447-484 | an accepted deal gets under way, on the lane it was given, if and only if it has nothing to spend, or its channel is there or found on chain and a lane is allocated; it stays where its first funds are added when they are not found; it ends otherwise |
| ClientAnswers.SendingDecides | retrieval/client/fsm.go:545-574 | by the channel's answer: no voucher when nothing more is due, one recorded when made and sent, the end when not sent, failure when refused, and the check of funds when short |
| DealEndings.ClientDealIsExplained | retrieval/client/fsm.go:43-432 | in every run, whatever comes from outside, a deal that pays for the last time, fails, errs or is cancelled has taken an event without which it would not; a deal was accepted and set up before it pays, is rejected or not found if and only if it met that answer while waiting for one, ends for good by a failure or a verified completion, and after a cancellation only ever closes |
| DealEndings.ClientHearsExactly | retrieval/client/fsm.go:187-432 | in every run acceptance, the provider's word, the last payment and failures to pay lead where they lead for good; the deal knows that all blocks are there, and that the last payment is requested, if and only if it was told in a status that takes it in, which those that check or wait for funds do not |
| DealEndings.ClientKeepsItsLane | retrieval/client/fsm.go:80-180 | in every run a live deal is marked as waiting if and only if its status waits for a message on chain, and it pays on the lane allocated for it |
| DealEndings.ProviderDealIsAccounted | retrieval/provider/fsm.go:49-128 | whatever events reach a deal, it is completed if and only if it met the clean-up after its completion with all blocks out, cancelled if and only if its cancellation was closed, ends for good by a lost transfer or store, and after a cancellation or a voucher not saved only ever closes |
| ClientSetup.StalledRests | retrieval/client/fsm.go:103-160 | without one the deal stays where it is and makes no voucher |
| ClientSetup.StalledWhere | retrieval/client/fsm.go:103-160 | which is only before acceptance, or after adding the first funds failed |
| PausedVoucher.FindsPauseExactly | retrieval/validators.go:312-340 | with nothing charged for unsealing, in every joint run a voucher under way finds the provider paused if and only if no chunk is longer than PaymentInterval + PaymentIntervalIncrease |
| PausedProvider.PausedProviderIsPaidExactly | retrieval/validators.go:237-340 | in every joint run at a positive price, any unseal price and chunks of any size, when the provider waits and all it sent and asked is in the client's queue or past it: the client alone makes the voucher foretold, or its deal ends, or it never pays; a voucher resumes the transfer if and only if it is the one foretold and covers what the provider waits for; one is foretold if and only if the deal does not end first, is not stuck in its set-up, and the queue leaves the client neither idle nor with no voucher to make; an idle client has vouched for all that was asked, or more |
| NoStuckPause.FreeUnsealingIsPaidExactly | retrieval/validators.go:312-340 | with nothing charged for unsealing, in every joint run with chunks of any size, when the provider waits the client alone makes the voucher for the boundary waited for and that voucher resumes the transfer if and only if no event in the queue ends the deal first and the deal is not stuck in its set-up; it ends without another voucher exactly in the one case, and stays as it is in the other |
| UnsealRuns.PaidAheadIsNeverPaid | retrieval/client/fsm.go:524-543 | for every unseal price, every first chunk of two intervals or more and every second chunk, a joint run of honest parties on a funded channel to a waiting provider that no voucher ever resumes, with a deal that neither ends nor is stuck in its set-up |
| UnsealRuns.PaidAheadCycles | retrieval/client/fsm.go:486-574 | if the second chunk is worth more than the unseal price, such a run to a client whose cycle never rests |
| UnsealRest.HonestDealRests | retrieval/client/fsm.go:305-341 | for every unseal price of what the third interval costs or more and with chunks of at most PaymentInterval + PaymentIntervalIncrease, a joint run of honest parties on a funded channel to a waiting provider and a client that comes to rest in Ongoing with the next boundary received, nothing requested, and no voucher to come |
| UnsealRest.AlwaysPaidExactly | retrieval/client/fsm.go:305-574 | at a positive price and first interval, in every joint run every waiting provider whose deal neither ends nor is stuck in its set-up is paid and resumed by the client alone if and only if nothing is charged for unsealing |
| StuckRun.HonestDealGetsStuck | retrieval/client/fsm.go:486-574 | for every price, every id and funds and every second interval of two bytes or more, a joint run of honest parties on a funded channel to a waiting provider and a client in its paying phase whose deal ends without the payment |
| Lanes.IncrementalTotalRefines | payments/channel.go:841-886 | the running total with a voucher equals the total of the recomputed lanes if and only if the voucher does not repeat its lane's nonce with another amount |
| Lanes.TotalRedeemed | payments/channel.go:975-996 | the loop over lanes in any order computes their total |
| Lanes.TotalRedeemedWithVoucher | payments/channel.go:841-886 | merges are refused, otherwise the total is corrected by the voucher's lane |
| Lanes.LaneStates | payments/channel.go:888-946 | the loop over stored vouchers applies them to the lanes on chain in order, and fails exactly if one of them merges lanes |
| Lanes.MergedLane | payments/channel.go:888-946 | with rising vouchers a lane shows its last one, or the chain when it has none |
| Lanes.MergeIgnoresLag | payments/channel.go:888-946 | two chains that are not ahead of the stored vouchers give the same lanes |
| PaymentChannel.NextNonce | payments/channel.go:661-672 | above every nonce stored for the lane, and by one |
| PaymentChannel.Mark | payments/store.go:446-467 | the voucher and all of lower nonce in its lane are submitted, others as before |
| PaymentChannel.Channel.NextNonceForLane | payments/channel.go:661-672 | the loop computes that nonce |
| PaymentChannel.Channel.CheckVoucherValid | payments/channel.go:734-839 | the lanes with vouchers applied, and the first reason to refuse |
| PaymentChannel.Channel.AddVoucher | payments/channel.go:674-732 | a known voucher changes nothing, a valid one is stored with its gain, lanes and amount are kept up |
| PaymentChannel.Channel.CreateVoucher | payments/channel.go:616-659 | the next voucher of the lane is stored, or the shortfall is reported |
| PaymentChannel.Channel.VoucherRedeemedAmt | payments/channel.go:975-996 | the total over all lanes, submitted or not, unless a stored voucher merges lanes |
| PaymentChannel.Channel.MarkVoucherSubmitted | payments/store.go:446-467 | the loop marks exactly those |
| PaymentChannel.Channel.SubmitVoucher | payments/channel.go:1013-1069 | submitted vouchers are refused, unknown ones are stored unchecked, lower ones are marked too |
| PaymentChannel.Channel.BestSpendableByLane | payments/manager.go:403-420 | for each lane a spendable voucher of the highest amount |
| PaymentChannel.Channel.SubmitAllVouchers | payments/manager.go:216-257 | the best voucher of every lane is submitted where its message is accepted, and the call returns if and only if all of them are |
| ChannelRuns.RedeemKeepsView | payments/channel.go:888-946 | redeeming a stored voucher on chain leaves the merged lanes unchanged |
| ChannelRuns.AlwaysSolvent | payments/channel.go:734-946 | in every run the redeemed total over all lanes is within the balance |
| ChannelRuns.LaneHistory | payments/channel.go:661-807 | in every run the vouchers of a lane rise in nonce and amount, and the gains reported add up to its last amount less what was redeemed at the start |
| ChannelRuns.ReAddingIsIdle | payments/channel.go:674-700 | a stored voucher adds nothing again, whatever the chain has become |
| ChannelRuns.AllocatedLaneIsFresh | payments/store.go:257-267 | a lane handed out is used by no voucher and no lane on chain |
| VoucherChecks.AcceptedExactly | payments/channel.go:674-839 | a voucher not stored is added, with what the total over the lanes gains, if and only if it bears the channel's address, is signed, merges no lanes nor does any stored one, is above its lane in nonce and amount, the balance covers the recomputed total, and it gains the least amount asked for; otherwise nothing changes |
| VoucherChecks.RefusalNamesReason | payments/channel.go:734-839 | the error of a refusal is a reason that holds, and an amount missing is what the balance lacks for the recomputed total |
| VoucherChecks.CreatedExactly | payments/channel.go:616-659 | the next voucher of a lane is created if and only if it is acceptable; a shortfall is the least deposit with which it is |
| VoucherChecks.StoredIsSigned | payments/channel.go:674-839 | in every run each stored voucher bears the channel's address and was added or created by a step with a valid signature |
| VoucherChecks.SubmissionExactly | payments/channel.go:1013-1069 | a submission refused, or not pushed, changes nothing; an accepted one leaves the voucher stored and submitted |
| VoucherChecks.SubmittedOnce | payments/channel.go:1031-1036 | in every run a stored voucher is refused as submitted if and only if it is marked so, and after a submission so are all of its lane up to its nonce, with the record unchanged |
| ChannelFunds.ShortfallIsExact | payments/channel.go:707-832 | raising the balance by the shortfall makes the same voucher accepted with its gain, or fail the minimum gain exactly if it gains less; any smaller raise falls short by the rest |
| ChannelFunds.ReserveHolds | payments/channel.go:616-659 | funds reserved for a lane last through every run in which only that lane spends |
| ChannelFunds.ReusedChannelNeverShort | payments/manager.go:75-90 | in a channel reused for an amount, vouchers up to it on the new lane never fall short |
| ChannelFunds.ReuseIsCautious | payments/manager.go:75-90 | a channel that would do is not reused if and only if nothing would be left of it |
| ChannelFunds.ReadyChannelNeverShort | retrieval/client/fsm.go:590-597 | in a channel found ready for a total, vouchers up to it never fall short |
| ChannelFunds.ReadyIsCautious | retrieval/client/fsm.go:590-597 | a channel that would do is found not ready exactly when the missing amount is at most what the lane has redeemed |
| ChannelFunds.ReadyRefusesWhatFits | retrieval/client/fsm.go:590-597 | a channel in such a state, one voucher after its start |
| ChannelFunds.BestIsHighest | payments/manager.go:403-420 | the best voucher of a lane is the unsubmitted one of the highest nonce |
| ChannelFunds.SubmitAllLeavesNone | payments/manager.go:216-257 | when every message is accepted no voucher is left unsubmitted |
| ChannelFunds.SubmittedDownClosed | payments/store.go:446-467 | after every run the submitted vouchers of a lane are downward closed in nonce |
| ChannelFunds.UncheckedSubmissionExactly | payments/channel.go:1055-1060 | after submitting any voucher that is not stored there is a total exactly if it merges no lanes, and that is within the balance if and only if it was and the lane shows a higher nonce, or the balance covers the voucher in place of what its lane redeemed |
| ChannelFunds.UncheckedSubmissionOverdraws | payments/channel.go:1055-1060 | on every reachable ledger a voucher above the balance on an unused lane, submitted unchecked, leaves more redeemed than the balance |
| DealFunding.CheckedDealNeverShort | retrieval/client/fsm.go:545-610 | after CheckFunds found a channel ready, SendFunds for no more than that is not told of a shortfall |
| DealFunding.FundedLaneCreatesExactly | payments/channel.go:616-659 | on a funded lane of its own a deal gets a voucher exactly when it is worth more than all before it |
| DealFunding.FundsReportIsExact | retrieval/client/fsm.go:585-609 | funds are found ready if and only if they cover the payment; the amount reported missing is the least that makes the check pass once all in flight is confirmed; funds are waited for if and only if the check fails now, passes then, and there is a message to wait for |
| DealFunding.ShortfallIsRepaired | retrieval/client/fsm.go:585-609 | the deal keeps that amount on record, and checked again it goes on if and only if at least that much was added |
| DealFunding.FundsAreAwaited | retrieval/client/fsm.go:585-609 | a deal that waits for funds in flight goes on when their message is found on chain and fails when it is not |
| DealFunding.UnreadFundsRest | retrieval/client/fsm.go:103-104 | a deal whose funds cannot be read stays where it checks them, with nothing ahead of it |
| FundsQueue.Payments.Enqueue | payments/channel.go:169-176 | a new request adds its amount to what the next message of its pair would carry |
| FundsQueue.Payments.Cancel | payments/channel.go:1369-1383 | for every pair the requests still to be carried are those before without the cancelled ones, in order |
| FundsQueue.Payments.FilterQueue | payments/channel.go:221-243 | compacting in place leaves exactly the active requests, in order |
| FundsQueue.Payments.Merge | payments/channel.go:1403-1460 | the active requests and the sum of their amounts |
| FundsQueue.Payments.FindOpen | payments/store.go:168-178 | an open outbound channel between the addresses, or none if there is none |
| FundsQueue.Payments.ProcessQueue | payments/channel.go:178-334 | nothing is sent for no funds or while a message is in flight; otherwise one message carries the active requests |
| FundsQueue.Payments.Resolve | payments/channel.go:437-578 | a confirmed amount moves from pending, a failed deposit is forgotten, a failed creation removes the channel |
| FundsRuns.ProcessQueueIsStep | payments/channel.go:178-334 | every outcome of processing is a step of the runs below |
| FundsRuns.OneChannelOneMessage | payments/channel.go:257-578 | in every run there is at most one outbound channel and one message in flight between two addresses, and amount plus pending is the total of messages that have not failed |
| FundsRuns.EachRequestSentOnce | payments/channel.go:169-334 | in every run a request is in at most one message, in none while queued, and a message's amount is that of its requests |
| FundsFailures.RecordedExactly | payments/channel.go:437-578 | in every run an outbound channel is recorded if and only if some message for it has not failed, and is past its creation if and only if one was confirmed |
| FundsFailures.FailedCreationIsRepeated | payments/channel.go:437-470 | in every run, after a failed creation there is no channel for its pair, and the next processing with an amount to send creates one for all of it |
| FundsFailures.ProcessedExactly | payments/channel.go:178-334 | with nothing to carry or a message in flight the same requests stay to be carried; otherwise the queue is emptied and one message carries them all, to the open channel or a new one, unless it is not pushed; other queues stay |
| RecordedFunds.AnswerIsResolved | payments/channel.go:545-578 | the answer to a deposit adds its amount to the record, as in the queue of requests |
| RecordedFunds.RecordedAmountExactly | payments/channel.go:727-729 | in every run of vouchers and own deposits from a record at the balance, with no message in flight the record is within the balance if and only if no voucher was stored between the execution of a positive deposit and its answer |
| RecordedFunds.RecordedAmount | payments/channel.go:545-578 | in every run, with deposits by others too, the record is above the balance by the excess less what has landed unanswered |
| RecordedFunds.CarefulRunsStayWithin | payments/channel.go:545-578 | in every run in which no voucher is stored while a deposit has landed unanswered, the record stays within the balance |
| RecordedFunds.StoredWhileLanded | payments/channel.go:674-732 | a voucher stored then makes the answer lift the record above the balance, by the deposit or more |
| RecordedFunds.ExcessIsLargestDoubled | payments/channel.go:727-729 | a record that starts at the balance ends, with no message in flight, above it by exactly the largest deposit during which a voucher was stored |
| RecordedFunds.DepositCountedTwice | payments/channel.go:727-729 | for every deposit and every voucher it covers, a run that records the deposit twice |
| Buckets.ListUnique | exchange/index.go:391-447 | the numbers of the keys determine the list of buckets |
| Buckets.MoveListOf | exchange/index.go:391-431 | joining a later bucket and leaving the earlier one keeps the list that of the numbers |
| Buckets.WithoutListOf | exchange/index.go:433-447 | leaving a bucket, and removing it when empty, keeps the list that of the numbers |
| Buckets.EndsOfList | exchange/index.go:391-470 | the first and last bucket are those of the least and the greatest number |
| Links.Place | exchange/index.go:616-648 | walking the elements from any start below a number, the key joins the element of that number, or a new one at the place that keeps the order |
| Links.Enlist | exchange/index.go:141-171 | walking from the front files a new key under its number, and its node leads to the element that holds it |
| Links.MoveFiles | exchange/index.go:391-431 | a key that joins a later element and leaves its own by its node is refiled, and every node leads to the element on the list that holds its key and bears its number |
| Links.RemEntryFiles | exchange/index.go:433-447 | a key that leaves by its node, with an element left empty taken off the list, leaves all other nodes as they should be |
| Links.RejoinFiles | exchange/index.go:391-431 | a key that is on no list but leads to an element that is joins the number above it, and leaving that element changes nothing |
| Links.Increment | exchange/index.go:391-431 | the element to go to is found from the current one alone; it is missing, and dereferenced, exactly when the current one is on no list |
| LfuIndex.Index.constructor | exchange/index.go:136-171 | loading the table in any order gives the list of its refs, each leading to the element that holds it and bears its number, and their total size |
| LfuIndex.Index.Enter | exchange/index.go:391-431 | a new ref joins the greatest bucket there is, or bucket 1, and leads to its element |
| LfuIndex.Index.Increment | exchange/index.go:391-431 | a ref on the list follows its node to the bucket one higher, counts a read, and leads there |
| LfuIndex.Index.Reenter | exchange/index.go:391-431 | a ref object that was on the list before goes above the element it still leads to, and finds none exactly when that is on no list |
| LfuIndex.Index.EvictFrom | exchange/index.go:453-468 | refs of the first element go until the amount is reached; if it is not, the emptied element is on no list and has no next one |
| LfuIndex.Index.Evict | exchange/index.go:449-470 | the walk over next elements takes only least used refs, none after the amount is reached; the first element is off the list exactly if all it held went, all others stay; the result is the size removed and the fall in size, which never underflows |
| LfuIndex.Index.Admit | exchange/index.go:305-312 | a new ref is on the books, and room was made among the others only |
| LfuIndex.Index.SetRef | exchange/index.go:295-318 | a known key is refused unchanged; otherwise room is made, the ref enters, or goes above the element it was in before, and is persisted; it dereferences nil if and only if that element is off the list or this call evicts all of it |
| LfuStale.WholeExactly | exchange/index.go:449-470 | an eviction can take the whole least used bucket if and only if without some ref of it the bucket is lighter than the amount, and must if and only if it is without any |
| LfuStale.StaleExactly | exchange/index.go:391-431 | before the call: a ref object set again dereferences nil if its element is off the list, does not if that stands behind the first, and for the first may or must by the weight of its bucket |
| LfuIndex.Index.GetRef | exchange/index.go:321-334 | an unknown key changes nothing; a read moves the ref up and is persisted |
| LfuIndex.Index.DropRef | exchange/index.go:245-264 | the three outcomes by table and refs; the ref leaves the list by its node, and the size stays |
| LfuIndex.Index.ListRefs | exchange/index.go:349-365 | walking the elements, every write is in bounds, and each live ref is listed once in order of bucket |
| LfuRuns.IndexStaysSound | exchange/index.go:245-470 | in every run size is the live sizes plus those dropped, the table is the live refs plus those evicted and not set again, and rank and frequency count the reads |
| LfuRuns.EvictionAccount | exchange/index.go:295-318 | only least used refs leave, never the new one, not more than is on the books; above the upper bound size falls to the lower one or the old first bucket is gone, and up to it nothing leaves |
| LfuRuns.NewIsEvictedLast | exchange/index.go:391-431 | a new ref ranks as high as any, and is among the least used if and only if all live refs are in its bucket |
| LfuRuns.ReloadExactly | exchange/index.go:136-171 | the reloaded list is the live one if and only if no evicted key is left unset; and by how much the size differs |
| LfuRuns.QuietRunsReload | exchange/index.go:136-171 | after every run without eviction, reloading in any order rebuilds the list |
| LfuRuns.NilRefExactly | exchange/index.go:245-264 | a persisted key has no live ref exactly when it was evicted and not set again |
| LfuRuns.RankIsFrequencyExactly | exchange/index.go:391-431 | however often two refs are read, they rank by frequency if and only if they entered equally far ahead of it |
| LfuRuns.MoreReadIsEvicted | exchange/index.go:391-470 | a run that evicts the ref read most |
| Interest.FrequenciesAddUp | exchange/index.go:591-740 | after every run of loads and drops an item's frequency is the sum of reads loaded for it while not stored since it was last dropped, and it is listed exactly when it was loaded so since |
| Interest.InterestList.LoadOne | exchange/index.go:600-679 | one entry is skipped, moved on from its own element, or inserted, and every item leads to the element that holds it and bears its frequency |
| Interest.InterestList.LoadInterest | exchange/index.go:591-680 | loading an index in any order adds all its entries |
| Interest.InterestList.DropInterest | exchange/index.go:730-740 | only that item leaves, by its node |
| Interest.Fill | exchange/index.go:691-703 | the picks are distinct, the most read first, none after the room is full, and everything if it never is |
| Interest.Replace | exchange/index.go:704-720 | one most read item, exactly if some least used ref was read less; without stored content the missing front is dereferenced |
| Interest.InterestList.Interesting | exchange/index.go:684-720 | the one or the other by the room available |
| Interest.AvailableExactly | exchange/index.go:220-228 | the room is what is left below the upper bound, none above the lower bound, if and only if the size is within the upper bound |
| Interest.OverfullLooksFree | exchange/index.go:220-228 | one ref above the upper bound in an empty index makes nearly all of the word look free |
| Session.SortOffers | exchange/tx.go:1048-1052 | a permutation in order of price |
| Session.SessionWorker.PushBack | exchange/tx.go:969-990 | an offer is ignored, executed at once, queued, or sets off the cheapest |
| Session.SessionWorker.PushFront | exchange/tx.go:991-998 | an offer is executed at once or put first |
| Session.SessionWorker.OnDelay | exchange/tx.go:999-1007 | the timer sets off the cheapest, does nothing when one was executed, and fails on an empty queue |
| Session.SessionWorker.OnResult | exchange/tx.go:1008-1019 | a failure moves on to the head of the queue; success, or failure with nothing left, is the end |
| Session.SessionWorker.Close | exchange/tx.go:966-968 | no further offer is taken; the worker returns, and the caller gets back what waits, exactly if the caller is still there when the worker answers |
| SessionRuns.SessionStaysSound | exchange/tx.go:949-1023 | in every session each offer is ignored, waiting or executed once, one runs at a time, and the end is reported at most once, with the last outcome, all before it being failures |
| SessionRuns.FinishIsFinal | exchange/tx.go:1008-1019 | after the end is reported nothing is executed or reported |
| SessionRuns.ClosingIsLast | exchange/tx.go:966-968 | in every session closing is the last turn |
| SessionRuns.FailureMeansExhausted | exchange/tx.go:1008-1019 | a failure is reported only when every offer kept has been executed and has failed |
| SessionRuns.TimerCrashesExactly | exchange/tx.go:999-1007 | the timer finds no offer if and only if all so far were ignored |
| SessionRuns.TimerCrashes | exchange/tx.go:999-1007 | for every ceiling and offer below it, a session in which the timer finds no offer |
| SessionRuns.ExecutesExactly | exchange/tx.go:949-1019 | in every session an offer has been executed if and only if one was pushed in front, or one was kept without thresholds, or as many were kept as asked for, or the timer has fired with one kept |
| SessionRuns.FirstIsCheapest | exchange/tx.go:979-1007 | with a count or a time asked for, the first offer set off is a cheapest of those kept, of which by count there are as many as asked for |
| SessionRuns.FirstComeFirstServed | exchange/tx.go:973-982 | without thresholds offers pushed back are executed in order of arrival |
| SessionRuns.NextIsCheapestExactly | exchange/tx.go:1008-1016 | the next offer is the cheapest waiting if and only if no other one pushed in front, not the first left of the sorted ones, and none pushed back since is cheaper |
| SessionRuns.CheaperLateOfferWaits | exchange/tx.go:979-1016 | for any three such prices, a session in which a cheaper late offer is passed over |
| SessionRuns.CeilingReversed | exchange/tx.go:969-972 | documented and actual treatment of an offer agree if and only if its price is the ceiling |
| SessionRuns.OnlyAboveTheAmount | exchange/tx.go:906-918 | in every session of offers pushed back only offers at or above the amount are executed or kept |

## Left out

- Token amounts and byte counts are unbounded integers; only `Interest.Available` models wrap-around of uint64.
- PaymentInterval and PaymentIntervalIncrease both zero: the type Params excludes it, because NextInterval does not end then.
- LockstepUnseal.LockstepExactly: ends when the client has received all blocks, because the last payment is for the bytes received and not for a boundary.
- LockstepUnseal.LockstepExactly: the payment channel refuses a voucher only when it is not worth more than the last; waiting for more funds is not part of the joint runs.
- ClientCompletion.EndsAsConcluded: takes the client's own conclusions not to come from outside.
- ClientFate.FateDecides: is about deals before the transfer's end, with no event of that end, no shortfall and no unseal request in the queue, which is so in every joint run until the provider has sent everything.
- PausedProvider.PausedProviderIsPaidExactly: with an unseal price the condition is the walk over the client's queue; which unseal prices leave an idle client in some run is stated one way for short chunks, by `UnsealRest.HonestDealRests`.
- ClientCycle.CycleRestsExactly: is about a round with no event from outside and with vouchers granted, and so is `ClientBooks.CycleRestsOverRuns` about what follows the run.
- LfuIndex.Index.SetRef: a ref has a size that is not negative, and says nothing of the state after nil is dereferenced, where the process stops.
- LfuIndex.Index.DropRef: says nothing of the state after the missing ref is dereferenced, where the process stops.
- FundsRuns.OneChannelOneMessage: outbound channels are not settled and no voucher is added while a message is pending.
- ChannelRuns.AlwaysSolvent: lanes on chain change only by redeeming stored vouchers, and only stored vouchers are submitted.
- Concurrent calls are steps one after another; inbound and outbound accessors with different locks are not told apart.
- Ask, proposal and restart of a retrieval, and unsealing by the provider.
- Signatures, addresses, gas, message pool and chain calls, which are answers given from outside.
- Settling and collecting channels, and waiting for messages to be mined.
- CBOR encoding and the persisted form of every record.
- UpdateRef, garbage collection of blocks and CleanBlockStore.
- Gossip, peer management, replication and dispatch of content.
- Assembling and reading transactions in exchange/tx.go other than the offer worker.
- Node, command line, server, wallet and storage deals.
