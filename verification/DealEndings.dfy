/** Why a deal is where it is: which events a client's and a provider's deal must have met to come there, what it hears of
    the end, and which events end it for good (retrieval/client/fsm.go:43-432, retrieval/provider/fsm.go:49-128). */
module DealEndings {
  import opened Options
  import opened Deals
  import opened Intervals
  import opened Runs
  import C = Client
  import M = ClientRuns
  import L = ClientLadder
  import G = ClientProgress
  import O = ClientOutcome
  import K = ClientCompletion
  import P = Provider

  // ---------- The client ----------

  /** An event met in a status. */
  datatype Met<E> = Met(at: Status, e: E)

  /** A client's machine beside the events that its deal has met, in order, and of those the ones that it has taken. */
  datatype Logged = Logged(m: M.Machine, met: seq<Met<C.Event>>, log: seq<C.Event>)

  predicate Can(l: Logged, s: M.Step) { M.Enabled(l.m, s) }

  function Next(l: Logged, s: M.Step): Logged {
    var m' := M.Next(l.m, s);
    if !s.Process? || l.m.queue == [] then l.(m := m')
    else
      var e := l.m.queue[0];
      Logged(m', l.met + [Met(l.m.cs.status, e)], if C.Transition(l.m.cs.status, e).Invalid? then l.log else l.log + [e])
  }

  function Begin(p: Params, totalFunds: int): Logged { Logged(M.Begin(p, totalFunds), [], []) }

  /** Failures that end a deal at once, and those that first close its transfer. */
  const FATAL: set<C.Event> := {
    C.WriteDealProposalErrored, C.ProviderErrored, C.DataTransferError, C.WriteDealPaymentErrored, C.EarlyTermination
  }

  const FAILURES: set<C.Event> := {
    C.UnknownResponseReceived, C.PaymentChannelErrored, C.AllocateLaneErrored, C.BadPaymentRequested, C.CreateVoucherFailed
  }

  const LAST_PAYMENT: set<Status> := {FundsNeededLastPayment, SendFundsLastPayment, Finalizing}

  /** An event without which a deal does not come to pay for the last time, to fail, or to be cancelled. */
  predicate Reason(s: Status, e: C.Event) {
    && (s in LAST_PAYMENT ==> e.LastPaymentRequested?)
    && (s in {Cancelling, Cancelled} ==> e in {C.Cancel, C.ProviderCancelled})
    && (s == Failing ==> e in FAILURES)
    && (s == Errored ==> e in FATAL + FAILURES)
  }

  const REASONED: set<Status> := LAST_PAYMENT + {Cancelling, Cancelled, Failing, Errored}

  /** The statuses of a deal that is set up. */
  const UNDER_WAY: set<Status> := {
    Ongoing, FundsNeeded, SendFunds, BlocksComplete, FundsNeededLastPayment, SendFundsLastPayment, Finalizing, CheckFunds,
    InsufficientFunds, PaymentChannelAddingFunds, CheckComplete, ClientWaitingForLastBlocks, Completed
  }

  predicate Accepts(e: C.Event) { e == C.DealAccepted || e.UnsealPaymentRequested? }

  predicate SetsUp(e: C.Event) { e == C.PaymentChannelSkip || e.LaneAllocated? }

  /** A deal that pays for the last time, fails or is cancelled has taken an event without which it would not; a deal past
      acceptance was accepted, and one under way was set up. */
  ghost predicate Explained(s: Status, log: seq<C.Event>) {
    && (s in REASONED ==> exists i :: 0 <= i < |log| && Reason(s, log[i]))
    && (s in UNDER_WAY || (s in C.CREATION_STATES && s != WaitForAcceptance) ==> exists i :: 0 <= i < |log| && Accepts(log[i]))
    && (s in UNDER_WAY ==> exists i :: 0 <= i < |log| && SetsUp(log[i]))
  }

  /** Failures that end a deal in whatever status, and events that lead a deal to its end from whatever status. */
  const HARD: set<C.Event> := {C.WriteDealProposalErrored, C.ProviderErrored, C.DataTransferError, C.WriteDealPaymentErrored}

  const TURNS: set<C.Event> := {C.Cancel, C.ProviderCancelled, C.UnknownResponseReceived}

  const GOING: set<Status> := {Cancelling, Cancelled, Failing, Errored}

  /** What a deal makes of an event: where its answer, its failures and its conclusions lead for good. */
  predicate Obeys(s: Status, x: Met<C.Event>) {
    && (x == Met(WaitForAcceptance, C.DealRejected) ==> s == Rejected)
    && (x == Met(WaitForAcceptance, C.NotFound) ==> s == DealNotFound)
    && (x.e in HARD && x.at !in C.FINALITY_STATES ==> s == Errored)
    && (x == Met(CheckComplete, C.EarlyTermination) ==> s == Errored)
    && (x == Met(CheckComplete, C.CompleteVerified) ==> s == Completed)
    && (x.e in TURNS && x.at !in C.FINALITY_STATES ==> s in GOING)
    && (x.at in {Failing, Cancelling} && x.e == C.CancelComplete ==> s == if x.at == Failing then Errored else Cancelled)
  }

  /** And what its endings come from. */
  ghost predicate Final(s: Status, met: seq<Met<C.Event>>) {
    && (forall i :: 0 <= i < |met| ==> Obeys(s, met[i]))
    && (s == Rejected ==> Met(WaitForAcceptance, C.DealRejected) in met)
    && (s == DealNotFound ==> Met(WaitForAcceptance, C.NotFound) in met)
    && (s == Cancelled ==> Met(Cancelling, C.CancelComplete) in met)
  }

  /** Statuses that share their reason with the one before. */
  predicate Follows(s: Status, s': Status) {
    (s in LAST_PAYMENT && s' in LAST_PAYMENT) || (s == Failing && s' == Errored) || (s == Cancelling && s' == Cancelled)
  }

  /** An event brings its own reason, or leaves the deal with the one it had. */
  lemma ReasonMoves(s: Status, e: C.Event)
    requires C.Transition(s, e).To? && C.Transition(s, e).status in REASONED
    ensures var s' := C.Transition(s, e).status; Reason(s', e) || Follows(s, s')
  {
    hide C.Transition;
    match C.Transition(s, e).status
    case Failing => FailsBy(s, e);
    case Errored => ErrsBy(s, e);
    case Cancelling => CancelsBy(s, e);
    case Cancelled => CancelledBy(s, e);
    case _ => K.LastLeads(s, e);
  }

  lemma FailsBy(s: Status, e: C.Event)
    requires C.Transition(s, e) == To(Failing)
    ensures e in FAILURES
  {
  }

  lemma ErrsBy(s: Status, e: C.Event)
    requires C.Transition(s, e) == To(Errored)
    ensures e in FATAL || s == Failing
  {
  }

  lemma CancelsBy(s: Status, e: C.Event)
    requires C.Transition(s, e) == To(Cancelling)
    ensures e in {C.Cancel, C.ProviderCancelled}
  {
  }

  lemma CancelledBy(s: Status, e: C.Event)
    requires C.Transition(s, e) == To(Cancelled)
    ensures s == Cancelling && e == C.CancelComplete
  {
  }

  lemma ReasonFollows(s: Status, s': Status, e: C.Event)
    requires Follows(s, s') && Reason(s, e)
    ensures Reason(s', e)
  {
  }

  lemma SetupMoves(s: Status, e: C.Event)
    requires C.Transition(s, e).To?
    ensures var s' := C.Transition(s, e).status;
            && (s' in UNDER_WAY ==> s in UNDER_WAY || (SetsUp(e) && s in C.CREATION_STATES && s != WaitForAcceptance))
            && (s' in C.CREATION_STATES && s' != WaitForAcceptance ==> Accepts(e) || (s in C.CREATION_STATES && s != WaitForAcceptance))
  {
    hide C.Transition, SetsUp, Accepts;
    SetupStays(s, e);
    if s in {New, WaitForAcceptance} { OpeningMoves(s, e); }
    else if s in C.CREATION_STATES { CreationMoves(s, e); }
    else if s !in UNDER_WAY { DeadMoves(s, e); }
  }

  lemma OpeningMoves(s: Status, e: C.Event)
    requires s in {New, WaitForAcceptance} && C.Transition(s, e).To?
    ensures C.Transition(s, e).status !in UNDER_WAY
    ensures C.Transition(s, e).status in C.CREATION_STATES && C.Transition(s, e).status != WaitForAcceptance ==> Accepts(e)
  {
  }

  lemma CreationMoves(s: Status, e: C.Event)
    requires s in C.CREATION_STATES && s != WaitForAcceptance && C.Transition(s, e).To?
    ensures C.Transition(s, e).status in UNDER_WAY ==> SetsUp(e)
  {
  }

  /** An event is obeyed when it is met. */
  lemma ObeyedNow(s: Status, e: C.Event)
    ensures Obeys(G.Moved(s, e), Met(s, e))
  {
    if s in {Failing, Cancelling, WaitForAcceptance, CheckComplete} { ObeyedThere(s, e); }
    if e in HARD + TURNS && s !in C.FINALITY_STATES { ObeyedAnywhere(s, e); }
    hide C.Transition;
  }

  lemma ObeyedThere(s: Status, e: C.Event)
    requires s in {Failing, Cancelling, WaitForAcceptance, CheckComplete}
    ensures s == WaitForAcceptance && e == C.DealRejected ==> G.Moved(s, e) == Rejected
    ensures s == WaitForAcceptance && e == C.NotFound ==> G.Moved(s, e) == DealNotFound
    ensures s == CheckComplete && e == C.EarlyTermination ==> G.Moved(s, e) == Errored
    ensures s == CheckComplete && e == C.CompleteVerified ==> G.Moved(s, e) == Completed
    ensures s == Failing && e == C.CancelComplete ==> G.Moved(s, e) == Errored
    ensures s == Cancelling && e == C.CancelComplete ==> G.Moved(s, e) == Cancelled
  {
  }

  lemma ObeyedAnywhere(s: Status, e: C.Event)
    requires e in HARD + TURNS && s !in C.FINALITY_STATES
    ensures e in HARD ==> G.Moved(s, e) == Errored
    ensures e in TURNS ==> G.Moved(s, e) in GOING
  {
  }

  /** What was obeyed stays so. */
  lemma ObeyedStill(s: Status, e: C.Event, x: Met<C.Event>)
    requires Obeys(s, x)
    ensures Obeys(G.Moved(s, e), x)
  {
    if s in C.FINALITY_STATES { FinalStays(s, e); }
    if s in GOING { GoingStays(s, e); }
    hide C.Transition, G.Moved;
  }

  lemma FinalStays(s: Status, e: C.Event)
    requires s in C.FINALITY_STATES
    ensures G.Moved(s, e) == s
  {
  }

  lemma GoingStays(s: Status, e: C.Event)
    requires s in GOING
    ensures G.Moved(s, e) in GOING
  {
  }

  lemma EndsBy(s: Status, e: C.Event)
    ensures G.Moved(s, e) == Rejected ==> s == Rejected || Met(s, e) == Met(WaitForAcceptance, C.DealRejected)
    ensures G.Moved(s, e) == DealNotFound ==> s == DealNotFound || Met(s, e) == Met(WaitForAcceptance, C.NotFound)
    ensures G.Moved(s, e) == Cancelled ==> s == Cancelled || Met(s, e) == Met(Cancelling, C.CancelComplete)
  {
  }

  lemma MetKeepsFinal(s: Status, met: seq<Met<C.Event>>, e: C.Event)
    requires Final(s, met)
    ensures Final(G.Moved(s, e), met + [Met(s, e)])
  {
    hide C.Transition, Obeys, G.Moved;
    var met', s' := met + [Met(s, e)], G.Moved(s, e);
    forall i | 0 <= i < |met'| ensures Obeys(s', met'[i]) {
      if i < |met| { ObeyedStill(s, e, met[i]); } else { ObeyedNow(s, e); }
    }
    EndsBy(s, e);
    assert met'[|met|] == Met(s, e) && forall x :: x in met ==> x in met';
  }

  lemma TakenKeepsExplained(s: Status, log: seq<C.Event>, e: C.Event, s': Status)
    requires Explained(s, log) && !C.Transition(s, e).Invalid?
    requires s' == if C.Transition(s, e).To? then C.Transition(s, e).status else s
    ensures Explained(s', log + [e])
  {
    var log' := log + [e];
    hide C.Transition, Reason, Accepts, SetsUp;
    if C.Transition(s, e).To? {
      if s' in REASONED { ReasonMoves(s, e); }
      SetupMoves(s, e);
    }
    assert log'[|log|] == e && forall i :: 0 <= i < |log| ==> log'[i] == log[i];
    if s' in REASONED && !Reason(s', e) {
      var i :| 0 <= i < |log| && Reason(s, log[i]);
      if s' != s { ReasonFollows(s, s', log[i]); }
      assert Reason(s', log'[i]);
    }
    if exists i :: 0 <= i < |log| && Accepts(log[i]) {
      var i :| 0 <= i < |log| && Accepts(log[i]);
      assert Accepts(log'[i]);
    }
    if exists i :: 0 <= i < |log| && SetsUp(log[i]) {
      var i :| 0 <= i < |log| && SetsUp(log[i]);
      assert SetsUp(log'[i]);
    }
  }

  lemma StepExplains(l: Logged, s: M.Step)
    requires Explained(l.m.cs.status, l.log) && Final(l.m.cs.status, l.met)
    ensures var l' := Next(l, s); Explained(l'.m.cs.status, l'.log) && Final(l'.m.cs.status, l'.met)
  {
    if s.Process? && l.m.queue != [] {
      var e := l.m.queue[0];
      O.StatusApplied(l.m.cs, e);
      hide C.Transition, C.Apply, C.Handler, Explained, Final, C.RunsHandler;
      MetKeepsFinal(l.m.cs.status, l.met, e);
      if !C.Transition(l.m.cs.status, e).Invalid? {
        TakenKeepsExplained(l.m.cs.status, l.log, e, C.Apply(l.m.cs, e).status);
      }
    }
  }

  /** In every run of a client, whatever comes from outside: a deal that pays for the last time, fails, errs or is cancelled
      has taken an event without which it would not; it was accepted if it is past acceptance and set up if it is under way;
      it is rejected, or not found, exactly when it met that answer while waiting for one; a failure is its end, a verified
      completion too, and after a cancellation it only ever closes. */
  lemma ClientDealIsExplained(p: Params, totalFunds: int, steps: seq<M.Step>)
    requires Exec(Begin(p, totalFunds), Can, Next, steps).Some?
    ensures var l := Exec(Begin(p, totalFunds), Can, Next, steps).value;
            Explained(l.m.cs.status, l.log) && Final(l.m.cs.status, l.met)
  {
    hide Can, Next, Begin, Explained, Final;
    var inv := (l: Logged) => Explained(l.m.cs.status, l.log) && Final(l.m.cs.status, l.met);
    NothingTaken(p, totalFunds);
    forall l, s | inv(l) && Can(l, s) ensures inv(Next(l, s)) { StepExplains(l, s); }
    Invariance(Begin(p, totalFunds), Can, Next, inv, steps);
  }

  lemma NothingTaken(p: Params, totalFunds: int)
    ensures var l := Begin(p, totalFunds); Explained(l.m.cs.status, l.log) && Final(l.m.cs.status, l.met)
  {
  }

  // ---------- News of the end ----------

  /** Statuses in which a provider's word leads to the check of the blocks, and those from there on. */
  const WORKING: set<Status> := {Ongoing, FundsNeeded, SendFunds, BlocksComplete, FundsNeededLastPayment, SendFundsLastPayment}

  const CHECKED: set<Status> := {CheckComplete, ClientWaitingForLastBlocks, Completed} + GOING

  const PAID: set<Status> := {Finalizing, Completed} + GOING

  const UNACCEPTED: set<Status> := {New, WaitForAcceptance, Rejected, DealNotFound}

  /** Where acceptance, the provider's word, the last payment and failures to pay lead, with no way back. */
  predicate Proceeds(s: Status, x: Met<C.Event>) {
    && (x.at == WaitForAcceptance && Accepts(x.e) ==> s !in UNACCEPTED)
    && (x.e == C.Complete && x.at in WORKING ==> s in CHECKED)
    && (x.at == BlocksComplete && x.e.PaymentSent? ==> s in CHECKED)
    && (x == Met(Finalizing, C.Complete) ==> s == Completed)
    && (x.at in {CheckComplete, ClientWaitingForLastBlocks} && x.e == C.AllBlocksReceived ==> s == Completed)
    && (x.at == SendFundsLastPayment && (x.e.PaymentSent? || x.e == C.PaymentNotSent) ==> s in PAID)
    && (x.at in {SendFunds, SendFundsLastPayment} && x.e in {C.BadPaymentRequested, C.CreateVoucherFailed} ==> s in GOING)
    && (x.at in {Accepted, PaymentChannelCreating, PaymentChannelAddingFunds} && x.e == C.PaymentChannelErrored ==> s in GOING)
    && (x == Met(PaymentChannelAllocatingLane, C.AllocateLaneErrored) ==> s in GOING)
  }

  lemma ProceedsNow(s: Status, e: C.Event)
    ensures Proceeds(G.Moved(s, e), Met(s, e))
  {
    if s in WORKING { ProceedsWorking(s, e); } else { ProceedsElsewhere(s, e); }
    hide C.Transition, G.Moved;
  }

  lemma ProceedsWorking(s: Status, e: C.Event)
    requires s in WORKING
    ensures e == C.Complete ==> G.Moved(s, e) in CHECKED
    ensures s == BlocksComplete && e.PaymentSent? ==> G.Moved(s, e) in CHECKED
    ensures s == SendFundsLastPayment && (e.PaymentSent? || e == C.PaymentNotSent) ==> G.Moved(s, e) in PAID
    ensures s in {SendFunds, SendFundsLastPayment} && e in {C.BadPaymentRequested, C.CreateVoucherFailed} ==> G.Moved(s, e) in GOING
  {
  }

  lemma ProceedsElsewhere(s: Status, e: C.Event)
    requires s !in WORKING
    ensures s == WaitForAcceptance && Accepts(e) ==> G.Moved(s, e) !in UNACCEPTED
    ensures s == Finalizing && e == C.Complete ==> G.Moved(s, e) == Completed
    ensures s in {CheckComplete, ClientWaitingForLastBlocks} && e == C.AllBlocksReceived ==> G.Moved(s, e) == Completed
    ensures s in {Accepted, PaymentChannelCreating, PaymentChannelAddingFunds} && e == C.PaymentChannelErrored ==> G.Moved(s, e) in GOING
    ensures s == PaymentChannelAllocatingLane && e == C.AllocateLaneErrored ==> G.Moved(s, e) in GOING
  {
  }

  lemma ProceedsStill(s: Status, e: C.Event, x: Met<C.Event>)
    requires Proceeds(s, x)
    ensures Proceeds(G.Moved(s, e), x)
  {
    if s in GOING { GoingStays(s, e); }
    if s == Completed { FinalStays(s, e); }
    NoWayBack(s, e);
    hide C.Transition, G.Moved;
  }

  lemma NoWayBack(s: Status, e: C.Event)
    ensures s !in UNACCEPTED ==> G.Moved(s, e) !in UNACCEPTED
    ensures s in {CheckComplete, ClientWaitingForLastBlocks} ==> G.Moved(s, e) in CHECKED
    ensures s == Finalizing ==> G.Moved(s, e) in PAID
  {
    hide C.Transition;
    if C.Transition(s, e).To? && C.Transition(s, e).status in UNACCEPTED { UnacceptedBy(s, e); }
    if s == CheckComplete { CheckLeads(e); }
    if s == ClientWaitingForLastBlocks { WaitLeads(e); }
    if s == Finalizing { FinalizingLeads(e); }
  }

  lemma UnacceptedBy(s: Status, e: C.Event)
    requires C.Transition(s, e).To? && C.Transition(s, e).status in UNACCEPTED
    ensures s in UNACCEPTED
  {
  }

  lemma CheckLeads(e: C.Event)
    ensures C.Transition(CheckComplete, e).To? ==> C.Transition(CheckComplete, e).status in CHECKED
  {
  }

  lemma WaitLeads(e: C.Event)
    ensures C.Transition(ClientWaitingForLastBlocks, e).To? ==> C.Transition(ClientWaitingForLastBlocks, e).status in CHECKED
  {
  }

  lemma FinalizingLeads(e: C.Event)
    ensures C.Transition(Finalizing, e).To? ==> C.Transition(Finalizing, e).status in PAID
  {
  }

  /** Statuses in which a deal takes in that all blocks are there, and that the last payment is requested. In the others,
      among them those that check and wait for funds, the news is lost. */
  const HEARING: set<Status> := C.CREATION_STATES + WORKING + {CheckComplete, ClientWaitingForLastBlocks}

  const ASKABLE: set<Status> := C.CREATION_STATES + (WORKING - {SendFundsLastPayment}) + {CheckComplete}

  predicate TellsAll(x: Met<C.Event>) { x.e == C.AllBlocksReceived && x.at in HEARING }

  predicate AsksLast(x: Met<C.Event>) { x.e.LastPaymentRequested? && x.at in ASKABLE }

  ghost predicate Heard(ds: C.ClientState, met: seq<Met<C.Event>>) {
    && (forall i :: 0 <= i < |met| ==> Proceeds(ds.status, met[i]))
    && (ds.allBlocksReceived <==> exists i :: 0 <= i < |met| && TellsAll(met[i]))
    && (ds.lastPaymentRequested <==> exists i :: 0 <= i < |met| && AsksLast(met[i]))
  }

  lemma HeardNow(s: Status, e: C.Event)
    ensures e == C.AllBlocksReceived ==> (TellsAll(Met(s, e)) <==> !C.Transition(s, e).Invalid?)
    ensures e.LastPaymentRequested? ==> (AsksLast(Met(s, e)) <==> !C.Transition(s, e).Invalid?)
  {
    if e == C.AllBlocksReceived { ToldThere(s); }
    if e.LastPaymentRequested? { AskedThere(s, e.owed); }
    hide C.Transition;
  }

  lemma ToldThere(s: Status)
    ensures s in HEARING <==> !C.Transition(s, C.AllBlocksReceived).Invalid?
  {
  }

  lemma AskedThere(s: Status, owed: int)
    ensures s in ASKABLE <==> !C.Transition(s, C.LastPaymentRequested(owed)).Invalid?
  {
  }

  lemma MetKeepsHeard(ds: C.ClientState, met: seq<Met<C.Event>>, e: C.Event)
    requires Heard(ds, met)
    ensures Heard(C.Apply(ds, e), met + [Met(ds.status, e)])
  {
    hide C.Transition, C.Apply, Proceeds, G.Moved, TellsAll, AsksLast;
    var met', x, ds' := met + [Met(ds.status, e)], Met(ds.status, e), C.Apply(ds, e);
    FlagsBy(ds, e);
    assert met'[|met|] == x && forall i :: 0 <= i < |met| ==> met'[i] == met[i];
    forall i | 0 <= i < |met'| ensures Proceeds(ds'.status, met'[i]) {
      if i < |met| { ProceedsStill(ds.status, e, met[i]); } else { ProceedsNow(ds.status, e); }
    }
    if exists i :: 0 <= i < |met| && TellsAll(met[i]) { var i :| 0 <= i < |met| && TellsAll(met[i]); assert TellsAll(met'[i]); }
    if exists i :: 0 <= i < |met| && AsksLast(met[i]) { var i :| 0 <= i < |met| && AsksLast(met[i]); assert AsksLast(met'[i]); }
  }

  lemma FlagsBy(ds: C.ClientState, e: C.Event)
    ensures var x, ds' := Met(ds.status, e), C.Apply(ds, e);
            && ds'.status == G.Moved(ds.status, e)
            && (ds'.allBlocksReceived <==> ds.allBlocksReceived || TellsAll(x))
            && (ds'.lastPaymentRequested <==> ds.lastPaymentRequested || AsksLast(x))
  {
    hide C.Transition, C.Apply, TellsAll, AsksLast;
    K.FlagsMove(ds, e);
    HeardNow(ds.status, e);
    OnlyItself(Met(ds.status, e));
  }

  lemma OnlyItself(x: Met<C.Event>)
    ensures TellsAll(x) ==> x.e == C.AllBlocksReceived
    ensures AsksLast(x) ==> x.e.LastPaymentRequested?
  {
  }

  lemma StepKeepsHeard(l: Logged, s: M.Step)
    requires Heard(l.m.cs, l.met)
    ensures Heard(Next(l, s).m.cs, Next(l, s).met)
  {
    if s.Process? && l.m.queue != [] {
      MetKeepsHeard(l.m.cs, l.met, l.m.queue[0]);
      if C.Transition(l.m.cs.status, l.m.queue[0]).Invalid? { L.InvalidStays(l.m.cs, l.m.queue[0]); }
      hide C.Transition, C.Apply, C.Handler, Heard, C.RunsHandler;
    }
  }

  /** In every run of a client: acceptance, the provider's word, the last payment and failures to pay have led its deal where
      they lead, for good; it knows that all blocks are there, and that the last payment is requested, exactly when it was told
      so in a status that takes it in. */
  lemma ClientHearsExactly(p: Params, totalFunds: int, steps: seq<M.Step>)
    requires Exec(Begin(p, totalFunds), Can, Next, steps).Some?
    ensures var l := Exec(Begin(p, totalFunds), Can, Next, steps).value; Heard(l.m.cs, l.met)
  {
    var inv := (l: Logged) => Heard(l.m.cs, l.met);
    assert inv(Begin(p, totalFunds));
    hide Can, Next, Begin, Heard;
    forall l, s | inv(l) && Can(l, s) ensures inv(Next(l, s)) { StepKeepsHeard(l, s); }
    Invariance(Begin(p, totalFunds), Can, Next, inv, steps);
  }

  // ---------- Channel and lane ----------

  /** Statuses that wait for a message on chain. */
  const ON_CHAIN: set<Status> := {PaymentChannelCreating, PaymentChannelAddingInitialFunds, PaymentChannelAddingFunds}

  /** The deal is marked as waiting exactly in those, as long as it is alive, and pays on the lane allocated for it. */
  ghost predicate Channelled(ds: C.ClientState, log: seq<C.Event>) {
    && (ds.status in C.CREATION_STATES + UNDER_WAY + {New} ==> (ds.waiting <==> ds.status in ON_CHAIN))
    && (forall i :: 0 <= i < |log| && log[i].LaneAllocated? ==> ds.lane == Some(log[i].lane) && ds.status !in C.CREATION_STATES + {New})
  }

  predicate OfChannel(e: C.Event) {
    e in {C.PaymentChannelCreateInitiated, C.FundsBeingAdded, C.PaymentChannelReady} || e.LaneAllocated?
  }

  lemma ChannelMoves(s: Status, e: C.Event)
    requires !C.Transition(s, e).Invalid? && OfChannel(e)
    ensures e.LaneAllocated? ==> s == PaymentChannelAllocatingLane && G.Moved(s, e) == Ongoing
    ensures e in {C.PaymentChannelCreateInitiated, C.FundsBeingAdded} ==> G.Moved(s, e) in ON_CHAIN
    ensures e == C.PaymentChannelReady ==> G.Moved(s, e) in {PaymentChannelAllocatingLane, Ongoing}
  {
  }

  lemma OthersMove(s: Status, e: C.Event)
    requires !C.Transition(s, e).Invalid? && !OfChannel(e) && G.Moved(s, e) in C.CREATION_STATES + UNDER_WAY + {New}
    ensures s in C.CREATION_STATES + UNDER_WAY + {New} && (G.Moved(s, e) in ON_CHAIN <==> s in ON_CHAIN)
  {
    if s !in C.CREATION_STATES + UNDER_WAY + {New} { DeadMoves(s, e); }
    hide C.Transition;
    if C.Transition(s, e).To? { OthersLead(s, e); }
  }

  lemma DeadMoves(s: Status, e: C.Event)
    requires s !in C.CREATION_STATES + UNDER_WAY + {New}
    ensures G.Moved(s, e) !in C.CREATION_STATES + UNDER_WAY + {New}
  {
  }

  lemma OthersLead(s: Status, e: C.Event)
    requires C.Transition(s, e).To? && !OfChannel(e) && C.Transition(s, e).status in C.CREATION_STATES + UNDER_WAY
    ensures C.Transition(s, e).status !in ON_CHAIN && s !in ON_CHAIN
  {
    hide C.Transition, OfChannel;
    if C.Transition(s, e).status in ON_CHAIN { OnChainBy(s, e); }
    if s in ON_CHAIN { OffChainBy(s, e); }
  }

  lemma OnChainBy(s: Status, e: C.Event)
    requires C.Transition(s, e).To? && C.Transition(s, e).status in ON_CHAIN
    ensures OfChannel(e)
  {
  }

  lemma OffChainBy(s: Status, e: C.Event)
    requires C.Transition(s, e).To? && C.Transition(s, e).status in C.CREATION_STATES + UNDER_WAY && s in ON_CHAIN
    ensures OfChannel(e)
  {
  }

  /** Nothing leads back to the set-up. */
  lemma SetupStays(s: Status, e: C.Event)
    ensures G.Moved(s, e) in C.CREATION_STATES + {New} ==> s in C.CREATION_STATES + {New}
  {
  }

  lemma ActOnChannel(ds: C.ClientState, e: C.Event)
    ensures var a := C.Act(ds, e);
            && (a.waiting <==> e in {C.PaymentChannelCreateInitiated, C.FundsBeingAdded} || (ds.waiting && e != C.PaymentChannelReady))
            && (e.LaneAllocated? ==> a.lane == Some(e.lane)) && (!e.LaneAllocated? && ds.lane.Some? ==> a.lane == ds.lane)
            && a.status == ds.status
  {
    hide NextInterval;
  }

  lemma TakenKeepsChannel(ds: C.ClientState, log: seq<C.Event>, e: C.Event)
    requires Channelled(ds, log) && !C.Transition(ds.status, e).Invalid?
    ensures Channelled(C.Apply(ds, e), log + [e])
  {
    var log', ds' := log + [e], C.Apply(ds, e);
    ActOnChannel(ds, e);
    O.StatusApplied(ds, e);
    hide C.Transition, C.Act, OfChannel;
    if OfChannel(e) { ChannelMoves(ds.status, e); OnChainOrNot(); }
    else if G.Moved(ds.status, e) in C.CREATION_STATES + UNDER_WAY + {New} { OthersMove(ds.status, e); }
    ChannelEvents(e);
    SetupStays(ds.status, e);
    assert forall i :: 0 <= i < |log'| ==> log'[i] == if i < |log| then log[i] else e;
  }

  lemma ChannelEvents(e: C.Event)
    ensures e in {C.PaymentChannelCreateInitiated, C.FundsBeingAdded, C.PaymentChannelReady} || e.LaneAllocated? <==> OfChannel(e)
  {
  }

  lemma OnChainOrNot()
    ensures PaymentChannelAllocatingLane !in ON_CHAIN && Ongoing !in ON_CHAIN
  {
  }

  /** In every run of a client: it is marked as waiting for a message on chain exactly in the statuses that wait for one, and
      once a lane was allocated for the deal it pays on that lane and none other. */
  lemma ClientKeepsItsLane(p: Params, totalFunds: int, steps: seq<M.Step>)
    requires Exec(Begin(p, totalFunds), Can, Next, steps).Some?
    ensures var l := Exec(Begin(p, totalFunds), Can, Next, steps).value; Channelled(l.m.cs, l.log)
  {
    var inv := (l: Logged) => Channelled(l.m.cs, l.log);
    assert inv(Begin(p, totalFunds));
    hide Can, Next, Begin, Channelled;
    forall l, s | inv(l) && Can(l, s) ensures inv(Next(l, s)) { StepKeepsChannel(l, s); }
    Invariance(Begin(p, totalFunds), Can, Next, inv, steps);
  }

  lemma StepKeepsChannel(l: Logged, s: M.Step)
    requires Channelled(l.m.cs, l.log)
    ensures Channelled(Next(l, s).m.cs, Next(l, s).log)
  {
    if s.Process? && l.m.queue != [] {
      hide C.Transition, C.Apply, C.Handler, Channelled, C.RunsHandler;
      if !C.Transition(l.m.cs.status, l.m.queue[0]).Invalid? { TakenKeepsChannel(l.m.cs, l.log, l.m.queue[0]); }
    }
  }

  // ---------- The provider ----------

  /** A provider's deal beside the events that it has met. */
  datatype Record = Record(deal: P.ProviderState, met: seq<Met<P.Event>>)

  predicate Any(r: Record, e: P.Event) { true }

  function Sent(r: Record, e: P.Event): Record {
    Record(P.Apply(r.deal, e), r.met + [Met(r.deal.status, e)])
  }

  function Sends(s: Status, e: P.Event): Status {
    if P.Transition(s, e).To? then P.Transition(s, e).status else s
  }

  const LAST: set<Status> := {Errored, Completed, Cancelled}

  const CLOSING: set<Status> := {Failing, Cancelling, Errored, Cancelled}

  /** What a provider's deal makes of an event for good. */
  predicate Heeds(s: Status, x: Met<P.Event>) {
    && (x.e in {P.DataTransferError, P.MultiStoreError} && x.at !in LAST ==> s == Errored)
    && (x.e == P.ClientCancelled && x.at !in LAST ==> s in CLOSING)
    && (x.e == P.SaveVoucherFailed && x.at in {FundsNeeded, FundsNeededLastPayment} ==> s in CLOSING)
    && (x.e == P.Complete && x.at in {BlocksComplete, Finalizing} ==> s in CLOSING + {Completing, Completed})
    && (x == Met(Completing, P.CleanupComplete) ==> s == Completed)
    && (x.at in {Failing, Cancelling} && x.e == P.CancelComplete ==> s == if x.at == Failing then Errored else Cancelled)
    && (x == Met(New, P.DealAccepted) ==> s != New)
    && (x == Met(Ongoing, P.BlocksCompleted) ==> s !in {New, Ongoing, FundsNeeded})
  }

  ghost predicate Saw(met: seq<Met<P.Event>>, at: set<Status>, es: set<P.Event>) {
    exists i :: 0 <= i < |met| && met[i].at in at && met[i].e in es
  }

  /** And what its statuses come from. */
  ghost predicate Accounted(s: Status, met: seq<Met<P.Event>>) {
    && (forall i :: 0 <= i < |met| ==> Heeds(s, met[i]))
    && (s in ACCEPTED ==> Saw(met, {New}, {P.DealAccepted}))
    && (s in OUT ==> Saw(met, {Ongoing}, {P.BlocksCompleted}))
    && (s in {Completing, Completed} ==> Saw(met, {BlocksComplete, Finalizing}, {P.Complete}))
    && (s == Completed ==> Saw(met, {Completing}, {P.CleanupComplete}))
    && (s == Cancelled ==> Saw(met, {Cancelling}, {P.CancelComplete}))
  }

  lemma SawMore(met: seq<Met<P.Event>>, x: Met<P.Event>, at: set<Status>, es: set<P.Event>)
    ensures Saw(met + [x], at, es) <==> Saw(met, at, es) || (x.at in at && x.e in es)
  {
    var met' := met + [x];
    assert met'[|met|] == x && forall i :: 0 <= i < |met| ==> met'[i] == met[i];
    if Saw(met, at, es) { var i :| 0 <= i < |met| && met[i].at in at && met[i].e in es; assert met'[i].at in at && met'[i].e in es; }
  }

  lemma HeededNow(s: Status, e: P.Event)
    ensures Heeds(Sends(s, e), Met(s, e))
  {
  }

  lemma HeededStill(s: Status, e: P.Event, x: Met<P.Event>)
    requires Heeds(s, x)
    ensures Heeds(Sends(s, e), x)
  {
    SendsStay(s, e);
    hide Sends;
  }

  /** Nothing leads back. */
  lemma SendsStay(s: Status, e: P.Event)
    ensures s in LAST ==> Sends(s, e) == s
    ensures s in CLOSING ==> Sends(s, e) in CLOSING
    ensures s in CLOSING + {Completing, Completed} ==> Sends(s, e) in CLOSING + {Completing, Completed}
    ensures s != New ==> Sends(s, e) != New
    ensures s !in {New, Ongoing, FundsNeeded} ==> Sends(s, e) !in {New, Ongoing, FundsNeeded}
  {
    if s in CLOSING { ClosingStays(s, e); }
    if s == Completing { CompletingStays(e); }
    BlocksStayOut(s, e);
    hide P.Transition;
    LastStays(s, e);
  }

  lemma LastStays(s: Status, e: P.Event)
    ensures s in LAST ==> Sends(s, e) == s
  {
  }

  lemma ClosingStays(s: Status, e: P.Event)
    requires s in CLOSING
    ensures Sends(s, e) in CLOSING
  {
  }

  lemma CompletingStays(e: P.Event)
    ensures Sends(Completing, e) in CLOSING + {Completing, Completed}
  {
  }

  lemma BlocksStayOut(s: Status, e: P.Event)
    ensures s != New ==> Sends(s, e) != New
    ensures s !in {New, Ongoing, FundsNeeded} ==> Sends(s, e) !in {New, Ongoing, FundsNeeded}
  {
  }

  const ACCEPTED: set<Status> := {Ongoing, FundsNeeded, BlocksComplete, FundsNeededLastPayment, Finalizing, Completing, Completed}

  const OUT: set<Status> := {BlocksComplete, FundsNeededLastPayment, Finalizing, Completing, Completed}

  /** How those statuses are reached. */
  lemma SendsEnter(s: Status, e: P.Event)
    ensures Sends(s, e) in ACCEPTED ==> s in ACCEPTED || (s == New && e == P.DealAccepted)
    ensures Sends(s, e) in OUT ==> s in OUT || (s == Ongoing && e == P.BlocksCompleted)
    ensures Sends(s, e) in {Completing, Completed} ==> s in {Completing, Completed} || (s in {BlocksComplete, Finalizing} && e == P.Complete)
    ensures Sends(s, e) == Completed ==> s == Completed || (s == Completing && e == P.CleanupComplete)
    ensures Sends(s, e) == Cancelled ==> s == Cancelled || (s == Cancelling && e == P.CancelComplete)
  {
  }

  lemma SentKeepsAccounted(s: Status, met: seq<Met<P.Event>>, e: P.Event)
    requires Accounted(s, met)
    ensures Accounted(Sends(s, e), met + [Met(s, e)])
  {
    hide P.Transition, Sends, Saw, Heeds;
    var met', s' := met + [Met(s, e)], Sends(s, e);
    forall i | 0 <= i < |met'| ensures Heeds(s', met'[i]) {
      if i < |met| { HeededStill(s, e, met[i]); } else { HeededNow(s, e); }
    }
    SendsEnter(s, e);
    SawMore(met, Met(s, e), {New}, {P.DealAccepted});
    SawMore(met, Met(s, e), {Ongoing}, {P.BlocksCompleted});
    SawMore(met, Met(s, e), {BlocksComplete, Finalizing}, {P.Complete});
    SawMore(met, Met(s, e), {Completing}, {P.CleanupComplete});
    SawMore(met, Met(s, e), {Cancelling}, {P.CancelComplete});
  }

  lemma SentStatus(d: P.ProviderState, e: P.Event)
    ensures P.Apply(d, e).status == Sends(d.status, e)
  {
    hide P.Transition, NextInterval;
    assert P.Act(d, e).status == d.status;
  }

  /** Whatever events reach a provider's deal: it is completed exactly when it met the clean-up that follows its completion
      with all blocks out, and cancelled exactly when its cancellation was closed; a lost transfer or store is its end, and
      after a cancellation or a voucher that was not saved it only ever closes. */
  lemma ProviderDealIsAccounted(d: P.ProviderState, events: seq<P.Event>)
    requires d.status == New && Exec(Record(d, []), Any, Sent, events).Some?
    ensures var r := Exec(Record(d, []), Any, Sent, events).value; Accounted(r.deal.status, r.met)
  {
    var inv := (r: Record) => Accounted(r.deal.status, r.met);
    assert inv(Record(d, []));
    hide Accounted, P.Transition, P.Act;
    forall r, e | inv(r) && Any(r, e) ensures inv(Sent(r, e)) {
      SentStatus(r.deal, e);
      SentKeepsAccounted(r.deal.status, r.met, e);
    }
    Invariance(Record(d, []), Any, Sent, inv, events);
  }
}
