/** Whole runs of the funds queue: any interleaving of requests, cancellations, queue processing and
    answers from the chain, for all pairs of addresses at once. */
module FundsRuns {
  import opened Options
  import opened FundsQueue
  import opened Runs

  datatype Action =
    | Ask(pair: Pair, id: nat, amt: nat)
    | CancelOne(id: nat)
    | Process(pair: Pair, during: set<nat>, pushed: bool, newId: nat, pick: nat)
    | Answer(id: nat, ok: bool)
    | TrackInbound(id: nat, pair: Pair)

  predicate Unused(s: State, id: nat) {
    id !in s.store && forall m :: 0 <= m < |s.msgs| ==> s.msgs[m].channel != id
  }

  /** Request objects and channel identifiers are new when made; `pick` is the open channel that the
      store finds for the pair, if there is one. */
  predicate Enabled(s: State, a: Action) {
    match a
    case Ask(_, id, _) => id !in s.reqs
    case CancelOne(_) => true
    case Process(pair, _, _, newId, pick) =>
      Unused(s, newId) && (HasOpen(s, pair) ==> pick in s.store && IsOpen(s.store[pick], pair))
    case Answer(id, _) => id in s.store && InFlight(s.store[id]).Some?
    case TrackInbound(id, _) => Unused(s, id)
  }

  predicate HasOpen(s: State, pair: Pair) {
    exists id :: id in s.store && IsOpen(s.store[id], pair)
  }

  function ProcessedWith(s: State, pair: Pair, during: set<nat>, pushed: bool, newId: nat, pick: nat): State {
    var f := Cancelled(Filtered(s, pair), during);
    if Sum(Active(Queue(f, pair), f.reqs), f.reqs) == 0 then f
    else if !HasOpen(s, pair) then
      if pushed then CreateSent(f, pair, newId) else Cleared(f, pair, Dropped)
    else if pick !in s.store then f
    else if InFlight(f.store[pick]).Some? then f
    else if pushed then AddFundsSent(f, pair, pick)
    else Cleared(f, pair, Dropped)
  }

  function Next(s: State, a: Action): State {
    match a
    case Ask(pair, id, amt) => Enqueued(s, pair, id, amt)
    case CancelOne(id) => Cancelled(s, {id})
    case Process(pair, during, pushed, newId, pick) => ProcessedWith(s, pair, during, pushed, newId, pick)
    case Answer(id, ok) =>
      if id in s.store && InFlight(s.store[id]).Some? && InFlight(s.store[id]).value < |s.msgs|
      then Resolved(s, id, ok) else s
    case TrackInbound(id, pair) => s.(store := s.store[id := ChannelRecord(pair, false, false, None, None, 0, 0)])
  }

  /** Every outcome of processQueue is one of these steps. */
  lemma ProcessQueueIsStep(s: State, pair: Pair, during: set<nat>, pushed: bool, newId: nat, s': State)
    requires Processed(s, pair, during, pushed, newId, s') && Unused(s, newId)
    ensures exists pick :: Enabled(s, Process(pair, during, pushed, newId, pick))
                           && s' == Next(s, Process(pair, during, pushed, newId, pick))
  {
    hide Active, Sum;
    var f := Cancelled(Filtered(s, pair), during);
    assert f.store == s.store;
    hide CreateSent, AddFundsSent, Cleared, Filtered, Cancelled, IsOpen, Unused;
    if HasOpen(s, pair) {
      var pick :| pick in s.store && IsOpen(s.store[pick], pair);
      if Sum(Active(Queue(f, pair), f.reqs), f.reqs) != 0 {
        pick :| pick in f.store && IsOpen(f.store[pick], pair) &&
          s' == if InFlight(f.store[pick]).Some? then f
                else if pushed then AddFundsSent(f, pair, pick) else Cleared(f, pair, Dropped);
      }
      assert Enabled(s, Process(pair, during, pushed, newId, pick));
      assert s' == Next(s, Process(pair, during, pushed, newId, pick));
    } else {
      assert Enabled(s, Process(pair, during, pushed, newId, 0));
      assert s' == Next(s, Process(pair, during, pushed, newId, 0));
    }
  }

  // ---------- Channels and messages ----------

  /** Total of the messages sent for a channel that have not failed. */
  function Unfailed(msgs: seq<Msg>, id: nat): nat {
    if msgs == [] then 0
    else
      var m := msgs[|msgs| - 1];
      Unfailed(msgs[..|msgs| - 1], id) + if m.channel == id && m.state != Failed then m.amount else 0
  }

  lemma UnfailedAppend(msgs: seq<Msg>, m: Msg, id: nat)
    ensures Unfailed(msgs + [m], id) == Unfailed(msgs, id) + if m.channel == id && m.state != Failed then m.amount else 0
  {
    assert (msgs + [m])[..|msgs + [m]| - 1] == msgs;
  }

  lemma {:induction false} UnfailedAnswer(msgs: seq<Msg>, m: nat, ok: bool, id: nat)
    requires m < |msgs| && msgs[m].state == Waiting
    ensures Unfailed(msgs[m := msgs[m].(state := if ok then Confirmed else Failed)], id) ==
            Unfailed(msgs, id) - if !ok && msgs[m].channel == id then msgs[m].amount else 0
  {
    var after := msgs[m := msgs[m].(state := if ok then Confirmed else Failed)];
    if m < |msgs| - 1 {
      assert after[..|msgs| - 1] == msgs[..|msgs| - 1][m := after[m]];
      UnfailedAnswer(msgs[..|msgs| - 1], m, ok, id);
    } else {
      assert after[..|msgs| - 1] == msgs[..|msgs| - 1];
    }
  }

  lemma {:induction false} UnfailedNone(msgs: seq<Msg>, id: nat)
    requires forall m :: 0 <= m < |msgs| ==> msgs[m].channel != id
    ensures Unfailed(msgs, id) == 0
  {
    if msgs != [] { UnfailedNone(msgs[..|msgs| - 1], id); }
  }

  /** A record agrees with the messages sent for its channel. */
  ghost predicate RecordOk(msgs: seq<Msg>, id: nat, rec: ChannelRecord) {
    && !rec.settling
    && !(rec.createMsg.Some? && rec.addFundsMsg.Some?)
    && (InFlight(rec).None? ==> rec.pending == 0)
    && (InFlight(rec).Some? ==>
          && InFlight(rec).value < |msgs|
          && var m := msgs[InFlight(rec).value]; m.channel == id && m.state == Waiting && rec.pending == m.amount)
    && (rec.createMsg.Some? ==> rec.amount == 0)
    && rec.amount + rec.pending == Unfailed(msgs, id)
  }

  ghost predicate RecordsOk(store: map<nat, ChannelRecord>, msgs: seq<Msg>) {
    && (forall id :: id in store && store[id].outbound ==> RecordOk(msgs, id, store[id]))
    && (forall id :: id in store && !store[id].outbound ==> InFlight(store[id]).None?)
  }

  /** A message in flight is the one its channel waits for. */
  ghost predicate WaitingOk(store: map<nat, ChannelRecord>, msgs: seq<Msg>) {
    forall m :: 0 <= m < |msgs| && msgs[m].state == Waiting ==>
      msgs[m].channel in store && store[msgs[m].channel].outbound && InFlight(store[msgs[m].channel]) == Some(m)
  }

  predicate SamePair(a: ChannelRecord, b: ChannelRecord) { a.outbound && b.outbound && a.pair == b.pair }

  ghost predicate Unique(store: map<nat, ChannelRecord>) {
    forall i, j :: i in store && j in store && SamePair(store[i], store[j]) ==> i == j
  }

  ghost predicate ChannelsOk(s: State) {
    RecordsOk(s.store, s.msgs) && WaitingOk(s.store, s.msgs) && Unique(s.store)
  }

  /** Sending a message on a channel that waits for none. */
  lemma SendKeepsRecords(store: map<nat, ChannelRecord>, msgs: seq<Msg>, id: nat, rec: ChannelRecord, m: Msg)
    requires RecordsOk(store, msgs) && WaitingOk(store, msgs)
    requires id in store ==> InFlight(store[id]).None?
    requires rec.outbound && InFlight(rec) == Some(|msgs|) && RecordOk(msgs + [m], id, rec)
    requires m.channel == id && m.state == Waiting
    ensures RecordsOk(store[id := rec], msgs + [m]) && WaitingOk(store[id := rec], msgs + [m])
  {
    var store', msgs' := store[id := rec], msgs + [m];
    forall k | k in store' && store'[k].outbound
      ensures RecordOk(msgs', k, store'[k])
    {
      if k != id {
        assert RecordOk(msgs, k, store[k]);
        UnfailedAppend(msgs, m, k);
      }
    }
    hide RecordOk;
    assert forall i :: 0 <= i < |msgs| ==> msgs'[i] == msgs[i];
  }

  lemma CreateKeepsChannels(s: State, pair: Pair, id: nat)
    requires ChannelsOk(s) && Unused(s, id) && !HasOpen(s, pair)
    ensures ChannelsOk(CreateSent(s, pair, id))
  {
    hide Active, Sum;
    var s' := CreateSent(s, pair, id);
    var m, rec := s'.msgs[|s.msgs|], s'.store[id];
    assert s'.msgs == s.msgs + [m] && s'.store == s.store[id := rec];
    UnfailedNone(s.msgs, id);
    UnfailedAppend(s.msgs, m, id);
    assert RecordOk(s.msgs + [m], id, rec);
    SendKeepsRecords(s.store, s.msgs, id, rec, m);
    forall k | k in s.store
      ensures !SamePair(s.store[k], rec)
    {
      assert !IsOpen(s.store[k], pair);
      if s.store[k].outbound { assert RecordOk(s.msgs, k, s.store[k]); }
    }
    hide RecordOk, RecordsOk, WaitingOk, CreateSent;
  }

  lemma AddFundsKeepsChannels(s: State, pair: Pair, id: nat)
    requires ChannelsOk(s) && id in s.store && IsOpen(s.store[id], pair) && InFlight(s.store[id]).None?
    ensures ChannelsOk(AddFundsSent(s, pair, id))
  {
    hide Active, Sum;
    var s' := AddFundsSent(s, pair, id);
    var m, rec := s'.msgs[|s.msgs|], s'.store[id];
    assert s'.msgs == s.msgs + [m] && s'.store == s.store[id := rec];
    assert RecordOk(s.msgs, id, s.store[id]);
    UnfailedAppend(s.msgs, m, id);
    assert RecordOk(s.msgs + [m], id, rec);
    SendKeepsRecords(s.store, s.msgs, id, rec, m);
    hide RecordOk, RecordsOk, WaitingOk, AddFundsSent;
    assert forall k :: k in s.store ==> SamePair(s.store[k], rec) == SamePair(s.store[k], s.store[id]);
  }

  /** The answer settles the one message that its channel waits for. */
  lemma AnswerKeepsOthers(store: map<nat, ChannelRecord>, msgs: seq<Msg>, id: nat, m: nat, ok: bool, k: nat)
    requires RecordsOk(store, msgs) && id in store && store[id].outbound && InFlight(store[id]) == Some(m)
    requires k in store && store[k].outbound && k != id && m < |msgs|
    ensures RecordOk(msgs[m := msgs[m].(state := if ok then Confirmed else Failed)], k, store[k])
  {
    assert RecordOk(msgs, id, store[id]) && RecordOk(msgs, k, store[k]);
    UnfailedAnswer(msgs, m, ok, k);
  }

  lemma AnswerKeepsOwn(msgs: seq<Msg>, id: nat, rec: ChannelRecord, ok: bool)
    requires RecordOk(msgs, id, rec) && InFlight(rec).Some?
    requires rec.createMsg.None? || ok
    ensures var m := InFlight(rec).value;
            RecordOk(msgs[m := msgs[m].(state := if ok then Confirmed else Failed)], id,
                     rec.(amount := if ok then rec.amount + rec.pending else rec.amount, pending := 0,
                          createMsg := None, addFundsMsg := None))
  {
    UnfailedAnswer(msgs, InFlight(rec).value, ok, id);
  }

  lemma AnswerKeepsRecords(s: State, id: nat, ok: bool)
    requires RecordsOk(s.store, s.msgs) && id in s.store && s.store[id].outbound && InFlight(s.store[id]).Some?
    requires InFlight(s.store[id]).value < |s.msgs|
    ensures var s' := Resolved(s, id, ok); RecordsOk(s'.store, s'.msgs)
  {
    var rec, s' := s.store[id], Resolved(s, id, ok);
    var m := InFlight(rec).value;
    assert RecordOk(s.msgs, id, rec);
    if rec.createMsg.None? || ok { AnswerKeepsOwn(s.msgs, id, rec, ok); }
    forall k | k in s'.store && s'.store[k].outbound
      ensures RecordOk(s'.msgs, k, s'.store[k])
    {
      if k != id { AnswerKeepsOthers(s.store, s.msgs, id, m, ok, k); }
    }
    hide RecordOk;
  }

  lemma AnswerKeepsWaiting(s: State, id: nat, ok: bool)
    requires WaitingOk(s.store, s.msgs) && id in s.store && InFlight(s.store[id]).Some?
    requires var m := InFlight(s.store[id]).value; m < |s.msgs| && s.msgs[m].channel == id
    ensures var s' := Resolved(s, id, ok); WaitingOk(s'.store, s'.msgs)
  {
    var s' := Resolved(s, id, ok);
    forall n | 0 <= n < |s'.msgs| && s'.msgs[n].state == Waiting
      ensures s'.msgs[n].channel in s'.store && s'.store[s'.msgs[n].channel].outbound
      ensures InFlight(s'.store[s'.msgs[n].channel]) == Some(n)
    {
      assert s'.msgs[n] == s.msgs[n];
    }
  }

  lemma AnswerKeepsUnique(s: State, id: nat, ok: bool)
    requires Unique(s.store) && id in s.store && InFlight(s.store[id]).Some? && InFlight(s.store[id]).value < |s.msgs|
    ensures Unique(Resolved(s, id, ok).store)
  {
    var s' := Resolved(s, id, ok);
    forall i, j | i in s'.store && j in s'.store && SamePair(s'.store[i], s'.store[j])
      ensures i == j
    {
      assert SamePair(s.store[i], s.store[j]);
    }
  }

  lemma AnswerKeepsChannels(s: State, id: nat, ok: bool)
    requires ChannelsOk(s) && Enabled(s, Answer(id, ok))
    ensures ChannelsOk(Next(s, Answer(id, ok)))
  {
    hide Resolved, Unique, WaitingOk;
    assert s.store[id].outbound && RecordOk(s.msgs, id, s.store[id]);
    hide RecordsOk;
    AnswerKeepsRecords(s, id, ok);
    AnswerKeepsWaiting(s, id, ok);
    AnswerKeepsUnique(s, id, ok);
  }

  // ---------- Requests ----------

  predicate NoDup(ids: seq<nat>) {
    forall i, j :: 0 <= i < j < |ids| ==> ids[i] != ids[j]
  }

  /** The queue of a pair holds exactly the requests whose fate says so. */
  ghost predicate QueueOk(s: State, pair: Pair) {
    && NoDup(Queue(s, pair))
    && (forall id :: id in Queue(s, pair) <==> id in s.fate && s.fate[id] == Queued(pair))
  }

  /** A message carries exactly the requests whose fate says so, and the sum of their amounts. */
  ghost predicate MsgOk(s: State, m: nat)
    requires m < |s.msgs|
  {
    && NoDup(s.msgs[m].reqs)
    && (forall id :: id in s.msgs[m].reqs <==> id in s.fate && s.fate[id] == Sent(m))
    && s.msgs[m].amount == Sum(s.msgs[m].reqs, s.reqs)
  }

  ghost predicate RequestsOk(s: State) {
    && s.fate.Keys == s.reqs.Keys
    && (forall pair :: QueueOk(s, pair))
    && (forall m :: 0 <= m < |s.msgs| ==> MsgOk(s, m))
    && (forall id :: id in s.fate && s.fate[id].Sent? ==> s.fate[id].msg < |s.msgs|)
  }

  lemma {:induction false} ActiveMembers(q: seq<nat>, reqs: map<nat, Request>)
    ensures forall id :: id in Active(q, reqs) <==> id in q && IsActive(reqs, id)
    ensures NoDup(q) ==> NoDup(Active(q, reqs))
  {
    if q != [] {
      var before := q[..|q| - 1];
      ActiveMembers(before, reqs);
      assert q == before + [q[|q| - 1]];
    }
  }

  lemma {:induction false} SumSame(ids: seq<nat>, reqs: map<nat, Request>, reqs': map<nat, Request>)
    requires forall id :: id in ids ==> id in reqs && id in reqs' && reqs[id].amt == reqs'[id].amt
    ensures Sum(ids, reqs) == Sum(ids, reqs')
  {
    if ids != [] { SumSame(ids[..|ids| - 1], reqs, reqs'); }
  }

  lemma AskKeepsRequests(s: State, pair: Pair, id: nat, amt: nat)
    requires RequestsOk(s) && id !in s.reqs
    ensures RequestsOk(Enqueued(s, pair, id, amt))
  {
    var s' := Enqueued(s, pair, id, amt);
    assert id !in s.fate;
    forall p ensures QueueOk(s', p) { assert QueueOk(s, p); }
    forall m | 0 <= m < |s'.msgs| ensures MsgOk(s', m) {
      assert MsgOk(s, m);
      SumSame(s.msgs[m].reqs, s.reqs, s'.reqs);
    }
  }

  lemma CancelKeepsRequests(s: State, ids: set<nat>)
    requires RequestsOk(s)
    ensures RequestsOk(Cancelled(s, ids))
  {
    var s' := Cancelled(s, ids);
    forall p ensures QueueOk(s', p) { assert QueueOk(s, p); }
    forall m | 0 <= m < |s'.msgs| ensures MsgOk(s', m) {
      assert MsgOk(s, m);
      SumSame(s.msgs[m].reqs, s.reqs, s'.reqs);
    }
  }

  lemma FilterKeepsRequests(s: State, pair: Pair)
    requires RequestsOk(s)
    ensures RequestsOk(Filtered(s, pair))
  {
    var s' := Filtered(s, pair);
    assert QueueOk(s, pair);
    ActiveMembers(Queue(s, pair), s.reqs);
    forall p ensures QueueOk(s', p) { assert QueueOk(s, p); }
    forall m | 0 <= m < |s'.msgs| ensures MsgOk(s', m) { assert MsgOk(s, m); }
  }

  lemma DropKeepsRequests(s: State, pair: Pair)
    requires RequestsOk(s)
    ensures RequestsOk(Cleared(s, pair, Dropped))
  {
    var s' := Cleared(s, pair, Dropped);
    forall p ensures QueueOk(s', p) { assert QueueOk(s, p); }
    forall m | 0 <= m < |s'.msgs| ensures MsgOk(s', m) { assert MsgOk(s, m); }
  }

  /** The active requests of the queue go into the new message, and nowhere else. */
  lemma SendKeepsRequests(s: State, pair: Pair, s': State, channel: nat)
    requires RequestsOk(s)
    requires var ids := Active(Queue(s, pair), s.reqs);
             s' == Cleared(s, pair, Sent(|s.msgs|))
                     .(store := s'.store, msgs := s.msgs + [Msg(channel, Sum(ids, s.reqs), ids, Waiting)])
    ensures RequestsOk(s')
  {
    hide Active, Sum;
    var n := |s.msgs|;
    assert QueueOk(s, pair);
    ActiveMembers(Queue(s, pair), s.reqs);
    forall p ensures QueueOk(s', p) { assert QueueOk(s, p); }
    forall m | 0 <= m < |s'.msgs| ensures MsgOk(s', m) {
      if m < n { OldMsgStays(s, pair, s', m); } else { NewMsgOk(s, pair, s', channel); }
    }
  }

  lemma OldMsgStays(s: State, pair: Pair, s': State, m: nat)
    requires RequestsOk(s) && m < |s.msgs|
    requires s'.fate == Cleared(s, pair, Sent(|s.msgs|)).fate && s'.reqs == s.reqs
    requires m < |s'.msgs| && s'.msgs[m] == s.msgs[m]
    ensures MsgOk(s', m)
  {
    hide Sum;
    assert MsgOk(s, m);
    hide QueueOk;
  }

  lemma NewMsgOk(s: State, pair: Pair, s': State, channel: nat)
    requires RequestsOk(s)
    requires s'.fate == Cleared(s, pair, Sent(|s.msgs|)).fate && s'.reqs == s.reqs && |s'.msgs| == |s.msgs| + 1
    requires var ids := Active(Queue(s, pair), s.reqs); s'.msgs[|s.msgs|] == Msg(channel, Sum(ids, s.reqs), ids, Waiting)
    ensures MsgOk(s', |s.msgs|)
  {
    hide Sum, Active;
    assert QueueOk(s, pair);
    ActiveMembers(Queue(s, pair), s.reqs);
    hide MsgOk;
    var n := |s.msgs|;
    assert forall id :: id in s'.fate ==> (s'.fate[id] == Sent(n) <==> s.fate[id] == Queued(pair) && IsActive(s.reqs, id));
    assert NoDup(s'.msgs[n].reqs);
    MsgOkIntro(s', n);
  }

  lemma MsgOkIntro(s: State, m: nat)
    requires m < |s.msgs| && NoDup(s.msgs[m].reqs)
    requires forall id :: id in s.msgs[m].reqs <==> id in s.fate && s.fate[id] == Sent(m)
    requires s.msgs[m].amount == Sum(s.msgs[m].reqs, s.reqs)
    ensures MsgOk(s, m)
  {
    hide Sum;
  }

  // ---------- Runs ----------

  ghost predicate Inv(s: State) { ChannelsOk(s) && RequestsOk(s) }

  lemma QueueStepsKeepChannels(s: State, s': State)
    requires ChannelsOk(s) && s'.store == s.store && s'.msgs == s.msgs
    ensures ChannelsOk(s')
  {
    hide RecordOk;
  }

  lemma ProcessKeepsInv(s: State, pair: Pair, during: set<nat>, pushed: bool, newId: nat, pick: nat)
    requires Inv(s) && Enabled(s, Process(pair, during, pushed, newId, pick))
    ensures Inv(ProcessedWith(s, pair, during, pushed, newId, pick))
  {
    var f := Cancelled(Filtered(s, pair), during);
    assert f.store == s.store && f.msgs == s.msgs;
    FilterKeepsRequests(s, pair);
    CancelKeepsRequests(Filtered(s, pair), during);
    QueueStepsKeepChannels(s, f);
    QueueStepsKeepChannels(f, Cleared(f, pair, Dropped));
    DropKeepsRequests(f, pair);
    if HasOpen(s, pair) {
      if InFlight(f.store[pick]).None? {
        AddFundsKeepsChannels(f, pair, pick);
        SendKeepsRequests(f, pair, AddFundsSent(f, pair, pick), pick);
      }
    } else {
      CreateKeepsChannels(f, pair, newId);
      SendKeepsRequests(f, pair, CreateSent(f, pair, newId), newId);
    }
    hide ChannelsOk, RequestsOk, Active, Sum, Filtered, Cancelled, Cleared, CreateSent, AddFundsSent, Unused;
  }

  lemma StepKeepsInv(s: State, a: Action)
    requires Inv(s) && Enabled(s, a)
    ensures Inv(Next(s, a))
  {
    match a
    case Ask(pair, id, amt) =>
      QueueStepsKeepChannels(s, Next(s, a));
      AskKeepsRequests(s, pair, id, amt);
    case CancelOne(id) =>
      QueueStepsKeepChannels(s, Next(s, a));
      CancelKeepsRequests(s, {id});
    case Process(pair, during, pushed, newId, pick) => ProcessKeepsInv(s, pair, during, pushed, newId, pick);
    case Answer(id, ok) =>
      AnswerKeepsChannels(s, id, ok);
      AnswerKeepsRequests(s, id, ok);
    case TrackInbound(id, pair) => InboundKeepsInv(s, id, pair);
  }

  lemma AnswerKeepsRequests(s: State, id: nat, ok: bool)
    requires RequestsOk(s)
    ensures RequestsOk(Next(s, Answer(id, ok)))
  {
    var s' := Next(s, Answer(id, ok));
    AnswerKeepsLists(s, id, ok);
    hide Next;
    forall p ensures QueueOk(s', p) { assert QueueOk(s, p); }
    forall m | 0 <= m < |s'.msgs| ensures MsgOk(s', m) { assert MsgOk(s, m); }
  }

  /** An answer changes no request, no queue and nothing that a message carries. */
  lemma AnswerKeepsLists(s: State, id: nat, ok: bool)
    ensures var s' := Next(s, Answer(id, ok));
            && s'.reqs == s.reqs && s'.fate == s.fate && (forall p :: Queue(s', p) == Queue(s, p)) && |s'.msgs| == |s.msgs|
            && forall m :: 0 <= m < |s.msgs| ==> s'.msgs[m].reqs == s.msgs[m].reqs && s'.msgs[m].amount == s.msgs[m].amount
  {
  }

  lemma InboundKeepsInv(s: State, id: nat, pair: Pair)
    requires Inv(s) && Unused(s, id)
    ensures Inv(Next(s, TrackInbound(id, pair)))
  {
    var s' := Next(s, TrackInbound(id, pair));
    forall p ensures QueueOk(s', p) { assert QueueOk(s, p); }
    forall m | 0 <= m < |s'.msgs| ensures MsgOk(s', m) { assert MsgOk(s, m); }
    hide RecordOk;
  }

  lemma RunKeepsInv(acts: seq<Action>)
    requires Exec(EMPTY, Enabled, Next, acts).Some?
    ensures Inv(Exec(EMPTY, Enabled, Next, acts).value)
  {
    forall p ensures QueueOk(EMPTY, p) { }
    assert Inv(EMPTY);
    hide Inv, Next, Enabled;
    forall s, a | Inv(s) && Enabled(s, a) ensures Inv(Next(s, a)) { StepKeepsInv(s, a); }
    Invariance(EMPTY, Enabled, Next, Inv, acts);
  }

  // ---------- Theorems ----------

  /** In every run there is at most one outbound channel between two addresses, at most one message
      in flight between them, and every channel's confirmed and pending amounts add up to the messages
      sent for it that have not failed. */
  lemma OneChannelOneMessage(acts: seq<Action>)
    requires Exec(EMPTY, Enabled, Next, acts).Some?
    ensures var s := Exec(EMPTY, Enabled, Next, acts).value;
            && (forall i, j :: i in s.store && j in s.store && SamePair(s.store[i], s.store[j]) ==> i == j)
            && (forall m, n :: 0 <= m < |s.msgs| && 0 <= n < |s.msgs| && s.msgs[m].state == s.msgs[n].state == Waiting ==>
                  && s.msgs[m].channel in s.store && s.msgs[n].channel in s.store
                  && (s.store[s.msgs[m].channel].pair == s.store[s.msgs[n].channel].pair ==> m == n))
            && (forall id :: id in s.store && s.store[id].outbound ==>
                  s.store[id].amount + s.store[id].pending == Unfailed(s.msgs, id))
  {
    hide Next, Enabled;
    RunKeepsInv(acts);
    var s := Exec(EMPTY, Enabled, Next, acts).value;
    hide RequestsOk;
    forall id | id in s.store && s.store[id].outbound
      ensures s.store[id].amount + s.store[id].pending == Unfailed(s.msgs, id)
    {
      assert RecordOk(s.msgs, id, s.store[id]);
    }
  }

  /** In every run each request is in one queue, in one message, or given up: no amount is sent twice,
      none is sent while still queued, and every message carries exactly its requests' amounts. */
  lemma EachRequestSentOnce(acts: seq<Action>)
    requires Exec(EMPTY, Enabled, Next, acts).Some?
    ensures var s := Exec(EMPTY, Enabled, Next, acts).value;
            && (forall m, n, id :: 0 <= m < |s.msgs| && 0 <= n < |s.msgs| && id in s.msgs[m].reqs && id in s.msgs[n].reqs ==> m == n)
            && (forall m, pair, id :: 0 <= m < |s.msgs| && id in s.msgs[m].reqs ==> id !in Queue(s, pair))
            && (forall m :: 0 <= m < |s.msgs| ==> NoDup(s.msgs[m].reqs) && s.msgs[m].amount == Sum(s.msgs[m].reqs, s.reqs))
            && (forall pair :: NoDup(Queue(s, pair)))
            && (forall pair, pair', id :: id in Queue(s, pair) && id in Queue(s, pair') ==> pair == pair')
  {
    hide Next, Enabled, Sum, Queue, Inv;
    RunKeepsInv(acts);
    RequestsApart(Exec(EMPTY, Enabled, Next, acts).value);
  }

  lemma RequestsApart(s: State)
    requires Inv(s)
    ensures forall m, n, id :: 0 <= m < |s.msgs| && 0 <= n < |s.msgs| && id in s.msgs[m].reqs && id in s.msgs[n].reqs ==> m == n
    ensures forall m, pair, id :: 0 <= m < |s.msgs| && id in s.msgs[m].reqs ==> id !in Queue(s, pair)
    ensures forall m :: 0 <= m < |s.msgs| ==> NoDup(s.msgs[m].reqs) && s.msgs[m].amount == Sum(s.msgs[m].reqs, s.reqs)
    ensures forall pair :: NoDup(Queue(s, pair))
    ensures forall pair, pair', id :: id in Queue(s, pair) && id in Queue(s, pair') ==> pair == pair'
  {
    hide Sum, Queue, ChannelsOk;
    forall m, n, id | 0 <= m < |s.msgs| && 0 <= n < |s.msgs| && id in s.msgs[m].reqs && id in s.msgs[n].reqs
      ensures m == n
    {
      assert MsgOk(s, m) && MsgOk(s, n);
    }
    forall m, pair, id | 0 <= m < |s.msgs| && id in s.msgs[m].reqs
      ensures id !in Queue(s, pair)
    {
      assert MsgOk(s, m) && QueueOk(s, pair);
    }
    forall m | 0 <= m < |s.msgs|
      ensures NoDup(s.msgs[m].reqs) && s.msgs[m].amount == Sum(s.msgs[m].reqs, s.reqs)
    {
      assert MsgOk(s, m);
    }
    forall pair ensures NoDup(Queue(s, pair)) { assert QueueOk(s, pair); }
    forall pair, pair', id | id in Queue(s, pair) && id in Queue(s, pair')
      ensures pair == pair'
    {
      assert QueueOk(s, pair) && QueueOk(s, pair');
    }
  }
}
