/** What failed messages leave behind: an outbound channel is recorded exactly while a message for it has not failed, and a
    creation that failed is followed by another one (payments/channel.go:437-578). */
module FundsFailures {
  import opened Options
  import opened FundsQueue
  import opened FundsRuns
  import opened Runs

  /** Some message for the channel has not failed. */
  ghost predicate Lives(msgs: seq<Msg>, id: nat) {
    exists m :: 0 <= m < |msgs| && msgs[m].channel == id && msgs[m].state != Failed
  }

  ghost predicate IsConfirmed(msgs: seq<Msg>, id: nat) {
    exists m :: 0 <= m < |msgs| && msgs[m].channel == id && msgs[m].state == Confirmed
  }

  predicate Only(msgs: seq<Msg>, id: nat, m: nat) {
    forall n :: 0 <= n < |msgs| && msgs[n].channel == id ==> n == m
  }

  /** A channel waits for its creation, which is the only message for it, or has a confirmed one. */
  ghost predicate Made(msgs: seq<Msg>, id: nat, rec: ChannelRecord) {
    if rec.createMsg.Some? then Only(msgs, id, rec.createMsg.value) else IsConfirmed(msgs, id)
  }

  ghost predicate Backed(s: State) {
    && (forall id :: id in s.store && s.store[id].outbound ==> Made(s.msgs, id, s.store[id]))
    && (forall m :: 0 <= m < |s.msgs| && s.msgs[m].state == Confirmed ==>
          s.msgs[m].channel in s.store && s.store[s.msgs[m].channel].outbound && s.store[s.msgs[m].channel].createMsg.None?)
  }

  // ---------- Steps ----------

  lemma SendKeepsMade(msgs: seq<Msg>, m: Msg, id: nat, rec: ChannelRecord)
    requires Made(msgs, id, rec) && (rec.createMsg.Some? ==> m.channel != id)
    ensures Made(msgs + [m], id, rec)
  {
    var msgs' := msgs + [m];
    assert forall i :: 0 <= i < |msgs| ==> msgs'[i] == msgs[i];
    if rec.createMsg.None? {
      var i :| 0 <= i < |msgs| && msgs[i].channel == id && msgs[i].state == Confirmed;
      assert msgs'[i].channel == id && msgs'[i].state == Confirmed;
    }
  }

  lemma CreateKeepsBacked(s: State, pair: Pair, id: nat)
    requires Backed(s) && Unused(s, id)
    ensures Backed(CreateSent(s, pair, id))
  {
    hide Active, Sum, Made;
    var s' := CreateSent(s, pair, id);
    var m := s'.msgs[|s.msgs|];
    assert s'.msgs == s.msgs + [m] && m.channel == id && m.state == Waiting;
    assert forall i :: 0 <= i < |s.msgs| ==> s'.msgs[i] == s.msgs[i];
    forall k | k in s'.store && s'.store[k].outbound ensures Made(s'.msgs, k, s'.store[k]) {
      if k == id { CreationIsOnly(s.msgs, m, id, s'.store[id]); } else { SendKeepsMade(s.msgs, m, k, s.store[k]); }
    }
  }

  lemma CreationIsOnly(msgs: seq<Msg>, m: Msg, id: nat, rec: ChannelRecord)
    requires rec.createMsg == Some(|msgs|) && forall n :: 0 <= n < |msgs| ==> msgs[n].channel != id
    ensures Made(msgs + [m], id, rec)
  {
  }

  lemma AddFundsKeepsBacked(s: State, pair: Pair, id: nat)
    requires Backed(s) && id in s.store && s.store[id].outbound && InFlight(s.store[id]).None?
    ensures Backed(AddFundsSent(s, pair, id))
  {
    hide Active, Sum, Made;
    var s' := AddFundsSent(s, pair, id);
    var m := s'.msgs[|s.msgs|];
    assert s'.msgs == s.msgs + [m] && m.channel == id && m.state == Waiting;
    assert forall i :: 0 <= i < |s.msgs| ==> s'.msgs[i] == s.msgs[i];
    forall k | k in s'.store && s'.store[k].outbound ensures Made(s'.msgs, k, s'.store[k]) {
      SendKeepsMade(s.msgs, m, k, s.store[k]);
      if k == id { SameMade(s'.msgs, id, s.store[id], s'.store[id]); }
    }
  }

  lemma SameMade(msgs: seq<Msg>, id: nat, rec: ChannelRecord, rec': ChannelRecord)
    requires Made(msgs, id, rec) && rec'.createMsg == rec.createMsg
    ensures Made(msgs, id, rec')
  {
  }

  /** The answer to the message that a channel waits for. */
  lemma AnswerKeepsBacked(s: State, id: nat, ok: bool)
    requires Backed(s) && ChannelsOk(s) && Enabled(s, Answer(id, ok))
    ensures Backed(Next(s, Answer(id, ok)))
  {
    var rec, s' := s.store[id], Next(s, Answer(id, ok));
    assert RecordOk(s.msgs, id, rec);
    var m := InFlight(rec).value;
    assert s'.msgs == s.msgs[m := s.msgs[m].(state := if ok then Confirmed else Failed)];
    hide RecordsOk, WaitingOk, Unique, RecordOk, Made;
    forall k | k in s'.store && s'.store[k].outbound ensures Made(s'.msgs, k, s'.store[k]) {
      assert Made(s.msgs, k, s.store[k]);
      AnswerKeepsMade(s.msgs, m, ok, id, k, s.store[k], s'.store[k]);
    }
    forall n | 0 <= n < |s'.msgs| && s'.msgs[n].state == Confirmed
      ensures var c := s'.msgs[n].channel; c in s'.store && s'.store[c].outbound && s'.store[c].createMsg.None?
    {
      assert n != m ==> s'.msgs[n] == s.msgs[n];
    }
  }

  lemma AnswerKeepsMade(msgs: seq<Msg>, m: nat, ok: bool, id: nat, k: nat, rec: ChannelRecord, rec': ChannelRecord)
    requires Made(msgs, k, rec) && m < |msgs| && msgs[m].state == Waiting && msgs[m].channel == id
    requires rec'.createMsg == if k == id then None else rec.createMsg
    requires k == id && rec.createMsg.Some? ==> ok
    ensures Made(msgs[m := msgs[m].(state := if ok then Confirmed else Failed)], k, rec')
  {
    var msgs' := msgs[m := msgs[m].(state := if ok then Confirmed else Failed)];
    if rec'.createMsg.None? {
      if rec.createMsg.Some? {
        assert msgs'[m].channel == k && msgs'[m].state == Confirmed;
      } else {
        var i :| 0 <= i < |msgs| && msgs[i].channel == k && msgs[i].state == Confirmed;
        assert msgs'[i].channel == k && msgs'[i].state == Confirmed;
      }
    }
  }

  lemma StepKeepsBacked(s: State, a: Action)
    requires Inv(s) && Backed(s) && Enabled(s, a)
    ensures Backed(Next(s, a))
  {
    match a
    case Process(pair, during, pushed, newId, pick) =>
      var f := Cancelled(Filtered(s, pair), during);
      assert f.store == s.store && f.msgs == s.msgs && Cleared(f, pair, Dropped).store == s.store && Cleared(f, pair, Dropped).msgs == s.msgs;
      assert Backed(f) && Backed(Cleared(f, pair, Dropped));
      if HasOpen(s, pair) {
        if InFlight(f.store[pick]).None? { AddFundsKeepsBacked(f, pair, pick); }
      } else {
        CreateKeepsBacked(f, pair, newId);
      }
      hide Backed, Inv, Sum, Active, Filtered, Cancelled, Cleared, CreateSent, AddFundsSent, Unused;
    case Answer(id, ok) => AnswerKeepsBacked(s, id, ok);
    case TrackInbound(id, pair) => hide Made;
    case _ =>
  }

  lemma RunKeepsBacked(acts: seq<Action>)
    requires Exec(EMPTY, Enabled, Next, acts).Some?
    ensures Inv(Exec(EMPTY, Enabled, Next, acts).value) && Backed(Exec(EMPTY, Enabled, Next, acts).value)
  {
    RunKeepsInv([]);
    assert Exec(EMPTY, Enabled, Next, []) == Some(EMPTY) && Backed(EMPTY);
    hide Inv, Next, Enabled, Backed;
    forall s, a | Inv(s) && Backed(s) && Enabled(s, a) ensures Inv(Next(s, a)) && Backed(Next(s, a)) {
      StepKeepsInv(s, a);
      StepKeepsBacked(s, a);
    }
    Invariance(EMPTY, Enabled, Next, s => Inv(s) && Backed(s), acts);
  }

  // ---------- Theorems ----------

  /** In every run an outbound channel is recorded exactly while some message for it has not failed, and is past its
      creation exactly when one was confirmed. */
  lemma RecordedExactly(acts: seq<Action>, id: nat)
    requires Exec(EMPTY, Enabled, Next, acts).Some?
    ensures var s := Exec(EMPTY, Enabled, Next, acts).value;
            && (id in s.store && s.store[id].outbound <==> Lives(s.msgs, id))
            && (id in s.store && s.store[id].outbound && s.store[id].createMsg.None? <==> IsConfirmed(s.msgs, id))
  {
    hide Next, Enabled;
    RunKeepsBacked(acts);
    LivesExactly(Exec(EMPTY, Enabled, Next, acts).value, id);
  }

  lemma LivesExactly(s: State, id: nat)
    requires Inv(s) && Backed(s)
    ensures id in s.store && s.store[id].outbound <==> Lives(s.msgs, id)
    ensures id in s.store && s.store[id].outbound && s.store[id].createMsg.None? <==> IsConfirmed(s.msgs, id)
  {
    assert ChannelsOk(s);
    hide RequestsOk, Unique;
    if id in s.store && s.store[id].outbound {
      var rec := s.store[id];
      assert Made(s.msgs, id, rec) && RecordOk(s.msgs, id, rec);
      if rec.createMsg.Some? {
        var m := rec.createMsg.value;
        assert s.msgs[m].channel == id && s.msgs[m].state == Waiting;
      } else {
        var m :| 0 <= m < |s.msgs| && s.msgs[m].channel == id && s.msgs[m].state == Confirmed;
      }
    }
    hide RecordsOk;
    if Lives(s.msgs, id) {
      var m :| 0 <= m < |s.msgs| && s.msgs[m].channel == id && s.msgs[m].state != Failed;
    }
  }

  /** The amounts that the next message of a pair carries, with some requests cancelled meanwhile. */
  function Carried(s: State, pair: Pair, during: set<nat>): seq<nat> {
    Kept(Active(Queue(s, pair), s.reqs), during)
  }

  lemma {:induction false} ActiveTwice(q: seq<nat>, reqs: map<nat, Request>)
    ensures Active(Active(q, reqs), reqs) == Active(q, reqs)
  {
    if q != [] {
      var before, id := Active(q[..|q| - 1], reqs), q[|q| - 1];
      ActiveTwice(q[..|q| - 1], reqs);
      if IsActive(reqs, id) { assert (before + [id])[..|before + [id]| - 1] == before; } else { assert before + [] == before; }
    }
  }

  lemma {:induction false} SumKeepsAmounts(ids: seq<nat>, s: State, gone: set<nat>)
    ensures Sum(ids, Cancelled(s, gone).reqs) == Sum(ids, s.reqs)
  {
    if ids != [] { SumKeepsAmounts(ids[..|ids| - 1], s, gone); }
  }

  lemma CarriedIs(s: State, pair: Pair, during: set<nat>)
    ensures var f := Cancelled(Filtered(s, pair), during);
            Active(Queue(f, pair), f.reqs) == Carried(s, pair, during) && Sum(Carried(s, pair, during), f.reqs) == Sum(Carried(s, pair, during), s.reqs)
  {
    var g := Filtered(s, pair);
    ActiveTwice(Queue(s, pair), s.reqs);
    CancelledIsKept(Queue(g, pair), g, during);
    SumKeepsAmounts(Carried(s, pair, during), g, during);
  }

  /** After a creation failed there is no channel for its pair, and the next processing that has an amount to send, and whose
      message reaches the pool, creates one for all of it. */
  lemma FailedCreationIsRepeated(acts: seq<Action>, id: nat, during: set<nat>, newId: nat, pick: nat)
    requires Exec(EMPTY, Enabled, Next, acts).Some?
    requires var s := Exec(EMPTY, Enabled, Next, acts).value; Enabled(s, Answer(id, false)) && s.store[id].createMsg.Some?
    ensures var s := Exec(EMPTY, Enabled, Next, acts).value;
            var s', pair := Next(s, Answer(id, false)), s.store[id].pair;
            && id !in s'.store && !HasOpen(s', pair) && !Lives(s'.msgs, id)
            && var amount := Sum(Carried(s', pair, during), s'.reqs);
               var s'' := Next(s', Process(pair, during, true, newId, pick));
               amount > 0 ==>
                 && s''.store == s'.store[newId := ChannelRecord(pair, true, false, Some(|s'.msgs|), None, 0, amount)]
                 && s''.msgs == s'.msgs + [Msg(newId, amount, Carried(s', pair, during), Waiting)]
                 && Queue(s'', pair) == []
  {
    var s := Exec(EMPTY, Enabled, Next, acts).value;
    var s', pair := Next(s, Answer(id, false)), s.store[id].pair;
    RunKeepsBacked(acts);
    StepKeepsInv(s, Answer(id, false));
    StepKeepsBacked(s, Answer(id, false));
    CreationGone(s, id);
    LivesExactly(s', id);
    CarriedIs(s', pair, during);
    hide *;
    if Sum(Carried(s', pair, during), s'.reqs) > 0 { CreatesNext(s', pair, during, newId, pick); }
  }

  lemma CreationGone(s: State, id: nat)
    requires Inv(s) && Enabled(s, Answer(id, false)) && s.store[id].createMsg.Some?
    ensures var s' := Next(s, Answer(id, false)); id !in s'.store && !HasOpen(s', s.store[id].pair)
  {
    assert ChannelsOk(s) && s.store[id].outbound && RecordOk(s.msgs, id, s.store[id]);
    hide RequestsOk, RecordsOk, RecordOk, WaitingOk;
    var s' := Next(s, Answer(id, false));
    assert s'.store == s.store - {id};
    forall k | k in s'.store ensures !IsOpen(s'.store[k], s.store[id].pair) {
      assert SamePair(s.store[k], s.store[id]) ==> k == id;
    }
  }

  /** Without an open channel a message that reaches the pool creates one. */
  lemma CreatesNext(s: State, pair: Pair, during: set<nat>, newId: nat, pick: nat)
    requires !HasOpen(s, pair) && Sum(Carried(s, pair, during), s.reqs) > 0
    requires var f := Cancelled(Filtered(s, pair), during);
             Active(Queue(f, pair), f.reqs) == Carried(s, pair, during) && Sum(Carried(s, pair, during), f.reqs) == Sum(Carried(s, pair, during), s.reqs)
    ensures var s', amount := Next(s, Process(pair, during, true, newId, pick)), Sum(Carried(s, pair, during), s.reqs);
            && s'.store == s.store[newId := ChannelRecord(pair, true, false, Some(|s.msgs|), None, 0, amount)]
            && s'.msgs == s.msgs + [Msg(newId, amount, Carried(s, pair, during), Waiting)]
            && Queue(s', pair) == []
  {
    hide Sum, Active, Carried;
  }

  /** What processing a queue does: with nothing to carry, or a message of the pair in flight, no message is sent and the
      same requests stay to be carried, in order; otherwise the queue is emptied, and one message carries them all, to the
      open channel or a new one, unless it does not reach the pool. Other queues stay as they are. */
  lemma ProcessedExactly(s: State, pair: Pair, during: set<nat>, pushed: bool, newId: nat, pick: nat)
    requires Enabled(s, Process(pair, during, pushed, newId, pick))
    ensures var s', ids := Next(s, Process(pair, during, pushed, newId, pick)), Carried(s, pair, during);
            var amount, open := Sum(ids, s.reqs), HasOpen(s, pair);
            && (amount == 0 || (open && InFlight(s.store[pick]).Some?) ==>
                  s'.msgs == s.msgs && s'.store == s.store && Active(Queue(s', pair), s'.reqs) == ids)
            && (amount > 0 && !(open && InFlight(s.store[pick]).Some?) ==>
                  && Queue(s', pair) == []
                  && s'.msgs == s.msgs + (if pushed then [Msg(if open then pick else newId, amount, ids, Waiting)] else [])
                  && (!pushed ==> s'.store == s.store))
            && forall other :: other != pair ==> Queue(s', other) == Queue(s, other)
  {
    var f := Cancelled(Filtered(s, pair), during);
    CarriedIs(s, pair, during);
    assert f.store == s.store && f.msgs == s.msgs && forall other :: other != pair ==> Queue(f, other) == Queue(s, other);
    assert s.msgs + [] == s.msgs;
    hide Sum, Active, Carried, Filtered, Cancelled, Unused;
  }
}
