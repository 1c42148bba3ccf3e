/** The queue of requests to fund payment channels (payments/channel.go:166-334, 437-578, 1403-1460).
    Requests between the same two addresses are merged into one message at a time; the outcome of a
    message arrives later from the chain. */
module FundsQueue {
  import opened Options

  datatype Pair = Pair(from: string, to: string)

  datatype Request = Request(amt: nat, active: bool)

  datatype MsgState = Waiting | Confirmed | Failed

  /** A create or add-funds message, with the requests whose amounts it carries. */
  datatype Msg = Msg(channel: nat, amount: nat, reqs: seq<nat>, state: MsgState)

  datatype ChannelRecord = ChannelRecord(
    pair: Pair,
    outbound: bool,
    settling: bool,
    createMsg: Option<nat>,
    addFundsMsg: Option<nat>,
    amount: int,
    pending: int)

  /** What became of a request: in the queue, in a message, or given up. */
  datatype Fate = Queued(pair: Pair) | Sent(msg: nat) | Dropped

  datatype State = State(
    store: map<nat, ChannelRecord>,
    queues: map<Pair, seq<nat>>,
    reqs: map<nat, Request>,
    msgs: seq<Msg>,
    fate: map<nat, Fate>)

  const EMPTY: State := State(map[], map[], map[], [], map[])

  function Queue(s: State, pair: Pair): seq<nat> {
    if pair in s.queues then s.queues[pair] else []
  }

  predicate IsActive(reqs: map<nat, Request>, id: nat) {
    id in reqs && reqs[id].active
  }

  /** The active requests of a queue, in order. */
  function Active(q: seq<nat>, reqs: map<nat, Request>): (r: seq<nat>)
    ensures |r| <= |q|
  {
    if q == [] then []
    else Active(q[..|q| - 1], reqs) + if IsActive(reqs, q[|q| - 1]) then [q[|q| - 1]] else []
  }

  /** Sum of the amounts of some requests. */
  function Sum(ids: seq<nat>, reqs: map<nat, Request>): nat {
    if ids == [] then 0
    else Sum(ids[..|ids| - 1], reqs) + if ids[|ids| - 1] in reqs then reqs[ids[|ids| - 1]].amt else 0
  }

  /** What the next message between the pair would carry. */
  function Wanted(s: State, pair: Pair): nat {
    Sum(Active(Queue(s, pair), s.reqs), s.reqs)
  }

  /** The requests among ids that are not given up. */
  function Kept(ids: seq<nat>, gone: set<nat>): seq<nat> {
    if ids == [] then []
    else Kept(ids[..|ids| - 1], gone) + if ids[|ids| - 1] in gone then [] else [ids[|ids| - 1]]
  }

  lemma {:induction false} ActiveAgrees(q: seq<nat>, reqs: map<nat, Request>, reqs': map<nat, Request>)
    requires forall id :: id in q ==> (id in reqs <==> id in reqs') && (id in reqs ==> reqs[id] == reqs'[id])
    ensures Active(q, reqs) == Active(q, reqs') && Sum(Active(q, reqs), reqs) == Sum(Active(q, reqs'), reqs')
  {
    if q != [] {
      ActiveAgrees(q[..|q| - 1], reqs, reqs');
      SumAppend(Active(q[..|q| - 1], reqs), q[|q| - 1], reqs);
      SumAppend(Active(q[..|q| - 1], reqs), q[|q| - 1], reqs');
      assert Active(q[..|q| - 1], reqs) + [] == Active(q[..|q| - 1], reqs);
    }
  }

  lemma SumAppend(ids: seq<nat>, id: nat, reqs: map<nat, Request>)
    ensures Sum(ids + [id], reqs) == Sum(ids, reqs) + if id in reqs then reqs[id].amt else 0
  {
    assert (ids + [id])[..|ids + [id]| - 1] == ids;
  }

  /** A request that joins the queue is carried with the others. */
  lemma EnqueuedIsWanted(s: State, pair: Pair, id: nat, amt: nat)
    requires id !in Queue(s, pair)
    ensures Wanted(Enqueued(s, pair, id, amt), pair) == Wanted(s, pair) + amt
  {
    var s' := Enqueued(s, pair, id, amt);
    var q := Queue(s, pair);
    ActiveAgrees(q, s.reqs, s'.reqs);
    assert (q + [id])[..|q + [id]| - 1] == q;
    SumAppend(Active(q, s'.reqs), id, s'.reqs);
  }

  lemma KeptAppend(ids: seq<nat>, id: nat, gone: set<nat>)
    ensures Kept(ids + [id], gone) == Kept(ids, gone) + if id in gone then [] else [id]
  {
    assert (ids + [id])[..|ids + [id]| - 1] == ids;
  }

  /** Cancelled requests are no longer carried, and the others are, in order. */
  lemma {:induction false} CancelledIsKept(q: seq<nat>, s: State, ids: set<nat>)
    ensures Active(q, Cancelled(s, ids).reqs) == Kept(Active(q, s.reqs), ids)
  {
    if q != [] {
      var before, id := q[..|q| - 1], q[|q| - 1];
      CancelledIsKept(before, s, ids);
      KeptAppend(Active(before, s.reqs), id, ids);
      assert Active(before, s.reqs) + [] == Active(before, s.reqs);
    }
  }

  /** Active outbound channel of a pair, as OutboundActiveByFromTo looks for it. */
  predicate IsOpen(rec: ChannelRecord, pair: Pair) {
    rec.outbound && !rec.settling && rec.pair == pair
  }

  function InFlight(rec: ChannelRecord): Option<nat> {
    if rec.createMsg.Some? then rec.createMsg else rec.addFundsMsg
  }

  // ---------- Steps on values ----------

  /** A request was cancelled by its caller. */
  function Cancelled(s: State, ids: set<nat>): State {
    s.(reqs := map id | id in s.reqs :: if id in ids then s.reqs[id].(active := false) else s.reqs[id])
  }

  function Enqueued(s: State, pair: Pair, id: nat, amt: nat): State {
    s.(queues := s.queues[pair := Queue(s, pair) + [id]],
       reqs := s.reqs[id := Request(amt, true)],
       fate := s.fate[id := Queued(pair)])
  }

  /** filterQueue: cancelled requests leave the queue. */
  function Filtered(s: State, pair: Pair): State {
    s.(queues := s.queues[pair := Active(Queue(s, pair), s.reqs)],
       fate := map id | id in s.fate ::
         if s.fate[id] == Queued(pair) && !IsActive(s.reqs, id) then Dropped else s.fate[id])
  }

  /** The queue was processed: it is cleared, and its active requests go where `to` says. */
  function Cleared(s: State, pair: Pair, to: Fate): State {
    s.(queues := s.queues[pair := []],
       fate := map id | id in s.fate ::
         if s.fate[id] == Queued(pair) then (if IsActive(s.reqs, id) then to else Dropped) else s.fate[id])
  }

  /** create: the channel is stored with its message and the amount as pending. */
  function CreateSent(s: State, pair: Pair, id: nat): State {
    var ids := Active(Queue(s, pair), s.reqs);
    var m := |s.msgs|;
    Cleared(s, pair, Sent(m))
      .(store := s.store[id := ChannelRecord(pair, true, false, Some(m), None, 0, Sum(ids, s.reqs))],
        msgs := s.msgs + [Msg(id, Sum(ids, s.reqs), ids, Waiting)])
  }

  /** addFunds on an existing channel. */
  function AddFundsSent(s: State, pair: Pair, id: nat): State
    requires id in s.store
  {
    var ids := Active(Queue(s, pair), s.reqs);
    var m := |s.msgs|;
    Cleared(s, pair, Sent(m))
      .(store := s.store[id := s.store[id].(pending := Sum(ids, s.reqs), addFundsMsg := Some(m))],
        msgs := s.msgs + [Msg(id, Sum(ids, s.reqs), ids, Waiting)])
  }

  /** processQueue: `during` are the requests cancelled between filtering and summing, `pushed`
      whether the message reaches the pool, `newId` the identifier a new channel would get. */
  ghost predicate Processed(s: State, pair: Pair, during: set<nat>, pushed: bool, newId: nat, s': State) {
    var f := Cancelled(Filtered(s, pair), during);
    var amt := Sum(Active(Queue(f, pair), f.reqs), f.reqs);
    if amt == 0 then s' == f
    else if !exists id :: id in f.store && IsOpen(f.store[id], pair) then
      s' == if pushed then CreateSent(f, pair, newId) else Cleared(f, pair, Dropped)
    else
      exists id :: id in f.store && IsOpen(f.store[id], pair) &&
        s' == if InFlight(f.store[id]).Some? then f
              else if pushed then AddFundsSent(f, pair, id)
              else Cleared(f, pair, Dropped)
  }

  /** The chain's verdict on the message in flight on a channel. A failed creation removes the
      channel; a failed deposit forgets the pending amount. */
  function Resolved(s: State, id: nat, ok: bool): State
    requires id in s.store && InFlight(s.store[id]).Some? && InFlight(s.store[id]).value < |s.msgs|
  {
    var rec, m := s.store[id], InFlight(s.store[id]).value;
    var msgs := s.msgs[m := s.msgs[m].(state := if ok then Confirmed else Failed)];
    if rec.createMsg.Some? then
      if ok then s.(msgs := msgs, store := s.store[id := rec.(amount := rec.pending, pending := 0, createMsg := None)])
      else s.(msgs := msgs, store := s.store - {id})
    else
      s.(msgs := msgs,
         store := s.store[id := rec.(amount := if ok then rec.amount + rec.pending else rec.amount,
                                     pending := 0, addFundsMsg := None)])
  }

  // ---------- The payment manager's records, updated in place ----------

  class Payments {
    var store: map<nat, ChannelRecord>
    var queues: map<Pair, seq<nat>>
    var reqs: map<nat, Request>
    var msgs: seq<Msg>
    ghost var fate: map<nat, Fate>

    ghost function View(): State
      reads this
    {
      State(store, queues, reqs, msgs, fate)
    }

    constructor ()
      ensures View() == EMPTY
    {
      store, queues, reqs, msgs, fate := map[], map[], map[], [], map[];
    }

    method Enqueue(pair: Pair, id: nat, amt: nat)
      requires id !in reqs
      modifies this
      ensures View() == Enqueued(old(View()), pair, id, amt)
      ensures id !in old(Queue(View(), pair)) ==> Wanted(View(), pair) == old(Wanted(View(), pair)) + amt
    {
      hide Wanted;
      if id !in Queue(View(), pair) { EnqueuedIsWanted(View(), pair, id, amt); }
      var q := if pair in queues then queues[pair] else [];
      queues := queues[pair := q + [id]];
      reqs := reqs[id := Request(amt, true)];
      fate := fate[id := Queued(pair)];
    }

    method Cancel(ids: set<nat>)
      modifies this
      ensures View() == Cancelled(old(View()), ids)
      ensures forall pair :: Active(Queue(View(), pair), reqs) == Kept(old(Active(Queue(View(), pair), reqs)), ids)
    {
      forall pair ensures Active(Queue(View(), pair), Cancelled(View(), ids).reqs) == Kept(Active(Queue(View(), pair), reqs), ids) {
        CancelledIsKept(Queue(View(), pair), View(), ids);
      }
      reqs := map id | id in reqs :: if id in ids then reqs[id].(active := false) else reqs[id];
    }

    /** filterQueue: compacts the queue in place, then cuts it off. */
    method FilterQueue(pair: Pair)
      modifies this
      ensures View() == Filtered(old(View()), pair)
    {
      var q := if pair in queues then queues[pair] else [];
      ghost var was := q;
      var i := 0;
      for n := 0 to |q|
        invariant 0 <= i <= n && |q| == |was|
        invariant q[..i] == Active(was[..n], reqs) && q[n..] == was[n..]
        invariant View() == old(View())
      {
        var r := q[n];
        assert was[..n + 1][..n] == was[..n] && was[n] == r;
        if IsActive(reqs, r) {
          q := q[i := r];
          assert q[..i + 1] == q[..i] + [r];
          i := i + 1;
        }
      }
      assert was[..|was|] == was;
      queues := queues[pair := q[..i]];
      fate := map id | id in fate ::
        if fate[id] == Queued(pair) && !IsActive(reqs, id) then Dropped else fate[id];
    }

    /** mergedFundsReq.sum, with the requests that are active. */
    method Merge(pair: Pair) returns (amt: nat, ids: seq<nat>)
      ensures ids == Active(Queue(View(), pair), reqs) && amt == Sum(ids, reqs)
    {
      var q := if pair in queues then queues[pair] else [];
      amt, ids := 0, [];
      for n := 0 to |q|
        invariant ids == Active(q[..n], reqs) && amt == Sum(ids, reqs)
      {
        assert q[..n + 1][..n] == q[..n];
        if IsActive(reqs, q[n]) {
          amt := amt + reqs[q[n]].amt;
          assert (ids + [q[n]])[..|ids|] == ids;
          ids := ids + [q[n]];
        }
      }
      assert q[..|q|] == q;
    }

    method FindOpen(pair: Pair) returns (found: Option<nat>)
      ensures found.Some? ==> found.value in store && IsOpen(store[found.value], pair)
      ensures found.None? ==> !exists id :: id in store && IsOpen(store[id], pair)
    {
      var rest := store.Keys;
      while rest != {}
        invariant rest <= store.Keys
        invariant forall id :: id in store && id !in rest ==> !IsOpen(store[id], pair)
        decreases |rest|
      {
        var id :| id in rest;
        if IsOpen(store[id], pair) { return Some(id); }
        rest := rest - {id};
      }
      return None;
    }

    method Clear(pair: Pair, ghost to: Fate)
      modifies this
      ensures View() == Cleared(old(View()), pair, to)
    {
      queues := queues[pair := []];
      fate := map id | id in fate ::
        if fate[id] == Queued(pair) then (if IsActive(reqs, id) then to else Dropped) else fate[id];
    }

    method ProcessQueue(pair: Pair, during: set<nat>, pushed: bool, newId: nat)
      modifies this
      ensures Processed(old(View()), pair, during, pushed, newId, View())
    {
      hide Filtered, Cancelled, Cleared, Sum, Active;
      FilterQueue(pair);
      Cancel(during);
      ghost var f := View();
      var amt, ids := Merge(pair);
      if amt == 0 { return; }
      var found := FindOpen(pair);
      if found.None? {
        if !pushed {
          Clear(pair, Dropped);
          return;
        }
        Clear(pair, Sent(|msgs|));
        store := store[newId := ChannelRecord(pair, true, false, Some(|msgs|), None, 0, amt)];
        msgs := msgs + [Msg(newId, amt, ids, Waiting)];
        ClearedRecords(f, pair, Sent(|f.msgs|));
        assert View() == CreateSent(f, pair, newId);
        return;
      }
      var id := found.value;
      if store[id].createMsg.Some? || store[id].addFundsMsg.Some? { return; }
      if !pushed {
        Clear(pair, Dropped);
        return;
      }
      Clear(pair, Sent(|msgs|));
      ClearedRecords(f, pair, Sent(|f.msgs|));
      store := store[id := store[id].(pending := amt, addFundsMsg := Some(|msgs|))];
      msgs := msgs + [Msg(id, amt, ids, Waiting)];
      assert View() == AddFundsSent(f, pair, id);
    }

    /** waitPaychCreateMsg and waitAddFundsMsg, when the chain has answered. */
    method Resolve(id: nat, ok: bool)
      requires id in store && InFlight(store[id]).Some? && InFlight(store[id]).value < |msgs|
      modifies this
      ensures View() == Resolved(old(View()), id, ok)
    {
      var rec := store[id];
      var m := if rec.createMsg.Some? then rec.createMsg.value else rec.addFundsMsg.value;
      msgs := msgs[m := msgs[m].(state := if ok then Confirmed else Failed)];
      if rec.createMsg.Some? {
        if !ok {
          store := store - {id};
        } else {
          rec := rec.(amount := rec.pending);
          rec := rec.(pending := 0);
          store := store[id := rec.(createMsg := None)];
        }
      } else {
        if ok { rec := rec.(amount := rec.amount + rec.pending); }
        rec := rec.(pending := 0);
        store := store[id := rec.(addFundsMsg := None)];
      }
    }
  }

  lemma ClearedRecords(s: State, pair: Pair, to: Fate)
    ensures var c := Cleared(s, pair, to); c.store == s.store && c.msgs == s.msgs && c.reqs == s.reqs
  {
  }
}
