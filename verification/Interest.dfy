/** Content this node does not have, by how often other nodes read it (exchange/index.go:584-740). */
module Interest {
  import opened Options
  import opened Buckets
  import opened Links
  import opened Lfu
  import opened LfuIndex
  import LfuRuns
  import Runs

  datatype Item = Item(size: nat, freq: nat)

  type Items = map<string, Item>

  /** Every item is filed under its frequency. */
  function ByFreq(m: Items): Places {
    map k | k in m :: m[k].freq
  }

  // ---------- Loading another node's index ----------

  /** One entry of another node's index: skipped if the content is stored here, else its reads are added. */
  function LoadedOne(m: Items, live: set<string>, k: string, v: Item): Items {
    if k in live then m
    else if k in m then m[k := m[k].(freq := m[k].freq + v.freq)]
    else m[k := v]
  }

  /** All entries of another node's index, together. */
  function Loaded(m: Items, live: set<string>, root: Items): Items {
    map k | k in m.Keys + (root.Keys - live) ::
      if k in m && k in root && k !in live then Item(m[k].size, m[k].freq + root[k].freq)
      else if k in m then m[k] else root[k]
  }

  /** The entries left for later can be added one by one in any order. */
  lemma LoadedStep(m: Items, live: set<string>, root: Items, rest: set<string>, k: string)
    requires k in rest && rest <= root.Keys
    ensures Loaded(m, live, root - (rest - {k})) == LoadedOne(Loaded(m, live, root - rest), live, k, root[k])
  {
    var a, b := Loaded(m, live, root - (rest - {k})), LoadedOne(Loaded(m, live, root - rest), live, k, root[k]);
    assert a.Keys == b.Keys;
    forall x | x in a ensures a[x] == b[x] {
    }
  }

  function ReadsIn(live: set<string>, root: Items, k: string): nat {
    if k in root && k !in live then root[k].freq else 0
  }

  function FreqOf(m: Items, k: string): nat {
    if k in m then m[k].freq else 0
  }

  /** What is done to the list: another node's index is loaded, or an item is dropped. */
  datatype Change = Load(live: set<string>, root: Items) | Drop(key: string)

  function Changed(m: Items, c: Change): Items {
    match c
    case Load(live, root) => Loaded(m, live, root)
    case Drop(key) => m - {key}
  }

  function After(m: Items, changes: seq<Change>): Items {
    if changes == [] then m else Changed(After(m, changes[..|changes| - 1]), changes[|changes| - 1])
  }

  /** The reads loaded for k, while it was not stored here, since it was last dropped. */
  function ReadsSince(changes: seq<Change>, k: string): nat {
    if changes == [] || changes[|changes| - 1] == Drop(k) then 0
    else
      var c := changes[|changes| - 1];
      ReadsSince(changes[..|changes| - 1], k) + if c.Load? then ReadsIn(c.live, c.root, k) else 0
  }

  predicate Loads(c: Change, k: string) {
    c.Load? && k in c.root && k !in c.live
  }

  /** Change i loaded k, and no change since dropped it. */
  predicate LoadedAt(changes: seq<Change>, k: string, i: nat) {
    i < |changes| && Loads(changes[i], k) && forall j :: i < j < |changes| ==> changes[j] != Drop(k)
  }

  lemma LoadedBefore(changes: seq<Change>, k: string, i: nat)
    requires changes != [] && changes[|changes| - 1] != Drop(k) && i < |changes| - 1
    ensures LoadedAt(changes, k, i) <==> LoadedAt(changes[..|changes| - 1], k, i)
  {
    var prior := changes[..|changes| - 1];
    assert forall j :: 0 <= j < |prior| ==> prior[j] == changes[j];
  }

  /** After every run of loads and drops, an item's frequency is the sum of the reads loaded for it, while it
      was not stored here, since it was last dropped, and it is listed exactly when it was loaded since. */
  lemma {:induction false} FrequenciesAddUp(changes: seq<Change>, k: string)
    ensures FreqOf(After(map[], changes), k) == ReadsSince(changes, k)
    ensures k in After(map[], changes) <==> exists i :: LoadedAt(changes, k, i)
  {
    if changes != [] {
      var n := |changes| - 1;
      var prior, c := changes[..n], changes[n];
      FrequenciesAddUp(prior, k);
      if c == Drop(k) {
        forall i: nat ensures !LoadedAt(changes, k, i) { assert i < n ==> changes[n] == Drop(k); }
      } else {
        forall i: nat | i < n ensures LoadedAt(changes, k, i) <==> LoadedAt(prior, k, i) { LoadedBefore(changes, k, i); }
        if k in After(map[], prior) {
          var i :| LoadedAt(prior, k, i);
          assert LoadedAt(changes, k, i);
        }
        if Loads(c, k) { assert LoadedAt(changes, k, n); }
        if i: nat :| LoadedAt(changes, k, i) {
          if i < n { assert LoadedAt(prior, k, i); } else { assert Loads(c, k); }
        }
      }
    }
  }

  // ---------- What to fetch ----------

  /** Nothing that was left out at a pick is read more than what was picked. */
  predicate MostReadFirst(m: Items, picks: seq<string>) {
    && (forall k :: k in picks ==> k in m)
    && (forall i, k :: 0 <= i < |picks| && k in m && k !in picks[..i] ==> m[k].freq <= m[picks[i]].freq)
  }

  /** Picks for an amount of room: the most read first, none after the room is full, everything if it
      never is. */
  predicate Picks(m: Items, room: nat, picks: seq<string>) {
    && Distinct(picks) && MostReadFirst(m, picks)
    && (picks != [] ==> SizeOf(m, picks[..|picks| - 1]) < room)
    && (SizeOf(m, picks) >= room || forall k :: k in m ==> k in picks)
  }

  function ItemSize(m: Items, k: string): nat {
    if k in m then m[k].size else 0
  }

  function SizeOf(m: Items, ks: seq<string>): nat {
    if ks == [] then 0 else SizeOf(m, ks[..|ks| - 1]) + ItemSize(m, ks[|ks| - 1])
  }

  predicate MostRead(m: Items, k: string) {
    k in m && forall k2 :: k2 in m ==> m[k2].freq <= m[k].freq
  }

  /** An item worth replacing content for: none is read more, and some least used ref was read less. */
  predicate Worth(refs: Refs, m: Items, k: string) {
    MostRead(m, k) && exists x :: x in refs && LeastUsed(refs, x) && m[k].freq > refs[x].freq
  }

  datatype Answer = Fetch(picks: seq<string>) | Nothing | NilFront

  /** 2^64, where unsigned subtraction wraps. */
  const WORD: nat := 0x1_0000_0000_0000_0000

  function Sub(a: nat, b: nat): nat {
    (a - b) % WORD
  }

  /** Available: the room left, or none when it is less than the margin between the bounds. */
  function Available(ub: nat, lb: nat, size: nat): nat {
    if Sub(ub, size) < Sub(ub, lb) then 0 else Sub(ub, size)
  }

  /** The room is what is left below the upper bound, and none above the lower bound, exactly as long as
      the size is within the upper bound; beyond it the subtraction wraps. */
  lemma AvailableExactly(ub: nat, lb: nat, size: nat)
    requires lb <= ub < WORD && size < WORD
    ensures Available(ub, lb, size) == (if size <= lb then ub - size else 0) <==> size <= ub
    ensures size > ub ==> Available(ub, lb, size) == WORD - (size - ub) > 0
  {
    assert Sub(ub, lb) == ub - lb;
    if size <= ub {
      assert Sub(ub, size) == ub - size;
    } else {
      assert ub - size == -1 * WORD + (WORD - (size - ub));
      assert Sub(ub, size) == WORD - (size - ub);
    }
  }

  /** An empty index takes any ref, and one above the upper bound makes it look nearly all free. */
  lemma OverfullLooksFree(ub: nat, lb: nat, k: string, size: nat)
    requires 0 < lb <= ub < size < WORD
    ensures var end := Runs.Exec(LfuRuns.Loaded(ub, lb, map[], 0), LfuRuns.Enabled, LfuRuns.Next,
                                 [LfuRuns.Set(k, size, 0, [], 1)]);
            end.Some? && end.value.s.size == size && Available(ub, lb, end.value.s.size) == WORD - (size - ub)
  {
    var start, a := LfuRuns.Loaded(ub, lb, map[], 0), LfuRuns.Set(k, size, 0, [], 1);
    assert LfuRuns.Enabled(start, a) by {
      assert start.s.refs - Elements([]) == map[];
    }
    Runs.ExecExtend(start, LfuRuns.Enabled, LfuRuns.Next, [], a);
    assert [] + [a] == [a];
    AvailableExactly(ub, lb, size);
  }

  // ---------- Steps of a selection ----------

  /** The items read more than id, and those read id times that are done. */
  ghost function Taken(m: Items, id: int, rest: set<string>): set<string> {
    set k | k in m && (m[k].freq > id || (m[k].freq == id && k !in rest))
  }

  /** In the middle of a selection: more room than is picked. */
  ghost predicate Picking(m: Items, id: int, rest: set<string>, room: nat, picks: seq<string>) {
    && Distinct(picks) && Elements(picks) == Taken(m, id, rest) && SizeOf(m, picks) < room
    && MostReadFirst(m, picks)
  }

  lemma SizeOfAppend(m: Items, ks: seq<string>, k: string)
    ensures SizeOf(m, ks + [k]) == SizeOf(m, ks) + ItemSize(m, k)
  {
    assert (ks + [k])[..|ks + [k]| - 1] == ks;
  }

  lemma OrderAppend(m: Items, picks: seq<string>, k: string)
    requires MostReadFirst(m, picks) && k in m
    requires forall x :: x in m && x !in picks ==> m[x].freq <= m[k].freq
    ensures MostReadFirst(m, picks + [k])
  {
    var picks' := picks + [k];
    assert picks'[..|picks|] == picks;
    forall i, x | 0 <= i < |picks'| && x in m && x !in picks'[..i]
      ensures m[x].freq <= m[picks'[i]].freq
    {
      if i < |picks| { assert picks'[..i] == picks[..i]; }
    }
  }

  lemma PicksOne(m: Items, id: int, rest: set<string>, room: nat, picks: seq<string>, k: string)
    requires Picking(m, id, rest, room, picks) && k in rest && rest <= Under(ByFreq(m), id)
    ensures k in m && SizeOf(m, picks + [k]) == SizeOf(m, picks) + m[k].size
    ensures if SizeOf(m, picks + [k]) >= room then Picks(m, room, picks + [k])
            else Picking(m, id, rest - {k}, room, picks + [k])
  {
    hide Distinct, MostReadFirst, SizeOf;
    var picks' := picks + [k];
    assert k in ByFreq(m) && m[k].freq == id;
    SizeOfAppend(m, picks, k);
    assert picks'[..|picks'| - 1] == picks;
    assert forall x :: x in picks <==> x in Taken(m, id, rest) by {
      assert forall x :: x in picks <==> x in Elements(picks);
    }
    DistinctAppend(picks, k);
    OrderAppend(m, picks, k);
    assert Taken(m, id, rest) + {k} == Taken(m, id, rest - {k});
  }

  lemma DistinctAppend(ks: seq<string>, k: string)
    requires Distinct(ks) && k !in ks
    ensures Distinct(ks + [k]) && Elements(ks + [k]) == Elements(ks) + {k}
  {
    assert forall x :: x in ks + [k] <==> x in ks || x == k;
  }

  lemma NothingToPick(m: Items, list: seq<Bucket>, room: nat)
    requires ListOf(list, ByFreq(m)) && list == []
    ensures Picks(m, room, [])
  {
    EndsOfList(list, ByFreq(m));
    assert forall k :: k in m ==> k in ByFreq(m);
  }

  lemma StartsPicking(m: Items, list: seq<Bucket>, room: nat)
    requires ListOf(list, ByFreq(m)) && list != [] && room > 0
    ensures Picking(m, list[|list| - 1].id, list[|list| - 1].keys, room, [])
  {
    EndsOfList(list, ByFreq(m));
    BucketContents(list, ByFreq(m), |list| - 1);
    forall k | k in m ensures k !in Taken(m, list[|list| - 1].id, list[|list| - 1].keys) {
      assert ByFreq(m)[k] == m[k].freq;
    }
  }

  /** From a bucket that is done to the one before it. */
  lemma NextBucket(m: Items, list: seq<Bucket>, b: nat, room: nat, picks: seq<string>)
    requires ListOf(list, ByFreq(m)) && 0 < b < |list| && Picking(m, list[b].id, {}, room, picks)
    ensures Picking(m, list[b - 1].id, list[b - 1].keys, room, picks)
  {
    BucketContents(list, ByFreq(m), b - 1);
    forall k ensures k in Taken(m, list[b].id, {}) <==> k in Taken(m, list[b - 1].id, list[b - 1].keys) {
      if k in m {
        InItsBucket(list, ByFreq(m), k);
        var i :| 0 <= i < |list| && list[i].id == m[k].freq;
        assert i < b ==> i <= b - 1;
      }
    }
    assert Taken(m, list[b].id, {}) == Taken(m, list[b - 1].id, list[b - 1].keys);
  }

  lemma AllPicked(m: Items, list: seq<Bucket>, room: nat, picks: seq<string>)
    requires ListOf(list, ByFreq(m)) && list != [] && Picking(m, list[0].id, {}, room, picks)
    ensures Picks(m, room, picks)
  {
    hide Distinct, MostReadFirst;
    EndsOfList(list, ByFreq(m));
    forall k | k in m ensures k in picks {
      assert ByFreq(m)[k] >= list[0].id;
      assert k in Elements(picks);
    }
    if picks != [] {
      SizeOfAppend(m, picks[..|picks| - 1], picks[|picks| - 1]);
      assert picks == picks[..|picks| - 1] + [picks[|picks| - 1]];
    }
  }

  ghost function Room(index: Index): nat
    reads index
  {
    Available(index.ub, index.lb, index.size)
  }

  lemma FilesSomething(m: Items)
    ensures m == map[] <==> ByFreq(m) == map[]
  {
    assert forall k :: k in m <==> k in ByFreq(m);
  }

  lemma KeepsSomething(m: Refs)
    ensures m == map[] <==> Filing(m) == map[]
  {
    assert forall k :: k in m <==> k in Filing(m);
  }

  lemma LastHoldsSome(list: seq<Bucket>, at: Places)
    requires ListOf(list, at) && list != []
    ensures list[|list| - 1].keys != {}
  {
  }

  lemma LastIsMostRead(m: Items, id: int, k: string)
    requires Greatest(ByFreq(m), id) && k in Under(ByFreq(m), id)
    ensures MostRead(m, k) && m[k].freq == id
  {
    forall x | x in m ensures m[x].freq <= id {
      assert ByFreq(m)[x] <= id;
    }
  }

  // ---------- Steps on the list ----------

  lemma ByFreqWith(m: Items, k: string, v: Item, freq: int)
    requires freq == v.freq
    ensures ByFreq(m[k := v]) == ByFreq(m)[k := freq]
  {
  }

  lemma ByFreqOf(m: Items, k: string)
    ensures k in ByFreq(m) <==> k in m
    ensures k in m ==> ByFreq(m)[k] == m[k].freq
    ensures ByFreq(m - {k}) == ByFreq(m) - {k}
  {
  }

  /** Where the element of a key stands, below a higher number. */
  lemma Standing(l: Linked, node: map<string, Elem>, at: Places, k: string, id: int) returns (i: nat)
    requires Files(l, node, at) && k in at && at[k] < id
    ensures WellLinked(l) && Ascending(View(l)) && On(l, node[k]) && i == PosOf(l.order, node[k])
    ensures node[k] < |l.elems| && i < |l.order| && l.order[i] == node[k]
    ensures forall j :: 0 <= j <= i ==> View(l)[j].id < id
  {
    assert Leads(l, node[k], k, at[k]);
    i := PosOf(l.order, node[k]);
    assert View(l)[i].id == at[k];
  }

  /** A known item looks for the element of its new frequency from its own on, and leaves its own last. */
  method MoveItem(l: Linked, node: map<string, Elem>, ghost at: Places, k: string, freq: int)
    returns (l': Linked, node': map<string, Elem>)
    requires Files(l, node, at) && k in at && at[k] < freq && k in node
    ensures Files(l', node', at[k := freq]) && node'.Keys == node.Keys
  {
    ghost var from := Standing(l, node, at, k, freq);
    hide Files, ListOf, WellLinked, Join, RemEntry, On;
    var l1, e, i := Place(l, Some(node[k]), freq, k, from);
    MoveFiles(l, node, at, k, i, freq);
    l', node' := RemEntry(l1, node[k], k), node[k := e];
  }

  /** The entries of one element, in whatever order they come, until the room is full. */
  method PickEntries(m: Items, entries: set<string>, room: nat, before: seq<string>, sum: nat, ghost id: int)
    returns (picks: seq<string>, added: nat)
    requires entries == Under(ByFreq(m), id) && Picking(m, id, entries, room, before) && sum == SizeOf(m, before) < room
    ensures added == SizeOf(m, picks)
    ensures if added >= room then Picks(m, room, picks) else Picking(m, id, {}, room, picks)
  {
    hide *;
    picks, added := before, sum;
    var rest := entries;
    while rest != {}
      invariant rest <= entries && Picking(m, id, rest, room, picks) && added == SizeOf(m, picks) < room
      decreases |rest|
    {
      var k :| k in rest;
      PicksOne(m, id, rest, room, picks, k);
      picks := picks + [k];
      added := added + m[k].size;
      if added >= room { return; }
      rest := rest - {k};
    }
  }

  /** A walk from the back is at position b of the list, or past its front. */
  ghost predicate Down(l: Linked, list: seq<Bucket>, b: int, place: Option<Elem>) {
    WellLinked(l) && list == View(l) && -1 <= b < |list| && place == if 0 <= b then Some(l.order[b]) else None
  }

  lemma BackDown(l: Linked)
    requires WellLinked(l)
    ensures Down(l, View(l), |View(l)| - 1, Back(l))
  {
  }

  lemma DownElement(l: Linked, list: seq<Bucket>, b: int, place: Option<Elem>)
    requires Down(l, list, b, place) && place.Some?
    ensures 0 <= b < |list| && place.value < |l.elems| && l.elems[place.value] == list[b]
    ensures Down(l, list, b - 1, Prev(l, place.value))
  {
    NextOf(l, b);
  }

  /** What is picked when a walk from the back has come to position b. */
  ghost predicate PickedTo(m: Items, list: seq<Bucket>, b: int, room: nat, picks: seq<string>)
    requires b < |list|
  {
    if 0 <= b then Picking(m, list[b].id, list[b].keys, room, picks) && SizeOf(m, picks) < room else Picks(m, room, picks)
  }

  lemma PickedNone(m: Items, list: seq<Bucket>, room: nat)
    requires ListOf(list, ByFreq(m)) && room > 0
    ensures PickedTo(m, list, |list| - 1, room, [])
  {
    if list == [] {
      NothingToPick(m, list, room);
    } else {
      StartsPicking(m, list, room);
    }
  }

  lemma PickedMore(m: Items, list: seq<Bucket>, b: nat, room: nat, picks: seq<string>)
    requires ListOf(list, ByFreq(m)) && b < |list| && Picking(m, list[b].id, {}, room, picks)
    ensures PickedTo(m, list, b - 1, room, picks)
  {
    if b == 0 {
      AllPicked(m, list, room, picks);
    } else {
      NextBucket(m, list, b, room, picks);
    }
  }

  lemma PickedHere(m: Items, list: seq<Bucket>, b: nat, room: nat, picks: seq<string>)
    requires ListOf(list, ByFreq(m)) && b < |list| && PickedTo(m, list, b, room, picks)
    ensures Picking(m, list[b].id, list[b].keys, room, picks) && SizeOf(m, picks) < room
    ensures list[b].keys == Under(ByFreq(m), list[b].id)
  {
    BucketContents(list, ByFreq(m), b);
  }

  lemma PickedAll(m: Items, l: Linked, list: seq<Bucket>, b: int, room: nat, picks: seq<string>)
    requires Down(l, list, b, None) && PickedTo(m, list, b, room, picks)
    ensures Picks(m, room, picks)
  {
  }

  /** With room: fill it from the most read item down. */
  method Fill(m: Items, l: Linked, room: nat) returns (picks: seq<string>)
    requires WellLinked(l) && ListOf(View(l), ByFreq(m)) && room > 0
    ensures Picks(m, room, picks)
  {
    var added := 0;
    picks := [];
    assert SizeOf(m, picks) == 0;
    ghost var list := View(l);
    hide *;
    PickedNone(m, list, room);
    BackDown(l);
    var place := Back(l);
    ghost var b := |list| - 1;
    while place.Some?
      invariant Down(l, list, b, place) && b < |list| && PickedTo(m, list, b, room, picks) && added == SizeOf(m, picks)
      decreases b
    {
      DownElement(l, list, b, place);
      PickedHere(m, list, b, room, picks);
      picks, added := PickEntries(m, l.elems[place.value].keys, room, picks, added, list[b].id);
      if added >= room { return; }
      PickedMore(m, list, b, room, picks);
      place := Prev(l, place.value);
      b := b - 1;
    }
    PickedAll(m, l, list, b, room, picks);
  }

  /** Without room: one most read item, if it is read more than some ref of the least used bucket. With
      no stored content there is no such bucket, and its front is dereferenced all the same. */
  method Replace(m: Items, freqs: Linked, refs: Refs, blist: Linked) returns (a: Answer)
    requires WellLinked(freqs) && ListOf(View(freqs), ByFreq(m)) && WellLinked(blist) && ListOf(View(blist), Filing(refs))
    ensures a == NilFront <==> m != map[] && refs == map[]
    ensures a.Fetch? ==> |a.picks| == 1 && Worth(refs, m, a.picks[0])
    ensures a.Fetch? ==> exists x :: x in refs && LeastUsed(refs, x) && refs[x].freq < m[a.picks[0]].freq
    ensures a == Nothing ==> forall k :: k in m ==> !Worth(refs, m, k)
    ensures a == Nothing ==> forall k, x :: MostRead(m, k) && LeastUsed(refs, x) ==> m[k].freq <= refs[x].freq
  {
    hide ListOf;
    var e, front := Back(freqs), Front(blist);
    EndsOfList(View(freqs), ByFreq(m));
    EndsOfList(View(blist), Filing(refs));
    FilesSomething(m);
    KeepsSomething(refs);
    if e.None? { return Nothing; }
    if front.None? { return NilFront; }
    BucketContents(View(freqs), ByFreq(m), |freqs.order| - 1);
    BucketContents(View(blist), Filing(refs), 0);
    LastHoldsSome(View(freqs), ByFreq(m));
    a := Compare(m, freqs.elems[e.value], refs, blist.elems[front.value]);
  }

  /** A bucket of items is compared with every ref of a bucket, until one was read less. */
  method Compare(m: Items, entry: Bucket, refs: Refs, front: Bucket) returns (a: Answer)
    requires Greatest(ByFreq(m), entry.id) && entry.keys == Under(ByFreq(m), entry.id) && entry.keys != {}
    requires Least(Filing(refs), front.id) && front.keys == Under(Filing(refs), front.id)
    ensures a != NilFront
    ensures a.Fetch? ==> |a.picks| == 1 && Worth(refs, m, a.picks[0])
    ensures a == Nothing ==> forall k :: k in m ==> !Worth(refs, m, k)
  {
    var rest := front.keys;
    while rest != {}
      invariant rest <= front.keys
      invariant forall x :: x in front.keys - rest ==> x in refs && entry.id <= refs[x].freq
      decreases |rest|
    {
      var x :| x in rest;
      assert x in Filing(refs);
      if entry.id > refs[x].freq {
        var k :| k in entry.keys;
        LastIsMostRead(m, entry.id, k);
        LeastFiled(refs, front.id, x);
        return Fetch([k]);
      }
      rest := rest - {x};
    }
    forall k, x | k in m && x in refs && LeastUsed(refs, x) ensures m[k].freq <= refs[x].freq {
      LeastFiled(refs, front.id, x);
      assert x in Under(Filing(refs), front.id);
      assert ByFreq(m)[k] <= entry.id;
    }
    return Nothing;
  }

  class InterestList {
    var freqs: Linked
    var interest: Items
    /** The list element of every item. */
    var node: map<string, Elem>

    /** The list files the items under their frequencies, and every item leads to the element that holds it
        and bears its frequency. */
    ghost predicate Valid()
      reads this
    {
      Files(freqs, node, ByFreq(interest)) && node.Keys == interest.Keys
    }

    constructor ()
      ensures Valid() && interest == map[]
    {
      freqs, interest, node := EMPTY_LIST, map[], map[];
      new;
      FilesNothing();
      assert ByFreq(map[]) == map[];
    }

    /** One entry: a known item moves up to the element of its new frequency, a new one gets its first. */
    method LoadOne(live: set<string>, k: string, v: Item)
      requires Valid()
      modifies this
      ensures Valid() && interest == LoadedOne(old(interest), live, k, v)
    {
      hide Files, ByFreq;
      if k in live { return; }
      ByFreqOf(interest, k);
      var v' := v;
      if k in interest {
        var nextFreq := interest[k].freq + v.freq;
        if nextFreq == interest[k].freq {
          assert interest[k := interest[k]] == interest;
          return;
        }
        v' := interest[k].(freq := nextFreq);
        freqs, node := MoveItem(freqs, node, ByFreq(interest), k, nextFreq);
      } else {
        freqs, node := Enlist(freqs, node, ByFreq(interest), k, v.freq);
      }
      ByFreqWith(interest, k, v', v'.freq);
      KeysWith(interest, k, v');
      interest := interest[k := v'];
    }

    /** LoadInterest: every entry of the other index, in whatever order it yields them. */
    method LoadInterest(live: set<string>, root: Items)
      requires Valid()
      modifies this
      ensures Valid() && interest == Loaded(old(interest), live, root)
    {
      hide LoadedOne, Files;
      var rest := root.Keys;
      assert Loaded(interest, live, root - rest) == interest;
      while rest != {}
        invariant Valid() && rest <= root.Keys
        invariant interest == Loaded(old(interest), live, root - rest)
        decreases |rest|
      {
        var k :| k in rest;
        LoadedStep(old(interest), live, root, rest, k);
        LoadOne(live, k, root[k]);
        rest := rest - {k};
      }
      assert root - rest == root;
    }

    method DropInterest(k: string) returns (ok: bool)
      requires Valid()
      modifies this
      ensures Valid() && ok == (k in old(interest)) && interest == old(interest) - {k}
    {
      ok := k in interest;
      if !ok { return; }
      ByFreqOf(interest, k);
      RemEntryFiles(freqs, node, ByFreq(interest), k);
      FilesWithout(RemEntry(freqs, node[k], k), node, ByFreq(interest) - {k}, k);
      hide Files, RemEntry, ByFreq;
      freqs := RemEntry(freqs, node[k], k);
      interest, node := interest - {k}, node - {k};
    }

    /** Interesting: what to fetch, given the index of what is stored. */
    method Interesting(index: Index) returns (a: Answer)
      requires Valid() && index.Valid()
      ensures Room(index) > 0 ==> a.Fetch? && Picks(interest, Room(index), a.picks)
      ensures Room(index) == 0 ==> (a == NilFront <==> interest != map[] && index.refs == map[])
      ensures Room(index) == 0 && a.Fetch? ==> |a.picks| == 1 && Worth(index.refs, interest, a.picks[0])
      ensures Room(index) == 0 && a == Nothing ==> forall k :: k in interest ==> !Worth(index.refs, interest, k)
    {
      hide ListOf, WellLinked, Picks, Worth;
      var av := Available(index.ub, index.lb, index.size);
      if av > 0 {
        var picks := Fill(interest, freqs, av);
        return Fetch(picks);
      }
      a := Replace(interest, freqs, index.refs, index.blist);
    }
  }
}
