/** Doubly linked lists of buckets, as Go's container/list keeps them: an element has an identity of its own,
    others may hold on to it, and once removed it belongs to no list and leads nowhere. */
module Links {
  import opened Options
  import opened Buckets

  type Elem = nat

  /** Every element ever made has a number and a bucket; the list is the elements on it, in order. */
  datatype Linked = Linked(order: seq<Elem>, elems: seq<Bucket>)

  const EMPTY_LIST: Linked := Linked([], [])

  predicate On(l: Linked, e: Elem) { e in l.order }

  predicate WellLinked(l: Linked) {
    Distinct(l.order) && forall i :: 0 <= i < |l.order| ==> l.order[i] < |l.elems|
  }

  /** The buckets on the list, in order. */
  function View(l: Linked): (list: seq<Bucket>)
    requires WellLinked(l)
    ensures |list| == |l.order| && forall i :: 0 <= i < |list| ==> list[i] == l.elems[l.order[i]]
  {
    seq(|l.order|, i requires 0 <= i < |l.order| => l.elems[l.order[i]])
  }

  // ---------- The operations of container/list ----------

  function Front(l: Linked): Option<Elem> {
    if l.order == [] then None else Some(l.order[0])
  }

  function Back(l: Linked): Option<Elem> {
    if l.order == [] then None else Some(l.order[|l.order| - 1])
  }

  function PosOf(order: seq<Elem>, e: Elem): (i: nat)
    requires e in order
    ensures i < |order| && order[i] == e
  {
    if order[0] == e then 0 else 1 + PosOf(order[1..], e)
  }

  /** The element after e; none after the last, and none after an element that is on no list. */
  function Next(l: Linked, e: Elem): Option<Elem> {
    if !On(l, e) then None
    else
      var i := PosOf(l.order, e);
      if i + 1 < |l.order| then Some(l.order[i + 1]) else None
  }

  function Prev(l: Linked, e: Elem): Option<Elem> {
    if !On(l, e) then None
    else
      var i := PosOf(l.order, e);
      if 0 < i then Some(l.order[i - 1]) else None
  }

  /** A new element at position i. */
  function InsertNew(l: Linked, i: nat, b: Bucket): Linked
    requires i <= |l.order|
  {
    Linked(l.order[..i] + [|l.elems|] + l.order[i..], l.elems + [b])
  }

  function PushFront(l: Linked, b: Bucket): (Linked, Option<Elem>) {
    (InsertNew(l, 0, b), Some(|l.elems|))
  }

  function PushBack(l: Linked, b: Bucket): (Linked, Option<Elem>) {
    (InsertNew(l, |l.order|, b), Some(|l.elems|))
  }

  /** Nothing is inserted, and nothing returned, beside an element that is on no list. */
  function InsertAfter(l: Linked, b: Bucket, mark: Elem): (Linked, Option<Elem>) {
    if On(l, mark) then (InsertNew(l, PosOf(l.order, mark) + 1, b), Some(|l.elems|)) else (l, None)
  }

  function InsertBefore(l: Linked, b: Bucket, mark: Elem): (Linked, Option<Elem>) {
    if On(l, mark) then (InsertNew(l, PosOf(l.order, mark), b), Some(|l.elems|)) else (l, None)
  }

  function Remove(l: Linked, e: Elem): Linked {
    if On(l, e) then
      var i := PosOf(l.order, e);
      l.(order := l.order[..i] + l.order[i + 1..])
    else l
  }

  // ---------- Entries ----------

  function Put(l: Linked, e: Elem, k: string): Linked
    requires e < |l.elems|
  {
    l.(elems := l.elems[e := Bucket(l.elems[e].id, l.elems[e].keys + {k})])
  }

  function Take(l: Linked, e: Elem, k: string): Linked
    requires e < |l.elems|
  {
    l.(elems := l.elems[e := Bucket(l.elems[e].id, l.elems[e].keys - {k})])
  }

  /** remBlistEntry and remFreqEntry: an entry leaves, and an element left empty leaves the list. */
  function RemEntry(l: Linked, e: Elem, k: string): (r: Linked)
    requires e < |l.elems|
    ensures |r.elems| == |l.elems|
  {
    var taken := Take(l, e, k);
    if taken.elems[e].keys == {} then Remove(taken, e) else taken
  }

  // ---------- What they do to the view ----------

  lemma PosUnique(l: Linked, i: nat)
    requires WellLinked(l) && i < |l.order|
    ensures On(l, l.order[i]) && PosOf(l.order, l.order[i]) == i && l.order[i] < |l.elems|
  {
  }

  lemma NextOf(l: Linked, i: nat)
    requires WellLinked(l) && i < |l.order|
    ensures Next(l, l.order[i]) == if i + 1 < |l.order| then Some(l.order[i + 1]) else None
    ensures Prev(l, l.order[i]) == if 0 < i then Some(l.order[i - 1]) else None
  {
    PosUnique(l, i);
  }

  /** One element more, or one less, in a sequence without repetition. */
  lemma InsertedOrder(s: seq<Elem>, i: nat, x: Elem)
    requires Distinct(s) && i <= |s| && x !in s
    ensures var t := s[..i] + [x] + s[i..];
            && Distinct(t) && (forall e :: e in t <==> e in s || e == x)
            && (forall j :: 0 <= j < |t| ==> t[j] == if j < i then s[j] else if j == i then x else s[j - 1])
  {
    assert s == s[..i] + s[i..];
  }

  lemma RemovedOrder(s: seq<Elem>, i: nat)
    requires Distinct(s) && i < |s|
    ensures var t := s[..i] + s[i + 1..];
            && Distinct(t) && (forall e :: e in t <==> e in s && e != s[i])
            && (forall j :: 0 <= j < |t| ==> t[j] == if j < i then s[j] else s[j + 1])
  {
    var t := s[..i] + s[i + 1..];
    assert s == s[..i] + [s[i]] + s[i + 1..];
    assert s[i] !in t by {
      forall j | 0 <= j < |t| ensures t[j] != s[i] {
        assert t[j] == s[if j < i then j else j + 1];
      }
    }
  }

  lemma InsertNewView(l: Linked, i: nat, b: Bucket)
    requires WellLinked(l) && i <= |l.order|
    ensures var l' := InsertNew(l, i, b);
            && WellLinked(l') && View(l') == View(l)[..i] + [b] + View(l)[i..]
            && (forall e :: On(l', e) <==> On(l, e) || e == |l.elems|)
  {
    InsertedOrder(l.order, i, |l.elems|);
    hide Distinct;
  }

  lemma SetView(l: Linked, i: nat, b: Bucket)
    requires WellLinked(l) && i < |l.order|
    ensures var l' := l.(elems := l.elems[l.order[i] := b]);
            WellLinked(l') && View(l') == View(l)[i := b]
  {
  }

  lemma RemoveView(l: Linked, i: nat)
    requires WellLinked(l) && i < |l.order|
    ensures var l' := Remove(l, l.order[i]);
            && WellLinked(l') && View(l') == View(l)[..i] + View(l)[i + 1..]
            && (forall e :: On(l', e) <==> On(l, e) && e != l.order[i])
  {
    PosUnique(l, i);
    RemovedOrder(l.order, i);
    hide Distinct;
  }

  // ---------- Joining and leaving ----------

  /** A key joins the element at position i if that bears the number id, or a new element there. */
  function Join(l: Linked, i: nat, id: int, k: string): (r: (Linked, Elem))
    requires WellLinked(l) && i <= |l.order|
    ensures |l.elems| <= |r.0.elems|
  {
    if i < |l.order| && l.elems[l.order[i]].id == id then (Put(l, l.order[i], k), l.order[i])
    else (InsertNew(l, i, Bucket(id, {k})), |l.elems|)
  }

  /** A key goes on from an element on the list: it joins the number id right behind it, and leaves. */
  function Raised(l: Linked, place: Elem, id: int, k: string): (Linked, Elem)
    requires WellLinked(l) && On(l, place) && place < |l.elems|
  {
    var r := Join(l, PosOf(l.order, place) + 1, id, k);
    (RemEntry(r.0, place, k), r.1)
  }

  lemma JoinView(l: Linked, i: nat, id: int, k: string)
    requires WellLinked(l) && i <= |l.order|
    ensures var (l', e) := Join(l, i, id, k);
            && WellLinked(l') && View(l') == With(View(l), i, id, k)
            && On(l', e) && e < |l'.elems| && l'.elems[e].id == id && k in l'.elems[e].keys
            && |l.elems| <= |l'.elems|
            && (forall x :: On(l, x) ==> On(l', x))
            && (forall x :: 0 <= x < |l.elems| ==> l'.elems[x].id == l.elems[x].id && l.elems[x].keys <= l'.elems[x].keys)
            && (forall x :: 0 <= x < |l.elems| && x != e ==> l'.elems[x] == l.elems[x])
  {
    if i < |l.order| && l.elems[l.order[i]].id == id {
      SetView(l, i, Bucket(id, l.elems[l.order[i]].keys + {k}));
    } else {
      InsertNewView(l, i, Bucket(id, {k}));
    }
    hide Distinct;
  }

  lemma RemEntryView(l: Linked, i: nat, k: string)
    requires WellLinked(l) && i < |l.order|
    ensures var e := l.order[i];
            var l' := RemEntry(l, e, k);
            && WellLinked(l') && View(l') == Without(View(l), i, k)
            && l'.elems == l.elems[e := Bucket(l.elems[e].id, l.elems[e].keys - {k})]
            && (forall x :: On(l', x) <==> On(l, x) && (x == e ==> l'.elems[e].keys != {}))
  {
    var e := l.order[i];
    var taken := Take(l, e, k);
    SetView(l, i, Bucket(l.elems[e].id, l.elems[e].keys - {k}));
    if taken.elems[e].keys == {} {
      RemoveView(taken, i);
    }
    hide Distinct;
  }

  // ---------- Lists that file keys ----------

  /** The list files every key of at under its number, and node leads from the key to the element on the
      list that holds it and bears that number. */
  ghost predicate Files(l: Linked, node: map<string, Elem>, at: Places) {
    && WellLinked(l) && ListOf(View(l), at)
    && (forall k :: k in at ==> k in node && Leads(l, node[k], k, at[k]))
  }

  predicate Leads(l: Linked, e: Elem, k: string, id: int) {
    e < |l.elems| && On(l, e) && k in l.elems[e].keys && l.elems[e].id == id
  }

  lemma FilesNothing()
    ensures Files(EMPTY_LIST, map[], map[])
  {
    forall k, id ensures Member([], k, id) <==> Filed(map[], k, id) { }
    assert View(EMPTY_LIST) == [];
  }

  /** The key's element stands where its bucket is. */
  lemma LeadsToBucket(l: Linked, node: map<string, Elem>, at: Places, k: string)
    requires Files(l, node, at) && k in at
    ensures On(l, node[k]) && Filed(at, k, View(l)[PosOf(l.order, node[k])].id)
  {
    assert Leads(l, node[k], k, at[k]);
  }

  lemma JoinFiles(l: Linked, node: map<string, Elem>, at: Places, i: nat, id: int, k: string)
    requires Files(l, node, at) && k !in at && Fits(View(l), i, id)
    ensures var (l', e) := Join(l, i, id, k); Files(l', node[k := e], at[k := id])
  {
    JoinView(l, i, id, k);
    WithListOf(View(l), at, i, id, k);
    var (l', e) := Join(l, i, id, k);
    hide ListOf, With, WellLinked, Join;
    forall k2 | k2 in at && k2 != k ensures Leads(l', node[k2], k2, at[k2]) { assert Leads(l, node[k2], k2, at[k2]); }
  }

  lemma RemEntryLeads(l: Linked, i: nat, k: string, x: Elem, k2: string, id2: int)
    requires WellLinked(l) && i < |l.order| && Leads(l, x, k2, id2) && k2 != k
    ensures Leads(RemEntry(l, l.order[i], k), x, k2, id2)
  {
    RemEntryView(l, i, k);
    hide WellLinked, RemEntry, Without;
    assert k2 in RemEntry(l, l.order[i], k).elems[x].keys;
  }

  lemma RemEntryFiles(l: Linked, node: map<string, Elem>, at: Places, k: string)
    requires Files(l, node, at) && k in at
    ensures node[k] < |l.elems| && Files(RemEntry(l, node[k], k), node, at - {k})
  {
    assert Leads(l, node[k], k, at[k]);
    var i := PosOf(l.order, node[k]);
    var l' := RemEntry(l, node[k], k);
    RemEntryView(l, i, k);
    WithoutListOf(View(l), at, i, k);
    hide ListOf, Without, WellLinked, RemEntry, Leads;
    forall k2 | k2 in at && k2 != k ensures Leads(l', node[k2], k2, at[k2]) {
      RemEntryLeads(l, i, k, node[k2], k2, at[k2]);
    }
  }

  /** Joining a later bucket and then leaving the earlier one refiles a key. */
  lemma MoveFiles(l: Linked, node: map<string, Elem>, at: Places, k: string, j: nat, id: int)
    requires Files(l, node, at) && k in at && On(l, node[k])
    requires PosOf(l.order, node[k]) < j && Fits(View(l), j, id)
    ensures var (l', e) := Join(l, j, id, k);
            node[k] < |l'.elems| && Files(RemEntry(l', node[k], k), node[k := e], at[k := id])
  {
    var i, place := PosOf(l.order, node[k]), node[k];
    assert Leads(l, place, k, at[k]);
    MoveView(l, i, j, id, k);
    LeadsToBucket(l, node, at, k);
    MoveListOf(View(l), at, i, k, j, id);
    var (l', e) := Join(l, j, id, k);
    hide ListOf, With, Without, Join, RemEntry, Fits;
    forall k2 | k2 in at && k2 != k ensures Leads(RemEntry(l', place, k), node[k2], k2, at[k2]) {
      assert Leads(l, node[k2], k2, at[k2]);
      MoveLeads(l, i, j, id, k, node[k2], k2, at[k2]);
    }
  }

  lemma MoveView(l: Linked, i: nat, j: nat, id: int, k: string)
    requires WellLinked(l) && i < j && Fits(View(l), j, id)
    ensures var (l', e) := Join(l, j, id, k);
            var place := l.order[i];
            && place < |l'.elems| && WellLinked(RemEntry(l', place, k))
            && View(RemEntry(l', place, k)) == Without(With(View(l), j, id, k), i, k)
            && Leads(RemEntry(l', place, k), e, k, id)
  {
    JoinView(l, j, id, k);
    JoinBehind(l, i, j, id, k);
    var (l', e) := Join(l, j, id, k);
    hide With, Without, WellLinked, Join, RemEntry, Fits;
    RemEntryView(l', i, k);
  }

  lemma MoveLeads(l: Linked, i: nat, j: nat, id: int, k: string, x: Elem, k2: string, id2: int)
    requires WellLinked(l) && i < j && Fits(View(l), j, id) && Leads(l, x, k2, id2) && k2 != k
    ensures var (l', e) := Join(l, j, id, k); l.order[i] < |l'.elems| && Leads(RemEntry(l', l.order[i], k), x, k2, id2)
  {
    JoinView(l, j, id, k);
    JoinBehind(l, i, j, id, k);
    var (l', e) := Join(l, j, id, k);
    hide With, Without, WellLinked, Join, RemEntry, Fits;
    RemEntryView(l', i, k);
    assert Leads(l', x, k2, id2) by {
      assert l'.elems[x].id == l.elems[x].id && l.elems[x].keys <= l'.elems[x].keys;
    }
    var l'' := RemEntry(l', l.order[i], k);
    assert k2 in l''.elems[x].keys;
  }

  lemma JoinBehind(l: Linked, i: nat, j: nat, id: int, k: string)
    requires WellLinked(l) && i < j && Fits(View(l), j, id)
    ensures var (l', e) := Join(l, j, id, k); i < |l'.order| && l'.order[i] == l.order[i] && e != l.order[i]
  {
  }

  /** A key that is not on the list joins behind an element that is, and leaving that one changes nothing. */
  lemma RejoinFiles(l: Linked, node: map<string, Elem>, at: Places, k: string, place: Elem, id: int)
    requires Files(l, node, at) && k !in at && On(l, place) && place < |l.elems| && id == l.elems[place].id + 1
    ensures var r := Raised(l, place, id, k); Files(r.0, node[k := r.1], at[k := id])
  {
    var i := PosOf(l.order, place);
    assert View(l)[i].id + 1 == id;
    JoinFiles(l, node, at, i + 1, id, k);
    JoinView(l, i + 1, id, k);
    JoinBehind(l, i, i + 1, id, k);
    var (l', e) := Join(l, i + 1, id, k);
    assert k !in l.elems[place].keys && l.elems[place].keys != {} by {
      if k in View(l)[i].keys { FiledHere(View(l), at, i, k); }
    }
    assert l'.elems[place] == l.elems[place];
    hide ListOf, With, WellLinked, Join, Files;
    assert l'.elems[place].keys - {k} == l'.elems[place].keys;
    assert Bucket(l'.elems[place].id, l'.elems[place].keys) == l'.elems[place];
    assert l'.elems[place := l'.elems[place]] == l'.elems;
    assert RemEntry(l', place, k) == l';
  }

  // ---------- Walking the list ----------

  /** Places a key by number, walking from an element on: it joins the element that bears the number, or a
      new one before the first with a higher number, or one at the back. */
  method Place(l: Linked, start: Option<Elem>, id: int, k: string, ghost from: nat) returns (l': Linked, e: Elem, ghost i: nat)
    requires WellLinked(l) && Ascending(View(l)) && from <= |l.order|
    requires start == if from < |l.order| then Some(l.order[from]) else None
    requires forall j :: 0 <= j < from ==> View(l)[j].id < id
    ensures from <= i && Fits(View(l), i, id) && (l', e) == Join(l, i, id, k)
  {
    hide WellLinked, PosOf;
    i := from;
    var np := start;
    while np.Some?
      invariant from <= i <= |l.order| && np == if i < |l.order| then Some(l.order[i]) else None
      invariant forall j :: 0 <= j < i ==> View(l)[j].id < id
      decreases |l.order| - i
    {
      PosUnique(l, i);
      var b := l.elems[np.value];
      assert b == View(l)[i];
      if b.id == id {
        return Put(l, np.value, k), np.value, i;
      }
      if b.id > id {
        var r := InsertBefore(l, Bucket(id, {k}), np.value);
        return r.0, r.1.value, i;
      }
      NextOf(l, i);
      np := Next(l, np.value);
      i := i + 1;
    }
    var r := PushBack(l, Bucket(id, {k}));
    return r.0, r.1.value, i;
  }

  /** A new key looks for the element of its number from the front on. */
  method Enlist(l: Linked, node: map<string, Elem>, ghost at: Places, k: string, id: int)
    returns (l': Linked, node': map<string, Elem>)
    requires Files(l, node, at) && k !in at
    ensures Files(l', node', at[k := id]) && node'.Keys == node.Keys + {k}
  {
    var e;
    ghost var i;
    l', e, i := Place(l, Front(l), id, k, 0);
    hide *;
    JoinFiles(l, node, at, i, id, k);
    node' := node[k := e];
  }

  /** A key is held by one element on the list, the one its node leads to. */
  lemma HolderUnique(l: Linked, node: map<string, Elem>, at: Places, i: nat, k: string)
    requires Files(l, node, at) && i < |l.order| && k in View(l)[i].keys
    ensures k in at && node[k] == l.order[i] && at[k] == View(l)[i].id
  {
    FiledHere(View(l), at, i, k);
    assert Leads(l, node[k], k, at[k]);
    var j := PosOf(l.order, node[k]);
    assert View(l)[j].id == View(l)[i].id;
    assert i == j;
  }

  /** increment on the list: a key without a place joins the last element, or the first of all with number 1;
      a key with a place moves to the element with the next number, made right behind its own if the next one
      bears another, and leaves its own. Behind an element that is on no list nothing is made, and the missing
      element is dereferenced. */
  method Increment(l: Linked, place: Option<Elem>, k: string) returns (l': Linked, next: Option<Elem>, id: int)
    requires WellLinked(l) && (place.Some? ==> place.value < |l.elems|)
    ensures place.None? ==>
              var i := if l.order == [] then 0 else |l.order| - 1;
              && id == (if l.order == [] then 1 else View(l)[i].id)
              && next.Some? && (l', next.value) == Join(l, i, id, k)
    ensures place.Some? ==> id == l.elems[place.value].id + 1
    ensures place.Some? && On(l, place.value) ==> next.Some? && (l', next.value) == Raised(l, place.value, id, k)
    ensures place.Some? && !On(l, place.value) ==> next.None? && l' == l
  {
    l' := l;
    if place.None? {
      id, next := 1, Back(l);
      if next.Some? { id := l.elems[next.value].id; }
    } else {
      id, next := l.elems[place.value].id + 1, Next(l, place.value);
    }
    if next.None? || l.elems[next.value].id != id {
      var r := if place.Some? then InsertAfter(l, Bucket(id, {}), place.value) else PushFront(l, Bucket(id, {}));
      l', next := r.0, r.1;
      if next.Some? { PutNew(l, if place.Some? then PosOf(l.order, place.value) + 1 else 0, id, k); }
    }
    if next.None? { return; }
    l' := Put(l', next.value, k);
    if place.Some? { l' := RemEntry(l', place.value, k); }
  }

  lemma PutNew(l: Linked, i: nat, id: int, k: string)
    requires i <= |l.order|
    ensures Put(InsertNew(l, i, Bucket(id, {})), |l.elems|, k) == InsertNew(l, i, Bucket(id, {k}))
  {
    var l' := InsertNew(l, i, Bucket(id, {}));
    assert {} + {k} == {k};
    assert l'.elems[|l.elems| := Bucket(id, {k})] == l.elems + [Bucket(id, {k})];
  }
}
