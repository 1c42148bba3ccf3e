/** The index with its bucket list (exchange/index.go:136-470). */
module LfuIndex {
  import opened Options
  import opened Buckets
  import opened Links
  import opened Lfu

  datatype DropResult = Dropped | NotFound | NilRef

  datatype SetResult = Added | Exists | NilElement

  lemma FilingWithout(m: Refs, k: string)
    ensures Filing(m - {k}) == Filing(m) - {k}
  {
  }

  lemma FilingWith(m: Refs, k: string, r: Ref)
    ensures Filing(m[k := r]) == Filing(m)[k := r.bucketId]
  {
  }

  lemma FilingAgain(m: Refs, k: string, r: Ref, id: int)
    requires id == r.bucketId
    ensures Filing(m[k := r]) == Filing(m - {k})[k := id]
  {
  }

  // ---------- Steps of a listing ----------

  /** The keys in the first b buckets. */
  ghost function Before(list: seq<Bucket>, b: nat): set<string>
    requires b <= |list|
  {
    if b == 0 then {} else Before(list, b - 1) + list[b - 1].keys
  }

  lemma {:induction false} BeforeMembers(list: seq<Bucket>, b: nat, k: string)
    requires b <= |list|
    ensures k in Before(list, b) <==> exists i :: 0 <= i < b && k in list[i].keys
  {
    if b > 0 { BeforeMembers(list, b - 1, k); }
  }

  lemma BeforeIsBelow(list: seq<Bucket>, m: Refs, b: nat, k: string)
    requires ListOf(list, Filing(m)) && b <= |list|
    ensures k in Before(list, b) <==> k in m && (b < |list| ==> m[k].bucketId < list[b].id)
  {
    BeforeMembers(list, b, k);
    if k in Before(list, b) {
      var i :| 0 <= i < b && k in list[i].keys;
      FiledHere(list, Filing(m), i, k);
    }
    if k in m && (b < |list| ==> m[k].bucketId < list[b].id) {
      InItsBucket(list, Filing(m), k);
      var i :| 0 <= i < |list| && list[i].id == m[k].bucketId && k in list[i].keys;
      assert i < b;
    }
  }

  lemma {:induction false} SubsetCount(a: set<string>, b: set<string>)
    requires a <= b
    ensures |a| <= |b|
  {
    if a != {} {
      var k :| k in a;
      SubsetCount(a - {k}, b - {k});
    }
  }

  predicate Ranked(m: Refs, ks: seq<string>) {
    && (forall k :: k in ks ==> k in m)
    && (forall i, j :: 0 <= i < j < |ks| ==> m[ks[i]].bucketId <= m[ks[j]].bucketId)
  }

  /** Some keys of m, each once, by rank. */
  ghost predicate Listed(m: Refs, ks: seq<string>, keys: set<string>) {
    Distinct(ks) && |keys| == |ks| && Elements(ks) == keys && Ranked(m, ks)
  }

  lemma ListedAppend(m: Refs, ks: seq<string>, keys: set<string>, k: string)
    requires Listed(m, ks, keys) && k in m && k !in keys
    requires forall x :: x in keys ==> m[x].bucketId <= m[k].bucketId
    ensures Listed(m, ks + [k], keys + {k})
  {
    var ks' := ks + [k];
    assert forall x :: x in ks' <==> x in ks || x == k;
    assert forall x :: x in ks ==> x in keys;
    assert Elements(ks') == keys + {k};
  }

  /** The keys of the buckets before b, and those of bucket b that are done. */
  ghost function Done(list: seq<Bucket>, b: nat, rest: set<string>): set<string>
    requires b < |list|
  {
    Before(list, b) + (list[b].keys - rest)
  }

  lemma DoneIsBelow(list: seq<Bucket>, m: Refs, b: nat, rest: set<string>, x: string)
    requires ListOf(list, Filing(m)) && b < |list| && rest <= list[b].keys && x in Done(list, b, rest)
    ensures x in m && m[x].bucketId <= list[b].id && x !in rest
  {
    BeforeIsBelow(list, m, b, x);
    if x in list[b].keys { FiledHere(list, Filing(m), b, x); }
  }

  /** The next key of a bucket is new, ranks behind all done, and has its place in a list of all refs. */
  lemma ListsOne(list: seq<Bucket>, m: Refs, b: nat, rest: set<string>, ks: seq<string>, k: string)
    requires ListOf(list, Filing(m)) && b < |list| && k in rest && rest <= list[b].keys
    requires Listed(m, ks, Done(list, b, rest))
    ensures |ks| < |m|
    ensures Listed(m, ks + [k], Done(list, b, rest - {k}))
  {
    hide ListOf, Done, Listed;
    FiledHere(list, Filing(m), b, k);
    forall x | x in Done(list, b, rest) ensures x in m && m[x].bucketId <= m[k].bucketId && x != k {
      DoneIsBelow(list, m, b, rest, x);
    }
    ListedAppend(m, ks, Done(list, b, rest), k);
    DoneGrows(list, b, rest, k);
    ListedFits(m, ks + [k], Done(list, b, rest - {k}));
  }

  lemma DoneGrows(list: seq<Bucket>, b: nat, rest: set<string>, k: string)
    requires b < |list| && k in rest && rest <= list[b].keys
    ensures Done(list, b, rest - {k}) == Done(list, b, rest) + {k}
  {
  }

  lemma DoneAtEnds(list: seq<Bucket>, b: nat)
    requires b < |list|
    ensures Done(list, b, list[b].keys) == Before(list, b) && Done(list, b, {}) == Before(list, b + 1)
  {
  }

  lemma ListedFits(m: Refs, ks: seq<string>, keys: set<string>)
    requires Listed(m, ks, keys)
    ensures |ks| <= |m|
  {
    assert keys <= m.Keys by {
      forall k | k in keys ensures k in m { assert k in ks; }
    }
    SubsetCount(keys, m.Keys);
  }

  lemma NothingListed(m: Refs, list: seq<Bucket>)
    ensures Listed(m, [], Before(list, 0))
  {
  }

  lemma ListsAll(list: seq<Bucket>, m: Refs, ks: seq<string>)
    requires ListOf(list, Filing(m)) && Listed(m, ks, Before(list, |list|))
    ensures |ks| == |m| && Listed(m, ks, m.Keys)
  {
    forall k ensures k in Before(list, |list|) <==> k in m {
      BeforeIsBelow(list, m, |list|, k);
    }
    assert Before(list, |list|) == m.Keys;
  }

  // ---------- Steps of an eviction ----------

  lemma NothingToEvict(m: Refs, amount: int)
    requires Filing(m) == map[]
    ensures Evicts(m, amount, [])
  {
    assert forall k :: k in m ==> k in Filing(m);
  }

  lemma LeastFiled(m: Refs, id: int, k: string)
    requires Least(Filing(m), id) && k in m
    ensures m[k].bucketId == id <==> LeastUsed(m, k)
  {
    var k0 :| k0 in Filing(m) && Filing(m)[k0] == id;
    assert forall x :: x in m ==> x in Filing(m) && Filing(m)[x] == m[x].bucketId;
  }

  ghost predicate Taking(m: Refs, id: int, victims: seq<string>, amount: int) {
    && Least(Filing(m), id) && Distinct(victims) && Elements(victims) <= Under(Filing(m), id)
    && Weigh(m, victims) < amount
  }

  /** One more ref of the least used bucket; it is the last when the amount is reached. */
  lemma Taken(m: Refs, id: int, victims: seq<string>, amount: int, k: string)
    requires Taking(m, id, victims, amount) && k in Under(Filing(m), id) - Elements(victims)
    ensures Distinct(victims + [k]) && Elements(victims + [k]) == Elements(victims) + {k}
    ensures Elements(victims + [k]) <= Under(Filing(m), id)
    ensures Weigh(m, victims + [k]) == Weigh(m, victims) + m[k].size
    ensures Weigh(m, victims + [k]) >= amount ==> Evicts(m, amount, victims + [k])
  {
    var victims' := victims + [k];
    WeighAppend(m, victims, k);
    assert victims'[..|victims'| - 1] == victims;
    assert forall x :: x in victims' <==> x in victims || x == k;
    assert forall x :: x in victims ==> x in Elements(victims);
    assert Elements(victims') == Elements(victims) + {k};
    forall x | x in victims' ensures LeastUsed(m, x) {
      assert x in Under(Filing(m), id);
      LeastFiled(m, id, x);
    }
  }

  lemma AllTaken(m: Refs, id: int, victims: seq<string>, amount: int)
    requires Taking(m, id, victims, amount) && Elements(victims) == Under(Filing(m), id)
    ensures Evicts(m, amount, victims)
  {
    if victims != [] {
      WeighAppend(m, victims[..|victims| - 1], victims[|victims| - 1]);
      assert victims == victims[..|victims| - 1] + [victims[|victims| - 1]];
    }
    forall x | x in victims ensures LeastUsed(m, x) {
      assert x in Elements(victims);
      LeastFiled(m, id, x);
    }
    forall k | k in m && LeastUsed(m, k) ensures k in victims {
      LeastFiled(m, id, k);
      assert k in Elements(victims);
    }
  }

  /** In the middle of an eviction from the refs m0, with extra not listed: rest are the entries still to
      visit of the element e that was at the front of l0. */
  ghost predicate Evicting(m0: Refs, extra: string, l0: Linked, e: Elem, amount: int, victims: seq<string>,
                           refs: Refs, l: Linked, node: map<string, Elem>, rest: set<string>) {
    && extra in m0 && WellLinked(l0) && l0.order != [] && e == l0.order[0] && e < |l.elems|
    && Taking(m0 - {extra}, l0.elems[e].id, victims, amount)
    && rest == Under(Filing(m0 - {extra}), l0.elems[e].id) - Elements(victims)
    && l0.elems[e].keys == Under(Filing(m0 - {extra}), l0.elems[e].id)
    && l.elems[e].keys == rest
    && (rest != {} ==> l.order == l0.order)
    && Evicted(m0, extra, l0, victims, refs, l, node)
  }

  /** What an eviction leaves: the victims are off the refs and off the list, and no element but the first is,
      which is exactly when all it held are victims. */
  ghost predicate Evicted(m0: Refs, extra: string, l0: Linked, victims: seq<string>,
                          refs: Refs, l: Linked, node: map<string, Elem>) {
    && extra !in victims && refs == m0 - Elements(victims) && Files(l, node, Filing(refs - {extra}))
    && node.Keys == refs.Keys - {extra} && OffList(l0, victims, l)
  }

  /** No element but the first is off the list, and that one exactly when all it held are victims. */
  ghost predicate OffList(l0: Linked, victims: seq<string>, l: Linked) {
    && SameElements(l0, l)
    && (forall x: Elem :: On(l, x) <==> On(l0, x) && !(Front(l0) == Some(x) && x < |l0.elems| && l0.elems[x].keys <= Elements(victims)))
  }

  predicate SameElements(l0: Linked, l: Linked) {
    |l.elems| == |l0.elems| && forall x :: 0 <= x < |l.elems| ==> l.elems[x].id == l0.elems[x].id
  }

  lemma FilesWithout(l: Linked, node: map<string, Elem>, at: Places, k: string)
    requires Files(l, node, at) && k !in at
    ensures Files(l, node - {k}, at)
  {
    hide ListOf, WellLinked;
    forall k2 | k2 in at ensures k2 in node - {k} && Leads(l, (node - {k})[k2], k2, at[k2]) { assert Leads(l, node[k2], k2, at[k2]); }
  }

  lemma StartsEvicting(m0: Refs, extra: string, amount: int, l0: Linked, node: map<string, Elem>)
    requires extra in m0 && Files(l0, node, Filing(m0 - {extra})) && node.Keys == m0.Keys - {extra}
    requires amount > 0 && l0.order != []
    ensures Evicting(m0, extra, l0, l0.order[0], amount, [], m0, l0, node, l0.elems[l0.order[0]].keys)
  {
    EndsOfList(View(l0), Filing(m0 - {extra}));
    BucketContents(View(l0), Filing(m0 - {extra}), 0);
    assert m0 - Elements([]) == m0;
    assert View(l0)[0].keys != {};
  }

  /** One entry of the first element leaves the list. */
  lemma EntryLeaves(m: Refs, l: Linked, node: map<string, Elem>, k: string)
    requires Files(l, node, Filing(m)) && l.order != [] && k in l.elems[l.order[0]].keys
    ensures var e := l.order[0];
            var l' := RemEntry(l, e, k);
            && e < |l.elems| && k in m && Files(l', node - {k}, Filing(m - {k}))
            && l'.elems == l.elems[e := Bucket(l.elems[e].id, l.elems[e].keys - {k})]
            && (forall x :: On(l', x) <==> On(l, x) && (x == e ==> l'.elems[e].keys != {}))
            && (l'.elems[e].keys != {} ==> l'.order == l.order)
  {
    assert k in View(l)[0].keys;
    HolderUnique(l, node, Filing(m), 0, k);
    RemEntryFiles(l, node, Filing(m), k);
    RemEntryView(l, 0, k);
    FilingWithout(m, k);
    FilesWithout(RemEntry(l, l.order[0], k), node, Filing(m - {k}), k);
    hide Files, View;
  }

  lemma EvictsOne(m0: Refs, extra: string, l0: Linked, e: Elem, amount: int, victims: seq<string>,
                  refs: Refs, l: Linked, node: map<string, Elem>, rest: set<string>, k: string)
    requires Evicting(m0, extra, l0, e, amount, victims, refs, l, node, rest) && k in rest
    ensures k in refs && refs[k] == m0[k] && k != extra
    ensures Weigh(m0 - {extra}, victims + [k]) == Weigh(m0 - {extra}, victims) + m0[k].size
    ensures Evicted(m0, extra, l0, victims + [k], refs - {k}, RemEntry(l, e, k), node - {k})
    ensures if Weigh(m0 - {extra}, victims + [k]) >= amount then Evicts(m0 - {extra}, amount, victims + [k])
            else Evicting(m0, extra, l0, e, amount, victims + [k], refs - {k}, RemEntry(l, e, k), node - {k}, rest - {k})
  {
    hide *;
    OneTaken(m0, extra, l0, e, amount, victims, refs, l, node, rest, k);
    OneEvicted(m0, extra, l0, e, amount, victims, refs, l, node, rest, k);
    if Weigh(m0 - {extra}, victims + [k]) < amount {
      OneLess(m0, extra, l0, e, amount, victims, refs, l, node, rest, k);
    }
  }

  lemma OneTaken(m0: Refs, extra: string, l0: Linked, e: Elem, amount: int, victims: seq<string>,
                 refs: Refs, l: Linked, node: map<string, Elem>, rest: set<string>, k: string)
    requires Evicting(m0, extra, l0, e, amount, victims, refs, l, node, rest) && k in rest
    ensures k in refs && refs[k] == m0[k] && k != extra && k !in Elements(victims) && e < |l0.elems|
    ensures Weigh(m0 - {extra}, victims + [k]) == Weigh(m0 - {extra}, victims) + m0[k].size
    ensures Distinct(victims + [k]) && Elements(victims + [k]) == Elements(victims) + {k}
    ensures Elements(victims + [k]) <= Under(Filing(m0 - {extra}), l0.elems[e].id)
    ensures Weigh(m0 - {extra}, victims + [k]) >= amount ==> Evicts(m0 - {extra}, amount, victims + [k])
  {
    hide Files, Evicts, Distinct;
    assert k in m0 - {extra} && k !in Elements(victims);
    Taken(m0 - {extra}, l0.elems[e].id, victims, amount, k);
  }

  /** The entry is off the refs and off the list. */
  lemma OneEvicted(m0: Refs, extra: string, l0: Linked, e: Elem, amount: int, victims: seq<string>,
                   refs: Refs, l: Linked, node: map<string, Elem>, rest: set<string>, k: string)
    requires Evicting(m0, extra, l0, e, amount, victims, refs, l, node, rest) && k in rest
    ensures Evicted(m0, extra, l0, victims + [k], refs - {k}, RemEntry(l, e, k), node - {k})
  {
    hide *;
    OneTaken(m0, extra, l0, e, amount, victims, refs, l, node, rest, k);
    EvictingFirst(m0, extra, l0, e, amount, victims, refs, l, node, rest);
    EvictedRefs(m0, extra, l0, victims, refs, l, node);
    RefsLess(m0, extra, victims, refs, node, k);
    EntryLeaves(refs - {extra}, l, node, k);
    EvictedList(l0, victims, l, RemEntry(l, e, k), e, k);
    EvictedBoth(m0, extra, l0, victims + [k], refs - {k}, RemEntry(l, e, k), node - {k});
  }

  lemma EvictedRefs(m0: Refs, extra: string, l0: Linked, victims: seq<string>, refs: Refs, l: Linked, node: map<string, Elem>)
    requires Evicted(m0, extra, l0, victims, refs, l, node)
    ensures extra !in victims && refs == m0 - Elements(victims) && node.Keys == refs.Keys - {extra}
    ensures Files(l, node, Filing(refs - {extra})) && OffList(l0, victims, l)
  {
    hide Files;
  }

  lemma EvictedBoth(m0: Refs, extra: string, l0: Linked, victims: seq<string>, refs: Refs, l: Linked, node: map<string, Elem>)
    requires extra !in victims && refs == m0 - Elements(victims) && node.Keys == refs.Keys - {extra}
    requires Files(l, node, Filing(refs - {extra})) && OffList(l0, victims, l)
    ensures Evicted(m0, extra, l0, victims, refs, l, node)
  {
    hide Files;
  }

  lemma RefsLess(m0: Refs, extra: string, victims: seq<string>, refs: Refs, node: map<string, Elem>, k: string)
    requires refs == m0 - Elements(victims) && node.Keys == refs.Keys - {extra} && extra !in victims && k != extra
    requires Elements(victims + [k]) == Elements(victims) + {k}
    ensures refs - {extra} - {k} == refs - {k} - {extra} && refs - {k} == m0 - Elements(victims + [k])
    ensures extra !in victims + [k] && (node - {k}).Keys == (refs - {k}).Keys - {extra}
  {
  }

  /** The first element stays on the list as long as it holds a key that is no victim. */
  lemma EvictedList(l0: Linked, victims: seq<string>, l: Linked, l': Linked, e: Elem, k: string)
    requires OffList(l0, victims, l) && Front(l0) == Some(e) && e < |l.elems| == |l0.elems| && l.order == l0.order
    requires l.elems[e].keys == l0.elems[e].keys - Elements(victims) && Elements(victims + [k]) == Elements(victims) + {k}
    requires l'.elems == l.elems[e := Bucket(l.elems[e].id, l.elems[e].keys - {k})]
    requires forall x :: On(l', x) <==> On(l, x) && (x == e ==> l'.elems[e].keys != {})
    ensures OffList(l0, victims + [k], l')
  {
    LeftOver(l0.elems[e].keys, Elements(victims), k, l'.elems[e].keys);
    hide Elements;
    forall x: Elem ensures On(l', x) <==> On(l0, x) && !(Front(l0) == Some(x) && x < |l0.elems| && l0.elems[x].keys <= Elements(victims + [k])) {
      assert On(l', x) <==> On(l, x) && (x == e ==> l'.elems[e].keys != {});
    }
  }

  /** What an eviction that goes on knows of its element. */
  lemma EvictingFirst(m0: Refs, extra: string, l0: Linked, e: Elem, amount: int, victims: seq<string>,
                      refs: Refs, l: Linked, node: map<string, Elem>, rest: set<string>)
    requires Evicting(m0, extra, l0, e, amount, victims, refs, l, node, rest) && rest != {}
    ensures extra in m0 && Evicted(m0, extra, l0, victims, refs, l, node)
    ensures l0.order != [] && e == l0.order[0] && Front(l0) == Some(e) && On(l0, e) && e < |l.elems| == |l0.elems| && l.order == l0.order
    ensures l.elems[e].keys == rest == l0.elems[e].keys - Elements(victims)
  {
    hide Files, Distinct, Weigh, Filing;
  }

  lemma LeftOver(keys: set<string>, gone: set<string>, k: string, left: set<string>)
    requires left == keys - gone - {k}
    ensures left != {} <==> !(keys <= gone + {k})
  {
    if keys <= gone + {k} {
      assert left == {};
    } else {
      var x :| x in keys && x !in gone + {k};
      assert x in left;
    }
  }

  /** And the first element has one entry less to visit. */
  lemma OneLess(m0: Refs, extra: string, l0: Linked, e: Elem, amount: int, victims: seq<string>,
                refs: Refs, l: Linked, node: map<string, Elem>, rest: set<string>, k: string)
    requires Evicting(m0, extra, l0, e, amount, victims, refs, l, node, rest) && k in rest
    requires Weigh(m0 - {extra}, victims + [k]) < amount
    requires Evicted(m0, extra, l0, victims + [k], refs - {k}, RemEntry(l, e, k), node - {k})
    ensures Evicting(m0, extra, l0, e, amount, victims + [k], refs - {k}, RemEntry(l, e, k), node - {k}, rest - {k})
  {
    OneTaken(m0, extra, l0, e, amount, victims, refs, l, node, rest, k);
    EvictingFirst(m0, extra, l0, e, amount, victims, refs, l, node, rest);
    hide Files, RemEntry, Distinct, Under, Filing, Weigh, WellLinked;
    assert Taking(m0 - {extra}, l0.elems[e].id, victims + [k], amount);
    hide Taking;
    EntryLeaves(refs - {extra}, l, node, k);
    hide Evicted;
    assert rest - {k} == Under(Filing(m0 - {extra}), l0.elems[e].id) - Elements(victims + [k]);
  }

  /** When its entries are all gone, the element leads nowhere. */
  lemma EvictsAll(m0: Refs, extra: string, l0: Linked, e: Elem, amount: int, victims: seq<string>,
                  refs: Refs, l: Linked, node: map<string, Elem>)
    requires Evicting(m0, extra, l0, e, amount, victims, refs, l, node, {})
    ensures Evicts(m0 - {extra}, amount, victims) && Evicted(m0, extra, l0, victims, refs, l, node)
    ensures Links.Next(l, e) == None
  {
    hide Files, Evicts;
    assert Elements(victims) == Under(Filing(m0 - {extra}), l0.elems[e].id);
    AllTaken(m0 - {extra}, l0.elems[e].id, victims, amount);
    assert !On(l, e);
  }

  /** The element a ref joins that is on no list yet: the last one, or the first of all. */
  lemma EnterFiles(l: Linked, node: map<string, Elem>, m: Refs, k: string, id: int)
    requires Files(l, node, Filing(m)) && k !in m && id == if l.order == [] then 1 else l.elems[l.order[|l.order| - 1]].id
    ensures var i := if l.order == [] then 0 else |l.order| - 1;
            var (l', e) := Join(l, i, id, k);
            NewId(m, id) && Files(l', node[k := e], Filing(m)[k := id])
  {
    var i := if l.order == [] then 0 else |l.order| - 1;
    EndsOfList(View(l), Filing(m));
    hide ListOf;
    JoinFiles(l, node, Filing(m), i, id, k);
    hide Join, Files;
    if m != map[] {
      var x :| x in m;
      assert x in Filing(m);
    }
  }

  /** A ref goes up to the next number. */
  lemma MoveUp(l: Linked, node: map<string, Elem>, m: Refs, k: string, id: int)
    requires Files(l, node, Filing(m)) && k in m && id == m[k].bucketId + 1
    ensures node[k] < |l.elems| && On(l, node[k])
    ensures var r := Raised(l, node[k], id, k); Files(r.0, node[k := r.1], Filing(m - {k})[k := id])
  {
    hide *;
    StandsAt(l, node, m, k, id);
    MoveFiles(l, node, Filing(m), k, PosOf(l.order, node[k]) + 1, id);
    RaisedIs(l, node[k], id, k);
    FiledAgain(m, k, id);
  }

  lemma RaisedIs(l: Linked, place: Elem, id: int, k: string)
    requires WellLinked(l) && On(l, place) && place < |l.elems|
    ensures var r := Join(l, PosOf(l.order, place) + 1, id, k);
            Raised(l, place, id, k) == (RemEntry(r.0, place, k), r.1)
  {
    hide Join, RemEntry, PosOf;
  }

  lemma FiledAgain(m: Refs, k: string, id: int)
    requires k in m
    ensures Filing(m)[k := id] == Filing(m - {k})[k := id]
  {
  }

  /** A ref's element is on the list, with room behind it for the next number. */
  lemma StandsAt(l: Linked, node: map<string, Elem>, m: Refs, k: string, id: int)
    requires Files(l, node, Filing(m)) && k in m && id == m[k].bucketId + 1
    ensures k in Filing(m) && k in node && node[k] < |l.elems| && On(l, node[k]) && WellLinked(l)
    ensures PosOf(l.order, node[k]) + 1 <= |l.order| && Fits(View(l), PosOf(l.order, node[k]) + 1, id)
  {
    var i := PosOf(l.order, node[k]);
    assert Leads(l, node[k], k, m[k].bucketId);
    assert View(l)[i].id + 1 == id;
  }

  lemma KeysWith<V>(m: map<string, V>, k: string, v: V)
    ensures m[k := v].Keys == m.Keys + {k}
  {
  }

  lemma NothingLoaded(table: Refs)
    ensures Files(EMPTY_LIST, map[], Filing(map[])) && Sizes(map[]) == 0 && table - table.Keys == map[] && table - {} == table
  {
    FilesNothing();
    assert Filing(map[]) == map[];
  }

  lemma TableOne(table: Refs, rest: set<string>, k: string)
    requires k in rest && rest <= table.Keys
    ensures (table - rest)[k := table[k]] == table - (rest - {k})
  {
  }

  /** increment for a key on the list: it follows its node, and its node follows it. */
  method Raise(l: Linked, node: map<string, Elem>, ghost m: Refs, k: string)
    returns (l': Linked, node': map<string, Elem>, id: int)
    requires Files(l, node, Filing(m)) && k in m
    ensures Files(l', node', Filing(m[k := Counted(m[k], id)])) && node'.Keys == node.Keys && id == m[k].bucketId + 1
  {
    assert WellLinked(l) && Leads(l, node[k], k, m[k].bucketId);
    assert node[k] < |l.elems| && On(l, node[k]) && l.elems[node[k]].id == m[k].bucketId;
    hide Files, WellLinked, Leads, On, Raised, Filing;
    var next;
    l', next, id := Links.Increment(l, Some(node[k]), k);
    MoveUp(l, node, m, k, id);
    FilingAgain(m, k, Counted(m[k], id), id);
    node' := node[k := next.value];
  }

  /** An element on the list holds a ref, of the bucket it stands for. */
  lemma HoldsSome(l: Linked, node: map<string, Elem>, m: Refs, place: Elem, id: int)
    requires Files(l, node, Filing(m)) && On(l, place) && place < |l.elems| && id == l.elems[place].id + 1
    ensures AboveOne(m, id)
  {
    var i := PosOf(l.order, place);
    var x :| x in View(l)[i].keys;
    FiledHere(View(l), Filing(m), i, x);
    assert m[x].bucketId + 1 == id;
  }

  /** increment for a key that is on no list, but whose ref leads to an element it was in before. */
  method Return(l: Linked, node: map<string, Elem>, ghost m: Refs, k: string, place: Elem)
    returns (ok: bool, l': Linked, node': map<string, Elem>, id: int)
    requires k in m && Files(l, node, Filing(m - {k})) && place < |l.elems|
    ensures ok == On(l, place)
    ensures ok ==> Files(l', node', Filing(m[k := Counted(m[k], id)])) && node'.Keys == node.Keys + {k}
    ensures ok ==> id == l.elems[place].id + 1 && AboveOne(m - {k}, id)
  {
    assert WellLinked(l) && k !in Filing(m - {k});
    hide Files, WellLinked, Leads, On, Raised, Filing, AboveOne;
    var next;
    l', next, id := Links.Increment(l, Some(place), k);
    ok, node' := next.Some?, node;
    if ok {
      RejoinFiles(l, node, Filing(m - {k}), k, place, id);
      HoldsSome(l, node, m - {k}, place, id);
      FilingAgain(m, k, Counted(m[k], id), id);
      node' := node[k := next.value];
    }
  }

  /** Before anything is evicted. */
  lemma EvictsNone(m0: Refs, extra: string, l: Linked, node: map<string, Elem>)
    requires extra in m0 && Files(l, node, Filing(m0 - {extra})) && node.Keys == m0.Keys - {extra}
    ensures Evicted(m0, extra, l, [], m0, l, node)
  {
    assert m0 - Elements([]) == m0;
    if l.order != [] {
      assert View(l)[0].keys != {};
    }
  }

  /** A new ref on the books, and out of the way of an eviction among the others. */
  lemma Admitted(m: Refs, k: string, r: Ref, victims: seq<string>)
    requires k !in m
    ensures m[k := r] - {k} == m && m[k := r].Keys - {k} == m.Keys
    ensures k !in victims ==> m[k := r] - Elements(victims) == (m - Elements(victims))[k := r]
    ensures m[k := r] - Elements(victims) - {k} == m - Elements(victims)
  {
  }

  /** The element a ref was in before leads nowhere: it is off the list, or this eviction takes it off. */
  predicate Stale(l: Linked, place: Elem, victims: seq<string>) {
    !On(l, place) || (Front(l) == Some(place) && place < |l.elems| && l.elems[place].keys <= Elements(victims))
  }

  lemma ReadIs(s: State, k: string, id: int)
    requires k in s.refs && id == s.refs[k].bucketId + 1
    ensures var r := Counted(s.refs[k], id); AfterGet(s, k) == s.(refs := s.refs[k := r], table := s.table[k := r])
  {
  }

  /** A ref leaves the list by its node. */
  lemma Leaves(l: Linked, node: map<string, Elem>, m: Refs, k: string)
    requires Files(l, node, Filing(m)) && k in m && node.Keys == m.Keys
    ensures node[k] < |l.elems| && Files(RemEntry(l, node[k], k), node - {k}, Filing(m - {k}))
    ensures (node - {k}).Keys == (m - {k}).Keys
  {
    RemEntryFiles(l, node, Filing(m), k);
    FilingWithout(m, k);
    hide Files, RemEntry;
    FilesWithout(RemEntry(l, node[k], k), node, Filing(m - {k}), k);
  }

  // ---------- A walk from the front ----------

  /** The walk is at position b of the list. */
  ghost predicate At(l: Linked, list: seq<Bucket>, b: nat, place: Option<Elem>) {
    WellLinked(l) && list == Links.View(l) && b <= |list| && place == if b < |list| then Some(l.order[b]) else None
  }

  lemma FrontAt(l: Linked)
    requires WellLinked(l)
    ensures At(l, Links.View(l), 0, Front(l))
  {
  }

  lemma AtElement(l: Linked, list: seq<Bucket>, b: nat, place: Option<Elem>)
    requires At(l, list, b, place) && place.Some?
    ensures b < |list| && place.value < |l.elems| && l.elems[place.value] == list[b]
    ensures At(l, list, b + 1, Links.Next(l, place.value))
  {
    NextOf(l, b);
  }

  lemma AtEnd(l: Linked, list: seq<Bucket>, b: nat)
    requires At(l, list, b, None)
    ensures b == |list|
  {
  }

  /** The entries of one element, in whatever order they come. */
  method ListEntries(entries: set<string>, out: array<string>, start: nat, ghost m: Refs, ghost list: seq<Bucket>, ghost b: nat)
    returns (i: nat)
    requires ListOf(list, Filing(m)) && b < |list| && entries == list[b].keys
    requires start <= out.Length == |m| && Listed(m, out[..start], Before(list, b))
    modifies out
    ensures i <= out.Length && Listed(m, out[..i], Before(list, b + 1))
  {
    hide *;
    DoneAtEnds(list, b);
    i := start;
    var rest := entries;
    while rest != {}
      invariant i <= out.Length && rest <= list[b].keys
      invariant Listed(m, out[..i], Done(list, b, rest))
      decreases |rest|
    {
      var k :| k in rest;
      ghost var done := out[..i];
      ListsOne(list, m, b, rest, done, k);
      out[i] := k;
      assert out[..i + 1] == done + [k];
      i := i + 1;
      rest := rest - {k};
    }
  }

  /** From the front of the list to its end. */
  method Walk(l: Linked, out: array<string>, ghost m: Refs)
    requires WellLinked(l) && ListOf(Links.View(l), Filing(m)) && out.Length == |m|
    modifies out
    ensures Listed(m, out[..], m.Keys)
  {
    hide *;
    ghost var list := Links.View(l);
    var i, place := 0, Front(l);
    ghost var b := 0;
    NothingListed(m, list);
    assert out[..0] == [];
    FrontAt(l);
    while place.Some?
      invariant b <= |list| && 0 <= i <= out.Length && At(l, list, b, place)
      invariant Listed(m, out[..i], Before(list, b))
      decreases |list| - b
    {
      AtElement(l, list, b, place);
      i := ListEntries(l.elems[place.value].keys, out, i, m, list, b);
      place := Links.Next(l, place.value);
      b := b + 1;
    }
    AtEnd(l, list, b);
    ListsAll(list, m, out[..i]);
    assert out[..i] == out[..];
  }

  /** A ref counts when it moves, not when it is first placed. */
  function Settled(freq: int, place: Option<Elem>): int {
    if place.Some? then freq + 1 else freq
  }

  /** Setting a ref whose bucket is not known yet, and again when it is. */
  lemma SetTwice(s: State, k: string, size: nat, freq0: int, freq: int, victims: seq<string>, id: int)
    requires k !in s.refs && k !in victims
    ensures var r := Ref(size, freq, id);
            AfterSet(s, k, size, freq, victims, id)
            == s.(refs := (s.refs[k := Ref(size, freq0, 0)] - Elements(victims))[k := r], table := s.table[k := r],
                  size := s.size + size - Weigh(s.refs, victims))
  {
  }

  /** A new ref before anything is evicted for it. */
  lemma OnTheBooks(m: Refs, k: string, r: Ref, l: Linked, node: map<string, Elem>)
    requires k !in m && Files(l, node, Filing(m)) && node.Keys == m.Keys
    ensures m[k := r] - {k} == m && m[k := r].Keys - {k} == m.Keys
    ensures Evicted(m[k := r], k, l, [], m[k := r], l, node)
    ensures Sizes(m[k := r]) == Sizes(m) + r.size && Weigh(m, []) == 0
  {
    Admitted(m, k, r, []);
    SizesWith(m, k, r);
    EvictsNone(m[k := r], k, l, node);
  }

  lemma RoomMade(s: State, size: nat, victims: seq<string>)
    requires if s.ub > 0 && s.lb > 0 && s.size + size > s.ub then Evicts(s.refs, s.size + size - s.lb, victims) else victims == []
    ensures MakesRoom(s, size, victims)
  {
    hide Evicts;
  }

  class Index {
    const ub: nat
    const lb: nat
    var size: nat
    var blist: Linked
    var refs: Refs
    /** The list element of every live ref. */
    var node: map<string, Elem>
    var table: Refs

    ghost function View(): State
      reads this
    {
      State(refs, table, size, ub, lb)
    }

    /** The list files the live refs under their buckets, every ref leads to the element that holds it and
        bears its bucket's number, and the sizes are on the books. */
    ghost predicate Valid()
      reads this
    {
      lb <= ub && Files(blist, node, Filing(refs)) && node.Keys == refs.Keys && Sizes(refs) <= size
    }

    /** NewIndex: load the persisted refs, in whatever order the table yields them. */
    constructor (ub: nat, lb: nat, table: Refs)
      requires lb <= ub
      ensures Valid() && View() == State(table, table, Sizes(table), ub, lb)
    {
      this.ub, this.lb, this.table := ub, lb, table;
      size, blist, refs, node := 0, EMPTY_LIST, map[], map[];
      new;
      var rest := table.Keys;
      NothingLoaded(table);
      hide Files, Sizes, Filing;
      assert Valid() && View() == State(table - rest, table, Sizes(table - rest), ub, lb);
      hide *;
      while rest != {}
        invariant Valid() && rest <= table.Keys && View() == State(table - rest, table, Sizes(table - rest), ub, lb)
        decreases |rest|
      {
        var k :| k in rest;
        TableOne(table, rest, k);
        SizesWith(table - rest, k, table[k]);
        Load(k, table[k]);
        rest := rest - {k};
      }
    }

    /** One ref of the table, inserted by its bucket's number. */
    method Load(k: string, r: Ref)
      requires Valid() && k !in View().refs
      modifies `size, `blist, `refs, `node
      ensures Valid() && View() == old(View()).(refs := old(View()).refs[k := r], size := old(View()).size + r.size)
    {
      assert k !in Filing(refs);
      FilingWith(refs, k, r);
      SizesWith(refs, k, r);
      KeysWith(refs, k, r);
      hide Files, Sizes, Filing;
      blist, node := Enlist(blist, node, Filing(refs), k, r.bucketId);
      refs, size := refs[k := r], size + r.size;
    }

    /** increment for a ref that is on no list yet. */
    method Enter(k: string)
      requires k in refs && Files(blist, node, Filing(refs - {k})) && node.Keys == refs.Keys - {k}
      modifies `blist, `refs, `node
      ensures k in refs && Files(blist, node, Filing(refs)) && node.Keys == refs.Keys
      ensures NewId(old(refs) - {k}, refs[k].bucketId)
      ensures refs == old(refs)[k := Ref(old(refs)[k].size, old(refs)[k].freq, refs[k].bucketId)]
    {
      assert WellLinked(blist);
      hide *;
      var l, next, id := Links.Increment(blist, None, k);
      EnterFiles(blist, node, refs - {k}, k, id);
      KeysWith(node, k, next.value);
      blist, node := l, node[k := next.value];
      Refile(k, refs[k].freq, id);
    }

    /** The ref of k in its new bucket. */
    method Refile(k: string, freq: int, id: int)
      requires k in refs && Files(blist, node, Filing(refs - {k})[k := id])
      modifies `refs
      ensures refs == old(refs)[k := Ref(old(refs)[k].size, freq, id)] && refs.Keys == old(refs).Keys
      ensures Files(blist, node, Filing(refs))
    {
      var r := Ref(refs[k].size, freq, id);
      FilingWith(refs - {k}, k, r);
      assert (refs - {k})[k := r] == refs[k := r];
      hide *;
      KeysWith(refs, k, r);
      refs := refs[k := r];
    }

    /** increment for a ref on the list. */
    method Increment(k: string) returns (id: int)
      requires k in refs && Files(blist, node, Filing(refs)) && node.Keys == refs.Keys
      modifies `blist, `refs, `node
      ensures Files(blist, node, Filing(refs)) && node.Keys == refs.Keys
      ensures refs == old(refs)[k := Counted(old(refs)[k], id)] && id == old(refs)[k].bucketId + 1
    {
      hide *;
      var l, node';
      l, node', id := Raise(blist, node, refs, k);
      var r := Counted(refs[k], id);
      KeysWith(refs, k, r);
      blist, node, refs := l, node', refs[k := r];
    }

    /** increment for a ref that was on the list before, and still leads to the element it was in. */
    method Reenter(k: string, place: Elem) returns (ok: bool, id: int)
      requires k in refs && Files(blist, node, Filing(refs - {k})) && node.Keys == refs.Keys - {k} && place < |blist.elems|
      modifies `blist, `refs, `node
      ensures ok == On(old(blist), place)
      ensures ok ==> Files(blist, node, Filing(refs)) && node.Keys == refs.Keys
      ensures ok ==> refs == old(refs)[k := Counted(old(refs)[k], id)]
      ensures ok ==> id == old(blist).elems[place].id + 1 && AboveOne(old(refs) - {k}, id)
    {
      hide *;
      var l, node';
      ok, l, node', id := Return(blist, node, refs, k, place);
      if !ok { return; }
      var r := Counted(refs[k], id);
      KeysWith(refs, k, r);
      blist, node, refs := l, node', refs[k := r];
    }

    /** One ref of the element at the front goes. */
    method EvictEntry(e: Elem, k: string, evicted: nat, ghost m0: Refs, ghost extra: string, ghost l0: Linked, ghost amount: int,
                      ghost victims: seq<string>, ghost rest: set<string>) returns (evicted': nat)
      requires Evicting(m0, extra, l0, e, amount, victims, refs, blist, node, rest) && k in rest && e < |blist.elems|
      requires evicted == Weigh(m0 - {extra}, victims) && Sizes(refs) <= size
      modifies `size, `blist, `refs, `node
      ensures Evicted(m0, extra, l0, victims + [k], refs, blist, node) && e < |blist.elems|
      ensures evicted' == Weigh(m0 - {extra}, victims + [k]) && size + evicted' == old(size) + evicted && Sizes(refs) <= size
      ensures if evicted' >= amount then Evicts(m0 - {extra}, amount, victims + [k])
              else Evicting(m0, extra, l0, e, amount, victims + [k], refs, blist, node, rest - {k})
    {
      hide *;
      EvictsOne(m0, extra, l0, e, amount, victims, refs, blist, node, rest, k);
      SizesWithout(refs, k);
      evicted', size := evicted + refs[k].size, size - refs[k].size;
      blist, refs, node := RemEntry(blist, e, k), refs - {k}, node - {k};
    }

    /** The refs of the element at the front go, until the amount is reached. When they are all gone the
        element is on no list any more, and has none behind it. */
    method EvictFrom(e: Elem, amount: int, ghost extra: string) returns (evicted: nat, ghost victims: seq<string>)
      requires extra in refs && Files(blist, node, Filing(refs - {extra})) && node.Keys == refs.Keys - {extra}
      requires Sizes(refs) <= size && amount > 0 && Front(blist) == Some(e)
      modifies `size, `blist, `refs, `node
      ensures Evicts(old(refs) - {extra}, amount, victims)
      ensures Evicted(old(refs), extra, old(blist), victims, refs, blist, node)
      ensures evicted == Weigh(old(refs) - {extra}, victims) && size == old(size) - evicted && Sizes(refs) <= size
      ensures evicted < amount ==> Links.Next(blist, e) == None
    {
      evicted, victims := 0, [];
      ghost var m0, l0 := refs, blist;
      StartsEvicting(m0, extra, amount, l0, node);
      assert Weigh(m0 - {extra}, victims) == 0 && e == l0.order[0] && e < |blist.elems|;
      hide *;
      var rest := blist.elems[e].keys;
      while rest != {}
        invariant Evicting(m0, extra, l0, e, amount, victims, refs, blist, node, rest) && e < |blist.elems|
        invariant evicted == Weigh(m0 - {extra}, victims) && size == old(size) - evicted && Sizes(refs) <= size
        decreases |rest|
      {
        var k :| k in rest;
        evicted := EvictEntry(e, k, evicted, m0, extra, l0, amount, victims, rest);
        rest, victims := rest - {k}, victims + [k];
        if evicted >= amount { return; }
      }
      EvictsAll(m0, extra, l0, e, amount, victims, refs, blist, node);
    }

    /** evict: from the front of the list, over what was the next element when the walk gets there. */
    method Evict(amount: int, ghost extra: string) returns (evicted: nat, ghost victims: seq<string>)
      requires extra in refs && Files(blist, node, Filing(refs - {extra})) && node.Keys == refs.Keys - {extra}
      requires Sizes(refs) <= size && amount > 0
      modifies `size, `blist, `refs, `node
      ensures Evicts(old(refs) - {extra}, amount, victims)
      ensures Evicted(old(refs), extra, old(blist), victims, refs, blist, node)
      ensures evicted == Weigh(old(refs) - {extra}, victims) && size == old(size) - evicted && Sizes(refs) <= size
    {
      evicted, victims := 0, [];
      var place := Front(blist);
      EvictsNone(refs, extra, blist, node);
      if place.None? {
        EndsOfList(Links.View(blist), Filing(refs - {extra}));
        NothingToEvict(refs - {extra}, amount);
      }
      assert Weigh(refs - {extra}, []) == 0;
      hide *;
      while place.Some?
        invariant Evicted(old(refs), extra, old(blist), victims, refs, blist, node)
        invariant evicted == Weigh(old(refs) - {extra}, victims) && size == old(size) - evicted && Sizes(refs) <= size
        invariant place.Some? ==> evicted == 0 && place == Front(blist) && unchanged(this)
        invariant place.None? ==> Evicts(old(refs) - {extra}, amount, victims)
        decreases place.Some?
      {
        var n, vs := EvictFrom(place.value, amount - evicted, extra);
        evicted, victims := evicted + n, vs;
        if evicted >= amount { return; }
        place := Links.Next(blist, place.value);
      }
    }

    /** The first half of SetRef: take a new ref on the books, and make room for it among the others. */
    method Admit(k: string, r: Ref) returns (ghost victims: seq<string>)
      requires Valid() && k !in refs
      modifies `size, `blist, `refs, `node
      ensures MakesRoom(old(View()), r.size, victims)
      ensures Evicted(old(refs)[k := r], k, old(blist), victims, refs, blist, node)
      ensures size == old(size) + r.size - Weigh(old(refs), victims) && Sizes(refs) <= size
    {
      hide Files, Sizes, Filing, Evicted, Evicts, Weigh, MakesRoom, Elements;
      victims := [];
      OnTheBooks(refs, k, r, blist, node);
      ghost var s0 := View();
      refs, size := refs[k := r], size + r.size;
      if ub > 0 && lb > 0 {
        if size > ub {
          var _, vs := Evict(size - lb, k);
          victims := vs;
        }
      }
      RoomMade(s0, r.size, victims);
    }

    /** increment for a new ref: one without an element of its own, or one that still leads to an element. */
    method Settle(k: string, place: Option<Elem>) returns (ok: bool)
      requires k in refs && Files(blist, node, Filing(refs - {k})) && node.Keys == refs.Keys - {k}
      requires place.Some? ==> place.value < |blist.elems|
      modifies `blist, `refs, `node
      ensures ok == (place.Some? ==> On(old(blist), place.value))
      ensures ok ==> k in refs && Files(blist, node, Filing(refs)) && node.Keys == refs.Keys
      ensures ok ==> refs == old(refs)[k := Ref(old(refs)[k].size, Settled(old(refs)[k].freq, place), refs[k].bucketId)]
      ensures ok && place.None? ==> NewId(old(refs) - {k}, refs[k].bucketId)
      ensures ok && place.Some? ==>
                refs[k].bucketId == old(blist).elems[place.value].id + 1 && AboveOne(old(refs) - {k}, refs[k].bucketId)
    {
      hide Files, Filing, NewId, AboveOne, On;
      ok := true;
      if place.Some? {
        var id;
        ok, id := Reenter(k, place.value);
      } else {
        Enter(k);
      }
    }

    /** SetRef: a new ref joins the most used bucket, after room was made for it among the others. A ref that
        was on the list before still leads to the element it was in, and goes to the number above that one's;
        when that element is off the list by then, the call dereferences nil. */
    method SetRef(k: string, payload: nat, freq: int, place: Option<Elem>) returns (result: SetResult, ghost victims: seq<string>)
      requires Valid() && (place.Some? ==> place.value < |blist.elems|)
      modifies `size, `blist, `refs, `node, `table
      ensures result == Exists <==> k in old(refs)
      ensures result == Exists ==> Valid() && View() == old(View())
      ensures result != Exists ==> MakesRoom(old(View()), payload, victims)
      ensures result == NilElement <==> k !in old(refs) && place.Some? && Stale(old(blist), place.value, victims)
      ensures result == Added ==> Valid() && k in refs
      ensures result == Added ==> View() == AfterSet(old(View()), k, payload, Settled(freq, place), victims, refs[k].bucketId)
      ensures result == Added && place.None? ==> NewId(old(refs) - Elements(victims), refs[k].bucketId)
      ensures result == Added && place.Some? ==>
                && refs[k].bucketId == old(blist).elems[place.value].id + 1
                && AboveOne(old(refs) - Elements(victims), refs[k].bucketId)
    {
      victims := [];
      if k in refs { return Exists, victims; }
      ghost var s0 := View();
      var r := Ref(payload, freq, 0);
      victims := Admit(k, r);
      hide Files, Filing, MakesRoom, NewId, AboveOne, Weigh, Sizes, On, AfterSet;
      Admitted(s0.refs, k, r, victims);
      ghost var m1 := refs;
      var ok := Settle(k, place);
      if !ok { return NilElement, victims; }
      SizesSame(m1, k, refs[k]);
      SetTwice(s0, k, payload, freq, Settled(freq, place), victims, refs[k].bucketId);
      table := table[k := refs[k]];
      return Added, victims;
    }

    /** GetRef: a read counts, and is persisted. */
    method GetRef(k: string) returns (ok: bool)
      requires Valid()
      modifies `blist, `refs, `node, `table
      ensures Valid() && ok == (k in old(refs))
      ensures View() == if ok then AfterGet(old(View()), k) else old(View())
    {
      ok := k in refs;
      if !ok { return; }
      hide Files, Filing, Sizes, AfterGet;
      ghost var s0 := View();
      var id := Increment(k);
      ReadIs(s0, k, id);
      SizesSame(s0.refs, k, refs[k]);
      table := table[k := refs[k]];
    }

    /** A live ref leaves the list by its node. */
    method Unlist(k: string)
      requires k in refs && Files(blist, node, Filing(refs)) && node.Keys == refs.Keys
      modifies `blist, `refs, `node
      ensures refs == old(refs) - {k} && Files(blist, node, Filing(refs)) && node.Keys == refs.Keys
    {
      hide *;
      Leaves(blist, node, refs, k);
      blist := RemEntry(blist, node[k], k);
      refs, node := refs - {k}, node - {k};
    }

    /** DropRef: the table is consulted first; a key found there that has no live ref is dereferenced
        all the same. The size stays on the books. */
    method DropRef(k: string) returns (result: DropResult)
      requires Valid()
      modifies `blist, `refs, `node, `table
      ensures Valid() && size == old(size)
      ensures result == if k !in old(table) then NotFound else if k in old(refs) then Dropped else NilRef
      ensures result == NotFound ==> View() == old(View())
      ensures result == Dropped ==> View() == AfterDrop(old(View()), k)
    {
      if k !in table { return NotFound; }
      table := table - {k};
      if k !in refs { return NilRef; }
      SizesWithout(refs, k);
      hide Files, Filing, Sizes;
      Unlist(k);
      return Dropped;
    }

    /** ListRefs: every live ref once, from the least to the most used bucket. The slice made for them is
        large enough at every write. */
    method ListRefs() returns (out: array<string>)
      requires Valid()
      ensures fresh(out) && out.Length == |refs|
      ensures Distinct(out[..]) && Elements(out[..]) == refs.Keys && Ranked(refs, out[..])
    {
      out := new string[|refs|];
      Walk(blist, out, refs);
    }
  }
}
