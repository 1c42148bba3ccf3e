/** When an eviction takes the whole least used bucket, and with it the element that a ref object set again may
    still lead to (exchange/index.go:391-470). */
module LfuStale {
  import opened Options
  import opened Buckets
  import opened Links
  import opened Lfu
  import opened LfuIndex

  /** The refs of the least used bucket. */
  function Lowest(m: Refs): Refs {
    map k | k in m && LeastUsed(m, k) :: m[k]
  }

  predicate Whole(m: Refs, victims: seq<string>) {
    forall k :: k in Lowest(m) ==> k in victims
  }

  /** The bucket is lighter than the amount without k. */
  predicate LastTakes(m: Refs, amount: int, k: string, weight: nat) {
    k in Lowest(m) && weight - m[k].size < amount
  }

  // ---------- Weights ----------

  lemma {:induction false} WeighSame(m: Refs, b: Refs, ks: seq<string>)
    requires forall k :: k in ks ==> k in b && k in m && b[k] == m[k]
    ensures Weigh(m, ks) == Weigh(b, ks)
  {
    if ks != [] {
      var n := |ks| - 1;
      assert ks == ks[..n] + [ks[n]] && forall k :: k in ks[..n] ==> k in ks;
      WeighSame(m, b, ks[..n]);
    }
  }

  /** Distinct refs weigh no more than all, and as much if they are all. */
  lemma WeighWithin(b: Refs, ks: seq<string>)
    requires Distinct(ks) && forall k :: k in ks ==> k in b
    ensures Weigh(b, ks) <= Sizes(b)
    ensures (forall k :: k in b ==> k in ks) ==> Weigh(b, ks) == Sizes(b)
  {
    SizesMinus(b, ks);
    if forall k :: k in b ==> k in ks { assert b - Elements(ks) == map[]; }
  }

  lemma {:induction false} Enumerate(keys: set<string>) returns (ks: seq<string>)
    ensures Distinct(ks) && forall k :: k in ks <==> k in keys
    decreases |keys|
  {
    if keys == {} {
      ks := [];
    } else {
      var k :| k in keys;
      var rest := Enumerate(keys - {k});
      ks := rest + [k];
      assert forall x :: x in ks <==> x in rest || x == k;
    }
  }

  /** The shortest beginning that weighs an amount. */
  lemma {:induction false} Shortest(m: Refs, ks: seq<string>, amount: int) returns (n: nat)
    requires 0 < amount <= Weigh(m, ks)
    ensures 0 < n <= |ks| && Weigh(m, ks[..n]) >= amount > Weigh(m, ks[..n - 1])
    decreases |ks|
  {
    var before := ks[..|ks| - 1];
    assert ks[..|ks|] == ks;
    if Weigh(m, before) < amount {
      n := |ks|;
    } else {
      n := Shortest(m, before, amount);
      assert before[..n] == ks[..n] && before[..n - 1] == ks[..n - 1];
    }
  }

  // ---------- Whole buckets ----------

  /** All refs of the bucket but x, with their weight. */
  lemma AllBut(m: Refs, x: string) returns (ks: seq<string>)
    requires x in Lowest(m)
    ensures Distinct(ks) && (forall k :: k in ks <==> k in Lowest(m) && k != x)
    ensures Weigh(m, ks) == Sizes(Lowest(m)) - m[x].size
  {
    var b := Lowest(m);
    ks := Enumerate(b.Keys - {x});
    SizesWithout(b, x);
    WeighSame(m, b - {x}, ks);
    WeighWithin(b - {x}, ks);
  }

  /** An eviction that takes the whole bucket has taken some ref last. */
  lemma WholeHasLast(m: Refs, amount: int, victims: seq<string>)
    requires Evicts(m, amount, victims) && Whole(m, victims) && Lowest(m) != map[]
    ensures exists k :: LastTakes(m, amount, k, Sizes(Lowest(m)))
  {
    var k0 :| k0 in Lowest(m);
    var n := |victims| - 1;
    var x := victims[n];
    assert forall k :: k in victims ==> LeastUsed(m, k) && k in Lowest(m);
    assert victims == victims[..n] + [x];
    WeighAppend(m, victims[..n], x);
    WeighSame(m, Lowest(m), victims);
    WeighWithin(Lowest(m), victims);
    assert LastTakes(m, amount, x, Sizes(Lowest(m)));
  }

  lemma LastGivesWhole(m: Refs, amount: int, x: string) returns (victims: seq<string>)
    requires LastTakes(m, amount, x, Sizes(Lowest(m)))
    ensures Evicts(m, amount, victims) && Whole(m, victims)
  {
    var ks := AllBut(m, x);
    victims := ks + [x];
    assert victims[..|victims| - 1] == ks;
    assert Distinct(victims) && forall k :: k in victims <==> k in Lowest(m);
    assert Weigh(m, ks) < amount;
    hide Weigh, Distinct, Sizes;
    forall k | k in victims ensures LeastUsed(m, k) { assert k in Lowest(m); }
  }

  /** A bucket that does without x is evicted without it, in some order. */
  lemma OtherGivesPart(m: Refs, amount: int, x: string) returns (victims: seq<string>)
    requires amount > 0 && x in Lowest(m) && !LastTakes(m, amount, x, Sizes(Lowest(m)))
    ensures Evicts(m, amount, victims) && !Whole(m, victims)
  {
    var ks := AllBut(m, x);
    var n := Shortest(m, ks, amount);
    victims := ks[..n];
    assert victims[..|victims| - 1] == ks[..n - 1];
    assert forall k :: k in victims ==> k in ks;
    assert x !in victims;
  }

  lemma PartLeavesOther(m: Refs, amount: int, victims: seq<string>) returns (y: string)
    requires Evicts(m, amount, victims) && !Whole(m, victims)
    ensures y in Lowest(m) && !LastTakes(m, amount, y, Sizes(Lowest(m)))
  {
    y :| y in Lowest(m) && y !in victims;
    var b := Lowest(m);
    assert forall k :: k in victims ==> LeastUsed(m, k) && k in b;
    SizesWithout(b, y);
    WeighSame(m, b - {y}, victims);
    WeighWithin(b - {y}, victims);
  }

  /** Eviction can take the whole least used bucket exactly when without some ref of it the bucket is lighter
      than the amount, and must exactly when it is without any. */
  lemma WholeExactly(m: Refs, amount: int)
    requires amount > 0 && m != map[]
    ensures var w := Sizes(Lowest(m));
            && ((exists victims :: Evicts(m, amount, victims) && Whole(m, victims)) <==> exists k :: LastTakes(m, amount, k, w))
            && ((forall victims :: Evicts(m, amount, victims) ==> Whole(m, victims)) <==> forall k :: k in Lowest(m) ==> LastTakes(m, amount, k, w))
  {
    var w := Sizes(Lowest(m));
    SomeLowest(m);
    hide Evicts, Whole, LastTakes, Lowest;
    if victims :| Evicts(m, amount, victims) && Whole(m, victims) { WholeHasLast(m, amount, victims); }
    if k :| LastTakes(m, amount, k, w) { var victims := LastGivesWhole(m, amount, k); }
    if k :| k in Lowest(m) && !LastTakes(m, amount, k, w) { var victims := OtherGivesPart(m, amount, k); }
    if victims :| Evicts(m, amount, victims) && !Whole(m, victims) { var y := PartLeavesOther(m, amount, victims); }
  }

  lemma {:induction false} SomeLowest(m: Refs)
    requires m != map[]
    ensures Lowest(m) != map[]
    decreases |m|
  {
    var k :| k in m;
    var rest, j := m - {k}, k;
    if rest != map[] {
      SomeLowest(rest);
      var low :| low in Lowest(rest);
      assert LeastUsed(rest, low);
      if rest[low].bucketId < m[k].bucketId { j := low; }
      forall x | x in m ensures m[j].bucketId <= m[x].bucketId { if x != k { assert x in rest; } }
    } else {
      forall x | x in m ensures x == k { assert x == k || x in rest; }
    }
    assert j in Lowest(m);
  }

  // ---------- The element a ref leads to ----------

  /** The first element holds the least used refs. */
  lemma FirstHoldsLowest(l: Linked, node: map<string, Elem>, m: Refs)
    requires Files(l, node, Filing(m)) && l.order != []
    ensures l.order[0] < |l.elems| && l.elems[l.order[0]].keys == Lowest(m).Keys
  {
    var list := View(l);
    EndsOfList(list, Filing(m));
    BucketContents(list, Filing(m), 0);
    hide ListOf, Files;
    forall k ensures k in list[0].keys <==> k in Lowest(m) {
      if k in m { LeastFiled(m, list[0].id, k); }
    }
  }

  /** Whether setting a ref object again dereferences nil can be told beforehand from the element it leads to,
      the bucket of that element and the amount to free: it does when the element is off the list; it does not
      when it stands behind the first; for the first it may exactly when without some ref of it the bucket is
      lighter than the amount, and must exactly when it is without any. */
  lemma StaleExactly(l: Linked, node: map<string, Elem>, m: Refs, place: Elem, amount: int)
    requires Files(l, node, Filing(m)) && amount > 0
    ensures !On(l, place) ==> forall victims :: Stale(l, place, victims)
    ensures On(l, place) && Front(l) != Some(place) ==> forall victims :: !Stale(l, place, victims)
    ensures Front(l) == Some(place) ==>
              var w := Sizes(Lowest(m));
              && ((exists victims :: Evicts(m, amount, victims) && Stale(l, place, victims)) <==> exists k :: LastTakes(m, amount, k, w))
              && ((forall victims :: Evicts(m, amount, victims) ==> Stale(l, place, victims)) <==> forall k :: k in Lowest(m) ==> LastTakes(m, amount, k, w))
  {
    if Front(l) == Some(place) {
      FirstHoldsLowest(l, node, m);
      assert m != map[] by { FirstHolds(l, node, m); }
      WholeExactly(m, amount);
      forall victims ensures Stale(l, place, victims) <==> Whole(m, victims) { StaleIsWhole(l, m, place, victims); }
    }
  }

  lemma FirstHolds(l: Linked, node: map<string, Elem>, m: Refs)
    requires Files(l, node, Filing(m)) && l.order != []
    ensures m != map[]
  {
    var k :| k in View(l)[0].keys;
    FiledHere(View(l), Filing(m), 0, k);
  }

  lemma StaleIsWhole(l: Linked, m: Refs, place: Elem, victims: seq<string>)
    requires Front(l) == Some(place) && place < |l.elems| && l.elems[place].keys == Lowest(m).Keys
    ensures Stale(l, place, victims) <==> Whole(m, victims)
  {
    assert forall k :: k in victims <==> k in Elements(victims);
  }
}
