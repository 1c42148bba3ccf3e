/** Lists of buckets (exchange/index.go): keys grouped by a number, the groups in ascending order. The
    frequency list of stored content and the list of interesting content are both of this kind. */
module Buckets {
  datatype Bucket = Bucket(id: int, keys: set<string>)

  /** Which number each key is filed under. */
  type Places = map<string, int>

  predicate Ascending(list: seq<Bucket>) {
    forall i, j :: 0 <= i < j < |list| ==> list[i].id < list[j].id
  }

  predicate NoneEmpty(list: seq<Bucket>) {
    forall i :: 0 <= i < |list| ==> list[i].keys != {}
  }

  predicate Holds(b: Bucket, k: string, id: int) {
    b.id == id && k in b.keys
  }

  /** Bucket id of the list holds the key k. */
  predicate Member(list: seq<Bucket>, k: string, id: int) {
    exists i :: 0 <= i < |list| && Holds(list[i], k, id)
  }

  predicate Filed(at: Places, k: string, id: int) {
    k in at && at[k] == id
  }

  ghost predicate SameMembers(list: seq<Bucket>, at: Places) {
    forall k, id :: Member(list, k, id) <==> Filed(at, k, id)
  }

  /** The list is the bucket list of at: ids ascend, no bucket is empty, and bucket id holds exactly the
      keys filed under it. */
  ghost predicate ListOf(list: seq<Bucket>, at: Places) {
    Ascending(list) && NoneEmpty(list) && SameMembers(list, at)
  }

  predicate Distinct<T(==)>(s: seq<T>) {
    forall i, j :: 0 <= i < j < |s| ==> s[i] != s[j]
  }

  // ---------- Uniqueness ----------

  ghost predicate Alike(a: seq<Bucket>, b: seq<Bucket>) {
    forall k, id :: Member(a, k, id) <==> Member(b, k, id)
  }

  lemma SmallestFirst(a: seq<Bucket>, b: seq<Bucket>)
    requires NoneEmpty(a) && Ascending(b) && a != []
    requires Alike(a, b)
    ensures b != [] && b[0].id <= a[0].id
  {
    var k :| k in a[0].keys;
    assert Holds(a[0], k, a[0].id);
    assert Member(a, k, a[0].id);
    assert Member(b, k, a[0].id);
  }

  lemma HeadMembers(a: seq<Bucket>, k: string)
    requires Ascending(a) && a != []
    ensures Member(a, k, a[0].id) <==> k in a[0].keys
  {
    if k in a[0].keys { assert Holds(a[0], k, a[0].id); }
  }

  lemma TailMembers(a: seq<Bucket>, k: string, id: int)
    requires Ascending(a) && a != []
    ensures Member(a[1..], k, id) <==> Member(a, k, id) && id != a[0].id
  {
    if Member(a[1..], k, id) {
      var i :| 0 <= i < |a| - 1 && Holds(a[1..][i], k, id);
      assert Holds(a[i + 1], k, id);
    }
    if Member(a, k, id) && id != a[0].id {
      var i :| 0 <= i < |a| && Holds(a[i], k, id);
      assert Holds(a[1..][i - 1], k, id);
    }
  }

  /** Two sorted bucket lists with the same members are the same list. */
  lemma {:induction false} AlikeIsEqual(a: seq<Bucket>, b: seq<Bucket>)
    requires Ascending(a) && NoneEmpty(a) && Ascending(b) && NoneEmpty(b)
    requires Alike(a, b)
    ensures a == b
  {
    if a != [] {
      SmallestFirst(a, b);
      SmallestFirst(b, a);
      forall k ensures k in a[0].keys <==> k in b[0].keys {
        HeadMembers(a, k);
        HeadMembers(b, k);
      }
      assert a[0].keys == b[0].keys;
      forall k, id ensures Member(a[1..], k, id) <==> Member(b[1..], k, id) {
        TailMembers(a, k, id);
        TailMembers(b, k, id);
      }
      AlikeIsEqual(a[1..], b[1..]);
      assert a == [a[0]] + a[1..] && b == [b[0]] + b[1..];
    } else if b != [] {
      SmallestFirst(b, a);
    }
  }

  /** The filing determines the list. */
  lemma ListUnique(a: seq<Bucket>, b: seq<Bucket>, at: Places)
    requires ListOf(a, at) && ListOf(b, at)
    ensures a == b
  {
    assert Alike(a, b);
    AlikeIsEqual(a, b);
  }

  // ---------- Changes to the list ----------

  /** A key leaves bucket i, which goes when it was the last. */
  function Without(list: seq<Bucket>, i: nat, k: string): seq<Bucket>
    requires i < |list|
  {
    if list[i].keys - {k} == {} then list[..i] + list[i + 1..]
    else list[i := Bucket(list[i].id, list[i].keys - {k})]
  }

  /** A key joins bucket id at position i; the bucket is made there if another one is in the place. */
  function With(list: seq<Bucket>, i: nat, id: int, k: string): seq<Bucket>
    requires i <= |list|
  {
    if i < |list| && list[i].id == id then list[i := Bucket(id, list[i].keys + {k})]
    else list[..i] + [Bucket(id, {k})] + list[i..]
  }

  /** Bucket id belongs at position i. */
  predicate Fits(list: seq<Bucket>, i: nat, id: int) {
    && i <= |list|
    && (forall j :: 0 <= j < i ==> list[j].id < id)
    && (forall j :: i <= j < |list| ==> id <= list[j].id)
  }

  lemma WithOrdered(list: seq<Bucket>, i: nat, id: int, k: string)
    requires Ascending(list) && NoneEmpty(list) && Fits(list, i, id)
    ensures Ascending(With(list, i, id, k)) && NoneEmpty(With(list, i, id, k))
  {
    var list' := With(list, i, id, k);
    if i < |list| && list[i].id == id {
      assert forall j :: 0 <= j < |list'| ==> list'[j].id == list[j].id;
    } else {
      assert forall j :: 0 <= j < |list'| ==>
        list'[j] == if j < i then list[j] else if j == i then Bucket(id, {k}) else list[j - 1];
    }
  }

  lemma WithMembers(list: seq<Bucket>, i: nat, id: int, k: string, k2: string, id2: int)
    requires i <= |list|
    ensures Member(With(list, i, id, k), k2, id2) <==> Member(list, k2, id2) || (k2 == k && id2 == id)
  {
    var list' := With(list, i, id, k);
    assert Holds(list'[i], k, id);
    if Member(list, k2, id2) {
      var j :| 0 <= j < |list| && Holds(list[j], k2, id2);
      assert Holds(list'[if j < i || |list'| == |list| then j else j + 1], k2, id2);
    }
    if Member(list', k2, id2) && !(k2 == k && id2 == id) {
      var j' :| 0 <= j' < |list'| && Holds(list'[j'], k2, id2);
      assert Holds(list[if j' < i || |list'| == |list| then j' else j' - 1], k2, id2);
    }
  }

  lemma WithoutOrdered(list: seq<Bucket>, i: nat, k: string)
    requires Ascending(list) && NoneEmpty(list) && i < |list|
    ensures Ascending(Without(list, i, k)) && NoneEmpty(Without(list, i, k))
  {
    var list' := Without(list, i, k);
    if list[i].keys - {k} == {} {
      assert forall j :: 0 <= j < |list'| ==> list'[j] == if j < i then list[j] else list[j + 1];
    } else {
      assert forall j :: 0 <= j < |list'| ==> list'[j].id == list[j].id;
    }
  }

  lemma WithoutMembers(list: seq<Bucket>, i: nat, k: string, k2: string, id2: int)
    requires Ascending(list) && i < |list|
    ensures Member(Without(list, i, k), k2, id2) <==> Member(list, k2, id2) && !(k2 == k && id2 == list[i].id)
  {
    var list' := Without(list, i, k);
    if Member(list', k2, id2) {
      var j' :| 0 <= j' < |list'| && Holds(list'[j'], k2, id2);
      var j := if j' < i || |list'| == |list| then j' else j' + 1;
      assert Holds(list[j], k2, id2);
      assert j < i ==> list[j].id < list[i].id;
      assert i < j ==> list[i].id < list[j].id;
    }
    if Member(list, k2, id2) && !(k2 == k && id2 == list[i].id) {
      var j :| 0 <= j < |list| && Holds(list[j], k2, id2);
      assert j == i ==> k2 in list[i].keys - {k};
      assert Holds(list'[if j < i || |list'| == |list| then j else j - 1], k2, id2);
    }
  }

  /** Joining bucket id files a new key under id. */
  lemma WithListOf(list: seq<Bucket>, at: Places, i: nat, id: int, k: string)
    requires ListOf(list, at) && k !in at && Fits(list, i, id)
    ensures ListOf(With(list, i, id, k), at[k := id])
  {
    hide With;
    WithOrdered(list, i, id, k);
    forall k2, id2
      ensures Member(With(list, i, id, k), k2, id2) <==> Filed(at[k := id], k2, id2)
    {
      WithMembers(list, i, id, k, k2, id2);
    }
  }

  /** Leaving its bucket takes a key off the file. */
  lemma WithoutListOf(list: seq<Bucket>, at: Places, i: nat, k: string)
    requires ListOf(list, at) && i < |list| && Filed(at, k, list[i].id)
    ensures ListOf(Without(list, i, k), at - {k})
  {
    hide Without;
    WithoutOrdered(list, i, k);
    forall k2, id2
      ensures Member(Without(list, i, k), k2, id2) <==> Filed(at - {k}, k2, id2)
    {
      WithoutMembers(list, i, k, k2, id2);
    }
  }

  /** Joining a later bucket and then leaving the earlier one refiles a key. */
  lemma MoveListOf(list: seq<Bucket>, at: Places, i: nat, k: string, j: nat, id: int)
    requires ListOf(list, at) && i < |list| && Filed(at, k, list[i].id)
    requires i < j && Fits(list, j, id)
    ensures With(list, j, id, k)[i] == list[i]
    ensures ListOf(Without(With(list, j, id, k), i, k), at[k := id])
  {
    var mid := With(list, j, id, k);
    assert mid[i] == list[i] && mid[i].id < id;
    WithOrdered(list, j, id, k);
    WithoutOrdered(mid, i, k);
    hide With, Without;
    forall k2, id2
      ensures Member(Without(mid, i, k), k2, id2) <==> Filed(at[k := id], k2, id2)
    {
      WithMembers(list, j, id, k, k2, id2);
      WithoutMembers(mid, i, k, k2, id2);
    }
  }

  // ---------- What the list tells of the file ----------

  /** Every key is in the bucket it is filed under. */
  lemma InItsBucket(list: seq<Bucket>, at: Places, k: string)
    requires ListOf(list, at) && k in at
    ensures exists i :: 0 <= i < |list| && list[i].id == at[k] && k in list[i].keys
  {
    assert Filed(at, k, at[k]);
    var i :| 0 <= i < |list| && Holds(list[i], k, at[k]);
    assert list[i].id == at[k] && k in list[i].keys;
  }

  lemma FiledHere(list: seq<Bucket>, at: Places, i: nat, k: string)
    requires ListOf(list, at) && i < |list| && k in list[i].keys
    ensures Filed(at, k, list[i].id)
  {
    assert Holds(list[i], k, list[i].id);
    assert Member(list, k, list[i].id);
  }

  predicate Least(at: Places, id: int) {
    (exists k :: k in at && at[k] == id) && (forall k :: k in at ==> id <= at[k])
  }

  predicate Greatest(at: Places, id: int) {
    (exists k :: k in at && at[k] == id) && (forall k :: k in at ==> at[k] <= id)
  }

  /** The first and the last bucket are those of the least and the greatest number on file. */
  lemma EndsOfList(list: seq<Bucket>, at: Places)
    requires ListOf(list, at)
    ensures list == [] <==> at == map[]
    ensures list != [] ==> Least(at, list[0].id) && Greatest(at, list[|list| - 1].id)
  {
    forall k | k in at
      ensures list != [] && list[0].id <= at[k] <= list[|list| - 1].id
    {
      InItsBucket(list, at, k);
      var i :| 0 <= i < |list| && list[i].id == at[k];
      assert i != 0 ==> list[0].id < list[i].id;
      assert i != |list| - 1 ==> list[i].id < list[|list| - 1].id;
    }
    if list != [] {
      var k :| k in list[0].keys;
      FiledHere(list, at, 0, k);
      var k' :| k' in list[|list| - 1].keys;
      FiledHere(list, at, |list| - 1, k');
    }
  }

  /** The keys filed under a number. */
  function Under(at: Places, id: int): set<string> {
    set k | k in at && at[k] == id
  }

  lemma BucketContents(list: seq<Bucket>, at: Places, i: nat)
    requires ListOf(list, at) && i < |list|
    ensures list[i].keys == Under(at, list[i].id)
  {
    forall k ensures k in list[i].keys <==> k in Under(at, list[i].id) {
      if k in list[i].keys { FiledHere(list, at, i, k); }
      if k in Under(at, list[i].id) {
        InItsBucket(list, at, k);
        var j :| 0 <= j < |list| && list[j].id == at[k] && k in list[j].keys;
        assert i == j;
      }
    }
  }
}
