/** The least-frequently-used index of stored content (exchange/index.go:136-470) as a state, without its
    bucket list: which refs are live, which are persisted, and the size on the books. */
module Lfu {
  import opened Buckets

  datatype Ref = Ref(size: nat, freq: int, bucketId: int)

  type Refs = map<string, Ref>

  /** Every ref is filed under its bucket. */
  function Filing(m: Refs): Places {
    map k | k in m :: m[k].bucketId
  }

  datatype State = State(refs: Refs, table: Refs, size: int, ub: nat, lb: nat)

  // ---------- Sizes ----------

  /** The size of all refs together. */
  ghost function Sizes(m: Refs): nat
    decreases |m|
  {
    if m == map[] then 0
    else
      var k :| k in m;
      m[k].size + Sizes(m - {k})
  }

  lemma {:induction false} SizesWithout(m: Refs, k: string)
    requires k in m
    ensures Sizes(m) == m[k].size + Sizes(m - {k})
    decreases |m|
  {
    var j :| j in m && Sizes(m) == m[j].size + Sizes(m - {j});
    if j != k {
      SizesWithout(m - {j}, k);
      SizesWithout(m - {k}, j);
      assert m - {j} - {k} == m - {k} - {j};
    }
  }

  lemma SizesWith(m: Refs, k: string, r: Ref)
    requires k !in m
    ensures Sizes(m[k := r]) == Sizes(m) + r.size
  {
    SizesWithout(m[k := r], k);
    assert m[k := r] - {k} == m;
  }

  lemma SizesSame(m: Refs, k: string, r: Ref)
    requires k in m && r.size == m[k].size
    ensures Sizes(m[k := r]) == Sizes(m)
  {
    SizesWithout(m, k);
    SizesWithout(m[k := r], k);
    assert m[k := r] - {k} == m - {k};
  }

  function Elements(ks: seq<string>): set<string> {
    set k | k in ks
  }

  function SizeAt(m: Refs, k: string): nat {
    if k in m then m[k].size else 0
  }

  /** The size of some refs together. */
  function Weigh(m: Refs, ks: seq<string>): nat {
    if ks == [] then 0 else Weigh(m, ks[..|ks| - 1]) + SizeAt(m, ks[|ks| - 1])
  }

  lemma WeighAppend(m: Refs, ks: seq<string>, k: string)
    ensures Weigh(m, ks + [k]) == Weigh(m, ks) + SizeAt(m, k)
  {
    assert (ks + [k])[..|ks + [k]| - 1] == ks;
  }

  /** Removing distinct refs takes their weight off the whole. */
  lemma {:induction false} SizesMinus(m: Refs, ks: seq<string>)
    requires Distinct(ks) && forall k :: k in ks ==> k in m
    ensures Sizes(m - Elements(ks)) == Sizes(m) - Weigh(m, ks)
  {
    if ks == [] {
      assert m - Elements(ks) == m;
    } else {
      var front, k := ks[..|ks| - 1], ks[|ks| - 1];
      SizesMinus(m, front);
      assert k !in front;
      SizesWithout(m - Elements(front), k);
      assert m - Elements(ks) == m - Elements(front) - {k} by {
        assert forall x :: x in ks <==> x in front || x == k;
      }
    }
  }

  // ---------- Eviction ----------

  predicate LeastUsed(m: Refs, k: string) {
    k in m && forall k2 :: k2 in m ==> m[k].bucketId <= m[k2].bucketId
  }

  /** What eviction may remove to free an amount: refs of the least used bucket only, in any order,
      none after the amount is reached, and the whole bucket if it never is. */
  predicate Evicts(m: Refs, amount: int, victims: seq<string>) {
    && Distinct(victims)
    && (forall k :: k in victims ==> LeastUsed(m, k))
    && (victims != [] ==> Weigh(m, victims[..|victims| - 1]) < amount)
    && (Weigh(m, victims) >= amount || forall k :: k in m && LeastUsed(m, k) ==> k in victims)
  }

  predicate Overflows(s: State, size: nat) {
    s.ub > 0 && s.lb > 0 && s.size + size > s.ub
  }

  /** Room made for a new ref. */
  predicate MakesRoom(s: State, size: nat, victims: seq<string>) {
    if Overflows(s, size) then Evicts(s.refs, s.size + size - s.lb, victims) else victims == []
  }

  /** A new ref goes to the most used bucket there is. */
  predicate NewId(m: Refs, id: int) {
    if m == map[] then id == 1 else Greatest(Filing(m), id)
  }

  /** A ref that was listed before goes right above a bucket there is. */
  predicate AboveOne(m: Refs, id: int) {
    exists k :: k in m && m[k].bucketId + 1 == id
  }

  // ---------- The operations ----------

  function AfterSet(s: State, k: string, size: nat, freq: int, victims: seq<string>, id: int): State {
    var r := Ref(size, freq, id);
    s.(refs := (s.refs - Elements(victims))[k := r], table := s.table[k := r],
       size := s.size + size - Weigh(s.refs, victims))
  }

  /** A ref counted once more, in another bucket. */
  function Counted(r: Ref, id: int): Ref {
    Ref(r.size, r.freq + 1, id)
  }

  function AfterGet(s: State, k: string): State
    requires k in s.refs
  {
    var r := Counted(s.refs[k], s.refs[k].bucketId + 1);
    s.(refs := s.refs[k := r], table := s.table[k := r])
  }

  function AfterDrop(s: State, k: string): State {
    s.(refs := s.refs - {k}, table := s.table - {k})
  }
}
