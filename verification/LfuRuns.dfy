/** The least-frequently-used index over whole runs of its operations (exchange/index.go:245-470). */
module LfuRuns {
  import opened Options
  import opened Runs
  import opened Buckets
  import opened Lfu

  /** A call that succeeds, with what the code leaves open: the victims and their order. */
  datatype Act =
    | Set(k: string, size: nat, freq: int, victims: seq<string>, id: int)
    | Get(k: string)
    | Drop(k: string)

  /** The index beside its history: the sizes of refs dropped, the keys evicted and not set again, and for
      each key the rank and frequency it entered with and its reads since. */
  datatype Machine = Machine(s: State, dropped: nat, gone: set<string>,
                             entered: map<string, (int, int)>, uses: map<string, nat>)

  predicate Enabled(m: Machine, a: Act) {
    match a
    case Set(k, size, _, victims, id) =>
      var rest := m.s.refs - Elements(victims);
      k !in m.s.refs && MakesRoom(m.s, size, victims) && (NewId(rest, id) || AboveOne(rest, id))
    case Get(k) => k in m.s.refs && k in m.uses
    case Drop(k) => k in m.s.refs
  }

  function Next(m: Machine, a: Act): Machine {
    match a
    case Set(k, size, freq, victims, id) =>
      m.(s := AfterSet(m.s, k, size, freq, victims, id), gone := m.gone + Elements(victims) - {k},
         entered := m.entered[k := (id, freq)], uses := m.uses[k := 0])
    case Get(k) =>
      if Enabled(m, a) then m.(s := AfterGet(m.s, k), uses := m.uses[k := m.uses[k] + 1]) else m
    case Drop(k) =>
      m.(s := AfterDrop(m.s, k), dropped := m.dropped + SizeAt(m.s.refs, k))
  }

  /** A freshly loaded index. */
  function Loaded(ub: nat, lb: nat, table: Refs, size: nat): Machine {
    Machine(State(table, table, size, ub, lb), 0, {},
            map k | k in table :: (table[k].bucketId, table[k].freq), map k | k in table :: 0)
  }

  // ---------- What every operation keeps ----------

  /** The size on the books is that of the live refs and of those dropped, which are never taken off. */
  ghost predicate Booked(m: Machine) {
    m.s.size == Sizes(m.s.refs) + m.dropped
  }

  /** The table holds the live refs as they are, and the evicted ones as they were. */
  ghost predicate Persisted(m: Machine) {
    && (forall k :: k in m.s.refs ==> k in m.s.table && m.s.table[k] == m.s.refs[k])
    && m.s.table.Keys == m.s.refs.Keys + m.gone && m.s.refs.Keys !! m.gone
  }

  /** Rank and frequency have both grown by the reads since the ref entered. */
  ghost predicate Counted(m: Machine) {
    forall k :: k in m.s.refs ==>
      && k in m.entered && k in m.uses
      && m.s.refs[k].bucketId == m.entered[k].0 + m.uses[k]
      && m.s.refs[k].freq == m.entered[k].1 + m.uses[k]
  }

  ghost predicate Sound(m: Machine) {
    m.s.lb <= m.s.ub && Booked(m) && Persisted(m) && Counted(m)
  }

  lemma VictimsAreLive(s: State, size: nat, victims: seq<string>)
    requires MakesRoom(s, size, victims)
    ensures Distinct(victims) && forall k :: k in victims ==> k in s.refs
  {
    if Overflows(s, size) {
      forall k | k in victims ensures k in s.refs { assert LeastUsed(s.refs, k); }
    }
  }

  lemma SetKeepsBooks(m: Machine, a: Act)
    requires Booked(m) && a.Set? && Enabled(m, a)
    ensures Booked(Next(m, a))
  {
    VictimsAreLive(m.s, a.size, a.victims);
    SizesMinus(m.s.refs, a.victims);
    SizesWith(m.s.refs - Elements(a.victims), a.k, Ref(a.size, a.freq, a.id));
  }

  lemma SetKeepsTable(m: Machine, a: Act)
    requires Persisted(m) && a.Set? && Enabled(m, a)
    ensures Persisted(Next(m, a))
  {
    hide MakesRoom, NewId, AboveOne, Weigh;
    VictimsAreLive(m.s, a.size, a.victims);
    var m' := Next(m, a);
    assert m'.s.refs.Keys == m.s.refs.Keys - Elements(a.victims) + {a.k};
  }

  lemma GetKeepsSound(m: Machine, a: Act)
    requires Sound(m) && a.Get? && Enabled(m, a)
    ensures Sound(Next(m, a))
  {
    SizesSame(m.s.refs, a.k, Next(m, a).s.refs[a.k]);
    assert Next(m, a).s.table.Keys == m.s.table.Keys && Next(m, a).s.refs.Keys == m.s.refs.Keys;
  }

  lemma DropKeepsSound(m: Machine, a: Act)
    requires Sound(m) && a.Drop? && Enabled(m, a)
    ensures Sound(Next(m, a))
  {
    SizesWithout(m.s.refs, a.k);
    assert Next(m, a).s.table.Keys == m.s.table.Keys - {a.k} && Next(m, a).s.refs.Keys == m.s.refs.Keys - {a.k};
  }

  lemma StepKeepsSound(m: Machine, a: Act)
    requires Sound(m) && Enabled(m, a)
    ensures Sound(Next(m, a))
  {
    match a
    case Set(k, size, freq, victims, id) =>
      hide MakesRoom, NewId, AboveOne, Weigh, Persisted, Booked;
      SetKeepsBooks(m, a);
      SetKeepsTable(m, a);
    case Get(k) => GetKeepsSound(m, a);
    case Drop(k) => DropKeepsSound(m, a);
  }

  /** After every run of a loaded index: size is what is live plus what was dropped, the table is the live
      refs plus the evicted ones, and ranks and frequencies count the reads. */
  lemma IndexStaysSound(ub: nat, lb: nat, table: Refs, acts: seq<Act>)
    requires lb <= ub && Exec(Loaded(ub, lb, table, Sizes(table)), Enabled, Next, acts).Some?
    ensures Sound(Exec(Loaded(ub, lb, table, Sizes(table)), Enabled, Next, acts).value)
  {
    var start := Loaded(ub, lb, table, Sizes(table));
    assert Sound(start);
    hide Sound, Enabled, Next;
    forall m, a | Sound(m) && Enabled(m, a) ensures Sound(Next(m, a)) {
      StepKeepsSound(m, a);
    }
    Invariance(start, Enabled, Next, Sound, acts);
  }

  // ---------- Eviction ----------

  /** Making room takes only least used refs, never the new one, takes off the books what it removes and
      not more than is there, and leaves the size at the lower bound at most unless the whole least used
      bucket was not enough. */
  lemma EvictionAccount(m: Machine, a: Act)
    requires Sound(m) && a.Set? && Enabled(m, a)
    ensures a.k in Next(m, a).s.refs && a.k !in a.victims
    ensures forall k :: k in m.s.refs && k !in Next(m, a).s.refs ==> LeastUsed(m.s.refs, k)
    ensures m.s.size + a.size - Next(m, a).s.size == Weigh(m.s.refs, a.victims) <= m.s.size
    ensures m.s.ub > 0 && m.s.lb > 0 && m.s.size + a.size > m.s.ub ==>
              Next(m, a).s.size <= m.s.lb || forall k :: k in m.s.refs && LeastUsed(m.s.refs, k) ==> k !in Next(m, a).s.refs
    ensures m.s.ub == 0 || m.s.lb == 0 || m.s.size + a.size <= m.s.ub ==>
              Next(m, a).s.refs == m.s.refs[a.k := Ref(a.size, a.freq, a.id)]
  {
    VictimsAreLive(m.s, a.size, a.victims);
    SizesMinus(m.s.refs, a.victims);
    assert forall k :: k in a.victims <==> k in Elements(a.victims);
    if !Overflows(m.s, a.size) { assert m.s.refs - Elements([]) == m.s.refs; }
  }

  /** A new ref ranks as high as any: it is among the least used exactly when all live refs are in its bucket. */
  lemma NewIsEvictedLast(m: Machine, a: Act)
    requires Enabled(m, a) && a.Set? && NewId(m.s.refs - Elements(a.victims), a.id)
    ensures var refs := Next(m, a).s.refs;
            && a.k in refs && (forall k :: k in refs ==> refs[k].bucketId <= refs[a.k].bucketId)
            && (LeastUsed(refs, a.k) <==> forall k :: k in refs ==> refs[k].bucketId == refs[a.k].bucketId)
            && (|refs| == 1 ==> refs[a.k].bucketId == 1)
  {
    var rest := m.s.refs - Elements(a.victims);
    var refs := Next(m, a).s.refs;
    assert refs == rest[a.k := Ref(a.size, a.freq, a.id)];
    forall k | k in rest ensures rest[k].bucketId <= a.id { assert Filing(rest)[k] == rest[k].bucketId; }
    if rest != map[] {
      var k :| k in rest;
      assert {k, a.k} <= refs.Keys && |{k, a.k}| == 2;
      FewerKeys({k, a.k}, refs.Keys);
      assert |refs| == |refs.Keys|;
    }
  }

  lemma {:induction false} FewerKeys(a: set<string>, b: set<string>)
    requires a <= b
    ensures |a| <= |b|
    decreases a
  {
    if a != {} {
      var x :| x in a;
      FewerKeys(a - {x}, b - {x});
    }
  }

  // ---------- Reloading ----------

  function Restrict(m: Refs, keys: set<string>): Refs {
    map k | k in m && k in keys :: m[k]
  }

  lemma RestrictWithout(m: Refs, keys: set<string>, k: string)
    requires k in m && k in keys
    ensures m - {k} - keys == m - keys && Restrict(m, keys) - {k} == Restrict(m - {k}, keys)
  {
  }

  lemma {:induction false} SizesSplit(m: Refs, keys: set<string>)
    requires keys <= m.Keys
    ensures Sizes(m) == Sizes(m - keys) + Sizes(Restrict(m, keys))
    decreases |keys|
  {
    if keys == {} {
      assert m - keys == m && Restrict(m, keys) == map[];
    } else {
      var k :| k in keys;
      SizesSplit(m - {k}, keys - {k});
      SizesWithout(m, k);
      SizesWithout(Restrict(m, keys), k);
      RestrictWithout(m, keys, k);
      assert m - {k} - (keys - {k}) == m - keys;
      assert Restrict(m - {k}, keys - {k}) == Restrict(m - {k}, keys);
    }
  }

  /** Loading what is persisted rebuilds the bucket list exactly when every key ever evicted was set again;
      the size on the books then differs by what was dropped, and by the evicted refs that come back. */
  lemma ReloadExactly(m: Machine, list: seq<Bucket>, reloaded: seq<Bucket>)
    requires Sound(m) && ListOf(list, Filing(m.s.refs)) && ListOf(reloaded, Filing(m.s.table))
    ensures reloaded == list <==> m.gone == {}
    ensures m.s.table == m.s.refs <==> m.gone == {}
    ensures Sizes(m.s.table) == m.s.size - m.dropped + Sizes(Restrict(m.s.table, m.gone))
  {
    hide ListOf;
    SizesSplit(m.s.table, m.gone);
    assert m.s.table - m.gone == m.s.refs;
    if m.gone == {} {
      assert m.s.table == m.s.refs;
      ListUnique(list, reloaded, Filing(m.s.refs));
    } else {
      var k :| k in m.gone;
      assert k in Filing(m.s.table) && k !in Filing(m.s.refs);
      InItsBucket(reloaded, Filing(m.s.table), k);
      var i :| 0 <= i < |reloaded| && k in reloaded[i].keys;
      if reloaded == list { FiledHere(list, Filing(m.s.refs), i, k); }
    }
  }

  /** Runs in which nothing is evicted. */
  predicate QuietlyEnabled(m: Machine, a: Act) {
    Enabled(m, a) && (a.Set? ==> a.victims == [])
  }

  ghost predicate Quiet(m: Machine) {
    Sound(m) && m.gone == {}
  }

  /** After every run without eviction, loading the table in any order rebuilds the live bucket list. */
  lemma QuietRunsReload(ub: nat, lb: nat, table: Refs, acts: seq<Act>, list: seq<Bucket>, reloaded: seq<Bucket>)
    requires lb <= ub && Exec(Loaded(ub, lb, table, Sizes(table)), QuietlyEnabled, Next, acts).Some?
    requires var m := Exec(Loaded(ub, lb, table, Sizes(table)), QuietlyEnabled, Next, acts).value;
             ListOf(list, Filing(m.s.refs)) && ListOf(reloaded, Filing(m.s.table))
    ensures reloaded == list
  {
    var start := Loaded(ub, lb, table, Sizes(table));
    assert Quiet(start);
    forall m, a | Quiet(m) && QuietlyEnabled(m, a) ensures Quiet(Next(m, a)) {
      hide Sound, Enabled;
      StepKeepsSound(m, a);
    }
    hide Quiet, QuietlyEnabled, Next, Loaded, ListOf;
    Invariance(start, QuietlyEnabled, Next, Quiet, acts);
    ReloadQuiet(Exec(start, QuietlyEnabled, Next, acts).value, list, reloaded);
  }

  lemma ReloadQuiet(m: Machine, list: seq<Bucket>, reloaded: seq<Bucket>)
    requires Quiet(m) && ListOf(list, Filing(m.s.refs)) && ListOf(reloaded, Filing(m.s.table))
    ensures reloaded == list
  {
    hide ListOf, Sound;
    ReloadExactly(m, list, reloaded);
  }

  /** A persisted key without a live ref, on which DropRef fails, is one that was evicted. */
  lemma NilRefExactly(m: Machine, k: string)
    requires Sound(m)
    ensures k in m.s.table && k !in m.s.refs <==> k in m.gone
  {
    assert k in m.s.table.Keys <==> k in m.s.refs.Keys + m.gone;
  }

  // ---------- Rank and frequency ----------

  function ReadTimes(s: State, k: string, n: nat): (s': State)
    requires k in s.refs
    ensures s'.refs.Keys == s.refs.Keys
  {
    if n == 0 then s else AfterGet(ReadTimes(s, k, n - 1), k)
  }

  lemma {:induction false} ReadTimesCounts(s: State, k: string, n: nat)
    requires k in s.refs
    ensures ReadTimes(s, k, n).refs ==
            s.refs[k := Ref(s.refs[k].size, s.refs[k].freq + n, s.refs[k].bucketId + n)]
  {
    if n > 0 { ReadTimesCounts(s, k, n - 1); }
  }

  /** The refs after reading x some times and y some times. */
  function ReadBoth(s: State, x: string, a: nat, y: string, b: nat): (m: Refs)
    requires x in s.refs && y in s.refs
    ensures x in m && y in m
  {
    ReadTimes(ReadTimes(s, x, a), y, b).refs
  }

  lemma ReadBothCounts(s: State, x: string, a: nat, y: string, b: nat)
    requires x in s.refs && y in s.refs && x != y
    ensures var m := ReadBoth(s, x, a, y, b);
            && m[x].bucketId == s.refs[x].bucketId + a && m[x].freq == s.refs[x].freq + a
            && m[y].bucketId == s.refs[y].bucketId + b && m[y].freq == s.refs[y].freq + b
  {
    ReadTimesCounts(s, x, a);
    ReadTimesCounts(ReadTimes(s, x, a), y, b);
  }

  /** Two refs rank by frequency: the one in the lower bucket is the one read less. */
  predicate RankedByUse(m: Refs, x: string, y: string)
    requires x in m && y in m
  {
    m[x].bucketId <= m[y].bucketId <==> m[x].freq <= m[y].freq
  }

  /** However often two refs are read, they rank by frequency, exactly when the one entered as far ahead of
      its frequency as the other. A new ref enters at the most used bucket, so this is not always so. */
  lemma RankIsFrequencyExactly(s: State, x: string, y: string)
    requires x in s.refs && y in s.refs && x != y
    ensures (forall a: nat, b: nat :: RankedByUse(ReadBoth(s, x, a, y, b), x, y)) <==>
            s.refs[x].bucketId - s.refs[x].freq == s.refs[y].bucketId - s.refs[y].freq
  {
    hide ReadBoth;
    var leadX, leadY := s.refs[x].bucketId - s.refs[x].freq, s.refs[y].bucketId - s.refs[y].freq;
    if leadX == leadY {
      forall a: nat, b: nat ensures RankedByUse(ReadBoth(s, x, a, y, b), x, y) {
        ReadBothCounts(s, x, a, y, b);
      }
    } else {
      var d := s.refs[y].freq - s.refs[x].freq + if leadX < leadY then 1 else 0;
      var a, b := if d >= 0 then d else 0, if d >= 0 then 0 else -d;
      ReadBothCounts(s, x, a, y, b);
      assert !RankedByUse(ReadBoth(s, x, a, y, b), x, y);
    }
  }

  // ---------- A run in which the more read ref is evicted ----------

  /** Bounds of 10 and 5, nothing dropped and nothing evicted. */
  function Plain(refs: Refs, size: nat, entered: map<string, (int, int)>, uses: map<string, nat>): Machine {
    Machine(State(refs, refs, size, 10, 5), 0, {}, entered, uses)
  }

  ghost function Empty(): Machine {
    Loaded(10, 5, map[], Sizes(map[]))
  }

  /** One ref, read n times. */
  function One(n: nat): Machine {
    Plain(map["a" := Ref(4, n, n + 1)], 4, map["a" := (1, 0)], map["a" := n])
  }

  /** A second one, set when the first had been read twice, and read n times. */
  function Two(n: nat): Machine {
    Plain(map["a" := Ref(4, 2, 3), "b" := Ref(4, n, n + 3)], 8,
          map["a" := (1, 0), "b" := (3, 0)], map["a" := 2, "b" := n])
  }

  lemma SetsFirst()
    ensures Enabled(Empty(), Set("a", 4, 0, [], 1)) && Next(Empty(), Set("a", 4, 0, [], 1)) == One(0)
  {
    var m: Refs := map[];
    assert m - Elements([]) == m;
  }

  lemma ReadsFirst(n: nat)
    ensures Enabled(One(n), Get("a")) && Next(One(n), Get("a")) == One(n + 1)
  {
  }

  lemma SetsSecond()
    ensures Enabled(One(2), Set("b", 4, 0, [], 3)) && Next(One(2), Set("b", 4, 0, [], 3)) == Two(0)
  {
    var m := One(2).s.refs;
    assert m - Elements([]) == m;
    assert Filing(m)["a"] == 3;
  }

  lemma ReadsSecond(n: nat)
    ensures Enabled(Two(n), Get("b")) && Next(Two(n), Get("b")) == Two(n + 1)
  {
  }

  lemma ThirdEvicts(a: Act)
    requires a == Set("c", 4, 0, ["a"], 4)
    ensures Enabled(Two(1), a)
    ensures Next(Two(1), a).s.refs == map["b" := Ref(4, 1, 4), "c" := Ref(4, 0, 4)]
    ensures "a" in Next(Two(1), a).gone && Next(Two(1), a).uses == map["a" := 2, "b" := 1, "c" := 0]
  {
    var m := Two(1).s.refs;
    assert Elements(["a"]) == {"a"};
    assert m - {"a"} == map["b" := Ref(4, 1, 4)];
    assert Filing(m - {"a"})["b"] == 4;
    assert ["a"][..0] == [] && Weigh(m, ["a"]) == 4;
  }

  lemma Extended(acts: seq<Act>, m: Machine, a: Act, m': Machine) returns (acts': seq<Act>)
    requires Exec(Empty(), Enabled, Next, acts) == Some(m) && Enabled(m, a) && Next(m, a) == m'
    ensures Exec(Empty(), Enabled, Next, acts') == Some(m')
  {
    ExecExtend(Empty(), Enabled, Next, acts, a);
    acts' := acts + [a];
  }

  lemma SecondIsRead() returns (acts: seq<Act>)
    ensures Exec(Empty(), Enabled, Next, acts) == Some(Two(1))
  {
    hide *;
    SetsFirst();
    ReadsFirst(0);
    ReadsFirst(1);
    SetsSecond();
    ReadsSecond(0);
    NoCalls();
    acts := Extended([], Empty(), Set("a", 4, 0, [], 1), One(0));
    acts := Extended(acts, One(0), Get("a"), One(1));
    acts := Extended(acts, One(1), Get("a"), One(2));
    acts := Extended(acts, One(2), Set("b", 4, 0, [], 3), Two(0));
    acts := Extended(acts, Two(0), Get("b"), Two(1));
  }

  lemma NoCalls()
    ensures Exec(Empty(), Enabled, Next, []) == Some(Empty())
  {
  }

  /** In a run from an empty index the ref read twice is evicted, and the one read once and the one never
      read stay. */
  lemma MoreReadIsEvicted() returns (acts: seq<Act>, end: Machine)
    ensures Exec(Loaded(10, 5, map[], Sizes(map[])), Enabled, Next, acts) == Some(end)
    ensures "a" in end.gone && end.uses == map["a" := 2, "b" := 1, "c" := 0]
    ensures end.s.refs == map["b" := Ref(4, 1, 4), "c" := Ref(4, 0, 4)]
  {
    assert Empty() == Loaded(10, 5, map[], Sizes(map[]));
    hide *;
    acts := SecondIsRead();
    var last := Set("c", 4, 0, ["a"], 4);
    ThirdEvicts(last);
    end := Next(Two(1), last);
    acts := Extended(acts, Two(1), last, end);
  }
}
