/** Lanes of a payment channel: what vouchers redeem (payments/channel.go:841-946). */
module Lanes {
  import opened Options

  datatype LaneState = LaneState(redeemed: int, nonce: nat)

  type LaneMap = map<nat, LaneState>

  /** A signed voucher; two vouchers are the same when all their fields are. */
  datatype Voucher = Voucher(channelAddr: string, lane: nat, nonce: nat, amount: int, merges: nat, signature: string)

  /** One stored voucher over the lanes: it counts unless its nonce is lower. */
  function Supersede(ls: LaneMap, v: Voucher): LaneMap {
    if v.lane in ls && v.nonce < ls[v.lane].nonce then ls
    else ls[v.lane := LaneState(v.amount, v.nonce)]
  }

  /** laneState: the lanes on chain with the stored vouchers applied in order. */
  function Merge(ls: LaneMap, vs: seq<Voucher>): LaneMap {
    if vs == [] then ls else Supersede(Merge(ls, vs[..|vs| - 1]), vs[|vs| - 1])
  }

  lemma MergeAppend(ls: LaneMap, vs: seq<Voucher>, v: Voucher)
    ensures Merge(ls, vs + [v]) == Supersede(Merge(ls, vs), v)
  {
    assert (vs + [v])[..|vs + [v]| - 1] == vs;
  }

  /** What a lane has redeemed, nothing when it does not exist. */
  function Redeemed(ls: LaneMap, lane: nat): int {
    if lane in ls then ls[lane].redeemed else 0
  }

  // ---------- Totals ----------

  /** Total over all lanes. */
  ghost function Total(ls: LaneMap): int
    decreases |ls|
  {
    if ls == map[] then 0
    else
      var k :| k in ls;
      ls[k].redeemed + Total(ls - {k})
  }

  lemma {:induction false} TotalWithout(ls: LaneMap, k: nat)
    requires k in ls
    ensures Total(ls) == ls[k].redeemed + Total(ls - {k})
    decreases |ls|
  {
    var j :| j in ls && Total(ls) == ls[j].redeemed + Total(ls - {j});
    if j != k {
      TotalWithout(ls - {j}, k);
      TotalWithout(ls - {k}, j);
      assert ls - {j} - {k} == ls - {k} - {j};
    }
  }

  lemma TotalUpdate(ls: LaneMap, k: nat, s: LaneState)
    ensures Total(ls[k := s]) == Total(ls) - Redeemed(ls, k) + s.redeemed
  {
    var ls' := ls[k := s];
    TotalWithout(ls', k);
    assert ls' - {k} == ls - {k};
    if k in ls { TotalWithout(ls, k); } else { assert ls - {k} == ls; }
  }

  /** totalRedeemedWithVoucher: the running total corrected for one voucher. */
  ghost function TotalWith(ls: LaneMap, v: Voucher): int {
    if v.lane in ls then
      if v.nonce > ls[v.lane].nonce then Total(ls) + (v.amount - ls[v.lane].redeemed) else Total(ls)
    else Total(ls) + v.amount
  }

  /** The incremental total agrees with recomputing the lanes with the voucher appended, except for
      a voucher that repeats its lane's nonce with another amount. */
  lemma IncrementalTotalRefines(ls: LaneMap, vs: seq<Voucher>, v: Voucher)
    ensures var lanes := Merge(ls, vs);
            TotalWith(lanes, v) == Total(Merge(ls, vs + [v])) <==>
            !(v.lane in lanes && v.nonce == lanes[v.lane].nonce && v.amount != lanes[v.lane].redeemed)
  {
    MergeAppend(ls, vs, v);
    TotalUpdate(Merge(ls, vs), v.lane, LaneState(v.amount, v.nonce));
  }

  /** The loop over the lanes in any order. */
  method TotalRedeemed(ls: LaneMap) returns (total: int)
    ensures total == Total(ls)
  {
    total := 0;
    var rest := ls.Keys;
    ghost var left := ls;
    while rest != {}
      invariant left.Keys == rest && rest <= ls.Keys
      invariant forall k :: k in rest ==> left[k] == ls[k]
      invariant total + Total(left) == Total(ls)
      decreases |rest|
    {
      var k :| k in rest;
      TotalWithout(left, k);
      total := total + ls[k].redeemed;
      rest := rest - {k};
      left := left - {k};
    }
    assert left == map[];
  }

  method TotalRedeemedWithVoucher(ls: LaneMap, v: Voucher) returns (total: Option<int>)
    ensures total == if v.merges != 0 then None else Some(TotalWith(ls, v))
  {
    if v.merges != 0 { return None; }
    var t := TotalRedeemed(ls);
    if v.lane in ls {
      if v.nonce > ls[v.lane].nonce {
        var delta := v.amount - ls[v.lane].redeemed;
        t := t + delta;
      }
    } else {
      t := t + v.amount;
    }
    return Some(t);
  }

  /** No voucher merges lanes. */
  predicate Unmerged(vouchers: seq<Voucher>) {
    forall i :: 0 <= i < |vouchers| ==> vouchers[i].merges == 0
  }

  /** The loop over the stored vouchers; it fails at one that merges lanes. */
  method LaneStates(chain: LaneMap, vouchers: seq<Voucher>) returns (r: Option<LaneMap>)
    ensures r == if Unmerged(vouchers) then Some(Merge(chain, vouchers)) else None
  {
    var ls := chain;
    for i := 0 to |vouchers|
      invariant Unmerged(vouchers[..i]) && ls == Merge(chain, vouchers[..i])
    {
      var v := vouchers[i];
      if v.merges != 0 { return None; }
      assert vouchers[..i + 1] == vouchers[..i] + [v];
      MergeAppend(chain, vouchers[..i], v);
      if v.lane in ls && v.nonce < ls[v.lane].nonce { continue; }
      ls := ls[v.lane := LaneState(v.amount, v.nonce)];
    }
    assert vouchers[..|vouchers|] == vouchers;
    return Some(ls);
  }

  // ---------- Lane history ----------

  /** Later vouchers of a lane have higher nonces and amounts. */
  ghost predicate Rising(vs: seq<Voucher>) {
    forall i, j :: 0 <= i < j < |vs| && vs[i].lane == vs[j].lane ==> vs[i].nonce < vs[j].nonce && vs[i].amount < vs[j].amount
  }

  /** Index of the last voucher of a lane, or -1. */
  function LastOn(vs: seq<Voucher>, lane: nat): (i: int)
    ensures -1 <= i < |vs|
    ensures i >= 0 ==> vs[i].lane == lane
    ensures forall j :: i < j < |vs| ==> vs[j].lane != lane
  {
    if vs == [] then -1
    else if vs[|vs| - 1].lane == lane then |vs| - 1
    else
      LastOn(vs[..|vs| - 1], lane)
  }

  lemma {:induction false} MergeNonceBound(ls: LaneMap, vs: seq<Voucher>, lane: nat, bound: nat)
    requires lane in ls ==> ls[lane].nonce <= bound
    requires forall i :: 0 <= i < |vs| && vs[i].lane == lane ==> vs[i].nonce <= bound
    ensures lane in Merge(ls, vs) ==> Merge(ls, vs)[lane].nonce <= bound
  {
    if vs != [] { MergeNonceBound(ls, vs[..|vs| - 1], lane, bound); }
  }

  /** A lane shows its last stored voucher, or what is on chain when it has none. */
  lemma {:induction false} MergedLane(ls: LaneMap, vs: seq<Voucher>, lane: nat)
    requires Rising(vs)
    requires LastOn(vs, lane) >= 0 && lane in ls ==> ls[lane].nonce <= vs[LastOn(vs, lane)].nonce
    ensures var i := LastOn(vs, lane);
            if i >= 0 then lane in Merge(ls, vs) && Merge(ls, vs)[lane] == LaneState(vs[i].amount, vs[i].nonce)
            else (lane in Merge(ls, vs) <==> lane in ls) && (lane in ls ==> Merge(ls, vs)[lane] == ls[lane])
  {
    if vs != [] {
      var before, v := vs[..|vs| - 1], vs[|vs| - 1];
      if v.lane == lane {
        MergeNonceBound(ls, before, lane, v.nonce);
      } else {
        MergedLane(ls, before, lane);
      }
    }
  }

  /** Lanes on chain that lag behind or equal stored vouchers do not show: two such chains merge to
      the same lanes. */
  lemma MergeIgnoresLag(ls: LaneMap, ls': LaneMap, vs: seq<Voucher>)
    requires Rising(vs)
    requires forall k :: LastOn(vs, k) < 0 ==> (k in ls <==> k in ls') && (k in ls ==> ls[k] == ls'[k])
    requires forall k :: LastOn(vs, k) >= 0 && k in ls ==> ls[k].nonce <= vs[LastOn(vs, k)].nonce
    requires forall k :: LastOn(vs, k) >= 0 && k in ls' ==> ls'[k].nonce <= vs[LastOn(vs, k)].nonce
    ensures Merge(ls, vs) == Merge(ls', vs)
  {
    forall k
      ensures k in Merge(ls, vs) <==> k in Merge(ls', vs)
      ensures k in Merge(ls, vs) ==> Merge(ls, vs)[k] == Merge(ls', vs)[k]
    {
      MergedLane(ls, vs, k);
      MergedLane(ls', vs, k);
    }
  }
}
