/** A tracked payment channel: adding, creating and submitting vouchers (payments/channel.go,
    payments/store.go, payments/manager.go). The chain's lanes and balance, signature checks,
    message pushes and spendability calls are inputs. */
module PaymentChannel {
  import opened Options
  import opened Lanes

  datatype VoucherInfo = VoucherInfo(voucher: Voucher, submitted: bool)

  datatype ChannelInfo = ChannelInfo(addr: string, vouchers: seq<VoucherInfo>, nextLane: nat, amount: int)

  /** The payment channel actor: lanes redeemed on chain, and its balance. */
  datatype Chain = Chain(lanes: LaneMap, balance: int)

  datatype Error =
    | WrongChannel
    | BadSignature
    | NonceTooLow
    | AmountTooLow
    | MergesUnsupported
    | NotEnoughFunds(shortfall: int)
    | DeltaTooLow
    | NotStored
    | AlreadySubmitted
    | PushFailed
    | NothingToRedeem

  datatype Result<+T> = Ok(value: T) | Err(error: Error)

  function Stored(infos: seq<VoucherInfo>): (vs: seq<Voucher>)
    ensures |vs| == |infos| && forall i :: 0 <= i < |vs| ==> vs[i] == infos[i].voucher
  {
    seq(|infos|, i requires 0 <= i < |infos| => infos[i].voucher)
  }

  predicate Has(infos: seq<VoucherInfo>, sv: Voucher) {
    exists i :: 0 <= i < |infos| && infos[i].voucher == sv
  }

  /** Lanes as the channel sees them: on chain, with the stored vouchers applied. */
  function View(ci: ChannelInfo, chain: Chain): LaneMap {
    Merge(chain.lanes, Stored(ci.vouchers))
  }

  /** What all lanes redeem; there is no answer once a stored voucher merges lanes. */
  ghost function RedeemedTotal(ci: ChannelInfo, chain: Chain): Option<int> {
    if Unmerged(Stored(ci.vouchers)) then Some(Total(View(ci, chain))) else None
  }

  // ---------- Specifications ----------

  /** checkVoucherValidUnlocked: the first reason to reject a voucher. */
  ghost function Check(ci: ChannelInfo, sv: Voucher, signed: bool, chain: Chain): Option<Error> {
    var ls := View(ci, chain);
    if sv.channelAddr != ci.addr then Some(WrongChannel)
    else if !signed then Some(BadSignature)
    else if !Unmerged(Stored(ci.vouchers)) then Some(MergesUnsupported)
    else if sv.lane in ls && sv.nonce <= ls[sv.lane].nonce then Some(NonceTooLow)
    else if sv.lane in ls && sv.amount <= ls[sv.lane].redeemed then Some(AmountTooLow)
    else if sv.merges != 0 then Some(MergesUnsupported)
    else if chain.balance < TotalWith(ls, sv) then Some(NotEnoughFunds(TotalWith(ls, sv) - chain.balance))
    else None
  }

  /** The channel record with one more voucher. */
  function Append(ci: ChannelInfo, sv: Voucher, chain: Chain): ChannelInfo {
    ci.(vouchers := ci.vouchers + [VoucherInfo(sv, false)],
        nextLane := if ci.nextLane <= sv.lane then sv.lane + 1 else ci.nextLane,
        amount := if ci.amount < chain.balance then chain.balance else ci.amount)
  }

  /** addVoucherUnlocked: the new record and the change in value. */
  ghost function Add(ci: ChannelInfo, sv: Voucher, signed: bool, minDelta: int, chain: Chain): (ChannelInfo, Result<int>) {
    if Has(ci.vouchers, sv) then (ci, Ok(0))
    else
      match Check(ci, sv, signed, chain)
      case Some(e) => (ci, Err(e))
      case None =>
        var delta := sv.amount - Redeemed(View(ci, chain), sv.lane);
        if minDelta > delta then (ci, Err(DeltaTooLow)) else (Append(ci, sv, chain), Ok(delta))
  }

  /** One more than the highest nonce stored for a lane. */
  function NextNonce(infos: seq<VoucherInfo>, lane: nat): (n: nat)
    ensures 1 <= n
    ensures forall i :: 0 <= i < |infos| && infos[i].voucher.lane == lane ==> infos[i].voucher.nonce < n
    ensures n == 1 || exists i :: 0 <= i < |infos| && infos[i].voucher.lane == lane && infos[i].voucher.nonce == n - 1
  {
    if infos == [] then 1
    else
      var before, v := infos[..|infos| - 1], infos[|infos| - 1].voucher;
      var m := NextNonce(before, lane);
      assert forall i :: 0 <= i < |before| ==> before[i] == infos[i];
      if v.lane == lane && v.nonce >= m then v.nonce + 1 else m
  }

  datatype Created = NewVoucher(voucher: Voucher) | Shortfall(amount: int) | Failed(error: Error)

  /** createVoucher: the voucher with the lane's next nonce, stored, or the shortfall. */
  ghost function Create(ci: ChannelInfo, amount: int, lane: nat, signature: string, signed: bool, chain: Chain)
    : (ChannelInfo, Created)
  {
    var sv := Voucher(ci.addr, lane, NextNonce(ci.vouchers, lane), amount, 0, signature);
    var (ci', r) := Add(ci, sv, signed, 0, chain);
    match r
    case Ok(_) => (ci', NewVoucher(sv))
    case Err(NotEnoughFunds(s)) => (ci', Shortfall(s))
    case Err(e) => (ci', Failed(e))
  }

  /** markVoucherSubmitted: the voucher and those of lower nonce in its lane. */
  function Mark(infos: seq<VoucherInfo>, sv: Voucher): (r: seq<VoucherInfo>)
    ensures |r| == |infos|
    ensures forall i :: 0 <= i < |r| ==>
              && r[i].voucher == infos[i].voucher
              && (r[i].submitted <==> infos[i].submitted || infos[i].voucher == sv
                                      || (infos[i].voucher.lane == sv.lane && infos[i].voucher.nonce < sv.nonce))
  {
    seq(|infos|, i requires 0 <= i < |infos| =>
      var v := infos[i].voucher;
      VoucherInfo(v, infos[i].submitted || v == sv || (v.lane == sv.lane && v.nonce < sv.nonce)))
  }

  /** Whether the voucher was submitted, read from its first copy; None when it is not stored. */
  function WasSubmitted(infos: seq<VoucherInfo>, sv: Voucher): (r: Option<bool>)
    ensures r.None? <==> !Has(infos, sv)
  {
    if infos == [] then None
    else if infos[0].voucher == sv then
      assert Has(infos, sv); Some(infos[0].submitted)
    else
      var r := WasSubmitted(infos[1..], sv);
      assert r.Some? ==> Has(infos, sv) by {
        if r.Some? {
          var i :| 0 <= i < |infos[1..]| && infos[1..][i].voucher == sv;
          assert infos[i + 1].voucher == sv;
        }
      }
      assert Has(infos, sv) ==> r.Some? by {
        if Has(infos, sv) {
          var i :| 0 <= i < |infos| && infos[i].voucher == sv;
          assert infos[1..][i - 1].voucher == sv;
        }
      }
      r
  }

  /** submitVoucher; a voucher that is not stored is stored without any check. */
  function Submit(ci: ChannelInfo, sv: Voucher, pushed: bool): (ChannelInfo, Option<Error>) {
    match WasSubmitted(ci.vouchers, sv)
    case Some(true) => (ci, Some(AlreadySubmitted))
    case Some(false) =>
      if !pushed then (ci, Some(PushFailed)) else (ci.(vouchers := Mark(ci.vouchers, sv)), None)
    case None =>
      if !pushed then (ci, Some(PushFailed))
      else (ci.(vouchers := Mark(ci.vouchers + [VoucherInfo(sv, false)], sv)), None)
  }

  /** Submitting several vouchers: each marks itself and those of lower nonce in its lane. */
  function MarkAll(infos: seq<VoucherInfo>, done: set<Voucher>): (r: seq<VoucherInfo>)
    ensures |r| == |infos|
    ensures forall i :: 0 <= i < |r| ==>
              && r[i].voucher == infos[i].voucher
              && (r[i].submitted <==> infos[i].submitted || Covers(done, infos[i].voucher))
  {
    seq(|infos|, i requires 0 <= i < |infos| =>
      VoucherInfo(infos[i].voucher, infos[i].submitted || Covers(done, infos[i].voucher)))
  }

  predicate Covers(done: set<Voucher>, v: Voucher) {
    exists sv :: sv in done && (v == sv || (v.lane == sv.lane && v.nonce < sv.nonce))
  }

  /** checkVoucherSpendable: not submitted yet, and the chain would accept it. */
  predicate Spendable(infos: seq<VoucherInfo>, accepts: Voucher -> bool, v: Voucher) {
    WasSubmitted(infos, v) == Some(false) && accepts(v)
  }

  /** For each lane with a spendable voucher, a spendable voucher of the highest amount. */
  ghost predicate IsBest(infos: seq<VoucherInfo>, accepts: Voucher -> bool, best: map<nat, Voucher>) {
    && (forall k :: k in best ==> best[k].lane == k && Spendable(infos, accepts, best[k]))
    && (forall i :: 0 <= i < |infos| && Spendable(infos, accepts, infos[i].voucher) ==>
          infos[i].voucher.lane in best && infos[i].voucher.amount <= best[infos[i].voucher.lane].amount)
  }

  // ---------- The channel record, updated in place ----------

  class Channel {
    const addr: string
    var vouchers: seq<VoucherInfo>
    var nextLane: nat
    var amount: int

    function Info(): ChannelInfo
      reads this
    {
      ChannelInfo(addr, vouchers, nextLane, amount)
    }

    constructor (a: string, next: nat)
      ensures Info() == ChannelInfo(a, [], next, 0)
    {
      addr := a;
      vouchers := [];
      nextLane := next;
      amount := 0;
    }

    method AllocateLane() returns (lane: nat)
      modifies this
      ensures lane == old(nextLane) && Info() == old(Info()).(nextLane := lane + 1)
    {
      lane := nextLane;
      nextLane := nextLane + 1;
    }

    method NextNonceForLane(lane: nat) returns (n: nat)
      ensures n == NextNonce(vouchers, lane)
    {
      var maxNonce := 0;
      for i := 0 to |vouchers|
        invariant maxNonce + 1 == NextNonce(vouchers[..i], lane)
      {
        assert vouchers[..i + 1][..i] == vouchers[..i];
        var v := vouchers[i].voucher;
        if v.lane == lane {
          if v.nonce > maxNonce { maxNonce := v.nonce; }
        }
      }
      assert vouchers[..|vouchers|] == vouchers;
      n := maxNonce + 1;
    }

    method CheckVoucherValid(sv: Voucher, signed: bool, chain: Chain) returns (ls: LaneMap, e: Option<Error>)
      ensures e == Check(Info(), sv, signed, chain) && (e.None? ==> ls == View(Info(), chain))
    {
      if sv.channelAddr != addr { return map[], Some(WrongChannel); }
      if !signed { return map[], Some(BadSignature); }
      var lanes := LaneStates(chain.lanes, Stored(vouchers));
      if lanes.None? { return map[], Some(MergesUnsupported); }
      ls := lanes.value;
      if sv.lane in ls {
        if sv.nonce <= ls[sv.lane].nonce { return ls, Some(NonceTooLow); }
        if sv.amount <= ls[sv.lane].redeemed { return ls, Some(AmountTooLow); }
      }
      var total := TotalRedeemedWithVoucher(ls, sv);
      if total.None? { return ls, Some(MergesUnsupported); }
      if chain.balance < total.value { return ls, Some(NotEnoughFunds(total.value - chain.balance)); }
      return ls, None;
    }

    method AddVoucher(sv: Voucher, signed: bool, minDelta: int, chain: Chain) returns (r: Result<int>)
      modifies this
      ensures (Info(), r) == Add(old(Info()), sv, signed, minDelta, chain)
    {
      for i := 0 to |vouchers|
        invariant vouchers == old(vouchers) && nextLane == old(nextLane) && amount == old(amount)
        invariant forall j :: 0 <= j < i ==> vouchers[j].voucher != sv
      {
        if vouchers[i].voucher == sv { return Ok(0); }
      }
      var ls, e := CheckVoucherValid(sv, signed, chain);
      if e.Some? { return Err(e.value); }
      var redeemed := 0;
      if sv.lane in ls { redeemed := ls[sv.lane].redeemed; }
      var delta := sv.amount - redeemed;
      if minDelta > delta { return Err(DeltaTooLow); }
      vouchers := vouchers + [VoucherInfo(sv, false)];
      if nextLane <= sv.lane { nextLane := sv.lane + 1; }
      if amount < chain.balance { amount := chain.balance; }
      return Ok(delta);
    }

    method CreateVoucher(amt: int, lane: nat, signature: string, signed: bool, chain: Chain) returns (r: Created)
      modifies this
      ensures (Info(), r) == Create(old(Info()), amt, lane, signature, signed, chain)
    {
      var nonce := NextNonceForLane(lane);
      var sv := Voucher(addr, lane, nonce, amt, 0, signature);
      var added := AddVoucher(sv, signed, 0, chain);
      if added.Err? {
        if added.error.NotEnoughFunds? { return Shortfall(added.error.shortfall); }
        return Failed(added.error);
      }
      return NewVoucher(sv);
    }

    /** The amount that vouchers, submitted or not, redeem in all. */
    method VoucherRedeemedAmt(chain: Chain) returns (total: Option<int>)
      ensures total == RedeemedTotal(Info(), chain)
    {
      var lanes := LaneStates(chain.lanes, Stored(vouchers));
      if lanes.None? { return None; }
      var sum := TotalRedeemed(lanes.value);
      return Some(sum);
    }

    method MarkVoucherSubmitted(sv: Voucher)
      modifies this
      ensures Info() == old(Info()).(vouchers := Mark(old(vouchers), sv))
    {
      var marked := Mark(vouchers, sv);
      var i := 0;
      while i < |vouchers|
        invariant 0 <= i <= |vouchers| == |marked| && nextLane == old(nextLane) && amount == old(amount)
        invariant vouchers[..i] == marked[..i] && vouchers[i..] == old(vouchers)[i..] && |vouchers| == |old(vouchers)|
      {
        var v := vouchers[i].voucher;
        assert vouchers[i] == old(vouchers)[i];
        if v == sv || (v.lane == sv.lane && v.nonce < sv.nonce) {
          vouchers := vouchers[i := VoucherInfo(v, true)];
        }
        assert vouchers[i] == marked[i];
        i := i + 1;
      }
      assert vouchers == marked;
    }

    method SubmitVoucher(sv: Voucher, pushed: bool) returns (e: Option<Error>)
      modifies this
      ensures (Info(), e) == Submit(old(Info()), sv, pushed)
    {
      var submitted := WasSubmitted(vouchers, sv);
      if submitted == Some(true) { return Some(AlreadySubmitted); }
      if !pushed { return Some(PushFailed); }
      if submitted.None? {
        vouchers := vouchers + [VoucherInfo(sv, false)];
      }
      MarkVoucherSubmitted(sv);
      return None;
    }

    method BestSpendableByLane(accepts: Voucher -> bool) returns (best: map<nat, Voucher>)
      ensures IsBest(vouchers, accepts, best)
      ensures forall k :: k in best ==> accepts(best[k]) && WasSubmitted(vouchers, best[k]) == Some(false)
      ensures forall i :: 0 <= i < |vouchers| && accepts(vouchers[i].voucher) && WasSubmitted(vouchers, vouchers[i].voucher) == Some(false) ==>
                vouchers[i].voucher.lane in best && vouchers[i].voucher.amount <= best[vouchers[i].voucher.lane].amount
    {
      best := map[];
      for n := 0 to |vouchers|
        invariant forall k :: k in best ==> best[k].lane == k && Spendable(vouchers, accepts, best[k])
        invariant forall i :: 0 <= i < n && Spendable(vouchers, accepts, vouchers[i].voucher) ==>
                    vouchers[i].voucher.lane in best && vouchers[i].voucher.amount <= best[vouchers[i].voucher.lane].amount
      {
        var v := vouchers[n].voucher;
        if Spendable(vouchers, accepts, v) && (v.lane !in best || v.amount > best[v.lane].amount) {
          best := best[v.lane := v];
        }
      }
    }

    /** Submits the best voucher of every lane; pushes tells which messages reach the pool. A wait group
        counts the vouchers and each one submitted is counted off when its message is answered; `waits` are
        never counted off, and while there are any the call does not return. */
    method SubmitAllVouchers(accepts: Voucher -> bool, pushes: Voucher -> bool)
      returns (e: Option<Error>, best: map<nat, Voucher>, waits: nat)
      modifies this
      ensures waits == 0 <==> forall k :: k in best ==> pushes(best[k])
      ensures IsBest(old(vouchers), accepts, best) && forall k :: k in best ==> accepts(best[k])
      ensures e == if best == map[] then Some(NothingToRedeem) else None
      ensures Info() == old(Info()).(vouchers := MarkAll(old(vouchers), Pushed(best, {}, pushes)))
    {
      hide MarkAll, Submit, WasSubmitted, Spendable, Pushed;
      best := BestSpendableByLane(accepts);
      ghost var was := vouchers;
      MarkNone(was);
      PushedNone(best, pushes);
      waits := 0;
      if best == map[] {
        assert best.Keys == {};
        return Some(NothingToRedeem), best, 0;
      }
      var rest := best.Keys;
      while rest != {}
        invariant rest <= best.Keys
        invariant Info() == old(Info()).(vouchers := MarkAll(was, Pushed(best, rest, pushes)))
        invariant waits == 0 <==> forall k :: k in best && k !in rest ==> pushes(best[k])
        decreases |rest|
      {
        var k :| k in rest;
        PushedStep(best, rest, pushes, k);
        SubmitBest(Info(), was, Pushed(best, rest, pushes), accepts, best[k], pushes(best[k]));
        var err := SubmitVoucher(best[k], pushes(best[k]));
        if err.Some? { waits := waits + 1; }
        rest := rest - {k};
      }
      return None, best, waits;
    }
  }

  /** The best vouchers of the lanes outside rest whose messages reached the pool. */
  ghost function Pushed(best: map<nat, Voucher>, rest: set<nat>, pushes: Voucher -> bool): set<Voucher> {
    set k | k in best && k !in rest && pushes(best[k]) :: best[k]
  }

  lemma PushedNone(best: map<nat, Voucher>, pushes: Voucher -> bool)
    ensures Pushed(best, best.Keys, pushes) == {}
  {
  }

  lemma PushedStep(best: map<nat, Voucher>, rest: set<nat>, pushes: Voucher -> bool, k: nat)
    requires k in rest && rest <= best.Keys && forall x :: x in best ==> best[x].lane == x
    ensures Pushed(best, rest - {k}, pushes) == Pushed(best, rest, pushes) + if pushes(best[k]) then {best[k]} else {}
    ensures forall sv :: sv in Pushed(best, rest, pushes) ==> sv.lane != best[k].lane
  {
  }

  lemma MarkNone(infos: seq<VoucherInfo>)
    ensures MarkAll(infos, {}) == infos
  {
  }

  /** A best voucher is still unsubmitted when its turn comes. */
  lemma SubmitBest(ci: ChannelInfo, was: seq<VoucherInfo>, done: set<Voucher>, accepts: Voucher -> bool, v: Voucher, pushed: bool)
    requires ci.vouchers == MarkAll(was, done) && Spendable(was, accepts, v)
    requires forall sv :: sv in done ==> sv.lane != v.lane
    ensures Submit(ci, v, pushed).0 == ci.(vouchers := MarkAll(was, done + if pushed then {v} else {}))
    ensures Submit(ci, v, pushed).1.None? <==> pushed
  {
    MarkAllElsewhere(was, done, v);
    MarkAllOne(was, done, v);
    assert done + {} == done;
  }

  /** Submissions in other lanes do not touch a voucher. */
  lemma {:induction false} MarkAllElsewhere(infos: seq<VoucherInfo>, done: set<Voucher>, v: Voucher)
    requires forall sv :: sv in done ==> sv.lane != v.lane
    ensures WasSubmitted(MarkAll(infos, done), v) == WasSubmitted(infos, v)
  {
    if infos != [] && infos[0].voucher != v {
      MarkAllElsewhere(infos[1..], done, v);
      assert MarkAll(infos, done)[1..] == MarkAll(infos[1..], done);
    }
  }

  lemma MarkAllOne(infos: seq<VoucherInfo>, done: set<Voucher>, v: Voucher)
    ensures Mark(MarkAll(infos, done), v) == MarkAll(infos, done + {v})
  {
    forall i | 0 <= i < |infos|
      ensures Mark(MarkAll(infos, done), v)[i] == MarkAll(infos, done + {v})[i]
    {
      var x := infos[i].voucher;
      if Covers(done, x) {
        var sv :| sv in done && (x == sv || (x.lane == sv.lane && x.nonce < sv.nonce));
        assert sv in done + {v};
      }
      if x == v || (x.lane == v.lane && x.nonce < v.nonce) { assert v in done + {v}; }
    }
  }
}
