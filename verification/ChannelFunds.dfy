/** What the channel says about its funds, and what it then keeps: shortfalls are exact, a report
    that funds suffice is never followed by a shortfall, and submitting leaves nothing behind. */
module ChannelFunds {
  import opened Options
  import opened Lanes
  import opened PaymentChannel
  import opened ChannelRuns
  import opened Runs

  // ---------- Shortfalls ----------

  function Raised(chain: Chain, x: nat): Chain { chain.(balance := chain.balance + x) }

  /** The reported shortfall is exact: raising the balance by it makes the same voucher acceptable, if it
      gains what was asked for, and any smaller raise still falls short by the rest. */
  lemma ShortfallIsExact(ci: ChannelInfo, sv: Voucher, signed: bool, minDelta: int, chain: Chain, x: nat)
    requires Add(ci, sv, signed, minDelta, chain).1.Err? && Add(ci, sv, signed, minDelta, chain).1.error.NotEnoughFunds?
    ensures var s := Add(ci, sv, signed, minDelta, chain).1.error.shortfall;
            var r := Add(ci, sv, signed, minDelta, Raised(chain, x)).1;
            && 0 < s
            && (x < s <==> r == Err(NotEnoughFunds(s - x)))
            && (s <= x ==> r == var gain := sv.amount - Redeemed(View(ci, chain), sv.lane);
                                if minDelta <= gain then Ok(gain) else Err(DeltaTooLow))
  {
    assert View(ci, Raised(chain, x)) == View(ci, chain);
    hide View;
  }

  // ---------- Reserved funds ----------

  /** Besides what other lanes redeem, the balance covers amount a on the lane. */
  ghost predicate Reserved(l: Ledger, lane: nat, a: int) {
    var ls := View(l.ci, l.chain);
    Total(ls) - Redeemed(ls, lane) + a <= l.chain.balance
  }

  /** Runs in which only this lane spends, and never more than a. */
  function OnlySpends(lane: nat, a: int): (Ledger, Action) -> bool {
    (l, act) => Enabled(l, act) && match act
                case AddInbound(sv, _, _) => sv.lane == lane && sv.amount <= a
                case CreateNew(amount, k, _, _) => k == lane && amount <= a
                case _ => true
  }

  lemma StepKeepsReserve(l: Ledger, act: Action, lane: nat, a: int)
    requires Inv(l) && Reserved(l, lane, a) && OnlySpends(lane, a)(l, act)
    ensures Reserved(Next(l, act), lane, a)
  {
    match act
    case AddInbound(sv, signed, minDelta) => AddKeepsReserve(l, sv, signed, minDelta, a);
    case CreateNew(amount, k, signature, signed) =>
      AddKeepsReserve(l, Voucher(l.ci.addr, k, NextNonce(l.ci.vouchers, k), amount, 0, signature), signed, 0, a);
    case Redeem(i) => RedeemKeepsView(l, i);
    case SubmitStored(i, pushed) => SubmitKeepsView(l, i, pushed);
    case Deposit(_) =>
    case Allocate =>
  }

  lemma SubmitKeepsView(l: Ledger, i: nat, pushed: bool)
    requires i < |l.ci.vouchers|
    ensures var l' := Next(l, SubmitStored(i, pushed)); View(l'.ci, l'.chain) == View(l.ci, l.chain) && l'.chain == l.chain
  {
    var sv, l' := l.ci.vouchers[i].voucher, Next(l, SubmitStored(i, pushed));
    assert Has(l.ci.vouchers, sv);
    assert Stored(l'.ci.vouchers) == Stored(l.ci.vouchers);
  }

  lemma AddKeepsReserve(l: Ledger, sv: Voucher, signed: bool, minDelta: nat, a: int)
    requires Inv(l) && Reserved(l, sv.lane, a)
    ensures Reserved(Added(l, sv, signed, minDelta), sv.lane, a)
  {
    hide Inv, View, Add;
    if Has(l.ci.vouchers, sv) || Add(l.ci, sv, signed, minDelta, l.chain).1.Err? {
      NothingAdded(l, sv, signed, minDelta);
    } else {
      AcceptedVoucher(l, sv, signed, minDelta);
      StoredAppend(l.ci, sv, l.chain);
      TotalUpdate(View(l.ci, l.chain), sv.lane, LaneState(sv.amount, sv.nonce));
    }
  }

  /** With funds reserved, a voucher up to the reserve never falls short. */
  lemma ReserveNeverShort(l: Ledger, amount: int, lane: nat, signature: string, signed: bool, a: int)
    requires Reserved(l, lane, a) && amount <= a
    ensures !Create(l.ci, amount, lane, signature, signed, l.chain).1.Shortfall?
  {
    hide View;
  }

  /** A reserve, once there, holds through every run in which only its lane spends: no voucher up to
      its amount ever falls short. */
  lemma ReserveHolds(l0: Ledger, acts: seq<Action>, lane: nat, a: int, amount: int, signature: string, signed: bool)
    requires Inv(l0) && Reserved(l0, lane, a) && amount <= a
    requires Exec(l0, OnlySpends(lane, a), Next, acts).Some?
    ensures var l := Exec(l0, OnlySpends(lane, a), Next, acts).value;
            !Create(l.ci, amount, lane, signature, signed, l.chain).1.Shortfall?
  {
    hide Inv, Reserved, Next, Create, Enabled;
    var inv := l => Inv(l) && Reserved(l, lane, a);
    forall l, act | inv(l) && OnlySpends(lane, a)(l, act) ensures inv(Next(l, act)) {
      StepKeepsInv(l, act);
      StepKeepsReserve(l, act, lane, a);
    }
    Invariance(l0, OnlySpends(lane, a), Next, inv, acts);
    ReserveNeverShort(Exec(l0, OnlySpends(lane, a), Next, acts).value, amount, lane, signature, signed, a);
  }

  /** GetChannel's test for reusing a channel (payments/manager.go:83-84). */
  ghost predicate Reusable(l: Ledger, a: int) {
    l.ci.amount - Total(View(l.ci, l.chain)) > a
  }

  /** CheckFunds' test that the channel is ready (retrieval/client/fsm.go:590-595). */
  ghost predicate Ready(l: Ledger, total: int) {
    total - (l.ci.amount - Total(View(l.ci, l.chain))) <= 0
  }

  /** A channel reused for amount a keeps it for the lane allocated next. */
  lemma ReuseReserves(l: Ledger, a: int)
    requires Inv(l) && l.ci.amount <= l.chain.balance && Reusable(l, a)
    ensures Reserved(Next(l, Allocate), l.ci.nextLane, a)
  {
    assert View(Next(l, Allocate).ci, l.chain) == View(l.ci, l.chain);
    hide View, History;
  }

  /** A channel reported ready for a total keeps it for the lane that asked. */
  lemma ReadyReserves(l: Ledger, lane: nat, total: int)
    requires Inv(l) && l.ci.amount <= l.chain.balance && Ready(l, total)
    ensures Reserved(l, lane, total)
  {
    hide View, History;
  }

  /** GetChannel's promise: in a channel reused for amount a, vouchers up to a on the lane allocated
      for it never fall short, whatever is deposited, redeemed or submitted meanwhile. */
  lemma ReusedChannelNeverShort(l: Ledger, a: int, acts: seq<Action>, amount: int, signature: string, signed: bool)
    requires Inv(l) && l.ci.amount <= l.chain.balance && Reusable(l, a) && amount <= a
    requires Exec(Next(l, Allocate), OnlySpends(l.ci.nextLane, a), Next, acts).Some?
    ensures var l' := Exec(Next(l, Allocate), OnlySpends(l.ci.nextLane, a), Next, acts).value;
            !Create(l'.ci, amount, l.ci.nextLane, signature, signed, l'.chain).1.Shortfall?
  {
    ReuseReserves(l, a);
    StepKeepsInv(l, Allocate);
    hide Inv, Next, Create;
    ReserveHolds(Next(l, Allocate), acts, l.ci.nextLane, a, amount, signature, signed);
  }

  /** CheckFunds' promise: once it reports ready for a total, vouchers up to that total on the lane
      never fall short while no other lane spends. */
  lemma ReadyChannelNeverShort(l: Ledger, lane: nat, total: int, acts: seq<Action>, amount: int, signature: string, signed: bool)
    requires Inv(l) && l.ci.amount <= l.chain.balance && Ready(l, total) && amount <= total
    requires Exec(l, OnlySpends(lane, total), Next, acts).Some?
    ensures var l' := Exec(l, OnlySpends(lane, total), Next, acts).value;
            !Create(l'.ci, amount, lane, signature, signed, l'.chain).1.Shortfall?
  {
    ReadyReserves(l, lane, total);
    hide Inv, Next, Create;
    ReserveHolds(l, acts, lane, total, amount, signature, signed);
  }

  /** The test for reuse is cautious by exactly one case: with the recorded amount equal to the balance, a channel that would
      do for the amount on its next lane is not reused exactly when nothing would be left of it. */
  lemma ReuseIsCautious(l: Ledger, a: int)
    requires Inv(l) && l.ci.amount == l.chain.balance
    ensures (!Reusable(l, a) && Reserved(Next(l, Allocate), l.ci.nextLane, a)) <==> a == l.chain.balance - Total(View(l.ci, l.chain))
  {
    assert View(Next(l, Allocate).ci, l.chain) == View(l.ci, l.chain);
    hide View, History;
  }

  /** The readiness test is cautious by exactly what the lane has redeemed already: with the recorded
      amount equal to the balance, it fails although the voucher fits exactly when the missing amount
      is at most that. */
  lemma ReadyIsCautious(l: Ledger, lane: nat, total: int)
    requires Inv(l) && l.ci.amount == l.chain.balance
    ensures var ls := View(l.ci, l.chain);
            (!Ready(l, total) && Reserved(l, lane, total)) <==>
            0 < total - (l.chain.balance - Total(ls)) <= Redeemed(ls, lane)
  {
    hide View, History;
  }

  /** The cautious case occurs: five of a balance of six are spent on one lane, whose next voucher of
      six fits, while the test still asks for five more. */
  lemma ReadyRefusesWhatFits()
    ensures var v := Voucher("ch", 0, 1, 5, 0, "");
            var l := Ledger(ChannelInfo("ch", [VoucherInfo(v, false)], 1, 6), Chain(map[], 6), map[], map[0 := 5]);
            && Inv(l) && !Ready(l, 6)
            && Create(l.ci, 6, 0, "", true, l.chain).1 == NewVoucher(Voucher("ch", 0, 2, 6, 0, ""))
  {
    var v, v2 := Voucher("ch", 0, 1, 5, 0, ""), Voucher("ch", 0, 2, 6, 0, "");
    var empty := Ledger(ChannelInfo("ch", [], 1, 6), Chain(map[], 6), map[], map[]);
    var l := Ledger(ChannelInfo("ch", [VoucherInfo(v, false)], 1, 6), Chain(map[], 6), map[], map[0 := 5]);
    assert Total(map[]) == 0;
    TotalUpdate(map[], 0, LaneState(5, 1));
    assert Stored([]) == [] && Stored(l.ci.vouchers) == [v] && [v][..0] == [];
    assert View(empty.ci, empty.chain) == map[];
    assert View(l.ci, l.chain) == map[0 := LaneState(5, 1)] == map[][0 := LaneState(5, 1)];
    StartInv(empty);
    assert Added(empty, v, true, 0) == l;
    AddedKeepsInv(empty, v, true, 0);
    assert NextNonce(l.ci.vouchers[..0], 0) == 1;
    assert NextNonce(l.ci.vouchers, 0) == 2;
    hide View, NextNonce;
    assert Check(l.ci, v2, true, l.chain) == None;
  }

  // ---------- Submission ----------

  /** Among the unsubmitted vouchers of a lane, the best is the one of the highest nonce. */
  lemma BestIsHighest(infos: seq<VoucherInfo>, accepts: Voucher -> bool, best: map<nat, Voucher>, i: nat)
    requires Rising(Stored(infos)) && IsBest(infos, accepts, best)
    requires i < |infos| && !infos[i].submitted && accepts(infos[i].voucher)
    ensures var v := infos[i].voucher;
            v.lane in best && (v == best[v.lane] || v.nonce < best[v.lane].nonce)
  {
    var vs, v := Stored(infos), infos[i].voucher;
    FirstCopy(infos, i);
    hide WasSubmitted;
    assert Spendable(infos, accepts, v);
    var b := best[v.lane];
    assert Has(infos, b);
    var j :| 0 <= j < |infos| && infos[j].voucher == b;
    assert vs[i] == v && vs[j] == b;
  }

  /** In rising vouchers no two are equal, so the first copy is the only one. */
  lemma {:induction false} FirstCopy(infos: seq<VoucherInfo>, i: nat)
    requires Rising(Stored(infos)) && i < |infos|
    ensures WasSubmitted(infos, infos[i].voucher) == Some(infos[i].submitted)
  {
    var vs := Stored(infos);
    if i > 0 {
      assert vs[0] != vs[i];
      assert Stored(infos[1..]) == vs[1..];
      assert Rising(vs[1..]) by { assert forall k :: 0 <= k < |vs| - 1 ==> vs[1..][k] == vs[k + 1]; }
      FirstCopy(infos[1..], i - 1);
    }
  }

  /** When every push succeeds and the chain accepts every unsubmitted voucher, submitting the best
      voucher of each lane leaves no voucher unsubmitted. */
  lemma SubmitAllLeavesNone(infos: seq<VoucherInfo>, accepts: Voucher -> bool, pushes: Voucher -> bool, best: map<nat, Voucher>)
    requires Rising(Stored(infos)) && IsBest(infos, accepts, best)
    requires forall i :: 0 <= i < |infos| && !infos[i].submitted ==> accepts(infos[i].voucher)
    requires forall k :: k in best ==> pushes(best[k])
    ensures forall i :: 0 <= i < |infos| ==> MarkAll(infos, Pushed(best, {}, pushes))[i].submitted
  {
    var done := Pushed(best, {}, pushes);
    forall i | 0 <= i < |infos|
      ensures MarkAll(infos, done)[i].submitted
    {
      if !infos[i].submitted {
        BestIsHighest(infos, accepts, best, i);
        assert best[infos[i].voucher.lane] in done;
        assert Covers(done, infos[i].voucher);
      }
    }
  }

  /** After every run the submitted vouchers of each lane are downward closed in nonce. */
  lemma SubmittedDownClosed(l0: Ledger, acts: seq<Action>)
    requires Starts(l0) && Exec(l0, Enabled, Next, acts).Some?
    ensures var infos := Exec(l0, Enabled, Next, acts).value.ci.vouchers;
            forall i, j :: 0 <= i < |infos| && 0 <= j < |infos| && Below(infos[i].voucher, infos[j].voucher) ==>
              infos[j].submitted ==> infos[i].submitted
  {
    hide Next, Enabled, Starts;
    RunKeepsInv(l0, acts);
  }

  /** Submitting a voucher that is not stored stores it unchecked. There is no total any more exactly when it
      merges lanes. Otherwise the lanes redeem no more than the balance exactly when they did and the lane shows
      a higher nonce, or the balance covers the voucher in place of what the lane redeemed. */
  lemma UncheckedSubmissionExactly(ci: ChannelInfo, sv: Voucher, chain: Chain)
    requires !Has(ci.vouchers, sv) && RedeemedTotal(ci, chain).Some?
    ensures var ls, after := View(ci, chain), RedeemedTotal(Submit(ci, sv, true).0, chain);
            && (after.None? <==> sv.merges != 0)
            && (sv.merges == 0 ==>
                  (after.value <= chain.balance <==>
                   if sv.lane in ls && sv.nonce < ls[sv.lane].nonce then Total(ls) <= chain.balance
                   else Total(ls) - Redeemed(ls, sv.lane) + sv.amount <= chain.balance))
  {
    var infos := Submit(ci, sv, true).0.vouchers;
    var vs := Stored(ci.vouchers);
    assert Stored(infos) == vs + [sv];
    assert (vs + [sv])[|vs|] == sv && forall i :: 0 <= i < |vs| ==> (vs + [sv])[i] == vs[i];
    MergeAppend(chain.lanes, Stored(ci.vouchers), sv);
    TotalUpdate(View(ci, chain), sv.lane, LaneState(sv.amount, sv.nonce));
  }

  /** So on every reachable ledger some voucher overdraws it: one above the balance on an unused lane. */
  lemma UncheckedSubmissionOverdraws(l: Ledger, sv: Voucher)
    requires Inv(l) && l.ci.nextLane <= sv.lane && l.chain.balance < sv.amount && sv.merges == 0
    ensures var after := RedeemedTotal(Submit(l.ci, sv, true).0, l.chain); after.Some? && after.value > l.chain.balance
  {
    var ls := View(l.ci, l.chain);
    assert sv.lane !in ls;
    if Has(l.ci.vouchers, sv) {
      var i :| 0 <= i < |l.ci.vouchers| && l.ci.vouchers[i].voucher == sv;
      ViewIsHighest(l, i);
    }
    UncheckedSubmissionExactly(l.ci, sv, l.chain);
    TotalNotNegative(ls);
  }

  lemma {:induction false} TotalNotNegative(ls: LaneMap)
    requires forall k :: k in ls ==> 0 <= ls[k].redeemed
    ensures 0 <= Total(ls)
    decreases |ls|
  {
    if ls != map[] {
      var k :| k in ls && Total(ls) == ls[k].redeemed + Total(ls - {k});
      TotalNotNegative(ls - {k});
    }
  }
}
