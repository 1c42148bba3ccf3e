/** Whole runs of a payment channel: vouchers added and created, funds deposited, vouchers redeemed
    on chain and submitted, in any order. */
module ChannelRuns {
  import opened Options
  import opened Lanes
  import opened PaymentChannel
  import opened Runs

  /** A channel with its actor. `start` are the lanes on chain when it was first tracked, `earned`
      the changes in value returned for each lane since then. */
  datatype Ledger = Ledger(ci: ChannelInfo, chain: Chain, start: LaneMap, earned: map<nat, int>)

  datatype Action =
    | AddInbound(sv: Voucher, signed: bool, minDelta: nat)
    | CreateNew(amount: int, lane: nat, signature: string, signed: bool)
    | Deposit(value: nat)
    | Redeem(i: nat)
    | Allocate
    | SubmitStored(i: nat, pushed: bool)

  /** A channel that starts to be tracked with its lanes covered by its balance. */
  ghost predicate Starts(l: Ledger) {
    && l.ci.vouchers == [] && l.earned == map[] && l.chain.lanes == l.start
    && Total(l.start) <= l.chain.balance
    && forall k :: k in l.start ==> k < l.ci.nextLane && 0 <= l.start[k].redeemed
  }

  /** The chain redeems only stored vouchers, and none with a nonce below its lane's. */
  predicate Enabled(l: Ledger, a: Action) {
    match a
    case Redeem(i) =>
      i < |l.ci.vouchers| &&
      var v := l.ci.vouchers[i].voucher;
      v.lane in l.chain.lanes ==> l.chain.lanes[v.lane].nonce <= v.nonce
    case SubmitStored(i, _) => i < |l.ci.vouchers|
    case _ => true
  }

  function Earned(l: Ledger, k: nat): int {
    if k in l.earned then l.earned[k] else 0
  }

  ghost function Added(l: Ledger, sv: Voucher, signed: bool, minDelta: int): Ledger {
    var (ci, r) := Add(l.ci, sv, signed, minDelta, l.chain);
    l.(ci := ci, earned := if r.Ok? then l.earned[sv.lane := Earned(l, sv.lane) + r.value] else l.earned)
  }

  ghost function Next(l: Ledger, a: Action): Ledger {
    match a
    case AddInbound(sv, signed, minDelta) => Added(l, sv, signed, minDelta)
    case CreateNew(amount, lane, signature, signed) =>
      Added(l, Voucher(l.ci.addr, lane, NextNonce(l.ci.vouchers, lane), amount, 0, signature), signed, 0)
    case Deposit(value) => l.(chain := l.chain.(balance := l.chain.balance + value))
    case Redeem(i) =>
      if i >= |l.ci.vouchers| then l
      else
        var v := l.ci.vouchers[i].voucher;
        l.(chain := l.chain.(lanes := l.chain.lanes[v.lane := LaneState(v.amount, v.nonce)]))
    case Allocate => l.(ci := l.ci.(nextLane := l.ci.nextLane + 1))
    case SubmitStored(i, pushed) =>
      if i >= |l.ci.vouchers| then l else l.(ci := Submit(l.ci, l.ci.vouchers[i].voucher, pushed).0)
  }

  // ---------- The invariant ----------

  /** Stored vouchers rise, start above the lanes first seen, and the chain holds each lane as first
      seen or as one of its stored vouchers. */
  ghost predicate History(l: Ledger) {
    var vs := Stored(l.ci.vouchers);
    && Rising(vs) && Unmerged(vs)
    && (forall i :: 0 <= i < |vs| && vs[i].lane in l.start ==>
          l.start[vs[i].lane].nonce < vs[i].nonce && l.start[vs[i].lane].redeemed < vs[i].amount)
    && (forall k :: k in l.start ==> k in l.chain.lanes)
    && (forall k :: k in l.chain.lanes ==> Seen(l, vs, k))
  }

  ghost predicate Seen(l: Ledger, vs: seq<Voucher>, k: nat)
    requires k in l.chain.lanes
  {
    || (k in l.start && l.chain.lanes[k] == l.start[k])
    || exists i :: 0 <= i < |vs| && vs[i].lane == k && l.chain.lanes[k] == LaneState(vs[i].amount, vs[i].nonce)
  }

  ghost predicate Solvent(l: Ledger) {
    var ls := View(l.ci, l.chain);
    && Total(ls) <= l.chain.balance
    && (forall k :: k in ls ==> 0 <= ls[k].redeemed && k < l.ci.nextLane)
  }

  ghost predicate Telescopes(l: Ledger) {
    forall k: nat :: Earned(l, k) == Redeemed(View(l.ci, l.chain), k) - Redeemed(l.start, k)
  }

  predicate Below(v: Voucher, v': Voucher) { v.lane == v'.lane && v.nonce < v'.nonce }

  /** Submitted vouchers of a lane are downward closed in nonce. */
  ghost predicate DownClosed(infos: seq<VoucherInfo>) {
    forall i, j :: 0 <= i < |infos| && 0 <= j < |infos| && Below(infos[i].voucher, infos[j].voucher) ==>
      infos[j].submitted ==> infos[i].submitted
  }

  ghost predicate Inv(l: Ledger) {
    History(l) && Solvent(l) && Telescopes(l) && DownClosed(l.ci.vouchers)
  }

  /** Redemption on chain does not show: the lanes are those first seen with the vouchers applied. */
  lemma ViewFromStart(l: Ledger)
    requires History(l)
    ensures View(l.ci, l.chain) == Merge(l.start, Stored(l.ci.vouchers))
  {
    var vs := Stored(l.ci.vouchers);
    forall k ensures LanesAgree(l, vs, k) { LanesSeen(l, k); }
    assert Rising(vs);
    hide History, Rising, LastOn, Merge;
    forall k | LastOn(vs, k) >= 0 && k in l.chain.lanes ensures l.chain.lanes[k].nonce <= vs[LastOn(vs, k)].nonce {
      assert LanesAgree(l, vs, k);
    }
    forall k | LastOn(vs, k) >= 0 && k in l.start ensures l.start[k].nonce <= vs[LastOn(vs, k)].nonce {
      assert LanesAgree(l, vs, k);
    }
    forall k | LastOn(vs, k) < 0
      ensures (k in l.start <==> k in l.chain.lanes) && (k in l.start ==> l.start[k] == l.chain.lanes[k])
    {
      assert LanesAgree(l, vs, k);
    }
    MergeIgnoresLag(l.start, l.chain.lanes, vs);
  }

  /** A lane on chain, and as first seen, is not ahead of its last voucher; without one, the two are the same. */
  ghost predicate LanesAgree(l: Ledger, vs: seq<Voucher>, k: nat) {
    var last := LastOn(vs, k);
    if last >= 0 then (k in l.chain.lanes ==> l.chain.lanes[k].nonce <= vs[last].nonce) && (k in l.start ==> l.start[k].nonce <= vs[last].nonce)
    else (k in l.start <==> k in l.chain.lanes) && (k in l.start ==> l.start[k] == l.chain.lanes[k])
  }

  lemma LanesSeen(l: Ledger, k: nat)
    requires History(l)
    ensures LanesAgree(l, Stored(l.ci.vouchers), k)
  {
    var vs := Stored(l.ci.vouchers);
    var last := LastOn(vs, k);
    if k in l.chain.lanes {
      assert Seen(l, vs, k);
      if last >= 0 && !(k in l.start && l.chain.lanes[k] == l.start[k]) {
        var i :| 0 <= i < |vs| && vs[i].lane == k && l.chain.lanes[k] == LaneState(vs[i].amount, vs[i].nonce);
        assert i <= last;
      }
    }
  }

  /** A lane shows its last voucher: no stored voucher of it is higher. */
  lemma ViewIsHighest(l: Ledger, i: nat)
    requires History(l) && i < |l.ci.vouchers|
    ensures var v, ls := l.ci.vouchers[i].voucher, View(l.ci, l.chain);
            v.lane in ls && v.nonce <= ls[v.lane].nonce && v.amount <= ls[v.lane].redeemed
  {
    var vs := Stored(l.ci.vouchers);
    var v := vs[i];
    ViewFromStart(l);
    MergedLane(l.start, vs, v.lane);
    assert i <= LastOn(vs, v.lane);
  }

  /** A lane never shows less than when it was first seen. */
  lemma ViewAboveStart(l: Ledger, k: nat)
    requires History(l) && k in l.start
    ensures var ls := View(l.ci, l.chain);
            k in ls && l.start[k].nonce <= ls[k].nonce && l.start[k].redeemed <= ls[k].redeemed
  {
    ViewFromStart(l);
    MergedLane(l.start, Stored(l.ci.vouchers), k);
  }

  // ---------- Steps ----------

  lemma StoredAppend(ci: ChannelInfo, sv: Voucher, chain: Chain)
    ensures Stored(Append(ci, sv, chain).vouchers) == Stored(ci.vouchers) + [sv]
    ensures View(Append(ci, sv, chain), chain) == Supersede(View(ci, chain), sv)
  {
    assert Stored(Append(ci, sv, chain).vouchers) == Stored(ci.vouchers) + [sv];
    MergeAppend(chain.lanes, Stored(ci.vouchers), sv);
  }

  lemma AppendKeepsHistory(l: Ledger, sv: Voucher)
    requires History(l) && sv.merges == 0
    requires var ls := View(l.ci, l.chain);
             sv.lane in ls ==> ls[sv.lane].nonce < sv.nonce && ls[sv.lane].redeemed < sv.amount
    ensures History(l.(ci := Append(l.ci, sv, l.chain)))
  {
    var l' := l.(ci := Append(l.ci, sv, l.chain));
    var vs := Stored(l.ci.vouchers);
    StoredAppend(l.ci, sv, l.chain);
    var vs' := vs + [sv];
    forall i | 0 <= i < |vs| && vs[i].lane == sv.lane
      ensures vs[i].nonce < sv.nonce && vs[i].amount < sv.amount
    {
      ViewIsHighest(l, i);
    }
    assert Rising(vs') by {
      assert forall i :: 0 <= i < |vs| ==> vs'[i] == vs[i];
    }
    assert Unmerged(vs') by { assert forall i :: 0 <= i < |vs| ==> vs'[i] == vs[i]; }
    if sv.lane in l.start { ViewAboveStart(l, sv.lane); }
    forall k | k in l.chain.lanes
      ensures Seen(l', vs', k)
    {
      assert Seen(l, vs, k);
      if !(k in l.start && l.chain.lanes[k] == l.start[k]) {
        var i :| 0 <= i < |vs| && vs[i].lane == k && l.chain.lanes[k] == LaneState(vs[i].amount, vs[i].nonce);
        assert vs'[i] == vs[i];
      }
    }
  }

  lemma AppendKeepsDownClosed(l: Ledger, sv: Voucher)
    requires History(l) && DownClosed(l.ci.vouchers)
    requires var ls := View(l.ci, l.chain); sv.lane in ls ==> ls[sv.lane].nonce < sv.nonce
    ensures DownClosed(Append(l.ci, sv, l.chain).vouchers)
  {
    var infos, infos' := l.ci.vouchers, Append(l.ci, sv, l.chain).vouchers;
    forall j | 0 <= j < |infos| && infos[j].voucher.lane == sv.lane
      ensures infos[j].voucher.nonce < sv.nonce
    {
      ViewIsHighest(l, j);
    }
    assert forall i :: 0 <= i < |infos| ==> infos'[i] == infos[i];
    assert infos'[|infos|] == VoucherInfo(sv, false);
  }

  /** What an accepted voucher does: it is above its lane, and the balance covers the new total. */
  lemma AcceptedVoucher(l: Ledger, sv: Voucher, signed: bool, minDelta: nat)
    requires !Has(l.ci.vouchers, sv) && Add(l.ci, sv, signed, minDelta, l.chain).1.Ok?
    ensures var ls := View(l.ci, l.chain);
            && (sv.lane in ls ==> ls[sv.lane].nonce < sv.nonce && ls[sv.lane].redeemed < sv.amount)
            && Redeemed(ls, sv.lane) <= sv.amount
            && Total(ls) - Redeemed(ls, sv.lane) + sv.amount <= l.chain.balance && sv.merges == 0
            && Added(l, sv, signed, minDelta) ==
                 l.(ci := Append(l.ci, sv, l.chain),
                    earned := l.earned[sv.lane := Earned(l, sv.lane) + sv.amount - Redeemed(ls, sv.lane)])
  {
    hide View, Append, Total;
  }

  lemma AddedKeepsInv(l: Ledger, sv: Voucher, signed: bool, minDelta: nat)
    requires Inv(l)
    ensures Inv(Added(l, sv, signed, minDelta))
  {
    hide History, DownClosed, Add, View;
    var r := Add(l.ci, sv, signed, minDelta, l.chain);
    if Has(l.ci.vouchers, sv) || r.1.Err? {
      NothingAdded(l, sv, signed, minDelta);
    } else {
      AcceptedVoucher(l, sv, signed, minDelta);
      AppendKeepsHistory(l, sv);
      AppendKeepsDownClosed(l, sv);
      StoredAppend(l.ci, sv, l.chain);
      TotalUpdate(View(l.ci, l.chain), sv.lane, LaneState(sv.amount, sv.nonce));
      var l' := l.(ci := Append(l.ci, sv, l.chain),
                   earned := l.earned[sv.lane := Earned(l, sv.lane) + sv.amount - Redeemed(View(l.ci, l.chain), sv.lane)]);
      EarnedIrrelevant(l.(ci := Append(l.ci, sv, l.chain)), l');
      assert Telescopes(l');
    }
  }

  lemma EarnedIrrelevant(l: Ledger, l': Ledger)
    requires History(l) && l' == l.(earned := l'.earned)
    ensures History(l')
  {
    var vs := Stored(l.ci.vouchers);
    forall k | k in l'.chain.lanes ensures Seen(l', vs, k) { assert Seen(l, vs, k); }
  }

  lemma NothingAdded(l: Ledger, sv: Voucher, signed: bool, minDelta: nat)
    requires Inv(l)
    requires Has(l.ci.vouchers, sv) || Add(l.ci, sv, signed, minDelta, l.chain).1.Err?
    ensures Inv(Added(l, sv, signed, minDelta))
    ensures Added(l, sv, signed, minDelta).ci == l.ci
    ensures forall k :: Earned(Added(l, sv, signed, minDelta), k) == Earned(l, k)
  {
    var l' := Added(l, sv, signed, minDelta);
    assert l'.ci == l.ci && l'.chain == l.chain && l'.start == l.start by { hide View, Check; }
    assert forall k :: Earned(l', k) == Earned(l, k) by { hide View, Check; }
    hide Add, View;
    EarnedIrrelevant(l, l');
  }

  /** Redeeming a stored voucher on chain leaves the merged view unchanged. */
  lemma RedeemKeepsView(l: Ledger, i: nat)
    requires History(l) && Enabled(l, Redeem(i))
    ensures History(Next(l, Redeem(i)))
    ensures View(l.ci, Next(l, Redeem(i)).chain) == View(l.ci, l.chain)
  {
    var l', vs, v := Next(l, Redeem(i)), Stored(l.ci.vouchers), l.ci.vouchers[i].voucher;
    forall k | k in l'.chain.lanes
      ensures Seen(l', vs, k)
    {
      if k == v.lane {
        assert vs[i].lane == k && l'.chain.lanes[k] == LaneState(vs[i].amount, vs[i].nonce);
      } else {
        assert Seen(l, vs, k);
      }
    }
    ViewFromStart(l);
    ViewFromStart(l');
  }

  lemma MarkKeepsDownClosed(infos: seq<VoucherInfo>, sv: Voucher)
    requires DownClosed(infos)
    ensures DownClosed(Mark(infos, sv))
  {
    var marked := Mark(infos, sv);
    forall i, j | 0 <= i < |marked| && 0 <= j < |marked| && Below(marked[i].voucher, marked[j].voucher) && marked[j].submitted
      ensures marked[i].submitted
    {
      assert Below(infos[i].voucher, infos[j].voucher);
    }
  }

  lemma SubmitKeepsInv(l: Ledger, i: nat, pushed: bool)
    requires Inv(l) && i < |l.ci.vouchers|
    ensures Inv(Next(l, SubmitStored(i, pushed)))
  {
    hide History, Solvent, Telescopes, DownClosed, Mark;
    var sv, l' := l.ci.vouchers[i].voucher, Next(l, SubmitStored(i, pushed));
    assert Has(l.ci.vouchers, sv);
    if l'.ci != l.ci {
      assert l' == l.(ci := l.ci.(vouchers := Mark(l.ci.vouchers, sv)));
      MarkKeepsDownClosed(l.ci.vouchers, sv);
      MarkKeepsLedger(l, sv);
    }
  }

  /** Marking vouchers as submitted changes neither lanes nor history. */
  lemma MarkKeepsLedger(l: Ledger, sv: Voucher)
    requires History(l) && Solvent(l) && Telescopes(l)
    ensures var l' := l.(ci := l.ci.(vouchers := Mark(l.ci.vouchers, sv)));
            History(l') && Solvent(l') && Telescopes(l')
  {
    var l', vs := l.(ci := l.ci.(vouchers := Mark(l.ci.vouchers, sv))), Stored(l.ci.vouchers);
    assert Stored(l'.ci.vouchers) == vs;
    assert View(l'.ci, l'.chain) == View(l.ci, l.chain);
    hide View, Mark, Stored;
    forall k | k in l'.chain.lanes ensures Seen(l', vs, k) { assert Seen(l, vs, k); }
  }

  lemma StepKeepsInv(l: Ledger, a: Action)
    requires Inv(l) && Enabled(l, a)
    ensures Inv(Next(l, a)) && Next(l, a).start == l.start
  {
    match a
    case AddInbound(sv, signed, minDelta) =>
      hide Inv;
      AddedKeepsInv(l, sv, signed, minDelta);
    case CreateNew(amount, lane, signature, signed) =>
      hide Inv;
      AddedKeepsInv(l, Voucher(l.ci.addr, lane, NextNonce(l.ci.vouchers, lane), amount, 0, signature), signed, 0);
    case Deposit(_) => ChainOrLanesKeepHistory(l, Next(l, a));
    case Allocate => ChainOrLanesKeepHistory(l, Next(l, a));
    case Redeem(i) => RedeemKeepsView(l, i);
    case SubmitStored(i, pushed) => SubmitKeepsInv(l, i, pushed);
  }

  /** Funds deposited or a lane allocated: vouchers and lanes stay. */
  lemma ChainOrLanesKeepHistory(l: Ledger, l': Ledger)
    requires Inv(l) && l'.start == l.start && l'.earned == l.earned
    requires l'.ci == l.ci.(nextLane := l'.ci.nextLane) && l.ci.nextLane <= l'.ci.nextLane
    requires l'.chain == l.chain.(balance := l'.chain.balance) && l.chain.balance <= l'.chain.balance
    ensures Inv(l')
  {
    var vs := Stored(l.ci.vouchers);
    forall k | k in l'.chain.lanes ensures Seen(l', vs, k) { assert Seen(l, vs, k); }
    assert View(l'.ci, l'.chain) == View(l.ci, l.chain);
    hide View;
  }

  lemma StartInv(l: Ledger)
    requires Starts(l)
    ensures Inv(l)
  {
    var vs := Stored(l.ci.vouchers);
    assert vs == [];
    assert View(l.ci, l.chain) == l.start;
    forall k | k in l.chain.lanes ensures Seen(l, vs, k) { }
  }

  lemma RunKeepsInv(l0: Ledger, acts: seq<Action>)
    requires Starts(l0) && Exec(l0, Enabled, Next, acts).Some?
    ensures Inv(Exec(l0, Enabled, Next, acts).value) && Exec(l0, Enabled, Next, acts).value.start == l0.start
  {
    StartInv(l0);
    hide Inv, Next, Enabled;
    forall l, a | Inv(l) && l.start == l0.start && Enabled(l, a)
      ensures Inv(Next(l, a)) && Next(l, a).start == l0.start
    {
      StepKeepsInv(l, a);
    }
    Invariance(l0, Enabled, Next, l => Inv(l) && l.start == l0.start, acts);
  }

  // ---------- Theorems ----------

  /** In every reachable state the redeemed total over all lanes is covered by the balance, and the
      merged lanes are the same as if nothing had been redeemed on chain. */
  lemma AlwaysSolvent(l0: Ledger, acts: seq<Action>)
    requires Starts(l0) && Exec(l0, Enabled, Next, acts).Some?
    ensures var l := Exec(l0, Enabled, Next, acts).value;
            && Total(View(l.ci, l.chain)) <= l.chain.balance
            && View(l.ci, l.chain) == Merge(l0.start, Stored(l.ci.vouchers))
  {
    hide Next, Enabled, Starts, View, History;
    RunKeepsInv(l0, acts);
    ViewFromStart(Exec(l0, Enabled, Next, acts).value);
  }

  /** Along every run the stored vouchers of each lane rise in nonce and amount above what was first
      seen, and what was earned on a lane is its last amount less what was redeemed at the start. */
  lemma LaneHistory(l0: Ledger, acts: seq<Action>, k: nat)
    requires Starts(l0) && Exec(l0, Enabled, Next, acts).Some?
    ensures var l := Exec(l0, Enabled, Next, acts).value;
            var vs := Stored(l.ci.vouchers);
            && (forall i, j :: 0 <= i < j < |vs| && vs[i].lane == vs[j].lane ==>
                  vs[i].nonce < vs[j].nonce && vs[i].amount < vs[j].amount)
            && (LastOn(vs, k) >= 0 ==> Earned(l, k) == vs[LastOn(vs, k)].amount - Redeemed(l0.start, k))
            && (LastOn(vs, k) < 0 ==> Earned(l, k) == 0)
            && (exists i :: 0 <= i < |vs| && vs[i].lane == k) == (LastOn(vs, k) >= 0)
  {
    hide Next, Enabled, Starts;
    RunKeepsInv(l0, acts);
    var l := Exec(l0, Enabled, Next, acts).value;
    var vs := Stored(l.ci.vouchers);
    ViewFromStart(l);
    hide View;
    MergedLane(l.start, vs, k);
    if LastOn(vs, k) >= 0 { assert vs[LastOn(vs, k)].lane == k; }
  }

  /** A voucher that was added adds nothing the second time, whatever the chain has become. */
  lemma ReAddingIsIdle(ci: ChannelInfo, sv: Voucher, signed: bool, minDelta: int, chain: Chain,
                       signed': bool, minDelta': int, chain': Chain)
    requires Add(ci, sv, signed, minDelta, chain).1.Ok?
    ensures var ci' := Add(ci, sv, signed, minDelta, chain).0;
            Add(ci', sv, signed', minDelta', chain') == (ci', Ok(0))
  {
    var ci' := Add(ci, sv, signed, minDelta, chain).0;
    if !Has(ci.vouchers, sv) {
      assert ci'.vouchers[|ci.vouchers|].voucher == sv;
      assert Has(ci'.vouchers, sv);
    }
  }

  /** Lanes handed out are new: no voucher and no lane on chain uses them. */
  lemma AllocatedLaneIsFresh(l0: Ledger, acts: seq<Action>)
    requires Starts(l0) && Exec(l0, Enabled, Next, acts).Some?
    ensures var l := Exec(l0, Enabled, Next, acts).value; l.ci.nextLane !in View(l.ci, l.chain)
  {
    hide Next, Enabled, Starts, View, History;
    RunKeepsInv(l0, acts);
  }
}
