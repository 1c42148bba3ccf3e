/** Which vouchers a channel accepts, where the stored ones come from, and that none is submitted twice
    (payments/channel.go:616-839 and 1013-1069). */
module VoucherChecks {
  import opened Options
  import opened Lanes
  import opened PaymentChannel
  import opened ChannelRuns
  import opened Runs

  // ---------- Acceptance ----------

  /** The lanes with one more voucher than the stored ones. */
  function LanesWith(ci: ChannelInfo, sv: Voucher, chain: Chain): LaneMap {
    Merge(chain.lanes, Stored(ci.vouchers) + [sv])
  }

  /** What a voucher has to satisfy to be stored. */
  ghost predicate Acceptable(ci: ChannelInfo, sv: Voucher, signed: bool, minDelta: int, chain: Chain) {
    var ls := Merge(chain.lanes, Stored(ci.vouchers));
    && sv.channelAddr == ci.addr && signed
    && Unmerged(Stored(ci.vouchers) + [sv])
    && (sv.lane in ls ==> ls[sv.lane].nonce < sv.nonce && ls[sv.lane].redeemed < sv.amount)
    && Total(LanesWith(ci, sv, chain)) <= chain.balance
    && Redeemed(ls, sv.lane) + minDelta <= sv.amount
  }

  lemma UnmergedWith(vs: seq<Voucher>, sv: Voucher)
    ensures Unmerged(vs + [sv]) <==> Unmerged(vs) && sv.merges == 0
  {
    assert (vs + [sv])[|vs|] == sv;
    assert forall i :: 0 <= i < |vs| ==> (vs + [sv])[i] == vs[i];
  }

  /** A voucher that is not stored is stored, behind the others and not submitted, exactly when it is acceptable, and is
      worth what its lane gains; otherwise the channel stays as it was. */
  lemma AcceptedExactly(ci: ChannelInfo, sv: Voucher, signed: bool, minDelta: int, chain: Chain)
    requires !Has(ci.vouchers, sv)
    ensures var (ci', r) := Add(ci, sv, signed, minDelta, chain);
            && (r.Ok? <==> Acceptable(ci, sv, signed, minDelta, chain))
            && (r.Ok? ==> ci'.vouchers == ci.vouchers + [VoucherInfo(sv, false)]
                          && r.value == Total(LanesWith(ci, sv, chain)) - Total(Merge(chain.lanes, Stored(ci.vouchers))))
            && (r.Err? ==> ci' == ci)
  {
    var vs := Stored(ci.vouchers);
    var ls := Merge(chain.lanes, vs);
    UnmergedWith(vs, sv);
    IncrementalTotalRefines(chain.lanes, vs, sv);
    MergeAppend(chain.lanes, vs, sv);
    hide Merge, Total, Unmerged, Append;
    assert Append(ci, sv, chain).vouchers == ci.vouchers + [VoucherInfo(sv, false)] by { AppendedLast(ci, sv, chain); }
  }

  lemma AppendedLast(ci: ChannelInfo, sv: Voucher, chain: Chain)
    ensures Append(ci, sv, chain).vouchers == ci.vouchers + [VoucherInfo(sv, false)]
  {
  }

  /** Every refusal names a reason that holds; an amount that is missing is exactly what the balance lacks. */
  lemma RefusalNamesReason(ci: ChannelInfo, sv: Voucher, signed: bool, minDelta: int, chain: Chain)
    requires Add(ci, sv, signed, minDelta, chain).1.Err?
    ensures var ls := Merge(chain.lanes, Stored(ci.vouchers));
            match Add(ci, sv, signed, minDelta, chain).1.error
            case WrongChannel => sv.channelAddr != ci.addr
            case BadSignature => !signed && sv.channelAddr == ci.addr
            case NonceTooLow => sv.lane in ls && sv.nonce <= ls[sv.lane].nonce
            case AmountTooLow => sv.lane in ls && ls[sv.lane].nonce < sv.nonce && sv.amount <= ls[sv.lane].redeemed
            case MergesUnsupported => !Unmerged(Stored(ci.vouchers) + [sv])
            case NotEnoughFunds(missing) => missing == Total(LanesWith(ci, sv, chain)) - chain.balance > 0
            case DeltaTooLow => sv.amount - Redeemed(ls, sv.lane) < minDelta
            case _ => false
  {
    var vs := Stored(ci.vouchers);
    UnmergedWith(vs, sv);
    IncrementalTotalRefines(chain.lanes, vs, sv);
    MergeAppend(chain.lanes, vs, sv);
    hide Merge, Total, Unmerged, Append;
  }

  /** The voucher that CreateVoucher makes. */
  function Fresh(ci: ChannelInfo, amount: int, lane: nat, signature: string): Voucher {
    Voucher(ci.addr, lane, NextNonce(ci.vouchers, lane), amount, 0, signature)
  }

  lemma FreshIsNew(ci: ChannelInfo, amount: int, lane: nat, signature: string)
    ensures !Has(ci.vouchers, Fresh(ci, amount, lane, signature))
  {
  }

  /** A voucher is created exactly when it is acceptable; a shortfall is reported exactly as what the balance lacks for it,
      and for an amount that is not negative it is the least deposit with which the voucher is created. */
  lemma CreatedExactly(ci: ChannelInfo, amount: int, lane: nat, signature: string, signed: bool, chain: Chain, x: int)
    ensures var sv, r := Fresh(ci, amount, lane, signature), Create(ci, amount, lane, signature, signed, chain);
            var raised := Create(ci, amount, lane, signature, signed, chain.(balance := chain.balance + x)).1;
            && (r.1.NewVoucher? <==> Acceptable(ci, sv, signed, 0, chain))
            && (r.1.NewVoucher? ==> r.1.voucher == sv && r.0.vouchers == ci.vouchers + [VoucherInfo(sv, false)])
            && (!r.1.NewVoucher? ==> r.0 == ci)
            && (r.1.Shortfall? ==> r.1.amount == Total(LanesWith(ci, sv, chain)) - chain.balance > 0)
            && (r.1.Shortfall? && 0 <= amount ==> (raised.NewVoucher? <==> r.1.amount <= x))
  {
    var sv, richer := Fresh(ci, amount, lane, signature), chain.(balance := chain.balance + x);
    FreshIsNew(ci, amount, lane, signature);
    AcceptedExactly(ci, sv, signed, 0, chain);
    AcceptedExactly(ci, sv, signed, 0, richer);
    if Add(ci, sv, signed, 0, chain).1.Err? {
      RefusalNamesReason(ci, sv, signed, 0, chain);
      if Add(ci, sv, signed, 0, chain).1.error.NotEnoughFunds? { ShortOfFundsOnly(ci, sv, signed, chain); }
    }
    hide Add, Merge, Total, Unmerged, NextNonce, Has;
  }

  /** A voucher that lacks funds lacks nothing else. */
  lemma ShortOfFundsOnly(ci: ChannelInfo, sv: Voucher, signed: bool, chain: Chain)
    requires Add(ci, sv, signed, 0, chain).1.Err? && Add(ci, sv, signed, 0, chain).1.error.NotEnoughFunds?
    ensures var ls := Merge(chain.lanes, Stored(ci.vouchers));
            && sv.channelAddr == ci.addr && signed && Unmerged(Stored(ci.vouchers) + [sv])
            && (sv.lane in ls ==> ls[sv.lane].nonce < sv.nonce && ls[sv.lane].redeemed < sv.amount)
  {
    UnmergedWith(Stored(ci.vouchers), sv);
    hide Merge, Total, Unmerged;
  }

  // ---------- Where stored vouchers come from ----------

  /** The step asks for the voucher, with a signature that was verified. */
  predicate Origin(a: Action, v: Voucher) {
    || (a.AddInbound? && a.signed && a.sv == v)
    || (a.CreateNew? && a.signed && v.lane == a.lane && v.amount == a.amount && v.signature == a.signature && v.merges == 0)
  }

  ghost predicate Requested(acts: seq<Action>, v: Voucher) {
    exists n :: 0 <= n < |acts| && Origin(acts[n], v)
  }

  ghost predicate From(acts: seq<Action>, addr: string, infos: seq<VoucherInfo>) {
    forall i :: 0 <= i < |infos| ==> infos[i].voucher.channelAddr == addr && Requested(acts, infos[i].voucher)
  }

  lemma RequestedMore(acts: seq<Action>, a: Action, v: Voucher)
    ensures Requested(acts, v) || Origin(a, v) ==> Requested(acts + [a], v)
  {
    hide Origin;
    var acts' := acts + [a];
    if Requested(acts, v) {
      var n :| 0 <= n < |acts| && Origin(acts[n], v);
      assert Origin(acts'[n], v);
    }
    if Origin(a, v) { assert Origin(acts'[|acts|], v); }
  }

  /** What a step does to the stored vouchers: nothing, or it marks some, or it stores the one it asks for. */
  lemma StepStores(l: Ledger, a: Action)
    ensures var infos, infos' := l.ci.vouchers, Next(l, a).ci.vouchers;
            || (|infos'| == |infos| && forall i :: 0 <= i < |infos| ==> infos'[i].voucher == infos[i].voucher)
            || (|infos'| == |infos| + 1 && infos'[..|infos|] == infos && infos'[|infos|].voucher.channelAddr == l.ci.addr
                && Origin(a, infos'[|infos|].voucher))
    ensures Next(l, a).ci.addr == l.ci.addr
  {
    match a
    case AddInbound(sv, signed, minDelta) => AddedStores(l, sv, signed, minDelta);
    case CreateNew(amount, lane, signature, signed) =>
      AddedStores(l, Voucher(l.ci.addr, lane, NextNonce(l.ci.vouchers, lane), amount, 0, signature), signed, 0);
    case SubmitStored(i, pushed) => if i < |l.ci.vouchers| { SubmitStores(l.ci, l.ci.vouchers[i].voucher, pushed); }
    case _ =>
  }

  lemma AddedStores(l: Ledger, sv: Voucher, signed: bool, minDelta: int)
    ensures var infos, infos' := l.ci.vouchers, Added(l, sv, signed, minDelta).ci.vouchers;
            infos' == infos || (infos' == infos + [VoucherInfo(sv, false)] && signed && sv.channelAddr == l.ci.addr)
    ensures Added(l, sv, signed, minDelta).ci.addr == l.ci.addr
  {
    if !Has(l.ci.vouchers, sv) { AcceptedExactly(l.ci, sv, signed, minDelta, l.chain); }
    assert Add(l.ci, sv, signed, minDelta, l.chain).0.addr == l.ci.addr by { hide Check; }
    hide Check, View, Merge, Total, Unmerged;
  }

  lemma SubmitStores(ci: ChannelInfo, sv: Voucher, pushed: bool)
    requires Has(ci.vouchers, sv)
    ensures var infos, infos' := ci.vouchers, Submit(ci, sv, pushed).0.vouchers;
            |infos'| == |infos| && forall i :: 0 <= i < |infos| ==> infos'[i].voucher == infos[i].voucher
    ensures Submit(ci, sv, pushed).0.addr == ci.addr
  {
  }

  /** In every run each stored voucher bears the channel's address, and some step of the run asked for it with a valid
      signature. */
  lemma {:induction false} StoredIsSigned(l0: Ledger, acts: seq<Action>)
    requires Starts(l0) && Exec(l0, Enabled, Next, acts).Some?
    ensures From(acts, l0.ci.addr, Exec(l0, Enabled, Next, acts).value.ci.vouchers)
    ensures Exec(l0, Enabled, Next, acts).value.ci.addr == l0.ci.addr
  {
    if acts != [] {
      var init, a := acts[..|acts| - 1], acts[|acts| - 1];
      assert acts == init + [a];
      StoredIsSigned(l0, init);
      var l := Exec(l0, Enabled, Next, init).value;
      StepStores(l, a);
      hide Next, Enabled, Starts, Origin, Requested;
      StoredFrom(init, a, l0.ci.addr, l.ci.vouchers, Next(l, a).ci.vouchers);
    }
  }

  lemma StoredFrom(acts: seq<Action>, a: Action, addr: string, infos: seq<VoucherInfo>, infos': seq<VoucherInfo>)
    requires From(acts, addr, infos)
    requires || (|infos'| == |infos| && forall i :: 0 <= i < |infos| ==> infos'[i].voucher == infos[i].voucher)
             || (|infos'| == |infos| + 1 && infos'[..|infos|] == infos && infos'[|infos|].voucher.channelAddr == addr
                 && Origin(a, infos'[|infos|].voucher))
    ensures From(acts + [a], addr, infos')
  {
    hide Origin, Requested;
    forall i | 0 <= i < |infos'|
      ensures infos'[i].voucher.channelAddr == addr && Requested(acts + [a], infos'[i].voucher)
    {
      RequestedMore(acts, a, infos'[i].voucher);
      if i < |infos| {
        assert infos'[i].voucher == infos[i].voucher by { if |infos'| == |infos| + 1 { assert infos'[..|infos|][i] == infos[i]; } }
      }
    }
  }

  // ---------- Submitting once ----------

  /** With one copy of each voucher, the flag read is the voucher's own. */
  lemma {:induction false} FlagIsOwn(infos: seq<VoucherInfo>, i: nat)
    requires i < |infos| && forall j, k :: 0 <= j < k < |infos| ==> infos[j].voucher != infos[k].voucher
    ensures WasSubmitted(infos, infos[i].voucher) == Some(infos[i].submitted)
  {
    if i > 0 {
      assert infos[0].voucher != infos[i].voucher;
      assert infos[1..][i - 1] == infos[i];
      FlagIsOwn(infos[1..], i - 1);
    }
  }

  lemma StoredOnce(l: Ledger)
    requires History(l)
    ensures forall j, k :: 0 <= j < k < |l.ci.vouchers| ==> l.ci.vouchers[j].voucher != l.ci.vouchers[k].voucher
  {
    var vs := Stored(l.ci.vouchers);
    forall j, k | 0 <= j < k < |vs| ensures vs[j] != vs[k] {
      assert vs[j].lane == vs[k].lane ==> vs[j].nonce < vs[k].nonce;
    }
  }

  /** A submission that is refused, or whose message does not reach the pool, leaves the record as it is, whatever voucher
      it is for; one that is accepted leaves the voucher stored and submitted. */
  lemma SubmissionExactly(ci: ChannelInfo, sv: Voucher, pushed: bool)
    ensures var (ci', e) := Submit(ci, sv, pushed);
            && (e.Some? ==> ci' == ci) && (!pushed ==> e.Some?)
            && (e.None? ==> WasSubmitted(ci'.vouchers, sv) == Some(true) && ci' == ci.(vouchers := ci'.vouchers))
            && (e.None? && !Has(ci.vouchers, sv) ==> |ci'.vouchers| == |ci.vouchers| + 1)
  {
    var infos := if Has(ci.vouchers, sv) then ci.vouchers else ci.vouchers + [VoucherInfo(sv, false)];
    assert infos[|infos| - 1].voucher == sv || Has(ci.vouchers, sv);
    if pushed { MarkedReads(infos, sv); }
    hide Mark, WasSubmitted;
  }

  lemma {:induction false} MarkedReads(infos: seq<VoucherInfo>, sv: Voucher)
    requires Has(infos, sv)
    ensures WasSubmitted(Mark(infos, sv), sv) == Some(true)
  {
    var marked := Mark(infos, sv);
    if infos[0].voucher != sv {
      var i :| 0 <= i < |infos| && infos[i].voucher == sv;
      assert infos[1..][i - 1].voucher == sv;
      MarkedReads(infos[1..], sv);
      assert marked[1..] == Mark(infos[1..], sv);
    }
  }

  /** In every run a stored voucher can be submitted exactly while it is not, and once it is, it and every voucher of its
      lane up to its nonce are refused, whatever the message pool would say, and the record stays as it is. */
  lemma SubmittedOnce(l0: Ledger, acts: seq<Action>, i: nat, j: nat, pushed: bool, again: bool)
    requires Starts(l0) && Exec(l0, Enabled, Next, acts).Some?
    requires i < |Exec(l0, Enabled, Next, acts).value.ci.vouchers| && j < |Exec(l0, Enabled, Next, acts).value.ci.vouchers|
    ensures var ci := Exec(l0, Enabled, Next, acts).value.ci;
            var v, w := ci.vouchers[i].voucher, ci.vouchers[j].voucher;
            var (ci', e) := Submit(ci, v, pushed);
            && (e == Some(AlreadySubmitted) <==> ci.vouchers[i].submitted)
            && (e.None? <==> !ci.vouchers[i].submitted && pushed)
            && (e.Some? ==> ci' == ci)
            && (e.None? && w.lane == v.lane && w.nonce <= v.nonce ==> Submit(ci', w, again) == (ci', Some(AlreadySubmitted)))
  {
    hide Next, Enabled, Starts;
    RunKeepsInv(l0, acts);
    var l := Exec(l0, Enabled, Next, acts).value;
    StoredOnce(l);
    MarkedIsRefused(l.ci, i, j, pushed, again);
    SameNonceSame(l, i, j);
  }

  lemma SameNonceSame(l: Ledger, i: nat, j: nat)
    requires History(l) && i < |l.ci.vouchers| && j < |l.ci.vouchers|
    ensures var v, w := l.ci.vouchers[i].voucher, l.ci.vouchers[j].voucher; v.lane == w.lane && v.nonce == w.nonce ==> v == w
  {
    var vs := Stored(l.ci.vouchers);
    assert vs[i] == l.ci.vouchers[i].voucher && vs[j] == l.ci.vouchers[j].voucher;
  }

  lemma MarkedIsRefused(ci: ChannelInfo, i: nat, j: nat, pushed: bool, again: bool)
    requires i < |ci.vouchers| && j < |ci.vouchers|
    requires forall j, k :: 0 <= j < k < |ci.vouchers| ==> ci.vouchers[j].voucher != ci.vouchers[k].voucher
    ensures var v, w := ci.vouchers[i].voucher, ci.vouchers[j].voucher;
            var (ci', e) := Submit(ci, v, pushed);
            && (e == Some(AlreadySubmitted) <==> ci.vouchers[i].submitted)
            && (e.None? <==> !ci.vouchers[i].submitted && pushed)
            && (e.Some? ==> ci' == ci)
            && (e.None? && (w == v || (w.lane == v.lane && w.nonce < v.nonce)) ==> Submit(ci', w, again) == (ci', Some(AlreadySubmitted)))
  {
    FlagIsOwn(ci.vouchers, i);
    var v := ci.vouchers[i].voucher;
    var ci' := Submit(ci, v, pushed).0;
    assert forall k :: 0 <= k < |ci'.vouchers| ==> ci'.vouchers[k].voucher == ci.vouchers[k].voucher;
    FlagIsOwn(ci'.vouchers, j);
    hide WasSubmitted;
  }
}
