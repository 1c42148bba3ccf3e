/** The amount a channel is recorded to hold, and its balance on chain, over runs of vouchers and deposits
    together: storing a voucher raises the record to the balance (payments/channel.go:727-729), and an answered
    message adds its amount (payments/channel.go:545-578). */
module RecordedFunds {
  import opened Options
  import opened Numbers
  import opened Runs
  import opened Lanes
  import PC = PaymentChannel
  import CR = ChannelRuns
  import FQ = FundsQueue

  /** A deposit message in flight; `landed` once the chain has executed it, which the channel learns later. */
  datatype Message = Message(amount: nat, landed: bool)

  /** `excess` is what the record will claim beyond the balance once the message in flight is answered, and
      `doubled` the largest deposit during which, executed but not answered, a voucher was stored. */
  datatype Joint = Joint(l: CR.Ledger, flight: Option<Message>, excess: int, doubled: nat)

  datatype Act =
    | Channel(a: CR.Action)
    | Send(amount: nat)
    | Land
    | Answer

  function Landed(j: Joint): nat {
    if j.flight.Some? && j.flight.value.landed then j.flight.value.amount else 0
  }

  /** The channel stores a voucher in this step. */
  ghost predicate Stores(l: CR.Ledger, a: CR.Action) {
    |CR.Next(l, a).ci.vouchers| > |l.ci.vouchers|
  }

  ghost predicate Enabled(j: Joint, act: Act) {
    match act
    case Channel(a) => CR.Enabled(j.l, a)
    case Send(_) => j.flight.None?
    case Land => j.flight.Some? && !j.flight.value.landed
    case Answer => j.flight.Some?
  }

  ghost function Next(j: Joint, act: Act): Joint {
    match act
    case Channel(a) =>
      var excess := if a.Deposit? then j.excess - a.value else if Stores(j.l, a) then Max(j.excess, Landed(j)) else j.excess;
      j.(l := CR.Next(j.l, a), excess := excess, doubled := if Stores(j.l, a) then Max(j.doubled, Landed(j)) else j.doubled)
    case Send(amount) => j.(flight := Some(Message(amount, false)))
    case Land =>
      if j.flight.None? then j
      else
        j.(l := j.l.(chain := j.l.chain.(balance := j.l.chain.balance + j.flight.value.amount)),
           flight := Some(j.flight.value.(landed := true)))
    case Answer =>
      j.(l := j.l.(ci := j.l.ci.(amount := j.l.ci.amount + Landed(j))), flight := None)
  }

  /** The answer adds to the record what FundsQueue's answer adds to it. */
  lemma AnswerIsResolved(s: FQ.State, id: nat, ok: bool)
    requires id in s.store && s.store[id].addFundsMsg.Some? && s.store[id].createMsg.None?
    requires s.store[id].addFundsMsg.value < |s.msgs|
    ensures var rec := FQ.Resolved(s, id, ok).store[id];
            rec.amount == s.store[id].amount + if ok then s.store[id].pending else 0
  {
  }

  function Begin(l: CR.Ledger): Joint {
    Joint(l, None, l.ci.amount - l.chain.balance, 0)
  }

  /** What a step of the channel does to the record and to the balance. */
  lemma ChannelAmount(l: CR.Ledger, a: CR.Action)
    ensures var l' := CR.Next(l, a);
            && l'.ci.amount == (if Stores(l, a) then Max(l.ci.amount, l.chain.balance) else l.ci.amount)
            && l'.chain.balance == l.chain.balance + (if a.Deposit? then a.value else 0)
            && (a.Deposit? ==> !Stores(l, a))
  {
    hide PC.View, PC.Check;
  }

  ghost predicate Balanced(j: Joint) {
    j.l.ci.amount + Landed(j) == j.l.chain.balance + j.excess
  }

  lemma StepKeepsBalanced(j: Joint, act: Act)
    requires Balanced(j) && Enabled(j, act)
    ensures Balanced(Next(j, act))
  {
    if act.Channel? { ChannelAmount(j.l, act.a); }
    hide CR.Next;
  }

  /** In every run the record stands above the balance by the excess less what has landed without an answer. */
  lemma RecordedAmount(l: CR.Ledger, acts: seq<Act>)
    requires Exec(Begin(l), Enabled, Next, acts).Some?
    ensures var j := Exec(Begin(l), Enabled, Next, acts).value;
            j.l.ci.amount - j.l.chain.balance == j.excess - Landed(j)
  {
    assert Balanced(Begin(l));
    hide Next, Enabled, Balanced, Begin;
    forall j, act | Balanced(j) && Enabled(j, act) ensures Balanced(Next(j, act)) { StepKeepsBalanced(j, act); }
    Invariance(Begin(l), Enabled, Next, Balanced, acts);
    UseBalanced(Exec(Begin(l), Enabled, Next, acts).value);
  }

  lemma UseBalanced(j: Joint)
    requires Balanced(j)
    ensures j.l.ci.amount - j.l.chain.balance == j.excess - Landed(j)
  {
  }

  // ---------- When the record stays within the balance ----------

  /** Steps in which no voucher is stored between a deposit's execution and its answer. */
  ghost predicate Careful(j: Joint, act: Act) {
    Enabled(j, act) && (act.Channel? && Stores(j.l, act.a) ==> Landed(j) == 0)
  }

  ghost predicate Within(j: Joint) {
    Balanced(j) && j.excess <= 0
  }

  /** In every run in which no voucher is stored while a deposit has landed without an answer, the record
      stays within the balance. */
  lemma CarefulRunsStayWithin(l: CR.Ledger, acts: seq<Act>)
    requires l.ci.amount <= l.chain.balance && Exec(Begin(l), Careful, Next, acts).Some?
    ensures var j := Exec(Begin(l), Careful, Next, acts).value; j.l.ci.amount <= j.l.chain.balance
  {
    assert Within(Begin(l));
    hide CR.Next, Begin;
    forall j, act | Within(j) && Careful(j, act) ensures Within(Next(j, act)) { StepKeepsBalanced(j, act); }
    Invariance(Begin(l), Careful, Next, Within, acts);
  }

  /** And a voucher stored then makes the answer lift the record above the balance. */
  lemma StoredWhileLanded(j: Joint, a: CR.Action)
    requires Balanced(j) && Stores(j.l, a) && Landed(j) > 0
    ensures var j' := Next(Next(j, Channel(a)), Answer);
            Enabled(Next(j, Channel(a)), Answer) && j'.l.ci.amount - j'.l.chain.balance == Max(j.excess, Landed(j)) > 0
  {
    ChannelAmount(j.l, a);
    hide CR.Next;
  }

  /** Steps without deposits by others. */
  ghost predicate Own(j: Joint, act: Act) {
    Enabled(j, act) && (act.Channel? ==> !act.a.Deposit?)
  }

  ghost predicate Doubled(j: Joint) {
    Balanced(j) && j.excess == j.doubled
  }

  /** Without deposits by others, a record that starts at the balance differs from it, with no message in
      flight, by exactly the largest deposit during which a voucher was stored. */
  lemma ExcessIsLargestDoubled(l: CR.Ledger, acts: seq<Act>)
    requires l.ci.amount == l.chain.balance && Exec(Begin(l), Own, Next, acts).Some?
    ensures var j := Exec(Begin(l), Own, Next, acts).value;
            j.flight.None? ==> j.l.ci.amount == j.l.chain.balance + j.doubled
  {
    assert Doubled(Begin(l));
    hide CR.Next, Begin;
    forall j, act | Doubled(j) && Own(j, act) ensures Doubled(Next(j, act)) { StepKeepsBalanced(j, act); }
    Invariance(Begin(l), Own, Next, Doubled, acts);
  }

  /** In a run, act i stores a voucher while a positive deposit has landed without an answer. */
  ghost predicate StoredBetween(l: CR.Ledger, acts: seq<Act>, i: nat) {
    && i < |acts| && acts[i].Channel?
    && var before := Exec(Begin(l), Own, Next, acts[..i]);
       before.Some? && Stores(before.value.l, acts[i].a) && Landed(before.value) > 0
  }

  lemma StoredBefore(l: CR.Ledger, acts: seq<Act>, i: nat)
    requires i < |acts| - 1
    ensures StoredBetween(l, acts, i) <==> StoredBetween(l, acts[..|acts| - 1], i)
  {
    var prior := acts[..|acts| - 1];
    assert acts[..i] == prior[..i] && acts[i] == prior[i];
    hide Exec, Stores, Begin;
  }

  /** Some act of the run does. */
  ghost predicate SomeBetween(l: CR.Ledger, acts: seq<Act>) {
    exists i: nat :: StoredBetween(l, acts, i)
  }

  /** What the last act adds. */
  lemma LastBetween(l: CR.Ledger, acts: seq<Act>)
    requires acts != []
    ensures SomeBetween(l, acts) <==> SomeBetween(l, acts[..|acts| - 1]) || StoredBetween(l, acts, |acts| - 1)
  {
    var n := |acts| - 1;
    var prior := acts[..n];
    forall i: nat | i < n ensures StoredBetween(l, acts, i) <==> StoredBetween(l, prior, i) { StoredBefore(l, acts, i); }
    forall i: nat ensures (StoredBetween(l, acts, i) ==> i <= n) && (StoredBetween(l, prior, i) ==> i < n) { }
    hide StoredBetween;
    if i: nat :| StoredBetween(l, prior, i) { assert StoredBetween(l, acts, i); }
    if i: nat :| StoredBetween(l, acts, i) { assert i < n ==> StoredBetween(l, prior, i); }
  }

  lemma LastDoubles(l: CR.Ledger, acts: seq<Act>)
    requires acts != [] && Exec(Begin(l), Own, Next, acts).Some?
    ensures var prior := Exec(Begin(l), Own, Next, acts[..|acts| - 1]);
            && prior.Some?
            && (Exec(Begin(l), Own, Next, acts).value.doubled > 0 <==> prior.value.doubled > 0 || StoredBetween(l, acts, |acts| - 1))
  {
    hide CR.Next, Begin, Stores, Own;
  }

  /** The largest such deposit is positive exactly when there is one. */
  lemma {:induction false} DoubledExactly(l: CR.Ledger, acts: seq<Act>)
    requires Exec(Begin(l), Own, Next, acts).Some?
    ensures Exec(Begin(l), Own, Next, acts).value.doubled > 0 <==> SomeBetween(l, acts)
  {
    if acts == [] {
      assert Exec(Begin(l), Own, Next, acts).value == Begin(l);
    } else {
      hide *;
      LastDoubles(l, acts);
      LastBetween(l, acts);
      DoubledExactly(l, acts[..|acts| - 1]);
    }
  }

  /** Without deposits by others, a record that starts at the balance is within it, with no message in flight,
      exactly when no voucher was stored between the execution of a positive deposit and its answer. */
  lemma RecordedAmountExactly(l: CR.Ledger, acts: seq<Act>)
    requires l.ci.amount == l.chain.balance && Exec(Begin(l), Own, Next, acts).Some?
    ensures var j := Exec(Begin(l), Own, Next, acts).value;
            j.flight.None? ==> (j.l.ci.amount <= j.l.chain.balance <==> !SomeBetween(l, acts))
  {
    hide Next, Begin, Own, SomeBetween;
    ExcessIsLargestDoubled(l, acts);
    DoubledExactly(l, acts);
  }

  // ---------- A run that counts a deposit twice ----------

  /** A channel tracked from its start, with d deposited. */
  function Tracked(addr: string, d: nat): CR.Ledger {
    CR.Ledger(PC.ChannelInfo(addr, [], 1, 0), PC.Chain(map[], d), map[], map[])
  }

  lemma FirstVoucherStored(addr: string, d: nat, v: nat)
    requires v <= d
    ensures Stores(Tracked(addr, d), CR.CreateNew(v, 0, "", true))
  {
    var l, sv := Tracked(addr, d), Voucher(addr, 0, 1, v, 0, "");
    assert PC.View(l.ci, l.chain) == map[];
    assert Total(map[]) == 0;
    assert !PC.Has(l.ci.vouchers, sv) && PC.NextNonce(l.ci.vouchers, 0) == 1;
    assert PC.Check(l.ci, sv, true, l.chain) == None;
  }

  /** Any deposit is counted twice if a voucher it covers is stored between its execution and its answer. */
  lemma DepositCountedTwice(addr: string, d: nat, v: nat)
    requires 0 < d && v <= d
    ensures var acts := [Send(d), Land, Channel(CR.CreateNew(v, 0, "", true)), Answer];
            var end := Exec(Begin(Tracked(addr, 0)), Enabled, Next, acts);
            end.Some? && end.value.l.chain.balance == d && end.value.l.ci.amount == 2 * d
  {
    var start, a1, a2, a3, a4 := Begin(Tracked(addr, 0)), Send(d), Land, Channel(CR.CreateNew(v, 0, "", true)), Answer;
    var j1 := Next(start, a1);
    var j2 := Next(j1, a2);
    var j3 := Next(j2, a3);
    assert j2.l == Tracked(addr, d) && Balanced(j2) && Landed(j2) == d;
    FirstVoucherStored(addr, d, v);
    ChannelAmount(j2.l, a3.a);
    StoredWhileLanded(j2, a3.a);
    assert Enabled(start, a1) && Enabled(j1, a2) && Enabled(j2, a3) && Enabled(j3, a4);
    hide *;
    ExecNone(start);
    ExecExtend(start, Enabled, Next, [], a1);
    assert [] + [a1] == [a1] && [a1] + [a2] == [a1, a2] && [a1, a2] + [a3] == [a1, a2, a3];
    ExecExtend(start, Enabled, Next, [a1], a2);
    ExecExtend(start, Enabled, Next, [a1, a2], a3);
    ExecExtend(start, Enabled, Next, [a1, a2, a3], a4);
    assert [a1, a2, a3] + [a4] == [a1, a2, a3, a4];
  }

  lemma ExecNone(j: Joint)
    ensures Exec(j, Enabled, Next, []) == Some(j)
  {
  }
}
