/** While foreign code keeps out of the EntryPoint, which bundles go through, and what they then do. */
module EntryPointProgress {
  import opened Words
  import opened Sequences
  import opened Ledger
  import opened Transitions
  import opened EntryPointSpec
  import opened EntryPointInvariant
  import opened EntryPointArithmetic
  import opened EntryPointAdmission
  import opened EntryPointEffects
  import opened EntryPointActs

  /** Foreign code that does not come back into the EntryPoint. */
  predicate Still(act: Activity) {
    act.calls == []
  }

  lemma StillActs(w: World, b: Block, act: Activity)
    requires Still(act)
    ensures After(w, b, act) == World(w.s, w.seen + [w.s])
  {
    CallsActInOrder(World(w.s, w.seen + [w.s]), b, [], []);
  }

  // ----- validation

  predicate StillValidation(v: ValidationScript) {
    Still(v.creation) && Still(v.account) && Still(v.paymaster)
  }

  /** With foreign code keeping still, validation passes exactly when the operation is admitted, its payer's deposit covers the prefund and its nonce is the next. */
  lemma StillValidates(w: World, b: Block, run: OpRun)
    requires StillValidation(run.validation)
    ensures var r := Validate(w, b, run, 0);
      && (r.Ok? <==> Admitted(run, 0, b.timestamp) && Funded(w.s, run.op) && NonceFits(w.s, run.op))
      && (r.Ok? ==> r.w.s == Reserved(w.s, run.op) && r.value == ExpectedInfo(run))
  {
    var v := run.validation;
    ValidationActs(w, b, run, 0);
    StillActs(w, b, v.creation);
    var created := if run.op.initCode == [] then w else After(w, b, v.creation);
    StillActs(created, b, v.account);
    assert AccountActed(w, b, run).s == w.s;
    if Validate(w, b, run, 0).Ok? {
      assert Validated(w, Validate(w, b, run, 0).w, b, run, 0);
    }
    if Funded(w.s, run.op) && NonceFits(w.s, run.op) {
      var taken := World(Reserved(w.s, run.op), AccountActed(w, b, run).seen);
      StillActs(taken, b, v.paymaster);
      assert Admitted(run, 0, b.timestamp) ==>
        Validated(w, if PaymasterOf(run.op) == 0 then taken else After(taken, b, v.paymaster), b, run, 0);
    }
  }

  // ----- what a list of operations takes

  /** How often the operations use up a nonce of the key. */
  function Uses(runs: seq<OpRun>, a: Address, k: Key): nat {
    if runs == [] then 0
    else (if runs[0].op.sender == a && KeyOf(runs[0].op.nonce) == k then 1 else 0) + Uses(runs[1..], a, k)
  }

  /** What their prefunds take from an account's deposit. */
  function Reserves(runs: seq<OpRun>, a: Address): nat {
    if runs == [] then 0
    else (if Payer(runs[0].op) == a then RequiredPrefund(runs[0].op) else 0) + Reserves(runs[1..], a)
  }

  lemma {:induction false} UsesAppend(runs: seq<OpRun>, run: OpRun, a: Address, k: Key)
    ensures Uses(runs + [run], a, k) == Uses(runs, a, k) + Uses([run], a, k)
  {
    if runs == [] {
      assert runs + [run] == [run];
    } else {
      UsesAppend(runs[1..], run, a, k);
      assert (runs + [run])[1..] == runs[1..] + [run];
    }
  }

  lemma {:induction false} ReservesAppend(runs: seq<OpRun>, run: OpRun, a: Address)
    ensures Reserves(runs + [run], a) == Reserves(runs, a) + Reserves([run], a)
  {
    if runs == [] {
      assert runs + [run] == [run];
    } else {
      ReservesAppend(runs[1..], run, a);
      assert (runs + [run])[1..] == runs[1..] + [run];
    }
  }

  /**
   * An operation that can be taken up after those `before` it, all judged by the storage `s` that the bundle starts
   * from: it is admitted, its nonce is the next of its key, and its payer's deposit covers its prefund as well.
   */
  predicate Ripe(s: State, before: seq<OpRun>, run: OpRun, now: nat) {
    var op := run.op;
    && Admitted(run, 0, now)
    && SequenceOf(op.nonce) == Counter(s.counters, op.sender, KeyOf(op.nonce)) + Uses(before, op.sender, KeyOf(op.nonce))
    && Reserves(before, Payer(op)) + RequiredPrefund(op) <= Info(s.deposits, Payer(op)).deposit
  }

  predicate AllRipe(s: State, before: seq<OpRun>, runs: seq<OpRun>, now: nat)
    decreases runs
  {
    runs == [] || (Ripe(s, before, runs[0], now) && AllRipe(s, before + [runs[0]], runs[1..], now))
  }

  function Extended(log: Log, events: seq<Event>): Log
    decreases events
  {
    if events == [] then log else Extended(Then(log, events[0]), events[1..])
  }

  lemma {:induction false} ExtendedAppend(log: Log, events: seq<Event>, e: Event)
    ensures Extended(log, events + [e]) == Then(Extended(log, events), e)
    decreases events
  {
    if events == [] {
      assert (events + [e])[1..] == [];
      assert Extended(Then(log, e), []) == Then(log, e);
    } else {
      ExtendedAppend(Then(log, events[0]), events[1..], e);
      assert (events + [e])[1..] == events[1..] + [e];
    }
  }

  predicate SameStake(i: DepositInfo, j: DepositInfo) {
    i.staked == j.staked && i.stake == j.stake && i.unstakeDelaySec == j.unstakeDelaySec && i.withdrawTime == j.withdrawTime
  }

  ghost predicate SameElsewhere(s: State, t: State) {
    t.balance == s.balance && t.entered == s.entered && t.forced == s.forced
  }

  /** Between `s` and `u` the operations `before` were taken up and nothing else happened. */
  ghost predicate TakenUp(s: State, u: State, before: seq<OpRun>) {
    && (forall a: Address ::
          && Info(u.deposits, a).deposit == Info(s.deposits, a).deposit - Reserves(before, a)
          && SameStake(Info(u.deposits, a), Info(s.deposits, a)))
    && (forall a: Address, k: Key :: Counter(u.counters, a, k) == Counter(s.counters, a, k) + Uses(before, a, k))
    && u.pending == s.pending + PrefundsOf(before)
    && u.fees == s.fees && SameElsewhere(s, u)
    && u.log == Extended(s.log, AcceptancesOf(before))
  }

  lemma OneTaken(s: State, u: State, before: seq<OpRun>, run: OpRun)
    requires Narrow(s) && TakenUp(s, u, before) && Funded(u, run.op) && NonceFits(u, run.op)
    ensures TakenUp(s, Reserved(u, run.op), before + [run])
  {
    var t, one := Reserved(u, run.op), [run];
    assert one[1..] == [];
    PrefundsAppend(before, one);
    AcceptancesAppend(before, one);
    ExtendedAppend(s.log, AcceptancesOf(before), AcceptanceOf(run.op));
    Regroup(s.pending, PrefundsOf(before), [PrefundOf(run.op)]);
    assert PrefundsOf(one) == [PrefundOf(run.op)] && AcceptancesOf(one) == [AcceptanceOf(run.op)];
    forall a: Address
      ensures Info(t.deposits, a).deposit == Info(s.deposits, a).deposit - Reserves(before + one, a)
    {
      ReservesAppend(before, run, a);
    }
    forall a: Address, k: Key
      ensures Counter(t.counters, a, k) == Counter(s.counters, a, k) + Uses(before + one, a, k)
    {
      UsesAppend(before, run, a, k);
    }
  }

  lemma NextValidates(s: State, w: World, b: Block, before: seq<OpRun>, run: OpRun)
    requires Narrow(s) && TakenUp(s, w.s, before) && StillValidation(run.validation)
    ensures var r := Validate(w, b, run, 0);
      && (r.Ok? <==> Ripe(s, before, run, b.timestamp))
      && (r.Ok? ==> TakenUp(s, r.w.s, before + [run]) && r.value == ExpectedInfo(run))
  {
    StillValidates(w, b, run);
    if Validate(w, b, run, 0).Ok? {
      OneTaken(s, w.s, before, run);
    }
  }

  /** The first loop passes exactly when all operations are ripe, and then takes them all up. */
  lemma {:induction false} StillValidatesAll(s: State, w: World, b: Block, before: seq<OpRun>, runs: seq<OpRun>)
    requires Narrow(s) && TakenUp(s, w.s, before)
    requires forall run | run in runs :: StillValidation(run.validation)
    ensures var r := ValidateAll(w, b, runs, 0);
      && (r.Ok? <==> AllRipe(s, before, runs, b.timestamp))
      && (r.Ok? ==> TakenUp(s, r.w.s, before + runs) && r.value == Infos(runs))
    decreases runs
  {
    if runs == [] {
      assert before + runs == before;
    } else {
      NextValidates(s, w, b, before, runs[0]);
      var v := Validate(w, b, runs[0], 0);
      if v.Ok? {
        StillValidatesAll(s, v.w, b, before + [runs[0]], runs[1..]);
        Regroup(before, [runs[0]], runs[1..]);
        assert [runs[0]] + runs[1..] == runs;
      }
    }
  }

  // ----- execution

  function CostOf(b: Block, run: OpRun): int {
    GasOnPath(run, false) * AgreedPrice(run.op, b.basefee)
  }

  /** An inner call that keeps still, has its gas, and is followed by a `postOp` that returns when there is one. */
  predicate Executable(b: Block, run: OpRun) {
    var op, x := run.op, run.execution.inner;
    && Metered(run) && Still(x.call) && Still(x.post.postOp) && !x.outOfGas
    && op.callGasLimit + op.verificationGasLimit + 5000 <= x.limitCheck
    && (ExpectedInfo(run).context ==> x.post.postOp.ok)
    && CostOf(b, run) <= RequiredPrefund(op)
  }

  /** The event of an operation settled inside its inner call. */
  function Receipt(b: Block, run: OpRun): Event
    requires CostOf(b, run) >= 0 && GasOnPath(run, false) >= 0
  {
    UserOperation(run.op.sender, PaymasterOf(run.op), run.op.nonce, Succeeds(run), CostOf(b, run), GasOnPath(run, false))
  }

  lemma GasIsExact(b: Block, run: OpRun)
    requires Executable(b, run) && FieldsBounded(run.op)
    ensures var x := run.execution.inner;
      && 0 <= GasOnPath(run, false) < 2 * U120 && CostOf(b, run) >= 0
      && AddWrap(AddWrap(SubWrap(x.before, x.after), ExpectedInfo(run).preOpGas), SubWrap(x.post.before, x.post.after))
         == GasOnPath(run, false)
      && CostAt(b, run.op, GasOnPath(run, false)) == CostOf(b, run)
  {
    var x, g := run.execution.inner, run.validation.gas;
    assert ExpectedInfo(run).preOpGas == g.start - g.end + run.op.preVerificationGas;
    GasExact(x.before, x.after, ExpectedInfo(run).preOpGas, x.post.before, x.post.after);
    CostExact(GasOnPath(run, false), run.op, b.basefee);
    PriceIsAgreed(run.op, b.basefee);
  }

  /** The storage after the settlement of the oldest prefund. */
  function SettledOne(s: State, b: Block, run: OpRun): Option<State>
    requires 0 <= CostOf(b, run) <= RequiredPrefund(run.op) && GasOnPath(run, false) >= 0
  {
    Settle(s, Payer(run.op), RequiredPrefund(run.op) - CostOf(b, run), Receipt(b, run))
  }

  lemma StillExecutes(w: World, b: Block, run: OpRun)
    requires Executable(b, run) && FieldsBounded(run.op)
    requires 0 <= CostOf(b, run) && GasOnPath(run, false) >= 0 && SettledOne(w.s, b, run).Some?
    ensures var r := ExecuteUserOp(w, b, run, ExpectedInfo(run));
      r.Ok? && r.value == CostOf(b, run) && r.w.s == SettledOne(w.s, b, run).value
  {
    var x, info := run.execution.inner, ExpectedInfo(run);
    GasIsExact(b, run);
    StillActs(w, b, x.call);
    StillActs(CallActed(w, b, run), b, x.post.postOp);
    var u := InnerEnd(w, b, run, info);
    assert u.s == w.s && InnerGas(run, info) == GasOnPath(run, false);
    ClosedIsSettled(w.s, b, run);
    ExecutionActs(w, b, run, info);
    assert Performed(w, World(Closed(u.s, b, run.op, info, InnerGas(run, info), Succeeds(run)), u.seen), b, run, info, CostOf(b, run));
  }

  lemma ClosedIsSettled(s: State, b: Block, run: OpRun)
    requires Executable(b, run) && FieldsBounded(run.op)
    requires 0 <= CostOf(b, run) && 0 <= GasOnPath(run, false) < U256 && SettledOne(s, b, run).Some?
    ensures CostAt(b, run.op, GasOnPath(run, false)) == CostOf(b, run)
    ensures Closable(s, b, run.op, ExpectedInfo(run), GasOnPath(run, false))
    ensures Closed(s, b, run.op, ExpectedInfo(run), GasOnPath(run, false), Succeeds(run)) == SettledOne(s, b, run).value
  {
    GasIsExact(b, run);
    PriceIsAgreed(run.op, b.basefee);
  }

  /** What the operations cost one account, and all together. */
  function CostsTo(b: Block, runs: seq<OpRun>, a: Address): int {
    if runs == [] then 0
    else (if Payer(runs[0].op) == a then CostOf(b, runs[0]) else 0) + CostsTo(b, runs[1..], a)
  }

  function TotalCosts(b: Block, runs: seq<OpRun>): int {
    if runs == [] then 0 else CostOf(b, runs[0]) + TotalCosts(b, runs[1..])
  }

  ghost predicate AllExecutable(b: Block, runs: seq<OpRun>) {
    forall run | run in runs :: Executable(b, run) && FieldsBounded(run.op) && CostOf(b, run) >= 0 && GasOnPath(run, false) >= 0
  }

  function Receipts(b: Block, runs: seq<OpRun>): seq<Event>
    requires AllExecutable(b, runs)
  {
    if runs == [] then [] else [Receipt(b, runs[0])] + Receipts(b, runs[1..])
  }

  /** Between `s` and `t` the operations were settled and nothing else happened. */
  ghost predicate SettledAll(s: State, t: State, b: Block, runs: seq<OpRun>)
    requires AllExecutable(b, runs)
  {
    && (forall a: Address ::
          && Info(t.deposits, a).deposit == Info(s.deposits, a).deposit + Reserves(runs, a) - CostsTo(b, runs, a)
          && SameStake(Info(t.deposits, a), Info(s.deposits, a)))
    && t.counters == s.counters
    && t.pending == [] && t.fees == s.fees + TotalCosts(b, runs) && SameElsewhere(s, t)
    && t.log == Extended(s.log, Receipts(b, runs))
  }

  /** Every refund fits a deposit, because the deposits held the prefunds before. */
  ghost predicate Roomy(s: State, runs: seq<OpRun>) {
    s.pending == PrefundsOf(runs) && forall a: Address :: Info(s.deposits, a).deposit + Reserves(runs, a) < U112
  }

  lemma OneSettled(s: State, b: Block, runs: seq<OpRun>)
    requires runs != [] && AllExecutable(b, runs) && Roomy(s, runs)
    ensures SettledOne(s, b, runs[0]).Some? && Roomy(SettledOne(s, b, runs[0]).value, runs[1..])
  {
    var op := runs[0].op;
    assert Info(s.deposits, Payer(op)).deposit + Reserves(runs, Payer(op)) < U112;
    assert Executable(b, runs[0]);
    var t := SettledOne(s, b, runs[0]).value;
    assert t.pending == PrefundsOf(runs)[1..] == PrefundsOf(runs[1..]);
    forall a: Address
      ensures Info(t.deposits, a).deposit + Reserves(runs[1..], a) < U112
    {
      assert Info(s.deposits, a).deposit + Reserves(runs, a) < U112;
    }
  }

  lemma SettledCons(s: State, b: Block, runs: seq<OpRun>, u: State)
    requires runs != [] && AllExecutable(b, runs) && SettledOne(s, b, runs[0]).Some?
    requires SettledAll(SettledOne(s, b, runs[0]).value, u, b, runs[1..])
    ensures SettledAll(s, u, b, runs)
  {
    var t := SettledOne(s, b, runs[0]).value;
    var receipts := [Receipt(b, runs[0])] + Receipts(b, runs[1..]);
    assert receipts[1..] == Receipts(b, runs[1..]);
    assert Extended(s.log, receipts) == Extended(t.log, Receipts(b, runs[1..]));
    forall a: Address
      ensures Info(u.deposits, a).deposit == Info(s.deposits, a).deposit + Reserves(runs, a) - CostsTo(b, runs, a)
      ensures SameStake(Info(u.deposits, a), Info(s.deposits, a))
    {
      assert Info(u.deposits, a).deposit == Info(t.deposits, a).deposit + Reserves(runs[1..], a) - CostsTo(b, runs[1..], a);
      assert SameStake(Info(u.deposits, a), Info(t.deposits, a));
    }
  }

  lemma NextExecutes(w: World, b: Block, runs: seq<OpRun>, collected: Word)
    requires runs != [] && AllExecutable(b, runs) && Roomy(w.s, runs)
    ensures SettledOne(w.s, b, runs[0]).Some?
    ensures var r := ExecuteNext(w, b, runs[0], ExpectedInfo(runs[0]), collected, false);
      r.Ok? && r.w.s == SettledOne(w.s, b, runs[0]).value
  {
    OneSettled(w.s, b, runs);
    StillExecutes(w, b, runs[0]);
  }

  /** The second loop settles every operation inside its inner call. */
  lemma {:induction false} StillExecutesAll(w: World, b: Block, runs: seq<OpRun>, collected: Word)
    requires AllExecutable(b, runs) && Roomy(w.s, runs)
    ensures var r := ExecuteAll(w, b, runs, Infos(runs), collected, false);
      r.Ok? && SettledAll(w.s, r.w.s, b, runs)
    decreases runs
  {
    if runs != [] {
      NextExecutes(w, b, runs, collected);
      OneSettled(w.s, b, runs);
      var x := ExecuteNext(w, b, runs[0], ExpectedInfo(runs[0]), collected, false);
      StillExecutesAll(x.w, b, runs[1..], x.value);
      var r := ExecuteAll(x.w, b, runs[1..], Infos(runs[1..]), x.value, false);
      SettledCons(w.s, b, runs, r.w.s);
      assert Infos(runs)[0] == ExpectedInfo(runs[0]) && Infos(runs)[1..] == Infos(runs[1..]);
    }
  }

  // ----- the whole bundle

  /** Between `s` and `t` the bundle was carried out and nothing else happened. */
  ghost predicate CarriedOut(s: State, t: State, b: Block, batch: Batch)
    requires AllExecutable(b, batch.runs)
  {
    var total := TotalCosts(b, batch.runs);
    && total >= 0
    && (forall a: Address ::
          && Info(t.deposits, a).deposit == Info(s.deposits, a).deposit - CostsTo(b, batch.runs, a)
          && SameStake(Info(t.deposits, a), Info(s.deposits, a)))
    && (forall a: Address, k: Key :: Counter(t.counters, a, k) == Counter(s.counters, a, k) + Uses(batch.runs, a, k))
    && t.balance == s.balance - total && t.forced == s.forced
    && !t.entered && t.pending == [] && t.fees == 0
    && t.log == Then(Extended(Extended(s.log, AcceptancesOf(batch.runs)), Receipts(b, batch.runs)),
                     Compensated(batch.beneficiary, total))
  }

  lemma {:induction false} RipeExecutable(s: State, b: Block, before: seq<OpRun>, runs: seq<OpRun>)
    requires AllRipe(s, before, runs, b.timestamp) && forall run | run in runs :: Executable(b, run)
    ensures AllExecutable(b, runs)
    decreases runs
  {
    if runs != [] {
      GasIsExact(b, runs[0]);
      RipeExecutable(s, b, before + [runs[0]], runs[1..]);
    }
  }

  lemma StillPayOut(w: World, b: Block, beneficiary: Address, amount: Word, payment: Activity)
    requires beneficiary != 0 && Still(payment) && payment.ok && amount <= w.s.balance && w.s.fees == amount
    ensures var r := Compensate(w, b, beneficiary, amount, payment);
      r.Ok? && r.w.s == w.s.(balance := w.s.balance - amount, fees := 0, log := Then(w.s.log, Compensated(beneficiary, amount)))
  {
    var paid := World(PayOut(w.s, beneficiary, amount).value, w.seen);
    ActivityActs(paid, b, payment);
    StillActs(paid, b, payment);
  }

  /** A bundle that foreign code leaves alone, and that neither its inner calls nor its pay-out can stop. */
  predicate Undisturbed(b: Block, batch: Batch) {
    && (forall run | run in batch.runs :: StillValidation(run.validation) && Executable(b, run))
    && batch.beneficiary != 0 && Still(batch.payment) && batch.payment.ok
  }

  lemma StillLoops(w: World, b: Block, batch: Batch)
    requires Sound(w) && w.s.entered && w.s.pending == [] && w.s.fees == 0 && Undisturbed(b, batch)
    requires AllRipe(w.s, [], batch.runs, b.timestamp)
    ensures AllExecutable(b, batch.runs)
    ensures var v := ValidateAll(w, b, batch.runs, 0);
      && v.Ok? && Sound(v.w) && TakenUp(w.s, v.w.s, batch.runs)
      && var x := ExecuteAll(v.w, b, batch.runs, v.value, 0, false);
         && x.Ok? && Sound(x.w) && x.value == x.w.s.fees == TotalCosts(b, batch.runs) && SettledAll(v.w.s, x.w.s, b, batch.runs)
  {
    StillTakesUp(w, b, batch.runs);
    RipeExecutable(w.s, b, [], batch.runs);
    var v := ValidateAll(w, b, batch.runs, 0);
    TakenIsRoomy(w.s, v.w.s, batch.runs);
    StillExecutesAll(v.w, b, batch.runs, 0);
    var _ := ExecuteAllKeeps(v.w, b, batch.runs, v.value, 0, false, []);
  }

  lemma StillTakesUp(w: World, b: Block, runs: seq<OpRun>)
    requires Sound(w) && w.s.entered && forall run | run in runs :: StillValidation(run.validation)
    ensures var v := ValidateAll(w, b, runs, 0);
      && (v.Ok? <==> AllRipe(w.s, [], runs, b.timestamp))
      && (v.Ok? ==> Sound(v.w) && TakenUp(w.s, v.w.s, runs) && v.value == Infos(runs) && Backed(runs, v.value))
  {
    var none: seq<OpRun> := [];
    assert none + runs == runs;
    StillValidatesAll(w.s, w, b, none, runs);
    ValidateAllKeeps(w, b, runs, 0);
  }

  lemma TakenIsRoomy(s: State, u: State, runs: seq<OpRun>)
    requires Narrow(s) && s.pending == [] && TakenUp(s, u, runs)
    ensures Roomy(u, runs) && u.pending == PrefundsOf(runs) + []
  {
    forall a: Address
      ensures Info(u.deposits, a).deposit + Reserves(runs, a) < U112
    {
      assert Fits(Info(s.deposits, a));
    }
  }

  /** Both loops and the pay-out together carry the bundle out. */
  lemma LoopsCarryOut(s: State, u: State, x: State, t: State, b: Block, batch: Batch)
    requires AllExecutable(b, batch.runs) && s.fees == 0
    requires TakenUp(s.(entered := true), u, batch.runs) && SettledAll(u, x, b, batch.runs)
    requires 0 <= TotalCosts(b, batch.runs) <= x.balance
    requires t == x.(entered := false, balance := x.balance - TotalCosts(b, batch.runs), fees := 0,
                     log := Then(x.log, Compensated(batch.beneficiary, TotalCosts(b, batch.runs))))
    ensures CarriedOut(s, t, b, batch)
  {
    forall a: Address
      ensures Info(t.deposits, a).deposit == Info(s.deposits, a).deposit - CostsTo(b, batch.runs, a)
      ensures SameStake(Info(t.deposits, a), Info(s.deposits, a))
    {
      assert Info(u.deposits, a).deposit == Info(s.deposits, a).deposit - Reserves(batch.runs, a);
      assert SameStake(Info(t.deposits, a), Info(u.deposits, a));
    }
  }

  lemma RipeGoesThrough(w: World, b: Block, batch: Batch)
    requires Sound(w) && !w.s.entered && Undisturbed(b, batch)
    requires AllRipe(Enter(w).s, [], batch.runs, b.timestamp)
    ensures AllExecutable(b, batch.runs) && CarriedOut(w.s, RunCall(w, b, HandleOps(batch)).s, b, batch)
  {
    var w0 := Enter(w);
    EnterKeeps(w);
    StillLoops(w0, b, batch);
    var v := ValidateAll(w0, b, batch.runs, 0);
    var x := ExecuteAll(v.w, b, batch.runs, v.value, 0, false);
    StillPayOut(x.w, b, batch.beneficiary, x.value, batch.payment);
    var r := Compensate(x.w, b, batch.beneficiary, x.value, batch.payment);
    assert RunCall(w, b, HandleOps(batch)).s == r.w.s.(entered := false);
    LoopsCarryOut(w.s, v.w.s, x.w.s, r.w.s.(entered := false), b, batch);
  }

  /**
   * While foreign code keeps out of the EntryPoint, a `handleOps` goes through if and only if every operation, in
   * turn, is admitted, has the next nonce of its key and a payer whose deposit covers its prefund too; all judged by
   * the storage before the bundle. Then every payer is charged exactly the costs of its operations, every nonce is
   * used up, the beneficiary gets exactly the sum, and nothing else changes. Otherwise nothing changes at all.
   */
  lemma StillBundle(w: World, b: Block, batch: Batch)
    requires Sound(w) && !w.s.entered && Undisturbed(b, batch)
    ensures var t := RunCall(w, b, HandleOps(batch)).s;
      if AllRipe(w.s, [], batch.runs, b.timestamp)
      then AllExecutable(b, batch.runs) && CarriedOut(w.s, t, b, batch)
      else t == w.s
  {
    EnterKeeps(w);
    RipeEntered(w.s, [], batch.runs, b.timestamp);
    if AllRipe(Enter(w).s, [], batch.runs, b.timestamp) {
      RipeGoesThrough(w, b, batch);
    } else {
      StillTakesUp(Enter(w), b, batch.runs);
    }
  }

  lemma {:induction false} RipeEntered(s: State, before: seq<OpRun>, runs: seq<OpRun>, now: nat)
    ensures AllRipe(s.(entered := true), before, runs, now) <==> AllRipe(s, before, runs, now)
    decreases runs
  {
    if runs != [] {
      RipeEntered(s, before + [runs[0]], runs[1..], now);
    }
  }
}
