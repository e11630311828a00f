/**
 * A bundle told as the steps that take effect, for all scripts of foreign code, those that come back into the
 * EntryPoint included: when it goes through, what is called at which point, and what each step leaves. The steps are
 * given flat, by conditions on the scripts and on the storage they meet, and not by the functions that nest them.
 */
module EntryPointActs {
  import opened Words
  import opened Ledger
  import opened Transitions
  import opened EntryPointSpec
  import opened EntryPointInvariant
  import opened EntryPointArithmetic
  import opened EntryPointAdmission
  import opened EntryPointEffects
  import opened EntryPointEquivalence

  // ----- validation

  predicate Funded(s: State, op: UserOp) {
    RequiredPrefund(op) <= Info(s.deposits, Payer(op)).deposit
  }

  predicate NonceFits(s: State, op: UserOp) {
    Counter(s.counters, op.sender, KeyOf(op.nonce)) == SequenceOf(op.nonce)
  }

  /** The prefund is taken and the nonce used. */
  function Reserved(s: State, op: UserOp): State
    requires Funded(s, op) && NonceFits(s, op)
  {
    AcceptNonce(TakePrefund(s, Payer(op), RequiredPrefund(op)).value, op.sender, op.nonce).value
  }

  predicate PartsPass(op: UserOp, v: ValidationScript) {
    && SenderReady(op, v) && v.account.ok
    && (PaymasterOf(op) != 0 ==>
          v.paymaster.ok && SubWrap(v.gas.accountStart, v.gas.accountEnd) < op.verificationGasLimit)
  }

  function ExpectedInfo(run: OpRun): OpInfo {
    OpInfo(RequiredPrefund(run.op), PaymasterOf(run.op) != 0 && run.validation.context,
           AddWrap(SubWrap(run.validation.gas.start, run.validation.gas.end), run.op.preVerificationGas))
  }

  function Infos(runs: seq<OpRun>): (infos: seq<OpInfo>)
    ensures |infos| == |runs|
  {
    if runs == [] then [] else [ExpectedInfo(runs[0])] + Infos(runs[1..])
  }

  /** The account, created first when there is `initCode`, has run `validateUserOp`. */
  function AccountActed(w: World, b: Block, run: OpRun): World {
    After(if run.op.initCode == [] then w else After(w, b, run.validation.creation), b, run.validation.account)
  }

  /**
   * An operation is validated: creation and account act, the prefund is taken and the nonce used, and then the
   * paymaster acts, if there is one. Everything is admitted, the deposit covers the prefund and the nonce is the next,
   * both as the account left them.
   */
  ghost predicate Validated(w: World, t: World, b: Block, run: OpRun, aggregator: Address) {
    var op := run.op;
    var u := AccountActed(w, b, run);
    && Admitted(run, aggregator, b.timestamp) && Funded(u.s, op) && NonceFits(u.s, op)
    && var taken := World(Reserved(u.s, op), u.seen);
       t == if PaymasterOf(op) == 0 then taken else After(taken, b, run.validation.paymaster)
  }

  lemma CreationActs(w: World, b: Block, op: UserOp, v: ValidationScript)
    ensures var r := CreateSenderIfNeeded(w, b, op, v);
      && (r.Ok? <==> SenderReady(op, v))
      && (r.Ok? ==> r.w == if op.initCode == [] then w else After(w, b, v.creation))
  {
    ActivityActs(w, b, v.creation);
  }

  lemma AccountActs(w: World, b: Block, run: OpRun)
    ensures var r := ValidateAccountPrepayment(w, b, run.op, run.validation);
      var u := AccountActed(w, b, run);
      && (r.Ok? <==> && SenderReady(run.op, run.validation) && run.validation.account.ok
                     && (PaymasterOf(run.op) == 0 ==> Funded(u.s, run.op)))
      && (r.Ok? ==>
            && r.value == SubWrap(run.validation.gas.accountStart, run.validation.gas.accountEnd)
            && r.w == if PaymasterOf(run.op) == 0
                      then World(TakePrefund(u.s, run.op.sender, RequiredPrefund(run.op)).value, u.seen) else u)
  {
    CreationActs(w, b, run.op, run.validation);
    ActivityActs(if run.op.initCode == [] then w else After(w, b, run.validation.creation), b, run.validation.account);
  }

  lemma PaymasterActs(w: World, b: Block, op: UserOp, v: ValidationScript, gasUsed: Word)
    requires PaymasterOf(op) != 0
    ensures var r := ValidatePaymasterPrepayment(w, b, op, v, gasUsed);
      && (r.Ok? <==> gasUsed < op.verificationGasLimit && Funded(w.s, op) && v.paymaster.ok)
      && (r.Ok? ==> r.w == After(World(TakePrefund(w.s, Payer(op), RequiredPrefund(op)).value, w.seen), b, v.paymaster))
  {
    var t := Take(w, PaymasterOf(op), RequiredPrefund(op), PaymasterDepositTooLow);
    ActivityActs(t.w, b, v.paymaster);
  }

  lemma PartsAct(w: World, b: Block, run: OpRun)
    ensures var r := ValidateParts(w, b, run.op, run.validation);
      var u := AccountActed(w, b, run);
      && (r.Ok? <==> PartsPass(run.op, run.validation) && Funded(u.s, run.op) && NonceFits(u.s, run.op))
      && (r.Ok? ==>
            var taken := World(Reserved(u.s, run.op), u.seen);
            r.w == if PaymasterOf(run.op) == 0 then taken else After(taken, b, run.validation.paymaster))
  {
    AccountActs(w, b, run);
    var a := ValidateAccountPrepayment(w, b, run.op, run.validation);
    if a.Ok? && PaymasterOf(run.op) != 0 {
      PaymasterActs(ValidateNonce(a.w, run.op).w, b, run.op, run.validation, a.value);
    }
  }

  lemma ValidationActs(w: World, b: Block, run: OpRun, aggregator: Address)
    ensures var r := Validate(w, b, run, aggregator);
      && (forall t :: Validated(w, t, b, run, aggregator) <==> r.Ok? && t == r.w)
      && (r.Ok? ==> r.value == ExpectedInfo(run))
  {
    GasValuesCheck(run.op);
    PartsAct(w, b, run);
  }

  // ----- execution

  predicate Succeeds(run: OpRun) {
    run.op.callData == [] || run.execution.inner.call.ok
  }

  predicate HasPostOp(op: UserOp, info: OpInfo) {
    PaymasterOf(op) != 0 && info.context
  }

  /** The paymaster, when it asked for it, has run `postOp`. */
  function PostActed(w: World, b: Block, op: UserOp, info: OpInfo, p: PostScript): World {
    if HasPostOp(op, info) then After(w, b, p.postOp) else w
  }

  /** Gas times the agreed price. */
  function CostAt(b: Block, op: UserOp, gas: Word): Word {
    MulWrap(gas, AgreedPrice(op, b.basefee))
  }

  /** The prefund covers the cost and the payer's deposit has room for the rest. */
  predicate Closable(s: State, b: Block, op: UserOp, info: OpInfo, gas: Word) {
    var cost := CostAt(b, op, gas);
    cost <= info.prefund && Info(s.deposits, Payer(op)).deposit + (info.prefund - cost) < U112
  }

  /** The payer gets back what is left of the prefund, the cost is collected, and the operation is reported. */
  function Closed(s: State, b: Block, op: UserOp, info: OpInfo, gas: Word, success: bool): State
    requires Closable(s, b, op, info, gas)
  {
    var cost, payer := CostAt(b, op, gas), Info(s.deposits, Payer(op));
    s.(deposits := Put(s.deposits, Payer(op), payer.(deposit := payer.deposit + (info.prefund - cost))),
       pending := if s.pending == [] then [] else s.pending[1..],
       fees := s.fees + cost,
       log := Then(s.log, UserOperation(op.sender, PaymasterOf(op), op.nonce, success, cost, gas)))
  }

  lemma SettlementCloses(w: World, b: Block, mode: Mode, op: UserOp, info: OpInfo, gas: Word)
    ensures var r := SettleOp(w, b, mode, op, info, gas);
      && (r.Ok? <==> Closable(w.s, b, op, info, gas))
      && (if r.Ok? then r.w == World(Closed(w.s, b, op, info, gas, mode == OpSucceeded), w.seen) && r.value == CostAt(b, op, gas)
          else r.w == w && DataOf(r.error) == OtherData)
  {
    PriceIsAgreed(op, b.basefee);
  }

  /** What `_handlePostOp` leaves, and how it fails. */
  lemma PostOpActs(w: World, b: Block, mode: Mode, op: UserOp, info: OpInfo, actualGas: Word, p: PostScript)
    ensures var r := HandlePostOp(w, b, mode, op, info, actualGas, p);
      var u, gas := PostActed(w, b, op, info, p), AddWrap(actualGas, SubWrap(p.before, p.after));
      var returned := HasPostOp(op, info) ==> p.postOp.ok;
      && (r.Ok? <==> returned && Closable(u.s, b, op, info, gas))
      && (if r.Ok? then r.w == World(Closed(u.s, b, op, info, gas, mode == OpSucceeded), u.seen) && r.value == CostAt(b, op, gas)
          else r.w.seen == u.seen && (returned || mode == PostOpFailed ==> DataOf(r.error) == OtherData)
               && (!returned && mode != PostOpFailed ==> DataOf(r.error) == p.reverted))
  {
    ActivityActs(w, b, p.postOp);
    var c := CallPostOp(w, b, mode, op, info, p);
    if c.Ok? {
      SettlementCloses(c.w, b, mode, op, info, AddWrap(actualGas, SubWrap(p.before, p.after)));
    }
  }

  /** The account has run the operation's own call, when it has one. */
  function CallActed(w: World, b: Block, run: OpRun): World {
    if run.op.callData == [] then w else After(w, b, run.execution.inner.call)
  }

  /** That call and then `postOp`, inside the inner call. */
  function InnerEnd(w: World, b: Block, run: OpRun, info: OpInfo): World {
    PostActed(CallActed(w, b, run), b, run.op, info, run.execution.inner.post)
  }

  function InnerGas(run: OpRun, info: OpInfo): Word {
    var x := run.execution.inner;
    AddWrap(AddWrap(SubWrap(x.before, x.after), info.preOpGas), SubWrap(x.post.before, x.post.after))
  }

  /** The inner call has the gas that the operation asked for. */
  predicate HasCallGas(run: OpRun) {
    run.execution.inner.limitCheck >= AddWrap(AddWrap(run.op.callGasLimit, run.op.verificationGasLimit), 5000)
  }

  predicate SettlesInside(w: World, b: Block, run: OpRun, info: OpInfo) {
    var x := run.execution.inner;
    && HasCallGas(run) && !x.outOfGas && (HasPostOp(run.op, info) ==> x.post.postOp.ok)
    && Closable(InnerEnd(w, b, run, info).s, b, run.op, info, InnerGas(run, info))
  }

  /** The inner call was undone for a reason that the bundle survives: `postOp` reverted with data of its own, or the operation could not be settled. */
  predicate MayRetry(w: World, b: Block, run: OpRun, info: OpInfo) {
    var x := run.execution.inner;
    && HasCallGas(run)
    && if HasPostOp(run.op, info) && !x.post.postOp.ok then x.post.reverted == OtherData
       else !Closable(InnerEnd(w, b, run, info).s, b, run.op, info, InnerGas(run, info))
  }

  /** Then `postOp` runs once more, on the storage before the inner call. */
  function OuterEnd(w: World, b: Block, run: OpRun, info: OpInfo): World {
    PostActed(World(w.s, InnerEnd(w, b, run, info).seen), b, run.op, info, run.execution.post)
  }

  predicate OuterGasFits(run: OpRun, info: OpInfo) {
    run.execution.before >= run.execution.after && run.execution.before - run.execution.after + info.preOpGas < U256
  }

  function OuterGas(run: OpRun, info: OpInfo): Word
    requires OuterGasFits(run, info)
  {
    var x := run.execution;
    AddWrap(x.before - x.after + info.preOpGas, SubWrap(x.post.before, x.post.after))
  }

  predicate SettlesOutside(w: World, b: Block, run: OpRun, info: OpInfo) {
    && MayRetry(w, b, run, info) && OuterGasFits(run, info)
    && (HasPostOp(run.op, info) ==> run.execution.post.postOp.ok)
    && Closable(OuterEnd(w, b, run, info).s, b, run.op, info, OuterGas(run, info))
  }

  /**
   * An operation is executed: inside the inner call, with all that its call and `postOp` did, and reported as its call
   * ended; or, when that was undone, outside, with nothing but the second `postOp`, and reported as failed.
   */
  ghost predicate Performed(w: World, t: World, b: Block, run: OpRun, info: OpInfo, cost: Word) {
    || (&& SettlesInside(w, b, run, info)
        && var u := InnerEnd(w, b, run, info);
           && t == World(Closed(u.s, b, run.op, info, InnerGas(run, info), Succeeds(run)), u.seen)
           && cost == CostAt(b, run.op, InnerGas(run, info)))
    || (&& SettlesOutside(w, b, run, info)
        && var u := OuterEnd(w, b, run, info);
           && t == World(Closed(u.s, b, run.op, info, OuterGas(run, info), false), u.seen)
           && cost == CostAt(b, run.op, OuterGas(run, info)))
  }

  /** `_handlePostOp` as the inner call runs it. */
  function InnerPost(w: World, b: Block, run: OpRun, info: OpInfo): Out<Word> {
    var x := run.execution.inner;
    HandlePostOp(CallActed(w, b, run), b, if Succeeds(run) then OpSucceeded else OpReverted, run.op, info,
                 AddWrap(SubWrap(x.before, x.after), info.preOpGas), x.post)
  }

  ghost predicate InnerPosted(r: Out<Word>, w: World, b: Block, run: OpRun, info: OpInfo) {
    var u, x := InnerEnd(w, b, run, info), run.execution.inner;
    var returned := HasPostOp(run.op, info) ==> x.post.postOp.ok;
    && (r.Ok? <==> returned && Closable(u.s, b, run.op, info, InnerGas(run, info)))
    && (r.Ok? ==> && r.w == World(Closed(u.s, b, run.op, info, InnerGas(run, info), Succeeds(run)), u.seen)
                  && r.value == CostAt(b, run.op, InnerGas(run, info)))
    && (r.Fail? ==> r.w.seen == u.seen && DataOf(r.error) == if returned then OtherData else x.post.reverted)
  }

  lemma InnerPostActs(w: World, b: Block, run: OpRun, info: OpInfo)
    ensures InnerPosted(InnerPost(w, b, run, info), w, b, run, info)
  {
    var x := run.execution.inner;
    PostOpActs(CallActed(w, b, run), b, if Succeeds(run) then OpSucceeded else OpReverted, run.op, info,
               AddWrap(SubWrap(x.before, x.after), info.preOpGas), x.post);
  }

  lemma InnerCallIs(w: World, b: Block, run: OpRun, info: OpInfo)
    ensures InnerHandleOp(w, b, run.op, info, run.execution.inner)
         == if !HasCallGas(run) then Fail(w, CallGasTooLow)
            else
              var h := InnerPost(w, b, run, info);
              if h.Ok? && run.execution.inner.outOfGas then Fail(h.w, InnerRanOutOfGas) else h
  {
    ActivityActs(w, b, run.execution.inner.call);
  }

  /** What `innerHandleOp` ends with, seen from outside: settled, or undone for a reason that allows a retry, or not. */
  ghost predicate InnerEnds(r: Out<Word>, w: World, b: Block, run: OpRun, info: OpInfo) {
    var u := InnerEnd(w, b, run, info);
    && (r.Ok? <==> SettlesInside(w, b, run, info))
    && (r.Ok? ==> && r.w == World(Closed(u.s, b, run.op, info, InnerGas(run, info), Succeeds(run)), u.seen)
                  && r.value == CostAt(b, run.op, InnerGas(run, info)))
    && (r.Fail? ==> && (DataOf(r.error) == OtherData <==> MayRetry(w, b, run, info))
                    && (MayRetry(w, b, run, info) ==> r.w.seen == u.seen))
  }

  lemma InnerVerdict(r: Out<Word>, h: Out<Word>, w: World, b: Block, run: OpRun, info: OpInfo)
    requires InnerPosted(h, w, b, run, info)
    requires r == if !HasCallGas(run) then Fail(w, CallGasTooLow)
                  else if h.Ok? && run.execution.inner.outOfGas then Fail(h.w, InnerRanOutOfGas) else h
    ensures InnerEnds(r, w, b, run, info)
  {
  }

  lemma InnerCallActs(w: World, b: Block, run: OpRun, info: OpInfo)
    ensures InnerEnds(InnerHandleOp(w, b, run.op, info, run.execution.inner), w, b, run, info)
  {
    InnerCallIs(w, b, run, info);
    InnerPostActs(w, b, run, info);
    InnerVerdict(InnerHandleOp(w, b, run.op, info, run.execution.inner), InnerPost(w, b, run, info), w, b, run, info);
  }

  lemma OuterActs(w: World, b: Block, run: OpRun, info: OpInfo)
    ensures var r := SettleOutside(World(w.s, InnerEnd(w, b, run, info).seen), b, run.op, info, run.execution, OtherData);
      var u := OuterEnd(w, b, run, info);
      && (r.Ok? <==> && OuterGasFits(run, info) && (HasPostOp(run.op, info) ==> run.execution.post.postOp.ok)
                     && Closable(u.s, b, run.op, info, OuterGas(run, info)))
      && (r.Ok? ==> && r.w == World(Closed(u.s, b, run.op, info, OuterGas(run, info), false), u.seen)
                    && r.value == CostAt(b, run.op, OuterGas(run, info)))
  {
    var x := run.execution;
    if OuterGasFits(run, info) {
      PostOpActs(World(w.s, InnerEnd(w, b, run, info).seen), b, PostOpFailed, run.op, info,
                 x.before - x.after + info.preOpGas, x.post);
    }
  }

  /** An operation is executed in exactly one of these two ways, or the bundle fails. */
  lemma ExecutionActs(w: World, b: Block, run: OpRun, info: OpInfo)
    ensures var r := ExecuteUserOp(w, b, run, info);
      forall t: World, cost: Word :: Performed(w, t, b, run, info, cost) <==> r == Ok(t, cost)
  {
    InnerCallActs(w, b, run, info);
    OuterActs(w, b, run, info);
  }

  /** An inner call with less gas than the operation asked for stops the bundle (AA95); one that runs out of gas itself settles nothing inside. */
  lemma OutOfGasStops(w: World, b: Block, run: OpRun, info: OpInfo)
    ensures !HasCallGas(run) ==> ExecuteUserOp(w, b, run, info) == Fail(w, OutOfGas)
    ensures ExecuteUserOp(w, b, run, info).Ok? && run.execution.inner.outOfGas ==> SettlesOutside(w, b, run, info)
  {
    InnerCallIs(w, b, run, info);
    ExecutionActs(w, b, run, info);
    var r := ExecuteUserOp(w, b, run, info);
    assert r.Ok? ==> Performed(w, r.w, b, run, info, r.value);
  }

  // ----- the loops

  ghost predicate ValidatedInTurn(w: World, t: World, b: Block, runs: seq<OpRun>, aggregator: Address)
    decreases runs
  {
    if runs == [] then t == w
    else exists u :: Validated(w, u, b, runs[0], aggregator) && ValidatedInTurn(u, t, b, runs[1..], aggregator)
  }

  ghost predicate ExecutedInTurn(w: World, t: World, b: Block, runs: seq<OpRun>)
    decreases runs
  {
    if runs == [] then t == w
    else
      exists u: World, cost: Word ::
        Performed(w, u, b, runs[0], ExpectedInfo(runs[0]), cost) && ExecutedInTurn(u, t, b, runs[1..])
  }

  lemma {:induction false} ValidationLoopActs(w: World, b: Block, runs: seq<OpRun>, aggregator: Address)
    ensures var r := ValidateAll(w, b, runs, aggregator);
      && (forall t :: ValidatedInTurn(w, t, b, runs, aggregator) <==> r.Ok? && t == r.w)
      && (r.Ok? ==> r.value == Infos(runs))
    decreases runs
  {
    if runs != [] {
      ValidationActs(w, b, runs[0], aggregator);
      var v := Validate(w, b, runs[0], aggregator);
      if v.Ok? {
        assert Validated(w, v.w, b, runs[0], aggregator);
        ValidationLoopActs(v.w, b, runs[1..], aggregator);
      }
    }
  }

  lemma {:induction false} ExecutionLoopActs(w: World, b: Block, runs: seq<OpRun>, collected: Word)
    ensures var r := ExecuteAll(w, b, runs, Infos(runs), collected, false);
      forall t :: ExecutedInTurn(w, t, b, runs) <==> r.Ok? && t == r.w
    decreases runs
  {
    if runs != [] {
      ExecutionActs(w, b, runs[0], ExpectedInfo(runs[0]));
      assert Infos(runs)[0] == ExpectedInfo(runs[0]) && Infos(runs)[1..] == Infos(runs[1..]);
      var x := ExecuteUserOp(w, b, runs[0], ExpectedInfo(runs[0]));
      if x.Ok? {
        assert Performed(w, x.w, b, runs[0], ExpectedInfo(runs[0]), x.value);
        ExecutionLoopActs(x.w, b, runs[1..], AddWrap(collected, x.value));
      }
    }
  }

  // ----- whole bundles

  /** All fees leave for the beneficiary, who then acts. */
  ghost predicate PaidOut(w: World, t: World, b: Block, beneficiary: Address, payment: Activity) {
    && beneficiary != 0 && payment.ok && w.s.fees <= w.s.balance
    && var paid := w.s.(balance := w.s.balance - w.s.fees, fees := 0, log := Then(w.s.log, Compensated(beneficiary, w.s.fees)));
       t == After(World(paid, w.seen), b, payment)
  }

  lemma PaymentActs(w: World, b: Block, beneficiary: Address, payment: Activity)
    requires w.s.fees < U256
    ensures var r := Compensate(w, b, beneficiary, w.s.fees, payment);
      forall t :: PaidOut(w, t, b, beneficiary, payment) <==> r.Ok? && t == r.w
  {
    if PayOut(w.s, beneficiary, w.s.fees).Some? {
      ActivityActs(World(PayOut(w.s, beneficiary, w.s.fees).value, w.seen), b, payment);
    }
  }

  /** All operations are validated one after the other, then all executed one after the other, then the fees are paid out. */
  ghost predicate Completed(w: World, t: World, b: Block, batch: Batch) {
    exists u, x ::
      && ValidatedInTurn(w, u, b, batch.runs, 0)
      && ExecutedInTurn(u, x, b, batch.runs)
      && PaidOut(x, t, b, batch.beneficiary, batch.payment)
  }

  lemma BundleBodyActs(w: World, b: Block, batch: Batch)
    requires Sound(w) && w.s.entered && w.s.pending == [] && w.s.fees == 0
    ensures var r := Bundle(w, b, batch);
      forall t :: Completed(w, t, b, batch) <==> r.Ok? && t == r.w
  {
    ValidationLoopActs(w, b, batch.runs, 0);
    ValidateAllKeeps(w, b, batch.runs, 0);
    var v := ValidateAll(w, b, batch.runs, 0);
    if v.Ok? {
      assert ValidatedInTurn(w, v.w, b, batch.runs, 0);
      ExecutionLoopActs(v.w, b, batch.runs, 0);
      var _ := ExecuteAllKeeps(v.w, b, batch.runs, v.value, 0, false, []);
      var x := ExecuteAll(v.w, b, batch.runs, v.value, 0, false);
      if x.Ok? {
        assert ExecutedInTurn(v.w, x.w, b, batch.runs);
        PaymentActs(x.w, b, batch.beneficiary, batch.payment);
      }
    }
  }

  /**
   * For all scripts: a top-level `handleOps` either completes, and then ends where its steps taken in turn end, or no
   * completion exists and the storage is as before.
   */
  lemma BundleActs(w: World, b: Block, batch: Batch)
    requires Sound(w) && !w.s.entered
    ensures var w1 := RunCall(w, b, HandleOps(batch));
      var w0 := World(w.s.(entered := true), w.seen);
      && (forall t :: Completed(w0, t, b, batch) ==> w1 == World(t.s.(entered := false), t.seen))
      && ((forall t :: !Completed(w0, t, b, batch)) ==> w1.s == w.s)
  {
    EnterKeeps(w);
    BundleBodyActs(Enter(w), b, batch);
    var r := Bundle(Enter(w), b, batch);
    if r.Ok? {
      assert Completed(Enter(w), r.w, b, batch);
    }
  }

  // ----- bundles of groups

  /** Every group's aggregator, other than none, has checked its signatures and agreed; none is the address 1. */
  ghost predicate CheckedInTurn(w: World, t: World, b: Block, groups: seq<Group>)
    decreases groups
  {
    if groups == [] then t == w
    else
      var g := groups[0];
      && g.aggregator != 1 && (g.aggregator != 0 ==> g.check.ok)
      && CheckedInTurn(if g.aggregator == 0 then w else After(w, b, g.check), t, b, groups[1..])
  }

  ghost predicate GroupsValidatedInTurn(w: World, t: World, b: Block, groups: seq<Group>)
    decreases groups
  {
    if groups == [] then t == w
    else
      exists u :: ValidatedInTurn(w, u, b, groups[0].runs, groups[0].aggregator) && GroupsValidatedInTurn(u, t, b, groups[1..])
  }

  lemma {:induction false} SignatureLoopActs(w: World, b: Block, groups: seq<Group>)
    ensures var r := CheckSignatures(w, b, groups);
      forall t :: CheckedInTurn(w, t, b, groups) <==> r.Ok? && t == r.w
    decreases groups
  {
    if groups != [] {
      var g := groups[0];
      ActivityActs(w, b, g.check);
      SignatureLoopActs(if g.aggregator == 0 then w else After(w, b, g.check), b, groups[1..]);
    }
  }

  lemma {:induction false} InfosAppend(runs: seq<OpRun>, more: seq<OpRun>)
    ensures Infos(runs + more) == Infos(runs) + Infos(more)
  {
    if runs == [] {
      assert runs + more == more;
    } else {
      InfosAppend(runs[1..], more);
      assert (runs + more)[1..] == runs[1..] + more && (runs + more)[0] == runs[0];
    }
  }

  lemma {:induction false} GroupLoopActs(w: World, b: Block, groups: seq<Group>)
    ensures var r := ValidateGroups(w, b, groups);
      && (forall t :: GroupsValidatedInTurn(w, t, b, groups) <==> r.Ok? && t == r.w)
      && (r.Ok? ==> r.value == Infos(Flatten(groups)))
    decreases groups
  {
    if groups != [] {
      var runs := groups[0].runs;
      ValidationLoopActs(w, b, runs, groups[0].aggregator);
      InfosAppend(runs, Flatten(groups[1..]));
      var v := ValidateAll(w, b, runs, groups[0].aggregator);
      if v.Ok? {
        assert ValidatedInTurn(w, v.w, b, runs, groups[0].aggregator);
        GroupLoopActs(v.w, b, groups[1..]);
      }
    }
  }

  /** All operations are validated, then all executed, then the fees paid out. */
  ghost predicate GroupsHandled(w: World, t: World, b: Block, batch: GroupedBatch) {
    exists u, x ::
      && GroupsValidatedInTurn(w, u, b, batch.groups)
      && ExecutedInTurn(u, x, b, Flatten(batch.groups))
      && PaidOut(x, t, b, batch.beneficiary, batch.payment)
  }

  /** First all signatures are checked. */
  ghost predicate GroupsCompleted(w: World, t: World, b: Block, batch: GroupedBatch) {
    exists c :: CheckedInTurn(w, c, b, batch.groups) && GroupsHandled(c, t, b, batch)
  }

  /** The nested execution loops, with their checked total, execute the operations in turn. */
  lemma GroupExecutionActs(w: World, b: Block, groups: seq<Group>)
    requires Sound(w) && w.s.entered && w.s.pending == PrefundsOf(Flatten(groups)) && w.s.fees == 0
    requires Backed(Flatten(groups), Infos(Flatten(groups)))
    ensures var r := ExecuteGroups(w, b, groups, Infos(Flatten(groups)), 0);
      && (forall t :: ExecutedInTurn(w, t, b, Flatten(groups)) <==> r.Ok? && t == r.w)
      && (r.Ok? ==> Sound(r.w) && r.w.s.fees == r.value)
  {
    var runs := Flatten(groups);
    ExecuteGroupsIsFlat(w, b, groups, Infos(runs), 0);
    assert w.s.pending == PrefundsOf(runs) + [];
    CheckingIsIdle(w, b, runs, Infos(runs), 0, []);
    ExecutionLoopActs(w, b, runs, 0);
    var _ := ExecuteAllKeeps(w, b, runs, Infos(runs), 0, true, []);
  }

  function HandleGroups(w: World, b: Block, batch: GroupedBatch): Out<Word> {
    var (w1, infos) :- ValidateGroups(w, b, batch.groups);
    var (w2, collected) :- ExecuteGroups(w1, b, batch.groups, infos, 0);
    Compensate(w2, b, batch.beneficiary, collected, batch.payment)
  }

  lemma HandleGroupsActs(w: World, b: Block, batch: GroupedBatch)
    requires Sound(w) && w.s.entered && w.s.pending == [] && w.s.fees == 0
    ensures var r := HandleGroups(w, b, batch);
      forall t :: GroupsHandled(w, t, b, batch) <==> r.Ok? && t == r.w
  {
    GroupLoopActs(w, b, batch.groups);
    ValidateGroupsKeeps(w, b, batch.groups);
    var v := ValidateGroups(w, b, batch.groups);
    if v.Ok? {
      assert GroupsValidatedInTurn(w, v.w, b, batch.groups);
      GroupExecutionActs(v.w, b, batch.groups);
      var x := ExecuteGroups(v.w, b, batch.groups, v.value, 0);
      if x.Ok? {
        assert ExecutedInTurn(v.w, x.w, b, Flatten(batch.groups));
        PaymentActs(x.w, b, batch.beneficiary, batch.payment);
      }
    }
  }

  lemma GroupedBodyActs(w: World, b: Block, batch: GroupedBatch)
    requires Sound(w) && w.s.entered && w.s.pending == [] && w.s.fees == 0
    ensures var r := GroupedBundle(w, b, batch);
      forall t :: GroupsCompleted(w, t, b, batch) <==> r.Ok? && t == r.w
  {
    SignatureLoopActs(w, b, batch.groups);
    CheckSignaturesKeeps(w, b, batch.groups);
    var c := CheckSignatures(w, b, batch.groups);
    if c.Ok? {
      assert CheckedInTurn(w, c.w, b, batch.groups);
      HandleGroupsActs(c.w, b, batch);
      assert GroupedBundle(w, b, batch) == HandleGroups(c.w, b, batch);
    }
  }

  /** The same for `handleAggregatedOps`, aggregators included. */
  lemma GroupedBundleActs(w: World, b: Block, batch: GroupedBatch)
    requires Sound(w) && !w.s.entered
    ensures var w1 := RunCall(w, b, HandleAggregatedOps(batch));
      var w0 := World(w.s.(entered := true), w.seen);
      && (forall t :: GroupsCompleted(w0, t, b, batch) ==> w1 == World(t.s.(entered := false), t.seen))
      && ((forall t :: !GroupsCompleted(w0, t, b, batch)) ==> w1.s == w.s)
  {
    EnterKeeps(w);
    GroupedBodyActs(Enter(w), b, batch);
    var r := GroupedBundle(Enter(w), b, batch);
    if r.Ok? {
      assert GroupsCompleted(Enter(w), r.w, b, batch);
    }
  }
}
