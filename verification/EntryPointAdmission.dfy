/** What every operation of a completed bundle has passed. */
module EntryPointAdmission {
  import opened Words
  import opened Ledger
  import opened EntryPointSpec
  import opened EntryPointArithmetic
  import V = ValidationWords

  /** The sender existed already, or the factory named by `initCode` returned it with code. */
  predicate SenderReady(op: UserOp, v: ValidationScript) {
    op.initCode == [] || (|op.initCode| >= 20 && !v.senderHasCode && v.creation.ok && v.created == op.sender != 0 && v.createdHasCode)
  }

  /**
   * The checks on one operation: bounded fields, a sender, an account and a paymaster that agreed, words that
   * name the expected aggregator and are due, and validation within its gas limit.
   */
  predicate Admitted(run: OpRun, aggregator: Address, now: nat) {
    var op, v := run.op, run.validation;
    && !(0 < |op.paymasterAndData| < 20)
    && FieldsBounded(op)
    && SenderReady(op, v)
    && v.account.ok
    && (PaymasterOf(op) != 0 ==>
          v.paymaster.ok && SubWrap(v.gas.accountStart, v.gas.accountEnd) < op.verificationGasLimit)
    && V.Judge(v.accountWord, if PaymasterOf(op) != 0 then v.paymasterWord else 0, aggregator, now) == V.Accepted
    && SubWrap(v.gas.start, v.gas.checked) <= op.verificationGasLimit
  }

  lemma AccountAdmits(w: World, b: Block, op: UserOp, v: ValidationScript)
    requires ValidateAccountPrepayment(w, b, op, v).Ok?
    ensures v.account.ok && SenderReady(op, v)
    ensures ValidateAccountPrepayment(w, b, op, v).value == SubWrap(v.gas.accountStart, v.gas.accountEnd)
  {
    var c := CreateSenderIfNeeded(w, b, op, v);
    assert c.Ok?;
    assert RunActivity(w, b, v.creation).ok == v.creation.ok;
    assert RunActivity(c.w, b, v.account).ok == v.account.ok;
  }

  lemma PartsAdmit(w: World, b: Block, op: UserOp, v: ValidationScript)
    requires ValidateParts(w, b, op, v).Ok?
    ensures v.account.ok && SenderReady(op, v)
    ensures PaymasterOf(op) != 0 ==>
      v.paymaster.ok && SubWrap(v.gas.accountStart, v.gas.accountEnd) < op.verificationGasLimit
  {
    AccountAdmits(w, b, op, v);
    var a := ValidateAccountPrepayment(w, b, op, v);
    var n := ValidateNonce(a.w, op);
    if PaymasterOf(op) != 0 {
      var t := Take(n.w, PaymasterOf(op), RequiredPrefund(op), PaymasterDepositTooLow);
      assert RunActivity(t.w, b, v.paymaster).ok == v.paymaster.ok;
    }
  }

  lemma ValidateAdmits(w: World, b: Block, run: OpRun, aggregator: Address)
    requires Validate(w, b, run, aggregator).Ok?
    ensures Admitted(run, aggregator, b.timestamp)
  {
    assert ValidatePrepayment(w, b, run.op, run.validation).Ok?;
    GasValuesCheck(run.op);
    PartsAdmit(w, b, run.op, run.validation);
  }

  lemma {:induction false} ValidateAllAdmits(w: World, b: Block, runs: seq<OpRun>, aggregator: Address)
    requires ValidateAll(w, b, runs, aggregator).Ok?
    ensures forall run | run in runs :: Admitted(run, aggregator, b.timestamp)
    decreases runs
  {
    if runs != [] {
      ValidateAdmits(w, b, runs[0], aggregator);
      ValidateAllAdmits(Validate(w, b, runs[0], aggregator).w, b, runs[1..], aggregator);
    }
  }

  lemma {:induction false} ValidateGroupsAdmit(w: World, b: Block, groups: seq<Group>)
    requires ValidateGroups(w, b, groups).Ok?
    ensures forall g | g in groups :: forall run | run in g.runs :: Admitted(run, g.aggregator, b.timestamp)
    decreases groups
  {
    if groups != [] {
      ValidateAllAdmits(w, b, groups[0].runs, groups[0].aggregator);
      ValidateGroupsAdmit(ValidateAll(w, b, groups[0].runs, groups[0].aggregator).w, b, groups[1..]);
    }
  }

  lemma {:induction false} SignaturesChecked(w: World, b: Block, groups: seq<Group>)
    requires CheckSignatures(w, b, groups).Ok?
    ensures forall g | g in groups :: g.aggregator != 1 && (g.aggregator != 0 ==> g.check.ok)
    decreases groups
  {
    if groups != [] {
      var r := RunActivity(w, b, groups[0].check);
      assert r.ok == groups[0].check.ok;
      SignaturesChecked(if groups[0].aggregator == 0 then w else r.w, b, groups[1..]);
    }
  }

  /** A `handleOps` that left a trace admitted every operation with no aggregator, and its pay-out went through. */
  lemma CompletedBundleAdmits(w: World, b: Block, batch: Batch)
    requires RunCall(w, b, HandleOps(batch)).s != w.s
    ensures !w.s.entered
    ensures forall run | run in batch.runs :: Admitted(run, 0, b.timestamp)
    ensures batch.beneficiary != 0 && batch.payment.ok
  {
    var v := ValidateAll(Enter(w), b, batch.runs, 0);
    assert Bundle(Enter(w), b, batch).Ok? && v.Ok?;
    ValidateAllAdmits(Enter(w), b, batch.runs, 0);
    var x := ExecuteAll(v.w, b, batch.runs, v.value, 0, false);
    assert Compensate(x.w, b, batch.beneficiary, x.value, batch.payment).Ok?;
    PaidBeneficiary(x.w, b, batch.beneficiary, x.value, batch.payment);
  }

  lemma PaidBeneficiary(w: World, b: Block, beneficiary: Address, amount: Word, payment: Activity)
    requires Compensate(w, b, beneficiary, amount, payment).Ok?
    ensures beneficiary != 0 && payment.ok
  {
  }

  /** The same for `handleAggregatedOps`: each group's aggregator vouched for it and is the one its accounts named. */
  lemma CompletedGroupsAdmit(w: World, b: Block, batch: GroupedBatch)
    requires RunCall(w, b, HandleAggregatedOps(batch)).s != w.s
    ensures !w.s.entered
    ensures forall g | g in batch.groups ::
      && g.aggregator != 1 && (g.aggregator != 0 ==> g.check.ok)
      && forall run | run in g.runs :: Admitted(run, g.aggregator, b.timestamp)
    ensures batch.beneficiary != 0 && batch.payment.ok
  {
    assert GroupedBundle(Enter(w), b, batch).Ok?;
    GroupedBundleAdmits(Enter(w), b, batch);
  }

  lemma GroupedBundleAdmits(w: World, b: Block, batch: GroupedBatch)
    requires GroupedBundle(w, b, batch).Ok?
    ensures forall g | g in batch.groups ::
      && g.aggregator != 1 && (g.aggregator != 0 ==> g.check.ok)
      && forall run | run in g.runs :: Admitted(run, g.aggregator, b.timestamp)
    ensures batch.beneficiary != 0 && batch.payment.ok
  {
    SignaturesChecked(w, b, batch.groups);
    var c := CheckSignatures(w, b, batch.groups);
    ValidateGroupsAdmit(c.w, b, batch.groups);
    var v := ValidateGroups(c.w, b, batch.groups);
    var x := ExecuteGroups(v.w, b, batch.groups, v.value, 0);
    PaidBeneficiary(x.w, b, batch.beneficiary, x.value, batch.payment);
  }

  lemma PostOpReturned(w: World, b: Block, mode: Mode, op: UserOp, info: OpInfo, actualGas: Word, p: PostScript)
    requires HandlePostOp(w, b, mode, op, info, actualGas, p).Ok? && PaymasterOf(op) != 0 && info.context
    ensures p.postOp.ok
  {
    assert CallPostOp(w, b, mode, op, info, p).Ok?;
    assert RunActivity(w, b, p.postOp).ok == p.postOp.ok;
  }

  /**
   * An operation whose paymaster returned a context is settled only after a `postOp` that returned: the one
   * inside the inner call, or, when that call was undone without asking to stop the bundle, the second one outside.
   */
  lemma SettledAfterPostOp(w: World, b: Block, run: OpRun, info: OpInfo)
    requires ExecuteUserOp(w, b, run, info).Ok? && PaymasterOf(run.op) != 0 && info.context
    ensures var inner := InnerHandleOp(w, b, run.op, info, run.execution.inner);
      if inner.Ok? then run.execution.inner.post.postOp.ok
      else run.execution.post.postOp.ok && DataOf(inner.error) == OtherData
  {
    var op, x, i := run.op, run.execution, run.execution.inner;
    var inner := InnerHandleOp(w, b, op, info, i);
    if inner.Ok? {
      var c := if op.callData == [] then Ran(w, true) else RunActivity(w, b, i.call);
      PostOpReturned(c.w, b, if c.ok then OpSucceeded else OpReverted, op, info,
                     AddWrap(SubWrap(i.before, i.after), info.preOpGas), i.post);
    } else {
      PostOpReturned(inner.w.(s := w.s), b, PostOpFailed, op, info, x.before - x.after + info.preOpGas, x.post);
    }
  }
}
