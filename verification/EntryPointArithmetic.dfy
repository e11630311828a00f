/** The unchecked arithmetic on user operations is exact, because of one check on the or of five fields. */
module EntryPointArithmetic {
  import opened Words
  import opened Bytes
  import opened Ledger
  import opened Transitions
  import opened EntryPointSpec
  import opened EntryPointInvariant
  import V = ValidationWords

  predicate FieldsBounded(op: UserOp) {
    && op.preVerificationGas < U120 && op.verificationGasLimit < U120 && op.callGasLimit < U120
    && op.maxFeePerGas < U120 && op.maxPriorityFeePerGas < U120
  }

  /** The single check AA94 passes exactly when each of the five fields is at most 2^120 - 1. */
  lemma GasValuesCheck(op: UserOp)
    ensures MaxGasValues(op) <= U120 - 1 <==> FieldsBounded(op)
  {
    PowersOfTwo();
    var x1 := Or(op.preVerificationGas, op.verificationGasLimit);
    var x2 := Or(x1, op.callGasLimit);
    var x3 := Or(x2, op.maxFeePerGas);
    OrFits(op.preVerificationGas, op.verificationGasLimit, 120);
    OrFits(x1, op.callGasLimit, 120);
    OrFits(x2, op.maxFeePerGas, 120);
    OrFits(x3, op.maxPriorityFeePerGas, 120);
  }

  /** The paymaster is what the first 20 bytes of `paymasterAndData` spell; fewer bytes name none. */
  lemma PaymasterNamed(op: UserOp, paymaster: Address, rest: bytes)
    ensures |op.paymasterAndData| < 20 ==> PaymasterOf(op) == 0 && Payer(op) == op.sender
    ensures op.paymasterAndData == ToBytes(paymaster, 20) + rest ==>
      PaymasterOf(op) == paymaster && Payer(op) == if paymaster == 0 then op.sender else paymaster
  {
    Capacities();
    RoundTrip(paymaster, 20);
    if op.paymasterAndData == ToBytes(paymaster, 20) + rest {
      assert op.paymasterAndData[..20] == ToBytes(paymaster, 20);
    }
  }

  /** The required gas, in unbounded arithmetic: a paymaster's operation reserves three verification limits. */
  function RequiredGas(op: UserOp): nat {
    op.callGasLimit + op.verificationGasLimit * (if PaymasterOf(op) != 0 then 3 else 1) + op.preVerificationGas
  }

  lemma ProductBelow(x: nat, y: nat, m: nat, n: nat)
    requires x <= m && y <= n
    ensures x * y <= m * n
  {
    assert x * y <= m * y;
    assert m * y <= m * n;
  }

  /** Past AA94 the required prefund is the exact product, below 5 * 2^240. */
  lemma PrefundExact(op: UserOp)
    requires FieldsBounded(op)
    ensures RequiredPrefund(op) == RequiredGas(op) * op.maxFeePerGas < 5 * U120 * U120
  {
    var m := if PaymasterOf(op) != 0 then 3 else 1;
    TimesIsProduct(op.verificationGasLimit, m);
    TimesIsProduct(RequiredGas(op), op.maxFeePerGas);
    ProductBelow(RequiredGas(op), op.maxFeePerGas, 5 * U120 - 5, U120 - 1);
  }

  /**
   * The price per gas that the operation's two fees agree to: the cap when the fees are equal, which marks a legacy
   * transaction, and otherwise the priority fee on top of the base fee, up to the cap.
   */
  function AgreedPrice(op: UserOp, basefee: Word): (price: nat)
    ensures price <= op.maxFeePerGas
  {
    var bid := (op.maxPriorityFeePerGas + basefee) % U256;
    if op.maxFeePerGas == op.maxPriorityFeePerGas || op.maxFeePerGas <= bid then op.maxFeePerGas else bid
  }

  lemma PriceIsAgreed(op: UserOp, basefee: Word)
    ensures GasPrice(op, basefee) == AgreedPrice(op, basefee)
  {
  }

  /**
   * The price never exceeds what the sender signed, whatever the base fee and whether or not the bid wraps. With equal
   * fees it is that fee; short of a base fee near 2^256 it is the smaller of the cap and the bid.
   */
  lemma PriceBounded(op: UserOp, basefee: Word)
    ensures GasPrice(op, basefee) <= op.maxFeePerGas
    ensures op.maxFeePerGas == op.maxPriorityFeePerGas ==> GasPrice(op, basefee) == op.maxFeePerGas
    ensures FieldsBounded(op) && basefee < U256 - U120 ==>
      GasPrice(op, basefee) == if op.maxFeePerGas < op.maxPriorityFeePerGas + basefee then op.maxFeePerGas
                               else op.maxPriorityFeePerGas + basefee
  {
  }

  /** `gasleft()` never grows inside one call frame. */
  predicate Metered(run: OpRun) {
    var g, x := run.validation.gas, run.execution;
    && g.start >= g.accountStart >= g.accountEnd >= g.checked >= g.end
    && x.before >= x.after && x.post.before >= x.post.after
    && x.inner.before >= x.inner.limitCheck >= x.inner.after && x.inner.post.before >= x.inner.post.after
  }

  /** The gas an operation is charged for: its validation, its execution on the path taken, and what it declared. */
  function GasOnPath(run: OpRun, outside: bool): int {
    var g, x := run.validation.gas, run.execution;
    g.start - g.end + run.op.preVerificationGas +
    if outside then x.before - x.after + (x.post.before - x.post.after)
    else x.inner.before - x.inner.after + (x.inner.post.before - x.inner.post.after)
  }

  lemma ValidatedExactly(w: World, b: Block, run: OpRun, aggregator: Address)
    requires Metered(run) && Validate(w, b, run, aggregator).Ok?
    ensures var info := Validate(w, b, run, aggregator).value;
      && FieldsBounded(run.op)
      && info.prefund == RequiredGas(run.op) * run.op.maxFeePerGas
      && info.preOpGas == run.validation.gas.start - run.validation.gas.end + run.op.preVerificationGas
      && run.validation.gas.start - run.validation.gas.checked <= run.op.verificationGasLimit
  {
    var op, v := run.op, run.validation;
    assert ValidatePrepayment(w, b, op, v).Ok? && MaxGasValues(op) <= U120 - 1;
    GasValuesCheck(op);
    PrefundExact(op);
  }

  lemma CostExact(gas: nat, op: UserOp, basefee: Word)
    requires FieldsBounded(op) && gas < 2 * U120
    ensures MulWrap(gas, GasPrice(op, basefee)) == gas * AgreedPrice(op, basefee)
  {
    PriceIsAgreed(op, basefee);
    TimesIsProduct(gas, GasPrice(op, basefee));
    ProductBelow(gas, GasPrice(op, basefee), 2 * U120, U120);
  }

  lemma GasExact(before: Gas, after: Gas, preOpGas: nat, postBefore: Gas, postAfter: Gas)
    requires before >= after && postBefore >= postAfter && preOpGas < U120 + U64
    ensures AddWrap(AddWrap(SubWrap(before, after), preOpGas), SubWrap(postBefore, postAfter))
         == before - after + preOpGas + (postBefore - postAfter) < 2 * U120
  {
  }

  lemma SettleOpExact(w: World, b: Block, mode: Mode, op: UserOp, info: OpInfo, gas: Word)
    requires FieldsBounded(op) && gas < 2 * U120 && SettleOp(w, b, mode, op, info, gas).Ok?
    ensures SettleOp(w, b, mode, op, info, gas).value == gas * AgreedPrice(op, b.basefee) <= info.prefund
  {
    CostExact(gas, op, b.basefee);
  }

  lemma HandlePostOpExact(w: World, b: Block, mode: Mode, op: UserOp, info: OpInfo, actualGas: Word, p: PostScript)
    requires FieldsBounded(op) && AddWrap(actualGas, SubWrap(p.before, p.after)) < 2 * U120
    requires HandlePostOp(w, b, mode, op, info, actualGas, p).Ok?
    ensures HandlePostOp(w, b, mode, op, info, actualGas, p).value
         == AddWrap(actualGas, SubWrap(p.before, p.after)) * AgreedPrice(op, b.basefee) <= info.prefund
  {
    var c := CallPostOp(w, b, mode, op, info, p);
    SettleOpExact(c.w, b, mode, op, info, AddWrap(actualGas, SubWrap(p.before, p.after)));
  }

  /**
   * What an operation is charged is exactly gas times price on the path it took, inside the inner call or,
   * when that was undone, outside; and it is within the prefund.
   */
  lemma ChargedExactly(w: World, b: Block, run: OpRun, info: OpInfo)
    requires Metered(run) && FieldsBounded(run.op)
    requires info.preOpGas == run.validation.gas.start - run.validation.gas.end + run.op.preVerificationGas
    requires ExecuteUserOp(w, b, run, info).Ok?
    ensures var outside := InnerHandleOp(w, b, run.op, info, run.execution.inner).Fail?;
      && GasOnPath(run, outside) >= 0
      && ExecuteUserOp(w, b, run, info).value == GasOnPath(run, outside) * AgreedPrice(run.op, b.basefee)
      && ExecuteUserOp(w, b, run, info).value <= info.prefund
  {
    var op, x, i := run.op, run.execution, run.execution.inner;
    var r := InnerHandleOp(w, b, op, info, i);
    if r.Ok? {
      GasExact(i.before, i.after, info.preOpGas, i.post.before, i.post.after);
      var c := if op.callData == [] then Ran(w, true) else RunActivity(w, b, i.call);
      HandlePostOpExact(c.w, b, if c.ok then OpSucceeded else OpReverted, op, info,
                        AddWrap(SubWrap(i.before, i.after), info.preOpGas), i.post);
    } else {
      GasExact(x.before, x.after, info.preOpGas, x.post.before, x.post.after);
      HandlePostOpExact(r.w.(s := w.s), b, PostOpFailed, op, info, x.before - x.after + info.preOpGas, x.post);
    }
  }

  // ----- the prefund hand-off

  /** What an account without a paymaster does in `validateUserOp`: `_payPrefund` sends the missing funds, and a failed transfer is ignored. */
  function PayPrefund(sender: Address, missing: nat, transferred: bool): Activity {
    Activity(if missing != 0 && transferred then [DepositTo(sender, missing)] else [], true)
  }

  /**
   * With `_payPrefund` as the account's only deposit change in `validateUserOp`, AA21 passes exactly when the deposit
   * already covered the prefund, or the transfer went through and the prefund fits a deposit; then the deposit is
   * left at the surplus. A sender that does not exist yet is created first.
   */
  lemma PrefundHandOff(w: World, b: Block, op: UserOp, v: ValidationScript, transferred: bool)
    requires PaymasterOf(op) == 0
    requires var s := CreateSenderIfNeeded(w, b, op, v).w.s;
      && v.account == PayPrefund(op.sender, MissingFunds(s, op), transferred)
      && s.balance + MissingFunds(s, op) < U256 && Info(s.deposits, op.sender).deposit < U112
    ensures var c := CreateSenderIfNeeded(w, b, op, v);
      var r := ValidateAccountPrepayment(w, b, op, v);
      var deposit := Info(c.w.s.deposits, op.sender).deposit;
      && (c.Fail? ==> r.Fail? && r.error == c.error)
      && (c.Ok? ==>
            && (r.Ok? <==> deposit >= RequiredPrefund(op) || (transferred && RequiredPrefund(op) < U112))
            && (r.Fail? ==> r.error == DidNotPayPrefund)
            && (r.Ok? ==> Info(r.w.s.deposits, op.sender).deposit
                          == if deposit > RequiredPrefund(op) then deposit - RequiredPrefund(op) else 0))
  {
    var c := CreateSenderIfNeeded(w, b, op, v);
    if c.Ok? {
      PayPrefundRuns(c.w, b, op, transferred);
    }
  }

  lemma PayPrefundRuns(w: World, b: Block, op: UserOp, transferred: bool)
    ensures var missing := MissingFunds(w.s, op);
      var r := RunActivity(w, b, PayPrefund(op.sender, missing, transferred));
      r == Ran(if missing != 0 && transferred then Commit(Observe(w), Transitions.DepositTo(w.s, op.sender, missing))
               else Observe(w), true)
  {
    var missing := MissingFunds(w.s, op);
    var calls := PayPrefund(op.sender, missing, transferred).calls;
    var w0 := Observe(w);
    if calls == [] {
      assert RunCalls(w0, b, calls) == w0;
    } else {
      assert calls[1..] == [];
      var w1 := RunCall(w0, b, calls[0]);
      assert RunCalls(w0, b, calls) == RunCalls(w1, b, []) == w1;
    }
  }
}
