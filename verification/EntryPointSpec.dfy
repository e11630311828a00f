/**
 * What the EntryPoint does, as functions of its storage and of the behaviour of the code it calls.
 * Foreign code is a script: the calls it makes into the EntryPoint, nested to any depth, and whether it
 * returns. Gas readings and returned words are part of the script too.
 */
module EntryPointSpec {
  import opened Words
  import opened Bytes
  import opened Ledger
  import opened Transitions
  import V = ValidationWords

  type Gas = g: nat | g < U64
  type Delay = d: nat | d < U32

  datatype Block = Block(timestamp: nat, basefee: Word)

  datatype UserOp = UserOp(
    sender: Address, nonce: Word, initCode: bytes, callData: bytes,
    callGasLimit: Word, verificationGasLimit: Word, preVerificationGas: Word,
    maxFeePerGas: Word, maxPriorityFeePerGas: Word, paymasterAndData: bytes)

  // ----- scripts of foreign code

  datatype Activity = Activity(calls: seq<Call>, ok: bool)

  datatype Call =
    | DepositTo(account: Address, value: nat)
    | AddStake(caller: Address, delay: Delay, value: nat)
    | UnlockStake(caller: Address)
    | WithdrawStake(caller: Address, receiver: Activity)
    | WithdrawTo(caller: Address, amount: nat, receiver: Activity)
    | IncrementNonce(caller: Address, key: Key)
    | Force(value: nat)
    | Nested(activity: Activity)
    | HandleOps(batch: Batch)
    | HandleAggregatedOps(groupedBatch: GroupedBatch)

  /** The arguments of `handleOps`, with what the beneficiary does when it is paid. */
  datatype Batch = Batch(runs: seq<OpRun>, beneficiary: Address, payment: Activity)

  datatype GroupedBatch = GroupedBatch(groups: seq<Group>, beneficiary: Address, payment: Activity)

  datatype Group = Group(aggregator: Address, check: Activity, runs: seq<OpRun>)

  /** An operation together with what foreign code does while it is handled. */
  datatype OpRun = OpRun(op: UserOp, validation: ValidationScript, execution: ExecutionScript)

  /** `gasleft()` as read, in order, by `_validatePrepayment` and `_validateAccountPrepayment`. */
  datatype ValidationGas = ValidationGas(start: Gas, accountStart: Gas, accountEnd: Gas, checked: Gas, end: Gas)

  datatype ValidationScript = ValidationScript(
    senderHasCode: bool, creation: Activity, created: Address, createdHasCode: bool,
    account: Activity, accountWord: Word,
    paymaster: Activity, paymasterWord: Word, context: bool,
    gas: ValidationGas)

  /** What `innerRevertCode` can be: fewer than 32 bytes, the out-of-gas marker, or anything else. */
  datatype RevertData = ShortData | OutOfGasMarker | OtherData

  datatype PostScript = PostScript(postOp: Activity, reverted: RevertData, before: Gas, after: Gas)

  datatype InnerScript = InnerScript(
    before: Gas, limitCheck: Gas, call: Activity, after: Gas, post: PostScript, outOfGas: bool)

  datatype ExecutionScript = ExecutionScript(before: Gas, inner: InnerScript, after: Gas, post: PostScript)

  // ----- outcomes

  datatype Error =
    | SenderAlreadyConstructed // AA10
    | BadInitCode
    | InitCodeFailed // AA13
    | InitCodeMustReturnSender // AA14
    | InitCodeMustCreateSender // AA15
    | DidNotPayPrefund // AA21
    | AccountReverted // AA23
    | Judged(verdict: V.Verdict) // AA24, AA22, AA34, AA32
    | InvalidNonce // AA25
    | PaymasterDepositTooLow // AA31
    | PaymasterReverted // AA33
    | OverVerificationGasLimit // AA40
    | TooLittleVerificationGas // AA41
    | PostOpReverted // AA50
    | PrefundBelowCost // AA51
    | InvalidBeneficiary // AA90
    | FailedSendToBeneficiary // AA91
    | InvalidPaymasterAndData // AA93
    | GasValuesOverflow // AA94
    | OutOfGas // AA95
    | InvalidAggregator // AA96
    | SignatureValidationFailed
    | DepositOverflow
    | Panic
    | CallGasTooLow
    | InnerRanOutOfGas
    | PostOpBubbled(data: RevertData)
    | ReturnDataTooShort

  /** `seen` collects the states in which foreign code was given control; no revert removes them. */
  datatype World = World(s: State, seen: seq<State>)

  datatype Ran = Ran(w: World, ok: bool)

  datatype Out<+T> = Ok(w: World, value: T) | Fail(w: World, error: Error)
  {
    predicate IsFailure() {
      Fail?
    }

    function PropagateFailure<U>(): Out<U>
      requires Fail?
    {
      Fail(w, error)
    }

    function Extract(): (World, T)
      requires Ok?
    {
      (w, value)
    }
  }

  function Observe(w: World): World {
    w.(seen := w.seen + [w.s])
  }

  function Commit(w: World, o: Option<State>): World {
    if o.Some? then w.(s := o.value) else w
  }

  // ----- arithmetic on one operation

  function PaymasterOf(op: UserOp): Address {
    if |op.paymasterAndData| < 20 then 0 else AddressAt(op.paymasterAndData)
  }

  function Payer(op: UserOp): Address {
    if PaymasterOf(op) == 0 then op.sender else PaymasterOf(op)
  }

  function MaxGasValues(op: UserOp): nat {
    Or(Or(Or(Or(op.preVerificationGas, op.verificationGasLimit), op.callGasLimit), op.maxFeePerGas),
       op.maxPriorityFeePerGas)
  }

  /** `_getRequiredPrefund`, in unchecked arithmetic. */
  function RequiredPrefund(op: UserOp): Word {
    var mul := if PaymasterOf(op) != 0 then 3 else 1;
    MulWrap(AddWrap(AddWrap(op.callGasLimit, MulWrap(op.verificationGasLimit, mul)), op.preVerificationGas),
            op.maxFeePerGas)
  }

  /** `getUserOpGasPrice`, in unchecked arithmetic. */
  function GasPrice(op: UserOp, basefee: Word): Word {
    var bid := AddWrap(op.maxPriorityFeePerGas, basefee);
    if op.maxFeePerGas == op.maxPriorityFeePerGas then op.maxFeePerGas
    else if op.maxFeePerGas < bid then op.maxFeePerGas
    else bid
  }

  // ----- foreign code

  function RunActivity(w: World, b: Block, act: Activity): Ran
    decreases act, 0
  {
    var w1 := RunCalls(Observe(w), b, act.calls);
    if act.ok then Ran(w1, true) else Ran(w1.(s := w.s), false)
  }

  function RunCalls(w: World, b: Block, calls: seq<Call>): World
    decreases calls, 0
  {
    if calls == [] then w else RunCalls(RunCall(w, b, calls[0]), b, calls[1..])
  }

  /** Sends ether out of `from.s` to code that runs `receiver`; a failure restores `w.s`. */
  function Send(w: World, b: Block, sent: Option<State>, receiver: Activity): World
    decreases receiver, 1
  {
    if sent.None? then w
    else
      var r := RunActivity(w.(s := sent.value), b, receiver);
      if r.ok then r.w else r.w.(s := w.s)
  }

  function RunCall(w: World, b: Block, c: Call): World
    decreases c, 0
  {
    match c
    case DepositTo(account, value) => Commit(w, Transitions.DepositTo(w.s, account, value))
    case AddStake(caller, delay, value) => Commit(w, Transitions.AddStake(w.s, caller, delay, value))
    case UnlockStake(caller) => Commit(w, Transitions.UnlockStake(w.s, caller, b.timestamp))
    case WithdrawStake(caller, receiver) => Send(w, b, ReleaseStake(w.s, caller, b.timestamp), receiver)
    case WithdrawTo(caller, amount, receiver) => Send(w, b, ReleaseDeposit(w.s, caller, amount), receiver)
    case IncrementNonce(caller, key) => Commit(w, Transitions.IncrementNonce(w.s, caller, key))
    case Force(value) => Commit(w, Transitions.Force(w.s, value))
    case Nested(activity) => RunActivity(w, b, activity).w
    case HandleOps(batch) => if w.s.entered then w else Leave(w, Bundle(Enter(w), b, batch))
    case HandleAggregatedOps(batch) => if w.s.entered then w else Leave(w, GroupedBundle(Enter(w), b, batch))
  }

  /** The two halves of `nonReentrant`; a failed bundle restores the state it started from. */
  function Enter(w: World): World {
    w.(s := w.s.(entered := true))
  }

  function Leave(before: World, r: Out<Word>): World {
    if r.Ok? then r.w.(s := r.w.s.(entered := false)) else r.w.(s := before.s)
  }

  // ----- validation

  datatype OpInfo = OpInfo(prefund: Word, context: bool, preOpGas: Word)

  function CreateSenderIfNeeded(w: World, b: Block, op: UserOp, v: ValidationScript): Out<()>
    decreases v, 0
  {
    if op.initCode == [] then Ok(w, ())
    else if v.senderHasCode then Fail(w, SenderAlreadyConstructed)
    else if |op.initCode| < 20 then Fail(w, BadInitCode)
    else
      var r := RunActivity(w, b, v.creation);
      var created := if r.ok then v.created else 0;
      if created == 0 then Fail(r.w, InitCodeFailed)
      else if created != op.sender then Fail(r.w, InitCodeMustReturnSender)
      else if !v.createdHasCode then Fail(r.w, InitCodeMustCreateSender)
      else Ok(r.w, ())
  }

  /** The amount `_validateAccountPrepayment` asks the account to send. */
  function MissingFunds(s: State, op: UserOp): nat {
    var balance := Info(s.deposits, op.sender).deposit;
    if PaymasterOf(op) != 0 || balance > RequiredPrefund(op) then 0 else RequiredPrefund(op) - balance
  }

  function Take(w: World, payer: Address, amount: nat, error: Error): Out<()> {
    match TakePrefund(w.s, payer, amount)
    case None => Fail(w, error)
    case Some(s) => Ok(w.(s := s), ())
  }

  /** `_validateAccountPrepayment`; the result is the gas it used. */
  function ValidateAccountPrepayment(w: World, b: Block, op: UserOp, v: ValidationScript): Out<Word>
    decreases v, 1
  {
    var (w1, _) :- CreateSenderIfNeeded(w, b, op, v);
    var r := RunActivity(w1, b, v.account);
    if !r.ok then Fail(r.w, AccountReverted)
    else
      var (w2, _) :- if PaymasterOf(op) == 0 then Take(r.w, op.sender, RequiredPrefund(op), DidNotPayPrefund)
                     else Ok(r.w, ());
      Ok(w2, SubWrap(v.gas.accountStart, v.gas.accountEnd))
  }

  /** `_validatePaymasterPrepayment`. */
  function ValidatePaymasterPrepayment(w: World, b: Block, op: UserOp, v: ValidationScript, gasUsed: Word): Out<()>
    decreases v, 1
  {
    if op.verificationGasLimit <= gasUsed then Fail(w, TooLittleVerificationGas)
    else
      var (w1, _) :- Take(w, PaymasterOf(op), RequiredPrefund(op), PaymasterDepositTooLow);
      var r := RunActivity(w1, b, v.paymaster);
      if r.ok then Ok(r.w, ()) else Fail(r.w, PaymasterReverted)
  }

  function ValidateNonce(w: World, op: UserOp): Out<()> {
    match AcceptNonce(w.s, op.sender, op.nonce)
    case None => Fail(w, InvalidNonce)
    case Some(s) => Ok(w.(s := s), ())
  }

  /** The three parts of `_validatePrepayment` that change storage: account, nonce, paymaster. */
  function ValidateParts(w: World, b: Block, op: UserOp, v: ValidationScript): Out<()>
    decreases v, 2
  {
    var (w1, gasUsed) :- ValidateAccountPrepayment(w, b, op, v);
    var (w2, _) :- ValidateNonce(w1, op);
    if PaymasterOf(op) != 0 then ValidatePaymasterPrepayment(w2, b, op, v, gasUsed) else Ok(w2, ())
  }

  /** `_validatePrepayment`. */
  function ValidatePrepayment(w: World, b: Block, op: UserOp, v: ValidationScript): Out<OpInfo>
    decreases v, 3
  {
    if 0 < |op.paymasterAndData| < 20 then Fail(w, InvalidPaymasterAndData)
    else if MaxGasValues(op) > U120 - 1 then Fail(w, GasValuesOverflow)
    else
      var (w1, _) :- ValidateParts(w, b, op, v);
      if op.verificationGasLimit < SubWrap(v.gas.start, v.gas.checked) then Fail(w1, OverVerificationGasLimit)
      else
        Ok(w1, OpInfo(RequiredPrefund(op), PaymasterOf(op) != 0 && v.context,
                      AddWrap(SubWrap(v.gas.start, v.gas.end), op.preVerificationGas)))
  }

  /** One round of the first loop of a bundle. */
  function Validate(w: World, b: Block, run: OpRun, aggregator: Address): Out<OpInfo>
    decreases run, 3
  {
    var op, v := run.op, run.validation;
    var (w1, info) :- ValidatePrepayment(w, b, op, v);
    var verdict := V.Judge(v.accountWord, if PaymasterOf(op) != 0 then v.paymasterWord else 0, aggregator, b.timestamp);
    if verdict.Accepted? then Ok(w1, info) else Fail(w1, Judged(verdict))
  }

  function ValidateAll(w: World, b: Block, runs: seq<OpRun>, aggregator: Address): (r: Out<seq<OpInfo>>)
    ensures r.Ok? ==> |r.value| == |runs|
    decreases runs, 4
  {
    if runs == [] then Ok(w, [])
    else
      var (w1, info) :- Validate(w, b, runs[0], aggregator);
      var (w2, infos) :- ValidateAll(w1, b, runs[1..], aggregator);
      Ok(w2, [info] + infos)
  }

  // ----- execution

  datatype Mode = OpSucceeded | OpReverted | PostOpFailed

  /** `_handlePostOp`. */
  function HandlePostOp(w: World, b: Block, mode: Mode, op: UserOp, info: OpInfo, actualGas: Word, p: PostScript): Out<Word>
    decreases p, 1
  {
    var (w1, _) :- CallPostOp(w, b, mode, op, info, p);
    SettleOp(w1, b, mode, op, info, AddWrap(actualGas, SubWrap(p.before, p.after)))
  }

  /** The rest of `_handlePostOp`: the cost is held against the prefund and the rest is refunded. */
  function SettleOp(w: World, b: Block, mode: Mode, op: UserOp, info: OpInfo, gas: Word): Out<Word> {
    var cost := MulWrap(gas, GasPrice(op, b.basefee));
    if info.prefund < cost then Fail(w, PrefundBelowCost)
    else
      match Settle(w.s, Payer(op), info.prefund - cost,
                   UserOperation(op.sender, PaymasterOf(op), op.nonce, mode == OpSucceeded, cost, gas))
      case None => Fail(w, DepositOverflow)
      case Some(s) => Ok(w.(s := s), cost)
  }

  function CallPostOp(w: World, b: Block, mode: Mode, op: UserOp, info: OpInfo, p: PostScript): Out<()>
    decreases p, 0
  {
    if PaymasterOf(op) == 0 || !info.context then Ok(w, ())
    else
      var r := RunActivity(w, b, p.postOp);
      if r.ok then Ok(r.w, ())
      else if mode == PostOpFailed then Fail(r.w, PostOpReverted)
      else Fail(r.w, PostOpBubbled(p.reverted))
  }

  /** `innerHandleOp`. */
  function InnerHandleOp(w: World, b: Block, op: UserOp, info: OpInfo, x: InnerScript): Out<Word>
    decreases x, 2
  {
    if x.limitCheck < AddWrap(AddWrap(op.callGasLimit, op.verificationGasLimit), 5000) then Fail(w, CallGasTooLow)
    else
      var c := if op.callData == [] then Ran(w, true) else RunActivity(w, b, x.call);
      var gas := AddWrap(SubWrap(x.before, x.after), info.preOpGas);
      var r := HandlePostOp(c.w, b, if c.ok then OpSucceeded else OpReverted, op, info, gas, x.post);
      if r.Ok? && x.outOfGas then Fail(r.w, InnerRanOutOfGas) else r
  }

  /** The data with which `innerHandleOp` reverts. */
  function DataOf(e: Error): RevertData {
    match e
    case CallGasTooLow => OutOfGasMarker
    case InnerRanOutOfGas => ShortData
    case PostOpBubbled(data) => data
    case _ => OtherData
  }

  /** `_executeUserOp`: a revert of the inner call undoes it, and the operation is settled outside. */
  function ExecuteUserOp(w: World, b: Block, run: OpRun, info: OpInfo): Out<Word>
    decreases run, 3
  {
    var op, x := run.op, run.execution;
    match InnerHandleOp(w, b, op, info, x.inner)
    case Ok(w1, cost) => Ok(w1, cost)
    case Fail(w1, e) => SettleOutside(w1.(s := w.s), b, op, info, x, DataOf(e))
  }

  /** The `catch` of `_executeUserOp`. */
  function SettleOutside(w: World, b: Block, op: UserOp, info: OpInfo, x: ExecutionScript, data: RevertData): Out<Word>
    decreases x, 2
  {
    match data
    case ShortData => Fail(w, ReturnDataTooShort)
    case OutOfGasMarker => Fail(w, OutOfGas)
    case OtherData =>
      if x.before < x.after || x.before - x.after + info.preOpGas >= U256 then Fail(w, Panic)
      else HandlePostOp(w, b, PostOpFailed, op, info, x.before - x.after + info.preOpGas, x.post)
  }

  /** `collected += cost`, in an unchecked block or not. */
  function Collect(w: World, collected: Word, cost: Word, checked: bool): Out<Word> {
    if checked && collected + cost >= U256 then Fail(w, Panic) else Ok(w, AddWrap(collected, cost))
  }

  /** One round of the second loop of a bundle. */
  function ExecuteNext(w: World, b: Block, run: OpRun, info: OpInfo, collected: Word, checked: bool): Out<Word>
    decreases run, 4
  {
    var (w1, cost) :- ExecuteUserOp(w, b, run, info);
    Collect(w1, collected, cost, checked)
  }

  function ExecuteAll(w: World, b: Block, runs: seq<OpRun>, infos: seq<OpInfo>, collected: Word, checked: bool): Out<Word>
    requires |infos| == |runs|
    decreases runs, 4
  {
    if runs == [] then Ok(w, collected)
    else
      var (w1, sum) :- ExecuteNext(w, b, runs[0], infos[0], collected, checked);
      ExecuteAll(w1, b, runs[1..], infos[1..], sum, checked)
  }

  // ----- bundles

  /** `_compensate`. */
  function Compensate(w: World, b: Block, beneficiary: Address, amount: Word, payment: Activity): Out<Word>
    decreases payment, 1
  {
    if beneficiary == 0 then Fail(w, InvalidBeneficiary)
    else
      match PayOut(w.s, beneficiary, amount)
      case None => Fail(w, FailedSendToBeneficiary)
      case Some(s) =>
        var r := RunActivity(w.(s := s), b, payment);
        if r.ok then Ok(r.w, amount) else Fail(r.w, FailedSendToBeneficiary)
  }

  /** The body of `handleOps`; the result is the sum paid. */
  function Bundle(w: World, b: Block, batch: Batch): Out<Word>
    decreases batch, 5
  {
    var (w1, infos) :- ValidateAll(w, b, batch.runs, 0);
    var (w2, collected) :- ExecuteAll(w1, b, batch.runs, infos, 0, false);
    Compensate(w2, b, batch.beneficiary, collected, batch.payment)
  }

  function CheckSignatures(w: World, b: Block, groups: seq<Group>): Out<()>
    decreases groups, 5
  {
    if groups == [] then Ok(w, ())
    else if groups[0].aggregator == 1 then Fail(w, InvalidAggregator)
    else if groups[0].aggregator == 0 then CheckSignatures(w, b, groups[1..])
    else
      var r := RunActivity(w, b, groups[0].check);
      if r.ok then CheckSignatures(r.w, b, groups[1..]) else Fail(r.w, SignatureValidationFailed)
  }

  function ValidateGroups(w: World, b: Block, groups: seq<Group>): (r: Out<seq<OpInfo>>)
    ensures r.Ok? ==> |r.value| == |Flatten(groups)|
    decreases groups, 5
  {
    if groups == [] then Ok(w, [])
    else
      var (w1, infos) :- ValidateAll(w, b, groups[0].runs, groups[0].aggregator);
      var (w2, rest) :- ValidateGroups(w1, b, groups[1..]);
      Ok(w2, infos + rest)
  }

  function ExecuteGroups(w: World, b: Block, groups: seq<Group>, infos: seq<OpInfo>, collected: Word): Out<Word>
    requires |infos| == |Flatten(groups)|
    decreases groups, 5
  {
    if groups == [] then Ok(w, collected)
    else
      var n := |groups[0].runs|;
      var (w1, sum) :- ExecuteAll(w, b, groups[0].runs, infos[..n], collected, true);
      ExecuteGroups(w1, b, groups[1..], infos[n..], sum)
  }

  function Flatten(groups: seq<Group>): seq<OpRun> {
    if groups == [] then [] else groups[0].runs + Flatten(groups[1..])
  }

  /** The body of `handleAggregatedOps`. */
  function GroupedBundle(w: World, b: Block, batch: GroupedBatch): Out<Word>
    decreases batch, 5
  {
    var (w1, _) :- CheckSignatures(w, b, batch.groups);
    var (w2, infos) :- ValidateGroups(w1, b, batch.groups);
    var (w3, collected) :- ExecuteGroups(w2, b, batch.groups, infos, 0);
    Compensate(w3, b, batch.beneficiary, collected, batch.payment)
  }
}
