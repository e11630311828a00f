/** The EntryPoint as an object: StakeManager, NonceManager and the two bundle entry points. */
module EntryPoints {
  import opened Words
  import opened Ledger
  import T = Transitions
  import V = ValidationWords
  import opened S = EntryPointSpec
  import I = EntryPointInvariant

  datatype Outcome<+A> = Returned(value: A) | Reverted(error: Error)

  function OutcomeOf<A>(o: Out<A>): Outcome<A> {
    match o
    case Ok(_, value) => Returned(value)
    case Fail(_, error) => Reverted(error)
  }

  /** What every public function promises its callers: books that were in order stay in order. */
  lemma BooksKept(w: World, b: Block, c: Call)
    ensures I.Sound(w) ==> I.Sound(RunCall(w, b, c))
  {
    if I.Sound(w) {
      I.RunCallKeeps(w, b, c);
    }
  }

  lemma SentKept(w: World, b: Block, sent: T.Option<State>, receiver: Activity)
    requires I.Sound(w) && sent.Some? ==> InOrder(sent.value) && I.Quiet(w.s, sent.value)
    ensures I.Sound(w) ==> I.Sound(Send(w, b, sent, receiver))
  {
    if I.Sound(w) {
      I.SendKeeps(w, b, sent, receiver);
    }
  }

  class EntryPoint {
    var deposits: Deposits
    var nonceSequenceNumber: Counters
    var balance: nat
    var entered: bool
    ghost var pending: seq<Prefund>
    ghost var fees: nat
    ghost var forced: nat
    ghost var log: Log
    ghost var seen: seq<State>

    ghost function Here(): State
      reads this
    {
      State(deposits, nonceSequenceNumber, balance, entered, pending, fees, forced, log)
    }

    ghost function Now(): World
      reads this
    {
      World(Here(), seen)
    }

    constructor ()
      ensures Now() == World(INITIAL, [])
    {
      deposits, nonceSequenceNumber, balance, entered := map[], map[], 0, false;
      pending, fees, forced, log, seen := [], 0, 0, Nothing, [];
    }

    /** Restores a saved state; only the record of what foreign code saw stays. */
    method Restore(d: Deposits, n: Counters, b: nat, e: bool, ghost s: State)
      requires s.deposits == d && s.counters == n && s.balance == b && s.entered == e
      modifies this
      ensures Now() == World(s, old(seen))
    {
      deposits, nonceSequenceNumber, balance, entered := d, n, b, e;
      pending, fees, forced, log := s.pending, s.fees, s.forced, s.log;
    }

    // ----- StakeManager

    method IncrementDeposit(account: Address, amount: nat) returns (ok: bool)
      modifies this`deposits
      ensures var r := T.IncrementDeposit(old(deposits), account, amount);
        ok == r.Some? && deposits == if ok then r.value else old(deposits)
    {
      var info := Info(deposits, account);
      var newAmount := info.deposit + amount;
      ok := newAmount <= U112 - 1;
      if ok {
        deposits := Put(deposits, account, info.(deposit := Truncate(newAmount, U112)));
      }
    }

    method DepositTo(account: Address, value: nat)
      modifies this
      ensures Now() == Commit(old(Now()), T.DepositTo(old(Here()), account, value))
      ensures I.Sound(old(Now())) ==> I.Sound(Now())
    {
      BooksKept(Now(), Block(0, 0), Call.DepositTo(account, value));
      if balance + value >= U256 {
        return;
      }
      var ok := IncrementDeposit(account, value);
      if ok {
        balance := balance + value;
        log := Then(log, Deposited(account, value));
      }
    }

    method AddStake(caller: Address, delay: Delay, value: nat)
      modifies this
      ensures Now() == Commit(old(Now()), T.AddStake(old(Here()), caller, delay, value))
      ensures I.Sound(old(Now())) ==> I.Sound(Now())
    {
      BooksKept(Now(), Block(0, 0), Call.AddStake(caller, delay, value));
      var info := Info(deposits, caller);
      var stake := info.stake + value;
      if balance + value < U256 && delay > 0 && delay >= info.unstakeDelaySec && 0 < stake <= U112 - 1 {
        balance := balance + value;
        deposits := Put(deposits, caller, DepositInfo(info.deposit, true, Truncate(stake, U112), delay, 0));
        log := Then(log, StakeLocked(caller, stake, delay));
      }
    }

    method UnlockStake(caller: Address, now: nat)
      modifies this
      ensures Now() == Commit(old(Now()), T.UnlockStake(old(Here()), caller, now))
      ensures I.Sound(old(Now())) ==> I.Sound(Now())
    {
      BooksKept(Now(), Block(now, 0), Call.UnlockStake(caller));
      var info := Info(deposits, caller);
      var withdrawTime := now % U48 + info.unstakeDelaySec;
      if info.unstakeDelaySec != 0 && info.staked && withdrawTime < U48 {
        deposits := Put(deposits, caller, info.(withdrawTime := withdrawTime, staked := false));
        log := Then(log, StakeUnlocked(caller, now, withdrawTime));
      }
    }

    method WithdrawStake(caller: Address, b: Block, receiver: Activity)
      modifies this
      ensures Now() == Send(old(Now()), b, T.ReleaseStake(old(Here()), caller, b.timestamp), receiver)
      ensures I.Sound(old(Now())) ==> I.Sound(Now())
      decreases receiver, 1
    {
      if I.Sound(Now()) {
        I.ReleasesKeep(Here(), caller, 0, b.timestamp);
      }
      SentKept(Now(), b, T.ReleaseStake(Here(), caller, b.timestamp), receiver);
      var info := Info(deposits, caller);
      var stake := info.stake;
      if stake == 0 || info.withdrawTime == 0 || info.withdrawTime > b.timestamp || balance < stake {
        return;
      }
      var d, n, bal, e := deposits, nonceSequenceNumber, balance, entered;
      ghost var s := Here();
      deposits := Put(deposits, caller, info.(unstakeDelaySec := 0, withdrawTime := 0, stake := 0));
      balance := balance - stake;
      log := Then(log, StakeWithdrawn(caller, b.timestamp, stake));
      var success := CallOut(b, receiver);
      if !success {
        Restore(d, n, bal, e, s);
      }
    }

    method WithdrawTo(caller: Address, amount: nat, b: Block, receiver: Activity)
      modifies this
      ensures Now() == Send(old(Now()), b, T.ReleaseDeposit(old(Here()), caller, amount), receiver)
      ensures I.Sound(old(Now())) ==> I.Sound(Now())
      decreases receiver, 1
    {
      if I.Sound(Now()) {
        I.ReleasesKeep(Here(), caller, amount, b.timestamp);
      }
      SentKept(Now(), b, T.ReleaseDeposit(Here(), caller, amount), receiver);
      var info := Info(deposits, caller);
      if amount > info.deposit || balance < amount {
        return;
      }
      var d, n, bal, e := deposits, nonceSequenceNumber, balance, entered;
      ghost var s := Here();
      deposits := Put(deposits, caller, info.(deposit := Truncate(info.deposit - amount, U112)));
      balance := balance - amount;
      log := Then(log, Withdrawn(caller, amount));
      var success := CallOut(b, receiver);
      if !success {
        Restore(d, n, bal, e, s);
      }
    }

    // ----- NonceManager

    method IncrementNonce(caller: Address, key: Key)
      modifies this
      ensures Now() == Commit(old(Now()), T.IncrementNonce(old(Here()), caller, key))
      ensures I.Sound(old(Now())) ==> I.Sound(Now())
    {
      BooksKept(Now(), Block(0, 0), Call.IncrementNonce(caller, key));
      var count := Counter(nonceSequenceNumber, caller, key);
      if count + 1 < U256 {
        nonceSequenceNumber := nonceSequenceNumber[(caller, key) := count + 1];
        log := Then(log, NonceBumped(caller, key));
      }
    }

    /** A mismatch is left to the caller, who reverts the whole bundle. */
    method ValidateAndUpdateNonce(sender: Address, nonce: Word) returns (ok: bool)
      modifies this
      ensures var r := T.AcceptNonce(old(Here()), sender, nonce);
        ok == r.Some? && Now() == Commit(old(Now()), r)
    {
      var key := KeyOf(nonce);
      var count := Counter(nonceSequenceNumber, sender, key);
      ok := count == SequenceOf(nonce);
      if ok {
        nonceSequenceNumber := nonceSequenceNumber[(sender, key) := count + 1];
        log := Then(log, NonceAccepted(sender, nonce));
      }
    }

    // ----- foreign code

    /** An external call: the callee may come back into any public function. */
    method CallOut(b: Block, act: Activity) returns (ok: bool)
      modifies this
      ensures var r := RunActivity(old(Now()), b, act); Now() == r.w && ok == r.ok
      ensures I.Sound(old(Now())) ==> I.Sound(Now())
      decreases act, 0
    {
      var d, n, bal, e := deposits, nonceSequenceNumber, balance, entered;
      ghost var s := Here();
      BooksKept(Now(), b, Nested(act));
      seen := seen + [s];
      ghost var w := Now();
      var i := 0;
      while i < |act.calls|
        invariant 0 <= i <= |act.calls|
        invariant RunCalls(Now(), b, act.calls[i..]) == RunCalls(w, b, act.calls)
      {
        assert act.calls[i..][1..] == act.calls[i + 1..];
        Perform(b, act.calls[i]);
        i := i + 1;
      }
      if !act.ok {
        Restore(d, n, bal, e, s);
      }
      ok := act.ok;
    }

    method Perform(b: Block, c: Call)
      modifies this
      ensures Now() == RunCall(old(Now()), b, c)
      ensures I.Sound(old(Now())) ==> I.Sound(Now())
      decreases c, 0
    {
      BooksKept(Now(), b, c);
      match c
      case DepositTo(account, value) => DepositTo(account, value);
      case AddStake(caller, delay, value) => AddStake(caller, delay, value);
      case UnlockStake(caller) => UnlockStake(caller, b.timestamp);
      case WithdrawStake(caller, receiver) => WithdrawStake(caller, b, receiver);
      case WithdrawTo(caller, amount, receiver) => WithdrawTo(caller, amount, b, receiver);
      case IncrementNonce(caller, key) => IncrementNonce(caller, key);
      case Force(value) => ForceEther(value);
      case Nested(activity) => var _ := CallOut(b, activity);
      case HandleOps(batch) => HandleOps(b, batch);
      case HandleAggregatedOps(batch) => HandleAggregatedOps(b, batch);
    }

    method ForceEther(value: nat)
      modifies this
      ensures Now() == Commit(old(Now()), T.Force(old(Here()), value))
    {
      if balance + value < U256 {
        balance := balance + value;
        forced := forced + value;
        log := Then(log, Forced(value));
      }
    }

    // ----- validation

    method CreateSenderIfNeeded(b: Block, op: UserOp, v: ValidationScript) returns (r: Outcome<()>)
      modifies this
      ensures var o := S.CreateSenderIfNeeded(old(Now()), b, op, v); Now() == o.w && r == OutcomeOf(o)
      decreases v, 0
    {
      if op.initCode == [] {
        return Returned(());
      }
      if v.senderHasCode {
        return Reverted(SenderAlreadyConstructed);
      }
      if |op.initCode| < 20 {
        return Reverted(BadInitCode);
      }
      var success := CallOut(b, v.creation);
      var sender1 := if success then v.created else 0;
      r := if sender1 == 0 then Reverted(InitCodeFailed)
      else if sender1 != op.sender then Reverted(InitCodeMustReturnSender)
      else if !v.createdHasCode then Reverted(InitCodeMustCreateSender)
      else Returned(());
    }

    method TakePrefund(payer: Address, amount: nat, error: Error) returns (r: Outcome<()>)
      modifies this
      ensures var o := S.Take(old(Now()), payer, amount, error); Now() == o.w && r == OutcomeOf(o)
    {
      var info := Info(deposits, payer);
      if amount > info.deposit {
        return Reverted(error);
      }
      deposits := Put(deposits, payer, info.(deposit := Truncate(info.deposit - amount, U112)));
      pending := pending + [Prefund(payer, amount)];
      r := Returned(());
    }

    method ValidateAccountPrepayment(b: Block, op: UserOp, v: ValidationScript) returns (r: Outcome<Word>)
      modifies this
      ensures var o := S.ValidateAccountPrepayment(old(Now()), b, op, v); Now() == o.w && r == OutcomeOf(o)
      decreases v, 1
    {
      var created := CreateSenderIfNeeded(b, op, v);
      if created.Reverted? {
        return Reverted(created.error);
      }
      var success := CallOut(b, v.account);
      if !success {
        return Reverted(AccountReverted);
      }
      if PaymasterOf(op) == 0 {
        var taken := TakePrefund(op.sender, RequiredPrefund(op), DidNotPayPrefund);
        if taken.Reverted? {
          return Reverted(taken.error);
        }
      }
      r := Returned(SubWrap(v.gas.accountStart, v.gas.accountEnd));
    }

    method ValidatePaymasterPrepayment(b: Block, op: UserOp, v: ValidationScript, gasUsed: Word) returns (r: Outcome<()>)
      modifies this
      ensures var o := S.ValidatePaymasterPrepayment(old(Now()), b, op, v, gasUsed); Now() == o.w && r == OutcomeOf(o)
      decreases v, 1
    {
      if op.verificationGasLimit <= gasUsed {
        return Reverted(TooLittleVerificationGas);
      }
      r := TakePrefund(PaymasterOf(op), RequiredPrefund(op), PaymasterDepositTooLow);
      if r.Reverted? {
        return;
      }
      var success := CallOut(b, v.paymaster);
      r := if success then Returned(()) else Reverted(PaymasterReverted);
    }

    method ValidateParts(b: Block, op: UserOp, v: ValidationScript) returns (r: Outcome<()>)
      modifies this
      ensures var o := S.ValidateParts(old(Now()), b, op, v); Now() == o.w && r == OutcomeOf(o)
      decreases v, 2
    {
      var account := ValidateAccountPrepayment(b, op, v);
      if account.Reverted? {
        return Reverted(account.error);
      }
      var matched := ValidateAndUpdateNonce(op.sender, op.nonce);
      if !matched {
        return Reverted(InvalidNonce);
      }
      r := Returned(());
      if PaymasterOf(op) != 0 {
        r := ValidatePaymasterPrepayment(b, op, v, account.value);
      }
    }

    method ValidatePrepayment(b: Block, op: UserOp, v: ValidationScript) returns (r: Outcome<OpInfo>)
      modifies this
      ensures var o := S.ValidatePrepayment(old(Now()), b, op, v); Now() == o.w && r == OutcomeOf(o)
      decreases v, 3
    {
      if 0 < |op.paymasterAndData| < 20 {
        return Reverted(InvalidPaymasterAndData);
      }
      if MaxGasValues(op) > U120 - 1 {
        return Reverted(GasValuesOverflow);
      }
      var parts := ValidateParts(b, op, v);
      if parts.Reverted? {
        return Reverted(parts.error);
      }
      if op.verificationGasLimit < SubWrap(v.gas.start, v.gas.checked) {
        return Reverted(OverVerificationGasLimit);
      }
      r := Returned(OpInfo(RequiredPrefund(op), PaymasterOf(op) != 0 && v.context,
                           AddWrap(SubWrap(v.gas.start, v.gas.end), op.preVerificationGas)));
    }

    method Validate(b: Block, run: OpRun, aggregator: Address) returns (r: Outcome<OpInfo>)
      modifies this
      ensures var o := S.Validate(old(Now()), b, run, aggregator); Now() == o.w && r == OutcomeOf(o)
      decreases run, 3
    {
      r := ValidatePrepayment(b, run.op, run.validation);
      if r.Returned? {
        var pmWord := if PaymasterOf(run.op) != 0 then run.validation.paymasterWord else 0;
        var verdict := V.Judge(run.validation.accountWord, pmWord, aggregator, b.timestamp);
        if !verdict.Accepted? {
          r := Reverted(Judged(verdict));
        }
      }
    }

    // ----- execution

    method HandlePostOp(b: Block, mode: Mode, op: UserOp, info: OpInfo, actualGas: Word, p: PostScript) returns (r: Outcome<Word>)
      modifies this
      ensures var o := S.HandlePostOp(old(Now()), b, mode, op, info, actualGas, p); Now() == o.w && r == OutcomeOf(o)
      decreases p, 1
    {
      if PaymasterOf(op) != 0 && info.context {
        var success := CallOut(b, p.postOp);
        if !success {
          return Reverted(if mode == PostOpFailed then PostOpReverted else PostOpBubbled(p.reverted));
        }
      }
      r := SettleOp(b, mode, op, info, AddWrap(actualGas, SubWrap(p.before, p.after)));
    }

    method SettleOp(b: Block, mode: Mode, op: UserOp, info: OpInfo, gas: Word) returns (r: Outcome<Word>)
      modifies this
      ensures var o := S.SettleOp(old(Now()), b, mode, op, info, gas); Now() == o.w && r == OutcomeOf(o)
    {
      var cost := MulWrap(gas, GasPrice(op, b.basefee));
      if info.prefund < cost {
        return Reverted(PrefundBelowCost);
      }
      var ok := IncrementDeposit(Payer(op), info.prefund - cost);
      if !ok {
        return Reverted(DepositOverflow);
      }
      pending := if pending == [] then [] else pending[1..];
      fees := fees + cost;
      log := Then(log, UserOperation(op.sender, PaymasterOf(op), op.nonce, mode == OpSucceeded, cost, gas));
      r := Returned(cost);
    }

    method InnerHandleOp(b: Block, op: UserOp, info: OpInfo, x: InnerScript) returns (r: Outcome<Word>)
      modifies this
      ensures var o := S.InnerHandleOp(old(Now()), b, op, info, x); Now() == o.w && r == OutcomeOf(o)
      decreases x, 2
    {
      if x.limitCheck < AddWrap(AddWrap(op.callGasLimit, op.verificationGasLimit), 5000) {
        return Reverted(CallGasTooLow);
      }
      var mode := OpSucceeded;
      if op.callData != [] {
        var success := CallOut(b, x.call);
        if !success {
          mode := OpReverted;
        }
      }
      r := HandlePostOp(b, mode, op, info, AddWrap(SubWrap(x.before, x.after), info.preOpGas), x.post);
      if r.Returned? && x.outOfGas {
        r := Reverted(InnerRanOutOfGas);
      }
    }

    method ExecuteUserOp(b: Block, run: OpRun, info: OpInfo) returns (r: Outcome<Word>)
      modifies this
      ensures var o := S.ExecuteUserOp(old(Now()), b, run, info); Now() == o.w && r == OutcomeOf(o)
      decreases run, 3
    {
      var x := run.execution;
      var d, n, bal, e := deposits, nonceSequenceNumber, balance, entered;
      ghost var s := Here();
      r := InnerHandleOp(b, run.op, info, x.inner);
      if r.Reverted? {
        Restore(d, n, bal, e, s);
        match DataOf(r.error)
        case ShortData => r := Reverted(ReturnDataTooShort);
        case OutOfGasMarker => r := Reverted(OutOfGas);
        case OtherData =>
          if x.before < x.after || x.before - x.after + info.preOpGas >= U256 {
            r := Reverted(Panic);
          } else {
            r := HandlePostOp(b, PostOpFailed, run.op, info, x.before - x.after + info.preOpGas, x.post);
          }
      }
    }

    // ----- bundles

    method Compensate(b: Block, beneficiary: Address, amount: Word, payment: Activity) returns (r: Outcome<Word>)
      modifies this
      ensures var o := S.Compensate(old(Now()), b, beneficiary, amount, payment); Now() == o.w && r == OutcomeOf(o)
      decreases payment, 1
    {
      if beneficiary == 0 {
        return Reverted(InvalidBeneficiary);
      }
      if balance < amount {
        return Reverted(FailedSendToBeneficiary);
      }
      balance := balance - amount;
      fees := if fees < amount then 0 else fees - amount;
      log := Then(log, Compensated(beneficiary, amount));
      var success := CallOut(b, payment);
      r := if success then Returned(amount) else Reverted(FailedSendToBeneficiary);
    }

    /** The first loop of a bundle, over one list of operations. */
    method ValidateLoop(b: Block, runs: seq<OpRun>, aggregator: Address) returns (r: Outcome<seq<OpInfo>>)
      modifies this
      ensures var o := S.ValidateAll(old(Now()), b, runs, aggregator); Now() == o.w && r == OutcomeOf(o)
      decreases runs, 4
    {
      ghost var all := S.ValidateAll(Now(), b, runs, aggregator);
      var opInfos: seq<OpInfo> := [];
      var i := 0;
      assert runs[0..] == runs && (all.Ok? ==> [] + all.value == all.value);
      while i < |runs|
        invariant 0 <= i <= |runs|
        invariant all == Prepend(opInfos, S.ValidateAll(Now(), b, runs[i..], aggregator))
      {
        assert runs[i..][0] == runs[i] && runs[i..][1..] == runs[i + 1..];
        var opInfo := Validate(b, runs[i], aggregator);
        if opInfo.Reverted? {
          return Reverted(opInfo.error);
        }
        ghost var rest := S.ValidateAll(Now(), b, runs[i + 1..], aggregator);
        assert rest.Ok? ==> opInfos + ([opInfo.value] + rest.value) == opInfos + [opInfo.value] + rest.value;
        opInfos := opInfos + [opInfo.value];
        i := i + 1;
      }
      assert opInfos + [] == opInfos;
      r := Returned(opInfos);
    }

    /** The second loop of a bundle, over one list of operations. */
    method ExecuteLoop(b: Block, runs: seq<OpRun>, opInfos: seq<OpInfo>, start: Word, checked: bool) returns (r: Outcome<Word>)
      requires |opInfos| == |runs|
      modifies this
      ensures var o := S.ExecuteAll(old(Now()), b, runs, opInfos, start, checked); Now() == o.w && r == OutcomeOf(o)
      decreases runs, 5
    {
      ghost var all := S.ExecuteAll(Now(), b, runs, opInfos, start, checked);
      var collected: Word := start;
      var i := 0;
      while i < |runs|
        invariant 0 <= i <= |runs|
        invariant all == S.ExecuteAll(Now(), b, runs[i..], opInfos[i..], collected, checked)
      {
        assert runs[i..][0] == runs[i] && runs[i..][1..] == runs[i + 1..];
        assert opInfos[i..][0] == opInfos[i] && opInfos[i..][1..] == opInfos[i + 1..];
        var cost := ExecuteUserOp(b, runs[i], opInfos[i]);
        if cost.Reverted? {
          return Reverted(cost.error);
        }
        if checked && collected + cost.value >= U256 {
          return Reverted(Panic);
        }
        collected := AddWrap(collected, cost.value);
        i := i + 1;
      }
      r := Returned(collected);
    }

    method HandleOps(b: Block, batch: Batch)
      modifies this
      ensures Now() == RunCall(old(Now()), b, Call.HandleOps(batch))
      ensures I.Sound(old(Now())) ==> I.Sound(Now())
      decreases batch, 6
    {
      BooksKept(Now(), b, Call.HandleOps(batch));
      if entered {
        return;
      }
      var d, n, bal, e := deposits, nonceSequenceNumber, balance, entered;
      ghost var s := Here();
      entered := true;
      var done := BundleBody(b, batch);
      if done.Returned? {
        entered := false;
      } else {
        Restore(d, n, bal, e, s);
      }
    }

    method BundleBody(b: Block, batch: Batch) returns (r: Outcome<Word>)
      modifies this
      ensures var o := S.Bundle(old(Now()), b, batch); Now() == o.w && r == OutcomeOf(o)
      decreases batch, 5
    {
      var opInfos := ValidateLoop(b, batch.runs, 0);
      if opInfos.Reverted? {
        return Reverted(opInfos.error);
      }
      r := ExecuteLoop(b, batch.runs, opInfos.value, 0, false);
      if r.Returned? {
        r := Compensate(b, batch.beneficiary, r.value, batch.payment);
      }
    }

    method HandleAggregatedOps(b: Block, batch: GroupedBatch)
      modifies this
      ensures Now() == RunCall(old(Now()), b, Call.HandleAggregatedOps(batch))
      ensures I.Sound(old(Now())) ==> I.Sound(Now())
      decreases batch, 6
    {
      BooksKept(Now(), b, Call.HandleAggregatedOps(batch));
      if entered {
        return;
      }
      var d, n, bal, e := deposits, nonceSequenceNumber, balance, entered;
      ghost var s := Here();
      entered := true;
      var done := GroupedBody(b, batch);
      if done.Returned? {
        entered := false;
      } else {
        Restore(d, n, bal, e, s);
      }
    }

    method GroupedBody(b: Block, batch: GroupedBatch) returns (r: Outcome<Word>)
      modifies this
      ensures var o := S.GroupedBundle(old(Now()), b, batch); Now() == o.w && r == OutcomeOf(o)
      decreases batch, 5
    {
      var signed := SignatureLoop(b, batch.groups);
      if signed.Reverted? {
        return Reverted(signed.error);
      }
      var opInfos := GroupValidateLoop(b, batch.groups);
      if opInfos.Reverted? {
        return Reverted(opInfos.error);
      }
      r := GroupExecuteLoop(b, batch.groups, opInfos.value);
      if r.Returned? {
        r := Compensate(b, batch.beneficiary, r.value, batch.payment);
      }
    }

    method SignatureLoop(b: Block, groups: seq<Group>) returns (r: Outcome<()>)
      modifies this
      ensures var o := S.CheckSignatures(old(Now()), b, groups); Now() == o.w && r == OutcomeOf(o)
      decreases groups, 4
    {
      ghost var all := S.CheckSignatures(Now(), b, groups);
      var i := 0;
      while i < |groups|
        invariant 0 <= i <= |groups|
        invariant all == S.CheckSignatures(Now(), b, groups[i..])
      {
        assert groups[i..][0] == groups[i] && groups[i..][1..] == groups[i + 1..];
        if groups[i].aggregator == 1 {
          return Reverted(InvalidAggregator);
        }
        if groups[i].aggregator != 0 {
          var success := CallOut(b, groups[i].check);
          if !success {
            return Reverted(SignatureValidationFailed);
          }
        }
        i := i + 1;
      }
      r := Returned(());
    }

    method GroupValidateLoop(b: Block, groups: seq<Group>) returns (r: Outcome<seq<OpInfo>>)
      modifies this
      ensures var o := S.ValidateGroups(old(Now()), b, groups); Now() == o.w && r == OutcomeOf(o)
      decreases groups, 4
    {
      ghost var all := S.ValidateGroups(Now(), b, groups);
      var opInfos: seq<OpInfo> := [];
      var a := 0;
      assert groups[0..] == groups && (all.Ok? ==> [] + all.value == all.value);
      while a < |groups|
        invariant 0 <= a <= |groups|
        invariant all == Prepend(opInfos, S.ValidateGroups(Now(), b, groups[a..]))
      {
        assert groups[a..][0] == groups[a] && groups[a..][1..] == groups[a + 1..];
        var group := ValidateLoop(b, groups[a].runs, groups[a].aggregator);
        if group.Reverted? {
          return Reverted(group.error);
        }
        ghost var rest := S.ValidateGroups(Now(), b, groups[a + 1..]);
        assert rest.Ok? ==> opInfos + (group.value + rest.value) == opInfos + group.value + rest.value;
        opInfos := opInfos + group.value;
        a := a + 1;
      }
      assert opInfos + [] == opInfos;
      r := Returned(opInfos);
    }

    method GroupExecuteLoop(b: Block, groups: seq<Group>, opInfos: seq<OpInfo>) returns (r: Outcome<Word>)
      requires |opInfos| == |Flatten(groups)|
      modifies this
      ensures var o := S.ExecuteGroups(old(Now()), b, groups, opInfos, 0); Now() == o.w && r == OutcomeOf(o)
      decreases groups, 4
    {
      ghost var all := S.ExecuteGroups(Now(), b, groups, opInfos, 0);
      var collected: Word := 0;
      var a, opIndex := 0, 0;
      while a < |groups|
        invariant 0 <= a <= |groups|
        invariant 0 <= opIndex <= |opInfos| && |opInfos| - opIndex == |Flatten(groups[a..])|
        invariant all == S.ExecuteGroups(Now(), b, groups[a..], opInfos[opIndex..], collected)
      {
        assert groups[a..][0] == groups[a] && groups[a..][1..] == groups[a + 1..];
        var n := |groups[a].runs|;
        assert opInfos[opIndex..][..n] == opInfos[opIndex..opIndex + n];
        assert opInfos[opIndex..][n..] == opInfos[opIndex + n..];
        var sum := ExecuteLoop(b, groups[a].runs, opInfos[opIndex..opIndex + n], collected, true);
        if sum.Reverted? {
          return sum;
        }
        collected := sum.value;
        opIndex := opIndex + n;
        a := a + 1;
      }
      r := Returned(collected);
    }
  }

  ghost function Prepend<A>(xs: seq<A>, o: Out<seq<A>>): Out<seq<A>> {
    if o.Ok? then Ok(o.w, xs + o.value) else o
  }
}
