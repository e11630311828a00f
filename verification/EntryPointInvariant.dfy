/** Every step of the EntryPoint keeps the books, whatever foreign code does in between. */
module EntryPointInvariant {
  import opened Words
  import opened Sequences
  import opened Ledger
  import opened Transitions
  import opened EntryPointSpec

  /** The books are in order now, and were whenever foreign code was given control. */
  ghost predicate Sound(w: World) {
    InOrder(w.s) && forall s | s in w.seen :: InOrder(s)
  }

  /** What foreign code cannot touch while a bundle is under way. */
  predicate Quiet(s: State, t: State) {
    && t.entered == s.entered
    && (s.entered ==> t.pending == s.pending && t.fees == s.fees && Marks(t.log) == Marks(s.log))
  }

  // ----- foreign code

  lemma RunActivityKeeps(w: World, b: Block, act: Activity)
    requires Sound(w)
    ensures var r := RunActivity(w, b, act);
      Sound(r.w) && Quiet(w.s, r.w.s) && (!r.ok ==> r.w.s == w.s)
    decreases act, 0
  {
    assert Sound(Observe(w));
    RunCallsKeeps(Observe(w), b, act.calls);
  }

  lemma {:induction false} RunCallsKeeps(w: World, b: Block, calls: seq<Call>)
    requires Sound(w)
    ensures var w1 := RunCalls(w, b, calls); Sound(w1) && Quiet(w.s, w1.s)
    decreases calls, 0
  {
    if calls != [] {
      RunCallKeeps(w, b, calls[0]);
      RunCallsKeeps(RunCall(w, b, calls[0]), b, calls[1..]);
    }
  }

  lemma SendKeeps(w: World, b: Block, sent: Option<State>, receiver: Activity)
    requires Sound(w)
    requires sent.Some? ==> InOrder(sent.value) && Quiet(w.s, sent.value)
    ensures var w1 := Send(w, b, sent, receiver); Sound(w1) && Quiet(w.s, w1.s)
    decreases receiver, 1
  {
    if sent.Some? {
      RunActivityKeeps(w.(s := sent.value), b, receiver);
    }
  }

  lemma {:induction false} RunCallKeeps(w: World, b: Block, c: Call)
    requires Sound(w)
    ensures var w1 := RunCall(w, b, c); Sound(w1) && Quiet(w.s, w1.s)
    decreases c, 0
  {
    match c
    case Nested(activity) => RunActivityKeeps(w, b, activity);
    case WithdrawStake(caller, receiver) =>
      ReleasesKeep(w.s, caller, 0, b.timestamp);
      SendKeeps(w, b, ReleaseStake(w.s, caller, b.timestamp), receiver);
    case WithdrawTo(caller, amount, receiver) =>
      ReleasesKeep(w.s, caller, amount, b.timestamp);
      SendKeeps(w, b, ReleaseDeposit(w.s, caller, amount), receiver);
    case HandleOps(batch) =>
      if !w.s.entered {
        EnterKeeps(w);
        var _ := BundleKeeps(Enter(w), b, batch);
        LeaveKeeps(w, Bundle(Enter(w), b, batch));
      }
    case HandleAggregatedOps(batch) =>
      if !w.s.entered {
        EnterKeeps(w);
        var _ := GroupedBundleKeeps(Enter(w), b, batch);
        LeaveKeeps(w, GroupedBundle(Enter(w), b, batch));
      }
    case _ => PlainCallKeeps(w, b, c);
  }

  predicate Plain(c: Call) {
    c.DepositTo? || c.AddStake? || c.UnlockStake? || c.IncrementNonce? || c.Force?
  }

  function PlainStep(s: State, b: Block, c: Call): Option<State>
    requires Plain(c)
  {
    match c
    case DepositTo(account, value) => Transitions.DepositTo(s, account, value)
    case AddStake(caller, delay, value) => Transitions.AddStake(s, caller, delay, value)
    case UnlockStake(caller) => Transitions.UnlockStake(s, caller, b.timestamp)
    case IncrementNonce(caller, key) => Transitions.IncrementNonce(s, caller, key)
    case Force(value) => Transitions.Force(s, value)
  }

  lemma PlainStepKeeps(s: State, b: Block, c: Call)
    requires Plain(c) && InOrder(s) && PlainStep(s, b, c).Some?
    ensures InOrder(PlainStep(s, b, c).value)
  {
    match c
    case DepositTo(account, value) => DepositToKeeps(s, account, value);
    case AddStake(caller, delay, value) => AddStakeKeeps(s, caller, delay, value);
    case UnlockStake(caller) => UnlockStakeKeeps(s, caller, b.timestamp);
    case IncrementNonce(caller, key) => IncrementNonceKeeps(s, caller, key);
    case Force(value) => ForceKeeps(s, value);
  }

  lemma PlainStepQuiet(s: State, b: Block, c: Call)
    requires Plain(c) && PlainStep(s, b, c).Some?
    ensures Quiet(s, PlainStep(s, b, c).value)
  {
  }

  lemma PlainCallKeeps(w: World, b: Block, c: Call)
    requires Plain(c) && Sound(w)
    ensures var w1 := RunCall(w, b, c); Sound(w1) && Quiet(w.s, w1.s)
  {
    assert RunCall(w, b, c) == Commit(w, PlainStep(w.s, b, c));
    if PlainStep(w.s, b, c).Some? {
      PlainStepKeeps(w.s, b, c);
      PlainStepQuiet(w.s, b, c);
    }
  }

  lemma ReleasesKeep(s: State, caller: Address, amount: nat, now: nat)
    requires InOrder(s)
    ensures var r := ReleaseStake(s, caller, now); r.Some? ==> InOrder(r.value) && Quiet(s, r.value)
    ensures var r := ReleaseDeposit(s, caller, amount); r.Some? ==> InOrder(r.value) && Quiet(s, r.value)
  {
    if ReleaseStake(s, caller, now).Some? {
      ReleaseStakeKeeps(s, caller, now);
    }
    if ReleaseDeposit(s, caller, amount).Some? {
      ReleaseDepositKeeps(s, caller, amount);
    }
  }

  lemma EnterKeeps(w: World)
    requires Sound(w) && !w.s.entered
    ensures Sound(Enter(w)) && Enter(w).s.entered && Enter(w).s.pending == [] && Enter(w).s.fees == 0
  {
  }

  lemma LeaveKeeps(before: World, r: Out<Word>)
    requires Sound(before) && !before.s.entered && Sound(r.w)
    requires r.Ok? ==> r.w.s.pending == [] && r.w.s.fees == 0
    ensures Sound(Leave(before, r)) && !Leave(before, r).s.entered
  {
  }

  // ----- validation

  /** A validation took one prefund and accepted one nonce. */
  predicate Took(s: State, t: State, prefunds: seq<Prefund>, marks: seq<Event>) {
    && s.entered && t.entered && t.fees == s.fees
    && t.pending == s.pending + prefunds
    && Marks(t.log) == Marks(s.log) + marks
  }

  lemma TookTwice(s: State, t: State, u: State, p: seq<Prefund>, q: seq<Prefund>, m: seq<Event>, n: seq<Event>)
    requires Took(s, t, p, m) && Took(t, u, q, n)
    ensures Took(s, u, p + q, m + n)
  {
    Regroup(s.pending, p, q);
    Regroup(Marks(s.log), m, n);
  }

  function PrefundOf(op: UserOp): Prefund {
    Prefund(Payer(op), RequiredPrefund(op))
  }

  function AcceptanceOf(op: UserOp): Event {
    NonceAccepted(op.sender, op.nonce)
  }

  lemma CreateSenderKeeps(w: World, b: Block, op: UserOp, v: ValidationScript)
    requires Sound(w)
    ensures var r := CreateSenderIfNeeded(w, b, op, v); Sound(r.w) && Quiet(w.s, r.w.s)
    decreases v, 0
  {
    RunActivityKeeps(w, b, v.creation);
  }

  lemma TakeKeeps(w: World, payer: Address, amount: nat, error: Error)
    requires Sound(w) && w.s.entered
    ensures var r := Take(w, payer, amount, error);
      && Sound(r.w) && r.w.seen == w.seen
      && (r.Ok? ==> Took(w.s, r.w.s, [Prefund(payer, amount)], []))
  {
    if TakePrefund(w.s, payer, amount).Some? {
      TakePrefundKeeps(w.s, payer, amount);
    }
  }

  lemma ValidateAccountKeeps(w: World, b: Block, op: UserOp, v: ValidationScript)
    requires Sound(w) && w.s.entered
    ensures var r := ValidateAccountPrepayment(w, b, op, v);
      && Sound(r.w)
      && (r.Ok? ==> Took(w.s, r.w.s, if PaymasterOf(op) == 0 then [PrefundOf(op)] else [], []))
    decreases v, 1
  {
    CreateSenderKeeps(w, b, op, v);
    var c := CreateSenderIfNeeded(w, b, op, v);
    if c.Ok? {
      RunActivityKeeps(c.w, b, v.account);
      var r := RunActivity(c.w, b, v.account);
      if r.ok && PaymasterOf(op) == 0 {
        TakeKeeps(r.w, op.sender, RequiredPrefund(op), DidNotPayPrefund);
      }
    }
  }

  lemma ValidatePaymasterKeeps(w: World, b: Block, op: UserOp, v: ValidationScript, gasUsed: Word)
    requires Sound(w) && w.s.entered && PaymasterOf(op) != 0
    ensures var r := ValidatePaymasterPrepayment(w, b, op, v, gasUsed);
      && Sound(r.w)
      && (r.Ok? ==> Took(w.s, r.w.s, [PrefundOf(op)], []))
    decreases v, 1
  {
    TakeKeeps(w, PaymasterOf(op), RequiredPrefund(op), PaymasterDepositTooLow);
    var t := Take(w, PaymasterOf(op), RequiredPrefund(op), PaymasterDepositTooLow);
    if t.Ok? {
      RunActivityKeeps(t.w, b, v.paymaster);
    }
  }

  lemma ValidateNonceKeeps(w: World, op: UserOp)
    requires Sound(w) && w.s.entered
    ensures var r := ValidateNonce(w, op);
      Sound(r.w) && (r.Ok? ==> Took(w.s, r.w.s, [], [AcceptanceOf(op)]))
  {
    if AcceptNonce(w.s, op.sender, op.nonce).Some? {
      AcceptNonceKeeps(w.s, op.sender, op.nonce);
    }
  }

  lemma ValidatePartsKeeps(w: World, b: Block, op: UserOp, v: ValidationScript)
    requires Sound(w) && w.s.entered
    ensures var r := ValidateParts(w, b, op, v);
      Sound(r.w) && (r.Ok? ==> Took(w.s, r.w.s, [PrefundOf(op)], [AcceptanceOf(op)]))
    decreases v, 2
  {
    ValidateAccountKeeps(w, b, op, v);
    var a := ValidateAccountPrepayment(w, b, op, v);
    if a.Ok? {
      ValidateNonceKeeps(a.w, op);
      var n := ValidateNonce(a.w, op);
      if n.Ok? {
        if PaymasterOf(op) == 0 {
          TookTwice(w.s, a.w.s, n.w.s, [PrefundOf(op)], [], [], [AcceptanceOf(op)]);
          assert [PrefundOf(op)] + [] == [PrefundOf(op)] && [] + [AcceptanceOf(op)] == [AcceptanceOf(op)];
        } else {
          TookTwice(w.s, a.w.s, n.w.s, [], [], [], [AcceptanceOf(op)]);
          ValidatePaymasterKeeps(n.w, b, op, v, a.value);
        }
      }
    }
  }

  lemma ValidateKeeps(w: World, b: Block, run: OpRun, aggregator: Address)
    requires Sound(w) && w.s.entered
    ensures var r := Validate(w, b, run, aggregator);
      && Sound(r.w)
      && (r.Ok? ==>
            && Took(w.s, r.w.s, [PrefundOf(run.op)], [AcceptanceOf(run.op)])
            && r.value.prefund == RequiredPrefund(run.op))
    decreases run, 3
  {
    ValidatePartsKeeps(w, b, run.op, run.validation);
  }

  function PrefundsOf(runs: seq<OpRun>): seq<Prefund> {
    if runs == [] then [] else [PrefundOf(runs[0].op)] + PrefundsOf(runs[1..])
  }

  function AcceptancesOf(runs: seq<OpRun>): seq<Event> {
    if runs == [] then [] else [AcceptanceOf(runs[0].op)] + AcceptancesOf(runs[1..])
  }

  /** The infos of a validated list of operations carry the prefunds taken for them. */
  predicate Backed(runs: seq<OpRun>, infos: seq<OpInfo>) {
    |infos| == |runs| && forall i | 0 <= i < |runs| :: infos[i].prefund == RequiredPrefund(runs[i].op)
  }

  lemma {:induction false} ValidateAllKeeps(w: World, b: Block, runs: seq<OpRun>, aggregator: Address)
    requires Sound(w) && w.s.entered
    ensures var r := ValidateAll(w, b, runs, aggregator);
      && Sound(r.w)
      && (r.Ok? ==> Took(w.s, r.w.s, PrefundsOf(runs), AcceptancesOf(runs)) && Backed(runs, r.value))
    decreases runs, 4
  {
    if runs != [] {
      ValidateKeeps(w, b, runs[0], aggregator);
      var v := Validate(w, b, runs[0], aggregator);
      if v.Ok? {
        ValidateAllKeeps(v.w, b, runs[1..], aggregator);
        var r := ValidateAll(v.w, b, runs[1..], aggregator);
        if r.Ok? {
          TookTwice(w.s, v.w.s, r.w.s, [PrefundOf(runs[0].op)], PrefundsOf(runs[1..]),
                    [AcceptanceOf(runs[0].op)], AcceptancesOf(runs[1..]));
        }
      }
    }
  }

  // ----- execution

  /** The event of one settled operation: its cost is gas times the agreed price, within its prefund. */
  predicate SettlementOf(e: Event, op: UserOp, basefee: Word) {
    && e.UserOperation?
    && e.account == op.sender && e.paymaster == PaymasterOf(op) && e.nonce == op.nonce
    && e.gas < U256 && e.cost == MulWrap(e.gas, GasPrice(op, basefee))
    && e.cost <= RequiredPrefund(op)
  }

  /** An execution settled the oldest prefund and nothing else of the bundle. */
  predicate Settled(s: State, t: State, op: UserOp, b: Block, cost: nat) {
    && s.entered && t.entered
    && s.pending != [] && t.pending == s.pending[1..]
    && t.fees == s.fees + cost
    && t.log.Then? && SettlementOf(t.log.event, op, b.basefee) && t.log.event.cost == cost
    && Marks(t.log) == Marks(s.log) + [t.log.event]
  }

  /** `w` may settle `op` next. */
  predicate Ready(s: State, op: UserOp, info: OpInfo) {
    s.entered && s.pending != [] && s.pending[0] == PrefundOf(op) && info.prefund == RequiredPrefund(op)
  }

  lemma CallPostOpKeeps(w: World, b: Block, mode: Mode, op: UserOp, info: OpInfo, p: PostScript)
    requires Sound(w)
    ensures var r := CallPostOp(w, b, mode, op, info, p); Sound(r.w) && Quiet(w.s, r.w.s)
    decreases p, 0
  {
    RunActivityKeeps(w, b, p.postOp);
  }

  lemma SettleOpKeeps(w: World, b: Block, mode: Mode, op: UserOp, info: OpInfo, gas: Word)
    requires Sound(w) && Ready(w.s, op, info)
    ensures var r := SettleOp(w, b, mode, op, info, gas);
      Sound(r.w) && (r.Ok? ==> Settled(w.s, r.w.s, op, b, r.value))
  {
    var cost := MulWrap(gas, GasPrice(op, b.basefee));
    if info.prefund >= cost {
      var e := UserOperation(op.sender, PaymasterOf(op), op.nonce, mode == OpSucceeded, cost, gas);
      if Settle(w.s, Payer(op), info.prefund - cost, e).Some? {
        SettleKeeps(w.s, Payer(op), info.prefund - cost, e);
      }
    }
  }

  lemma HandlePostOpKeeps(w: World, b: Block, mode: Mode, op: UserOp, info: OpInfo, actualGas: Word, p: PostScript)
    requires Sound(w) && Ready(w.s, op, info)
    ensures var r := HandlePostOp(w, b, mode, op, info, actualGas, p);
      Sound(r.w) && (r.Ok? ==> Settled(w.s, r.w.s, op, b, r.value))
    decreases p, 1
  {
    CallPostOpKeeps(w, b, mode, op, info, p);
    var c := CallPostOp(w, b, mode, op, info, p);
    if c.Ok? {
      SettleOpKeeps(c.w, b, mode, op, info, AddWrap(actualGas, SubWrap(p.before, p.after)));
    }
  }

  lemma InnerHandleOpKeeps(w: World, b: Block, op: UserOp, info: OpInfo, x: InnerScript)
    requires Sound(w) && Ready(w.s, op, info)
    ensures var r := InnerHandleOp(w, b, op, info, x);
      Sound(r.w) && (r.Ok? ==> Settled(w.s, r.w.s, op, b, r.value))
    decreases x, 2
  {
    RunActivityKeeps(w, b, x.call);
    var c := if op.callData == [] then Ran(w, true) else RunActivity(w, b, x.call);
    var gas := AddWrap(SubWrap(x.before, x.after), info.preOpGas);
    HandlePostOpKeeps(c.w, b, if c.ok then OpSucceeded else OpReverted, op, info, gas, x.post);
  }

  lemma SettleOutsideKeeps(w: World, b: Block, op: UserOp, info: OpInfo, x: ExecutionScript, data: RevertData)
    requires Sound(w) && Ready(w.s, op, info)
    ensures var r := SettleOutside(w, b, op, info, x, data);
      Sound(r.w) && (r.Ok? ==> Settled(w.s, r.w.s, op, b, r.value))
    decreases x, 2
  {
    if data.OtherData? && x.before >= x.after && x.before - x.after + info.preOpGas < U256 {
      var gas := x.before - x.after + info.preOpGas;
      assert SettleOutside(w, b, op, info, x, data) == HandlePostOp(w, b, PostOpFailed, op, info, gas, x.post);
      HandlePostOpKeeps(w, b, PostOpFailed, op, info, gas, x.post);
    } else {
      assert SettleOutside(w, b, op, info, x, data).w == w;
    }
  }

  lemma ExecuteUserOpKeeps(w: World, b: Block, run: OpRun, info: OpInfo)
    requires Sound(w) && Ready(w.s, run.op, info)
    ensures var r := ExecuteUserOp(w, b, run, info);
      Sound(r.w) && (r.Ok? ==> Settled(w.s, r.w.s, run.op, b, r.value))
    decreases run, 3
  {
    InnerHandleOpKeeps(w, b, run.op, info, run.execution.inner);
    var i := InnerHandleOp(w, b, run.op, info, run.execution.inner);
    if i.Fail? {
      var undone := i.w.(s := w.s);
      assert Sound(undone);
      SettleOutsideKeeps(undone, b, run.op, info, run.execution, DataOf(i.error));
    }
  }

  predicate SettlementsOf(events: seq<Event>, runs: seq<OpRun>, basefee: Word) {
    |events| == |runs| && forall i | 0 <= i < |runs| :: SettlementOf(events[i], runs[i].op, basefee)
  }

  function TotalCost(events: seq<Event>): nat {
    if events == [] then 0
    else (if events[0].UserOperation? then events[0].cost else 0) + TotalCost(events[1..])
  }

  /** Because the EntryPoint is solvent, the running total of the fees cannot wrap. */
  lemma ExecuteNextKeeps(w: World, b: Block, run: OpRun, info: OpInfo, collected: Word, checked: bool)
    requires Sound(w) && Ready(w.s, run.op, info) && w.s.fees == collected
    ensures var r := ExecuteNext(w, b, run, info, collected, checked);
      && Sound(r.w)
      && r == ExecuteNext(w, b, run, info, collected, !checked)
      && (r.Ok? ==> r.w.s.fees == r.value >= collected && Settled(w.s, r.w.s, run.op, b, r.value - collected))
    decreases run, 4
  {
    ExecuteUserOpKeeps(w, b, run, info);
    var x := ExecuteUserOp(w, b, run, info);
    assert Solvent(x.w.s);
  }

  /**
   * Between `s` and `t` exactly `runs` were settled, each once and in order, and their costs are what was
   * collected; the prefunds `later` are still outstanding.
   */
  predicate Executed(s: State, t: State, runs: seq<OpRun>, events: seq<Event>, basefee: Word, later: seq<Prefund>) {
    && s.entered && t.entered && t.pending == later
    && SettlementsOf(events, runs, basefee)
    && t.fees == s.fees + TotalCost(events)
    && Marks(t.log) == Marks(s.log) + events
  }

  lemma ExecutedCons(
    s: State, t: State, u: State, b: Block, runs: seq<OpRun>, rest: seq<Event>, later: seq<Prefund>)
    requires runs != [] && s.fees <= t.fees && Settled(s, t, runs[0].op, b, t.fees - s.fees)
    requires Executed(t, u, runs[1..], rest, b.basefee, later)
    ensures Executed(s, u, runs, [t.log.event] + rest, b.basefee, later)
  {
    assert ([t.log.event] + rest)[1..] == rest;
    Regroup(Marks(s.log), [t.log.event], rest);
  }

  lemma {:induction false} ExecutedAppend(
    s: State, t: State, u: State, basefee: Word, runs: seq<OpRun>, more: seq<OpRun>, events: seq<Event>, rest: seq<Event>,
    mid: seq<Prefund>, later: seq<Prefund>)
    requires Executed(s, t, runs, events, basefee, mid) && Executed(t, u, more, rest, basefee, later)
    ensures Executed(s, u, runs + more, events + rest, basefee, later)
  {
    TotalCostAppend(events, rest);
    SettlementsAppend(events, runs, rest, more, basefee);
    Regroup(Marks(s.log), events, rest);
  }

  lemma SettlementsAppend(events: seq<Event>, runs: seq<OpRun>, rest: seq<Event>, more: seq<OpRun>, basefee: Word)
    requires SettlementsOf(events, runs, basefee) && SettlementsOf(rest, more, basefee)
    ensures SettlementsOf(events + rest, runs + more, basefee)
  {
  }

  lemma {:induction false} TotalCostAppend(events: seq<Event>, rest: seq<Event>)
    ensures TotalCost(events + rest) == TotalCost(events) + TotalCost(rest)
  {
    if events == [] {
      assert events + rest == rest;
    } else {
      TotalCostAppend(events[1..], rest);
      assert (events + rest)[1..] == events[1..] + rest;
    }
  }

  /** Executing a list settles each operation once, in order, and collects exactly the sum of the costs. */
  lemma {:induction false} ExecuteAllKeeps(
    w: World, b: Block, runs: seq<OpRun>, infos: seq<OpInfo>, collected: Word, checked: bool, later: seq<Prefund>)
    returns (events: seq<Event>)
    requires Sound(w) && w.s.entered && Backed(runs, infos)
    requires w.s.pending == PrefundsOf(runs) + later && w.s.fees == collected
    ensures var r := ExecuteAll(w, b, runs, infos, collected, checked);
      && Sound(r.w)
      && (r.Ok? ==> r.w.s.fees == r.value && Executed(w.s, r.w.s, runs, events, b.basefee, later))
    decreases runs, 4
  {
    events := [];
    if runs == [] {
      assert w.s.pending == later;
    } else {
      assert w.s.pending[1..] == PrefundsOf(runs[1..]) + later;
      ExecuteNextKeeps(w, b, runs[0], infos[0], collected, checked);
      var x := ExecuteNext(w, b, runs[0], infos[0], collected, checked);
      if x.Ok? {
        var rest := ExecuteAllKeeps(x.w, b, runs[1..], infos[1..], x.value, checked, later);
        var r := ExecuteAll(x.w, b, runs[1..], infos[1..], x.value, checked);
        events := [x.w.s.log.event] + rest;
        if r.Ok? {
          ExecutedCons(w.s, x.w.s, r.w.s, b, runs, rest, later);
        }
      }
    }
  }

  // ----- bundles

  lemma {:induction false} CheckSignaturesKeeps(w: World, b: Block, groups: seq<Group>)
    requires Sound(w)
    ensures var r := CheckSignatures(w, b, groups); Sound(r.w) && Quiet(w.s, r.w.s)
    decreases groups, 5
  {
    if groups != [] && groups[0].aggregator != 1 {
      RunActivityKeeps(w, b, groups[0].check);
      CheckSignaturesKeeps(if groups[0].aggregator == 0 then w else RunActivity(w, b, groups[0].check).w, b, groups[1..]);
    }
  }

  lemma {:induction false} PrefundsAppend(runs: seq<OpRun>, more: seq<OpRun>)
    ensures PrefundsOf(runs + more) == PrefundsOf(runs) + PrefundsOf(more)
  {
    if runs == [] {
      assert runs + more == more;
    } else {
      PrefundsAppend(runs[1..], more);
      assert (runs + more)[1..] == runs[1..] + more && (runs + more)[0] == runs[0];
      Regroup([PrefundOf(runs[0].op)], PrefundsOf(runs[1..]), PrefundsOf(more));
    }
  }

  lemma {:induction false} AcceptancesAppend(runs: seq<OpRun>, more: seq<OpRun>)
    ensures AcceptancesOf(runs + more) == AcceptancesOf(runs) + AcceptancesOf(more)
  {
    if runs == [] {
      assert runs + more == more;
    } else {
      AcceptancesAppend(runs[1..], more);
      assert (runs + more)[1..] == runs[1..] + more && (runs + more)[0] == runs[0];
      Regroup([AcceptanceOf(runs[0].op)], AcceptancesOf(runs[1..]), AcceptancesOf(more));
    }
  }

  lemma {:induction false} ValidateGroupsKeeps(w: World, b: Block, groups: seq<Group>)
    requires Sound(w) && w.s.entered
    ensures var r := ValidateGroups(w, b, groups);
      && Sound(r.w)
      && (r.Ok? ==> Took(w.s, r.w.s, PrefundsOf(Flatten(groups)), AcceptancesOf(Flatten(groups))) && Backed(Flatten(groups), r.value))
    decreases groups, 5
  {
    if groups != [] {
      var runs, more := groups[0].runs, Flatten(groups[1..]);
      ValidateAllKeeps(w, b, runs, groups[0].aggregator);
      var v := ValidateAll(w, b, runs, groups[0].aggregator);
      if v.Ok? {
        ValidateGroupsKeeps(v.w, b, groups[1..]);
        var r := ValidateGroups(v.w, b, groups[1..]);
        if r.Ok? {
          PrefundsAppend(runs, more);
          AcceptancesAppend(runs, more);
          TookTwice(w.s, v.w.s, r.w.s, PrefundsOf(runs), PrefundsOf(more), AcceptancesOf(runs), AcceptancesOf(more));
        }
      }
    }
  }

  lemma {:induction false} ExecuteGroupsKeeps(w: World, b: Block, groups: seq<Group>, infos: seq<OpInfo>, collected: Word)
    returns (events: seq<Event>)
    requires Sound(w) && w.s.entered && Backed(Flatten(groups), infos)
    requires w.s.pending == PrefundsOf(Flatten(groups)) && w.s.fees == collected
    ensures var r := ExecuteGroups(w, b, groups, infos, collected);
      && Sound(r.w)
      && (r.Ok? ==> r.w.s.fees == r.value && Executed(w.s, r.w.s, Flatten(groups), events, b.basefee, []))
    decreases groups, 5
  {
    events := [];
    if groups != [] {
      var runs, more := groups[0].runs, Flatten(groups[1..]);
      var n := |runs|;
      PrefundsAppend(runs, more);
      BackedParts(runs, more, infos);
      var first := ExecuteAllKeeps(w, b, runs, infos[..n], collected, true, PrefundsOf(more));
      var x := ExecuteAll(w, b, runs, infos[..n], collected, true);
      if x.Ok? {
        var rest := ExecuteGroupsKeeps(x.w, b, groups[1..], infos[n..], x.value);
        var r := ExecuteGroups(x.w, b, groups[1..], infos[n..], x.value);
        events := first + rest;
        if r.Ok? {
          ExecutedAppend(w.s, x.w.s, r.w.s, b.basefee, runs, more, first, rest, PrefundsOf(more), []);
        }
      }
    }
  }

  lemma BackedParts(runs: seq<OpRun>, more: seq<OpRun>, infos: seq<OpInfo>)
    requires Backed(runs + more, infos)
    ensures Backed(runs, infos[..|runs|]) && Backed(more, infos[|runs|..])
  {
    forall i | 0 <= i < |more|
      ensures infos[|runs|..][i].prefund == RequiredPrefund(more[i].op)
    {
      assert (runs + more)[|runs| + i] == more[i];
    }
  }

  lemma CompensateKeeps(w: World, b: Block, beneficiary: Address, amount: Word, payment: Activity)
    requires Sound(w) && w.s.entered && w.s.pending == [] && w.s.fees == amount
    ensures var r := Compensate(w, b, beneficiary, amount, payment);
      && Sound(r.w)
      && (r.Ok? ==>
            && beneficiary != 0 && r.value == amount
            && r.w.s.entered && r.w.s.pending == [] && r.w.s.fees == 0
            && Marks(r.w.s.log) == Marks(w.s.log) + [Compensated(beneficiary, amount)])
    decreases payment, 1
  {
    var p := PayOut(w.s, beneficiary, amount);
    if beneficiary != 0 && p.Some? {
      PayOutKeeps(w.s, beneficiary, amount);
      RunActivityKeeps(w.(s := p.value), b, payment);
    }
  }

  /** The marks of a completed bundle: all its nonces, then all its settlements, then one pay-out of the sum. */
  predicate BundleMarks(s: State, t: State, runs: seq<OpRun>, events: seq<Event>, basefee: Word, beneficiary: Address) {
    && SettlementsOf(events, runs, basefee)
    && Marks(t.log) == Marks(s.log) + AcceptancesOf(runs) + events + [Compensated(beneficiary, TotalCost(events))]
  }

  lemma BundleKeeps(w: World, b: Block, batch: Batch) returns (events: seq<Event>)
    requires Sound(w) && w.s.entered && w.s.pending == [] && w.s.fees == 0
    ensures var r := Bundle(w, b, batch);
      && Sound(r.w)
      && (r.Ok? ==>
            && r.w.s.pending == [] && r.w.s.fees == 0 && r.value == TotalCost(events)
            && BundleMarks(w.s, r.w.s, batch.runs, events, b.basefee, batch.beneficiary))
    decreases batch, 5
  {
    events := [];
    ValidateAllKeeps(w, b, batch.runs, 0);
    var v := ValidateAll(w, b, batch.runs, 0);
    if v.Ok? {
      events := ExecuteAllKeeps(v.w, b, batch.runs, v.value, 0, false, []);
      var x := ExecuteAll(v.w, b, batch.runs, v.value, 0, false);
      if x.Ok? {
        CompensateKeeps(x.w, b, batch.beneficiary, x.value, batch.payment);
      }
    }
  }

  lemma GroupedBundleKeeps(w: World, b: Block, batch: GroupedBatch) returns (events: seq<Event>)
    requires Sound(w) && w.s.entered && w.s.pending == [] && w.s.fees == 0
    ensures var r := GroupedBundle(w, b, batch);
      && Sound(r.w)
      && (r.Ok? ==>
            && r.w.s.pending == [] && r.w.s.fees == 0 && r.value == TotalCost(events)
            && BundleMarks(w.s, r.w.s, Flatten(batch.groups), events, b.basefee, batch.beneficiary))
    decreases batch, 5
  {
    events := [];
    CheckSignaturesKeeps(w, b, batch.groups);
    var c := CheckSignatures(w, b, batch.groups);
    if c.Ok? {
      ValidateGroupsKeeps(c.w, b, batch.groups);
      var v := ValidateGroups(c.w, b, batch.groups);
      if v.Ok? {
        events := ExecuteGroupsKeeps(v.w, b, batch.groups, v.value, 0);
        var x := ExecuteGroups(v.w, b, batch.groups, v.value, 0);
        if x.Ok? {
          CompensateKeeps(x.w, b, batch.beneficiary, x.value, batch.payment);
        }
      }
    }
  }
}
