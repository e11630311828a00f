/**
 * What each public call of the StakeManager and the NonceManager does to the storage: when it succeeds, which fields
 * change, by how much, and that all others stay. And what it means that foreign code runs.
 */
module EntryPointEffects {
  import opened Words
  import opened Ledger
  import opened Transitions
  import opened EntryPointSpec
  import opened EntryPointInvariant

  /** Only the record of `a`, the ether held and the log may differ; `e` is what the log gains. */
  ghost predicate Touches(s: State, t: State, a: Address, e: Event) {
    && (forall other: Address | other != a :: Info(t.deposits, other) == Info(s.deposits, other))
    && t.counters == s.counters && t.entered == s.entered
    && t.pending == s.pending && t.fees == s.fees && t.forced == s.forced
    && t.log == Then(s.log, e)
  }

  /** `depositTo`: the ether arrives and the deposit grows by it, when both fit their widths. */
  lemma DepositToDeposits(s: State, account: Address, value: nat)
    ensures var r := Transitions.DepositTo(s, account, value);
      && (r.Some? <==> s.balance + value < U256 && Info(s.deposits, account).deposit + value < U112)
      && (r.Some? ==>
            && Touches(s, r.value, account, Deposited(account, value))
            && Info(r.value.deposits, account)
               == Info(s.deposits, account).(deposit := Info(s.deposits, account).deposit + value)
            && r.value.balance == s.balance + value)
  {
  }

  /** `addStake`: with a delay that is positive and not shorter than before, the stake grows by the ether sent and is locked for that delay. */
  lemma AddStakeLocks(s: State, caller: Address, delay: Delay, value: nat)
    ensures var r := Transitions.AddStake(s, caller, delay, value);
      var info := Info(s.deposits, caller);
      && (r.Some? <==> && s.balance + value < U256 && 0 < info.stake + value < U112
                       && delay > 0 && delay >= info.unstakeDelaySec)
      && (r.Some? ==>
            && Touches(s, r.value, caller, StakeLocked(caller, info.stake + value, delay))
            && Info(r.value.deposits, caller) == DepositInfo(info.deposit, true, info.stake + value, delay, 0)
            && r.value.balance == s.balance + value)
  {
  }

  /** `unlockStake`: of a locked stake, the moment of withdrawal is set; nothing else changes. */
  lemma UnlockStakeUnlocks(s: State, caller: Address, now: nat)
    requires InOrder(s)
    ensures var r := Transitions.UnlockStake(s, caller, now);
      var info := Info(s.deposits, caller);
      var due := now % U48 + info.unstakeDelaySec;
      && (r.Some? <==> StakeStatusOf(s.log, caller).Locked? && due < U48)
      && (r.Some? ==>
            && Touches(s, r.value, caller, StakeUnlocked(caller, now, due))
            && Info(r.value.deposits, caller) == info.(staked := false, withdrawTime := due)
            && r.value.balance == s.balance)
  {
    assert Shows(Info(s.deposits, caller), StakeStatusOf(s.log, caller));
  }

  /** `withdrawTo` before the receiver runs: exactly the amount leaves the deposit and the EntryPoint, and no one else's ether. */
  lemma WithdrawToPays(s: State, caller: Address, amount: nat)
    requires InOrder(s)
    ensures var r := ReleaseDeposit(s, caller, amount);
      var info := Info(s.deposits, caller);
      && (r.Some? <==> amount <= info.deposit)
      && (r.Some? ==>
            && Touches(s, r.value, caller, Withdrawn(caller, amount))
            && Info(r.value.deposits, caller) == info.(deposit := info.deposit - amount)
            && r.value.balance == s.balance - amount)
  {
    assert Fits(Info(s.deposits, caller));
    OwedCovers(s.deposits, caller);
  }

  /** `withdrawStake` before the receiver runs: the whole stake that is due leaves, the deposit stays. */
  lemma WithdrawStakePays(s: State, caller: Address, now: nat)
    requires InOrder(s)
    ensures var r := ReleaseStake(s, caller, now);
      var info := Info(s.deposits, caller);
      && (r.Some? <==> StakeStatusOf(s.log, caller).Unlocking? && info.withdrawTime <= now)
      && (r.Some? ==>
            && Touches(s, r.value, caller, StakeWithdrawn(caller, now, info.stake))
            && Info(r.value.deposits, caller) == info.(stake := 0, unstakeDelaySec := 0, withdrawTime := 0)
            && r.value.balance == s.balance - info.stake)
  {
    assert Shows(Info(s.deposits, caller), StakeStatusOf(s.log, caller));
    OwedCovers(s.deposits, caller);
  }

  /** Only the counter of one key moves, by one. */
  ghost predicate Counts(s: State, t: State, a: Address, k: Key, e: Event) {
    && (forall other: Address, key: Key :: Counter(t.counters, other, key)
          == Counter(s.counters, other, key) + (if other == a && key == k then 1 else 0))
    && t == s.(counters := t.counters, log := Then(s.log, e))
  }

  /** `incrementNonce` moves the caller's counter of that key, and `_validateAndUpdateNonce` that of the nonce's key when the nonce is the next. */
  lemma NoncesCount(s: State, a: Address, k: Key, nonce: Word)
    ensures var r := Transitions.IncrementNonce(s, a, k);
      && (r.Some? <==> Counter(s.counters, a, k) + 1 < U256)
      && (r.Some? ==> Counts(s, r.value, a, k, NonceBumped(a, k)))
    ensures var r := AcceptNonce(s, a, nonce);
      && (r.Some? <==> Counter(s.counters, a, nonce / U64) == nonce % U64)
      && (r.Some? ==> Counts(s, r.value, a, nonce / U64, NonceAccepted(a, nonce)))
  {
  }

  /** Ether that arrives by force belongs to no one. */
  lemma ForceOnlyAdds(s: State, value: nat)
    ensures var r := Transitions.Force(s, value);
      && (r.Some? <==> s.balance + value < U256)
      && (r.Some? ==> r.value == s.(balance := s.balance + value, forced := s.forced + value, log := Then(s.log, Forced(value))))
  {
  }

  /** The prefund leaves the payer's deposit and is outstanding, last in line. */
  lemma PrefundIsTaken(s: State, payer: Address, amount: nat)
    requires Narrow(s)
    ensures var r := TakePrefund(s, payer, amount);
      var info := Info(s.deposits, payer);
      && (r.Some? <==> amount <= info.deposit)
      && (r.Some? ==>
            && (forall other: Address | other != payer :: Info(r.value.deposits, other) == Info(s.deposits, other))
            && Info(r.value.deposits, payer) == info.(deposit := info.deposit - amount)
            && r.value == s.(deposits := r.value.deposits, pending := s.pending + [Prefund(payer, amount)]))
  {
    assert Fits(Info(s.deposits, payer));
  }

  // ----- foreign code

  /** What a call to foreign code leaves: its own calls take effect one after the other, unless it reverts. */
  function After(w: World, b: Block, act: Activity): World {
    var r := RunCalls(World(w.s, w.seen + [w.s]), b, act.calls);
    if act.ok then r else World(w.s, r.seen)
  }

  lemma ActivityActs(w: World, b: Block, act: Activity)
    ensures RunActivity(w, b, act) == Ran(After(w, b, act), act.ok)
  {
  }

  /** Calls act one after the other, each on what those before it left. */
  lemma {:induction false} CallsActInOrder(w: World, b: Block, calls: seq<Call>, more: seq<Call>)
    ensures RunCalls(w, b, calls + more) == RunCalls(RunCalls(w, b, calls), b, more)
    ensures RunCalls(w, b, []) == w
    decreases calls
  {
    if calls == [] {
      assert calls + more == more;
    } else {
      CallsActInOrder(RunCall(w, b, calls[0]), b, calls[1..], more);
      assert (calls + more)[1..] == calls[1..] + more && (calls + more)[0] == calls[0];
    }
  }

  lemma OneCallActs(w: World, b: Block, c: Call)
    ensures RunCalls(w, b, [c]) == RunCall(w, b, c)
  {
    assert [c][1..] == [];
    assert RunCalls(RunCall(w, b, c), b, []) == RunCall(w, b, c);
  }

  /** A call that hands control on to no one takes its step, or reverts. */
  lemma PlainCallActs(w: World, b: Block, c: Call)
    requires Plain(c)
    ensures var r := PlainStep(w.s, b, c);
      RunCall(w, b, c) == World(if r.Some? then r.value else w.s, w.seen)
  {
  }

  /** A call that sends ether runs the receiver on the storage it has already reduced; when either fails nothing stays. */
  lemma WithdrawToActs(w: World, b: Block, caller: Address, amount: nat, receiver: Activity)
    ensures RunCall(w, b, WithdrawTo(caller, amount, receiver)) == Sent(w, b, ReleaseDeposit(w.s, caller, amount), receiver)
  {
    SendingActs(w, b, ReleaseDeposit(w.s, caller, amount), receiver);
  }

  lemma WithdrawStakeActs(w: World, b: Block, caller: Address, receiver: Activity)
    ensures RunCall(w, b, WithdrawStake(caller, receiver)) == Sent(w, b, ReleaseStake(w.s, caller, b.timestamp), receiver)
  {
    SendingActs(w, b, ReleaseStake(w.s, caller, b.timestamp), receiver);
  }

  lemma SendingActs(w: World, b: Block, paid: Option<State>, receiver: Activity)
    ensures Send(w, b, paid, receiver) == Sent(w, b, paid, receiver)
  {
    if paid.Some? {
      ActivityActs(World(paid.value, w.seen), b, receiver);
    }
  }

  function Sent(w: World, b: Block, paid: Option<State>, receiver: Activity): World {
    if paid.None? then w
    else
      var r := After(World(paid.value, w.seen), b, receiver);
      if receiver.ok then r else World(w.s, r.seen)
  }

  /** A bundle inside a bundle does nothing at all. */
  lemma NestedBundleIsIdle(w: World, b: Block, batch: Batch, grouped: GroupedBatch, act: Activity)
    ensures w.s.entered ==> RunCall(w, b, HandleOps(batch)) == w && RunCall(w, b, HandleAggregatedOps(grouped)) == w
    ensures RunCall(w, b, Nested(act)) == After(w, b, act)
  {
    ActivityActs(w, b, act);
  }
}
