/** What the books mean for depositors, bundlers and accounts, over every run. */
module EntryPointTheorems {
  import opened Words
  import opened Ledger
  import opened Transitions
  import opened EntryPointSpec
  import opened EntryPointInvariant
  import V = ValidationWords

  // ----- runs

  /** A transaction: foreign code that starts to run in some block. */
  datatype Transaction = Transaction(block: Block, activity: Activity)

  function Run(w: World, txs: seq<Transaction>): World
    decreases txs
  {
    if txs == [] then w else Run(RunActivity(w, txs[0].block, txs[0].activity).w, txs[1..])
  }

  lemma {:induction false} RunKeeps(w: World, txs: seq<Transaction>)
    requires Sound(w)
    ensures Sound(Run(w, txs)) && Quiet(w.s, Run(w, txs).s)
    decreases txs
  {
    if txs != [] {
      RunActivityKeeps(w, txs[0].block, txs[0].activity);
      RunKeeps(RunActivity(w, txs[0].block, txs[0].activity).w, txs[1..]);
    }
  }

  /** The states a run of transactions passes through: whenever foreign code gets control, and at the end. */
  function StatesOf(txs: seq<Transaction>): seq<State> {
    var w := Run(DEPLOYED, txs);
    w.seen + [w.s]
  }

  const DEPLOYED := World(INITIAL, [])

  lemma DeployedSound(w: World)
    requires w == DEPLOYED
    ensures Sound(w)
  {
    InitialInOrder(w.s);
  }

  lemma RunFromDeployment(w: World, txs: seq<Transaction>)
    requires w == DEPLOYED
    ensures forall s | s in Run(w, txs).seen + [Run(w, txs).s] :: InOrder(s)
  {
    DeployedSound(w);
    RunKeeps(w, txs);
  }

  /**
   * In every run from deployment, at every point where foreign code has control (inside bundles too, and
   * inside calls that are rolled back later), the books are in order.
   */
  lemma EveryRunInOrder(txs: seq<Transaction>)
    ensures forall s | s in StatesOf(txs) :: InOrder(s)
  {
    RunFromDeployment(DEPLOYED, txs);
  }

  /** The ether held covers all deposits and stakes, the outstanding prefunds and the unpaid fees, at every such point. */
  lemma EveryRunSolvent(txs: seq<Transaction>)
    ensures forall s | s in StatesOf(txs) ::
      s.balance >= Owed(s.deposits) + Outstanding(s.pending) + s.fees
  {
    EveryRunInOrder(txs);
  }

  /** At every such point the ether held is, by the log, what came in less what was paid out; no other ether counts as forced. */
  lemma EveryRunTraced(txs: seq<Transaction>)
    ensures forall s | s in StatesOf(txs) :: s.balance == NetFlow(s.log) && s.forced == TotalForced(s.log)
  {
    EveryRunInOrder(txs);
  }

  /** A depositor can take out any part of the deposit, and a staker the whole stake once it is due: ether is never the obstacle. */
  lemma ClaimsAreFunded(s: State, a: Address, amount: nat, now: nat)
    requires InOrder(s)
    ensures ReleaseDeposit(s, a, amount).Some? <==> amount <= Info(s.deposits, a).deposit
    ensures ReleaseStake(s, a, now).Some?
       <==> StakeStatusOf(s.log, a).Unlocking? && StakeStatusOf(s.log, a).withdrawTime <= now
  {
    OwedCovers(s.deposits, a);
  }

  // ----- one bundle

  /**
   * A top-level `handleOps` either leaves the storage as it was, or leaves the marks of a completed bundle:
   * every nonce accepted once and in order before anything is settled, every operation settled once and in
   * order at a cost within its prefund, and the beneficiary paid exactly the sum of the costs.
   */
  lemma HandleOpsOutcome(w: World, b: Block, batch: Batch) returns (events: seq<Event>)
    requires Sound(w) && !w.s.entered
    ensures var w1 := RunCall(w, b, HandleOps(batch));
      && Sound(w1)
      && (|| w1.s == w.s
          || BundleMarks(w.s, w1.s, batch.runs, events, b.basefee, batch.beneficiary))
  {
    EnterKeeps(w);
    events := BundleKeeps(Enter(w), b, batch);
    LeaveKeeps(w, Bundle(Enter(w), b, batch));
  }

  /** The same for `handleAggregatedOps`, over the concatenation of its groups. */
  lemma HandleAggregatedOpsOutcome(w: World, b: Block, batch: GroupedBatch) returns (events: seq<Event>)
    requires Sound(w) && !w.s.entered
    ensures var w1 := RunCall(w, b, HandleAggregatedOps(batch));
      && Sound(w1)
      && (|| w1.s == w.s
          || BundleMarks(w.s, w1.s, Flatten(batch.groups), events, b.basefee, batch.beneficiary))
  {
    EnterKeeps(w);
    events := GroupedBundleKeeps(Enter(w), b, batch);
    LeaveKeeps(w, GroupedBundle(Enter(w), b, batch));
  }

  function ChargesTo(events: seq<Event>, a: Address): nat {
    if events == [] then 0 else Charge(events[0], a) + ChargesTo(events[1..], a)
  }

  lemma {:induction false} ChargesAppend(events: seq<Event>, more: seq<Event>, a: Address)
    ensures ChargesTo(events + more, a) == ChargesTo(events, a) + ChargesTo(more, a)
  {
    if events == [] {
      assert events + more == more;
    } else {
      ChargesAppend(events[1..], more, a);
      assert (events + more)[1..] == events[1..] + more;
    }
  }

  /** Charges are exactly what the marks of a log charge. */
  lemma {:induction false} ChargedByMarks(log: Log, a: Address)
    ensures Charged(log, a) == ChargesTo(Marks(log), a)
  {
    if log.Then? {
      ChargedByMarks(log.past, a);
      ChargesAppend(Marks(log.past), [log.event], a);
      assert [log.event][1..] == [];
    }
  }

  lemma {:induction false} AcceptancesAreFree(runs: seq<OpRun>, a: Address)
    ensures ChargesTo(AcceptancesOf(runs), a) == 0
  {
    if runs != [] {
      AcceptancesAreFree(runs[1..], a);
      ChargesAppend([AcceptanceOf(runs[0].op)], AcceptancesOf(runs[1..]), a);
    }
  }

  /**
   * After a completed bundle every account's deposit has changed by exactly what it moved in and out itself
   * meanwhile, minus the costs of the operations it paid for.
   */
  lemma BundleCharges(s: State, t: State, runs: seq<OpRun>, events: seq<Event>, basefee: Word, beneficiary: Address, a: Address)
    requires InOrder(s) && InOrder(t) && !s.entered && !t.entered
    requires BundleMarks(s, t, runs, events, basefee, beneficiary)
    ensures Info(t.deposits, a).deposit
         == Info(s.deposits, a).deposit + (Moved(t.log, a) - Moved(s.log, a)) - ChargesTo(events, a)
  {
    var pay := [Compensated(beneficiary, TotalCost(events))];
    ChargedByMarks(s.log, a);
    ChargedByMarks(t.log, a);
    ChargesAppend(Marks(s.log) + AcceptancesOf(runs) + events, pay, a);
    ChargesAppend(Marks(s.log) + AcceptancesOf(runs), events, a);
    ChargesAppend(Marks(s.log), AcceptancesOf(runs), a);
    AcceptancesAreFree(runs, a);
    assert pay[1..] == [] && ChargesTo(pay, a) == 0;
  }

  // ----- nonces

  /** Accepted nonces lie below the counter of their key. */
  lemma {:induction false} AcceptedBelow(log: Log, e: Event)
    requires Numbered(log) && e in Marks(log) && e.NonceAccepted?
    ensures SequenceOf(e.nonce) < Moves(log, e.account, KeyOf(e.nonce))
  {
    if log.event != e {
      AcceptedBelow(log.past, e);
    }
  }

  /** No account ever has the same nonce accepted twice. */
  lemma {:induction false} NoReplay(log: Log, i: nat, j: nat)
    requires Numbered(log) && i < j < |Marks(log)|
    requires Marks(log)[i].NonceAccepted? && Marks(log)[j].NonceAccepted?
    ensures (Marks(log)[i].account, Marks(log)[i].nonce) != (Marks(log)[j].account, Marks(log)[j].nonce)
  {
    var past := log.past;
    if j < |Marks(past)| {
      NoReplay(past, i, j);
    } else {
      AcceptedBelow(past, Marks(log)[i]);
    }
  }

  /** No run of transactions accepts a (sender, nonce) pair twice. */
  lemma NoReplayInAnyRun(txs: seq<Transaction>, i: nat, j: nat)
    requires var marks := Marks(Run(DEPLOYED, txs).s.log);
      i < j < |marks| && marks[i].NonceAccepted? && marks[j].NonceAccepted?
    ensures var marks := Marks(Run(DEPLOYED, txs).s.log);
      (marks[i].account, marks[i].nonce) != (marks[j].account, marks[j].nonce)
  {
    EveryRunInOrder(txs);
    var w := Run(DEPLOYED, txs);
    assert w.s in StatesOf(txs);
    NoReplay(w.s.log, i, j);
  }

  /** The steps of one counter, oldest first: accepted nonces and manual increments. */
  function StepsOf(log: Log, a: Address, k: Key): seq<Event> {
    match log
    case Nothing => []
    case Then(past, e) =>
      if || (e.NonceAccepted? && e.account == a && KeyOf(e.nonce) == k)
         || (e.NonceBumped? && e.account == a && e.key == k)
      then StepsOf(past, a, k) + [e]
      else StepsOf(past, a, k)
  }

  lemma {:induction false} NumberedByPlace(log: Log, a: Address, k: Key)
    requires Numbered(log)
    ensures var steps := StepsOf(log, a, k);
      && |steps| == Moves(log, a, k)
      && forall i | 0 <= i < |steps| && steps[i].NonceAccepted? ::
           steps[i].account == a && KeyOf(steps[i].nonce) == k && SequenceOf(steps[i].nonce) == i
  {
    if log.Then? {
      NumberedByPlace(log.past, a, k);
    }
  }

  /**
   * In every run an accepted nonce carries, as its sequence number, how many nonces of its key were accepted before
   * it plus how many manual increments were made before it: its place among the steps of the counter. So the numbers
   * are consecutive but for manual increments, and the counter stands at the number of steps made.
   */
  lemma AcceptedInSequence(txs: seq<Transaction>, a: Address, k: Key)
    ensures var s := Run(DEPLOYED, txs).s;
      var steps := StepsOf(s.log, a, k);
      && Counter(s.counters, a, k) == |steps|
      && forall i | 0 <= i < |steps| && steps[i].NonceAccepted? ::
           steps[i].account == a && KeyOf(steps[i].nonce) == k && SequenceOf(steps[i].nonce) == i
  {
    EveryRunInOrder(txs);
    var w := Run(DEPLOYED, txs);
    assert w.s in StatesOf(txs);
    NumberedByPlace(w.s.log, a, k);
  }

  /** `getNonce` names the next nonce its key accepts, exactly while the counter is below 2^64. */
  lemma GetNonceIsNext(s: State, a: Address, k: Key)
    requires Counter(s.counters, a, k) < U256
    ensures (var n := GetNonce(s, a, k);
             n < U256 && KeyOf(n) == k && SequenceOf(n) == Counter(s.counters, a, k))
       <==> Counter(s.counters, a, k) < U64
    ensures Counter(s.counters, a, k) < U64 ==> AcceptNonce(s, a, GetNonce(s, a, k)).Some?
  {
    var c := Counter(s.counters, a, k);
    PowersOfTwo();
    if c < U64 {
      OrShifted(c, k, 64);
      assert (c + k * U64) / U64 == k && (c + k * U64) % U64 == c;
    }
  }

  /** Once a counter has reached 2^64 its key accepts no nonce any more. */
  lemma ExhaustedKey(s: State, a: Address, nonce: Word)
    ensures AcceptNonce(s, a, nonce).Some? ==> Counter(s.counters, a, KeyOf(nonce)) < U64
  {
  }

  // ----- stakes

  predicate StakeEvent(e: Event, a: Address) {
    (e.StakeLocked? || e.StakeUnlocked? || e.StakeWithdrawn?) && e.account == a
  }

  /** What happened to one account's stake, oldest first. */
  function StakeEvents(log: Log, a: Address): seq<Event> {
    match log
    case Nothing => []
    case Then(past, e) => if StakeEvent(e, a) then StakeEvents(past, a) + [e] else StakeEvents(past, a)
  }

  /** The `i`-th of them fits those before it. */
  predicate Fitting(es: seq<Event>, i: nat)
    requires i < |es|
  {
    match es[i]
    case StakeLocked(_, stake, delay) =>
      stake > 0 && delay > 0 && (HeldBefore(es, i) ==> LockBefore(es, i).stake <= stake && LockBefore(es, i).delay <= delay)
    case StakeUnlocked(_, at, withdrawTime) =>
      i >= 1 && es[i - 1].StakeLocked? && withdrawTime == at % U48 + es[i - 1].delay
    case StakeWithdrawn(_, at, amount) =>
      && i >= 2 && es[i - 1].StakeUnlocked? && es[i - 2].StakeLocked?
      && amount == es[i - 2].stake && at >= es[i - 1].withdrawTime
    case _ => false
  }

  /** A stake is held, locked or unlocking, after the first `i` events. */
  predicate HeldBefore(es: seq<Event>, i: nat)
    requires i <= |es|
  {
    i >= 1 && (es[i - 1].StakeLocked? || (i >= 2 && es[i - 1].StakeUnlocked? && es[i - 2].StakeLocked?))
  }

  function LockBefore(es: seq<Event>, i: nat): (e: Event)
    requires i <= |es| && HeldBefore(es, i)
    ensures e.StakeLocked?
  {
    if es[i - 1].StakeLocked? then es[i - 1] else es[i - 2]
  }

  /** The status that a list of stake events leads to. */
  function StatusAfter(es: seq<Event>): StakeStatus {
    if !HeldBefore(es, |es|) then Unstaked
    else
      var lock := LockBefore(es, |es|);
      if es[|es| - 1].StakeLocked? then Locked(lock.stake, lock.delay)
      else Unlocking(lock.stake, lock.delay, es[|es| - 1].withdrawTime)
  }

  lemma FittingAppended(es: seq<Event>, e: Event)
    requires forall i | 0 <= i < |es| :: Fitting(es, i)
    requires Fitting(es + [e], |es|)
    ensures forall i | 0 <= i < |es| + 1 :: Fitting(es + [e], i)
  {
    forall i | 0 <= i < |es|
      ensures Fitting(es + [e], i)
    {
      assert Fitting(es, i);
    }
  }

  lemma {:induction false} StakeHistory(log: Log, a: Address)
    requires Orderly(log)
    ensures forall i | 0 <= i < |StakeEvents(log, a)| :: Fitting(StakeEvents(log, a), i)
    ensures StatusAfter(StakeEvents(log, a)) == StakeStatusOf(log, a)
  {
    match log
    case Nothing =>
    case Then(past, e) =>
      StakeHistory(past, a);
      if StakeEvent(e, a) {
        FittingAppended(StakeEvents(past, a), e);
      }
  }

  /**
   * In every run, each withdrawal of a stake comes right after an `unlockStake` of that account, with no `addStake`
   * in between, and that right after the `addStake` that set the stake and the delay; what is paid is that stake,
   * and that delay has passed since the unlocking.
   */
  lemma WithdrawnStakeWasUnlocked(txs: seq<Transaction>, a: Address, i: nat)
    requires var es := StakeEvents(Run(DEPLOYED, txs).s.log, a); i < |es| && es[i].StakeWithdrawn?
    ensures var es := StakeEvents(Run(DEPLOYED, txs).s.log, a);
      && i >= 2 && es[i - 1].StakeUnlocked? && es[i - 2].StakeLocked?
      && es[i].amount == es[i - 2].stake
      && es[i].at >= es[i - 1].at % U48 + es[i - 2].delay
      && (es[i - 1].at < U48 ==> es[i].at >= es[i - 1].at + es[i - 2].delay)
  {
    EveryRunInOrder(txs);
    var w := Run(DEPLOYED, txs);
    assert w.s in StatesOf(txs);
    StakeHistory(w.s.log, a);
    assert Fitting(StakeEvents(w.s.log, a), i) && Fitting(StakeEvents(w.s.log, a), i - 1);
  }

  /**
   * The delay is enforced exactly for stakes unlocked before 2^48: one unlocked later is due at once,
   * because the clock was narrowed to 48 bits.
   */
  lemma DelayEnforced(s: State, caller: Address, at: nat)
    requires InOrder(s) && Transitions.UnlockStake(s, caller, at).Some?
    ensures (forall now: nat | now >= at :: ReleaseStake(Transitions.UnlockStake(s, caller, at).value, caller, now).Some?
               ==> now >= at + Info(s.deposits, caller).unstakeDelaySec)
       <==> at < U48
  {
    var t := Transitions.UnlockStake(s, caller, at).value;
    UnlockStakeKeeps(s, caller, at);
    ClaimsAreFunded(t, caller, 0, at);
    if at >= U48 {
      assert ReleaseStake(t, caller, at).Some?;
    }
  }

  /** `log` goes on from `past` without a withdrawal of the stake of `a`. */
  predicate HeldSince(past: Log, log: Log, a: Address)
    decreases log
  {
    log == past || (log.Then? && !(log.event.StakeWithdrawn? && log.event.account == a) && HeldSince(past, log.past, a))
  }

  lemma {:induction false} HeldStakeGrows(past: Log, log: Log, a: Address)
    requires Orderly(log) && HeldSince(past, log, a) && !StakeStatusOf(past, a).Unstaked?
    ensures !StakeStatusOf(log, a).Unstaked?
    ensures StakeStatusOf(past, a).delay <= StakeStatusOf(log, a).delay
    ensures StakeStatusOf(past, a).stake <= StakeStatusOf(log, a).stake
    decreases log
  {
    if log != past {
      HeldStakeGrows(past, log.past, a);
    }
  }

  /**
   * Between any two points of any run, inside bundles and calls that are undone later too, a stake that was not
   * withdrawn in between has neither shrunk nor got a shorter delay.
   */
  lemma StakeOnlyGrows(txs: seq<Transaction>, s: State, t: State, a: Address)
    requires s in StatesOf(txs) && t in StatesOf(txs) && HeldSince(s.log, t.log, a)
    requires Info(s.deposits, a).stake > 0
    ensures Info(t.deposits, a).stake >= Info(s.deposits, a).stake
    ensures Info(t.deposits, a).unstakeDelaySec >= Info(s.deposits, a).unstakeDelaySec > 0
  {
    EveryRunInOrder(txs);
    assert Shows(Info(s.deposits, a), StakeStatusOf(s.log, a)) && Shows(Info(t.deposits, a), StakeStatusOf(t.log, a));
    HeldStakeGrows(s.log, t.log, a);
  }
}
