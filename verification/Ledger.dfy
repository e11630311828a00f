/**
 * The storage of the EntryPoint, the log of its committed steps, and the books kept over them.
 */
module Ledger {
  import opened Words

  datatype DepositInfo = DepositInfo(
    deposit: nat, staked: bool, stake: nat, unstakeDelaySec: nat, withdrawTime: nat)

  predicate Blank(info: DepositInfo) {
    info.deposit == 0 && !info.staked && info.stake == 0 && info.unstakeDelaySec == 0 && info.withdrawTime == 0
  }

  /** The record of an account that was never written: all fields are zero. */
  function NoInfo(): (info: DepositInfo)
    ensures Blank(info)
  {
    assert Blank(DepositInfo(0, false, 0, 0, 0));
    var i :| Blank(i);
    i
  }

  type Deposits = map<Address, DepositInfo>
  type Counters = map<(Address, Key), nat>

  /** What a committed step leaves behind. A step that is rolled back takes its events with it. */
  datatype Event =
    | Deposited(account: Address, amount: nat)
    | Withdrawn(account: Address, amount: nat)
    | StakeLocked(account: Address, stake: nat, delay: nat)
    | StakeUnlocked(account: Address, at: nat, withdrawTime: nat)
    | StakeWithdrawn(account: Address, at: nat, amount: nat)
    | NonceBumped(account: Address, key: Key)
    | NonceAccepted(account: Address, nonce: Word)
    | UserOperation(account: Address, paymaster: Address, nonce: Word, success: bool, cost: nat, gas: nat)
    | Compensated(beneficiary: Address, amount: nat)
    | Forced(amount: nat)

  /** The events of a run, the latest outermost. */
  datatype Log = Nothing | Then(past: Log, event: Event)

  /** A prefund taken from `payer` for an operation that is not settled yet. */
  datatype Prefund = Prefund(payer: Address, amount: nat)

  /**
   * `pending`, `fees`, `forced` and `log` are bookkeeping: the outstanding prefunds, the fees
   * collected but not paid out, the ether that arrived without a call, and the committed events.
   */
  datatype State = State(
    deposits: Deposits, counters: Counters, balance: nat, entered: bool,
    pending: seq<Prefund>, fees: nat, forced: nat, log: Log)

  const INITIAL := State(map[], map[], 0, false, [], 0, 0, Nothing)

  function Info(deposits: Deposits, a: Address): DepositInfo {
    if a in deposits then deposits[a] else NoInfo()
  }

  function Put(deposits: Deposits, a: Address, info: DepositInfo): (r: Deposits)
    ensures forall b: Address :: Info(r, b) == if b == a then info else Info(deposits, b)
  {
    deposits[a := info]
  }

  function WithDeposit(deposits: Deposits, a: Address, deposit: nat): Deposits {
    Put(deposits, a, Info(deposits, a).(deposit := deposit))
  }

  function Counter(counters: Counters, a: Address, k: Key): nat {
    if (a, k) in counters then counters[(a, k)] else 0
  }

  function KeyOf(nonce: Word): Key {
    nonce / U64
  }

  function SequenceOf(nonce: Word): nat {
    nonce % U64
  }

  // ----- sums

  function Worth(info: DepositInfo): nat {
    info.deposit + info.stake
  }

  /** Everything the EntryPoint owes to depositors and stakers. */
  ghost function Owed(deposits: Deposits): nat {
    if deposits == map[] then 0
    else
      var a :| a in deposits;
      Worth(deposits[a]) + Owed(deposits - {a})
  }

  lemma {:induction false} OwedWithout(deposits: Deposits, a: Address)
    requires a in deposits
    ensures Owed(deposits) == Worth(deposits[a]) + Owed(deposits - {a})
    decreases |deposits|
  {
    var b :| b in deposits && Owed(deposits) == Worth(deposits[b]) + Owed(deposits - {b});
    if a != b {
      OwedWithout(deposits - {b}, a);
      OwedWithout(deposits - {a}, b);
      assert deposits - {b} - {a} == deposits - {a} - {b};
    }
  }

  lemma OwedUpdated(deposits: Deposits, a: Address, info: DepositInfo)
    ensures Owed(Put(deposits, a, info)) + Worth(Info(deposits, a)) == Owed(deposits) + Worth(info)
  {
    OwedWithout(deposits[a := info], a);
    assert deposits[a := info] - {a} == deposits - {a};
    if a in deposits {
      OwedWithout(deposits, a);
    } else {
      assert deposits - {a} == deposits;
    }
  }

  lemma OwedCovers(deposits: Deposits, a: Address)
    ensures Worth(Info(deposits, a)) <= Owed(deposits)
  {
    if a in deposits {
      OwedWithout(deposits, a);
    }
  }

  function Outstanding(pending: seq<Prefund>): nat {
    if pending == [] then 0 else pending[0].amount + Outstanding(pending[1..])
  }

  function OutstandingOf(pending: seq<Prefund>, a: Address): nat {
    if pending == [] then 0
    else (if pending[0].payer == a then pending[0].amount else 0) + OutstandingOf(pending[1..], a)
  }

  lemma {:induction false} OutstandingAppended(pending: seq<Prefund>, p: Prefund)
    ensures Outstanding(pending + [p]) == Outstanding(pending) + p.amount
    ensures forall a: Address :: OutstandingOf(pending + [p], a)
                                 == OutstandingOf(pending, a) + (if p.payer == a then p.amount else 0)
  {
    if pending != [] {
      OutstandingAppended(pending[1..], p);
      assert (pending + [p])[1..] == pending[1..] + [p];
    } else {
      assert [p][1..] == [];
    }
  }

  // ----- what the log says

  /** Deposits minus withdrawals that `a` was party to. */
  function Moved(log: Log, a: Address): int {
    match log
    case Nothing => 0
    case Then(past, e) => Moved(past, a) + Move(e, a)
  }

  function Move(e: Event, a: Address): int {
    if e.Withdrawn? && e.account == a then 0 - e.amount
    else if e.Deposited? && e.account == a then e.amount
    else 0
  }

  function PayerOf(e: Event): Address
    requires e.UserOperation?
  {
    if e.paymaster == 0 then e.account else e.paymaster
  }

  function Charge(e: Event, a: Address): nat {
    if e.UserOperation? && PayerOf(e) == a then e.cost else 0
  }

  /** Gas costs that `a` was charged. */
  function Charged(log: Log, a: Address): nat {
    match log
    case Nothing => 0
    case Then(past, e) => Charged(past, a) + Charge(e, a)
  }

  /** The events that only a bundle leaves: accepted nonces, settled operations and pay-outs. */
  function Marks(log: Log): seq<Event> {
    match log
    case Nothing => []
    case Then(past, e) =>
      if e.NonceAccepted? || e.UserOperation? || e.Compensated? then Marks(past) + [e] else Marks(past)
  }

  /** How often the counter of (a, k) was moved. */
  function Moves(log: Log, a: Address, k: Key): nat {
    match log
    case Nothing => 0
    case Then(past, e) =>
      Moves(past, a, k) + (
        if || (e.NonceAccepted? && e.account == a && KeyOf(e.nonce) == k)
           || (e.NonceBumped? && e.account == a && e.key == k)
        then 1 else 0)
  }

  /** Every accepted nonce carries the number of moves its counter made before. */
  predicate Numbered(log: Log) {
    match log
    case Nothing => true
    case Then(past, e) =>
      Numbered(past) && (e.NonceAccepted? ==> SequenceOf(e.nonce) == Moves(past, e.account, KeyOf(e.nonce)))
  }

  datatype StakeStatus =
    | Unstaked
    | Locked(stake: nat, delay: nat)
    | Unlocking(stake: nat, delay: nat, withdrawTime: nat)

  function StakeStatusOf(log: Log, a: Address): StakeStatus {
    match log
    case Nothing => Unstaked
    case Then(past, e) =>
      var before := StakeStatusOf(past, a);
      if e.StakeLocked? && e.account == a then Locked(e.stake, e.delay)
      else if e.StakeUnlocked? && e.account == a && before.Locked? then
        Unlocking(before.stake, before.delay, e.withdrawTime)
      else if e.StakeWithdrawn? && e.account == a then Unstaked
      else before
  }

  function HeldStake(status: StakeStatus): nat {
    if status.Unstaked? then 0 else status.stake
  }

  /** The ether that came in with an event, less what went out. */
  function Flow(past: Log, e: Event): int {
    match e
    case Deposited(_, amount) => amount
    case StakeLocked(account, stake, _) => stake - HeldStake(StakeStatusOf(past, account))
    case Forced(amount) => amount
    case Withdrawn(_, amount) => 0 - amount
    case StakeWithdrawn(_, _, amount) => 0 - amount
    case Compensated(_, amount) => 0 - amount
    case _ => 0
  }

  function NetFlow(log: Log): int {
    match log
    case Nothing => 0
    case Then(past, e) => NetFlow(past) + Flow(past, e)
  }

  function TotalForced(log: Log): nat {
    match log
    case Nothing => 0
    case Then(past, e) => TotalForced(past) + (if e.Forced? then e.amount else 0)
  }

  /** What the log may say about stakes: each event fits the status its account had. */
  predicate Orderly(log: Log) {
    match log
    case Nothing => true
    case Then(past, e) =>
      && Orderly(past)
      && (e.StakeLocked? ==>
            var before := StakeStatusOf(past, e.account);
            e.stake > 0 && e.delay > 0 && (before.Unstaked? || (before.stake <= e.stake && before.delay <= e.delay)))
      && (e.StakeUnlocked? ==>
            var before := StakeStatusOf(past, e.account);
            before.Locked? && e.withdrawTime == e.at % U48 + before.delay)
      && (e.StakeWithdrawn? ==>
            var before := StakeStatusOf(past, e.account);
            before.Unlocking? && before.stake == e.amount && before.withdrawTime <= e.at)
  }

  /** A stored record is one of exactly three shapes. */
  predicate Shows(info: DepositInfo, status: StakeStatus) {
    match status
    case Unstaked => !info.staked && info.stake == 0 && info.unstakeDelaySec == 0 && info.withdrawTime == 0
    case Locked(stake, delay) =>
      info.staked && info.stake == stake > 0 && info.unstakeDelaySec == delay > 0 && info.withdrawTime == 0
    case Unlocking(stake, delay, withdrawTime) =>
      && !info.staked && info.stake == stake > 0
      && info.unstakeDelaySec == delay > 0 && info.withdrawTime == withdrawTime > 0
  }

  // ----- the books

  /** The EntryPoint holds, to the wei, what it owes. */
  ghost predicate Solvent(s: State) {
    && s.balance == Owed(s.deposits) + Outstanding(s.pending) + s.fees + s.forced
    && s.balance < U256
  }

  /** Each deposit is what its account moved in and out, minus its charges and its outstanding prefunds. */
  ghost predicate Accounted(s: State) {
    forall a: Address :: Info(s.deposits, a).deposit + OutstandingOf(s.pending, a) + Charged(s.log, a)
                         == Moved(s.log, a)
  }

  ghost predicate Sequenced(s: State) {
    && (forall a: Address, k: Key :: Counter(s.counters, a, k) == Moves(s.log, a, k))
    && Numbered(s.log)
  }

  ghost predicate StakesShown(s: State) {
    && (forall a: Address :: Shows(Info(s.deposits, a), StakeStatusOf(s.log, a)))
    && Orderly(s.log)
  }

  predicate Fits(info: DepositInfo) {
    info.deposit < U112 && info.stake < U112 && info.unstakeDelaySec < U32 && info.withdrawTime < U48
  }

  /** Every field is inside its declared width. */
  ghost predicate Narrow(s: State) {
    forall a: Address :: Fits(Info(s.deposits, a))
  }

  /** Nothing is outstanding unless a bundle is under way. */
  predicate Guarded(s: State) {
    !s.entered ==> s.pending == [] && s.fees == 0
  }

  /** The ether held is what the log says came in less what it says went out; only forced ether counts as forced. */
  predicate Traced(s: State) {
    s.balance == NetFlow(s.log) && s.forced == TotalForced(s.log)
  }

  ghost predicate InOrder(s: State) {
    Solvent(s) && Traced(s) && Accounted(s) && Sequenced(s) && StakesShown(s) && Narrow(s) && Guarded(s)
  }

  lemma InitialInOrder(s: State)
    requires s == INITIAL
    ensures InOrder(s)
  {
    assert Owed(s.deposits) == 0;
    assert Accounted(s) && Sequenced(s) && StakesShown(s) && Narrow(s);
  }
}
