/**
 * The atomic steps of the EntryPoint's storage (StakeManager, NonceManager and the accounting inside
 * EntryPoint). `None` is a revert.
 */
module Transitions {
  import opened Words
  import opened Ledger

  datatype Option<+T> = None | Some(value: T)

  function Record(s: State, e: Event): State {
    s.(log := Then(s.log, e))
  }

  /** `_incrementDeposit`: checked addition, then the narrowing to 112 bits, which loses nothing. */
  function IncrementDeposit(deposits: Deposits, a: Address, amount: nat): (r: Option<Deposits>)
    ensures r.None? <==> Info(deposits, a).deposit + amount >= U112
    ensures r.Some? ==> r.value == WithDeposit(deposits, a, Info(deposits, a).deposit + amount)
  {
    var sum := Info(deposits, a).deposit + amount;
    if sum >= U112 then None else Some(WithDeposit(deposits, a, Truncate(sum, U112)))
  }

  /** The narrowing `uint112(deposit - amount)` of a deposit that covers `amount`. */
  function DecrementDeposit(deposits: Deposits, a: Address, amount: nat): (r: Deposits)
    requires amount <= Info(deposits, a).deposit
    ensures Info(deposits, a).deposit < U112 ==> r == WithDeposit(deposits, a, Info(deposits, a).deposit - amount)
  {
    WithDeposit(deposits, a, Truncate(Info(deposits, a).deposit - amount, U112))
  }

  /** Ether of a payable call has arrived before the callee's code runs. */
  function Receive(s: State, value: nat): Option<State> {
    if s.balance + value >= U256 then None else Some(s.(balance := s.balance + value))
  }

  function DepositTo(s: State, account: Address, value: nat): Option<State> {
    match Receive(s, value)
    case None => None
    case Some(s1) =>
      match IncrementDeposit(s1.deposits, account, value)
      case None => None
      case Some(deposits) => Some(Record(s1.(deposits := deposits), Deposited(account, value)))
  }

  function AddStake(s: State, caller: Address, delay: nat, value: nat): Option<State>
    requires delay < U32
  {
    match Receive(s, value)
    case None => None
    case Some(s1) =>
      var info := Info(s1.deposits, caller);
      var stake := info.stake + value;
      if delay == 0 || delay < info.unstakeDelaySec || stake == 0 || stake >= U112 then None
      else
        Some(Record(s1.(deposits := Put(s1.deposits, caller, DepositInfo(info.deposit, true, Truncate(stake, U112), delay, 0))),
                    StakeLocked(caller, stake, delay)))
  }

  function UnlockStake(s: State, caller: Address, now: nat): Option<State> {
    var info := Info(s.deposits, caller);
    var withdrawTime := now % U48 + info.unstakeDelaySec;
    if info.unstakeDelaySec == 0 || !info.staked || withdrawTime >= U48 then None
    else
      Some(Record(s.(deposits := Put(s.deposits, caller, info.(withdrawTime := withdrawTime, staked := false))),
                  StakeUnlocked(caller, now, withdrawTime)))
  }

  /** The part of `withdrawStake` before the callee runs: the record is cleared and the stake sent. */
  function ReleaseStake(s: State, caller: Address, now: nat): Option<State> {
    var info := Info(s.deposits, caller);
    if info.stake == 0 || info.withdrawTime == 0 || info.withdrawTime > now || s.balance < info.stake then None
    else
      var cleared := info.(unstakeDelaySec := 0, withdrawTime := 0, stake := 0);
      Some(Record(s.(deposits := Put(s.deposits, caller, cleared), balance := s.balance - info.stake),
                  StakeWithdrawn(caller, now, info.stake)))
  }

  /** The part of `withdrawTo` before the callee runs. */
  function ReleaseDeposit(s: State, caller: Address, amount: nat): Option<State> {
    if amount > Info(s.deposits, caller).deposit || s.balance < amount then None
    else
      Some(Record(s.(deposits := DecrementDeposit(s.deposits, caller, amount), balance := s.balance - amount),
                  Withdrawn(caller, amount)))
  }

  function IncrementNonce(s: State, caller: Address, key: Key): Option<State> {
    var count := Counter(s.counters, caller, key);
    if count + 1 >= U256 then None
    else Some(Record(s.(counters := s.counters[(caller, key) := count + 1]), NonceBumped(caller, key)))
  }

  /** `_validateAndUpdateNonce`: a mismatch fails the bundle, so only a match leaves a state behind. */
  function AcceptNonce(s: State, sender: Address, nonce: Word): Option<State> {
    var key := KeyOf(nonce);
    var count := Counter(s.counters, sender, key);
    if count != SequenceOf(nonce) then None
    else Some(Record(s.(counters := s.counters[(sender, key) := count + 1]), NonceAccepted(sender, nonce)))
  }

  /** `getNonce`. */
  function GetNonce(s: State, sender: Address, key: Key): nat {
    Or(Counter(s.counters, sender, key), key * U64)
  }

  /** Ether that arrives without running the EntryPoint's code. */
  function Force(s: State, value: nat): Option<State> {
    match Receive(s, value)
    case None => None
    case Some(s1) => Some(Record(s1.(forced := s1.forced + value), Forced(value)))
  }

  function TakePrefund(s: State, payer: Address, amount: nat): Option<State> {
    if amount > Info(s.deposits, payer).deposit then None
    else
      Some(s.(deposits := DecrementDeposit(s.deposits, payer, amount), pending := s.pending + [Prefund(payer, amount)]))
  }

  /** The refund and the fee of one operation: its prefund is the oldest one outstanding. */
  function Settle(s: State, refundTo: Address, refund: nat, e: Event): Option<State>
    requires e.UserOperation?
  {
    match IncrementDeposit(s.deposits, refundTo, refund)
    case None => None
    case Some(deposits) =>
      var rest := if s.pending == [] then [] else s.pending[1..];
      Some(Record(s.(deposits := deposits, pending := rest, fees := s.fees + e.cost), e))
  }

  /** The part of `_compensate` before the beneficiary runs. */
  function PayOut(s: State, beneficiary: Address, amount: nat): Option<State> {
    if s.balance < amount then None
    else
      Some(Record(s.(balance := s.balance - amount, fees := if s.fees < amount then 0 else s.fees - amount),
                  Compensated(beneficiary, amount)))
  }

  // ----- every step keeps the books

  lemma SolventAfterPut(s: State, t: State, a: Address, info: DepositInfo)
    requires Solvent(s)
    requires t.deposits == Put(s.deposits, a, info) && t.balance < U256
    requires t.balance + Worth(Info(s.deposits, a)) + Outstanding(s.pending) + s.fees + s.forced
          == s.balance + Worth(info) + Outstanding(t.pending) + t.fees + t.forced
    ensures Solvent(t)
  {
    OwedUpdated(s.deposits, a, info);
  }

  lemma DepositToKeeps(s: State, account: Address, value: nat)
    requires InOrder(s) && DepositTo(s, account, value).Some?
    ensures InOrder(DepositTo(s, account, value).value)
  {
    var t := DepositTo(s, account, value).value;
    SolventAfterPut(s, t, account, Info(t.deposits, account));
  }

  lemma AddStakeKeeps(s: State, caller: Address, delay: nat, value: nat)
    requires delay < U32
    requires InOrder(s) && AddStake(s, caller, delay, value).Some?
    ensures InOrder(AddStake(s, caller, delay, value).value)
  {
    var t := AddStake(s, caller, delay, value).value;
    SolventAfterPut(s, t, caller, Info(t.deposits, caller));
  }

  lemma UnlockStakeKeeps(s: State, caller: Address, now: nat)
    requires InOrder(s) && UnlockStake(s, caller, now).Some?
    ensures InOrder(UnlockStake(s, caller, now).value)
  {
    var t := UnlockStake(s, caller, now).value;
    SolventAfterPut(s, t, caller, Info(t.deposits, caller));
  }

  lemma ReleaseStakeKeeps(s: State, caller: Address, now: nat)
    requires InOrder(s) && ReleaseStake(s, caller, now).Some?
    ensures InOrder(ReleaseStake(s, caller, now).value)
  {
    var t := ReleaseStake(s, caller, now).value;
    SolventAfterPut(s, t, caller, Info(t.deposits, caller));
  }

  lemma ReleaseDepositKeeps(s: State, caller: Address, amount: nat)
    requires InOrder(s) && ReleaseDeposit(s, caller, amount).Some?
    ensures InOrder(ReleaseDeposit(s, caller, amount).value)
  {
    var t := ReleaseDeposit(s, caller, amount).value;
    SolventAfterPut(s, t, caller, Info(t.deposits, caller));
  }

  lemma IncrementNonceKeeps(s: State, caller: Address, key: Key)
    requires InOrder(s) && IncrementNonce(s, caller, key).Some?
    ensures InOrder(IncrementNonce(s, caller, key).value)
  {
  }

  lemma AcceptNonceKeeps(s: State, sender: Address, nonce: Word)
    requires InOrder(s) && AcceptNonce(s, sender, nonce).Some?
    ensures InOrder(AcceptNonce(s, sender, nonce).value)
  {
  }

  lemma ForceKeeps(s: State, value: nat)
    requires InOrder(s) && Force(s, value).Some?
    ensures InOrder(Force(s, value).value)
  {
  }

  lemma TakePrefundKeeps(s: State, payer: Address, amount: nat)
    requires InOrder(s) && s.entered && TakePrefund(s, payer, amount).Some?
    ensures InOrder(TakePrefund(s, payer, amount).value)
  {
    var t := TakePrefund(s, payer, amount).value;
    OutstandingAppended(s.pending, Prefund(payer, amount));
    SolventAfterPut(s, t, payer, Info(t.deposits, payer));
  }

  /** The prefund that is settled is the oldest one, and cost and refund make it up. */
  lemma SettleKeeps(s: State, refundTo: Address, refund: nat, e: Event)
    requires e.UserOperation? && PayerOf(e) == refundTo
    requires InOrder(s) && s.entered && Settle(s, refundTo, refund, e).Some?
    requires s.pending != [] && s.pending[0] == Prefund(refundTo, e.cost + refund)
    ensures InOrder(Settle(s, refundTo, refund, e).value)
  {
    var t := Settle(s, refundTo, refund, e).value;
    SolventAfterPut(s, t, refundTo, Info(t.deposits, refundTo));
  }

  lemma PayOutKeeps(s: State, beneficiary: Address, amount: nat)
    requires InOrder(s) && s.entered && s.fees == amount && PayOut(s, beneficiary, amount).Some?
    ensures InOrder(PayOut(s, beneficiary, amount).value)
  {
  }
}
