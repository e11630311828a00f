/** Conservation over all accounts together: the sum of all deposits. */
module EntryPointTotals {
  import opened Words
  import opened Ledger
  import opened EntryPointSpec
  import opened EntryPointInvariant
  import opened EntryPointTheorems

  // ----- sums over finite sets of accounts

  ghost function SumOver(accounts: set<Address>, f: Address -> int): int {
    if accounts == {} then 0
    else
      var a :| a in accounts;
      f(a) + SumOver(accounts - {a}, f)
  }

  lemma {:induction false} SumWithout(accounts: set<Address>, f: Address -> int, a: Address)
    requires a in accounts
    ensures SumOver(accounts, f) == f(a) + SumOver(accounts - {a}, f)
    decreases accounts
  {
    var b :| b in accounts && SumOver(accounts, f) == f(b) + SumOver(accounts - {b}, f);
    if a != b {
      SumWithout(accounts - {b}, f, a);
      SumWithout(accounts - {a}, f, b);
      assert accounts - {b} - {a} == accounts - {a} - {b};
    }
  }

  /** Sums add up account by account. */
  lemma {:induction false} SumAdds(accounts: set<Address>, f: Address -> int, g: Address -> int, h: Address -> int)
    requires forall a | a in accounts :: h(a) == f(a) + g(a)
    ensures SumOver(accounts, h) == SumOver(accounts, f) + SumOver(accounts, g)
    decreases accounts
  {
    if accounts != {} {
      var a :| a in accounts;
      SumWithout(accounts, f, a);
      SumWithout(accounts, g, a);
      SumWithout(accounts, h, a);
      SumAdds(accounts - {a}, f, g, h);
    }
  }

  /** Accounts that contribute nothing may be left out. */
  lemma {:induction false} SumIgnores(accounts: set<Address>, more: set<Address>, f: Address -> int)
    requires accounts <= more && forall a | a in more && a !in accounts :: f(a) == 0
    ensures SumOver(more, f) == SumOver(accounts, f)
    decreases more
  {
    if accounts != more {
      var a :| a in more && a !in accounts;
      SumWithout(more, f, a);
      SumIgnores(accounts, more - {a}, f);
    }
  }

  /** Only `a` contributes. */
  lemma SumOfOne(accounts: set<Address>, f: Address -> int, a: Address)
    requires a in accounts && forall b | b in accounts && b != a :: f(b) == 0
    ensures SumOver(accounts, f) == f(a)
  {
    SumWithout(accounts, f, a);
    SumIgnores({}, accounts - {a}, f);
  }

  // ----- what is summed

  function DepositIn(deposits: Deposits): Address -> int {
    (a: Address) => Info(deposits, a).deposit
  }

  function MovedIn(log: Log): Address -> int {
    (a: Address) => Moved(log, a)
  }

  function ChargedIn(log: Log): Address -> int {
    (a: Address) => Charged(log, a)
  }

  function OutstandingIn(pending: seq<Prefund>): Address -> int {
    (a: Address) => OutstandingOf(pending, a)
  }

  /** All deposits together, as `balanceOf` reports them. */
  ghost function TotalDeposits(deposits: Deposits): int {
    SumOver(deposits.Keys, DepositIn(deposits))
  }

  /** All ether deposited, minus all ether withdrawn from deposits. */
  function TotalMoved(log: Log): int {
    match log
    case Nothing => 0
    case Then(past, e) =>
      TotalMoved(past) + (if e.Deposited? then e.amount else if e.Withdrawn? then 0 - e.amount else 0)
  }

  /** All gas costs charged. */
  function TotalCharged(log: Log): nat {
    match log
    case Nothing => 0
    case Then(past, e) => TotalCharged(past) + (if e.UserOperation? then e.cost else 0)
  }

  /** The account whose deposit an event moves or charges. */
  function PartyOf(e: Event): set<Address> {
    if e.UserOperation? then {PayerOf(e)} else if e.Deposited? || e.Withdrawn? then {e.account} else {}
  }

  function PartiesOf(log: Log): set<Address> {
    match log
    case Nothing => {}
    case Then(past, e) => PartiesOf(past) + PartyOf(e)
  }

  function PayersOf(pending: seq<Prefund>): set<Address> {
    if pending == [] then {} else {pending[0].payer} + PayersOf(pending[1..])
  }

  function MoveIn(e: Event): Address -> int {
    (a: Address) => Move(e, a)
  }

  function ChargeIn(e: Event): Address -> int {
    (a: Address) => Charge(e, a)
  }

  function FirstIn(pending: seq<Prefund>): Address -> int
    requires pending != []
  {
    (a: Address) => if pending[0].payer == a then pending[0].amount else 0
  }

  lemma {:induction false} MovedTotal(log: Log, accounts: set<Address>)
    requires PartiesOf(log) <= accounts
    ensures SumOver(accounts, MovedIn(log)) == TotalMoved(log)
    decreases log
  {
    match log
    case Nothing => SumIgnores({}, accounts, MovedIn(log));
    case Then(past, e) =>
      MovedTotal(past, accounts);
      SumAdds(accounts, MovedIn(past), MoveIn(e), MovedIn(log));
      if e.Deposited? || e.Withdrawn? {
        SumOfOne(accounts, MoveIn(e), e.account);
      } else {
        SumIgnores({}, accounts, MoveIn(e));
      }
  }

  lemma {:induction false} ChargedTotal(log: Log, accounts: set<Address>)
    requires PartiesOf(log) <= accounts
    ensures SumOver(accounts, ChargedIn(log)) == TotalCharged(log)
    decreases log
  {
    match log
    case Nothing => SumIgnores({}, accounts, ChargedIn(log));
    case Then(past, e) =>
      ChargedTotal(past, accounts);
      SumAdds(accounts, ChargedIn(past), ChargeIn(e), ChargedIn(log));
      if e.UserOperation? {
        SumOfOne(accounts, ChargeIn(e), PayerOf(e));
      } else {
        SumIgnores({}, accounts, ChargeIn(e));
      }
  }

  lemma {:induction false} OutstandingTotal(pending: seq<Prefund>, accounts: set<Address>)
    requires PayersOf(pending) <= accounts
    ensures SumOver(accounts, OutstandingIn(pending)) == Outstanding(pending)
    decreases pending
  {
    if pending == [] {
      SumIgnores({}, accounts, OutstandingIn(pending));
    } else {
      OutstandingTotal(pending[1..], accounts);
      SumAdds(accounts, FirstIn(pending), OutstandingIn(pending[1..]), OutstandingIn(pending));
      SumOfOne(accounts, FirstIn(pending), pending[0].payer);
    }
  }

  // ----- conservation

  function HeldIn(s: State): Address -> int {
    (a: Address) => Info(s.deposits, a).deposit + OutstandingOf(s.pending, a)
  }

  /**
   * Whenever the books are in order, so at every point of every run: all deposits, outstanding prefunds and charges
   * together are what was ever deposited and not withdrawn.
   */
  lemma DepositsConserved(s: State)
    requires InOrder(s)
    ensures TotalDeposits(s.deposits) + Outstanding(s.pending) + TotalCharged(s.log) == TotalMoved(s.log)
  {
    var accounts := s.deposits.Keys + PartiesOf(s.log) + PayersOf(s.pending);
    SumIgnores(s.deposits.Keys, accounts, DepositIn(s.deposits));
    OutstandingTotal(s.pending, accounts);
    ChargedTotal(s.log, accounts);
    MovedTotal(s.log, accounts);
    SumAdds(accounts, DepositIn(s.deposits), OutstandingIn(s.pending), HeldIn(s));
    SumAdds(accounts, HeldIn(s), ChargedIn(s.log), MovedIn(s.log));
  }

  lemma {:induction false} ChargedByMarksInTotal(log: Log)
    ensures TotalCharged(log) == TotalCost(Marks(log))
  {
    if log.Then? {
      ChargedByMarksInTotal(log.past);
      TotalCostAppend(Marks(log.past), [log.event]);
      assert [log.event][1..] == [];
    }
  }

  lemma {:induction false} AcceptancesCostNothing(runs: seq<OpRun>)
    ensures TotalCost(AcceptancesOf(runs)) == 0
  {
    if runs != [] {
      AcceptancesCostNothing(runs[1..]);
      TotalCostAppend([AcceptanceOf(runs[0].op)], AcceptancesOf(runs[1..]));
    }
  }

  /**
   * Over a completed bundle all deposits together change by what was deposited and withdrawn meanwhile, minus
   * exactly what the beneficiary was paid.
   */
  lemma BundleTotals(s: State, t: State, runs: seq<OpRun>, events: seq<Event>, basefee: Word, beneficiary: Address)
    requires InOrder(s) && InOrder(t) && !s.entered && !t.entered
    requires BundleMarks(s, t, runs, events, basefee, beneficiary)
    ensures TotalDeposits(t.deposits)
         == TotalDeposits(s.deposits) + (TotalMoved(t.log) - TotalMoved(s.log)) - TotalCost(events)
  {
    DepositsConserved(s);
    DepositsConserved(t);
    ChargedByMarksInTotal(s.log);
    ChargedByMarksInTotal(t.log);
    var pay := [Compensated(beneficiary, TotalCost(events))];
    TotalCostAppend(Marks(s.log) + AcceptancesOf(runs) + events, pay);
    TotalCostAppend(Marks(s.log) + AcceptancesOf(runs), events);
    TotalCostAppend(Marks(s.log), AcceptancesOf(runs));
    AcceptancesCostNothing(runs);
    assert pay[1..] == [] && TotalCost(pay) == 0;
  }
}
