/**
 * The guarded operations of a smart account on its modules and fallback handler. Set-up contracts are foreign
 * code: a script of the calls they make back into the account, and what they return.
 */
module SmartAccountSpec {
  import opened Words
  import opened ModuleRing

  /** `inits` counts the initialisations that were not rolled back. */
  datatype Account = Account(modules: Modules, handler: Address, inits: nat)

  datatype Parties = Parties(entryPoint: Address, self: Address)
  {
    /** `_requireFromEntryPointOrSelf`. */
    predicate Trusts(caller: Address) {
      caller == entryPoint || caller == self
    }
  }

  datatype Call =
    | Init(handler: Address, setup: Setup)
    | EnableModule(caller: Address, added: Address)
    | SetupAndEnableModule(caller: Address, setup: Setup)
    | DisableModule(caller: Address, prev: Address, removed: Address)
    | SetFallbackHandler(caller: Address, handler: Address)

  datatype Setup = Setup(contract: Address, calls: seq<Call>, ok: bool, returned: Address)

  /** What a call leaves behind; a call that reverts leaves the account as it was. */
  function Perform(p: Parties, a: Account, c: Call): Account
    decreases c, 0
  {
    match c
    case Init(handler, setup) =>
      if At(a.modules, SENTINEL) != 0 || a.handler != 0 || handler == 0 then a
      else
        (match SetupModule(p, a.(handler := handler), setup)
         case None => a
         case Some(a1) =>
           match StartRing(a1.modules, setup.returned)
           case None => a
           case Some(m) => a1.(modules := m, inits := a1.inits + 1))
    case EnableModule(caller, added) =>
      if !p.Trusts(caller) then a else Store(a, a, Enable(a.modules, added))
    case SetupAndEnableModule(caller, setup) =>
      if !p.Trusts(caller) then a
      else
        (match SetupModule(p, a, setup)
         case None => a
         case Some(a1) => Store(a, a1, Enable(a1.modules, setup.returned)))
    case DisableModule(caller, prev, removed) =>
      if !p.Trusts(caller) then a else Store(a, a, Disable(a.modules, prev, removed))
    case SetFallbackHandler(caller, handler) =>
      if !p.Trusts(caller) || handler == 0 then a else a.(handler := handler)
  }

  function Store(before: Account, a: Account, m: Option<Modules>): Account {
    if m.Some? then a.(modules := m.value) else before
  }

  /** `_setupModule`: the set-up contract runs and may come back into the account. */
  function SetupModule(p: Parties, a: Account, setup: Setup): Option<Account>
    decreases setup, 0
  {
    if setup.contract == 0 then None
    else
      var a1 := PerformAll(p, a, setup.calls);
      if setup.ok then Some(a1) else None
  }

  function PerformAll(p: Parties, a: Account, calls: seq<Call>): Account
    decreases calls, 0
  {
    if calls == [] then a else PerformAll(p, Perform(p, a, calls[0]), calls[1..])
  }

  // ----- the reference: the same calls on a plain list

  function ListCall(p: Parties, list: seq<Address>, c: Call): seq<Address>
    decreases c, 0
  {
    match c
    case Init(_, _) => list
    case EnableModule(caller, added) => if p.Trusts(caller) && Addable(list, added) then [added] + list else list
    case SetupAndEnableModule(caller, setup) =>
      if !p.Trusts(caller) || setup.contract == 0 || !setup.ok then list
      else
        var list1 := ListCalls(p, list, setup.calls);
        if Addable(list1, setup.returned) then [setup.returned] + list1 else list
    case DisableModule(caller, prev, removed) =>
      if p.Trusts(caller) && removed in list && Stop(list, IndexOf(list, removed)) == prev then
        var i := IndexOf(list, removed);
        list[..i] + list[i + 1..]
      else list
    case SetFallbackHandler(_, _) => list
  }

  function ListCalls(p: Parties, list: seq<Address>, calls: seq<Call>): seq<Address>
    decreases calls, 0
  {
    if calls == [] then list else ListCalls(p, ListCall(p, list, calls[0]), calls[1..])
  }

  predicate Addable(list: seq<Address>, x: Address) {
    x != 0 && x != SENTINEL && x !in list
  }

  /**
   * Once the ring stands, every call, from whoever and however deeply nested, does to the mapping what the
   * list call does to the list; it never counts as an initialisation, and never clears the handler.
   */
  lemma {:induction false} CallRefinesList(p: Parties, a: Account, list: seq<Address>, c: Call)
    requires Ring(a.modules, list)
    ensures var a1 := Perform(p, a, c);
      && Ring(a1.modules, ListCall(p, list, c))
      && a1.inits == a.inits && (a.handler != 0 ==> a1.handler != 0)
    decreases c, 0
  {
    match c
    case Init(_, _) => assert At(a.modules, SENTINEL) != 0;
    case EnableModule(_, added) => EnableIsPrepend(a.modules, list, added);
    case DisableModule(_, prev, removed) => DisableRefinesList(a.modules, list, prev, removed);
    case SetupAndEnableModule(_, setup) =>
      CallsRefineList(p, a, list, setup.calls);
      EnableIsPrepend(PerformAll(p, a, setup.calls).modules, ListCalls(p, list, setup.calls), setup.returned);
    case SetFallbackHandler(_, _) =>
  }

  lemma DisableRefinesList(m: Modules, list: seq<Address>, prev: Address, x: Address)
    requires Ring(m, list)
    ensures Disable(m, prev, x).Some? <==> x in list && Stop(list, IndexOf(list, x)) == prev
    ensures Disable(m, prev, x).Some? ==>
      Ring(Disable(m, prev, x).value, list[..IndexOf(list, x)] + list[IndexOf(list, x) + 1..])
  {
    DisableIsRemove(m, list, prev, x);
    if x in list {
      OnlyIndex(list, x);
    }
  }

  lemma OnlyIndex(list: seq<Address>, x: Address)
    requires Distinct(list) && x in list
    ensures forall i | 0 <= i < |list| && list[i] == x :: i == IndexOf(list, x)
  {
  }

  lemma {:induction false} CallsRefineList(p: Parties, a: Account, list: seq<Address>, calls: seq<Call>)
    requires Ring(a.modules, list)
    ensures var a1 := PerformAll(p, a, calls);
      && Ring(a1.modules, ListCalls(p, list, calls))
      && a1.inits == a.inits && (a.handler != 0 ==> a1.handler != 0)
    decreases calls, 0
  {
    if calls != [] {
      CallRefinesList(p, a, list, calls[0]);
      CallsRefineList(p, Perform(p, a, calls[0]), ListCall(p, list, calls[0]), calls[1..]);
    }
  }

  /**
   * On any account, initialised or not: only the entry point and the account itself get anything done, apart from
   * `init`; enabling and disabling change the mapping alone, and setting the handler makes it the argument, if non-zero.
   */
  lemma GuardedCalls(p: Parties, a: Account, c: Call)
    ensures !c.Init? && !(c.caller == p.entryPoint || c.caller == p.self) ==> Perform(p, a, c) == a
    ensures c.EnableModule? && (c.caller == p.entryPoint || c.caller == p.self) ==>
      Perform(p, a, c) == if Enable(a.modules, c.added).Some? then a.(modules := Enable(a.modules, c.added).value) else a
    ensures c.DisableModule? && (c.caller == p.entryPoint || c.caller == p.self) ==>
      Perform(p, a, c) == if Disable(a.modules, c.prev, c.removed).Some?
                          then a.(modules := Disable(a.modules, c.prev, c.removed).value) else a
    ensures c.SetFallbackHandler? && (c.caller == p.entryPoint || c.caller == p.self) ==>
      Perform(p, a, c) == a.(handler := if c.handler == 0 then a.handler else c.handler)
  {
  }

  /** A set-up takes effect together with what it is for: all its calls and the enabling, or nothing. */
  lemma SetupActs(p: Parties, a: Account, caller: Address, setup: Setup)
    requires caller == p.entryPoint || caller == p.self
    ensures var a1 := PerformAll(p, a, setup.calls);
      var goesThrough := setup.contract != 0 && setup.ok && setup.returned != 0 && setup.returned != SENTINEL
                         && At(a1.modules, setup.returned) == 0;
      Perform(p, a, SetupAndEnableModule(caller, setup))
      == if goesThrough then a1.(modules := Enable(a1.modules, setup.returned).value) else a
  {
  }

  // ----- initialisation

  /** A proxy that was never initialised, or is just being initialised. */
  predicate Blank(a: Account) {
    (forall x: Address :: At(a.modules, x) == 0) && a.inits == 0
  }

  /** A call that neither the entry point nor the account itself makes, nor any set-up contract it runs. */
  predicate Outside(p: Parties, c: Call)
    decreases c
  {
    match c
    case Init(_, setup) => forall d | d in setup.calls :: Outside(p, d)
    case EnableModule(caller, _) => !p.Trusts(caller)
    case SetupAndEnableModule(caller, _) => !p.Trusts(caller)
    case DisableModule(caller, _, _) => !p.Trusts(caller)
    case SetFallbackHandler(caller, _) => !p.Trusts(caller)
  }

  /** While `init` runs its set-up contract, outside calls change nothing: a nested `init` fails on the handler. */
  lemma {:induction false} OutsideIsIdle(p: Parties, a: Account, calls: seq<Call>)
    requires a.handler != 0 && forall c | c in calls :: Outside(p, c)
    ensures PerformAll(p, a, calls) == a
  {
    if calls != [] {
      assert Outside(p, calls[0]);
      assert Perform(p, a, calls[0]) == a;
      OutsideIsIdle(p, a, calls[1..]);
    }
  }

  /** The guards of `init` and of the two storage writes that end it. */
  predicate InitSucceeds(a: Account, handler: Address, setup: Setup) {
    && At(a.modules, SENTINEL) == 0 && a.handler == 0 && handler != 0
    && setup.contract != 0 && setup.ok && setup.returned != 0 && setup.returned != SENTINEL
  }

  /** Once a handler is set it is never cleared, and no `init` succeeds, whoever calls. */
  lemma {:induction false} HandlerStays(p: Parties, a: Account, c: Call)
    requires a.handler != 0
    ensures Perform(p, a, c).handler != 0 && Perform(p, a, c).inits == a.inits
    decreases c, 0
  {
    if c.SetupAndEnableModule? {
      HandlerStaysThrough(p, a, c.setup.calls);
    }
  }

  lemma {:induction false} HandlerStaysThrough(p: Parties, a: Account, calls: seq<Call>)
    requires a.handler != 0
    ensures PerformAll(p, a, calls).handler != 0 && PerformAll(p, a, calls).inits == a.inits
    decreases calls, 0
  {
    if calls != [] {
      HandlerStays(p, a, calls[0]);
      HandlerStaysThrough(p, Perform(p, a, calls[0]), calls[1..]);
    }
  }

  lemma {:induction false} InitedOnceByCall(p: Parties, a: Account, c: Call)
    requires a.handler == 0
    ensures var a1 := Perform(p, a, c);
      a.inits <= a1.inits <= a.inits + 1 && (a1.inits != a.inits ==> a1.handler != 0)
    decreases c, 0
  {
    match c
    case Init(handler, setup) =>
      if handler != 0 {
        HandlerStaysThrough(p, a.(handler := handler), setup.calls);
      }
    case SetupAndEnableModule(_, setup) => InitedOnce(p, a, setup.calls);
    case _ =>
  }

  lemma {:induction false} InitedOnce(p: Parties, a: Account, calls: seq<Call>)
    requires a.handler == 0
    ensures var a1 := PerformAll(p, a, calls);
      a.inits <= a1.inits <= a.inits + 1 && (a1.inits != a.inits ==> a1.handler != 0)
    decreases calls, 0
  {
    if calls != [] {
      InitedOnceByCall(p, a, calls[0]);
      var a1 := Perform(p, a, calls[0]);
      if a1.handler == 0 {
        InitedOnce(p, a1, calls[1..]);
      } else {
        HandlerStaysThrough(p, a1, calls[1..]);
      }
    }
  }

  /**
   * In every run from a fresh proxy, whoever makes the calls and however they nest, at most one `init` succeeds,
   * and from then on the handler, one of the two guards of `init`, is non-zero.
   */
  lemma InitialisedAtMostOnce(p: Parties, a: Account, calls: seq<Call>)
    requires Blank(a) && a.handler == 0
    ensures var a1 := PerformAll(p, a, calls);
      a1.inits <= 1 && (a1.inits == 1 ==> a1.handler != 0)
  {
    InitedOnce(p, a, calls);
  }

  /** An `init` that does not go through leaves no trace. */
  lemma FailedInitIsIdle(p: Parties, a: Account, handler: Address, setup: Setup)
    ensures !InitSucceeds(a, handler, setup) ==> Perform(p, a, Init(handler, setup)) == a
  {
  }

  // ----- which handler is stored

  /**
   * The handlers that a call sets, in order: `init` its argument and then what its set-up call sets, a trusted
   * `setFallbackHandler` its argument, `setupAndEnableModule` what its set-up call sets; nothing when it reverts.
   */
  function HandlersSet(p: Parties, a: Account, c: Call): seq<Address>
    decreases c, 0
  {
    match c
    case Init(handler, setup) =>
      if InitSucceeds(a, handler, setup) then [handler] + AllHandlersSet(p, a.(handler := handler), setup.calls) else []
    case SetFallbackHandler(caller, handler) => if p.Trusts(caller) && handler != 0 then [handler] else []
    case SetupAndEnableModule(caller, setup) =>
      if p.Trusts(caller) && setup.contract != 0 && setup.ok && Enable(PerformAll(p, a, setup.calls).modules, setup.returned).Some?
      then AllHandlersSet(p, a, setup.calls)
      else []
    case _ => []
  }

  function AllHandlersSet(p: Parties, a: Account, calls: seq<Call>): seq<Address>
    decreases calls, 0
  {
    if calls == [] then [] else HandlersSet(p, a, calls[0]) + AllHandlersSet(p, Perform(p, a, calls[0]), calls[1..])
  }

  function LastOr(handlers: seq<Address>, otherwise: Address): Address {
    if handlers == [] then otherwise else handlers[|handlers| - 1]
  }

  lemma {:induction false} CallStoresLastHandler(p: Parties, a: Account, c: Call)
    ensures Perform(p, a, c).handler == LastOr(HandlersSet(p, a, c), a.handler)
    decreases c, 0
  {
    match c
    case Init(handler, setup) => LastHandlerIsStored(p, a.(handler := handler), setup.calls);
    case SetupAndEnableModule(_, setup) => LastHandlerIsStored(p, a, setup.calls);
    case _ =>
  }

  /** In every run the handler stored is the one set last. */
  lemma {:induction false} LastHandlerIsStored(p: Parties, a: Account, calls: seq<Call>)
    ensures PerformAll(p, a, calls).handler == LastOr(AllHandlersSet(p, a, calls), a.handler)
    decreases calls, 0
  {
    if calls != [] {
      CallStoresLastHandler(p, a, calls[0]);
      LastHandlerIsStored(p, Perform(p, a, calls[0]), calls[1..]);
    }
  }

  /** Neither the call nor any set-up call in it sets the handler with the account's trust. */
  predicate SetsNoHandler(p: Parties, c: Call)
    decreases c
  {
    match c
    case SetFallbackHandler(caller, _) => !p.Trusts(caller)
    case SetupAndEnableModule(_, setup) => forall d | d in setup.calls :: SetsNoHandler(p, d)
    case _ => true
  }

  lemma {:induction false} HandlerIsLeft(p: Parties, a: Account, c: Call)
    requires a.handler != 0 && SetsNoHandler(p, c)
    ensures Perform(p, a, c).handler == a.handler
    decreases c, 0
  {
    if c.SetupAndEnableModule? {
      HandlerIsLeftByAll(p, a, c.setup.calls);
    }
  }

  lemma {:induction false} HandlerIsLeftByAll(p: Parties, a: Account, calls: seq<Call>)
    requires a.handler != 0 && forall c | c in calls :: SetsNoHandler(p, c)
    ensures PerformAll(p, a, calls).handler == a.handler
    decreases calls, 0
  {
    if calls != [] {
      HandlerIsLeft(p, a, calls[0]);
      HandlerIsLeftByAll(p, Perform(p, a, calls[0]), calls[1..]);
    }
  }

  /** Unless its set-up call sets another, a successful `init` leaves its own argument as the handler. */
  lemma InitStoresHandler(p: Parties, a: Account, handler: Address, setup: Setup)
    requires InitSucceeds(a, handler, setup) && forall c | c in setup.calls :: SetsNoHandler(p, c)
    ensures Perform(p, a, Init(handler, setup)).handler == handler
  {
    HandlerIsLeftByAll(p, a.(handler := handler), setup.calls);
  }

  // ----- when `init` leaves a ring

  /** No key but the sentinel and `x` has an entry. */
  ghost predicate Clean(m: Modules, x: Address) {
    forall a: Address :: At(m, a) != 0 ==> a == SENTINEL || a == x
  }

  /** The mapping that `init` finds when its set-up call has returned. */
  function AfterSetup(p: Parties, a: Account, handler: Address, setup: Setup): Modules {
    PerformAll(p, a.(handler := handler), setup.calls).modules
  }

  /**
   * For every set-up script: an `init` that goes through leaves a ring exactly when the set-up call left no entry
   * but the sentinel's and that of the module it returned; the ring then holds that one module.
   */
  lemma InitLeavesRing(p: Parties, a: Account, handler: Address, setup: Setup)
    requires InitSucceeds(a, handler, setup)
    ensures var a1 := Perform(p, a, Init(handler, setup));
      && a1.inits == a.inits + 1 && a1.handler != 0
      && (Clean(AfterSetup(p, a, handler, setup), setup.returned) <==> Ring(a1.modules, [setup.returned]))
      && (Ring(a1.modules, [setup.returned]) <==> exists list :: Ring(a1.modules, list))
  {
    var m := AfterSetup(p, a, handler, setup);
    HandlerStaysThrough(p, a.(handler := handler), setup.calls);
    StartIsSingleton(m, setup.returned);
    var m1 := StartRing(m, setup.returned).value;
    forall list | Ring(m1, list)
      ensures list == [setup.returned]
    {
      OnlyModule(m1, list, setup.returned);
    }
  }

  /** Every `init` that goes through, at whatever depth, finds a clean mapping when its set-up call has returned. */
  ghost predicate StartsClean(p: Parties, a: Account, c: Call)
    decreases c, 0
  {
    match c
    case Init(handler, setup) =>
      InitSucceeds(a, handler, setup) ==> Clean(AfterSetup(p, a, handler, setup), setup.returned)
    case SetupAndEnableModule(caller, setup) => p.Trusts(caller) ==> AllStartClean(p, a, setup.calls)
    case _ => true
  }

  ghost predicate AllStartClean(p: Parties, a: Account, calls: seq<Call>)
    decreases calls, 0
  {
    calls == [] || (StartsClean(p, a, calls[0]) && AllStartClean(p, Perform(p, a, calls[0]), calls[1..]))
  }

  lemma {:induction false} CleanCallStarts(p: Parties, a: Account, c: Call)
    requires StartsClean(p, a, c) && Perform(p, a, c).inits > a.inits
    ensures exists list :: Ring(Perform(p, a, c).modules, list)
    decreases c, 0
  {
    match c
    case Init(handler, setup) => InitLeavesRing(p, a, handler, setup);
    case SetupAndEnableModule(_, setup) =>
      CleanCallsStart(p, a, setup.calls);
      var a1 := PerformAll(p, a, setup.calls);
      var list :| Ring(a1.modules, list);
      EnableIsPrepend(a1.modules, list, setup.returned);
  }

  lemma {:induction false} CleanCallsStart(p: Parties, a: Account, calls: seq<Call>)
    requires AllStartClean(p, a, calls) && PerformAll(p, a, calls).inits > a.inits
    ensures exists list :: Ring(PerformAll(p, a, calls).modules, list)
    decreases calls, 0
  {
    var a1 := Perform(p, a, calls[0]);
    if a1.inits > a.inits {
      CleanCallStarts(p, a, calls[0]);
      var list :| Ring(a1.modules, list);
      CallsRefineList(p, a1, list, calls[1..]);
    } else {
      CleanCallsStart(p, a1, calls[1..]);
    }
  }

  /**
   * In every run in which the `init` that goes through finds a clean mapping, the ring stands from then on, so
   * that the sentinel's entry, the other guard of `init`, is never zero again, even with no module left.
   */
  lemma RingStandsAfterInit(p: Parties, a: Account, calls: seq<Call>)
    requires AllStartClean(p, a, calls) && PerformAll(p, a, calls).inits > a.inits
    ensures At(PerformAll(p, a, calls).modules, SENTINEL) != 0
    ensures exists list :: Ring(PerformAll(p, a, calls).modules, list)
  {
    CleanCallsStart(p, a, calls);
  }

  // ----- which set-up scripts leave the mapping clean

  /** Of the calls that the account trusts, only such as enable `x`, or disable, or set the handler. */
  predicate EnablesOnly(p: Parties, c: Call, x: Address)
    decreases c
  {
    match c
    case EnableModule(caller, added) => p.Trusts(caller) ==> added == x
    case SetupAndEnableModule(caller, setup) =>
      p.Trusts(caller) ==> setup.returned == x && forall d | d in setup.calls :: EnablesOnly(p, d, x)
    case _ => true
  }

  lemma {:induction false} StaysClean(p: Parties, a: Account, c: Call, x: Address)
    requires a.handler != 0 && Clean(a.modules, x) && EnablesOnly(p, c, x)
    ensures Clean(Perform(p, a, c).modules, x)
    decreases c, 0
  {
    if c.SetupAndEnableModule? && p.Trusts(c.caller) {
      AllStayClean(p, a, c.setup.calls, x);
    }
  }

  lemma {:induction false} AllStayClean(p: Parties, a: Account, calls: seq<Call>, x: Address)
    requires a.handler != 0 && Clean(a.modules, x) && forall c | c in calls :: EnablesOnly(p, c, x)
    ensures Clean(PerformAll(p, a, calls).modules, x)
    decreases calls, 0
  {
    if calls != [] {
      HandlerStays(p, a, calls[0]);
      StaysClean(p, a, calls[0], x);
      AllStayClean(p, Perform(p, a, calls[0]), calls[1..], x);
    }
  }

  /** A set-up call that, should it come back as the account itself, enables only the module it returns, if any. */
  predicate Modest(p: Parties, setup: Setup) {
    setup.returned == 0 || forall c | c in setup.calls :: EnablesOnly(p, c, setup.returned)
  }

  /**
   * The set-up calls that a fresh account can make. Foreign code is not trusted. The account itself, called as set-up
   * contract, takes one call, and only `setupAndEnableModule` and `init` return a module, the former the one that
   * its own set-up call returned.
   */
  predicate Received(p: Parties, setup: Setup)
    decreases setup
  {
    if setup.contract != p.self then forall c | c in setup.calls :: Outside(p, c)
    else
      |setup.calls| <= 1 &&
      forall c | c in setup.calls ::
        match c
        case SetupAndEnableModule(_, inner) => setup.returned == inner.returned && Received(p, inner)
        case Init(_, _) => true
        case _ => setup.returned == 0
  }

  lemma {:induction false} ReceivedIsModest(p: Parties, setup: Setup)
    requires Received(p, setup)
    ensures Modest(p, setup)
    decreases setup
  {
    forall c | c in setup.calls && setup.returned != 0
      ensures EnablesOnly(p, c, setup.returned)
    {
      if setup.contract != p.self {
        assert Outside(p, c);
      } else if c.SetupAndEnableModule? {
        ReceivedIsModest(p, c.setup);
      }
    }
  }

  /**
   * On a blank account `init` with such a set-up either fails and changes nothing, or starts a ring of the one
   * module set up.
   */
  lemma InitStartsRing(p: Parties, a: Account, handler: Address, setup: Setup)
    requires Blank(a) && Modest(p, setup)
    ensures var a1 := Perform(p, a, Init(handler, setup));
      if InitSucceeds(a, handler, setup)
      then a1.handler != 0 && a1.inits == 1 && Ring(a1.modules, [setup.returned])
      else a1 == a
  {
    if InitSucceeds(a, handler, setup) {
      AllStayClean(p, a.(handler := handler), setup.calls, setup.returned);
      InitLeavesRing(p, a, handler, setup);
    }
  }

  /** `init` may set up its module through the account itself: `setupAndEnableModule`, called by `_setupModule`. */
  lemma SelfSetupStartsRing(p: Parties, a: Account, handler: Address, setup: Setup, inner: Setup)
    requires Blank(a) && a.handler == 0 && handler != 0
    requires setup.contract == p.self != 0 && setup.ok && setup.returned == inner.returned
    requires setup.calls == [SetupAndEnableModule(p.self, inner)] && Modest(p, inner)
    requires inner.contract != 0 && inner.ok && inner.returned != 0 && inner.returned != SENTINEL
    ensures Ring(Perform(p, a, Init(handler, setup)).modules, [inner.returned])
  {
    InitStartsRing(p, a, handler, setup);
  }

  /** Until the account is initialised, trusted calls reach it only inside `init`, and modestly. */
  predicate Admissible(p: Parties, a: Account, calls: seq<Call>)
    decreases calls
  {
    calls == [] || (&& (a.inits == 0 ==> if calls[0].Init? then Modest(p, calls[0].setup) else Outside(p, calls[0]))
                    && Admissible(p, Perform(p, a, calls[0]), calls[1..]))
  }

  /** On a standing ring no `init` goes through, so none can start unclean. */
  lemma {:induction false} RingStartsClean(p: Parties, a: Account, list: seq<Address>, c: Call)
    requires Ring(a.modules, list)
    ensures StartsClean(p, a, c)
    decreases c, 0
  {
    if c.SetupAndEnableModule? {
      RingAllStartClean(p, a, list, c.setup.calls);
    }
  }

  lemma {:induction false} RingAllStartClean(p: Parties, a: Account, list: seq<Address>, calls: seq<Call>)
    requires Ring(a.modules, list)
    ensures AllStartClean(p, a, calls)
    decreases calls, 0
  {
    if calls != [] {
      RingStartsClean(p, a, list, calls[0]);
      CallRefinesList(p, a, list, calls[0]);
      RingAllStartClean(p, Perform(p, a, calls[0]), ListCall(p, list, calls[0]), calls[1..]);
    }
  }

  /** Admissible runs start clean: until an `init` succeeds nothing changes, and afterwards the ring stands. */
  lemma {:induction false} AdmissibleStartsClean(p: Parties, a: Account, calls: seq<Call>)
    requires Blank(a) && Admissible(p, a, calls)
    ensures AllStartClean(p, a, calls)
    ensures PerformAll(p, a, calls).inits == 0 ==> PerformAll(p, a, calls) == a
    decreases calls
  {
    if calls != [] {
      var c := calls[0];
      if c.Init? {
        InitStartsRing(p, a, c.handler, c.setup);
      }
      if c.Init? && InitSucceeds(a, c.handler, c.setup) {
        InitLeavesRing(p, a, c.handler, c.setup);
        RingAllStartClean(p, Perform(p, a, c), [c.setup.returned], calls[1..]);
        CallsRefineList(p, Perform(p, a, c), [c.setup.returned], calls[1..]);
      } else {
        assert Perform(p, a, c) == a;
        AdmissibleStartsClean(p, a, calls[1..]);
      }
    }
  }

  /** The implementation contract, whose constructor points the sentinel at itself, can never be initialised. */
  lemma ImplementationNeverInitialised(p: Parties, a: Account, calls: seq<Call>)
    requires a.modules == map[SENTINEL := SENTINEL] && a.inits == 0
    ensures PerformAll(p, a, calls).inits == 0
    ensures Ring(PerformAll(p, a, calls).modules, ListCalls(p, [], calls))
  {
    assert Linked(a.modules, [], 0);
    CallsRefineList(p, a, [], calls);
  }
}
