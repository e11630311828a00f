/** The smart account as an object. */
module SmartAccounts {
  import opened Words
  import opened ModuleRing
  import opened SmartAccountSpec

  class SmartAccount {
    const parties: Parties
    var modules: Modules
    var fallbackHandler: Address
    ghost var inits: nat

    ghost function Here(): Account
      reads this
    {
      Account(modules, fallbackHandler, inits)
    }

    /** The storage behind a fresh proxy. */
    constructor Proxy(p: Parties)
      ensures parties == p && Here() == Account(map[], 0, 0)
    {
      parties, modules, fallbackHandler, inits := p, map[], 0, 0;
    }

    /** The implementation contract. */
    constructor Implementation(p: Parties)
      ensures parties == p && Here() == Account(map[SENTINEL := SENTINEL], 0, 0)
    {
      parties, modules, fallbackHandler, inits := p, map[SENTINEL := SENTINEL], 0, 0;
    }

    method Restore(m: Modules, h: Address, ghost n: nat)
      modifies this
      ensures Here() == Account(m, h, n)
    {
      modules, fallbackHandler, inits := m, h, n;
    }

    method Init(handler: Address, setup: Setup)
      modifies this
      ensures Here() == Perform(parties, old(Here()), Call.Init(handler, setup))
      decreases setup, 1
    {
      if At(modules, SENTINEL) != 0 || fallbackHandler != 0 || handler == 0 {
        return;
      }
      var m, h := modules, fallbackHandler;
      ghost var n := inits;
      fallbackHandler := handler;
      var done := RunSetup(setup);
      var x := setup.returned;
      if !done || x == 0 || x == SENTINEL {
        Restore(m, h, n);
        return;
      }
      modules := Write(Write(modules, x, SENTINEL), SENTINEL, x);
      inits := inits + 1;
    }

    /** `_setupModule`; false when the set-up address is zero or the set-up contract reverts. */
    method RunSetup(setup: Setup) returns (ok: bool)
      modifies this
      ensures var r := SetupModule(parties, old(Here()), setup);
        ok == r.Some? && (ok ==> Here() == r.value)
      decreases setup, 0
    {
      if setup.contract == 0 {
        return false;
      }
      ghost var start := Here();
      var i := 0;
      while i < |setup.calls|
        invariant 0 <= i <= |setup.calls|
        invariant PerformAll(parties, Here(), setup.calls[i..]) == PerformAll(parties, start, setup.calls)
      {
        assert setup.calls[i..][1..] == setup.calls[i + 1..];
        Dispatch(setup.calls[i]);
        i := i + 1;
      }
      ok := setup.ok;
    }

    method Dispatch(c: Call)
      modifies this
      ensures Here() == Perform(parties, old(Here()), c)
      decreases c, 0
    {
      match c
      case Init(handler, setup) => Init(handler, setup);
      case EnableModule(caller, added) => var _ := EnableModule(caller, added);
      case SetupAndEnableModule(caller, setup) => var _ := SetupAndEnableModule(caller, setup);
      case DisableModule(caller, prev, removed) => var _ := DisableModule(caller, prev, removed);
      case SetFallbackHandler(caller, handler) => var _ := SetFallbackHandler(caller, handler);
    }

    method EnableModule(caller: Address, added: Address) returns (ok: bool)
      modifies this
      ensures Here() == Perform(parties, old(Here()), Call.EnableModule(caller, added))
      ensures ok <==> parties.Trusts(caller) && Enable(old(modules), added).Some?
    {
      ok := parties.Trusts(caller) && added != 0 && added != SENTINEL && At(modules, added) == 0;
      if ok {
        modules := Write(modules, added, At(modules, SENTINEL));
        modules := Write(modules, SENTINEL, added);
      }
    }

    method SetupAndEnableModule(caller: Address, setup: Setup) returns (ok: bool)
      modifies this
      ensures Here() == Perform(parties, old(Here()), Call.SetupAndEnableModule(caller, setup))
      decreases setup, 1
    {
      if !parties.Trusts(caller) {
        return false;
      }
      var m, h := modules, fallbackHandler;
      ghost var n := inits;
      ok := RunSetup(setup);
      var x := setup.returned;
      if ok && x != 0 && x != SENTINEL && At(modules, x) == 0 {
        modules := Write(modules, x, At(modules, SENTINEL));
        modules := Write(modules, SENTINEL, x);
      } else {
        ok := false;
        Restore(m, h, n);
      }
    }

    method DisableModule(caller: Address, prev: Address, removed: Address) returns (ok: bool)
      modifies this
      ensures Here() == Perform(parties, old(Here()), Call.DisableModule(caller, prev, removed))
      ensures ok <==> parties.Trusts(caller) && Disable(old(modules), prev, removed).Some?
    {
      ok := parties.Trusts(caller) && removed != 0 && removed != SENTINEL && At(modules, prev) == removed;
      if ok {
        modules := Write(modules, prev, At(modules, removed));
        modules := Write(modules, removed, 0);
      }
    }

    method SetFallbackHandler(caller: Address, handler: Address) returns (ok: bool)
      modifies this
      ensures Here() == Perform(parties, old(Here()), Call.SetFallbackHandler(caller, handler))
    {
      ok := parties.Trusts(caller) && handler != 0;
      if ok {
        fallbackHandler := handler;
      }
    }

    /** The dispatch of `validateUserOp`: only the entry point is served, and only a listed module or the sentinel is called. */
    method ValidatesWith(caller: Address, validationModule: Address, ghost list: seq<Address>) returns (ok: bool)
      requires Ring(modules, list)
      ensures ok <==> caller == parties.entryPoint && (validationModule in list || validationModule == SENTINEL)
    {
      GuardsAreMembership(modules, list, validationModule);
      ok := caller == parties.entryPoint && At(modules, validationModule) != 0;
    }

    method GetModulesPaginated(start: Address, pageSize: nat) returns (page: seq<Address>, next: Address)
      ensures page == Walk(modules, At(modules, start), pageSize)
      ensures next == WalkEnd(modules, At(modules, start), pageSize)
    {
      var result := new Address[pageSize];
      var moduleCount := 0;
      var currentModule := At(modules, start);
      while currentModule != 0 && currentModule != SENTINEL && moduleCount < pageSize
        invariant 0 <= moduleCount <= pageSize == result.Length
        invariant result[..moduleCount] + Walk(modules, currentModule, pageSize - moduleCount)
               == Walk(modules, At(modules, start), pageSize)
        invariant WalkEnd(modules, currentModule, pageSize - moduleCount) == WalkEnd(modules, At(modules, start), pageSize)
        decreases pageSize - moduleCount
      {
        ghost var rest := Walk(modules, At(modules, currentModule), pageSize - moduleCount - 1);
        ghost var done := result[..moduleCount];
        result[moduleCount] := currentModule;
        assert result[..moduleCount + 1] == done + [currentModule];
        assert done + ([currentModule] + rest) == done + [currentModule] + rest;
        currentModule := At(modules, currentModule);
        moduleCount := moduleCount + 1;
      }
      assert result[..moduleCount] + [] == result[..moduleCount];
      page, next := result[..moduleCount], currentModule;
    }
  }
}
