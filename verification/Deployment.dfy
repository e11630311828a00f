/**
 * Deterministic deployment: what SmartAccountFactory and Create3 predict, and what the chain does. The hash is
 * any function from bytes to words; nothing here needs it to be free of collisions.
 */
module Deployment {
  import opened Words
  import opened Bytes

  /** The encoding of Appendix B of the Ethereum Yellow Paper. */
  datatype Item = Str(s: bytes) | List(items: seq<Item>)

  function Rlp(item: Item): bytes {
    match item
    case Str(s) => if |s| == 1 && s[0] < 128 then s else Prefixed(s, 128)
    case List(items) => Prefixed(RlpAll(items), 192)
  }

  function RlpAll(items: seq<Item>): bytes {
    if items == [] then [] else Rlp(items[0]) + RlpAll(items[1..])
  }

  function Prefixed(s: bytes, base: nat): bytes
    requires base == 128 || base == 192
  {
    if |s| < 56 then [base + |s|] + s
    else
      var length := Digits(|s|);
      [(base + 55 + |length|) % 256] + length + s
  }

  /** A number without leading zero bytes. */
  function Digits(n: nat): bytes {
    if n == 0 then [] else Digits(n / 256) + [n % 256]
  }

  /** Create3 writes the encoding of [proxy, 1] by hand. */
  lemma HandWrittenRlp(proxy: Address)
    ensures Rlp(List([Str(ToBytes(proxy, 20)), Str(Digits(1))])) == [0xd6, 0x94] + ToBytes(proxy, 20) + [0x01]
  {
    var address := ToBytes(proxy, 20);
    var items := [Str(address), Str(Digits(1))];
    assert Digits(1) == [1] by {
      assert Digits(0) == [];
    }
    assert Rlp(items[0]) == [0x94] + address;
    assert items[1..] == [Str([1])] && items[1..][1..] == [];
    assert RlpAll(items[1..]) == [0x01];
    assert RlpAll(items) == [0x94] + address + [0x01];
    assert [0xd6] + ([0x94] + address + [0x01]) == [0xd6, 0x94] + address + [0x01];
  }

  // ----- the chain

  type Hash = bytes -> Word

  type Calldata = s: bytes | |s| < U256

  function Low160(w: Word): (a: Address)
    ensures w == w / U160 * U160 + a
  {
    w % U160
  }

  /** EIP-1014: the address of a contract made by CREATE2. */
  function Create2Address(hash: Hash, deployer: Address, salt: Word, initCode: bytes): Address {
    Low160(hash([0xff] + ToBytes(deployer, 20) + ToBytes(salt, 32) + ToBytes(hash(initCode), 32)))
  }

  /** The address of a contract made by CREATE. */
  function CreateAddress(hash: Hash, deployer: Address, nonce: nat): Address {
    Low160(hash(Rlp(List([Str(ToBytes(deployer, 20)), Str(Digits(nonce))]))))
  }

  datatype Event =
    | AccountCreation(setupContract: Address, setupData: Calldata, index: Word, proxy: Address)
    | Created3(deployer: Address, salt: Word, target: Address, code: bytes)

  /**
   * Accounts with code, accounts that made contracts, and what was deployed and not rolled back. `create3` emits
   * nothing itself: the log notes its success, and the code it left, for the books.
   */
  datatype Chain = Chain(code: map<Address, bytes>, nonces: map<Address, nat>, log: seq<Event>)

  function CodeOf(c: Chain, a: Address): bytes {
    if a in c.code then c.code[a] else []
  }

  function NonceOf(c: Chain, a: Address): nat {
    if a in c.nonces then c.nonces[a] else 0
  }

  /** EIP-684: nothing is created where there is code or a used nonce. */
  predicate Vacant(c: Chain, a: Address) {
    CodeOf(c, a) == [] && NonceOf(c, a) == 0
  }

  /** Everything the two predictions depend on besides their arguments. */
  datatype Setting = Setting(
    hash: Hash, factory: Address, implementation: Address, handler: Address,
    initSelector: bytes,
    proxyCreationCode: bytes, proxyRuntime: bytes, childBytecode: bytes, childRuntime: bytes)
  {
    predicate Sensible() {
      proxyRuntime != [] && childRuntime != []
    }
  }

  // ----- the predictions

  function Zeros(n: nat): bytes {
    seq(n, _ => 0)
  }

  function Padding(n: nat): bytes {
    Zeros((32 - n % 32) % 32)
  }

  /** A number as one word. */
  function WordBytes(x: Word): (s: bytes)
    ensures |s| == 32 && FromBytes(s) == x
  {
    Capacities();
    RoundTrip(x, 32);
    ToBytes(x, 32)
  }

  /**
   * `abi.encodeCall` of `init(address,address,bytes)`: the selector, the two addresses, the place of the data behind
   * these three words, and the data with its length in front and zeros up to a whole word behind.
   */
  function InitCall(selector: bytes, handler: Address, setupContract: Address, setupData: Calldata): bytes {
    selector + (WordBytes(handler) + (WordBytes(setupContract) + (WordBytes(0x60) + (WordBytes(|setupData|) +
    (setupData + Padding(|setupData|))))))
  }

  /** `_getInitializer`. */
  function Initializer(e: Setting, setupContract: Address, setupData: Calldata): bytes {
    InitCall(e.initSelector, e.handler, setupContract, setupData)
  }

  function Salt(e: Setting, setupContract: Address, setupData: Calldata, index: Word): Word {
    e.hash(ToBytes(e.hash(Initializer(e, setupContract, setupData)), 32) + ToBytes(index, 32))
  }

  function DeploymentData(e: Setting): bytes {
    e.proxyCreationCode + ToBytes(e.implementation, 32)
  }

  /** `getAddressForCounterFactualAccount`: no part of it looks at the chain. */
  function PredictAccount(e: Setting, setupContract: Address, setupData: Calldata, index: Word): Address {
    var code := e.proxyCreationCode + ToBytes(e.implementation, 32);
    var salt := e.hash(ToBytes(e.hash(Initializer(e, setupContract, setupData)), 32) + ToBytes(index, 32));
    Low160(e.hash([0xff] + ToBytes(e.factory, 20) + ToBytes(salt, 32) + ToBytes(e.hash(code), 32)))
  }

  /** `addressOfProxy` and `addressOf`. */
  function AddressOfProxy(e: Setting, deployer: Address, salt: Word): Address {
    Low160(e.hash([0xff] + ToBytes(deployer, 20) + ToBytes(salt, 32) + ToBytes(e.hash(e.childBytecode), 32)))
  }

  function AddressOf(e: Setting, deployer: Address, salt: Word): Address {
    Low160(e.hash([0xd6, 0x94] + ToBytes(AddressOfProxy(e, deployer, salt), 20) + [0x01]))
  }

  // ----- deployments

  /**
   * A deployment with what foreign code does inside it: `inner` runs in the `init` call or in the constructor,
   * `ok` says whether that returns, `runtime` is the code the constructor leaves. `Foreign` is any other creation
   * of a contract, by whatever means, at whatever address it comes to lie.
   */
  datatype Deploy =
    | Account(setupContract: Address, setupData: Calldata, index: Word, inner: seq<Deploy>, ok: bool)
    | Create3(deployer: Address, salt: Word, creationCode: bytes, inner: seq<Deploy>, ok: bool, runtime: bytes)
    | Foreign(target: Address, inner: seq<Deploy>, ok: bool, runtime: bytes)

  function Place(c: Chain, a: Address, code: bytes): Chain {
    c.(code := c.code[a := code], nonces := c.nonces[a := 1])
  }

  function Perform(e: Setting, c: Chain, d: Deploy): Chain
    decreases d, 0
  {
    match d
    case Account(setupContract, setupData, index, inner, ok) =>
      var proxy := Create2Address(e.hash, e.factory, Salt(e, setupContract, setupData, index), DeploymentData(e));
      if !Vacant(c, proxy) || proxy == 0 then c
      else
        var c1 := PerformAll(e, Place(c, proxy, e.proxyRuntime), inner);
        if ok then c1.(log := c1.log + [AccountCreation(setupContract, setupData, index, proxy)]) else c
    case Create3(deployer, salt, creationCode, inner, ok, runtime) =>
      var addr := AddressOf(e, deployer, salt);
      var proxy := Create2Address(e.hash, deployer, salt, e.childBytecode);
      if CodeOf(c, addr) != [] || !Vacant(c, proxy) || proxy == 0 then c
      else
        var target := CreateAddress(e.hash, proxy, 1);
        var c1 := CallChild(e, Place(c, proxy, e.childRuntime), proxy, target, inner, ok, runtime);
        if CodeOf(c1, addr) == [] then c else c1.(log := c1.log + [Created3(deployer, salt, addr, CodeOf(c1, addr))])
    case Foreign(target, inner, ok, runtime) => Create(e, c, target, inner, ok, runtime)
  }

  /** The child proxy, whose nonce is 1, creates `target`; a failed CREATE leaves only the used nonce. */
  function CallChild(e: Setting, c: Chain, proxy: Address, target: Address, inner: seq<Deploy>, ok: bool, runtime: bytes): Chain
    decreases inner, 2
  {
    Create(e, c.(nonces := c.nonces[proxy := 2]), target, inner, ok, runtime)
  }

  /** The creation of a contract: its constructor runs at a used nonce and leaves the code, or all is undone. */
  function Create(e: Setting, c: Chain, target: Address, inner: seq<Deploy>, ok: bool, runtime: bytes): Chain
    decreases inner, 1
  {
    if !Vacant(c, target) then c
    else
      var c1 := PerformAll(e, c.(nonces := c.nonces[target := 1]), inner);
      if ok then c1.(code := c1.code[target := runtime]) else c
  }

  function PerformAll(e: Setting, c: Chain, ds: seq<Deploy>): Chain
    decreases ds, 0
  {
    if ds == [] then c else PerformAll(e, Perform(e, c, ds[0]), ds[1..])
  }

  // ----- the predictions are what happens

  /** The prediction is the CREATE2 address of the proxy, and Create3's target is the CREATE address of its child. */
  lemma PredictionsAgree(e: Setting, setupContract: Address, setupData: Calldata, index: Word, deployer: Address, salt: Word)
    ensures PredictAccount(e, setupContract, setupData, index)
         == Create2Address(e.hash, e.factory, Salt(e, setupContract, setupData, index), DeploymentData(e))
    ensures PredictAccount(e, setupContract, setupData, index)
         == Low160(e.hash([0xff] + ToBytes(e.factory, 20)
                          + ToBytes(e.hash(ToBytes(e.hash(InitCall(e.initSelector, e.handler, setupContract, setupData)), 32)
                                           + ToBytes(index, 32)), 32)
                          + ToBytes(e.hash(e.proxyCreationCode + ToBytes(e.implementation, 32)), 32)))
    ensures AddressOfProxy(e, deployer, salt) == Create2Address(e.hash, deployer, salt, e.childBytecode)
    ensures AddressOf(e, deployer, salt) == CreateAddress(e.hash, AddressOfProxy(e, deployer, salt), 1)
  {
    HandWrittenRlp(AddressOfProxy(e, deployer, salt));
  }

  function EventAddress(ev: Event): Address {
    match ev
    case AccountCreation(_, _, _, proxy) => proxy
    case Created3(_, _, target, _) => target
  }

  /** The code that the deployment left. */
  function EventCode(e: Setting, ev: Event): bytes {
    match ev
    case AccountCreation(_, _, _, _) => e.proxyRuntime
    case Created3(_, _, _, code) => code
  }

  /** The event names the predicted address. */
  predicate AsPredicted(e: Setting, ev: Event) {
    match ev
    case AccountCreation(setupContract, setupData, index, proxy) =>
      proxy == PredictAccount(e, setupContract, setupData, index)
    case Created3(deployer, salt, target, _) => target == AddressOf(e, deployer, salt)
  }

  /** Code never changes, used nonces stay used, and nothing is placed where a nonce was used. */
  ghost predicate Keeps(c: Chain, d: Chain) {
    && (forall a: Address | CodeOf(c, a) != [] :: CodeOf(d, a) == CodeOf(c, a))
    && (forall a: Address | NonceOf(c, a) != 0 :: NonceOf(d, a) != 0 && CodeOf(d, a) == CodeOf(c, a))
  }

  /** New events name predicted addresses, each once, that had no code before and have what was deployed now. */
  ghost predicate Logs(e: Setting, c: Chain, d: Chain) {
    && c.log <= d.log
    && (forall i | |c.log| <= i < |d.log| ::
          && AsPredicted(e, d.log[i])
          && CodeOf(c, EventAddress(d.log[i])) == []
          && CodeOf(d, EventAddress(d.log[i])) == EventCode(e, d.log[i]) != [])
    && (forall i, j | |c.log| <= i < j < |d.log| :: EventAddress(d.log[i]) != EventAddress(d.log[j]))
  }

  ghost predicate Grows(e: Setting, c: Chain, d: Chain) {
    Keeps(c, d) && Logs(e, c, d)
  }

  lemma GrowsOn(e: Setting, c: Chain, d: Chain, f: Chain)
    requires Grows(e, c, d) && Grows(e, d, f)
    ensures Grows(e, c, f)
  {
  }

  lemma PlaceGrows(e: Setting, c: Chain, a: Address, code: bytes)
    requires Vacant(c, a) && code != []
    ensures Grows(e, c, Place(c, a, code)) && Place(c, a, code).log == c.log
    ensures CodeOf(Place(c, a, code), a) == code && NonceOf(Place(c, a, code), a) != 0
  {
  }

  lemma LogGrows(e: Setting, c: Chain, d: Chain, ev: Event)
    requires Grows(e, c, d) && AsPredicted(e, ev)
    requires CodeOf(c, EventAddress(ev)) == [] && CodeOf(d, EventAddress(ev)) == EventCode(e, ev) != []
    requires forall i | |c.log| <= i < |d.log| :: EventAddress(d.log[i]) != EventAddress(ev)
    ensures Grows(e, c, d.(log := d.log + [ev]))
  {
  }

  lemma CreateGrows(e: Setting, c: Chain, target: Address, inner: seq<Deploy>, ok: bool, runtime: bytes)
    requires e.Sensible()
    ensures var d := Create(e, c, target, inner, ok, runtime);
      && Grows(e, c, d) && (forall i | |c.log| <= i < |d.log| :: EventAddress(d.log[i]) != target)
      && (Vacant(c, target) ==> CodeOf(d, target) == if ok then runtime else [])
    decreases inner, 1
  {
    if Vacant(c, target) {
      var ct := c.(nonces := c.nonces[target := 1]);
      PerformAllGrows(e, ct, inner);
      SetCodeGrows(e, c, ct, PerformAll(e, ct, inner), target, runtime);
    }
  }

  lemma CallChildGrows(e: Setting, c: Chain, proxy: Address, target: Address, inner: seq<Deploy>, ok: bool, runtime: bytes)
    requires e.Sensible() && NonceOf(c, proxy) != 0
    ensures var d := CallChild(e, c, proxy, target, inner, ok, runtime);
      && Grows(e, c, d) && (forall i | |c.log| <= i < |d.log| :: EventAddress(d.log[i]) != target)
      && (Vacant(c, target) && proxy != target ==> CodeOf(d, target) == if ok then runtime else [])
    decreases inner, 2
  {
    var c0 := c.(nonces := c.nonces[proxy := 2]);
    assert Grows(e, c, c0);
    CreateGrows(e, c0, target, inner, ok, runtime);
    GrowsOn(e, c, c0, CallChild(e, c, proxy, target, inner, ok, runtime));
  }

  lemma SetCodeGrows(e: Setting, c: Chain, ct: Chain, c1: Chain, target: Address, runtime: bytes)
    requires Vacant(c, target) && ct == c.(nonces := c.nonces[target := 1]) && Grows(e, ct, c1)
    ensures Grows(e, c, c1.(code := c1.code[target := runtime]))
    ensures forall i | |c.log| <= i < |c1.log| :: EventAddress(c1.log[i]) != target
  {
    assert NonceOf(ct, target) != 0 && CodeOf(ct, target) == [];
    assert CodeOf(c1, target) == [];
    var d := c1.(code := c1.code[target := runtime]);
    forall a: Address
      ensures CodeOf(c, a) != [] ==> CodeOf(d, a) == CodeOf(c, a)
      ensures NonceOf(c, a) != 0 ==> NonceOf(d, a) != 0 && CodeOf(d, a) == CodeOf(c, a)
    {
      assert CodeOf(ct, a) == CodeOf(c, a) && (a != target ==> NonceOf(ct, a) == NonceOf(c, a));
    }
    assert Keeps(c, d);
  }

  lemma {:induction false} PerformGrows(e: Setting, c: Chain, d: Deploy)
    requires e.Sensible()
    ensures Grows(e, c, Perform(e, c, d))
    decreases d, 0
  {
    match d
    case Account(setupContract, setupData, index, inner, ok) =>
      var proxy := PredictAccount(e, setupContract, setupData, index);
      PredictionsAgree(e, setupContract, setupData, index, 0, 0);
      if Vacant(c, proxy) {
        PlacedGrows(e, c, proxy, e.proxyRuntime, inner);
        LogGrows(e, c, PerformAll(e, Place(c, proxy, e.proxyRuntime), inner),
                 AccountCreation(setupContract, setupData, index, proxy));
      }
    case Create3(_, _, _, _, _, _) => Create3Grows(e, c, d);
    case Foreign(target, inner, ok, runtime) => CreateGrows(e, c, target, inner, ok, runtime);
  }

  lemma Create3Grows(e: Setting, c: Chain, d: Deploy)
    requires e.Sensible() && d.Create3?
    ensures Grows(e, c, Perform(e, c, d))
    decreases d.inner, 4
  {
    var Create3(deployer, salt, _, inner, ok, runtime) := d;
    var proxy, addr := AddressOfProxy(e, deployer, salt), AddressOf(e, deployer, salt);
    PredictionsAgree(e, 0, [], 0, deployer, salt);
    if CodeOf(c, addr) == [] && Vacant(c, proxy) {
      ChildGrows(e, c, proxy, addr, inner, ok, runtime);
      var c1 := CallChild(e, Place(c, proxy, e.childRuntime), proxy, addr, inner, ok, runtime);
      if CodeOf(c1, addr) != [] {
        LogGrows(e, c, c1, Created3(deployer, salt, addr, CodeOf(c1, addr)));
      }
    }
  }

  lemma PlacedGrows(e: Setting, c: Chain, proxy: Address, code: bytes, inner: seq<Deploy>)
    requires e.Sensible() && Vacant(c, proxy) && code != []
    ensures var d := PerformAll(e, Place(c, proxy, code), inner);
      && Grows(e, c, d) && CodeOf(d, proxy) == code
      && forall i | |c.log| <= i < |d.log| :: EventAddress(d.log[i]) != proxy
    decreases inner, 1
  {
    PlaceGrows(e, c, proxy, code);
    PerformAllGrows(e, Place(c, proxy, code), inner);
    GrowsOn(e, c, Place(c, proxy, code), PerformAll(e, Place(c, proxy, code), inner));
  }

  lemma ChildGrows(e: Setting, c: Chain, proxy: Address, addr: Address, inner: seq<Deploy>, ok: bool, runtime: bytes)
    requires e.Sensible() && Vacant(c, proxy)
    ensures var d := CallChild(e, Place(c, proxy, e.childRuntime), proxy, addr, inner, ok, runtime);
      Grows(e, c, d) && forall i | |c.log| <= i < |d.log| :: EventAddress(d.log[i]) != addr
    decreases inner, 3
  {
    var c0 := Place(c, proxy, e.childRuntime);
    PlaceGrows(e, c, proxy, e.childRuntime);
    CallChildGrows(e, c0, proxy, addr, inner, ok, runtime);
    GrowsOn(e, c, c0, CallChild(e, c0, proxy, addr, inner, ok, runtime));
  }

  lemma {:induction false} PerformAllGrows(e: Setting, c: Chain, ds: seq<Deploy>)
    requires e.Sensible()
    ensures Grows(e, c, PerformAll(e, c, ds))
    decreases ds, 0
  {
    if ds != [] {
      PerformGrows(e, c, ds[0]);
      PerformAllGrows(e, Perform(e, c, ds[0]), ds[1..]);
      GrowsOn(e, c, Perform(e, c, ds[0]), PerformAll(e, c, ds));
    }
  }

  // ----- results

  /**
   * In every run, however nested and among any other creations: what is deployed lies at the address predicted in
   * any state, and the code it got is there at the end of the run.
   */
  lemma DeployedAsPredicted(e: Setting, c: Chain, ds: seq<Deploy>, i: nat)
    requires e.Sensible()
    requires |c.log| <= i < |PerformAll(e, c, ds).log|
    ensures var d := PerformAll(e, c, ds);
      AsPredicted(e, d.log[i]) && CodeOf(d, EventAddress(d.log[i])) == EventCode(e, d.log[i]) != []
  {
    PerformAllGrows(e, c, ds);
  }

  /** The code that was deployed stays for good: the account's proxy, or what the constructor left. */
  lemma DeployedCodeStays(e: Setting, c: Chain, d: Deploy, later: seq<Deploy>)
    requires e.Sensible()
    ensures var c1 := Perform(e, c, d);
      && (d.Account? && c1 != c ==>
            CodeOf(PerformAll(e, c1, later), PredictAccount(e, d.setupContract, d.setupData, d.index)) == e.proxyRuntime)
      && (d.Create3? && c1 != c && AddressOfProxy(e, d.deployer, d.salt) != AddressOf(e, d.deployer, d.salt) ==>
            CodeOf(PerformAll(e, c1, later), AddressOf(e, d.deployer, d.salt)) == d.runtime != [])
  {
    PerformAllGrows(e, Perform(e, c, d), later);
    match d
    case Account(setupContract, setupData, index, inner, ok) =>
      var proxy := PredictAccount(e, setupContract, setupData, index);
      PredictionsAgree(e, setupContract, setupData, index, 0, 0);
      if Vacant(c, proxy) {
        PlacedGrows(e, c, proxy, e.proxyRuntime, inner);
      }
    case Create3(deployer, salt, _, inner, ok, runtime) =>
      PredictionsAgree(e, 0, [], 0, deployer, salt);
      CallChildGrows(e, Place(c, AddressOfProxy(e, deployer, salt), e.childRuntime), AddressOfProxy(e, deployer, salt),
                     AddressOf(e, deployer, salt), inner, ok, runtime);
    case Foreign(_, _, _, _) =>
  }

  /**
   * No two successes of a run have the same inputs: a second `deployCounterFactualAccount` with the same
   * arguments, or a second `create3` by the same deployer with the same salt, fails.
   */
  lemma DeployedOnce(e: Setting, c: Chain, ds: seq<Deploy>, i: nat, j: nat)
    requires e.Sensible()
    requires |c.log| <= i < j < |PerformAll(e, c, ds).log|
    ensures var log := PerformAll(e, c, ds).log; !SameInputs(log[i], log[j])
  {
    PerformAllGrows(e, c, ds);
  }

  predicate SameInputs(ev: Event, other: Event) {
    match ev
    case AccountCreation(setupContract, setupData, index, _) =>
      other.AccountCreation? && other.setupContract == setupContract && other.setupData == setupData && other.index == index
    case Created3(deployer, salt, _, _) => other.Created3? && other.deployer == deployer && other.salt == salt
  }

  /** The same inputs again: for `create3` the creation code plays no part. */
  predicate Repeats(d: Deploy, ev: Event) {
    match d
    case Account(setupContract, setupData, index, _, _) =>
      ev.AccountCreation? && ev.setupContract == setupContract && ev.setupData == setupData && ev.index == index
    case Create3(deployer, salt, _, _, _, _) => ev.Created3? && ev.deployer == deployer && ev.salt == salt
    case Foreign(_, _, _, _) => false
  }

  /** After any run, a deployment with the inputs of one that succeeded in it changes nothing. */
  lemma RepeatFails(e: Setting, c: Chain, ds: seq<Deploy>, i: nat, again: Deploy)
    requires e.Sensible()
    requires var d := PerformAll(e, c, ds); |c.log| <= i < |d.log| && Repeats(again, d.log[i])
    ensures var d := PerformAll(e, c, ds); Perform(e, d, again) == d
  {
    PerformAllGrows(e, c, ds);
    var ev := PerformAll(e, c, ds).log[i];
    if again.Account? {
      PredictionsAgree(e, ev.setupContract, ev.setupData, ev.index, 0, 0);
    }
  }

  /**
   * When a deployment goes through: the predicted place is free and the foreign code returns; a `create3` also
   * has to leave code.
   */
  lemma SucceedsWhen(e: Setting, c: Chain, d: Deploy)
    requires e.Sensible()
    ensures d.Account? ==>
      var proxy := PredictAccount(e, d.setupContract, d.setupData, d.index);
      Perform(e, c, d) != c <==> Vacant(c, proxy) && proxy != 0 && d.ok
    ensures d.Create3? ==>
      var proxy, addr := AddressOfProxy(e, d.deployer, d.salt), AddressOf(e, d.deployer, d.salt);
      proxy != addr ==>
        (Perform(e, c, d) != c <==> Vacant(c, proxy) && proxy != 0 && Vacant(c, addr) && d.ok && d.runtime != [])
  {
    match d
    case Account(setupContract, setupData, index, inner, ok) =>
      var proxy := PredictAccount(e, setupContract, setupData, index);
      PredictionsAgree(e, setupContract, setupData, index, 0, 0);
      PerformAllGrows(e, Place(c, proxy, e.proxyRuntime), inner);
    case Create3(deployer, salt, _, inner, ok, runtime) =>
      var proxy, addr := AddressOfProxy(e, deployer, salt), AddressOf(e, deployer, salt);
      PredictionsAgree(e, 0, [], 0, deployer, salt);
      CallChildGrows(e, Place(c, proxy, e.childRuntime), proxy, addr, inner, ok, runtime);
    case Foreign(_, _, _, _) =>
  }

  /** A deployment that goes through keeps what foreign code deployed inside it; one that fails keeps nothing. */
  lemma AccountDeploys(e: Setting, c: Chain, d: Deploy)
    requires d.Account?
    ensures var proxy := PredictAccount(e, d.setupContract, d.setupData, d.index);
      var inside := PerformAll(e, Place(c, proxy, e.proxyRuntime), d.inner);
      Perform(e, c, d) == if Vacant(c, proxy) && proxy != 0 && d.ok
                          then inside.(log := inside.log + [AccountCreation(d.setupContract, d.setupData, d.index, proxy)]) else c
  {
    PredictionsAgree(e, d.setupContract, d.setupData, d.index, 0, 0);
  }

  lemma ForeignDeploys(e: Setting, c: Chain, d: Deploy)
    requires d.Foreign?
    ensures var inside := PerformAll(e, c.(nonces := c.nonces[d.target := 1]), d.inner);
      Perform(e, c, d) == if Vacant(c, d.target) && d.ok then inside.(code := inside.code[d.target := d.runtime]) else c
  {
  }

  lemma Create3Deploys(e: Setting, c: Chain, d: Deploy)
    requires d.Create3? && Perform(e, c, d) != c
    ensures var proxy, addr := AddressOfProxy(e, d.deployer, d.salt), AddressOf(e, d.deployer, d.salt);
      var placed := Place(c, proxy, e.childRuntime);
      var inside := PerformAll(e, placed.(nonces := placed.nonces[proxy := 2][addr := 1]), d.inner);
      proxy != addr ==>
        Perform(e, c, d) == inside.(code := inside.code[addr := d.runtime],
                                    log := inside.log + [Created3(d.deployer, d.salt, addr, d.runtime)])
  {
    PredictionsAgree(e, 0, [], 0, d.deployer, d.salt);
    var proxy, addr := AddressOfProxy(e, d.deployer, d.salt), AddressOf(e, d.deployer, d.salt);
    var placed := Place(c, proxy, e.childRuntime);
    if proxy != addr {
      var used := placed.(nonces := placed.nonces[proxy := 2]);
      assert CodeOf(used, addr) == [];
      var c1 := CallChild(e, placed, proxy, addr, d.inner, d.ok, d.runtime);
      assert c1 == Create(e, used, addr, d.inner, d.ok, d.runtime);
      assert CodeOf(c1, addr) != [];
      assert Vacant(used, addr) && d.ok;
    }
  }

  lemma MiddleDiffers(before: bytes, x: bytes, y: bytes, after: bytes)
    requires x != y && |x| == |y|
    ensures before + x + after != before + y + after
  {
    assert (before + x + after)[|before|..|before| + |x|] == x;
    assert (before + y + after)[|before|..|before| + |y|] == y;
  }

  lemma ToBytesInjective(x: nat, y: nat, n: nat)
    requires x < Capacity(n) && y < Capacity(n) && x != y
    ensures ToBytes(x, n) != ToBytes(y, n)
  {
    RoundTrip(x, n);
    RoundTrip(y, n);
  }

  // ----- shared addresses are collisions of the hash on the very inputs

  /** Two different inputs whose hashes share the 160 bits that make an address. */
  predicate Collide(hash: Hash, x: bytes, y: bytes) {
    x != y && Low160(hash(x)) == Low160(hash(y))
  }

  /** What is hashed to the address of the child proxy, and of the contract that it makes. */
  function ProxyPreimage(e: Setting, deployer: Address, salt: Word): bytes {
    [0xff] + ToBytes(deployer, 20) + ToBytes(salt, 32) + ToBytes(e.hash(e.childBytecode), 32)
  }

  function TargetPreimage(e: Setting, deployer: Address, salt: Word): bytes {
    [0xd6, 0x94] + ToBytes(AddressOfProxy(e, deployer, salt), 20) + [0x01]
  }

  /** Two different salts share a target only if the hash collides on the inputs of their proxies or of their targets. */
  lemma SharedTargetIsCollision(e: Setting, deployer: Address, salt: Word, other: Word)
    requires salt != other && AddressOf(e, deployer, salt) == AddressOf(e, deployer, other)
    ensures || Collide(e.hash, ProxyPreimage(e, deployer, salt), ProxyPreimage(e, deployer, other))
            || Collide(e.hash, TargetPreimage(e, deployer, salt), TargetPreimage(e, deployer, other))
  {
    var p, q := AddressOfProxy(e, deployer, salt), AddressOfProxy(e, deployer, other);
    Capacities();
    if p == q {
      ToBytesInjective(salt, other, 32);
      MiddleDiffers([0xff] + ToBytes(deployer, 20), ToBytes(salt, 32), ToBytes(other, 32), ToBytes(e.hash(e.childBytecode), 32));
    } else {
      ToBytesInjective(p, q, 20);
      MiddleDiffers([0xd6, 0x94], ToBytes(p, 20), ToBytes(q, 20), [0x01]);
    }
  }

  lemma Halves(a: bytes, b: bytes, c: bytes, d: bytes)
    requires |a| == |c| && a + b == c + d
    ensures a == c && b == d
  {
    assert (a + b)[..|a|] == a && (a + b)[|a|..] == b;
    assert (c + d)[..|c|] == c && (c + d)[|c|..] == d;
  }

  /** The words of the `init` call, as the ABI lays them out; the data come at byte 0x60 of the arguments, behind their length. */
  lemma InitCallLayout(selector: bytes, handler: Address, setupContract: Address, setupData: Calldata)
    ensures var s, n := InitCall(selector, handler, setupContract, setupData), |selector|;
      && |s| >= n + 128 + |setupData| && s[..n] == selector
      && FromBytes(s[n..n + 32]) == handler && FromBytes(s[n + 32..n + 64]) == setupContract
      && FromBytes(s[n + 64..n + 96]) == 0x60 && FromBytes(s[n + 96..n + 128]) == |setupData|
      && s[n + 128..n + 128 + |setupData|] == setupData && s[n + 128 + |setupData|..] == Padding(|setupData|)
  {
    Slices(selector, WordBytes(handler), WordBytes(setupContract), WordBytes(0x60), WordBytes(|setupData|), setupData,
           Padding(|setupData|));
  }

  /** Zeros, up to the next whole word. */
  lemma PaddedToWords(n: nat)
    ensures |Padding(n)| < 32 && (n + |Padding(n)|) % 32 == 0
    ensures forall b | b in Padding(n) :: b == 0
  {
  }

  lemma Slices(a: bytes, b: bytes, c: bytes, d: bytes, e: bytes, f: bytes, g: bytes)
    requires |b| == |c| == |d| == |e| == 32
    ensures var s, n := a + (b + (c + (d + (e + (f + g))))), |a|;
      && |s| == n + 128 + |f| + |g|
      && s[..n] == a && s[n..n + 32] == b && s[n + 32..n + 64] == c && s[n + 64..n + 96] == d && s[n + 96..n + 128] == e
      && s[n + 128..n + 128 + |f|] == f && s[n + 128 + |f|..] == g
  {
  }

  /** Different set-up contracts or data make different `init` calls. */
  lemma InitCallInjective(
    selector: bytes, handler: Address, setupContract: Address, setupData: Calldata, other: Address, otherData: Calldata)
    requires InitCall(selector, handler, setupContract, setupData) == InitCall(selector, handler, other, otherData)
    ensures setupContract == other && setupData == otherData
  {
    var x4, y4 := setupData + Padding(|setupData|), otherData + Padding(|otherData|);
    var x3, y3 := WordBytes(|setupData|) + x4, WordBytes(|otherData|) + y4;
    var x2, y2 := WordBytes(0x60) + x3, WordBytes(0x60) + y3;
    var x1, y1 := WordBytes(setupContract) + x2, WordBytes(other) + y2;
    Halves(selector, WordBytes(handler) + x1, selector, WordBytes(handler) + y1);
    Halves(WordBytes(handler), x1, WordBytes(handler), y1);
    Halves(WordBytes(setupContract), x2, WordBytes(other), y2);
    Halves(WordBytes(0x60), x3, WordBytes(0x60), y3);
    Halves(WordBytes(|setupData|), x4, WordBytes(|otherData|), y4);
    Halves(setupData, Padding(|setupData|), otherData, Padding(|otherData|));
  }

  /** The inputs of an account's deployment. */
  datatype Inputs = Inputs(setupContract: Address, setupData: Calldata, index: Word)
  {
    function Call(e: Setting): bytes {
      InitCall(e.initSelector, e.handler, setupContract, setupData)
    }

    function SaltPreimage(e: Setting): bytes {
      ToBytes(e.hash(Call(e)), 32) + ToBytes(index, 32)
    }

    function AccountPreimage(e: Setting): bytes {
      [0xff] + ToBytes(e.factory, 20) + ToBytes(e.hash(SaltPreimage(e)), 32)
      + ToBytes(e.hash(e.proxyCreationCode + ToBytes(e.implementation, 32)), 32)
    }
  }

  /**
   * Two accounts that differ in set-up contract, set-up data or index share an address only if the hash collides on
   * what their addresses are made of, or, in all 256 bits, on what their salts or their `init` calls are made of.
   */
  lemma SharedAccountIsCollision(e: Setting, i: Inputs, j: Inputs)
    requires i != j
    requires PredictAccount(e, i.setupContract, i.setupData, i.index) == PredictAccount(e, j.setupContract, j.setupData, j.index)
    ensures || Collide(e.hash, i.AccountPreimage(e), j.AccountPreimage(e))
            || (i.SaltPreimage(e) != j.SaltPreimage(e) && e.hash(i.SaltPreimage(e)) == e.hash(j.SaltPreimage(e)))
            || (i.Call(e) != j.Call(e) && e.hash(i.Call(e)) == e.hash(j.Call(e)))
  {
    var s, t := e.hash(i.SaltPreimage(e)), e.hash(j.SaltPreimage(e));
    Capacities();
    if s != t {
      ToBytesInjective(s, t, 32);
      MiddleDiffers([0xff] + ToBytes(e.factory, 20), ToBytes(s, 32), ToBytes(t, 32), ToBytes(e.hash(DeploymentData(e)), 32));
    } else if i.index != j.index {
      ToBytesInjective(i.index, j.index, 32);
      HalvesDiffer(ToBytes(e.hash(i.Call(e)), 32), ToBytes(i.index, 32), ToBytes(e.hash(j.Call(e)), 32), ToBytes(j.index, 32));
    } else {
      if i.Call(e) == j.Call(e) {
        InitCallInjective(e.initSelector, e.handler, i.setupContract, i.setupData, j.setupContract, j.setupData);
      }
      if e.hash(i.Call(e)) != e.hash(j.Call(e)) {
        ToBytesInjective(e.hash(i.Call(e)), e.hash(j.Call(e)), 32);
        HalvesDiffer(ToBytes(e.hash(i.Call(e)), 32), ToBytes(i.index, 32), ToBytes(e.hash(j.Call(e)), 32), ToBytes(j.index, 32));
      }
    }
  }

  lemma HalvesDiffer(a: bytes, b: bytes, c: bytes, d: bytes)
    requires |a| == |c| && (a != c || b != d)
    ensures a + b != c + d
  {
    if a + b == c + d {
      Halves(a, b, c, d);
    }
  }
}

/** The chain as an object that deployments change in place. */
module DeploymentChain {
  import opened Words
  import opened Bytes
  import opened D = Deployment

  class World {
    const e: Setting
    var code: map<Address, bytes>
    var nonces: map<Address, nat>
    var log: seq<Event>

    ghost function Here(): Chain
      reads this
    {
      Chain(code, nonces, log)
    }

    constructor (e: Setting, c: Chain)
      ensures this.e == e && Here() == c
    {
      this.e := e;
      code, nonces, log := c.code, c.nonces, c.log;
    }

    method Restore(c: Chain)
      modifies this
      ensures Here() == c
    {
      code, nonces, log := c.code, c.nonces, c.log;
    }

    method DeployCounterFactualAccount(
      setupContract: Address, setupData: Calldata, index: Word, inner: seq<Deploy>, ok: bool)
      modifies this
      ensures Here() == Perform(e, old(Here()), Account(setupContract, setupData, index, inner, ok))
      decreases inner, 4
    {
      var saved := Chain(code, nonces, log);
      var salt := Salt(e, setupContract, setupData, index);
      var proxy := Create2Address(e.hash, e.factory, salt, DeploymentData(e));
      if !Vacant(saved, proxy) || proxy == 0 {
        return;
      }
      code, nonces := code[proxy := e.proxyRuntime], nonces[proxy := 1];
      DeployAll(inner);
      if ok {
        log := log + [AccountCreation(setupContract, setupData, index, proxy)];
      } else {
        Restore(saved);
      }
    }

    method Create3(deployer: Address, salt: Word, creationCode: bytes, inner: seq<Deploy>, ok: bool, runtime: bytes)
      modifies this
      ensures Here() == Perform(e, old(Here()), Deploy.Create3(deployer, salt, creationCode, inner, ok, runtime))
      decreases inner, 4
    {
      var saved := Chain(code, nonces, log);
      var addr := AddressOf(e, deployer, salt);
      var proxy := Create2Address(e.hash, deployer, salt, e.childBytecode);
      if CodeOf(saved, addr) != [] || !Vacant(saved, proxy) || proxy == 0 {
        return;
      }
      code, nonces := code[proxy := e.childRuntime], nonces[proxy := 1];
      CallProxy(proxy, CreateAddress(e.hash, proxy, 1), inner, ok, runtime);
      if addr !in code || code[addr] == [] {
        Restore(saved);
      } else {
        log := log + [Created3(deployer, salt, addr, code[addr])];
      }
    }

    method CallProxy(proxy: Address, target: Address, inner: seq<Deploy>, ok: bool, runtime: bytes)
      modifies this
      ensures Here() == CallChild(e, old(Here()), proxy, target, inner, ok, runtime)
      decreases inner, 3
    {
      nonces := nonces[proxy := 2];
      Create(target, inner, ok, runtime);
    }

    method Create(target: Address, inner: seq<Deploy>, ok: bool, runtime: bytes)
      modifies this
      ensures Here() == D.Create(e, old(Here()), target, inner, ok, runtime)
      decreases inner, 2
    {
      var saved := Chain(code, nonces, log);
      if !Vacant(saved, target) {
        return;
      }
      nonces := nonces[target := 1];
      DeployAll(inner);
      if ok {
        code := code[target := runtime];
      } else {
        Restore(saved);
      }
    }

    method DeployAll(ds: seq<Deploy>)
      modifies this
      ensures Here() == PerformAll(e, old(Here()), ds)
      decreases ds, 1
    {
      ghost var start := Here();
      var i := 0;
      while i < |ds|
        invariant 0 <= i <= |ds|
        invariant PerformAll(e, Here(), ds[i..]) == PerformAll(e, start, ds)
      {
        assert ds[i..][1..] == ds[i + 1..];
        match ds[i] {
          case Account(setupContract, setupData, index, inner, ok) =>
            DeployCounterFactualAccount(setupContract, setupData, index, inner, ok);
          case Create3(deployer, salt, creationCode, inner, ok, runtime) =>
            Create3(deployer, salt, creationCode, inner, ok, runtime);
          case Foreign(target, inner, ok, runtime) => Create(target, inner, ok, runtime);
        }
        i := i + 1;
      }
    }
  }
}
