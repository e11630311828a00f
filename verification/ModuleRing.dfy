/**
 * The modules of a smart account: a circular linked list with a sentinel, threaded through one mapping,
 * and the guarded operations on it.
 */
module ModuleRing {
  import opened Words

  const SENTINEL: Address := 1

  type Modules = map<Address, Address>

  /** A mapping read: unwritten entries are zero. */
  function At(m: Modules, a: Address): Address {
    if a in m then m[a] else 0
  }

  function Write(m: Modules, a: Address, v: Address): (r: Modules)
    ensures forall b: Address :: At(r, b) == if b == a then v else At(m, b)
  {
    m[a := v]
  }

  // ----- the list behind the mapping

  /** Modules are neither zero nor the sentinel. */
  predicate Modular(list: seq<Address>) {
    forall i | 0 <= i < |list| :: list[i] != 0 && list[i] != SENTINEL
  }

  predicate Distinct(list: seq<Address>) {
    forall i, j | 0 <= i < j < |list| :: list[i] != list[j]
  }

  /** The `i`-th stop on the way round: from the sentinel through the list and back. */
  function Stop(list: seq<Address>, i: nat): Address
    requires i <= |list| + 1
  {
    if i == 0 || i == |list| + 1 then SENTINEL else list[i - 1]
  }

  /** The entry of the `i`-th stop is the stop after it. */
  predicate Linked(m: Modules, list: seq<Address>, i: nat)
    requires i <= |list|
  {
    At(m, Stop(list, i)) == Stop(list, i + 1)
  }

  ghost predicate Chained(m: Modules, list: seq<Address>) {
    Modular(list) && forall i | 0 <= i <= |list| :: Linked(m, list, i)
  }

  /** `m` links the stops of `list` in a ring, and nothing else has an entry. */
  ghost predicate Ring(m: Modules, list: seq<Address>) {
    && Chained(m, list)
    && Distinct(list)
    && (forall a: Address :: At(m, a) != 0 <==> a == SENTINEL || a in list)
  }

  /** A mapping holds at most one list. */
  lemma RingUnique(m: Modules, list: seq<Address>, other: seq<Address>)
    requires Ring(m, list) && Ring(m, other)
    ensures list == other
  {
    var n := if |list| <= |other| then |list| else |other|;
    StopsAgree(m, list, other, n);
    assert Linked(m, list, n) && Linked(m, other, n);
    assert Stop(list, n + 1) == Stop(other, n + 1);
    forall i | 0 <= i < n
      ensures list[i] == other[i]
    {
      assert Stop(list, i + 1) == Stop(other, i + 1);
    }
  }

  lemma {:induction false} StopsAgree(m: Modules, list: seq<Address>, other: seq<Address>, n: nat)
    requires Ring(m, list) && Ring(m, other) && n <= |list| && n <= |other|
    ensures forall i | 0 <= i <= n :: Stop(list, i) == Stop(other, i)
  {
    if n != 0 {
      StopsAgree(m, list, other, n - 1);
      assert Linked(m, list, n - 1) && Linked(m, other, n - 1);
    }
  }

  // ----- the storage operations

  datatype Option<+T> = None | Some(value: T)

  /** `_enableModule`. */
  function Enable(m: Modules, module_: Address): Option<Modules> {
    if module_ == 0 || module_ == SENTINEL || At(m, module_) != 0 then None
    else Some(Write(Write(m, module_, At(m, SENTINEL)), SENTINEL, module_))
  }

  /** `_disableModule`. */
  function Disable(m: Modules, prev: Address, module_: Address): Option<Modules> {
    if module_ == 0 || module_ == SENTINEL || At(m, prev) != module_ then None
    else Some(Write(Write(m, prev, At(m, module_)), module_, 0))
  }

  /** The writes of `_initialSetupModules`. */
  function StartRing(m: Modules, module_: Address): Option<Modules> {
    if module_ == 0 || module_ == SENTINEL then None
    else Some(Write(Write(m, module_, SENTINEL), SENTINEL, module_))
  }

  function IsEnabled(m: Modules, module_: Address): bool {
    SENTINEL != module_ && At(m, module_) != 0
  }

  /** The guard of `validateUserOp` and `isValidSignature`. */
  function MayValidate(m: Modules, module_: Address): bool {
    At(m, module_) != 0
  }

  /**
   * On any mapping, a ring or not: enabling puts a new proper module between the sentinel and what it pointed to,
   * disabling lets the entry before a module skip it, and the first module and the sentinel point at each other;
   * no other entry changes.
   */
  lemma EntriesWritten(m: Modules, prev: Address, x: Address)
    ensures Enable(m, x).Some? <==> x != 0 && x != SENTINEL && At(m, x) == 0
    ensures Enable(m, x).Some? ==> forall a: Address ::
      At(Enable(m, x).value, a) == if a == SENTINEL then x else if a == x then At(m, SENTINEL) else At(m, a)
    ensures Disable(m, prev, x).Some? <==> x != 0 && x != SENTINEL && At(m, prev) == x
    ensures Disable(m, prev, x).Some? ==> forall a: Address ::
      At(Disable(m, prev, x).value, a) == if a == x then 0 else if a == prev then At(m, x) else At(m, a)
    ensures StartRing(m, x).Some? <==> x != 0 && x != SENTINEL
    ensures StartRing(m, x).Some? ==> forall a: Address ::
      At(StartRing(m, x).value, a) == if a == SENTINEL then x else if a == x then SENTINEL else At(m, a)
  {
  }

  // ----- the storage operations are list operations

  /** Enabling succeeds exactly for a new proper module, and prepends it. */
  lemma EnableIsPrepend(m: Modules, list: seq<Address>, x: Address)
    requires Ring(m, list)
    ensures Enable(m, x).Some? <==> x != 0 && x != SENTINEL && x !in list
    ensures Enable(m, x).Some? ==> Ring(Enable(m, x).value, [x] + list)
  {
    if Enable(m, x).Some? {
      var r := Enable(m, x).value;
      var longer := [x] + list;
      assert Linked(m, list, 0);
      forall i | 0 <= i <= |longer|
        ensures Linked(r, longer, i)
      {
        if i >= 2 {
          assert Stop(longer, i) == Stop(list, i - 1) == list[i - 2] && Stop(longer, i + 1) == Stop(list, i);
          assert Linked(m, list, i - 1);
        }
      }
    }
  }

  /** Disabling succeeds exactly for a listed module named with the element before it, and removes it. */
  lemma DisableIsRemove(m: Modules, list: seq<Address>, prev: Address, x: Address)
    requires Ring(m, list)
    ensures Disable(m, prev, x).Some? <==> exists i | 0 <= i < |list| :: list[i] == x && Stop(list, i) == prev
    ensures forall i | 0 <= i < |list| && list[i] == x && Stop(list, i) == prev ::
      Ring(Disable(m, prev, x).value, list[..i] + list[i + 1..])
  {
    if Disable(m, prev, x).Some? {
      assert At(m, prev) != 0;
      var i := if prev == SENTINEL then 0 else IndexOf(list, prev) + 1;
      assert Stop(list, i) == prev && Linked(m, list, i);
      assert i < |list| && list[i] == x;
    }
    forall i | 0 <= i < |list| && list[i] == x && Stop(list, i) == prev
      ensures Disable(m, prev, x).Some? && Ring(Disable(m, prev, x).value, list[..i] + list[i + 1..])
    {
      assert Linked(m, list, i);
      RemoveKeepsRing(m, list, i);
    }
  }

  function IndexOf(list: seq<Address>, x: Address): (i: nat)
    requires x in list
    ensures i < |list| && list[i] == x
  {
    if list[0] == x then 0 else 1 + IndexOf(list[1..], x)
  }

  lemma RemoveKeepsRing(m: Modules, list: seq<Address>, i: nat)
    requires Ring(m, list) && i < |list|
    ensures Ring(Write(Write(m, Stop(list, i), At(m, list[i])), list[i], 0), list[..i] + list[i + 1..])
  {
    var r := Write(Write(m, Stop(list, i), At(m, list[i])), list[i], 0);
    var shorter := list[..i] + list[i + 1..];
    RemovedMembers(list, i);
    forall j | 0 <= j <= |shorter|
      ensures Linked(r, shorter, j)
    {
      RemovedLink(m, list, i, j);
    }
  }

  lemma RemovedLink(m: Modules, list: seq<Address>, i: nat, j: nat)
    requires Chained(m, list) && Distinct(list) && i < |list| && j < |list|
    ensures Linked(Write(Write(m, Stop(list, i), At(m, list[i])), list[i], 0), list[..i] + list[i + 1..], j)
  {
    var k := if j <= i then j else j + 1;
    var shorter := list[..i] + list[i + 1..];
    assert Stop(shorter, j) == Stop(list, k);
    assert Stop(shorter, j + 1) == Stop(list, if j < i then j + 1 else j + 2);
    assert Linked(m, list, k) && Linked(m, list, i + 1);
    StopsDistinct(list, k, i);
    StopsDistinct(list, k, i + 1);
  }

  /** The first |list| + 1 stops are pairwise distinct. */
  lemma StopsDistinct(list: seq<Address>, j: nat, k: nat)
    requires Modular(list) && Distinct(list) && j <= |list| && k <= |list|
    ensures Stop(list, j) == Stop(list, k) <==> j == k
  {
    assert j > 0 ==> Stop(list, j) == list[j - 1];
    assert k > 0 ==> Stop(list, k) == list[k - 1];
  }

  lemma RemovedMembers(list: seq<Address>, i: nat)
    requires Modular(list) && Distinct(list) && i < |list|
    ensures var shorter := list[..i] + list[i + 1..];
      Modular(shorter) && Distinct(shorter) && forall a: Address :: a in shorter <==> a in list && a != list[i]
  {
    var shorter := list[..i] + list[i + 1..];
    forall a: Address | a in list && a != list[i]
      ensures a in shorter
    {
      var k := IndexOf(list, a);
      assert a == shorter[if k < i then k else k - 1];
    }
  }

  /** Each enabled module has exactly one `prevModule` with which it can be disabled. */
  lemma UniquePrevious(m: Modules, list: seq<Address>, x: Address)
    requires Ring(m, list) && x in list
    ensures exists prev: Address :: Disable(m, prev, x).Some?
    ensures forall p: Address, q: Address | Disable(m, p, x).Some? && Disable(m, q, x).Some? :: p == q
  {
    var i := IndexOf(list, x);
    DisableIsRemove(m, list, Stop(list, i), x);
    assert Disable(m, Stop(list, i), x).Some?;
    forall p: Address, q: Address | Disable(m, p, x).Some? && Disable(m, q, x).Some?
      ensures p == q
    {
      DisableIsRemove(m, list, p, x);
      DisableIsRemove(m, list, q, x);
    }
  }

  /** The first module makes a ring of one, exactly when the mapping had no entries but the sentinel's and its own. */
  lemma StartIsSingleton(m: Modules, x: Address)
    ensures StartRing(m, x).Some? <==> x != 0 && x != SENTINEL
    ensures StartRing(m, x).Some? ==>
      (Ring(StartRing(m, x).value, [x]) <==> forall a: Address | At(m, a) != 0 :: a == SENTINEL || a == x)
  {
    if StartRing(m, x).Some? {
      var r := StartRing(m, x).value;
      assert Linked(r, [x], 0) && Linked(r, [x], 1);
      forall a: Address | Ring(r, [x]) && At(m, a) != 0
        ensures a == SENTINEL || a == x
      {
        assert At(r, a) != 0 || a == SENTINEL || a == x;
      }
    }
  }

  lemma OnlyModule(m: Modules, list: seq<Address>, x: Address)
    requires Ring(m, list) && x != SENTINEL && At(m, SENTINEL) == x && At(m, x) == SENTINEL
    ensures list == [x]
  {
    assert Linked(m, list, 0) && Stop(list, 0) == SENTINEL;
    assert Linked(m, list, 1) && list[0] == x;
  }

  /** `isModuleEnabled` is membership; the validation guard lets the sentinel through as well. */
  lemma GuardsAreMembership(m: Modules, list: seq<Address>, x: Address)
    requires Ring(m, list)
    ensures IsEnabled(m, x) <==> x in list
    ensures MayValidate(m, x) <==> x in list || x == SENTINEL
  {
  }

  // ----- paging

  /** The modules met from `current` on, at most `n` of them. */
  function Walk(m: Modules, current: Address, n: nat): seq<Address>
    decreases n
  {
    if current == 0 || current == SENTINEL || n == 0 then [] else [current] + Walk(m, At(m, current), n - 1)
  }

  /** Where that walk stops. */
  function WalkEnd(m: Modules, current: Address, n: nat): Address
    decreases n
  {
    if current == 0 || current == SENTINEL || n == 0 then current else WalkEnd(m, At(m, current), n - 1)
  }

  function Least(x: nat, y: nat): nat {
    if x < y then x else y
  }

  /**
   * A page that starts after the `i`-th stop holds the next modules in order, as many as asked
   * for or as there are, and `next` is the element right after them.
   */
  lemma {:induction false} PageIsSlice(m: Modules, list: seq<Address>, i: nat, n: nat)
    requires Chained(m, list) && i <= |list|
    ensures var last := Least(i + n, |list|);
      && Walk(m, At(m, Stop(list, i)), n) == list[i..last]
      && WalkEnd(m, At(m, Stop(list, i)), n) == Stop(list, last + 1)
    decreases n
  {
    var last := Least(i + n, |list|);
    var first := Stop(list, i + 1);
    assert Linked(m, list, i);
    if n == 0 || i == |list| {
      assert list[i..last] == [];
    } else {
      assert first == list[i];
      PageIsSlice(m, list, i + 1, n - 1);
      assert list[i..last] == [first] + list[i + 1..last];
    }
  }

  lemma Spliced(list: seq<Address>, i: nat, j: nat, k: nat)
    requires i <= j <= k <= |list|
    ensures list[i..j] + list[j..k] == list[i..k]
    ensures k == j + 1 ==> list[j..k] == [list[j]]
  {
  }

  /** A page asked for after an address outside the ring is empty. */
  lemma PageOutside(m: Modules, list: seq<Address>, start: Address, n: nat)
    requires Ring(m, list) && start != SENTINEL && start !in list
    ensures Walk(m, At(m, start), n) == [] && WalkEnd(m, At(m, start), n) == 0
  {
  }

  /** Pages of the given sizes, each asked for after the last module of the one before. */
  function Pages(m: Modules, start: Address, sizes: seq<nat>): seq<Address>
    decreases sizes
  {
    if sizes == [] then []
    else
      var page := Walk(m, At(m, start), sizes[0]);
      if page == [] then [] else page + Pages(m, page[|page| - 1], sizes[1..])
  }

  function Sum(sizes: seq<nat>): nat {
    if sizes == [] then 0 else sizes[0] + Sum(sizes[1..])
  }

  /** Continuing after the last module returned misses nothing: positive page sizes rebuild the list. */
  lemma {:induction false} PagesRebuild(m: Modules, list: seq<Address>, i: nat, sizes: seq<nat>)
    requires Chained(m, list) && i <= |list|
    requires forall k | 0 <= k < |sizes| :: sizes[k] > 0
    ensures Pages(m, Stop(list, i), sizes) == list[i..Least(i + Sum(sizes), |list|)]
    decreases |sizes|
  {
    if sizes != [] {
      PageIsSlice(m, list, i, sizes[0]);
      var last := Least(i + sizes[0], |list|);
      if i < last {
        assert Stop(list, last) == list[last - 1];
        PagesRebuild(m, list, last, sizes[1..]);
        Spliced(list, i, last, Least(i + Sum(sizes), |list|));
      }
    }
  }

  /** Continuing after `next` instead skips exactly `next`, whenever it is a module. */
  lemma NextIsSkipped(m: Modules, list: seq<Address>, i: nat, n: nat, k: nat)
    requires Chained(m, list) && i + n < |list|
    ensures var j := i + n;
      && Walk(m, At(m, Stop(list, i)), n) == list[i..j]
      && WalkEnd(m, At(m, Stop(list, i)), n) == list[j]
      && Walk(m, At(m, list[j]), k) == list[j + 1..Least(j + 1 + k, |list|)]
  {
    var j := i + n;
    PageIsSlice(m, list, i, n);
    PageIsSlice(m, list, j + 1, k);
    assert Stop(list, j + 1) == list[j];
  }
}
