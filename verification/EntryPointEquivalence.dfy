/** `handleAggregatedOps` without aggregators is `handleOps` on the concatenated operations. */
module EntryPointEquivalence {
  import opened Words
  import opened Ledger
  import opened EntryPointSpec
  import opened EntryPointInvariant

  predicate NoAggregator(groups: seq<Group>) {
    forall g | g in groups :: g.aggregator == 0
  }

  lemma {:induction false} ValidateAllAppend(w: World, b: Block, runs: seq<OpRun>, more: seq<OpRun>, aggregator: Address)
    ensures ValidateAll(w, b, runs + more, aggregator)
         == var r := ValidateAll(w, b, runs, aggregator);
            if r.Fail? then r
            else
              var q := ValidateAll(r.w, b, more, aggregator);
              if q.Fail? then q else Ok(q.w, r.value + q.value)
    decreases runs
  {
    if runs == [] {
      assert runs + more == more;
      var q := ValidateAll(w, b, more, aggregator);
      assert q.Ok? ==> [] + q.value == q.value;
    } else {
      assert (runs + more)[1..] == runs[1..] + more && (runs + more)[0] == runs[0];
      var v := Validate(w, b, runs[0], aggregator);
      if v.Ok? {
        ValidateAllAppend(v.w, b, runs[1..], more, aggregator);
        var r := ValidateAll(v.w, b, runs[1..], aggregator);
        if r.Ok? {
          var q := ValidateAll(r.w, b, more, aggregator);
          assert q.Ok? ==> [v.value] + (r.value + q.value) == [v.value] + r.value + q.value;
        }
      }
    }
  }

  lemma {:induction false} ValidateGroupsIsFlat(w: World, b: Block, groups: seq<Group>)
    requires NoAggregator(groups)
    ensures ValidateGroups(w, b, groups) == ValidateAll(w, b, Flatten(groups), 0)
    decreases groups
  {
    if groups != [] {
      ValidateAllAppend(w, b, groups[0].runs, Flatten(groups[1..]), 0);
      var r := ValidateAll(w, b, groups[0].runs, 0);
      if r.Ok? {
        ValidateGroupsIsFlat(r.w, b, groups[1..]);
      }
    }
  }

  lemma {:induction false} CheckSignaturesSkips(w: World, b: Block, groups: seq<Group>)
    requires NoAggregator(groups)
    ensures CheckSignatures(w, b, groups) == Ok(w, ())
    decreases groups
  {
    if groups != [] {
      CheckSignaturesSkips(w, b, groups[1..]);
    }
  }

  lemma {:induction false} ExecuteAllAppend(
    w: World, b: Block, runs: seq<OpRun>, more: seq<OpRun>, infos: seq<OpInfo>, rest: seq<OpInfo>, collected: Word, checked: bool)
    requires |infos| == |runs| && |rest| == |more|
    ensures ExecuteAll(w, b, runs + more, infos + rest, collected, checked)
         == var r := ExecuteAll(w, b, runs, infos, collected, checked);
            if r.Ok? then ExecuteAll(r.w, b, more, rest, r.value, checked) else r
    decreases runs
  {
    if runs == [] {
      assert runs + more == more && infos + rest == rest;
    } else {
      assert (runs + more)[1..] == runs[1..] + more && (infos + rest)[1..] == infos[1..] + rest;
      assert (runs + more)[0] == runs[0] && (infos + rest)[0] == infos[0];
      var x := ExecuteNext(w, b, runs[0], infos[0], collected, checked);
      if x.Ok? {
        ExecuteAllAppend(x.w, b, runs[1..], more, infos[1..], rest, x.value, checked);
      }
    }
  }

  /** Grouping plays no part in the execution loop. */
  lemma {:induction false} ExecuteGroupsIsFlat(w: World, b: Block, groups: seq<Group>, infos: seq<OpInfo>, collected: Word)
    requires |infos| == |Flatten(groups)|
    ensures ExecuteGroups(w, b, groups, infos, collected) == ExecuteAll(w, b, Flatten(groups), infos, collected, true)
    decreases groups
  {
    if groups != [] {
      var n := |groups[0].runs|;
      ExecuteAllAppend(w, b, groups[0].runs, Flatten(groups[1..]), infos[..n], infos[n..], collected, true);
      assert infos == infos[..n] + infos[n..];
      var r := ExecuteAll(w, b, groups[0].runs, infos[..n], collected, true);
      if r.Ok? {
        ExecuteGroupsIsFlat(r.w, b, groups[1..], infos[n..], r.value);
      }
    }
  }

  /** A checked running total never panics and an unchecked one never wraps: the EntryPoint is solvent. */
  lemma {:induction false} CheckingIsIdle(
    w: World, b: Block, runs: seq<OpRun>, infos: seq<OpInfo>, collected: Word, later: seq<Prefund>)
    requires Sound(w) && w.s.entered && Backed(runs, infos)
    requires w.s.pending == PrefundsOf(runs) + later && w.s.fees == collected
    ensures ExecuteAll(w, b, runs, infos, collected, true) == ExecuteAll(w, b, runs, infos, collected, false)
    decreases runs
  {
    if runs != [] {
      assert w.s.pending[1..] == PrefundsOf(runs[1..]) + later;
      ExecuteNextKeeps(w, b, runs[0], infos[0], collected, true);
      var x := ExecuteNext(w, b, runs[0], infos[0], collected, true);
      if x.Ok? {
        CheckingIsIdle(x.w, b, runs[1..], infos[1..], x.value, later);
      }
    }
  }

  /** With no aggregator in any group the two entry points end in the same storage, pay-out and failures. */
  lemma GroupedIsFlat(w: World, b: Block, groups: seq<Group>, beneficiary: Address, payment: Activity)
    requires Sound(w) && NoAggregator(groups)
    ensures RunCall(w, b, HandleAggregatedOps(GroupedBatch(groups, beneficiary, payment)))
         == RunCall(w, b, HandleOps(Batch(Flatten(groups), beneficiary, payment)))
  {
    if !w.s.entered {
      EnterKeeps(w);
      BundlesAgree(Enter(w), b, groups, beneficiary, payment);
    }
  }

  lemma BundlesAgree(w: World, b: Block, groups: seq<Group>, beneficiary: Address, payment: Activity)
    requires Sound(w) && NoAggregator(groups)
    requires w.s.entered && w.s.pending == [] && w.s.fees == 0
    ensures GroupedBundle(w, b, GroupedBatch(groups, beneficiary, payment))
         == Bundle(w, b, Batch(Flatten(groups), beneficiary, payment))
  {
    CheckSignaturesSkips(w, b, groups);
    ValidateGroupsIsFlat(w, b, groups);
    var runs := Flatten(groups);
    ValidateAllKeeps(w, b, runs, 0);
    var v := ValidateAll(w, b, runs, 0);
    if v.Ok? {
      ExecuteGroupsIsFlat(v.w, b, groups, v.value, 0);
      assert v.w.s.pending == PrefundsOf(runs) + [];
      CheckingIsIdle(v.w, b, runs, v.value, 0, []);
    }
  }
}
