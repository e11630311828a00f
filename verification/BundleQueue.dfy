/** The queue of user operations in src/AASigner.ts and the timer-driven sends that empty it. */
module BundleQueue {
  import opened Sequences

  type Sender = nat

  datatype Op = Op(sender: Sender, id: nat)

  /** A JavaScript number as far as the queue uses it; a field that was never set behaves as NaN. */
  datatype Number = NaN | Num(n: int)
  {
    function Plus(k: int): Number {
      if NaN? then NaN else Num(n + k)
    }

    predicate Below(k: int) {
      Num? && n < k
    }

    predicate Above(k: int) {
      Num? && n > k
    }
  }

  const IDLE_TIME := 5000
  const BUNDLE_SIZE_IMMEDIATE := 3

  /** `senders` are the keys of the queue in the order in which they were first used. */
  datatype Queue = Queue(senders: seq<Sender>, pending: map<Sender, seq<Op>>, queueSize: Number, lastQueueUpdate: Number)

  ghost predicate Wellformed(q: Queue) {
    && (forall i, j | 0 <= i < j < |q.senders| :: q.senders[i] != q.senders[j])
    && (forall s :: s in q.senders <==> s in q.pending)
    && (forall s | s in q.pending :: forall op | op in q.pending[s] :: op.sender == s)
  }

  function PendingOf(q: Queue, s: Sender): seq<Op> {
    if s in q.pending then q.pending[s] else []
  }

  function Enqueue(q: Queue, op: Op, now: int): Queue {
    Queue(if op.sender in q.pending then q.senders else q.senders + [op.sender],
          q.pending[op.sender := PendingOf(q, op.sender) + [op]],
          q.queueSize.Plus(1), Num(now))
  }

  /** The test at the start of a send: both thresholds have to be met. */
  predicate Ready(q: Queue, now: int) {
    !q.queueSize.Below(BUNDLE_SIZE_IMMEDIATE) && !q.lastQueueUpdate.Plus(IDLE_TIME).Above(now)
  }

  datatype Taken = Taken(ops: seq<Op>, pending: map<Sender, seq<Op>>)

  /** One `shift` per sender, in order. */
  function TakeHeads(pending: map<Sender, seq<Op>>, senders: seq<Sender>): Taken
    requires forall s | s in senders :: s in pending
  {
    if senders == [] then Taken([], pending)
    else
      var own := pending[senders[0]];
      if own == [] then TakeHeads(pending, senders[1..])
      else
        var rest := TakeHeads(pending[senders[0] := own[1..]], senders[1..]);
        Taken([own[0]] + rest.ops, rest.pending)
  }

  function Take(q: Queue): (Queue, seq<Op>)
    requires Wellformed(q)
  {
    var t := TakeHeads(q.pending, q.senders);
    (q.(pending := t.pending, queueSize := q.queueSize.Plus(-|t.ops|)), t.ops)
  }

  function Tail(s: seq<Op>): seq<Op> {
    if s == [] then [] else s[1..]
  }

  function Head(s: seq<Op>): seq<Op> {
    if s == [] then [] else [s[0]]
  }

  /** The operations of one sender, in order. */
  function Of(ops: seq<Op>, s: Sender): seq<Op> {
    if ops == [] then []
    else if ops[0].sender == s then [ops[0]] + Of(ops[1..], s)
    else Of(ops[1..], s)
  }

  predicate OnePerSender(ops: seq<Op>) {
    forall i, j | 0 <= i < j < |ops| :: ops[i].sender != ops[j].sender
  }

  function Total(pending: map<Sender, seq<Op>>, senders: seq<Sender>): nat
    requires forall s | s in senders :: s in pending
  {
    if senders == [] then 0 else |pending[senders[0]]| + Total(pending, senders[1..])
  }

  // ----- one send takes the oldest operation of every sender

  ghost predicate Rest(pending: map<Sender, seq<Op>>, senders: seq<Sender>) {
    && (forall i, j | 0 <= i < j < |senders| :: senders[i] != senders[j])
    && (forall s | s in senders :: s in pending)
    && (forall s | s in senders :: forall op | op in pending[s] :: op.sender == s)
  }

  function AfterFirst(pending: map<Sender, seq<Op>>, senders: seq<Sender>): map<Sender, seq<Op>>
    requires senders != [] && senders[0] in pending
  {
    if pending[senders[0]] == [] then pending else pending[senders[0] := pending[senders[0]][1..]]
  }

  lemma FirstTaken(pending: map<Sender, seq<Op>>, senders: seq<Sender>)
    requires Rest(pending, senders) && senders != []
    ensures Rest(AfterFirst(pending, senders), senders[1..])
    ensures var t, rest := TakeHeads(pending, senders), TakeHeads(AfterFirst(pending, senders), senders[1..]);
      t == Taken(Head(pending[senders[0]]) + rest.ops, rest.pending)
  {
    var rest := TakeHeads(AfterFirst(pending, senders), senders[1..]);
    assert [] + rest.ops == rest.ops;
  }

  lemma {:induction false} TakenPending(pending: map<Sender, seq<Op>>, senders: seq<Sender>)
    requires Rest(pending, senders)
    ensures var t := TakeHeads(pending, senders);
      && t.pending.Keys == pending.Keys
      && forall s | s in pending :: t.pending[s] == if s in senders then Tail(pending[s]) else pending[s]
    decreases senders
  {
    if senders != [] {
      FirstTaken(pending, senders);
      TakenPending(AfterFirst(pending, senders), senders[1..]);
    }
  }

  /** Of every sender exactly the oldest operation is taken. */
  lemma {:induction false} TakenOps(pending: map<Sender, seq<Op>>, senders: seq<Sender>, s: Sender)
    requires Rest(pending, senders)
    ensures Of(TakeHeads(pending, senders).ops, s) == if s in senders then Head(pending[s]) else []
    decreases senders
  {
    if senders != [] {
      var head, after := Head(pending[senders[0]]), AfterFirst(pending, senders);
      FirstTaken(pending, senders);
      TakenOps(after, senders[1..], s);
      OfAppend(head, TakeHeads(after, senders[1..]).ops, s);
      if head != [] {
        assert head[0].sender == senders[0] && head[1..] == [];
      }
    }
  }

  /** A bundle has at most one operation of each sender. */
  lemma {:induction false} TakenOnce(pending: map<Sender, seq<Op>>, senders: seq<Sender>)
    requires Rest(pending, senders)
    ensures OnePerSender(TakeHeads(pending, senders).ops)
    ensures forall op | op in TakeHeads(pending, senders).ops :: op.sender in senders
    decreases senders
  {
    if senders != [] {
      var after := AfterFirst(pending, senders);
      FirstTaken(pending, senders);
      TakenOnce(after, senders[1..]);
      var rest := TakeHeads(after, senders[1..]).ops;
      OneMore(Head(pending[senders[0]]), rest, senders);
    }
  }

  lemma OneMore(head: seq<Op>, rest: seq<Op>, senders: seq<Sender>)
    requires senders != [] && |head| <= 1 && forall op | op in head :: op.sender == senders[0]
    requires OnePerSender(rest) && forall op | op in rest :: op.sender in senders[1..]
    requires forall i, j | 0 <= i < j < |senders| :: senders[i] != senders[j]
    ensures OnePerSender(head + rest) && forall op | op in head + rest :: op.sender in senders
  {
    assert senders[0] !in senders[1..];
    forall i, j | 0 <= i < j < |head + rest|
      ensures (head + rest)[i].sender != (head + rest)[j].sender
    {
      assert (head + rest)[j] == rest[j - |head|] && rest[j - |head|] in rest;
    }
  }

  lemma {:induction false} TotalAfterTake(pending: map<Sender, seq<Op>>, senders: seq<Sender>)
    requires Rest(pending, senders)
    ensures var t := TakeHeads(pending, senders);
      (forall s | s in senders :: s in t.pending) && Total(t.pending, senders) + |t.ops| == Total(pending, senders)
    decreases senders
  {
    TakenPending(pending, senders);
    if senders != [] {
      var after := AfterFirst(pending, senders);
      FirstTaken(pending, senders);
      TotalAfterTake(after, senders[1..]);
      TotalUnchanged(after, pending, senders[1..]);
    }
  }

  lemma {:induction false} TotalUnchanged(p: map<Sender, seq<Op>>, q: map<Sender, seq<Op>>, senders: seq<Sender>)
    requires forall s | s in senders :: s in p && s in q && |p[s]| == |q[s]|
    ensures Total(p, senders) == Total(q, senders)
  {
    if senders != [] {
      TotalUnchanged(p, q, senders[1..]);
    }
  }

  // ----- the protocol

  /** One queue with everything that was ever put into it and taken out of it. */
  datatype Ledger = Ledger(queue: Queue, added: seq<Op>, batches: seq<seq<Op>>)

  /**
   * All queues of the process. The flag `sending` is shared between them; `inProgress` lists the queues
   * whose send is waiting for the chain.
   */
  datatype Process = Process(sending: bool, inProgress: seq<nat>, ledgers: seq<Ledger>)

  /** The code between two awaits runs undisturbed, so these are the atomic steps. */
  datatype Step =
    | Add(q: nat, op: Op, now: int)
    | Push(q: nat, now: int)
    | Finish(q: nat)

  ghost predicate Enabled(p: Process, step: Step) {
    match step
    case Add(q, _, _) => q < |p.ledgers|
    case Push(q, _) => q < |p.ledgers| && Wellformed(p.ledgers[q].queue)
    case Finish(q) => q in p.inProgress
  }

  function Flatten(batches: seq<seq<Op>>): seq<Op> {
    if batches == [] then [] else Flatten(batches[..|batches| - 1]) + batches[|batches| - 1]
  }

  function Remove(s: seq<nat>, x: nat): seq<nat> {
    if s == [] then [] else if s[0] == x then s[1..] else [s[0]] + Remove(s[1..], x)
  }

  function Next(p: Process, step: Step): Process
    requires Enabled(p, step)
  {
    match step
    case Add(q, op, now) =>
      var l := p.ledgers[q];
      p.(ledgers := p.ledgers[q := l.(queue := Enqueue(l.queue, op, now), added := l.added + [op])])
    case Push(q, now) =>
      if p.sending then p
      else
        var l := p.ledgers[q];
        if !Ready(l.queue, now) then p
        else
          var (queue, ops) := Take(l.queue);
          if ops == [] then p.(ledgers := p.ledgers[q := l.(queue := queue)])
          else
            Process(true, p.inProgress + [q], p.ledgers[q := l.(queue := queue, batches := l.batches + [ops])])
    case Finish(q) => p.(sending := false, inProgress := Remove(p.inProgress, q))
  }

  /** Per sender, what went in is what came out followed by what is still there, in order. */
  ghost predicate FirstInFirstOut(l: Ledger) {
    forall s: Sender :: Of(l.added, s) == Of(Flatten(l.batches), s) + PendingOf(l.queue, s)
  }

  ghost predicate LedgerInOrder(l: Ledger, initialSize: Number) {
    && Wellformed(l.queue)
    && FirstInFirstOut(l)
    && (forall b | b in l.batches :: b != [] && OnePerSender(b))
    && l.queue.queueSize == initialSize.Plus(Total(l.queue.pending, l.queue.senders))
  }

  /** At most one send is in progress, and the flag is up exactly while there is one. */
  ghost predicate ProcessInOrder(p: Process, initialSize: Number) {
    && |p.inProgress| == (if p.sending then 1 else 0)
    && forall l | l in p.ledgers :: LedgerInOrder(l, initialSize)
  }

  lemma {:induction false} OfAppend(ops: seq<Op>, more: seq<Op>, s: Sender)
    ensures Of(ops + more, s) == Of(ops, s) + Of(more, s)
  {
    if ops == [] {
      assert ops + more == more;
    } else {
      OfAppend(ops[1..], more, s);
      assert (ops + more)[1..] == ops[1..] + more;
    }
  }

  lemma {:induction false} TotalAppend(pending: map<Sender, seq<Op>>, senders: seq<Sender>, s: Sender)
    requires forall r | r in senders + [s] :: r in pending
    ensures (forall r | r in senders :: r in pending)
    ensures Total(pending, senders + [s]) == Total(pending, senders) + |pending[s]|
  {
    assert forall r | r in senders :: r in senders + [s];
    if senders == [] {
      assert ([] + [s])[1..] == [];
    } else {
      assert (senders + [s])[1..] == senders[1..] + [s];
      TotalAppend(pending, senders[1..], s);
    }
  }

  lemma {:induction false} TotalGrown(p: map<Sender, seq<Op>>, q: map<Sender, seq<Op>>, senders: seq<Sender>, s: Sender)
    requires forall r | r in senders :: r in p && r in q && (r != s ==> p[r] == q[r])
    requires s in senders && |q[s]| == |p[s]| + 1
    requires forall i, j | 0 <= i < j < |senders| :: senders[i] != senders[j]
    ensures Total(q, senders) == Total(p, senders) + 1
  {
    if senders[0] == s {
      TotalUnchanged(p, q, senders[1..]);
    } else {
      TotalGrown(p, q, senders[1..], s);
    }
  }

  lemma EnqueueWellformed(q: Queue, op: Op, now: int)
    requires Wellformed(q)
    ensures Wellformed(Enqueue(q, op, now))
    ensures Total(Enqueue(q, op, now).pending, Enqueue(q, op, now).senders) == Total(q.pending, q.senders) + 1
    ensures forall s: Sender :: PendingOf(Enqueue(q, op, now), s) == PendingOf(q, s) + (if s == op.sender then [op] else [])
  {
    var q1 := Enqueue(q, op, now);
    if op.sender in q.pending {
      TotalGrown(q.pending, q1.pending, q.senders, op.sender);
    } else {
      TotalAppend(q1.pending, q.senders, op.sender);
      TotalUnchanged(q.pending, q1.pending, q.senders);
    }
  }

  lemma AddKeeps(l: Ledger, op: Op, now: int, initialSize: Number)
    requires LedgerInOrder(l, initialSize)
    ensures LedgerInOrder(l.(queue := Enqueue(l.queue, op, now), added := l.added + [op]), initialSize)
  {
    EnqueueWellformed(l.queue, op, now);
    AddFirstInFirstOut(l, op, now);
  }

  lemma AddFirstInFirstOut(l: Ledger, op: Op, now: int)
    requires FirstInFirstOut(l)
    ensures FirstInFirstOut(l.(queue := Enqueue(l.queue, op, now), added := l.added + [op]))
  {
    forall s: Sender
      ensures Of(l.added + [op], s) == Of(Flatten(l.batches), s) + PendingOf(Enqueue(l.queue, op, now), s)
    {
      OfAppend(l.added, [op], s);
      assert [op][1..] == [];
      Regroup(Of(Flatten(l.batches), s), PendingOf(l.queue, s), Of([op], s));
    }
  }

  lemma FlattenAppend(batches: seq<seq<Op>>, ops: seq<Op>)
    ensures Flatten(batches + [ops]) == Flatten(batches) + ops
  {
    assert (batches + [ops])[..|batches|] == batches;
  }

  lemma TakeWellformed(q: Queue)
    requires Wellformed(q)
    ensures var (queue, ops) := Take(q);
      && Wellformed(queue) && OnePerSender(ops)
      && Total(queue.pending, queue.senders) + |ops| == Total(q.pending, q.senders)
      && forall s: Sender :: PendingOf(q, s) == Of(ops, s) + PendingOf(queue, s)
  {
    TakenPending(q.pending, q.senders);
    TakenOnce(q.pending, q.senders);
    TotalAfterTake(q.pending, q.senders);
    forall s: Sender
      ensures PendingOf(q, s) == Of(Take(q).1, s) + PendingOf(Take(q).0, s)
    {
      TakenOps(q.pending, q.senders, s);
    }
  }

  lemma TakeFirstInFirstOut(l: Ledger)
    requires Wellformed(l.queue) && FirstInFirstOut(l)
    ensures var (queue, ops) := Take(l.queue);
      forall s: Sender :: Of(l.added, s) == Of(Flatten(l.batches) + ops, s) + PendingOf(queue, s)
  {
    var (queue, ops) := Take(l.queue);
    TakeWellformed(l.queue);
    forall s: Sender
      ensures Of(l.added, s) == Of(Flatten(l.batches) + ops, s) + PendingOf(queue, s)
    {
      OfAppend(Flatten(l.batches), ops, s);
    }
  }

  lemma TakeKeeps(l: Ledger, initialSize: Number)
    requires LedgerInOrder(l, initialSize)
    ensures var (queue, ops) := Take(l.queue);
      LedgerInOrder(if ops == [] then l.(queue := queue) else l.(queue := queue, batches := l.batches + [ops]), initialSize)
  {
    var (queue, ops) := Take(l.queue);
    TakeWellformed(l.queue);
    TakeFirstInFirstOut(l);
    if ops == [] {
      assert Flatten(l.batches) + ops == Flatten(l.batches);
    } else {
      FlattenAppend(l.batches, ops);
    }
  }

  lemma StepKeeps(p: Process, step: Step, initialSize: Number)
    requires ProcessInOrder(p, initialSize) && Enabled(p, step)
    ensures ProcessInOrder(Next(p, step), initialSize)
  {
    match step
    case Add(q, op, now) => AddKeeps(p.ledgers[q], op, now, initialSize);
    case Push(q, now) => TakeKeeps(p.ledgers[q], initialSize);
    case Finish(q) => assert Remove(p.inProgress, q) == [];
  }

  ghost predicate Possible(p: Process, steps: seq<Step>)
    decreases steps
  {
    steps == [] || (Enabled(p, steps[0]) && Possible(Next(p, steps[0]), steps[1..]))
  }

  function Run(p: Process, steps: seq<Step>): Process
    requires Possible(p, steps)
    decreases steps
  {
    if steps == [] then p else Run(Next(p, steps[0]), steps[1..])
  }

  /** A process that just started, with `queueSize` fields set to `initialSize`. */
  predicate Starting(p: Process, initialSize: Number) {
    && !p.sending && p.inProgress == []
    && forall l | l in p.ledgers :: l == Ledger(Queue([], map[], initialSize, NaN), [], [])
  }

  /** Under every interleaving of enqueues, timer ticks and completed sends the process stays in order. */
  lemma {:induction false} EveryRunInOrder(p: Process, steps: seq<Step>, initialSize: Number)
    requires ProcessInOrder(p, initialSize) && Possible(p, steps)
    ensures ProcessInOrder(Run(p, steps), initialSize)
    decreases steps
  {
    if steps != [] {
      StepKeeps(p, steps[0], initialSize);
      EveryRunInOrder(Next(p, steps[0]), steps[1..], initialSize);
    }
  }

  lemma StartsInOrder(p: Process, initialSize: Number)
    requires Starting(p, initialSize)
    ensures ProcessInOrder(p, initialSize)
  {
  }

  /** `queueSize` counts the queued operations, in every run, exactly when it starts at 0; the code leaves it unset. */
  lemma QueueSizeCounts(p: Process, steps: seq<Step>, initialSize: Number, q: nat)
    requires Starting(p, initialSize) && Possible(p, steps) && q < |Run(p, steps).ledgers|
    ensures Wellformed(Run(p, steps).ledgers[q].queue)
    ensures var queue := Run(p, steps).ledgers[q].queue;
      queue.queueSize == Num(Total(queue.pending, queue.senders)) <==> initialSize == Num(0)
  {
    StartsInOrder(p, initialSize);
    EveryRunInOrder(p, steps, initialSize);
    assert Run(p, steps).ledgers[q] in Run(p, steps).ledgers;
  }

  /** From the start of the process on, in every run. */
  lemma BundlingIsSafe(p: Process, steps: seq<Step>, initialSize: Number)
    requires Starting(p, initialSize) && Possible(p, steps)
    ensures var r := Run(p, steps);
      && |r.inProgress| <= 1 && (r.sending <==> r.inProgress != [])
      && forall l | l in r.ledgers :: FirstInFirstOut(l) && forall b | b in l.batches :: b != [] && OnePerSender(b)
  {
    StartsInOrder(p, initialSize);
    EveryRunInOrder(p, steps, initialSize);
  }

  // ----- what the steps do, told by the steps alone

  /** The operations enqueued in queue `q`, in order, and the moment of the last enqueue. */
  function AddedBy(steps: seq<Step>, q: nat): seq<Op> {
    if steps == [] then []
    else (if steps[0].Add? && steps[0].q == q then [steps[0].op] else []) + AddedBy(steps[1..], q)
  }

  function LastAdd(steps: seq<Step>, q: nat, before: Number): Number {
    if steps == [] then before
    else LastAdd(steps[1..], q, if steps[0].Add? && steps[0].q == q then Num(steps[0].now) else before)
  }

  /** In every run each queue holds the books on all that was enqueued in it, and knows when that happened last. */
  lemma {:induction false} EnqueuesAreKept(p: Process, steps: seq<Step>, q: nat)
    requires Possible(p, steps) && q < |p.ledgers|
    ensures var r := Run(p, steps);
      && |r.ledgers| == |p.ledgers|
      && r.ledgers[q].added == p.ledgers[q].added + AddedBy(steps, q)
      && r.ledgers[q].queue.lastQueueUpdate == LastAdd(steps, q, p.ledgers[q].queue.lastQueueUpdate)
    decreases steps
  {
    if steps == [] {
      assert p.ledgers[q].added + [] == p.ledgers[q].added;
    } else {
      var p1 := Next(p, steps[0]);
      StepMarks(p, steps[0], q);
      EnqueuesAreKept(p1, steps[1..], q);
      Regroup(p.ledgers[q].added, if steps[0].Add? && steps[0].q == q then [steps[0].op] else [], AddedBy(steps[1..], q));
    }
  }

  /** An enqueue goes to the end of its sender's queue; a new sender comes last. */
  lemma EnqueueAppends(q: Queue, op: Op, now: int)
    requires Wellformed(q)
    ensures Enqueue(q, op, now).senders == if op.sender in q.senders then q.senders else q.senders + [op.sender]
    ensures PendingOf(Enqueue(q, op, now), op.sender) == PendingOf(q, op.sender) + [op]
    ensures Enqueue(q, op, now).lastQueueUpdate == Num(now)
  {
  }

  /** The heads of all queues, sender by sender. */
  function HeadsOf(pending: map<Sender, seq<Op>>, senders: seq<Sender>): seq<Op>
    requires forall s | s in senders :: s in pending
  {
    if senders == [] then [] else Head(pending[senders[0]]) + HeadsOf(pending, senders[1..])
  }

  lemma {:induction false} HeadsUnchanged(p: map<Sender, seq<Op>>, q: map<Sender, seq<Op>>, senders: seq<Sender>)
    requires forall s | s in senders :: s in p && s in q && p[s] == q[s]
    ensures HeadsOf(p, senders) == HeadsOf(q, senders)
  {
    if senders != [] {
      HeadsUnchanged(p, q, senders[1..]);
    }
  }

  /** A bundle lists the heads in the order of the senders. */
  lemma {:induction false} TakenInOrder(pending: map<Sender, seq<Op>>, senders: seq<Sender>)
    requires Rest(pending, senders)
    ensures TakeHeads(pending, senders).ops == HeadsOf(pending, senders)
    decreases senders
  {
    if senders != [] {
      FirstTaken(pending, senders);
      TakenInOrder(AfterFirst(pending, senders), senders[1..]);
      HeadsUnchanged(pending, AfterFirst(pending, senders), senders[1..]);
    }
  }

  lemma StepMarks(p: Process, step: Step, q: nat)
    requires Enabled(p, step) && q < |p.ledgers|
    ensures var p1, enqueued := Next(p, step), step.Add? && step.q == q;
      && |p1.ledgers| == |p.ledgers|
      && p1.ledgers[q].added == p.ledgers[q].added + (if enqueued then [step.op] else [])
      && p1.ledgers[q].queue.lastQueueUpdate == if enqueued then Num(step.now) else p.ledgers[q].queue.lastQueueUpdate
  {
    assert p.ledgers[q].added + [] == p.ledgers[q].added;
  }

  /**
   * A tick either starts a send, which takes the oldest operation of every sender and raises the flag, or leaves the
   * process as it is; a send that ends releases the flag and touches no queue.
   */
  lemma TickTakesOldest(p: Process, q: nat, now: int, initialSize: Number)
    requires ProcessInOrder(p, initialSize) && q < |p.ledgers|
    ensures Enabled(p, Push(q, now))
    ensures var p1 := Next(p, Push(q, now));
      var before, after := p.ledgers[q], p1.ledgers[q];
      && (forall i | 0 <= i < |p.ledgers| && i != q :: p1.ledgers[i] == p.ledgers[i])
      && (if p1.inProgress == p.inProgress + [q]
          then p1.sending && after.added == before.added
               && var ops := HeadsOf(before.queue.pending, before.queue.senders);
                  && ops != [] && after.batches == before.batches + [ops] && forall s: Sender ::
                       Of(ops, s) == Head(PendingOf(before.queue, s)) && PendingOf(after.queue, s) == Tail(PendingOf(before.queue, s))
          else p1.sending == p.sending && p1.inProgress == p.inProgress && after.added == before.added
               && after.batches == before.batches && forall s: Sender :: PendingOf(after.queue, s) == PendingOf(before.queue, s))
  {
    var before := p.ledgers[q];
    assert before in p.ledgers;
    assert p.inProgress != p.inProgress + [q];
    var (queue, ops) := Take(before.queue);
    TakeTakesOldest(before.queue);
    if ops == [] {
      forall s: Sender
        ensures PendingOf(queue, s) == PendingOf(before.queue, s)
      {
        assert Of([], s) == Head(PendingOf(before.queue, s));
      }
    }
  }

  lemma TakeTakesOldest(q: Queue)
    requires Wellformed(q)
    ensures var (queue, ops) := Take(q);
      && ops == HeadsOf(q.pending, q.senders) && queue.senders == q.senders
      && forall s: Sender :: Of(ops, s) == Head(PendingOf(q, s)) && PendingOf(queue, s) == Tail(PendingOf(q, s))
  {
    TakenPending(q.pending, q.senders);
    TakenInOrder(q.pending, q.senders);
    forall s: Sender
      ensures Of(Take(q).1, s) == Head(PendingOf(q, s)) && PendingOf(Take(q).0, s) == Tail(PendingOf(q, s))
    {
      TakenOps(q.pending, q.senders, s);
    }
  }

  lemma FinishReleases(p: Process, q: nat, initialSize: Number)
    requires ProcessInOrder(p, initialSize) && Enabled(p, Finish(q))
    ensures p.sending && Next(p, Finish(q)) == Process(false, [], p.ledgers)
  {
    assert Remove(p.inProgress, q) == [];
  }

  lemma {:induction false} EmptyTotal(pending: map<Sender, seq<Op>>, senders: seq<Sender>)
    requires forall s | s in senders :: s in pending
    ensures Total(pending, senders) == 0 <==> forall s | s in senders :: pending[s] == []
  {
    if senders != [] {
      EmptyTotal(pending, senders[1..]);
    }
  }

  /**
   * A tick starts a send exactly when no send is in progress, the queue has been left alone for the idle time,
   * and it holds at least three operations when its size was set to 0, or any at all when it was left unset.
   */
  lemma TickSendsWhen(p: Process, q: nat, now: int, initialSize: Number)
    requires ProcessInOrder(p, initialSize) && q < |p.ledgers| && Enabled(p, Push(q, now))
    requires initialSize == NaN || initialSize == Num(0)
    ensures var queue := p.ledgers[q].queue;
      Next(p, Push(q, now)).inProgress == p.inProgress + [q]
      <==> && !p.sending
           && (queue.lastQueueUpdate.Num? ==> now >= queue.lastQueueUpdate.n + 5000)
           && Total(queue.pending, queue.senders) >= (if initialSize == NaN then 1 else 3)
  {
    var queue := p.ledgers[q].queue;
    TakenPending(queue.pending, queue.senders);
    TotalAfterTake(queue.pending, queue.senders);
    EmptyTotal(queue.pending, queue.senders);
    EmptyTake(queue);
    assert p.inProgress != p.inProgress + [q];
    assert p.ledgers[q] in p.ledgers;
  }

  /** In every run a send starts only when no enqueue happened in the last five seconds. */
  lemma SendsAfterIdle(p: Process, steps: seq<Step>, initialSize: Number, q: nat, now: int)
    requires Starting(p, initialSize) && (initialSize == NaN || initialSize == Num(0))
    requires Possible(p, steps) && q < |p.ledgers|
    ensures |Run(p, steps).ledgers| == |p.ledgers| && Enabled(Run(p, steps), Push(q, now))
    ensures var r, last := Run(p, steps), LastAdd(steps, q, NaN);
      && r.ledgers[q].added == AddedBy(steps, q)
      && (Next(r, Push(q, now)).inProgress == r.inProgress + [q] ==> last.Num? && now >= last.n + 5000)
  {
    RunMarks(p, steps, initialSize, q);
    NothingAdded(steps, q);
    IdleBeforeSend(Run(p, steps), initialSize, q, now);
  }

  lemma RunMarks(p: Process, steps: seq<Step>, initialSize: Number, q: nat)
    requires Starting(p, initialSize) && Possible(p, steps) && q < |p.ledgers|
    ensures var r := Run(p, steps);
      && ProcessInOrder(r, initialSize) && |r.ledgers| == |p.ledgers|
      && r.ledgers[q].added == AddedBy(steps, q) && r.ledgers[q].queue.lastQueueUpdate == LastAdd(steps, q, NaN)
  {
    StartsInOrder(p, initialSize);
    EveryRunInOrder(p, steps, initialSize);
    EnqueuesAreKept(p, steps, q);
    assert p.ledgers[q] in p.ledgers;
    assert [] + AddedBy(steps, q) == AddedBy(steps, q);
  }

  lemma IdleBeforeSend(r: Process, initialSize: Number, q: nat, now: int)
    requires ProcessInOrder(r, initialSize) && q < |r.ledgers| && (initialSize == NaN || initialSize == Num(0))
    requires r.ledgers[q].queue.lastQueueUpdate == NaN ==> r.ledgers[q].added == []
    ensures Enabled(r, Push(q, now))
    ensures var last := r.ledgers[q].queue.lastQueueUpdate;
      Next(r, Push(q, now)).inProgress == r.inProgress + [q] ==> last.Num? && now >= last.n + 5000
  {
    assert r.ledgers[q] in r.ledgers;
    TickSendsWhen(r, q, now, initialSize);
    if r.ledgers[q].added == [] {
      QueueOfNothing(r.ledgers[q]);
    }
  }

  lemma {:induction false} NothingAdded(steps: seq<Step>, q: nat)
    ensures LastAdd(steps, q, NaN) == NaN ==> AddedBy(steps, q) == []
  {
    if steps != [] {
      LastAddIsNumber(steps[1..], q, steps[0]);
      NothingAdded(steps[1..], q);
    }
  }

  lemma {:induction false} LastAddIsNumber(steps: seq<Step>, q: nat, step: Step)
    ensures step.Add? ==> LastAdd(steps, q, Num(step.now)).Num?
    decreases |steps|
  {
    if steps != [] {
      LastAddIsNumber(steps[1..], q, step);
      LastAddIsNumber(steps[1..], q, steps[0]);
    }
  }

  /** Where nothing was enqueued nothing is queued. */
  lemma QueueOfNothing(l: Ledger)
    requires Wellformed(l.queue) && FirstInFirstOut(l) && l.added == []
    ensures Total(l.queue.pending, l.queue.senders) == 0
  {
    forall s | s in l.queue.senders
      ensures l.queue.pending[s] == []
    {
      assert Of(l.added, s) == Of(Flatten(l.batches), s) + PendingOf(l.queue, s);
    }
    EmptyTotal(l.queue.pending, l.queue.senders);
  }

  lemma EmptyTake(q: Queue)
    requires Wellformed(q)
    ensures Take(q).1 == [] <==> Total(q.pending, q.senders) == 0
  {
    TotalAfterTake(q.pending, q.senders);
    EmptyTotal(q.pending, q.senders);
    if Take(q).1 == [] {
      forall s | s in q.senders
        ensures q.pending[s] == []
      {
        TakenOps(q.pending, q.senders, s);
      }
    }
  }
}

/** The same as objects: a queue sender, and the module-level flag that its sends share with all others. */
module BundleSenders {
  import opened BundleQueue
  import opened Sequences

  class QueueSender {
    var senders: seq<Sender>
    var queue: map<Sender, seq<Op>>
    var queueSize: Number
    var lastQueueUpdate: Number

    ghost function Here(): Queue
      reads this
    {
      Queue(senders, queue, queueSize, lastQueueUpdate)
    }

    /** `queueSize` and `lastQueueUpdate` are declared but never set. */
    constructor ()
      ensures Here() == Queue([], map[], NaN, NaN)
    {
      senders, queue, queueSize, lastQueueUpdate := [], map[], NaN, NaN;
    }

    method Add(op: Op, now: int)
      modifies this
      ensures Here() == Enqueue(old(Here()), op, now)
    {
      if op.sender !in queue {
        senders := senders + [op.sender];
        queue := queue[op.sender := []];
      }
      queue := queue[op.sender := queue[op.sender] + [op]];
      lastQueueUpdate := Num(now);
      queueSize := queueSize.Plus(1);
    }

    method TakeBundle() returns (ops: seq<Op>)
      requires Wellformed(Here())
      modifies this`queue, this`queueSize
      ensures (Here(), ops) == Take(old(Here()))
    {
      ghost var all := TakeHeads(queue, senders);
      ops := [];
      var i := 0;
      StartOfTake(queue, senders);
      while i < |senders|
        invariant Continues(all, ops, queue, senders, i)
        invariant queueSize == old(queueSize).Plus(-|ops|)
      {
        var sender := senders[i];
        NextSender(all, ops, queue, senders, i);
        if queue[sender] != [] {
          var op := queue[sender][0];
          queue := queue[sender := queue[sender][1..]];
          ops := ops + [op];
          queueSize := queueSize.Plus(-1);
        }
        i := i + 1;
      }
      EndOfTake(all, ops, queue, senders);
    }
  }

  /** With `ops` taken from the first `i` senders, the rest is still to be taken from what is `pending`. */
  predicate Continues(all: Taken, ops: seq<Op>, pending: map<Sender, seq<Op>>, senders: seq<Sender>, i: nat) {
    && i <= |senders|
    && (forall s | s in senders :: s in pending)
    && var rest := TakeHeads(pending, senders[i..]);
       all == Taken(ops + rest.ops, rest.pending)
  }

  lemma StartOfTake(pending: map<Sender, seq<Op>>, senders: seq<Sender>)
    requires forall s | s in senders :: s in pending
    ensures Continues(TakeHeads(pending, senders), [], pending, senders, 0)
  {
    var all := TakeHeads(pending, senders);
    assert senders[0..] == senders && [] + all.ops == all.ops;
  }

  lemma EndOfTake(all: Taken, ops: seq<Op>, pending: map<Sender, seq<Op>>, senders: seq<Sender>)
    requires Continues(all, ops, pending, senders, |senders|)
    ensures all == Taken(ops, pending)
  {
    assert ops + [] == ops;
  }

  lemma NextSender(all: Taken, ops: seq<Op>, pending: map<Sender, seq<Op>>, senders: seq<Sender>, i: nat)
    requires Continues(all, ops, pending, senders, i) && i < |senders|
    ensures var own := pending[senders[i]];
      if own == [] then Continues(all, ops, pending, senders, i + 1)
      else Continues(all, ops + [own[0]], pending[senders[i] := own[1..]], senders, i + 1)
  {
    var own := pending[senders[i]];
    assert senders[i..][0] == senders[i] && senders[i..][1..] == senders[i + 1..];
    if own != [] {
      Regroup(ops, [own[0]], TakeHeads(pending[senders[i] := own[1..]], senders[i + 1..]).ops);
    }
  }

  class Bundler {
    var sending: bool

    constructor ()
      ensures !sending
    {
      sending := false;
    }

    /** `sendQueuedUserOps` up to its first await; the flag stays up only if a bundle is on its way. */
    method BeginSend(sender: QueueSender, now: int) returns (ops: seq<Op>)
      requires Wellformed(sender.Here())
      modifies this, sender`queue, sender`queueSize
      ensures if old(sending) || !Ready(old(sender.Here()), now)
              then ops == [] && sender.Here() == old(sender.Here())
              else (sender.Here(), ops) == Take(old(sender.Here()))
      ensures sending == (old(sending) || ops != [])
    {
      ops := [];
      if sending {
        return;
      }
      sending := true;
      if sender.queueSize.Below(BUNDLE_SIZE_IMMEDIATE) || sender.lastQueueUpdate.Plus(IDLE_TIME).Above(now) {
        sending := false;
        return;
      }
      ops := sender.TakeBundle();
      if ops == [] {
        sending := false;
      }
    }

    /** The `finally` of a send, whether the chain accepted the bundle or not. */
    method EndSend()
      modifies this
      ensures !sending
    {
      sending := false;
    }
  }
}
