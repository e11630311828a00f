/**
 * Batches of transactions: the printer of src/utils/multisend.ts and the cursor loops of MultiSend and
 * MultiSendCallOnly that parse and execute what it prints.
 */
module MultiSend {
  import opened Words
  import opened Bytes
  import opened Sequences

  type Payload = s: bytes | |s| < U64

  datatype MetaTransaction = MetaTransaction(operation: byte, to: Address, value: Word, data: Payload)

  /** `encodeMetaTransaction`: the five fields, tightly packed. */
  function EncodeOne(tx: MetaTransaction): (s: bytes)
    ensures |s| == 85 + |tx.data|
  {
    [tx.operation] + (ToBytes(tx.to, 20) + (ToBytes(tx.value, 32) + (ToBytes(|tx.data|, 32) + tx.data)))
  }

  function Encode(txs: seq<MetaTransaction>): bytes {
    if txs == [] then [] else EncodeOne(txs[0]) + Encode(txs[1..])
  }

  // ----- execution

  datatype Effect = Called(to: Address, value: Word, data: bytes) | Delegated(to: Address, data: bytes)

  /** Whether an external call succeeds, given the calls made before it. */
  type World = (seq<Effect>, Effect) -> bool

  /** The calls of a batch, all of them or none. */
  datatype Outcome = Committed(effects: seq<Effect>) | Reverted

  /** `n` bytes of memory from offset `k`; memory past its written end is zero. */
  function Read(memory: bytes, k: nat, n: nat): (s: bytes)
    ensures |s| == n
  {
    seq(n, i requires 0 <= i < n => if k + i < |memory| then memory[k + i] else 0)
  }

  /** A record as the loop reads it: the payload's length is a whole word. */
  datatype Record = Record(operation: byte, to: Address, value: Word, dataLength: Word)

  function ReadWord(memory: bytes, k: nat): Word {
    FromBytesFits(Read(memory, k, 32));
    Capacities();
    FromBytes(Read(memory, k, 32))
  }

  /** The fields at cursor `i`, which counts from the length word: the payload starts at 0x20. */
  function RecordAt(memory: bytes, i: nat): Record
    requires i >= 0x20
  {
    var k := i - 0x20;
    Record(Read(memory, k, 1)[0], AddressAt(Read(memory, k + 0x01, 20)), ReadWord(memory, k + 0x15), ReadWord(memory, k + 0x35))
  }

  /** What one round of the loop comes upon: a call to make, with the length of its data, or a reason to revert. */
  datatype Round = Do(effect: Effect, dataLength: nat) | Stop

  /** A payload length of 2^64 or more runs out of gas on the memory it asks for; the `switch` knows two operations. */
  function RoundAt(memory: bytes, i: nat): Round
    requires i >= 0x20
  {
    var r := RecordAt(memory, i);
    if r.dataLength >= U64 then Stop
    else
      var data := Read(memory, i - 0x20 + 0x55, r.dataLength);
      if r.operation == 0 then Do(Called(r.to, r.value, data), r.dataLength)
      else if r.operation == 1 then Do(Delegated(r.to, data), r.dataLength)
      else Stop
  }

  /** What the loop reads at each cursor. */
  type Reader = nat -> Round

  function Reading(memory: bytes): Reader {
    (i: nat) => if i >= 0x20 then RoundAt(memory, i) else Stop
  }

  /**
   * The loop from cursor `i` on. Its bound compares the cursor, which starts at 0x20, with the length of the
   * payload alone.
   */
  function Loop(read: Reader, length: nat, i: nat, done: seq<Effect>, world: World, callOnly: bool): Outcome
    decreases length - i
  {
    if i >= length then Committed(done)
    else
      match read(i)
      case Stop => Reverted
      case Do(effect, dataLength) =>
        if (callOnly && effect.Delegated?) || !world(done, effect) then Reverted
        else Loop(read, length, i + 0x55 + dataLength, done + [effect], world, callOnly)
  }

  /** `multiSend`, which `MultiSend` (but not `MultiSendCallOnly`) refuses unless reached by delegatecall. */
  method Execute(memory: bytes, length: nat, world: World, callOnly: bool, delegated: bool) returns (r: Outcome)
    ensures r == if callOnly || delegated then Loop(Reading(memory), length, 0x20, [], world, callOnly) else Reverted
  {
    if !callOnly && !delegated {
      return Reverted;
    }
    ghost var read := Reading(memory);
    var i := 0x20;
    var effects: seq<Effect> := [];
    while i < length
      invariant i >= 0x20
      invariant Loop(read, length, i, effects, world, callOnly) == Loop(read, length, 0x20, [], world, callOnly)
      decreases length - i
    {
      assert read(i) == RoundAt(memory, i);
      var record := RecordAt(memory, i);
      if record.dataLength >= U64 {
        return Reverted;
      }
      var data := Read(memory, i - 0x20 + 0x55, record.dataLength);
      var success := false;
      var effect := Delegated(record.to, data);
      if record.operation == 0 {
        effect := Called(record.to, record.value, data);
        success := world(effects, effect);
      } else if record.operation == 1 && !callOnly {
        success := world(effects, effect);
      }
      if !success {
        return Reverted;
      }
      effects := effects + [effect];
      i := i + 0x55 + record.dataLength;
    }
    r := Committed(effects);
  }

  // ----- the printer's meaning

  /** The call a transaction stands for. */
  function RoundOf(tx: MetaTransaction): Round {
    if tx.operation == 0 then Do(Called(tx.to, tx.value, tx.data), |tx.data|)
    else if tx.operation == 1 then Do(Delegated(tx.to, tx.data), |tx.data|)
    else Stop
  }

  /** The transactions of a batch executed one by one, without any encoding. */
  function Replay(txs: seq<MetaTransaction>, done: seq<Effect>, world: World): Outcome {
    if txs == [] then Committed(done)
    else
      match RoundOf(txs[0])
      case Stop => Reverted
      case Do(effect, _) => if !world(done, effect) then Reverted else Replay(txs[1..], done + [effect], world)
  }

  lemma ReadHead(field: bytes, rest: bytes)
    ensures Read(field + rest, 0, |field|) == field
  {
  }

  lemma ReadPast(skipped: bytes, rest: bytes, k: nat, n: nat)
    ensures Read(skipped + rest, |skipped| + k, n) == Read(rest, k, n)
  {
  }

  /** The bytes of a printed record, field by field, with whatever follows it. */
  lemma Layout(op: bytes, to: bytes, value: bytes, length: bytes, data: bytes, after: bytes)
    requires |op| == 1 && |to| == 20 && |value| == 32 && |length| == 32
    ensures var m := op + (to + (value + (length + data))) + after;
      && Read(m, 0, 1) == op && Read(m, 0x01, 20) == to && Read(m, 0x15, 32) == value
      && Read(m, 0x35, 32) == length && Read(m, 0x55, |data|) == data
  {
    var r4 := data + after;
    var r3 := length + r4;
    var r2 := value + r3;
    var r1 := to + r2;
    Regroup(length, data, after);
    Regroup(value, length + data, after);
    Regroup(to, value + (length + data), after);
    Regroup(op, to + (value + (length + data)), after);
    ReadHead(op, r1);
    ReadPast(op, r1, 0, 20);
    ReadHead(to, r2);
    ReadPast(op, r1, 20, 32);
    ReadPast(to, r2, 0, 32);
    ReadHead(value, r3);
    ReadPast(op, r1, 52, 32);
    ReadPast(to, r2, 32, 32);
    ReadPast(value, r3, 0, 32);
    ReadHead(length, r4);
    ReadPast(op, r1, 84, |data|);
    ReadPast(to, r2, 64, |data|);
    ReadPast(value, r3, 32, |data|);
    ReadPast(length, r4, 0, |data|);
    ReadHead(data, after);
  }

  /** Reading a printed record gives back its fields, wherever it lies in memory. */
  lemma RecordReadBack(before: bytes, tx: MetaTransaction, after: bytes)
    ensures var memory, i := before + EncodeOne(tx) + after, 0x20 + |before|;
      && RecordAt(memory, i) == Record(tx.operation, tx.to, tx.value, |tx.data|)
      && Reading(memory)(i) == RoundOf(tx)
  {
    var one := EncodeOne(tx);
    var to := ToBytes(tx.to, 20);
    Layout([tx.operation], to, ToBytes(tx.value, 32), ToBytes(|tx.data|, 32), tx.data, after);
    Regroup(before, one, after);
    ReadPast(before, one + after, 0, 1);
    ReadPast(before, one + after, 0x01, 20);
    ReadPast(before, one + after, 0x15, 32);
    ReadPast(before, one + after, 0x35, 32);
    ReadPast(before, one + after, 0x55, |tx.data|);
    FieldsReadBack(tx);
    assert to[..20] == to;
  }

  /** Where the printer puts the fields: operation, address, value and length of the data, and then the data. */
  lemma PrintedLayout(tx: MetaTransaction)
    ensures var s := EncodeOne(tx);
      && s[0] == tx.operation && FromBytes(s[1..21]) == tx.to && FromBytes(s[21..53]) == tx.value
      && FromBytes(s[53..85]) == |tx.data| && s[85..] == tx.data
  {
    var to, value, length := ToBytes(tx.to, 20), ToBytes(tx.value, 32), ToBytes(|tx.data|, 32);
    assert EncodeOne(tx)[1..21] == to && EncodeOne(tx)[21..53] == value && EncodeOne(tx)[53..85] == length;
    FieldsReadBack(tx);
  }

  lemma FieldsReadBack(tx: MetaTransaction)
    ensures FromBytes(ToBytes(tx.to, 20)) == tx.to
    ensures FromBytes(ToBytes(tx.value, 32)) == tx.value
    ensures FromBytes(ToBytes(|tx.data|, 32)) == |tx.data|
  {
    Capacities();
    RoundTrip(tx.to, 20);
    RoundTrip(tx.value, 32);
    RoundTrip(|tx.data|, 32);
  }

  /** At cursor `i` the reader comes upon the transactions one after the other. */
  predicate Comes(read: Reader, i: nat, txs: seq<MetaTransaction>)
    decreases txs
  {
    txs == [] || (read(i) == RoundOf(txs[0]) && Comes(read, i + 0x55 + |txs[0].data|, txs[1..]))
  }

  /** In a printed batch it does, wherever the batch lies. */
  lemma {:induction false} PrintedComes(before: bytes, txs: seq<MetaTransaction>, beyond: bytes, memory: bytes)
    requires memory == before + Encode(txs) + beyond
    ensures Comes(Reading(memory), 0x20 + |before|, txs)
    decreases |txs|
  {
    if txs != [] {
      var longer := before + EncodeOne(txs[0]);
      Regroup(before, EncodeOne(txs[0]), Encode(txs[1..]));
      Regroup(longer, Encode(txs[1..]), beyond);
      RecordReadBack(before, txs[0], Encode(txs[1..]) + beyond);
      PrintedComes(longer, txs[1..], beyond, memory);
    }
  }

  /**
   * The loop over such a batch replays it and goes on from its end, for every length that is less than 53 bytes
   * short of the batch: the cursor runs 0x20 ahead of the payload, and a record has at least 0x55 bytes.
   */
  lemma {:induction false} LoopReachesEnd(
    read: Reader, i: nat, txs: seq<MetaTransaction>, length: nat, done: seq<Effect>, world: World)
    requires Comes(read, i, txs) && i + |Encode(txs)| < length + 0x55
    ensures var r := Replay(txs, done, world);
      Loop(read, length, i, done, world, false)
      == if r.Committed? then Loop(read, length, i + |Encode(txs)|, r.effects, world, false) else Reverted
    decreases |txs|
  {
    if txs != [] && RoundOf(txs[0]).Do? {
      LoopReachesEnd(read, i + 0x55 + |txs[0].data|, txs[1..], length, done + [RoundOf(txs[0]).effect], world);
    }
  }

  /** So for every length between 52 bytes short of a printed batch and 32 bytes past it, the loop is the replay. */
  lemma LoopReplays(
    before: bytes, txs: seq<MetaTransaction>, beyond: bytes, length: nat, done: seq<Effect>, world: World)
    requires |before| + |Encode(txs)| + 0x20 - 0x55 < length <= |before| + |Encode(txs)| + 0x20
    ensures Loop(Reading(before + Encode(txs) + beyond), length, 0x20 + |before|, done, world, false)
         == Replay(txs, done, world)
  {
    var memory := before + Encode(txs) + beyond;
    PrintedComes(before, txs, beyond, memory);
    LoopReachesEnd(Reading(memory), 0x20 + |before|, txs, length, done, world);
  }

  lemma StartReplays(read: Reader, txs: seq<MetaTransaction>, length: nat, world: World)
    requires Comes(read, 0x20, txs) && |Encode(txs)| + 0x20 - 0x55 < length <= |Encode(txs)| + 0x20
    ensures Loop(read, length, 0x20, [], world, false) == Replay(txs, [], world)
  {
    LoopReachesEnd(read, 0x20, txs, length, [], world);
  }

  lemma BatchComes(txs: seq<MetaTransaction>, memory: bytes)
    requires Encode(txs) <= memory
    ensures Comes(Reading(memory), 0x20, txs)
  {
    var before: bytes, beyond := [], memory[|Encode(txs)|..];
    assert before + Encode(txs) + beyond == memory;
    PrintedComes(before, txs, beyond, memory);
  }

  /**
   * Print, then parse: for every list of transactions the loop makes exactly the calls of the list, in order
   * and with their fields, or none at all; up to 32 bytes after the printed batch change nothing, and what lies in
   * memory beyond the payload never does.
   */
  lemma PrintThenParse(txs: seq<MetaTransaction>, payload: bytes, memory: bytes, world: World)
    requires Encode(txs) <= payload <= memory && |payload| <= |Encode(txs)| + 0x20
    ensures Loop(Reading(memory), |payload|, 0x20, [], world, false) == Replay(txs, [], world)
  {
    BatchComes(txs, memory);
    StartReplays(Reading(memory), txs, |payload|, world);
  }

  /**
   * The boundary is exact: bytes after a batch that goes through change nothing if and only if there are at most
   * 32 of them, whatever they are. From the 33rd on the loop reads another record, and reverts or does its call.
   */
  lemma TrailingIgnored(txs: seq<MetaTransaction>, payload: bytes, memory: bytes, world: World)
    requires Encode(txs) <= payload <= memory && Replay(txs, [], world).Committed?
    ensures Loop(Reading(memory), |payload|, 0x20, [], world, false) == Replay(txs, [], world)
       <==> |payload| <= |Encode(txs)| + 0x20
  {
    BatchComes(txs, memory);
    BoundaryIsExact(Reading(memory), txs, |payload|, world);
  }

  lemma BoundaryIsExact(read: Reader, txs: seq<MetaTransaction>, length: nat, world: World)
    requires Comes(read, 0x20, txs) && length >= |Encode(txs)| && Replay(txs, [], world).Committed?
    ensures Loop(read, length, 0x20, [], world, false) == Replay(txs, [], world) <==> length <= |Encode(txs)| + 0x20
  {
    LoopReachesEnd(read, 0x20, txs, length, [], world);
    LoopGoesOn(read, length, 0x20 + |Encode(txs)|, Replay(txs, [], world).effects, world);
  }

  /** A cursor short of the length reads another record, so the loop does not end with the same effects. */
  lemma LoopGoesOn(read: Reader, length: nat, i: nat, done: seq<Effect>, world: World)
    ensures Loop(read, length, i, done, world, false) == Committed(done) <==> i >= length
  {
    if i < length && read(i).Do? {
      CallOnlyAgrees(read, length, i + 0x55 + read(i).dataLength, done + [read(i).effect], world);
    }
  }

  predicate Zero(tx: MetaTransaction) {
    tx.operation == 0 && tx.to == 0 && tx.value == 0 && tx.data == []
  }

  /** For instance, 33 to 117 zeros after a batch are read as one more record: a call to address zero. */
  lemma TrailingZeros(
    txs: seq<MetaTransaction>, zero: MetaTransaction, zeros: bytes, n: nat, memory: bytes, world: World)
    requires 0x20 < n <= 0x20 + 0x55 && Zero(zero)
    requires |zeros| == 0x55 && forall i | 0 <= i < 0x55 :: zeros[i] == 0
    requires Encode(txs) + zeros <= memory
    ensures Loop(Reading(memory), |Encode(txs)| + n, 0x20, [], world, false) == Replay(txs + [zero], [], world)
  {
    ZeroAppended(txs, zero, zeros);
    BatchComes(txs + [zero], memory);
    StartReplays(Reading(memory), txs + [zero], |Encode(txs)| + n, world);
  }

  lemma ZeroAppended(txs: seq<MetaTransaction>, zero: MetaTransaction, zeros: bytes)
    requires Zero(zero) && |zeros| == 0x55 && forall i | 0 <= i < 0x55 :: zeros[i] == 0
    ensures Encode(txs + [zero]) == Encode(txs) + zeros
  {
    EncodeAppend(txs, zero);
    ZeroRecord(zero, zeros);
  }

  lemma {:induction false} EncodeAppend(txs: seq<MetaTransaction>, tx: MetaTransaction)
    ensures Encode(txs + [tx]) == Encode(txs) + EncodeOne(tx)
  {
    if txs == [] {
      assert [tx][1..] == [];
    } else {
      EncodeAppend(txs[1..], tx);
      assert (txs + [tx])[1..] == txs[1..] + [tx] && (txs + [tx])[0] == txs[0];
      Regroup(EncodeOne(txs[0]), Encode(txs[1..]), EncodeOne(tx));
    }
  }

  lemma ZeroRecord(zero: MetaTransaction, zeros: bytes)
    requires Zero(zero) && |zeros| == 0x55 && forall i | 0 <= i < 0x55 :: zeros[i] == 0
    ensures EncodeOne(zero) == zeros
  {
    ZeroBytes(20);
    ZeroBytes(32);
  }

  lemma {:induction false} ZeroBytes(n: nat)
    ensures forall i | 0 <= i < n :: ToBytes(0, n)[i] == 0
  {
    if n != 0 {
      ZeroBytes(n - 1);
    }
  }

  /** The call that a transaction asks for: with all its fields, or a delegatecall, which carries no value. */
  function CallOf(tx: MetaTransaction): Effect {
    if tx.operation == 0 then Called(tx.to, tx.value, tx.data) else Delegated(tx.to, tx.data)
  }

  function CallsOf(txs: seq<MetaTransaction>): seq<Effect> {
    seq(|txs|, i requires 0 <= i < |txs| => CallOf(txs[i]))
  }

  /** The operation is known and the call succeeds after those made before it. */
  predicate Succeeds(tx: MetaTransaction, done: seq<Effect>, world: World) {
    tx.operation <= 1 && world(done, CallOf(tx))
  }

  /**
   * What a replay commits is the calls of all the transactions, in order and with their fields. It does so exactly
   * when every operation is 0 or 1 and every call, after those before it, succeeds; otherwise nothing is committed.
   */
  lemma {:induction false} ReplayIsAllOrNothing(txs: seq<MetaTransaction>, done: seq<Effect>, world: World)
    ensures var r := Replay(txs, done, world);
      && (r.Committed? ==> r.effects == done + CallsOf(txs))
      && (r.Committed? <==> forall i | 0 <= i < |txs| :: Succeeds(txs[i], done + CallsOf(txs[..i]), world))
  {
    if txs == [] {
      assert done + CallsOf(txs) == done;
    } else {
      var first := [CallOf(txs[0])];
      assert done + CallsOf(txs[..0]) == done;
      if Succeeds(txs[0], done, world) {
        ReplayIsAllOrNothing(txs[1..], done + first, world);
        Regroup(done, first, CallsOf(txs[1..]));
        assert first + CallsOf(txs[1..]) == CallsOf(txs);
        SucceedsShifted(txs, done, world);
      }
    }
  }

  /** When every call succeeds a batch of calls and delegatecalls is committed in full. */
  lemma ReplaySucceeds(txs: seq<MetaTransaction>, done: seq<Effect>, world: World)
    requires forall i | 0 <= i < |txs| :: txs[i].operation <= 1
    requires forall d: seq<Effect>, e: Effect :: world(d, e)
    ensures Replay(txs, done, world) == Committed(done + CallsOf(txs))
  {
    ReplayIsAllOrNothing(txs, done, world);
    assert forall i | 0 <= i < |txs| :: Succeeds(txs[i], done + CallsOf(txs[..i]), world);
  }

  lemma SucceedsShifted(txs: seq<MetaTransaction>, done: seq<Effect>, world: World)
    requires txs != [] && Succeeds(txs[0], done, world)
    ensures (forall i | 0 <= i < |txs| :: Succeeds(txs[i], done + CallsOf(txs[..i]), world))
       <==> forall i | 0 <= i < |txs[1..]| :: Succeeds(txs[1..][i], done + [CallOf(txs[0])] + CallsOf(txs[1..][..i]), world)
  {
    assert done + CallsOf(txs[..0]) == done;
    forall i | 0 <= i < |txs[1..]|
      ensures done + [CallOf(txs[0])] + CallsOf(txs[1..][..i]) == done + CallsOf(txs[..i + 1])
    {
      assert [CallOf(txs[0])] + CallsOf(txs[1..][..i]) == CallsOf(txs[..i + 1]);
      Regroup(done, [CallOf(txs[0])], CallsOf(txs[1..][..i]));
    }
    if forall i | 0 <= i < |txs[1..]| :: Succeeds(txs[1..][i], done + [CallOf(txs[0])] + CallsOf(txs[1..][..i]), world) {
      forall i | 0 <= i < |txs|
        ensures Succeeds(txs[i], done + CallsOf(txs[..i]), world)
      {
        if i > 0 {
          assert txs[i] == txs[1..][i - 1];
        }
      }
    }
  }

  // ----- the call-only variant

  predicate CallsOnly(effects: seq<Effect>) {
    forall e | e in effects :: e.Called?
  }

  /** On any memory whatever, the call-only loop commits what `MultiSend` commits when that has no delegatecall, and nothing otherwise. */
  lemma {:induction false} CallOnlyAgrees(read: Reader, length: nat, i: nat, done: seq<Effect>, world: World)
    ensures var r := Loop(read, length, i, done, world, false);
      && (r.Committed? ==> done <= r.effects)
      && (CallsOnly(done) ==> Loop(read, length, i, done, world, true)
                              == if r.Committed? && CallsOnly(r.effects) then r else Reverted)
    decreases length - i
  {
    if i < length && read(i).Do? && world(done, read(i).effect) {
      var effect := read(i).effect;
      CallOnlyAgrees(read, length, i + 0x55 + read(i).dataLength, done + [effect], world);
      var r := Loop(read, length, i, done, world, false);
      if effect.Delegated? && r.Committed? {
        assert r.effects[|done|] == effect && effect in r.effects;
      }
    }
  }

  /**
   * Of a printed batch, with up to 32 bytes after it, the call-only contract executes all or nothing, and nothing
   * when any operation is not a plain call.
   */
  lemma CallOnlyOnPrinted(txs: seq<MetaTransaction>, payload: bytes, memory: bytes, world: World)
    requires Encode(txs) <= payload <= memory && |payload| <= |Encode(txs)| + 0x20
    ensures Loop(Reading(memory), |payload|, 0x20, [], world, true)
         == if forall tx | tx in txs :: tx.operation == 0 then Replay(txs, [], world) else Reverted
  {
    PrintThenParse(txs, payload, memory, world);
    CallOnlyReplay(Reading(memory), |payload|, txs, world);
  }

  lemma CallOnlyReplay(read: Reader, length: nat, txs: seq<MetaTransaction>, world: World)
    requires Loop(read, length, 0x20, [], world, false) == Replay(txs, [], world)
    ensures Loop(read, length, 0x20, [], world, true)
         == if forall tx | tx in txs :: tx.operation == 0 then Replay(txs, [], world) else Reverted
  {
    CallOnlyAgrees(read, length, 0x20, [], world);
    ReplayIsAllOrNothing(txs, [], world);
    var r := Replay(txs, [], world);
    if r.Committed? {
      PlainMeansCallsOnly(txs);
      assert [] + CallsOf(txs) == CallsOf(txs);
      forall i | 0 <= i < |txs|
        ensures txs[i].operation <= 1
      {
        assert Succeeds(txs[i], [] + CallsOf(txs[..i]), world);
      }
    }
  }

  lemma PlainMeansCallsOnly(txs: seq<MetaTransaction>)
    ensures CallsOnly(CallsOf(txs)) <==> forall tx | tx in txs :: tx.operation == 0
  {
    forall i | 0 <= i < |txs|
      ensures CallOf(txs[i]) in CallsOf(txs)
    {
      assert CallsOf(txs)[i] == CallOf(txs[i]);
    }
  }
}
