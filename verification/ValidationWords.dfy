/**
 * The word that `validateUserOp` and `validatePaymasterUserOp` return: an authoriser in the low
 * 160 bits, then `validUntil` and `validAfter` in 48 bits each.
 */
module ValidationWords {
  import opened Words

  type Time48 = t: nat | t < U48

  datatype Validity = Validity(aggregator: Address, validAfter: Time48, validUntil: Time48)
  {
    predicate Holds(now: nat) {
      validAfter <= now <= validUntil
    }
  }

  function Pack(data: Validity): Word {
    PackedInWord(data);
    Or(Or(data.aggregator, data.validUntil * U160), data.validAfter * U208)
  }

  /** A zero `validUntil` is read as "forever". */
  function Parse(word: Word): Validity {
    var until: Time48 := (word / U160) % U48;
    Validity(word % U160, (word / U208) % U48, if until == 0 then U48 - 1 else until)
  }

  lemma PackedInWord(data: Validity)
    ensures Or(Or(data.aggregator, data.validUntil * U160), data.validAfter * U208)
         == data.aggregator + data.validUntil * U160 + data.validAfter * U208 < U256
  {
    PowersOfTwo();
    OrShifted(data.aggregator, data.validUntil, 160);
    OrShifted(data.aggregator + data.validUntil * U160, data.validAfter, 208);
  }

  /** Packing puts the three fields next to each other; parsing undoes it, except that "forever" comes back spelled out. */
  lemma ParsePacked(data: Validity)
    ensures Pack(data) == data.aggregator + data.validUntil * U160 + data.validAfter * U208
    ensures Parse(Pack(data)) == if data.validUntil == 0 then data.(validUntil := U48 - 1) else data
  {
    PackedInWord(data);
    var word := Pack(data);
    assert word % U160 == data.aggregator && (word / U160) % U48 == data.validUntil && (word / U208) % U48 == data.validAfter by {
      FieldsOf(data.aggregator, data.validUntil, data.validAfter);
    }
  }

  lemma FieldsOf(a: Address, u: Time48, v: Time48)
    ensures var w := a + u * U160 + v * U208;
      w % U160 == a && (w / U160) % U48 == u && (w / U208) % U48 == v
  {
    var w := a + u * U160 + v * U208;
    var high := u + v * U48;
    assert w == a + high * U160;
    assert w / U160 == high && w / U208 == high / U48;
  }

  /** Packing undoes parsing on every word but those that spell "forever" as zero. */
  lemma PackParsed(word: Word)
    ensures Pack(Parse(word)) == word <==> (word / U160) % U48 != 0
  {
    PackedInWord(Parse(word));
    SplitWord(word);
  }

  lemma SplitWord(word: Word)
    ensures word == word % U160 + (word / U160) % U48 * U160 + (word / U208) * U208
  {
    var high := word / U160;
    assert high == high % U48 + (high / U48) * U48;
    assert high / U48 == word / U208;
  }

  function Intersect(account: Word, paymaster: Word): Validity {
    var a, p := Parse(account), Parse(paymaster);
    Validity(if a.aggregator == 0 then p.aggregator else a.aggregator,
             if a.validAfter < p.validAfter then p.validAfter else a.validAfter,
             if a.validUntil > p.validUntil then p.validUntil else a.validUntil)
  }

  /** The intersected range holds at exactly the moments at which both ranges hold; the account's aggregator goes before the paymaster's. */
  lemma IntersectHolds(account: Word, paymaster: Word, now: nat)
    ensures Intersect(account, paymaster).Holds(now)
       <==> Parse(account).Holds(now) && Parse(paymaster).Holds(now)
    ensures Intersect(account, paymaster).aggregator
         == if Parse(account).aggregator != 0 then Parse(account).aggregator else Parse(paymaster).aggregator
  {
  }

  datatype Check = Check(aggregator: Address, outOfTimeRange: bool)

  /** `_getValidationData`: the zero word is not parsed at all. */
  function GetValidationData(word: Word, now: nat): Check {
    if word == 0 then Check(0, false)
    else
      var data := Parse(word);
      Check(data.aggregator, now > data.validUntil || now < data.validAfter)
  }

  /** The zero-word shortcut agrees with parsing for every word exactly while the clock is below 2^48. */
  lemma ShortcutAgrees(now: nat)
    ensures (forall word: Word :: GetValidationData(word, now)
                                  == Check(Parse(word).aggregator, !Parse(word).Holds(now)))
       <==> now < U48
  {
    var zero: Word := 0;
    assert Parse(zero) == Validity(0, 0, U48 - 1);
    assert GetValidationData(zero, now) == Check(0, false);
  }

  datatype Verdict = Accepted | SignatureError | NotDue | PaymasterSignatureError | PaymasterNotDue

  /** `_validateAccountAndPaymasterValidationData`. */
  function Judge(account: Word, paymaster: Word, expected: Address, now: nat): Verdict {
    var a := GetValidationData(account, now);
    if expected != a.aggregator then SignatureError
    else if a.outOfTimeRange then NotDue
    else
      var p := GetValidationData(paymaster, now);
      if p.aggregator != 0 then PaymasterSignatureError
      else if p.outOfTimeRange then PaymasterNotDue
      else Accepted
  }

  predicate Due(v: Validity, now: nat) {
    v.validAfter <= now && (v.validUntil == 0 || now <= v.validUntil)
  }

  /** Which of several faults is reported: the account's before the paymaster's, the authoriser before the clock. */
  lemma JudgeReports(account: Validity, paymaster: Validity, expected: Address, now: nat)
    requires now < U48
    ensures Judge(Pack(account), Pack(paymaster), expected, now)
         == if account.aggregator != expected then SignatureError
            else if !Due(account, now) then NotDue
            else if paymaster.aggregator != 0 then PaymasterSignatureError
            else if !Due(paymaster, now) then PaymasterNotDue
            else Accepted
  {
    ShortcutAgrees(now);
    ParsePacked(account);
    ParsePacked(paymaster);
    assert GetValidationData(Pack(account), now) == Check(Parse(Pack(account)).aggregator, !Parse(Pack(account)).Holds(now));
    assert GetValidationData(Pack(paymaster), now) == Check(Parse(Pack(paymaster)).aggregator, !Parse(Pack(paymaster)).Holds(now));
  }

  /**
   * A pair of words packed by an account and a paymaster is accepted exactly when the account named the
   * expected aggregator, the paymaster named none, and the clock is inside both ranges.
   */
  lemma JudgePacked(account: Validity, paymaster: Validity, expected: Address, now: nat)
    requires now < U48
    ensures Judge(Pack(account), Pack(paymaster), expected, now) == Accepted
       <==> && account.aggregator == expected
            && paymaster.aggregator == 0
            && Due(account, now) && Due(paymaster, now)
  {
    JudgeReports(account, paymaster, expected, now);
  }
}
