// The durable roll records of an encounter outcome: each record's own checks
// (crates/game-core/src/roll.rs, lines 489-633) and the chain through one outcome
// (crates/game-core/src/exploration.rs, lines 501-534 and 691-752).

/** Names in byte order, which for text is code-point order. */
module NameOrder {
  predicate NameLeq(a: string, b: string) {
    a == "" || (b != "" && (a[0] < b[0] || (a[0] == b[0] && NameLeq(a[1..], b[1..]))))
  }

  predicate NameLess(a: string, b: string) { !NameLeq(b, a) }

  lemma {:induction false} Total(a: string, b: string)
    ensures NameLeq(a, b) || NameLeq(b, a)
  {
    if a != "" && b != "" && a[0] == b[0] { Total(a[1..], b[1..]); }
  }

  lemma {:induction false} Transitive(a: string, b: string, c: string)
    requires NameLeq(a, b) && NameLeq(b, c)
    ensures NameLeq(a, c)
  {
    if a != "" && a[0] == b[0] == c[0] { Transitive(a[1..], b[1..], c[1..]); }
  }
}

module RollRecords {
  import opened Wrappers
  import opened MachineInts
  import opened Text
  import opened Sorting
  import opened NameOrder

  const MAX_MODIFIER_COMPONENTS := 16
  const MAX_ROLL_ABSOLUTE_TOTAL := 1_000_000

  datatype RollMode = Normal | Advantage | Disadvantage
  datatype DiceExpression = DiceExpression(count: U16, sides: U32, constant: I32)
  datatype Modifier = Modifier(name: string, value: I32)

  datatype RollRecord = RollRecord(
    rollId: string, expression: DiceExpression, rolledDice: seq<U32>, keptDice: seq<U32>,
    modifiers: seq<Modifier>, total: I32, purpose: string, actorId: string, targetId: Option<string>,
    mode: RollMode, seedReference: string, cursorBefore: U64, cursorAfter: U64)
  {
    /** Random words this record claims. */
    function Span(): int { cursorAfter - cursorBefore }
  }

  function SumValues(modifiers: seq<Modifier>): int {
    if modifiers == [] then 0 else modifiers[0].value + SumValues(modifiers[1..])
  }

  function SumDice(dice: seq<U32>): nat {
    if dice == [] then 0 else dice[0] + SumDice(dice[1..])
  }

  /** The fold over modifier components: no value when a name is illegal or out of order. */
  function FoldModifiers(modifiers: seq<Modifier>, previous: Option<string>, total: int): Option<int>
    decreases |modifiers|
  {
    if modifiers == [] then Some(total)
    else if !IsOpaqueId(modifiers[0].name) then None
    else if previous.Some? && NameLeq(modifiers[0].name, previous.value) then None
    else FoldModifiers(modifiers[1..], Some(modifiers[0].name), total + modifiers[0].value)
  }

  predicate ModifierLeq(a: Modifier, b: Modifier) { NameLeq(a.name, b.name) }

  lemma NamesAreOrdered()
    ensures IsOrder(ModifierLeq)
  {
    forall a: Modifier, b: Modifier
      ensures ModifierLeq(a, b) || ModifierLeq(b, a)
    {
      Total(a.name, b.name);
    }
    forall a: Modifier, b: Modifier, c: Modifier | ModifierLeq(a, b) && ModifierLeq(b, c)
      ensures ModifierLeq(a, c)
    {
      Transitive(a.name, b.name, c.name);
    }
  }

  predicate StrictNames(modifiers: seq<Modifier>) { StrictlySorted(ModifierLeq, modifiers) }

  /** The fold accepts exactly legal, strictly ascending names, and yields the sum. */
  lemma {:induction false} FoldIsOrderedSum(modifiers: seq<Modifier>, previous: Option<string>, total: int)
    ensures FoldModifiers(modifiers, previous, total).Some? <==>
      && StrictNames(modifiers)
      && (forall i :: 0 <= i < |modifiers| ==> IsOpaqueId(modifiers[i].name))
      && (modifiers != [] && previous.Some? ==> NameLess(previous.value, modifiers[0].name))
    ensures FoldModifiers(modifiers, previous, total).Some? ==>
      FoldModifiers(modifiers, previous, total).value == total + SumValues(modifiers)
    decreases |modifiers|
  {
    if modifiers != [] {
      var rest := modifiers[1..];
      FoldIsOrderedSum(rest, Some(modifiers[0].name), total + modifiers[0].value);
      assert forall i :: 0 < i < |modifiers| ==> modifiers[i] == rest[i - 1];
      assert forall i :: 0 <= i < |rest| ==> rest[i] == modifiers[i + 1];
      if StrictNames(modifiers) {
        assert StrictNames(rest);
      }
      if StrictNames(rest) && (rest != [] ==> NameLess(modifiers[0].name, rest[0].name)) {
        assert StrictNames(modifiers);
      }
    }
  }

  /** How many random words the dice of a record need at least; none if their shape is wrong. */
  function MinimumWords(r: RollRecord): Option<nat> {
    if r.mode.Normal? then
      if |r.rolledDice| == r.expression.count && r.keptDice == r.rolledDice then Some(r.expression.count) else None
    else if r.expression.count != 1 || r.expression.sides != 20 || |r.rolledDice| != 2 || |r.keptDice| != 1 then None
    else
      var low, high :=
        if r.rolledDice[0] <= r.rolledDice[1] then r.rolledDice[0] else r.rolledDice[1],
        if r.rolledDice[0] <= r.rolledDice[1] then r.rolledDice[1] else r.rolledDice[0];
      if r.keptDice[0] == (if r.mode.Advantage? then high else low) then Some(2) else None
  }

  /** `RollRecord::validate`; its errors all carry one code. */
  predicate ValidRecord(r: RollRecord) {
    && IsOpaqueId(r.rollId) && IsOpaqueId(r.purpose) && IsOpaqueId(r.actorId) && IsOpaqueId(r.seedReference)
    && (r.targetId.Some? ==> IsOpaqueId(r.targetId.value))
    && |r.modifiers| <= MAX_MODIFIER_COMPONENTS
    && FoldModifiers(r.modifiers, None, 0) == Some(r.expression.constant)
    && MinimumWords(r).Some?
    && (forall i :: 0 <= i < |r.rolledDice| ==> 1 <= r.rolledDice[i] <= r.expression.sides)
    && r.total == SumDice(r.keptDice) + r.expression.constant
    && -MAX_ROLL_ABSOLUTE_TOTAL <= r.total <= MAX_ROLL_ABSOLUTE_TOTAL
    && r.cursorBefore <= r.cursorAfter
    && r.Span() >= MinimumWords(r).value
  }

  /** A plain roll keeps all its dice; advantage keeps the better of two d20 and disadvantage the worse. */
  predicate KeepsTheRightDice(r: RollRecord) {
    if r.mode == Normal then |r.rolledDice| == r.expression.count && r.keptDice == r.rolledDice
    else
      && r.expression.count == 1 && r.expression.sides == 20 && |r.rolledDice| == 2 && |r.keptDice| == 1
      && r.keptDice[0] in {r.rolledDice[0], r.rolledDice[1]}
      && (r.mode == Advantage ==> r.rolledDice[0] <= r.keptDice[0] && r.rolledDice[1] <= r.keptDice[0])
      && (r.mode == Disadvantage ==> r.keptDice[0] <= r.rolledDice[0] && r.keptDice[0] <= r.rolledDice[1])
  }

  lemma KeptDiceAre(r: RollRecord)
    ensures MinimumWords(r).Some? <==> KeepsTheRightDice(r)
    ensures MinimumWords(r).Some? ==> MinimumWords(r).value == |r.rolledDice|
  {
  }

  /** A record is valid exactly when its names are legal, its modifiers ascend by name and make up the
      constant, its dice lie on their faces with the right ones kept, its total is their sum within a
      million, and its cursor moved at least a word for each die. */
  lemma ValidRecordsAre(r: RollRecord)
    ensures ValidRecord(r) <==>
      && IsOpaqueId(r.rollId) && IsOpaqueId(r.purpose) && IsOpaqueId(r.actorId) && IsOpaqueId(r.seedReference)
      && (r.targetId.Some? ==> IsOpaqueId(r.targetId.value))
      && |r.modifiers| <= 16 && StrictNames(r.modifiers)
      && (forall i :: 0 <= i < |r.modifiers| ==> IsOpaqueId(r.modifiers[i].name))
      && SumValues(r.modifiers) == r.expression.constant
      && KeepsTheRightDice(r)
      && (forall i :: 0 <= i < |r.rolledDice| ==> 1 <= r.rolledDice[i] <= r.expression.sides)
      && r.total == SumDice(r.keptDice) + SumValues(r.modifiers)
      && -1_000_000 <= r.total <= 1_000_000
      && r.cursorAfter - r.cursorBefore >= |r.rolledDice|
  {
    FoldIsOrderedSum(r.modifiers, None, 0);
    KeptDiceAre(r);
    hide IsOpaqueId, StrictNames, FoldModifiers, SumValues, SumDice, MinimumWords, KeepsTheRightDice;
  }

  /** A valid record pays for every die it rolled. */
  lemma SpanCoversDice(r: RollRecord)
    requires ValidRecord(r)
    ensures r.Span() >= |r.rolledDice|
  {
  }
}

module RollChains {
  import opened Wrappers
  import opened MachineInts
  import opened Sorting
  import opened RollRecords

  datatype RollPurpose = Initiative | AttackRoll | Damage | Healing | SleepHitPoints | HitDie | DeathSave {
    function Id(): string {
      match this
      case Initiative => "encounter:initiative"
      case AttackRoll => "encounter:attack"
      case Damage => "encounter:damage"
      case Healing => "encounter:healing"
      case SleepHitPoints => "encounter:sleep-hit-points"
      case HitDie => "encounter:hit-die"
      case DeathSave => "encounter:death-save"
    }
  }

  /** The raw facts of one roll; `expression` is the result of parsing the raw text. */
  datatype RawRoll = RawRoll(
    sequence: U16, purpose: RollPurpose, actorId: string, targetId: Option<string>,
    expression: Option<DiceExpression>, mode: RollMode, dice: seq<U16>, keptIndices: seq<U16>,
    modifiers: seq<Modifier>, total: I32)

  predicate IndicesInRange(raw: RawRoll) {
    forall k :: 0 <= k < |raw.keptIndices| ==> raw.keptIndices[k] < |raw.dice|
  }

  /** What the resolution's own validation has established before the records are read: rolls are
      numbered from one and kept indices point at dice. */
  predicate WellNumbered(raws: seq<RawRoll>) {
    forall i :: 0 <= i < |raws| ==> raws[i].sequence == i + 1 && IndicesInRange(raws[i])
  }

  // ----- Identifiers

  function Digit(n: nat): char
    requires n < 10
  {
    '0' + n as char
  }

  function Decimal(n: nat): (r: string)
    ensures r != "" && ':' !in r
  {
    if n < 10 then [Digit(n)] else Decimal(n / 10) + [Digit(n % 10)]
  }

  function RollId(session: string, eventSequence: nat, sequence: nat): string {
    "roll:" + session + ":" + Decimal(eventSequence) + ":" + Decimal(sequence)
  }

  lemma {:induction false} DecimalInjective(m: nat, n: nat)
    requires Decimal(m) == Decimal(n)
    ensures m == n
  {
    assert Decimal(m)[|Decimal(m)| - 1] == Digit(m % 10);
    assert Decimal(n)[|Decimal(n)| - 1] == Digit(n % 10);
    if m >= 10 && n >= 10 {
      assert Decimal(m)[..|Decimal(m)| - 1] == Decimal(m / 10);
      assert Decimal(n)[..|Decimal(n)| - 1] == Decimal(n / 10);
      DecimalInjective(m / 10, n / 10);
    }
  }

  lemma RollIdInjective(session: string, eventSequence: nat, m: nat, n: nat)
    requires RollId(session, eventSequence, m) == RollId(session, eventSequence, n)
    ensures m == n
  {
    var prefix := "roll:" + session + ":" + Decimal(eventSequence) + ":";
    assert RollId(session, eventSequence, m)[|prefix|..] == Decimal(m);
    assert RollId(session, eventSequence, n)[|prefix|..] == Decimal(n);
    DecimalInjective(m, n);
  }

  // ----- One record against its raw roll

  function KeptValues(raw: RawRoll): (r: seq<U32>)
    requires IndicesInRange(raw)
    ensures |r| == |raw.keptIndices|
  {
    seq(|raw.keptIndices|, k requires 0 <= k < |raw.keptIndices| => raw.dice[raw.keptIndices[k]] as U32)
  }

  function RolledValues(raw: RawRoll): seq<U32> {
    seq(|raw.dice|, k requires 0 <= k < |raw.dice| => raw.dice[k] as U32)
  }

  /** Every field but the modifiers. */
  predicate SameRoll(session: string, eventSequence: U64, raw: RawRoll, record: RollRecord)
    requires IndicesInRange(raw)
  {
    && record.rollId == RollId(session, eventSequence, raw.sequence)
    && raw.expression == Some(record.expression)
    && record.rolledDice == RolledValues(raw)
    && record.keptDice == KeptValues(raw)
    && record.total == raw.total
    && record.purpose == raw.purpose.Id()
    && record.actorId == raw.actorId
    && record.targetId == raw.targetId
    && record.mode == raw.mode
  }

  /** The record restates the raw roll, with its modifiers rearranged by name. */
  predicate Restates(session: string, eventSequence: U64, raw: RawRoll, record: RollRecord)
    requires IndicesInRange(raw)
  {
    SameRoll(session, eventSequence, raw, record) && multiset(record.modifiers) == multiset(raw.modifiers)
  }

  method ValidatePair(session: string, eventSequence: U64, raw: RawRoll, record: RollRecord) returns (ok: bool)
    requires IndicesInRange(raw) && ValidRecord(record)
    ensures ok <==> Restates(session, eventSequence, raw, record)
  {
    if raw.expression.None? {
      return false;
    }
    var expected := Sort(ModifierLeq, raw.modifiers);
    FoldIsOrderedSum(record.modifiers, None, 0);
    NamesAreOrdered();
    SortMatches(ModifierLeq, raw.modifiers, record.modifiers);
    return SameRoll(session, eventSequence, raw, record) && record.modifiers == expected;
  }

  /** An accepted record repeats the raw roll: who, at whom, what for, how, and every die. */
  lemma AcceptedRecordTells(session: string, eventSequence: U64, raw: RawRoll, record: RollRecord)
    requires AcceptedPair(session, eventSequence, raw, record)
    ensures record.actorId == raw.actorId && record.targetId == raw.targetId && record.mode == raw.mode
    ensures record.purpose == match raw.purpose
      case Initiative => "encounter:initiative"
      case AttackRoll => "encounter:attack"
      case Damage => "encounter:damage"
      case Healing => "encounter:healing"
      case SleepHitPoints => "encounter:sleep-hit-points"
      case HitDie => "encounter:hit-die"
      case DeathSave => "encounter:death-save"
    ensures record.rollId == "roll:" + session + ":" + Decimal(eventSequence) + ":" + Decimal(raw.sequence)
    ensures raw.expression == Some(record.expression)
    ensures |record.rolledDice| == |raw.dice|
    ensures forall k :: 0 <= k < |raw.dice| ==> record.rolledDice[k] == raw.dice[k]
    ensures |record.keptDice| == |raw.keptIndices|
    ensures forall k :: 0 <= k < |raw.keptIndices| ==>
      raw.keptIndices[k] < |raw.dice| && record.keptDice[k] == raw.dice[raw.keptIndices[k]]
    ensures raw.total == record.total == SumDice(record.keptDice) + SumValues(raw.modifiers)
  {
    RecordModifiersAreTheRawOnes(session, eventSequence, raw, record);
    hide MinimumWords, FoldModifiers;
  }

  /** The number a row of decimal digits spells. */
  function Spelled(digits: string): int {
    if digits == "" then 0 else 10 * Spelled(digits[..|digits| - 1]) + (digits[|digits| - 1] as int - '0' as int)
  }

  lemma {:induction false} DecimalSpells(n: nat)
    ensures Spelled(Decimal(n)) == n
    ensures forall i :: 0 <= i < |Decimal(n)| ==> '0' <= Decimal(n)[i] <= '9'
    ensures n > 0 ==> Decimal(n)[0] != '0'
  {
    if n < 10 {
      assert Decimal(n)[..0] == "";
    } else {
      DecimalSpells(n / 10);
      assert Decimal(n)[..|Decimal(n)| - 1] == Decimal(n / 10);
    }
  }

  // ----- The chain of one outcome

  /** Cursor intervals meet end to end under one seed. */
  predicate Chained(records: seq<RollRecord>) {
    forall i :: 0 < i < |records| ==>
      && records[i].cursorBefore == records[i - 1].cursorAfter
      && records[i].seedReference == records[i - 1].seedReference
  }

  /** A valid record that restates its raw roll. */
  predicate AcceptedPair(session: string, eventSequence: U64, raw: RawRoll, record: RollRecord) {
    ValidRecord(record) && IndicesInRange(raw) && Restates(session, eventSequence, raw, record)
  }

  predicate AcceptedRolls(session: string, eventSequence: U64, raws: seq<RawRoll>, records: seq<RollRecord>) {
    && |records| == |raws|
    && (forall i :: 0 <= i < |records| ==> AcceptedPair(session, eventSequence, raws[i], records[i]))
    && Chained(records)
  }

  /** The roll loop of `CommittedEncounterOutcomeDto::validate`. */
  method ValidateRolls(session: string, eventSequence: U64, raws: seq<RawRoll>, records: seq<RollRecord>)
    returns (ok: bool)
    requires WellNumbered(raws)
    ensures ok <==> AcceptedRolls(session, eventSequence, raws, records)
  {
    hide ValidRecord, Restates, IndicesInRange;
    if |records| != |raws| {
      return false;
    }
    var previousCursorAfter: Option<U64> := None;
    var seedReference: Option<string> := None;
    for i := 0 to |records|
      invariant previousCursorAfter == (if i == 0 then None else Some(records[i - 1].cursorAfter))
      invariant seedReference == (if i == 0 then None else Some(records[i - 1].seedReference))
      invariant forall k :: 0 <= k < i ==> AcceptedPair(session, eventSequence, raws[k], records[k])
      invariant Chained(records[..i])
    {
      if !ValidRecord(records[i]) {
        return false;
      }
      var paired := ValidatePair(session, eventSequence, raws[i], records[i]);
      if !paired {
        return false;
      }
      if previousCursorAfter.Some? && previousCursorAfter.value != records[i].cursorBefore {
        return false;
      }
      if seedReference.Some? && seedReference.value != records[i].seedReference {
        return false;
      }
      previousCursorAfter := Some(records[i].cursorAfter);
      seedReference := Some(records[i].seedReference);
      assert Chained(records[..i + 1]);
    }
    assert records[..|records|] == records;
    return true;
  }

  // ----- What acceptance means

  function TotalSpan(records: seq<RollRecord>): int {
    if records == [] then 0 else TotalSpan(records[..|records| - 1]) + records[|records| - 1].Span()
  }

  function TotalDice(records: seq<RollRecord>): nat {
    if records == [] then 0 else TotalDice(records[..|records| - 1]) + |records[|records| - 1].rolledDice|
  }

  /** The spans tile one interval: they sum to its length, which pays for every die rolled. */
  lemma {:induction false} SpansTile(records: seq<RollRecord>)
    requires Chained(records) && records != []
    requires forall i :: 0 <= i < |records| ==> ValidRecord(records[i])
    ensures TotalSpan(records) == records[|records| - 1].cursorAfter - records[0].cursorBefore
    ensures TotalSpan(records) >= TotalDice(records)
  {
    var last := |records| - 1;
    SpanCoversDice(records[last]);
    if last == 0 {
      assert records[..0] == [];
    } else {
      SpansTile(records[..last]);
      assert records[..last][last - 1] == records[last - 1];
    }
  }

  /** No two records of a chain share a random word, and all share the seed reference. */
  lemma {:induction false} CursorsAreDisjoint(records: seq<RollRecord>, i: nat, j: nat)
    requires Chained(records) && i < j < |records|
    requires forall k :: 0 <= k < |records| ==> ValidRecord(records[k])
    ensures records[i].cursorAfter <= records[j].cursorBefore
    ensures records[i].seedReference == records[j].seedReference
    decreases j
  {
    if i < j - 1 {
      CursorsAreDisjoint(records, i, j - 1);
    }
  }

  lemma SumAround(before: seq<Modifier>, middle: Modifier, after: seq<Modifier>)
    ensures SumValues(before + ([middle] + after)) == middle.value + SumValues(before + after)
    ensures multiset(before + after) == multiset(before + ([middle] + after)) - multiset{middle}
  {
    SumSplits(before, [middle] + after);
    SumSplits(before, after);
    assert ([middle] + after)[1..] == after;
  }

  lemma {:induction false} SumOfPermutation(a: seq<Modifier>, b: seq<Modifier>)
    requires multiset(a) == multiset(b)
    ensures SumValues(a) == SumValues(b)
  {
    if a == [] {
      assert |multiset(b)| == 0;
    } else {
      assert a[0] in multiset(b);
      var k :| 0 <= k < |b| && b[k] == a[0];
      var before, after := b[..k], b[k + 1..];
      assert b == before + ([b[k]] + after);
      SumAround(before, b[k], after);
      TailCounts(a);
      SumOfPermutation(a[1..], before + after);
    }
  }

  lemma {:induction false} SumSplits(a: seq<Modifier>, b: seq<Modifier>)
    ensures SumValues(a + b) == SumValues(a) + SumValues(b)
  {
    if a == [] {
      assert a + b == b;
    } else {
      assert (a + b)[1..] == a[1..] + b;
      SumSplits(a[1..], b);
    }
  }

  lemma RecordModifiersAreTheRawOnes(session: string, eventSequence: U64, raw: RawRoll, record: RollRecord)
    requires AcceptedPair(session, eventSequence, raw, record)
    ensures StrictNames(record.modifiers)
    ensures SumValues(raw.modifiers) == SumValues(record.modifiers) == record.expression.constant
  {
    FoldIsOrderedSum(record.modifiers, None, 0);
    SumOfPermutation(record.modifiers, raw.modifiers);
  }

  lemma RollIdsDiffer(session: string, eventSequence: U64, raws: seq<RawRoll>, records: seq<RollRecord>, i: nat, j: nat)
    requires WellNumbered(raws) && AcceptedRolls(session, eventSequence, raws, records) && i < j < |records|
    ensures records[i].rollId != records[j].rollId
  {
    hide ValidRecord, RollId;
    assert AcceptedPair(session, eventSequence, raws[i], records[i]);
    assert AcceptedPair(session, eventSequence, raws[j], records[j]);
    if records[i].rollId == records[j].rollId {
      RollIdInjective(session, eventSequence, raws[i].sequence, raws[j].sequence);
    }
  }

  /** An accepted outcome: one unbroken cursor interval under one seed that pays for all its dice,
      pairwise different roll identifiers, and in every record the modifiers are the raw ones in
      strict name order, with the same sum, which is the constant of the dice expression. */
  lemma AcceptedOutcomeIsOneChain(session: string, eventSequence: U64, raws: seq<RawRoll>, records: seq<RollRecord>)
    requires WellNumbered(raws) && AcceptedRolls(session, eventSequence, raws, records)
    ensures records != [] ==>
      && TotalSpan(records) == records[|records| - 1].cursorAfter - records[0].cursorBefore
      && TotalSpan(records) >= TotalDice(records)
    ensures forall i, j :: 0 <= i < j < |records| ==>
      && records[i].cursorAfter <= records[j].cursorBefore
      && records[i].seedReference == records[j].seedReference
      && records[i].rollId != records[j].rollId
    ensures forall i :: 0 <= i < |records| ==>
      && StrictNames(records[i].modifiers)
      && SumValues(raws[i].modifiers) == SumValues(records[i].modifiers) == records[i].expression.constant
  {
    hide ValidRecord, Restates, IndicesInRange;
    assert forall i :: 0 <= i < |records| ==> AcceptedPair(session, eventSequence, raws[i], records[i]);
    if records != [] {
      SpansTile(records);
    }
    forall i, j | 0 <= i < j < |records|
      ensures records[i].cursorAfter <= records[j].cursorBefore
      ensures records[i].seedReference == records[j].seedReference
      ensures records[i].rollId != records[j].rollId
    {
      CursorsAreDisjoint(records, i, j);
      RollIdsDiffer(session, eventSequence, raws, records, i, j);
    }
    forall i | 0 <= i < |records|
      ensures StrictNames(records[i].modifiers)
      ensures SumValues(raws[i].modifiers) == SumValues(records[i].modifiers) == records[i].expression.constant
    {
      RecordModifiersAreTheRawOnes(session, eventSequence, raws[i], records[i]);
    }
  }
}
