// d20 rolls, ability checks and attack rolls (crates/game-core/src/dice.rs, lines 5-163,
// crates/game-core/src/check.rs, lines 8-205, crates/game-core/src/proficiency.rs); the rules are
// those of "Using Ability Scores" in the System Reference Document 5.1.

module Checks {
  import opened Wrappers
  import opened MachineInts
  import opened HeroRules
  import opened Progression

  datatype RollMode = Normal | Advantage | Disadvantage

  datatype RollContext = RollContext(advantageSources: U8, disadvantageSources: U8) {
    /** Any advantage and disadvantage together cancel to one roll. */
    function EffectiveMode(): RollMode {
      match (advantageSources > 0, disadvantageSources > 0)
      case (true, false) => Advantage
      case (false, true) => Disadvantage
      case _ => Normal
    }
  }

  datatype RuleError = InvalidDieRoll(sides: U16, value: U16) | InvalidD20Roll | InvalidAbilityCheckResult
  type RuleResult<+T> = Result<T, RuleError>

  /** Supplies die results in a fixed but unknown order. */
  class DiceSource {
    const stream: nat -> U16
    var drawn: nat

    constructor Of(stream: nat -> U16)
      ensures this.stream == stream && drawn == 0
    {
      this.stream, drawn := stream, 0;
    }

    method Roll(sides: U16) returns (value: U16)
      modifies this
      ensures value == stream(old(drawn)) && drawn == old(drawn) + 1
    {
      value := stream(drawn);
      drawn := drawn + 1;
    }
  }

  function Maximum(a: int, b: int): int { if a < b then b else a }
  function Minimum(a: int, b: int): int { if a < b then a else b }

  datatype D20Roll = D20Roll(mode: RollMode, first: U8, second: Option<U8>, selected: U8) {
    /** `D20Roll::validate`. */
    function Validate(): RuleResult<()> {
      var _ :- Check(
        1 <= first <= 20 && (second.Some? ==> 1 <= second.value <= 20), InvalidD20Roll);
      match (mode, second)
      case (Normal, None) => Check(selected == first, InvalidD20Roll)
      case (Advantage, Some(other)) => Check(selected == Maximum(first, other), InvalidD20Roll)
      case (Disadvantage, Some(other)) => Check(selected == Minimum(first, other), InvalidD20Roll)
      case _ => Failure(InvalidD20Roll)
    }
  }

  predicate IsD20(value: int) { 1 <= value <= 20 }

  /** The roll a mode makes of two dice; the second matters only with two dice in play. */
  function RollOf(mode: RollMode, first: U16, second: U16): D20Roll
    requires IsD20(first) && (mode != Normal ==> IsD20(second))
  {
    match mode
    case Normal => D20Roll(mode, first, None, first)
    case Advantage => D20Roll(mode, first, Some(second), Maximum(first, second))
    case Disadvantage => D20Roll(mode, first, Some(second), Minimum(first, second))
  }

  /** The verdict on the next dice of a source. */
  function D20Verdict(mode: RollMode, first: U16, second: U16): RuleResult<()> {
    var _ :- Check(IsD20(first), InvalidDieRoll(20, first));
    Check(mode == Normal || IsD20(second), InvalidDieRoll(20, second))
  }

  /** Dice used: one, or two when a good first die is followed by a second. */
  function DiceUsed(mode: RollMode, first: U16): nat {
    if mode == Normal || !IsD20(first) then 1 else 2
  }

  /** The roll that the sources call for: with sources on neither side or on both, one die is kept as
      it falls; on one side alone, the better or the worse of two. */
  predicate FollowsSources(context: RollContext, first: U16, second: U16, roll: D20Roll) {
    var up, down := context.advantageSources > 0, context.disadvantageSources > 0;
    && roll.first == first
    && (up == down ==> roll.second == None && roll.selected == first && roll.mode == Normal)
    && (up != down ==> roll.second == Some(second) && roll.mode == (if up then Advantage else Disadvantage))
    && (up && !down ==> roll.selected == if second > first then second else first)
    && (down && !up ==> roll.selected == if second < first then second else first)
  }

  /** Any sources on both sides leave the roll that no sources give. */
  lemma OpposedSourcesCancel(context: RollContext, first: U16, second: U16)
    requires context.advantageSources > 0 && context.disadvantageSources > 0
    requires IsD20(first) && IsD20(second)
    ensures RollOf(context.EffectiveMode(), first, second) == RollOf(RollContext(0, 0).EffectiveMode(), first, second)
    ensures DiceUsed(context.EffectiveMode(), first) == 1
  {
  }

  method RollValidated(source: DiceSource, sides: U16) returns (r: RuleResult<U16>)
    modifies source
    ensures source.drawn == old(source.drawn) + 1
    ensures var value := source.stream(old(source.drawn));
      r == if 1 <= value <= sides then Success(value) else Failure(InvalidDieRoll(sides, value))
  {
    var value := source.Roll(sides);
    if 1 <= value <= sides {
      return Success(value);
    }
    return Failure(InvalidDieRoll(sides, value));
  }

  method ResolveD20(source: DiceSource, context: RollContext) returns (r: RuleResult<D20Roll>)
    modifies source
    ensures var mode := context.EffectiveMode();
      var first, second := source.stream(old(source.drawn)), source.stream(old(source.drawn) + 1);
      && source.drawn == old(source.drawn) + DiceUsed(mode, first)
      && (r.Success? <==> D20Verdict(mode, first, second).Success?)
      && (r.Success? ==> r.value == RollOf(mode, first, second))
      && (r.Failure? ==> r.error == D20Verdict(mode, first, second).error)
    ensures var first, second := source.stream(old(source.drawn)), source.stream(old(source.drawn) + 1);
      && (1 <= first <= 20 ==> (source.drawn == old(source.drawn) + 1
                                <==> (context.advantageSources > 0 <==> context.disadvantageSources > 0)))
      && (r.Success? ==> FollowsSources(context, first, second, r.value))
      && (r.Failure? ==> r.error == InvalidDieRoll(20, if 1 <= first <= 20 then second else first))
  {
    var mode := context.EffectiveMode();
    var first :- RollValidated(source, 20);
    var second: Option<U8> := None;
    if mode != Normal {
      var other :- RollValidated(source, 20);
      second := Some(other);
    }
    var selected: U8 := first;
    match (mode, second) {
      case (Advantage, Some(other)) => selected := Maximum(first, other);
      case (Disadvantage, Some(other)) => selected := Minimum(first, other);
      case _ =>
    }
    return Success(D20Roll(mode, first, second, selected));
  }

  // ----- Ability checks

  datatype Proficiency = Unproficient | Proficient | Expertise {
    function Bonus(proficiencyBonus: U8): U8
      requires proficiencyBonus <= 6
    {
      match this
      case Unproficient => 0
      case Proficient => proficiencyBonus
      case Expertise => proficiencyBonus * 2
    }
  }

  datatype AbilityCheck = AbilityCheck(
    ability: Ability, proficiency: Proficiency, difficultyClass: U16, situationalModifier: I16,
    context: RollContext)

  datatype AbilityCheckResult = AbilityCheckResult(
    roll: D20Roll, ability: Ability, abilityModifier: I8, proficiencyModifier: U8,
    situationalModifier: I16, total: I32, difficultyClass: U16, success: bool)
  {
    predicate AttainableProficiency() {
      proficiencyModifier in {0, 2, 3, 4, 5, 6, 8, 10, 12}
    }

    /** `AbilityCheckResult::validate`. */
    function Validate(): RuleResult<()> {
      var _ :- roll.Validate();
      var _ :- Check(-5 <= abilityModifier <= 10, InvalidAbilityCheckResult);
      var _ :- Check(AttainableProficiency(), InvalidAbilityCheckResult);
      var _ :- Check(
        total == roll.selected + abilityModifier + proficiencyModifier + situationalModifier,
        InvalidAbilityCheckResult);
      Check(success == (total >= difficultyClass), InvalidAbilityCheckResult)
    }
  }

  /** The result of a check on two legal dice. */
  function CheckResult(check: AbilityCheck, scores: AbilityScores, level: Level, first: U16, second: U16): AbilityCheckResult
    requires IsD20(first) && IsD20(second)
  {
    var roll := RollOf(check.context.EffectiveMode(), first, second);
    var abilityModifier := Modifier(scores.Get(check.ability));
    var proficiencyModifier := check.proficiency.Bonus(ProficiencyBonus(level));
    var total := roll.selected + abilityModifier + proficiencyModifier + check.situationalModifier;
    AbilityCheckResult(
      roll, check.ability, abilityModifier, proficiencyModifier, check.situationalModifier, total,
      check.difficultyClass, total >= check.difficultyClass)
  }

  /** `AbilityCheck::resolve`: only a bad die is an error; validating the result cannot fail. */
  method ResolveCheck(check: AbilityCheck, scores: AbilityScores, level: Level, source: DiceSource)
    returns (r: RuleResult<AbilityCheckResult>)
    modifies source
    ensures var mode := check.context.EffectiveMode();
      var first, second := source.stream(old(source.drawn)), source.stream(old(source.drawn) + 1);
      && source.drawn == old(source.drawn) + DiceUsed(mode, first)
      && (r.Success? <==> D20Verdict(mode, first, second).Success?)
      && (r.Success? ==> r.value == CheckResult(check, scores, level, first, if IsD20(second) then second else 1))
      && (r.Failure? ==> r.error == D20Verdict(mode, first, second).error)
    ensures var first, second := source.stream(old(source.drawn)), source.stream(old(source.drawn) + 1);
      && (1 <= first <= 20 ==> (source.drawn == old(source.drawn) + 1
                                <==> (check.context.advantageSources > 0 <==> check.context.disadvantageSources > 0)))
      && (r.Success? ==> FollowsSources(check.context, first, second, r.value.roll))
      && (r.Failure? ==> r.error == InvalidDieRoll(20, if 1 <= first <= 20 then second else first))
  {
    var roll :- ResolveD20(source, check.context);
    var abilityModifier := Modifier(scores.Get(check.ability));
    var proficiencyModifier := check.proficiency.Bonus(ProficiencyBonus(level));
    var total := roll.selected + abilityModifier + proficiencyModifier + check.situationalModifier;
    var result := AbilityCheckResult(
      roll, check.ability, abilityModifier, proficiencyModifier, check.situationalModifier, total,
      check.difficultyClass, total >= check.difficultyClass);
    var first, second := source.stream(old(source.drawn)), source.stream(old(source.drawn) + 1);
    CheckResultsAreValid(check, scores, level, first, if IsD20(second) then second else 1);
    if result.Validate().Failure? { assert false; }
    return Success(result);
  }

  lemma CheckResultsAreValid(check: AbilityCheck, scores: AbilityScores, level: Level, first: U16, second: U16)
    requires IsD20(first) && IsD20(second)
    ensures CheckResult(check, scores, level, first, second).Validate().Success?
  {
  }

  /** What proficiency adds at each level: 2 to 6, rising every fourth level, or twice that. */
  function ProficiencyAt(proficiency: Proficiency, level: Level): nat {
    var bonus := if level <= 4 then 2 else if level <= 8 then 3 else if level <= 12 then 4 else if level <= 16 then 5 else 6;
    if proficiency == Unproficient then 0 else if proficiency == Proficient then bonus else bonus + bonus
  }

  lemma ProficiencyIs(proficiency: Proficiency, level: Level)
    ensures proficiency.Bonus(ProficiencyBonus(level)) == ProficiencyAt(proficiency, level)
  {
  }

  /** A modifier is half the score's distance to ten, rounded down. */
  predicate IsHalved(modifier: int, score: int) { 2 * modifier <= score - 10 <= 2 * modifier + 1 }

  function ScoreOf(ability: Ability, scores: AbilityScores): AbilityScore {
    if ability == Strength then scores.strength
    else if ability == Dexterity then scores.dexterity
    else if ability == Constitution then scores.constitution
    else if ability == Intelligence then scores.intelligence
    else if ability == Wisdom then scores.wisdom
    else scores.charisma
  }

  /** A check adds its ability's halved score, proficiency and situation to the kept die, and succeeds
      on meeting the difficulty; a natural 20 or 1 means nothing more. */
  lemma CheckAddsUp(check: AbilityCheck, scores: AbilityScores, level: Level, first: U16, second: U16)
    requires IsD20(first) && IsD20(second)
    ensures var r := CheckResult(check, scores, level, first, second);
      && FollowsSources(check.context, first, second, r.roll)
      && r.ability == check.ability && r.difficultyClass == check.difficultyClass
      && r.situationalModifier == check.situationalModifier
      && IsHalved(r.abilityModifier, ScoreOf(check.ability, scores))
      && r.proficiencyModifier == ProficiencyAt(check.proficiency, level)
      && r.total == r.roll.selected + r.abilityModifier + r.proficiencyModifier + r.situationalModifier
      && (r.success <==> r.total >= check.difficultyClass)
  {
    ProficiencyIs(check.proficiency, level);
  }

  // ----- Soundness and completeness of the validator

  function ScoreFor(modifier: int): AbilityScore
    requires -5 <= modifier <= 10
    ensures Modifier(ScoreFor(modifier)) == modifier
  {
    if modifier == -5 then 1 else 10 + 2 * modifier
  }

  function ProficiencyFor(bonus: int): (r: (Proficiency, Level))
    requires bonus in {0, 2, 3, 4, 5, 6, 8, 10, 12}
    ensures r.0.Bonus(ProficiencyBonus(r.1)) == bonus
  {
    if bonus == 0 then (Unproficient, 1)
    else if bonus <= 6 then (Proficient, 4 * bonus - 7)
    else (Expertise, 2 * bonus - 7)
  }

  function ContextFor(mode: RollMode): (r: RollContext)
    ensures r.EffectiveMode() == mode
  {
    RollContext(if mode == Advantage then 1 else 0, if mode == Disadvantage then 1 else 0)
  }

  lemma ValidResultIsReachable(r: AbilityCheckResult)
    returns (check: AbilityCheck, scores: AbilityScores, level: Level, first: U16, second: U16)
    requires r.Validate().Success?
    ensures IsD20(first) && IsD20(second) && r == CheckResult(check, scores, level, first, second)
  {
    var score := ScoreFor(r.abilityModifier);
    var proficiency := ProficiencyFor(r.proficiencyModifier);
    scores := AbilityScores(score, score, score, score, score, score);
    level := proficiency.1;
    check := AbilityCheck(
      r.ability, proficiency.0, r.difficultyClass, r.situationalModifier, ContextFor(r.roll.mode));
    first := r.roll.first;
    second := if r.roll.second.Some? then r.roll.second.value else 1;
  }

  /** The validator accepts exactly the results that some scores, level, proficiency and dice make. */
  lemma ValidatorIsSoundAndComplete(r: AbilityCheckResult)
    ensures r.Validate().Success? <==>
      exists check: AbilityCheck, scores: AbilityScores, level: Level, first: U16, second: U16 ::
        IsD20(first) && IsD20(second) && r == CheckResult(check, scores, level, first, second)
  {
    if r.Validate().Success? {
      var check, scores, level, first, second := ValidResultIsReachable(r);
    }
    forall check: AbilityCheck, scores: AbilityScores, level: Level, first: U16, second: U16
      | IsD20(first) && IsD20(second) && r == CheckResult(check, scores, level, first, second)
      ensures r.Validate().Success?
    {
      CheckResultsAreValid(check, scores, level, first, second);
    }
  }

  // ----- Attacks

  datatype AttackRoll = AttackRoll(
    ability: Ability, proficiency: Proficiency, armorClass: U16, situationalModifier: I16,
    context: RollContext)

  datatype AttackOutcome = CriticalHit | Hit | Miss | AutomaticMiss {
    predicate IsHit() { CriticalHit? || Hit? }
  }

  datatype AttackRollResult = AttackRollResult(
    roll: D20Roll, ability: Ability, abilityModifier: I8, proficiencyModifier: U8,
    situationalModifier: I16, total: I32, armorClass: U16, outcome: AttackOutcome)

  function AttackResult(attack: AttackRoll, scores: AbilityScores, level: Level, first: U16, second: U16): AttackRollResult
    requires IsD20(first) && IsD20(second)
  {
    var roll := RollOf(attack.context.EffectiveMode(), first, second);
    var abilityModifier := Modifier(scores.Get(attack.ability));
    var proficiencyModifier := attack.proficiency.Bonus(ProficiencyBonus(level));
    var total := roll.selected + abilityModifier + proficiencyModifier + attack.situationalModifier;
    var outcome :=
      if roll.selected == 20 then CriticalHit
      else if roll.selected == 1 then AutomaticMiss
      else if total >= attack.armorClass then Hit
      else Miss;
    AttackRollResult(
      roll, attack.ability, abilityModifier, proficiencyModifier, attack.situationalModifier, total,
      attack.armorClass, outcome)
  }

  method ResolveAttack(attack: AttackRoll, scores: AbilityScores, level: Level, source: DiceSource)
    returns (r: RuleResult<AttackRollResult>)
    modifies source
    ensures var mode := attack.context.EffectiveMode();
      var first, second := source.stream(old(source.drawn)), source.stream(old(source.drawn) + 1);
      && source.drawn == old(source.drawn) + DiceUsed(mode, first)
      && (r.Success? <==> D20Verdict(mode, first, second).Success?)
      && (r.Success? ==> r.value == AttackResult(attack, scores, level, first, if IsD20(second) then second else 1))
      && (r.Failure? ==> r.error == D20Verdict(mode, first, second).error)
    ensures var first, second := source.stream(old(source.drawn)), source.stream(old(source.drawn) + 1);
      && (1 <= first <= 20 ==> (source.drawn == old(source.drawn) + 1
                                <==> (attack.context.advantageSources > 0 <==> attack.context.disadvantageSources > 0)))
      && (r.Success? ==> FollowsSources(attack.context, first, second, r.value.roll))
      && (r.Failure? ==> r.error == InvalidDieRoll(20, if 1 <= first <= 20 then second else first))
  {
    var roll :- ResolveD20(source, attack.context);
    var abilityModifier := Modifier(scores.Get(attack.ability));
    var proficiencyModifier := attack.proficiency.Bonus(ProficiencyBonus(level));
    var total := roll.selected + abilityModifier + proficiencyModifier + attack.situationalModifier;
    var outcome := Miss;
    if roll.selected == 20 {
      outcome := CriticalHit;
    } else if roll.selected == 1 {
      outcome := AutomaticMiss;
    } else if total >= attack.armorClass {
      outcome := Hit;
    }
    return Success(AttackRollResult(
      roll, attack.ability, abilityModifier, proficiencyModifier, attack.situationalModifier, total,
      attack.armorClass, outcome));
  }

  /** An attack adds up like a check, but a natural 20 always hits, critically, and a natural 1 never. */
  lemma AttackAddsUp(attack: AttackRoll, scores: AbilityScores, level: Level, first: U16, second: U16)
    requires IsD20(first) && IsD20(second)
    ensures var r := AttackResult(attack, scores, level, first, second); var die := r.roll.selected;
      && FollowsSources(attack.context, first, second, r.roll)
      && r.ability == attack.ability && r.armorClass == attack.armorClass
      && r.situationalModifier == attack.situationalModifier
      && IsHalved(r.abilityModifier, ScoreOf(attack.ability, scores))
      && r.proficiencyModifier == ProficiencyAt(attack.proficiency, level)
      && r.total == die + r.abilityModifier + r.proficiencyModifier + r.situationalModifier
      && (r.outcome == CriticalHit <==> die == 20)
      && (r.outcome == AutomaticMiss <==> die == 1)
      && (r.outcome.IsHit() <==> die == 20 || (die != 1 && r.total >= attack.armorClass))
  {
    ProficiencyIs(attack.proficiency, level);
  }

  // ----- Advantage never hurts

  predicate NoWorse(lower: RollMode, higher: RollMode) {
    lower == higher || lower == Disadvantage || higher == Advantage
  }

  /** With the first die fixed, whatever the second dice are, a check that succeeds keeps succeeding
      when its mode improves from disadvantage to normal to advantage. */
  lemma BetterModeKeepsSuccess(check: AbilityCheck, better: AbilityCheck, scores: AbilityScores, level: Level,
                               first: U16, second: U16, otherSecond: U16)
    requires IsD20(first) && IsD20(second) && IsD20(otherSecond)
    requires better == check.(context := better.context)
    requires var lower, higher := check.context.EffectiveMode(), better.context.EffectiveMode();
      NoWorse(lower, higher) && lower != higher
    requires CheckResult(check, scores, level, first, second).success
    ensures CheckResult(better, scores, level, first, otherSecond).success
  {
  }

  /** The same for attack hits, with a natural 20 always hitting and a natural 1 never. */
  lemma BetterModeKeepsHit(attack: AttackRoll, better: AttackRoll, scores: AbilityScores, level: Level,
                           first: U16, second: U16, otherSecond: U16)
    requires IsD20(first) && IsD20(second) && IsD20(otherSecond)
    requires better == attack.(context := better.context)
    requires var lower, higher := attack.context.EffectiveMode(), better.context.EffectiveMode();
      NoWorse(lower, higher) && lower != higher
    requires AttackResult(attack, scores, level, first, second).outcome.IsHit()
    ensures AttackResult(better, scores, level, first, otherSecond).outcome.IsHit()
  {
  }
}
