// Levels and experience of a rules character (crates/game-core/src/progression.rs and
// crates/game-core/src/character.rs, lines 97-176).

module Progression {
  import opened MachineInts

  const XP_THRESHOLDS: seq<U32> := [
    0, 300, 900, 2_700, 6_500, 14_000, 23_000, 34_000, 48_000, 64_000, 85_000, 100_000, 120_000,
    140_000, 165_000, 195_000, 225_000, 265_000, 305_000, 355_000]

  const MAX_LEVEL := 20

  type Level = x: int | 1 <= x <= MAX_LEVEL witness 1

  function MinimumExperience(level: Level): U32 { XP_THRESHOLDS[level - 1] }

  function ProficiencyBonus(level: Level): U8 { 2 + (level - 1) / 4 }

  predicate Rising(thresholds: seq<U32>) {
    forall i, j :: 0 <= i < j < |thresholds| ==> thresholds[i] < thresholds[j]
  }

  lemma ThresholdsRise()
    ensures Rising(XP_THRESHOLDS)
  {
  }

  /** Linear definition: how many of the first n thresholds are met. */
  function CountMet(thresholds: seq<U32>, experience: U32, n: nat): (r: nat)
    requires n <= |thresholds|
    ensures r <= n
  {
    if n == 0 then 0
    else CountMet(thresholds, experience, n - 1) + if thresholds[n - 1] <= experience then 1 else 0
  }

  /** With rising thresholds the ones met are a prefix. */
  lemma {:induction false} MetIsPrefix(thresholds: seq<U32>, experience: U32, n: nat, i: nat)
    requires i < n <= |thresholds| && Rising(thresholds)
    ensures i < CountMet(thresholds, experience, n) <==> thresholds[i] <= experience
  {
    if n > 1 {
      MetIsPrefix(thresholds, experience, n - 1, n - 2);
      if i < n - 1 {
        MetIsPrefix(thresholds, experience, n - 1, i);
      }
    }
  }

  /** The level of an experience total, as the linear definition gives it. */
  function LevelOf(experience: U32): Level {
    ThresholdsRise();
    MetIsPrefix(XP_THRESHOLDS, experience, MAX_LEVEL, 0);
    CountMet(XP_THRESHOLDS, experience, MAX_LEVEL)
  }

  /** The binary search of `partition_point`: where the met thresholds stop. */
  method PartitionPoint(thresholds: seq<U32>, experience: U32) returns (point: nat)
    requires Rising(thresholds)
    ensures point == CountMet(thresholds, experience, |thresholds|)
  {
    var low, high := 0, |thresholds|;
    while low < high
      invariant 0 <= low <= high <= |thresholds|
      invariant forall i :: 0 <= i < low ==> thresholds[i] <= experience
      invariant forall i :: high <= i < |thresholds| ==> thresholds[i] > experience
    {
      var middle := (low + high) / 2;
      if thresholds[middle] <= experience {
        low := middle + 1;
      } else {
        high := middle;
      }
    }
    point := low;
    if point > 0 { MetIsPrefix(thresholds, experience, |thresholds|, point - 1); }
    if point < |thresholds| { MetIsPrefix(thresholds, experience, |thresholds|, point); }
  }

  /** `Level::from_experience`. */
  method FromExperience(experience: U32) returns (r: Level)
    ensures r == LevelOf(experience)
  {
    ThresholdsRise();
    var attained := PartitionPoint(XP_THRESHOLDS, experience);
    assert attained == LevelOf(experience);
    r := if attained < MAX_LEVEL then attained else MAX_LEVEL;
  }

  /** A level is reached exactly when its threshold is. */
  lemma LevelReachedIff(experience: U32, level: Level)
    ensures LevelOf(experience) >= level <==> experience >= MinimumExperience(level)
  {
    ThresholdsRise();
    MetIsPrefix(XP_THRESHOLDS, experience, MAX_LEVEL, level - 1);
  }

  /** The level table, written out. */
  function TableLevel(experience: U32): Level {
    if experience < 300 then 1 else if experience < 900 then 2 else if experience < 2_700 then 3
    else if experience < 6_500 then 4 else if experience < 14_000 then 5 else if experience < 23_000 then 6
    else if experience < 34_000 then 7 else if experience < 48_000 then 8 else if experience < 64_000 then 9
    else if experience < 85_000 then 10 else if experience < 100_000 then 11 else if experience < 120_000 then 12
    else if experience < 140_000 then 13 else if experience < 165_000 then 14 else if experience < 195_000 then 15
    else if experience < 225_000 then 16 else if experience < 265_000 then 17 else if experience < 305_000 then 18
    else if experience < 355_000 then 19 else 20
  }

  lemma LevelTable(experience: U32)
    ensures LevelOf(experience) == TableLevel(experience)
  {
    var level := TableLevel(experience);
    LevelReachedIff(experience, level);
    if level < MAX_LEVEL {
      LevelReachedIff(experience, level + 1);
    }
  }

  lemma LevelsRise(low: U32, high: U32)
    requires low <= high
    ensures LevelOf(low) <= LevelOf(high)
  {
    LevelReachedIff(low, LevelOf(low));
    LevelReachedIff(high, LevelOf(low));
  }
}

module Characters {
  import opened Wrappers
  import opened MachineInts
  import opened Text
  import opened Progression

  const MAX_CHARACTER_TEXT_CHARS := 200

  datatype CharacterError =
    | InvalidIdentifier | EmptyField | TextFieldTooLong | InvalidMaximumHitPoints
    | CurrentHitPointsExceedMaximum | LevelExperienceMismatch | ExperienceOverflow
    | WrongExperienceTotal | WrongLevels | WrongLevelsGained

  type CharacterResult<+T> = Result<T, CharacterError>

  function CheckText(text: string): CharacterResult<()> {
    if IsBlank(text) then Failure(EmptyField)
    else Check(|text| <= MAX_CHARACTER_TEXT_CHARS, TextFieldTooLong)
  }

  function CheckHitPoints(current: U32, maximum: U32): CharacterResult<()> {
    if maximum == 0 then Failure(InvalidMaximumHitPoints)
    else Check(current <= maximum, CurrentHitPointsExceedMaximum)
  }

  function CheckRecord(id: string, name: string, theme: string, current: U32, maximum: U32): CharacterResult<()> {
    var _ :- Check(IsOpaqueId(id), InvalidIdentifier);
    var _ :- CheckText(name);
    var _ :- CheckText(theme);
    CheckHitPoints(current, maximum)
  }

  /** A legal identifier, a name and theme of 1 to 200 characters that are not blank, and hit points
      from zero to a maximum of at least one. */
  lemma RecordAcceptedIff(id: string, name: string, theme: string, current: U32, maximum: U32)
    ensures CheckRecord(id, name, theme, current, maximum).Success? <==>
      && IsOpaqueId(id)
      && !IsBlank(name) && |name| <= 200 && !IsBlank(theme) && |theme| <= 200
      && 1 <= maximum && current <= maximum
  {
  }

  /** The levels after `from` up to `to`, in order. */
  function LevelsAfter(from: Level, to: Level): seq<Level> {
    if to <= from then [] else seq(to - from, i requires 0 <= i < to - from => (from + 1 + i) as Level)
  }

  datatype AwardSummary = AwardSummary(
    awarded: U32, previousExperience: U32, experience: U32, previousLevel: Level, level: Level,
    levelsGained: seq<Level>)
  {
    /** `ExperienceAwardSummary::validate`. */
    function Validate(): CharacterResult<()> {
      var _ :- Check(previousExperience + awarded == experience, WrongExperienceTotal);
      var _ :- Check(previousLevel == LevelOf(previousExperience) && level == LevelOf(experience), WrongLevels);
      Check(levelsGained == LevelsAfter(previousLevel, level), WrongLevelsGained)
    }
  }

  /** The summary of granting an amount on top of a total. */
  function SummaryOf(experience: U32, amount: U32): AwardSummary
    requires experience + amount < 0x1_0000_0000
  {
    var before, after := LevelOf(experience), LevelOf(experience + amount);
    AwardSummary(amount, experience, experience + amount, before, after, LevelsAfter(before, after))
  }

  class Character {
    const id: string
    const name: string
    const theme: string
    var experience: U32
    var level: Level
    var currentHitPoints: U32
    var maximumHitPoints: U32

    predicate Legal()
      reads this
    {
      CheckRecord(id, name, theme, currentHitPoints, maximumHitPoints).Success? && level == LevelOf(experience)
    }

    constructor Of(id: string, name: string, theme: string, experience: U32, level: Level, current: U32, maximum: U32)
      ensures this.id == id && this.name == name && this.theme == theme
      ensures this.experience == experience && this.level == level
      ensures this.currentHitPoints == current && this.maximumHitPoints == maximum
    {
      this.id, this.name, this.theme := id, name, theme;
      this.experience, this.level := experience, level;
      this.currentHitPoints, this.maximumHitPoints := current, maximum;
    }

    /** `CharacterDraft::build`: the level is computed, never supplied. */
    static method Build(id: string, name: string, theme: string, experience: U32, current: U32, maximum: U32)
      returns (r: CharacterResult<Character>)
      ensures r.Success? <==>
        && IsOpaqueId(id)
        && !IsBlank(name) && |name| <= 200 && !IsBlank(theme) && |theme| <= 200
        && 1 <= maximum && current <= maximum
      ensures r.Success? ==>
        && fresh(r.value) && r.value.Legal() && r.value.experience == experience
        && r.value.id == id && r.value.name == name && r.value.theme == theme
        && r.value.currentHitPoints == current && r.value.maximumHitPoints == maximum
    {
      RecordAcceptedIff(id, name, theme, current, maximum);
      var checked :- CheckRecord(id, name, theme, current, maximum);
      var level := FromExperience(experience);
      var character := new Character.Of(id, name, theme, experience, level, current, maximum);
      return Success(character);
    }

    method Validate() returns (r: CharacterResult<()>)
      ensures r.Success? <==> Legal()
    {
      var checked :- CheckRecord(id, name, theme, currentHitPoints, maximumHitPoints);
      var expected := FromExperience(experience);
      r := Check(level == expected, LevelExperienceMismatch);
    }

    /** Adds experience and reports every level newly attained; nothing changes on an error. */
    method AwardExperience(amount: U32) returns (r: CharacterResult<AwardSummary>)
      modifies this`experience, this`level
      ensures r.Success? <==> old(Legal()) && old(experience) + amount < 0x1_0000_0000
      ensures r.Success? ==>
        Legal() && experience == old(experience) + amount && r.value == SummaryOf(old(experience), amount)
      ensures r.Failure? ==> experience == old(experience) && level == old(level)
    {
      var validated :- Validate();
      if experience + amount >= 0x1_0000_0000 {
        return Failure(ExperienceOverflow);
      }
      var previousExperience, previousLevel := experience, level;
      var total := previousExperience + amount;
      var attained := FromExperience(total);
      experience := total;
      level := attained;
      return Success(AwardSummary(
        amount, previousExperience, total, previousLevel, attained, LevelsAfter(previousLevel, attained)));
    }
  }

  /** The validator accepts exactly the summaries an award can produce. */
  lemma SummaryIsSoundAndComplete(s: AwardSummary)
    ensures s.Validate().Success? <==>
      exists experience: U32, amount: U32 ::
        experience + amount < 0x1_0000_0000 && s == SummaryOf(experience, amount)
  {
    if s.Validate().Success? {
      assert s == SummaryOf(s.previousExperience, s.awarded);
    }
  }

  /** What a run of awards leaves: the total, and the levels gained, one report after another.
      Awards that would overflow are refused and change nothing. */
  datatype AwardRun = AwardRun(experience: U32, gained: seq<Level>)

  function RunAwards(experience: U32, amounts: seq<U32>): AwardRun
    decreases |amounts|
  {
    if amounts == [] then AwardRun(experience, [])
    else if experience + amounts[0] >= 0x1_0000_0000 then RunAwards(experience, amounts[1..])
    else
      var rest := RunAwards(experience + amounts[0], amounts[1..]);
      AwardRun(rest.experience, SummaryOf(experience, amounts[0]).levelsGained + rest.gained)
  }

  lemma LevelsAfterChain(low: Level, middle: Level, high: Level)
    requires low <= middle <= high
    ensures LevelsAfter(low, middle) + LevelsAfter(middle, high) == LevelsAfter(low, high)
  {
  }

  /** Over any run, the reports concatenated list each level between start and finish once, in
      order, and the level never falls. */
  lemma {:induction false} RunListsEveryLevelOnce(experience: U32, amounts: seq<U32>)
    ensures var r := RunAwards(experience, amounts);
      && experience <= r.experience
      && LevelOf(experience) <= LevelOf(r.experience)
      && r.gained == LevelsAfter(LevelOf(experience), LevelOf(r.experience))
      && (forall i :: 0 <= i < |r.gained| ==> r.gained[i] == LevelOf(experience) + 1 + i)
      && |r.gained| == LevelOf(r.experience) - LevelOf(experience)
    decreases |amounts|
  {
    if amounts != [] {
      if experience + amounts[0] >= 0x1_0000_0000 {
        RunListsEveryLevelOnce(experience, amounts[1..]);
      } else {
        var next := experience + amounts[0];
        RunListsEveryLevelOnce(next, amounts[1..]);
        LevelsRise(experience, next);
        LevelsAfterChain(LevelOf(experience), LevelOf(next), LevelOf(RunAwards(next, amounts[1..]).experience));
      }
    } else {
      LevelsRise(experience, experience);
    }
  }

  function Sum(amounts: seq<U32>): nat {
    if amounts == [] then 0 else amounts[0] + Sum(amounts[1..])
  }

  /** Granting an amount in parts ends in the same total, level and list of levels as at once. */
  lemma {:induction false} SplitAwardsAgree(experience: U32, amounts: seq<U32>)
    requires experience + Sum(amounts) < 0x1_0000_0000
    ensures RunAwards(experience, amounts) == RunAwards(experience, [Sum(amounts)])
  {
    SplitTotal(experience, amounts);
    RunListsEveryLevelOnce(experience, amounts);
    RunListsEveryLevelOnce(experience, [Sum(amounts)]);
    SplitTotal(experience, [Sum(amounts)]);
    assert Sum([Sum(amounts)]) == Sum(amounts);
  }

  lemma {:induction false} SplitTotal(experience: U32, amounts: seq<U32>)
    requires experience + Sum(amounts) < 0x1_0000_0000
    ensures RunAwards(experience, amounts).experience == experience + Sum(amounts)
    decreases |amounts|
  {
    if amounts != [] {
      SplitTotal(experience + amounts[0], amounts[1..]);
    }
  }
}
