// Laws of single operations on a hero: what synchronisation stores, what a level-up conserves,
// and what the derived sheet ignores (crates/game-core/src/hero.rs).

module HeroLaws {
  import opened Wrappers
  import opened MachineInts
  import opened Sorting
  import opened HeroErrors
  import opened HeroRules
  import opened HeroSheets
  import opened HeroDocuments
  import opened HeroCharacters
  import opened HeroSync
  import opened HeroRuns

  // ----- Runtime synchronisation

  /** Distinct readings of known kinds, each within its pool's maximum. */
  predicate GoodReadings(pools: seq<ResourcePool>, readings: seq<PoolReading>) {
    && DistinctReadings(readings)
    && KnownReadings(readings, pools)
    && forall j :: 0 <= j < |readings| ==> readings[j].1 <= pools[FindPool(pools, readings[j].0).value].maximum
  }

  lemma {:induction false} AcceptedReadingsAreGood(pools: seq<ResourcePool>, readings: seq<PoolReading>, seen: set<ResourceKind>)
    requires DistinctKinds(pools) && SyncPools(pools, readings, seen).1.Success?
    ensures GoodReadings(pools, readings)
    decreases |readings|
  {
    SyncPoolsWrites(pools, readings, seen);
    if readings != [] {
      var (kind, current) := readings[0];
      var at := FindPool(pools, kind).value;
      var next := pools[at := pools[at].(current := current)];
      AcceptedReadingsAreGood(next, readings[1..], seen + {kind});
      forall j | 0 < j < |readings|
        ensures readings[j].1 <= pools[FindPool(pools, readings[j].0).value].maximum
      {
        assert readings[j] == readings[1..][j - 1];
        FindAfterWrite(pools, at, current, readings[j].0);
      }
    }
  }

  lemma ValidKindsAreDistinct(h: Hero)
    requires ValidHero(h)
    ensures DistinctKinds(h.sheet.resources) && h.sheet.resources != []
  {
    DerivedRuntime(h.choices, h.level);
  }

  /** Synchronisation succeeds exactly on a full set of good readings, legal hit points and a
      revision below the maximum. */
  lemma SynchronizationSucceedsIff(h: Hero, hitPoints: U16, readings: seq<PoolReading>)
    requires ValidHero(h)
    ensures Synchronized(h, hitPoints, readings).1.Success? <==>
      && hitPoints <= h.sheet.maximumHitPoints
      && |readings| == |h.sheet.resources|
      && GoodReadings(h.sheet.resources, readings)
      && h.revision < U64_MAX
  {
    ValidKindsAreDistinct(h);
    hide Derived, ValidHero;
    if GoodReadings(h.sheet.resources, readings) {
      GoodReadingsAreAccepted(h.sheet.resources, readings, {});
    }
    if SyncPools(h.sheet.resources, readings, {}).1.Success? {
      AcceptedReadingsAreGood(h.sheet.resources, readings, {});
    }
  }

  /** A successful synchronisation stores the hit points and, for every pool, the one reading of
      its kind; maxima, order, choices, level and experience do not move. */
  lemma SynchronizationStoresEveryReading(h: Hero, hitPoints: U16, readings: seq<PoolReading>)
    requires ValidHero(h) && Synchronized(h, hitPoints, readings).1.Success?
    ensures var after := Synchronized(h, hitPoints, readings).0;
      && after == h.(revision := h.revision + 1, sheet := h.sheet.(
                       currentHitPoints := hitPoints, resources := after.sheet.resources))
      && |after.sheet.resources| == |h.sheet.resources|
      && forall i :: 0 <= i < |h.sheet.resources| ==>
           var reading := ReadingFor(readings, h.sheet.resources[i].resource);
           reading.Some? && after.sheet.resources[i] == h.sheet.resources[i].(current := reading.value)
  {
    ValidKindsAreDistinct(h);
    hide Derived, ValidHero;
    SyncCoversEveryPool(h.sheet.resources, readings);
  }

  /** How many readings come before the first that repeats a kind, names no pool, or exceeds its
      pool's maximum. Kinds and maxima never change, so the stored pools decide it. */
  function GoodPrefix(pools: seq<ResourcePool>, readings: seq<PoolReading>, seen: set<ResourceKind>): (k: nat)
    ensures k <= |readings|
    decreases |readings|
  {
    if readings == [] then 0
    else
      var (kind, current) := readings[0];
      var found := FindPool(pools, kind);
      if kind in seen || found.None? || current > pools[found.value].maximum then 0
      else 1 + GoodPrefix(pools, readings[1..], seen + {kind})
  }

  lemma {:induction false} GoodPrefixIgnoresCounters(pools: seq<ResourcePool>, at: nat, current: U8,
                                                     readings: seq<PoolReading>, seen: set<ResourceKind>)
    requires at < |pools|
    ensures GoodPrefix(pools[at := pools[at].(current := current)], readings, seen) == GoodPrefix(pools, readings, seen)
    decreases |readings|
  {
    if readings != [] {
      FindAfterWrite(pools, at, current, readings[0].0);
      GoodPrefixIgnoresCounters(pools, at, current, readings[1..], seen + {readings[0].0});
    }
  }

  /** Whatever the verdict, the loop writes exactly the good prefix. */
  lemma {:induction false} PoolsHoldTheGoodPrefix(pools: seq<ResourcePool>, readings: seq<PoolReading>, seen: set<ResourceKind>)
    ensures var k := GoodPrefix(pools, readings, seen);
      && SyncPools(pools, readings[..k], seen) == (SyncPools(pools, readings, seen).0, Success(()))
      && (SyncPools(pools, readings, seen).1.Success? <==> k == |readings|)
    decreases |readings|
  {
    var k := GoodPrefix(pools, readings, seen);
    if k > 0 {
      var (kind, current) := readings[0];
      var at := FindPool(pools, kind).value;
      assert readings[..k][1..] == readings[1..][..k - 1];
      GoodPrefixIgnoresCounters(pools, at, current, readings[1..], seen + {kind});
      PoolsHoldTheGoodPrefix(pools[at := pools[at].(current := current)], readings[1..], seen + {kind});
    }
  }

  /** Every reading before the first bad one repeats the stored counter. */
  predicate PrefixIsIdle(pools: seq<ResourcePool>, readings: seq<PoolReading>) {
    forall j :: 0 <= j < GoodPrefix(pools, readings, {}) ==>
      && FindPool(pools, readings[j].0).Some?
      && readings[j].1 == pools[FindPool(pools, readings[j].0).value].current
  }

  lemma WrittenPoolsStandIff(pools: seq<ResourcePool>, readings: seq<PoolReading>)
    requires DistinctKinds(pools)
    ensures SyncPools(pools, readings, {}).0 == pools <==> PrefixIsIdle(pools, readings)
  {
    var k := GoodPrefix(pools, readings, {});
    var prefix := readings[..k];
    PoolsHoldTheGoodPrefix(pools, readings, {});
    SyncPoolsWrites(pools, prefix, {});
    OverwriteIsIdleIff(pools, SyncPools(pools, prefix, {}).0, prefix);
    assert forall j :: 0 <= j < k ==> prefix[j] == readings[j];
  }

  /** Nothing would be written: the call stops before its loop, or repeats every stored value up to
      the point where it is refused. */
  predicate WritesNothing(h: Hero, hitPoints: U16, readings: seq<PoolReading>) {
    || hitPoints > h.sheet.maximumHitPoints
    || |readings| != |h.sheet.resources|
    || (&& PrefixIsIdle(h.sheet.resources, readings)
        && (GoodPrefix(h.sheet.resources, readings, {}) == |readings| ==> hitPoints == h.sheet.currentHitPoints))
  }

  lemma RefusedState(h: Hero, hitPoints: U16, readings: seq<PoolReading>)
    requires hitPoints <= h.sheet.maximumHitPoints && |readings| == |h.sheet.resources|
    requires Synchronized(h, hitPoints, readings).1.Failure?
    ensures var (pools, verdict) := SyncPools(h.sheet.resources, readings, {});
      Synchronized(h, hitPoints, readings).0 == h.(sheet := h.sheet.(
        resources := pools,
        currentHitPoints := if verdict.Success? then hitPoints else h.sheet.currentHitPoints))
  {
    var (pools, verdict) := SyncPools(h.sheet.resources, readings, {});
    hide SyncPools;
    if verdict.Success? {
      assert h.revision == U64_MAX;
    }
  }

  /** Every refused synchronisation of a valid hero, whether refused for its hit points, its readings
      or a revision at its maximum, leaves the hero as it was exactly when it writes nothing. */
  lemma RefusalIsAtomicIff(h: Hero, hitPoints: U16, readings: seq<PoolReading>)
    requires ValidHero(h)
    ensures Synchronized(h, hitPoints, readings).1.Failure? ==>
      (Synchronized(h, hitPoints, readings).0 == h <==> WritesNothing(h, hitPoints, readings))
  {
    ValidKindsAreDistinct(h);
    if && hitPoints <= h.sheet.maximumHitPoints && |readings| == |h.sheet.resources|
       && Synchronized(h, hitPoints, readings).1.Failure? {
      hide Derived, ValidHero, PrefixIsIdle, SyncPools, GoodPrefix;
      RefusedState(h, hitPoints, readings);
      WrittenPoolsStandIff(h.sheet.resources, readings);
      PoolsHoldTheGoodPrefix(h.sheet.resources, readings, {});
    }
  }

  /** The readings that repeat every stored counter. */
  function StoredReadings(pools: seq<ResourcePool>): (r: seq<PoolReading>)
    ensures |r| == |pools|
    ensures forall i :: 0 <= i < |r| ==> r[i] == (pools[i].resource, pools[i].current)
  {
    seq(|pools|, i requires 0 <= i < |pools| => (pools[i].resource, pools[i].current))
  }

  lemma StoredReadingsAreGood(pools: seq<ResourcePool>)
    requires DistinctKinds(pools) && PoolsMatch(pools, pools)
    ensures GoodReadings(pools, StoredReadings(pools))
    ensures SyncPools(pools, StoredReadings(pools), {}) == (pools, Success(()))
  {
    var readings := StoredReadings(pools);
    forall i | 0 <= i < |pools|
      ensures FindPool(pools, readings[i].0) == Some(i)
    {
    }
    GoodReadingsAreAccepted(pools, readings, {});
    PoolsHoldTheGoodPrefix(pools, readings, {});
    WrittenPoolsStandIff(pools, readings);
    assert readings[..|readings|] == readings;
  }

  /** The other non-atomic exit, for any valid hero at the largest revision: the readings it stores,
      with any other legal hit points, are refused after the hit points were written. */
  lemma RevisionLimitIsNotAtomic(h: Hero, hitPoints: U16)
    requires ValidHero(h) && h.revision == U64_MAX && hitPoints <= h.sheet.maximumHitPoints
    ensures Synchronized(h, hitPoints, StoredReadings(h.sheet.resources))
         == (h.(sheet := h.sheet.(currentHitPoints := hitPoints)), Invalid(Revision))
  {
    ValidKindsAreDistinct(h);
    ValidRuntimeIsBounded(h);
    hide Derived, ValidHero, SyncPools, StoredReadings;
    StoredReadingsAreGood(h.sheet.resources);
  }

  lemma {:induction false} ReadingOf(readings: seq<PoolReading>, j: nat)
    requires DistinctReadings(readings) && j < |readings|
    ensures ReadingFor(readings, readings[j].0) == Some(readings[j].1)
  {
    if j > 0 {
      assert readings[1..][j - 1] == readings[j];
      ReadingOf(readings[1..], j - 1);
    }
  }

  lemma OverwriteIsIdleIff(pools: seq<ResourcePool>, after: seq<ResourcePool>, readings: seq<PoolReading>)
    requires DistinctKinds(pools) && DistinctReadings(readings) && KnownReadings(readings, pools)
    requires Overwritten(pools, after, readings)
    ensures after == pools <==>
      forall j :: 0 <= j < |readings| ==>
        readings[j].1 == pools[FindPool(pools, readings[j].0).value].current
  {
    if after == pools {
      forall j | 0 <= j < |readings|
        ensures readings[j].1 == pools[FindPool(pools, readings[j].0).value].current
      {
        ReadingOf(readings, j);
        assert after[FindPool(pools, readings[j].0).value] == Overwrite(readings, pools[FindPool(pools, readings[j].0).value]);
      }
    } else if forall j :: 0 <= j < |readings| ==> readings[j].1 == pools[FindPool(pools, readings[j].0).value].current {
      forall i | 0 <= i < |pools|
        ensures after[i] == pools[i]
      {
        UnreadKind(readings, pools[i].resource);
        if ReadingFor(readings, pools[i].resource).Some? {
          var j :| 0 <= j < |readings| && readings[j].0 == pools[i].resource;
          ReadingOf(readings, j);
          assert FindPool(pools, readings[j].0).value == i;
        }
      }
    }
  }

  /** Repeating a reading is refused after its first copy was written. */
  lemma RepeatedReadingLeavesItsWrite(pools: seq<ResourcePool>, readings: seq<PoolReading>)
    requires |readings| >= 2 && pools != []
    requires readings[0] == readings[1] == (pools[0].resource, 0)
    ensures SyncPools(pools, readings, {}) == (pools[0 := pools[0].(current := 0)], Invalid(ResourceCurrents))
  {
  }

  /** Synchronisation is not atomic, for any created hero: repeating the hit-dice reading is
      refused, yet the hit dice have already been emptied. */
  lemma SynchronizationIsNotAtomic(characterId: string, campaignId: string, ownerId: string, choices: HeroChoices,
                                   readings: seq<PoolReading>)
    requires choices.Valid()
    requires |readings| == |NewHero(characterId, campaignId, ownerId, choices).sheet.resources|
    requires |readings| >= 2
    requires readings[0] == readings[1] == (DeriveResources(choices.class_.Class(), One)[0].resource, 0)
    ensures var h := NewHero(characterId, campaignId, ownerId, choices);
      var (after, verdict) := Synchronized(h, h.sheet.maximumHitPoints, readings);
      && verdict == Failure(InvalidField(ResourceCurrents))
      && |after.sheet.resources| == |h.sheet.resources|
      && after.sheet.resources[0].current == 0 && h.sheet.resources[0].current == 1
  {
    DerivedRuntime(choices, One);
    hide Derived, SyncPools;
    RepeatedReadingLeavesItsWrite(DeriveResources(choices.class_.Class(), One), readings);
  }

  // ----- Level-up conservation

  /** Pool by pool, from level one to level two. */
  predicate PoolsConserve(before: seq<ResourcePool>, after: seq<ResourcePool>) {
    && |before| <= |after|
    && (forall i :: 0 <= i < |before| ==>
          && after[i].resource == before[i].resource
          && after[i].recoversOn == before[i].recoversOn
          && after[i].maximum >= before[i].maximum
          && Spent(after[i]) == Spent(before[i]))
    && (forall i :: |before| <= i < |after| ==> Spent(after[i]) == 0)
  }

  /** When kinds are distinct, the search by kind finds each pool at its own place. */
  lemma FoundAtItsPlace(pools: seq<ResourcePool>, i: nat)
    requires DistinctKinds(pools) && i < |pools|
    ensures FindPool(pools, pools[i].resource) == Some(i)
  {
    hide FindPool;
    var found := FindPool(pools, pools[i].resource);
    assert found.Some? && !(found.value < i) && !(i < found.value);
  }

  lemma CarriedPoolsConserve(class_: HeroClass, before: seq<ResourcePool>)
    requires PoolsMatch(before, DeriveResources(class_, One))
    ensures CanCarry(before, DeriveResources(class_, Two))
    ensures PoolsConserve(before, CarryPools(before, DeriveResources(class_, Two)))
  {
    PoolsCanCarry(before, class_);
    var full := DeriveResources(class_, Two);
    var after := CarryPools(before, full);
    forall i | 0 <= i < |before|
      ensures after[i] == full[i].(current := full[i].maximum - Spent(before[i]))
      ensures full[i].resource == before[i].resource && full[i].recoversOn == before[i].recoversOn
    {
      FoundAtItsPlace(before, i);
      assert full[i].resource == before[i].resource;
    }
    forall i | |before| <= i < |after|
      ensures Spent(after[i]) == 0
    {
      assert FindPool(before, full[i].resource) == None;
    }
  }

  /** Level-up conserves expenditure: the gap below each maximum is the same before and after, new
      pools start full, maxima never fall, and maximum hit points strictly rise. */
  lemma LevelUpConservesExpenditure(h: Hero)
    requires ValidHero(h) && h.LevelUpEligible() && h.revision < U64_MAX
    ensures var before := h.sheet; var after := LevelledUp(h).sheet;
      && after.maximumHitPoints > before.maximumHitPoints
      && after.maximumHitPoints - after.currentHitPoints == before.maximumHitPoints - before.currentHitPoints
      && PoolsConserve(before.resources, after.resources)
  {
    LevelTwoFits(h);
    DerivedRuntime(h.choices, One);
    DerivedRuntime(h.choices, Two);
    hide Derived, CarryPools, PoolsConserve, DeriveResources;
    CarriedPoolsConserve(h.choices.class_.Class(), h.sheet.resources);
  }

  // ----- What the sheet ignores

  /** The same mechanical choices under possibly different pins, concept and presentation. */
  predicate SameMechanics(a: HeroChoices, b: HeroChoices) {
    b == a.(pins := b.pins, concept := b.concept, presentation := b.presentation)
  }

  lemma AssemblyIgnoresPresentation(a: HeroChoices, b: HeroChoices, level: SupportedLevel,
                                    baseScores: AbilityScores, scores: AbilityScores, armorClass: U8,
                                    attacks: seq<AttackSummary>, spells: Option<SpellcastingSummary>)
    requires SameMechanics(a, b)
    ensures AssembleSheet(a, level, baseScores, scores, armorClass, attacks, spells)
         == AssembleSheet(b, level, baseScores, scores, armorClass, attacks, spells)
  {
    hide DeriveSkills, DerivePassiveValues;
  }

  lemma SpellsIgnorePresentation(a: HeroChoices, b: HeroChoices, level: SupportedLevel, modifiers: AbilityModifiers)
    requires SameMechanics(a, b) && modifiers.Legal()
    ensures DeriveSpellcasting(a, level, modifiers) == DeriveSpellcasting(b, level, modifiers)
  {
  }

  /** Without validation, the derivation reads only the mechanical choices. */
  lemma ComputationIgnoresPresentation(a: HeroChoices, b: HeroChoices, level: SupportedLevel)
    requires SameMechanics(a, b)
    ensures ComputeSheet(a, level) == ComputeSheet(b, level)
  {
    hide AssembleSheet, DeriveSpellcasting, DeriveArmorClass, DeriveAttacks;
    if a.assignment.BaseScores().Success? && a.assignment.HumanScores().Success? {
      var scores := a.assignment.HumanScores().value;
      var modifiers := ModifiersOf(scores);
      SpellsIgnorePresentation(a, b, level, modifiers);
      var armorClass := DeriveArmorClass(a.class_, a.equipment, modifiers);
      var attacks := DeriveAttacks(a.class_, a.equipment, modifiers);
      var spells := DeriveSpellcasting(a, level, modifiers);
      if armorClass.Success? && attacks.Success? && spells.Success? {
        AssemblyIgnoresPresentation(a, b, level, a.assignment.BaseScores().value, scores,
                                    armorClass.value, attacks.value, spells.value);
      }
    }
  }

  lemma SheetIgnoresPresentation(a: HeroChoices, b: HeroChoices, level: SupportedLevel)
    requires a.Valid() && b.Valid() && SameMechanics(a, b)
    ensures Derived(a, level) == Derived(b, level)
  {
    ComputationIgnoresPresentation(a, b, level);
    hide ComputeSheet, SameMechanics;
  }

  /** Heroes that differ only in pins, concept and presentation. */
  predicate Twins(a: Hero, b: Hero) {
    SameMechanics(a.choices, b.choices) && b == a.(choices := b.choices)
  }

  lemma TwinsLevelUpAlike(a: Hero, b: Hero)
    requires ValidHero(a) && ValidHero(b) && Twins(a, b)
    requires a.LevelUpEligible() && a.revision < U64_MAX
    ensures Twins(LevelledUp(a), LevelledUp(b))
  {
    SheetIgnoresPresentation(a.choices, b.choices, Two);
    hide Derived, ValidHero;
  }

  lemma TwinsStepAlike(a: Hero, b: Hero, request: Request)
    requires ValidHero(a) && ValidHero(b) && Twins(a, b)
    ensures Verdict(a, request) == Verdict(b, request)
    ensures Twins(After(a, request), After(b, request))
  {
    hide Derived, ValidHero, LevelledUp, SyncPools;
    if request.Advance? && Accepts(a, request) {
      TwinsLevelUpAlike(a, b);
    }
  }

  /** Twins answer every shared run with the same verdicts and keep equal sheets, levels and
      experience. */
  lemma {:induction false} TwinsRunAlike(a: Hero, b: Hero, requests: seq<Request>)
    requires ValidHero(a) && ValidHero(b) && Twins(a, b)
    ensures Twins(Run(a, requests), Run(b, requests))
    ensures Run(a, requests).sheet == Run(b, requests).sheet
    ensures TallyOf(a, requests) == TallyOf(b, requests)
    ensures forall i :: 0 <= i < |requests| ==>
      Verdict(Run(a, requests[..i]), requests[i]) == Verdict(Run(b, requests[..i]), requests[i])
    decreases |requests|
  {
    hide Derived, ValidHero, After, Verdict;
    if requests != [] {
      var first, rest := requests[0], requests[1..];
      TwinsStepAlike(a, b, first);
      AfterKeepsValid(a, first);
      AfterKeepsValid(b, first);
      TwinsRunAlike(After(a, first), After(b, first), rest);
      forall i | 0 <= i < |requests|
        ensures Verdict(Run(a, requests[..i]), requests[i]) == Verdict(Run(b, requests[..i]), requests[i])
      {
        if i > 0 {
          assert requests[..i][0] == first && requests[..i][1..] == rest[..i - 1];
          assert requests[i] == rest[i - 1];
        }
      }
    }
  }

  // ----- Skills

  function ProficientSkills(skills: seq<SkillSummary>): set<SkillId> {
    set i | 0 <= i < |skills| && skills[i].proficient :: skills[i].skill
  }

  lemma FourDistinct<T>(a: T, b: T, c: T, d: T)
    requires a != b && a != c && a != d && b != c && b != d && c != d
    ensures |set x | x in [a, b] + [c, d]| == 4
  {
    assert (set x | x in [a, b] + [c, d]) == {a, b, c} + {d};
    assert {a, b, c} == {a, b} + {c};
  }

  lemma ChosenSkillsDiffer(background: BackgroundSelection, class_: HeroClass)
    requires background.ValidateFor(class_).Success?
    ensures |background.classSkills| == 2 && background.classSkills[0] != background.classSkills[1]
    ensures forall i :: 0 <= i < 2 ==> background.classSkills[i] !in background.background.Skills()
  {
    hide ClassSkillChoices, BackgroundId.Skills;
    assert !SkillLeq(background.classSkills[1], background.classSkills[1 - 1]);
  }

  lemma ChosenSkillsAreFour(background: BackgroundSelection, class_: HeroClass)
    requires background.ValidateFor(class_).Success?
    ensures var chosen := background.classSkills + background.background.Skills();
      |set skill | skill in chosen| == 4
  {
    ChosenSkillsDiffer(background, class_);
    hide BackgroundSelection.ValidateFor;
    var chosen, own := background.classSkills, background.background.Skills();
    assert chosen == [chosen[0], chosen[1]] && own == [own[0], own[1]];
    FourDistinct(chosen[0], chosen[1], own[0], own[1]);
  }

  lemma EverySkillIsListed(skill: SkillId)
    ensures ALL_SKILLS[skill.Ord()] == skill
  {
  }

  /** The skill list marks each given skill once, at its own place, and nothing else. */
  lemma SkillListMarks(chosen: seq<SkillId>, modifiers: AbilityModifiers)
    requires modifiers.Legal()
    ensures ProficientSkills(DeriveSkills(chosen, modifiers)) == set skill | skill in chosen
  {
    var skills := DeriveSkills(chosen, modifiers);
    forall skill
      ensures skill in ProficientSkills(skills) <==> skill in chosen
    {
      EverySkillIsListed(skill);
      assert skills[skill.Ord()] == DeriveSkill(chosen, modifiers, skill);
    }
  }

  lemma SortKeepsElements(skills: seq<SkillId>)
    ensures (set skill | skill in Sort(SkillLeq, skills)) == set skill | skill in skills
  {
    SortSorts(SkillLeq, skills);
    assert forall skill :: skill in skills <==> skill in multiset(skills);
    assert forall skill :: skill in Sort(SkillLeq, skills) <==> skill in multiset(skills);
  }

  /** Every valid hero's sheet marks exactly the two class and two background skills. */
  lemma FourProficientSkills(choices: HeroChoices, level: SupportedLevel)
    requires choices.Valid()
    ensures var proficient := ProficientSkills(Derived(choices, level).skills);
      && |proficient| == 4
      && proficient == set skill | skill in choices.background.classSkills + choices.background.background.Skills()
  {
    DerivedSkills(choices, level);
    ChosenSkillsAreFour(choices.background, choices.class_.Class());
    hide Derived, DeriveSkills, Sort, ProficientSkills;
    SortKeepsElements(choices.background.classSkills + choices.background.background.Skills());
    SkillListMarks(choices.background.AllSkills(), ModifiersOf(choices.assignment.HumanScores().value));
  }

  lemma DerivedSkills(choices: HeroChoices, level: SupportedLevel)
    requires choices.Valid()
    ensures choices.assignment.HumanScores().Success?
    ensures Derived(choices, level).skills == DeriveSkills(
      choices.background.AllSkills(), ModifiersOf(choices.assignment.HumanScores().value))
  {
    DerivedIsAssembled(choices, level);
  }

  // ----- Cross-field consistency of the sheet

  lemma DerivedIsAssembled(choices: HeroChoices, level: SupportedLevel)
    requires choices.Valid()
    ensures choices.assignment.BaseScores().Success? && choices.assignment.HumanScores().Success?
    ensures var scores := choices.assignment.HumanScores().value;
      var armorClass := DeriveArmorClass(choices.class_, choices.equipment, ModifiersOf(scores));
      var attacks := DeriveAttacks(choices.class_, choices.equipment, ModifiersOf(scores));
      var spells := DeriveSpellcasting(choices, level, ModifiersOf(scores));
      && armorClass.Success? && attacks.Success? && spells.Success?
      && Derived(choices, level) == AssembleSheet(
           choices, level, choices.assignment.BaseScores().value, scores, armorClass.value, attacks.value, spells.value)
  {
    hide AssembleSheet, DeriveSpellcasting, DeriveArmorClass, DeriveAttacks;
    ComputationSucceeds(choices, level);
  }

  /** The search by skill finds the entry at the skill's own place. */
  lemma {:induction false} SkillModifierAt(skills: seq<SkillSummary>, i: nat)
    requires i < |skills| && forall j :: 0 <= j < i ==> skills[j].skill != skills[i].skill
    ensures SkillModifier(skills, skills[i].skill) == skills[i].modifier
  {
    if i > 0 {
      assert skills[1..][i - 1] == skills[i];
      SkillModifierAt(skills[1..], i - 1);
    }
  }

  /** The skill list holds each skill at its own place. */
  predicate InSkillOrder(skills: seq<SkillSummary>) {
    forall j :: 0 <= j < |skills| ==> skills[j].skill.Ord() == j
  }

  lemma ListedInOrder(j: nat)
    requires j < |ALL_SKILLS|
    ensures ALL_SKILLS[j].Ord() == j
  {
  }

  lemma DerivedSkillsInOrder(chosen: seq<SkillId>, modifiers: AbilityModifiers)
    requires modifiers.Legal()
    ensures InSkillOrder(DeriveSkills(chosen, modifiers))
  {
    hide DeriveSkills;
    var skills := DeriveSkills(chosen, modifiers);
    forall j | 0 <= j < |skills|
      ensures skills[j].skill.Ord() == j
    {
      assert skills[j] == DeriveSkill(chosen, modifiers, ALL_SKILLS[j]);
      ListedInOrder(j);
    }
  }

  lemma SameOrdSameSkill(a: SkillId, b: SkillId)
    requires a.Ord() == b.Ord()
    ensures a == b
  {
  }

  lemma PassiveValueIsListed(skills: seq<SkillSummary>, skill: SkillId)
    requires InSkillOrder(skills) && skill.Ord() < |skills|
    ensures SkillModifier(skills, skill) == skills[skill.Ord()].modifier
  {
    hide SkillId.Ord;
    SameOrdSameSkill(skills[skill.Ord()].skill, skill);
    SkillModifierAt(skills, skill.Ord());
  }

  predicate PassivesAgree(sheet: HeroSheet) {
    && |sheet.skills| == |ALL_SKILLS|
    && sheet.passiveValues.perception == 10 + sheet.skills[Perception.Ord()].modifier
    && sheet.passiveValues.investigation == 10 + sheet.skills[Investigation.Ord()].modifier
    && sheet.passiveValues.insight == 10 + sheet.skills[Insight.Ord()].modifier
  }

  /** Every attack adds proficiency to the modifier of its ability; only dueling adds to damage. */
  predicate AttacksAgree(attacks: seq<AttackSummary>, modifiers: AbilityModifiers, class_: ClassSelection) {
    && attacks != []
    && forall i :: 0 <= i < |attacks| ==>
         var modifier := modifiers.Get(attacks[i].ability);
         && attacks[i].attackBonus == modifier + PROFICIENCY_BONUS
         && attacks[i].attackId == WeaponAttack(attacks[i].weapon)
         && (attacks[i].damage.constant == modifier
             || (class_ == FighterClass(Dueling) && attacks[i].damage.constant == modifier + 2))
  }

  /** A wizard and only a wizard casts: the save DC is eight above the spell attack bonus, and the
      prepared list, fixed at creation, fits the capacity of either level. */
  predicate SpellsAgree(sheet: HeroSheet, class_: ClassSelection) {
    && (sheet.spellcasting.Some? <==> class_.WizardClass?)
    && (sheet.spellcasting.Some? ==>
          var spells := sheet.spellcasting.value;
          && spells.spellSaveDc == 8 + spells.spellAttackBonus
          && 1 <= |spells.prepared| <= spells.preparedCapacity
          && (sheet.level.One? ==> |spells.prepared| == spells.preparedCapacity)
          && forall i :: 0 <= i < |spells.prepared| ==> spells.prepared[i] in spells.spellbook)
  }

  lemma DerivedAttacksAgree(class_: ClassSelection, equipment: EquipmentSelection, modifiers: AbilityModifiers)
    requires modifiers.Legal() && DeriveAttacks(class_, equipment, modifiers).Success?
    ensures AttacksAgree(DeriveAttacks(class_, equipment, modifiers).value, modifiers, class_)
  {
  }

  lemma ValidSpells(choices: HeroChoices)
    requires choices.Valid() && choices.assignment.HumanScores().Success?
    ensures CheckSpells(choices.class_, choices.wizardSpells,
                        Modifier(choices.assignment.HumanScores().value.intelligence)).Success?
  {
  }

  lemma AssembledPassivesAgree(choices: HeroChoices, level: SupportedLevel, baseScores: AbilityScores,
                               scores: AbilityScores, armorClass: U8, attacks: seq<AttackSummary>,
                               spells: Option<SpellcastingSummary>)
    ensures PassivesAgree(AssembleSheet(choices, level, baseScores, scores, armorClass, attacks, spells))
  {
    hide DeriveSkills, SkillModifier, Sort;
    var skills := DeriveSkills(choices.background.AllSkills(), ModifiersOf(scores));
    DerivedSkillsInOrder(choices.background.AllSkills(), ModifiersOf(scores));
    PassiveValueIsListed(skills, Perception);
    PassiveValueIsListed(skills, Investigation);
    PassiveValueIsListed(skills, Insight);
  }

  lemma AssembledSpellsAgree(choices: HeroChoices, level: SupportedLevel, baseScores: AbilityScores,
                             scores: AbilityScores, armorClass: U8, attacks: seq<AttackSummary>,
                             spells: Option<SpellcastingSummary>)
    requires CheckSpells(choices.class_, choices.wizardSpells, Modifier(scores.intelligence)).Success?
    requires DeriveSpellcasting(choices, level, ModifiersOf(scores)) == Success(spells)
    ensures SpellsAgree(AssembleSheet(choices, level, baseScores, scores, armorClass, attacks, spells), choices.class_)
  {
    hide DeriveSkills, DerivePassiveValues, Sort;
  }

  /** The parts of a valid hero's sheet agree with each other. */
  lemma SheetAgreesWithItself(choices: HeroChoices, level: SupportedLevel)
    requires choices.Valid()
    ensures var sheet := Derived(choices, level);
      && PassivesAgree(sheet)
      && AttacksAgree(sheet.attacks, sheet.modifiers, choices.class_)
      && SpellsAgree(sheet, choices.class_)
  {
    DerivedIsAssembled(choices, level);
    ValidSpells(choices);
    hide Derived, HeroChoices.Validate, DeriveSkills, DerivePassiveValues, DeriveAttacks, DeriveSpellcasting,
      CheckSpells, AttacksAgree, PassivesAgree, SpellsAgree;
    var scores := choices.assignment.HumanScores().value;
    var modifiers := ModifiersOf(scores);
    var baseScores := choices.assignment.BaseScores().value;
    var armorClass := DeriveArmorClass(choices.class_, choices.equipment, modifiers).value;
    var attacks := DeriveAttacks(choices.class_, choices.equipment, modifiers).value;
    var spells := DeriveSpellcasting(choices, level, modifiers).value;
    AssembledPassivesAgree(choices, level, baseScores, scores, armorClass, attacks, spells);
    AssembledSpellsAgree(choices, level, baseScores, scores, armorClass, attacks, spells);
    DerivedAttacksAgree(choices.class_, choices.equipment, modifiers);
  }
}
