// The campaign hero: a versioned document whose sheet is derived from its choices, and the
// three operations that change it (crates/game-core/src/hero.rs, lines 1853-2278 and 2321-2406).

module HeroDocuments {
  import opened Wrappers
  import opened MachineInts
  import opened Text
  import opened HeroErrors
  import opened HeroRules
  import opened HeroSheets

  const HERO_CHARACTER_SCHEMA_VERSION: U16 := 1
  const HERO_COMMAND_SCHEMA_VERSION: U16 := 1
  const HERO_AUDIT_SCHEMA_VERSION: U16 := 1
  const LEVEL_TWO_XP := 300
  const LEVEL_THREE_XP := 900

  /** The value of a hero at one moment. */
  datatype Hero = Hero(
    schemaVersion: U16,
    characterId: string,
    campaignId: string,
    ownerId: string,
    revision: U64,
    level: SupportedLevel,
    experience: U32,
    choices: HeroChoices,
    advancement: seq<LevelUpChoice>,
    sheet: HeroSheet)
  {
    predicate LevelUpEligible() { level.One? && experience >= LEVEL_TWO_XP }
  }

  // ----- What makes a hero legal

  predicate LegalIdentity(h: Hero) {
    && h.schemaVersion == HERO_CHARACTER_SCHEMA_VERSION
    && IsOpaqueId(h.characterId) && IsOpaqueId(h.campaignId) && IsOpaqueId(h.ownerId)
  }

  predicate LegalProgress(h: Hero) {
    && h.choices.Valid()
    && AdvancementMatches(h.choices.class_.Class(), h.level, h.advancement)
    && (h.level.Two? ==> h.experience >= LEVEL_TWO_XP)
    && h.experience < LEVEL_THREE_XP
  }

  /** Same pools in the same order, each counter at most its maximum. */
  predicate PoolsMatch(stored: seq<ResourcePool>, expected: seq<ResourcePool>) {
    && |stored| == |expected|
    && forall i :: 0 <= i < |stored| ==>
         && stored[i] == expected[i].(current := stored[i].current)
         && stored[i].current <= stored[i].maximum
  }

  /** Equal to the derived sheet except for current hit points and pool counters. */
  predicate RuntimeOf(stored: HeroSheet, expected: HeroSheet) {
    && stored == expected.(currentHitPoints := stored.currentHitPoints, resources := stored.resources)
    && stored.currentHitPoints <= stored.maximumHitPoints
    && PoolsMatch(stored.resources, expected.resources)
  }

  predicate ValidHero(h: Hero) {
    && LegalIdentity(h)
    && LegalProgress(h)
    && RuntimeOf(h.sheet, Derived(h.choices, h.level))
  }

  predicate DistinctKinds(pools: seq<ResourcePool>) {
    forall i, j :: 0 <= i < j < |pools| ==> pools[i].resource != pools[j].resource
  }

  /** The first pool of a kind. */
  function FindPool(pools: seq<ResourcePool>, kind: ResourceKind): (r: Option<nat>)
    ensures r.Some? ==> r.value < |pools| && pools[r.value].resource == kind
    ensures r.Some? ==> forall i :: 0 <= i < r.value ==> pools[i].resource != kind
    ensures r.None? ==> forall i :: 0 <= i < |pools| ==> pools[i].resource != kind
  {
    if pools == [] then None
    else if pools[0].resource == kind then Some(0)
    else match FindPool(pools[1..], kind)
      case None => None
      case Some(i) => Some(i + 1)
  }

  // ----- Commands and their audits

  datatype RewardTier = Minor | Significant | Major
  datatype TrustedRewardPolicy = MvpXpV1 {
    function ExperienceFor(tier: RewardTier): U32 {
      match tier
      case Minor => 50
      case Significant => 150
      case Major => LEVEL_TWO_XP
    }
  }

  datatype TrustedMutationContext = TrustedMutationContext(
    auditId: string, actorId: string, occurredAt: U64)
  {
    function Validate(): HeroCheck {
      var _ :- RequireId(AuditId, auditId);
      var _ :- RequireId(ActorId, actorId);
      Require(occurredAt != 0, OccurredAt)
    }
  }

  datatype RewardAwardCommand = RewardAwardCommand(
    schemaVersion: U16, characterId: string, expectedRevision: U64, idempotencyKey: string,
    tier: RewardTier)
  {
    function Validate(): HeroCheck {
      var _ :- RequireSchema(schemaVersion, HERO_COMMAND_SCHEMA_VERSION);
      var _ :- RequireId(CharacterId, characterId);
      RequireId(IdempotencyKey, idempotencyKey)
    }
  }

  datatype LevelUpCommand = LevelUpCommand(
    schemaVersion: U16, characterId: string, expectedRevision: U64, idempotencyKey: string,
    choice: LevelUpChoice)
  {
    function Validate(): HeroCheck {
      var _ :- RequireSchema(schemaVersion, HERO_COMMAND_SCHEMA_VERSION);
      var _ :- RequireId(CharacterId, characterId);
      RequireId(IdempotencyKey, idempotencyKey)
    }
  }

  datatype RewardAwardAudit = RewardAwardAudit(
    schemaVersion: U16, auditId: string, actorId: string, characterId: string, idempotencyKey: string,
    revisionBefore: U64, revisionAfter: U64, policy: TrustedRewardPolicy, tier: RewardTier,
    experienceAwarded: U32, experienceBefore: U32, experienceAfter: U32, level: SupportedLevel,
    levelUpEligible: bool, occurredAt: U64)
  {
    function Validate(): HeroCheck {
      var _ :- RequireSchema(schemaVersion, HERO_AUDIT_SCHEMA_VERSION);
      var _ :- RequireId(AuditId, auditId);
      var _ :- RequireId(ActorId, actorId);
      var _ :- RequireId(CharacterId, characterId);
      var _ :- RequireId(IdempotencyKey, idempotencyKey);
      Require(
        && revisionBefore + 1 == revisionAfter
        && experienceBefore + experienceAwarded == experienceAfter
        && experienceAwarded == policy.ExperienceFor(tier)
        && levelUpEligible == (level.One? && experienceAfter >= LEVEL_TWO_XP)
        && occurredAt != 0,
        RewardAudit)
    }
  }

  datatype LevelUpAuditRecord = LevelUpAuditRecord(
    schemaVersion: U16, auditId: string, actorId: string, characterId: string, idempotencyKey: string,
    revisionBefore: U64, revisionAfter: U64, levelBefore: SupportedLevel, levelAfter: SupportedLevel,
    choice: LevelUpChoice, maximumBefore: U16, maximumAfter: U16, resourcesBefore: seq<ResourcePool>,
    resourcesAfter: seq<ResourcePool>, occurredAt: U64)
  {
    function Validate(): HeroCheck {
      var _ :- RequireSchema(schemaVersion, HERO_AUDIT_SCHEMA_VERSION);
      var _ :- RequireId(AuditId, auditId);
      var _ :- RequireId(ActorId, actorId);
      var _ :- RequireId(CharacterId, characterId);
      var _ :- RequireId(IdempotencyKey, idempotencyKey);
      Require(
        && revisionBefore + 1 == revisionAfter
        && levelBefore.One? && levelAfter.Two?
        && maximumAfter > maximumBefore
        && resourcesBefore != resourcesAfter
        && occurredAt != 0,
        Field.LevelUpAudit)
    }
  }

  // ----- What each operation does to a valid hero, without clamps or re-validation

  function NewHero(characterId: string, campaignId: string, ownerId: string, choices: HeroChoices): Hero
    requires choices.Valid()
  {
    Hero(HERO_CHARACTER_SCHEMA_VERSION, characterId, campaignId, ownerId, 0, One, 0, choices, [],
         Derived(choices, One))
  }

  function RewardGuards(h: Hero, command: RewardAwardCommand, policy: TrustedRewardPolicy,
                        context: TrustedMutationContext): HeroCheck {
    var _ :- command.Validate();
    var _ :- context.Validate();
    var _ :- Require(command.characterId == h.characterId, CharacterId);
    var _ :- CheckRevision(h.revision, command.expectedRevision);
    var _ :- Check(h.experience + policy.ExperienceFor(command.tier) < LEVEL_THREE_XP, UnsupportedLevelThree);
    Require(h.revision < U64_MAX, Revision)
  }

  function Rewarded(h: Hero, awarded: nat): Hero
    requires h.experience + awarded < LEVEL_THREE_XP && h.revision < U64_MAX
  {
    h.(experience := h.experience + awarded, revision := h.revision + 1)
  }

  /** The one level-up the class path offers. */
  function SupportedLevelUp(class_: HeroClass): LevelUpChoice {
    match class_
    case Fighter => FighterLevelUp(FixedAverage)
    case Wizard => WizardLevelUp(FixedAverage, Evocation)
  }

  function LevelUpGuards(h: Hero, command: LevelUpCommand, context: TrustedMutationContext): HeroCheck {
    var _ :- command.Validate();
    var _ :- context.Validate();
    var _ :- Require(command.characterId == h.characterId, CharacterId);
    var _ :- CheckRevision(h.revision, command.expectedRevision);
    var _ :- Require(h.LevelUpEligible(), LevelField);
    var _ :- Require(command.choice == SupportedLevelUp(h.choices.class_.Class()), LevelUpChoiceField);
    Require(h.revision < U64_MAX, Revision)
  }

  function Spent(pool: ResourcePool): int { pool.maximum - pool.current }

  /** Each pool that survives a level-up grows, and its counter is legal. */
  predicate CanCarry(previous: seq<ResourcePool>, pools: seq<ResourcePool>) {
    forall i, j :: 0 <= i < |previous| && 0 <= j < |pools| && previous[i].resource == pools[j].resource ==>
      previous[i].current <= previous[i].maximum <= pools[j].maximum
  }

  /** A pool keeps what was spent from it; a pool that did not exist starts as derived. */
  function CarryPool(previous: seq<ResourcePool>, pool: ResourcePool): ResourcePool
    requires forall i :: 0 <= i < |previous| && previous[i].resource == pool.resource ==>
      previous[i].current <= previous[i].maximum <= pool.maximum
  {
    match FindPool(previous, pool.resource)
    case None => pool
    case Some(i) => pool.(current := pool.maximum - Spent(previous[i]))
  }

  function CarryPools(previous: seq<ResourcePool>, pools: seq<ResourcePool>): (r: seq<ResourcePool>)
    requires CanCarry(previous, pools)
    ensures |r| == |pools|
    ensures forall j :: 0 <= j < |r| ==> r[j] == CarryPool(previous, pools[j])
  {
    seq(|pools|, j requires 0 <= j < |pools| => CarryPool(previous, pools[j]))
  }

  /** The derived pools of level two can always absorb what a level-one hero has spent. */
  lemma PoolsCanCarry(stored: seq<ResourcePool>, class_: HeroClass)
    requires PoolsMatch(stored, DeriveResources(class_, One))
    ensures CanCarry(stored, DeriveResources(class_, Two))
    ensures DistinctKinds(stored)
  {
  }

  /** Level two keeps everything spent: hit points and each surviving pool stay as far below their
      maximum as they were. */
  function LevelledUp(h: Hero): Hero
    requires ValidHero(h) && h.LevelUpEligible() && h.revision < U64_MAX
  {
    var class_ := h.choices.class_.Class();
    var full := Derived(h.choices, Two);
    DerivedRuntime(h.choices, One);
    DerivedRuntime(h.choices, Two);
    LevelTwoRaisesHitPoints(h.choices);
    PoolsCanCarry(h.sheet.resources, class_);
    var spentHitPoints := h.sheet.maximumHitPoints - h.sheet.currentHitPoints;
    h.(level := Two,
       advancement := [SupportedLevelUp(class_)],
       revision := h.revision + 1,
       sheet := full.(
         currentHitPoints := full.maximumHitPoints - spentHitPoints,
         resources := CarryPools(h.sheet.resources, full.resources)))
  }

  type PoolReading = (ResourceKind, U8)

  /** The pools after the entries are written one by one, up to the first bad entry. */
  function SyncPools(pools: seq<ResourcePool>, readings: seq<PoolReading>,
                     seen: set<ResourceKind>): (seq<ResourcePool>, HeroCheck)
    decreases |readings|
  {
    if readings == [] then (pools, Success(()))
    else
      var (kind, current) := readings[0];
      if kind in seen then (pools, Invalid(ResourceCurrents))
      else match FindPool(pools, kind)
      case None => (pools, Invalid(ResourceCurrents))
      case Some(i) =>
        if current > pools[i].maximum then (pools, Invalid(ResourceCurrents))
        else SyncPools(pools[i := pools[i].(current := current)], readings[1..], seen + {kind})
  }

  /** The hero and verdict after a runtime synchronisation. An error found while the pools are
      being written, or by the final revision step, leaves the earlier writes in place. */
  function Synchronized(h: Hero, hitPoints: U16, readings: seq<PoolReading>): (Hero, HeroCheck) {
    if hitPoints > h.sheet.maximumHitPoints then (h, Invalid(Field.CurrentHitPoints))
    else if |readings| != |h.sheet.resources| then (h, Invalid(ResourceCurrents))
    else
      var (pools, verdict) := SyncPools(h.sheet.resources, readings, {});
      var written := h.(sheet := h.sheet.(resources := pools));
      if verdict.Failure? then (written, verdict)
      else
        var synced := written.(sheet := written.sheet.(currentHitPoints := hitPoints));
        if h.revision == U64_MAX then (synced, Invalid(Revision))
        else (synced.(revision := h.revision + 1), Success(()))
  }
}

module HeroCharacters {
  import opened Wrappers
  import opened MachineInts
  import opened Text
  import opened HeroErrors
  import opened HeroRules
  import opened HeroSheets
  import opened HeroDocuments

  /** Every check of a stored hero before its sheet is compared. */
  function CheckProgress(h: Hero): HeroCheck {
    var _ :- RequireSchema(h.schemaVersion, HERO_CHARACTER_SCHEMA_VERSION);
    var _ :- RequireId(CharacterId, h.characterId);
    var _ :- RequireId(CampaignId, h.campaignId);
    var _ :- RequireId(OwnerId, h.ownerId);
    var _ :- h.choices.Validate();
    var _ :- Require(h.level.One? ==> h.advancement == [], AdvancementChoices);
    var _ :- Require(
      h.level.Two? ==>
        && h.experience >= LEVEL_TWO_XP
        && |h.advancement| == 1
        && h.advancement[0].Class() == h.choices.class_.Class(),
      AdvancementChoices);
    Require(h.experience < LEVEL_THREE_XP, ExperiencePoints)
  }

  lemma CheckProgressIsLegality(h: Hero)
    ensures CheckProgress(h).Success? <==> LegalIdentity(h) && LegalProgress(h)
  {
  }

  /** Pools of a derived sheet never repeat a kind, so a search by kind is a search by place. */
  lemma DerivedKindsAreDistinct(choices: HeroChoices, level: SupportedLevel)
    requires choices.Valid()
    ensures DistinctKinds(Derived(choices, level).resources)
  {
    DerivedRuntime(choices, level);
  }

  class HeroCharacter {
    var schemaVersion: U16
    var characterId: string
    var campaignId: string
    var ownerId: string
    var revision: U64
    var level: SupportedLevel
    var experience: U32
    var choices: HeroChoices
    var advancement: seq<LevelUpChoice>
    var sheet: HeroSheet

    function View(): Hero
      reads this
    {
      Hero(schemaVersion, characterId, campaignId, ownerId, revision, level, experience, choices,
           advancement, sheet)
    }

    /** A separate object with the given contents: the engine's `clone`. */
    constructor Of(doc: Hero)
      ensures View() == doc
    {
      schemaVersion, characterId, campaignId, ownerId := doc.schemaVersion, doc.characterId, doc.campaignId, doc.ownerId;
      revision, level, experience := doc.revision, doc.level, doc.experience;
      choices, advancement, sheet := doc.choices, doc.advancement, doc.sheet;
    }

    method Replace(doc: Hero)
      modifies this
      ensures View() == doc
    {
      schemaVersion, characterId, campaignId, ownerId := doc.schemaVersion, doc.characterId, doc.campaignId, doc.ownerId;
      revision, level, experience := doc.revision, doc.level, doc.experience;
      choices, advancement, sheet := doc.choices, doc.advancement, doc.sheet;
    }

    static method Create(characterId: string, campaignId: string, ownerId: string, choices: HeroChoices)
      returns (r: HeroResult<HeroCharacter>)
      ensures r.Success? <==>
        IsOpaqueId(characterId) && IsOpaqueId(campaignId) && IsOpaqueId(ownerId) && choices.Valid()
      ensures r.Success? ==>
        fresh(r.value) && r.value.View() == NewHero(characterId, campaignId, ownerId, choices)
      ensures r.Success? ==>
        && r.value.characterId == characterId && r.value.campaignId == campaignId && r.value.ownerId == ownerId
        && r.value.schemaVersion == 1 && r.value.revision == 0 && r.value.level == One && r.value.experience == 0
        && r.value.choices == choices && r.value.advancement == []
    {
      var characterChecked :- RequireId(CharacterId, characterId);
      var campaignChecked :- RequireId(CampaignId, campaignId);
      var ownerChecked :- RequireId(OwnerId, ownerId);
      var choicesChecked :- choices.Validate();
      var derived := DeriveSheet(choices, One, []);
      DerivationSucceedsIff(choices, One, []);
      if derived.Failure? { assert false; }
      var character := new HeroCharacter.Of(
        Hero(HERO_CHARACTER_SCHEMA_VERSION, characterId, campaignId, ownerId, 0, One, 0, choices, [],
             derived.value));
      FreshSheetIsValid(character.View());
      var validated := character.Validate();
      if validated.Failure? { assert false; }
      return Success(character);
    }

    /** Compares the stored sheet with the derived one after copying the derived counters over a
        working copy. */
    method Validate() returns (r: HeroCheck)
      ensures r.Success? <==> ValidHero(View())
    {
      CheckProgressIsLegality(View());
      var progressChecked :- CheckProgress(View());
      var derived := DeriveSheet(choices, level, advancement);
      DerivationSucceedsIff(choices, level, advancement);
      if derived.Failure? { assert false; }
      var expected := derived.value;
      DerivedKindsAreDistinct(choices, level);
      r := CompareSheet(sheet, expected);
    }

    /** The loop of the synchronisation: one pool write per reading, stopping at a bad one. */
    method WritePools(readings: seq<PoolReading>) returns (r: HeroCheck)
      requires PoolsMatch(sheet.resources, sheet.resources)
      modifies this`sheet
      ensures sheet == old(sheet).(resources := sheet.resources)
      ensures PoolsMatch(sheet.resources, old(sheet).resources)
      ensures (sheet.resources, r) == SyncPools(old(sheet).resources, readings, {})
    {
      ghost var start := sheet.resources;
      var seen: set<ResourceKind> := {};
      var i := 0;
      while i < |readings|
        invariant 0 <= i <= |readings|
        invariant sheet == old(sheet).(resources := sheet.resources)
        invariant PoolsMatch(sheet.resources, start)
        invariant SyncPools(start, readings, {}) == SyncPools(sheet.resources, readings[i..], seen)
      {
        var (kind, current) := readings[i];
        assert readings[i..][0] == readings[i] && readings[i..][1..] == readings[i + 1..];
        if kind in seen {
          return Invalid(ResourceCurrents);
        }
        var found := FindPool(sheet.resources, kind);
        if found.None? {
          return Invalid(ResourceCurrents);
        }
        var pool := sheet.resources[found.value];
        if current > pool.maximum {
          return Invalid(ResourceCurrents);
        }
        seen := seen + {kind};
        sheet := sheet.(resources := sheet.resources[found.value := pool.(current := current)]);
        i := i + 1;
      }
      return Success(());
    }

    /** Writes encounter-owned hit points and counters. Not atomic: on an error the earlier writes
        stay, but the hero is still valid. */
    method SynchronizeEncounterRuntime(hitPoints: U16, readings: seq<PoolReading>) returns (r: HeroCheck)
      modifies this
      ensures !ValidHero(old(View())) ==> r.Failure? && View() == old(View())
      ensures ValidHero(old(View())) ==> ValidHero(View())
      ensures ValidHero(old(View())) ==> (View(), r) == Synchronized(old(View()), hitPoints, readings)
    {
      hide Derived, ValidHero;
      var validated :- Validate();
      ValidRuntimeIsBounded(View());
      if hitPoints > sheet.maximumHitPoints {
        return Invalid(Field.CurrentHitPoints);
      }
      if |readings| != |sheet.resources| {
        return Invalid(ResourceCurrents);
      }
      ghost var start := View();
      var written := WritePools(readings);
      ghost var pooled := View();
      assert pooled == start.(sheet := start.sheet.(resources := sheet.resources));
      RuntimeWriteKeepsValid(start, pooled);
      if written.Failure? {
        return written;
      }
      sheet := sheet.(currentHitPoints := hitPoints);
      ghost var synced := View();
      assert synced == pooled.(sheet := pooled.sheet.(currentHitPoints := hitPoints));
      RuntimeWriteKeepsValid(pooled, synced);
      if revision == U64_MAX {
        return Invalid(Revision);
      }
      revision := revision + 1;
      ValidityIgnoresRevision(synced, revision);
      var revalidated := Validate();
      if revalidated.Failure? { assert false; }
      return Success(());
    }

    /** Grants the experience of a narrative tier. Every check after the guards is dead. */
    method ApplyReward(command: RewardAwardCommand, policy: TrustedRewardPolicy,
                       context: TrustedMutationContext)
      returns (r: HeroResult<RewardAwardAudit>)
      modifies this
      ensures !ValidHero(old(View())) ==> r.Failure? && View() == old(View())
      ensures ValidHero(old(View())) ==>
        var guards := RewardGuards(old(View()), command, policy, context);
        && (guards.Failure? ==> r == Failure(guards.error) && View() == old(View()))
        && (guards.Success? ==>
              && View() == Rewarded(old(View()), policy.ExperienceFor(command.tier))
              && ValidHero(View())
              && r.Success? && r.value == RewardAuditOf(old(View()), View(), command, policy, context))
      ensures r.Success? ==>
        && command.characterId == old(characterId) && command.expectedRevision == old(revision)
        && experience == old(experience)
           + (if command.tier == Minor then 50 else if command.tier == Significant then 150 else 300)
        && revision == old(revision) + 1 && level == old(level) && sheet == old(sheet)
    {
      hide Derived, ValidHero;
      var validated :- Validate();
      var commandChecked :- command.Validate();
      var contextChecked :- context.Validate();
      var targetChecked :- Require(command.characterId == characterId, CharacterId);
      var revisionChecked :- CheckRevision(revision, command.expectedRevision);
      var awarded := policy.ExperienceFor(command.tier);
      ValidExperienceIsSmall(View());
      if experience + awarded >= 0x1_0000_0000 { assert false; }
      var experienceAfter := experience + awarded;
      if experienceAfter >= LEVEL_THREE_XP {
        return Failure(UnsupportedLevelThree);
      }
      var candidate := new HeroCharacter.Of(View());
      candidate.experience := experienceAfter;
      if candidate.revision == U64_MAX {
        return Invalid(Revision);
      }
      candidate.revision := candidate.revision + 1;
      RewardKeepsValid(View(), awarded);
      assert candidate.View() == Rewarded(View(), awarded);
      var revalidated := candidate.Validate();
      if revalidated.Failure? { assert false; }
      var audit := RewardAuditOf(View(), candidate.View(), command, policy, context);
      ValidIdentity(View());
      var audited := audit.Validate();
      if audited.Failure? { assert false; }
      Replace(candidate.View());
      return Success(audit);
    }

    /** Advances an eligible hero to level two. Every check after the guards is dead and no
        saturation or cap below changes a value. */
    method LevelUp(command: LevelUpCommand, context: TrustedMutationContext)
      returns (r: HeroResult<LevelUpAuditRecord>)
      modifies this
      ensures !ValidHero(old(View())) ==> r.Failure? && View() == old(View())
      ensures ValidHero(old(View())) ==>
        var guards := LevelUpGuards(old(View()), command, context);
        && (guards.Failure? ==> r == Failure(guards.error) && View() == old(View()))
        && (guards.Success? ==>
              && View() == LevelledUp(old(View()))
              && ValidHero(View())
              && r.Success? && r.value == LevelUpAuditOf(old(View()), View(), command, context))
      ensures r.Success? ==>
        && command.characterId == old(characterId) && command.expectedRevision == old(revision)
        && old(level) == One && level == Two && old(experience) >= 300 && experience == old(experience)
        && revision == old(revision) + 1 && advancement == [command.choice]
    {
      hide Derived, ValidHero, LevelledUp;
      var validated :- Validate();
      var commandChecked :- command.Validate();
      var contextChecked :- context.Validate();
      var targetChecked :- Require(command.characterId == characterId, CharacterId);
      var revisionChecked :- CheckRevision(revision, command.expectedRevision);
      var eligible :- Require(View().LevelUpEligible(), LevelField);
      var offered :- Require(command.choice == SupportedLevelUp(choices.class_.Class()), LevelUpChoiceField);
      var candidate := new HeroCharacter.Of(View());
      candidate.level := Two;
      candidate.advancement := [command.choice];
      if candidate.revision == U64_MAX {
        return Invalid(Revision);
      }
      candidate.revision := candidate.revision + 1;
      ghost var before := View();
      var advanced := AdvanceSheet(View(), candidate.advancement);
      candidate.sheet := advanced;
      assert candidate.View() == LevelledUp(before);
      LevelUpKeepsValid(before);
      var revalidated := candidate.Validate();
      if revalidated.Failure? { assert false; }
      var audit := LevelUpAuditOf(View(), candidate.View(), command, context);
      ValidIdentity(before);
      LevelUpIsVisible(before);
      var audited := audit.Validate();
      if audited.Failure? { assert false; }
      Replace(candidate.View());
      return Success(audit);
    }
  }

  function Minimum(a: int, b: int): int { if a < b then a else b }

  /** The level-two sheet of an eligible hero, computed with the engine's checks and caps. */
  method AdvanceSheet(before: Hero, advancement: seq<LevelUpChoice>) returns (advanced: HeroSheet)
    requires ValidHero(before) && before.LevelUpEligible() && before.revision < U64_MAX
    requires advancement == [SupportedLevelUp(before.choices.class_.Class())]
    ensures LevelledUp(before)
         == before.(level := Two, advancement := advancement, revision := before.revision + 1, sheet := advanced)
  {
    hide Derived, ValidHero, LevelledUp;
    LevelTwoFits(before);
    var derived := DeriveSheet(before.choices, Two, advancement);
    if derived.Failure? { assert false; }
    advanced := derived.value;
    var sheet := before.sheet;
    if advanced.maximumHitPoints < sheet.maximumHitPoints { assert false; }
    var increase := advanced.maximumHitPoints - sheet.maximumHitPoints;
    if sheet.currentHitPoints + increase >= 0x1_0000 { assert false; }
    var hitPoints := Minimum(sheet.currentHitPoints + increase, advanced.maximumHitPoints);
    var pools := AdvancePools(sheet.resources, advanced.resources);
    advanced := advanced.(currentHitPoints := hitPoints, resources := pools);
    LevelledUpIs(before, before.(level := Two, advancement := advancement, revision := before.revision + 1, sheet := advanced));
  }

  /** The pool loop of the level-up, with its saturating arithmetic. */
  method AdvancePools(previous: seq<ResourcePool>, pools: seq<ResourcePool>) returns (r: seq<ResourcePool>)
    requires CanCarry(previous, pools)
    ensures r == CarryPools(previous, pools)
  {
    r := pools;
    var j := 0;
    while j < |r|
      invariant 0 <= j <= |r| == |pools|
      invariant forall k :: 0 <= k < j ==> r[k] == CarryPool(previous, pools[k])
      invariant forall k :: j <= k < |r| ==> r[k] == pools[k]
    {
      var found := FindPool(previous, r[j].resource);
      if found.Some? {
        var before := previous[found.value];
        var increase := if r[j].maximum < before.maximum then 0 else r[j].maximum - before.maximum;
        var sum := Minimum(before.current + increase, 0xFF);
        r := r[j := r[j].(current := Minimum(sum, r[j].maximum))];
      }
      j := j + 1;
    }
  }

  function LevelUpAuditOf(before: Hero, after: Hero, command: LevelUpCommand,
                          context: TrustedMutationContext): LevelUpAuditRecord {
    LevelUpAuditRecord(
      HERO_AUDIT_SCHEMA_VERSION, context.auditId, context.actorId, before.characterId,
      command.idempotencyKey, before.revision, after.revision, One, Two, command.choice,
      before.sheet.maximumHitPoints, after.sheet.maximumHitPoints, before.sheet.resources,
      after.sheet.resources, context.occurredAt)
  }

  /** What an eligible hero brings to the level-two derivation. */
  lemma LevelTwoFits(h: Hero)
    requires ValidHero(h) && h.LevelUpEligible()
    ensures h.choices.Valid()
    ensures DeriveSheet(h.choices, Two, [SupportedLevelUp(h.choices.class_.Class())])
         == Success(Derived(h.choices, Two))
    ensures h.sheet.currentHitPoints <= h.sheet.maximumHitPoints < Derived(h.choices, Two).maximumHitPoints
    ensures CanCarry(h.sheet.resources, Derived(h.choices, Two).resources)
  {
    DerivationSucceedsIff(h.choices, Two, [SupportedLevelUp(h.choices.class_.Class())]);
    LevelTwoRaisesHitPoints(h.choices);
    DerivedRuntime(h.choices, One);
    DerivedRuntime(h.choices, Two);
    PoolsCanCarry(h.sheet.resources, h.choices.class_.Class());
  }

  /** A hero assembled with the clamps is the clamp-free one. */
  lemma LevelledUpIs(before: Hero, after: Hero)
    requires ValidHero(before) && before.LevelUpEligible() && before.revision < U64_MAX
    requires CanCarry(before.sheet.resources, Derived(before.choices, Two).resources)
    requires after == before.(level := Two, advancement := [SupportedLevelUp(before.choices.class_.Class())],
                              revision := before.revision + 1, sheet := after.sheet)
    requires after.sheet == Derived(before.choices, Two).(
      currentHitPoints := after.sheet.currentHitPoints, resources := after.sheet.resources)
    requires after.sheet.maximumHitPoints - after.sheet.currentHitPoints
          == before.sheet.maximumHitPoints - before.sheet.currentHitPoints
    requires after.sheet.resources == CarryPools(before.sheet.resources, Derived(before.choices, Two).resources)
    ensures after == LevelledUp(before)
  {
  }

  lemma CarriedPoolsMatch(previous: seq<ResourcePool>, full: seq<ResourcePool>)
    requires CanCarry(previous, full) && PoolsMatch(full, full)
    ensures PoolsMatch(CarryPools(previous, full), full)
  {
  }

  lemma RuntimeOfDerived(full: HeroSheet, hitPoints: U16, pools: seq<ResourcePool>)
    requires hitPoints <= full.maximumHitPoints && PoolsMatch(pools, full.resources)
    ensures RuntimeOf(full.(currentHitPoints := hitPoints, resources := pools), full)
  {
  }

  lemma DerivedPoolsAreFull(choices: HeroChoices, level: SupportedLevel)
    requires choices.Valid()
    ensures PoolsMatch(Derived(choices, level).resources, Derived(choices, level).resources)
  {
    DerivedRuntime(choices, level);
    hide Derived;
  }

  lemma LevelUpKeepsValid(h: Hero)
    requires ValidHero(h) && h.LevelUpEligible() && h.revision < U64_MAX
    ensures ValidHero(LevelledUp(h))
  {
    LevelTwoFits(h);
    DerivedPoolsAreFull(h.choices, Two);
    hide Derived, CarryPools, CanCarry, PoolsMatch, RuntimeOf, DeriveSheet, HeroChoices.Validate;
    var full := Derived(h.choices, Two);
    CarriedPoolsMatch(h.sheet.resources, full.resources);
    RuntimeOfDerived(full, full.maximumHitPoints - (h.sheet.maximumHitPoints - h.sheet.currentHitPoints),
                     CarryPools(h.sheet.resources, full.resources));
  }

  /** The two facts the audit insists on: more hit points, and different pools. */
  lemma LevelUpIsVisible(h: Hero)
    requires ValidHero(h) && h.LevelUpEligible() && h.revision < U64_MAX
    ensures LevelledUp(h).sheet.maximumHitPoints > h.sheet.maximumHitPoints
    ensures LevelledUp(h).sheet.resources != h.sheet.resources
  {
    LevelTwoFits(h);
    DerivedRuntime(h.choices, One);
    DerivedRuntime(h.choices, Two);
    assert LevelledUp(h).sheet.resources[0].maximum == 2;
    assert h.sheet.resources[0].maximum == 1;
  }

  function RewardAuditOf(before: Hero, after: Hero, command: RewardAwardCommand,
                         policy: TrustedRewardPolicy, context: TrustedMutationContext): RewardAwardAudit {
    RewardAwardAudit(
      HERO_AUDIT_SCHEMA_VERSION, context.auditId, context.actorId, before.characterId,
      command.idempotencyKey, before.revision, after.revision, policy, command.tier,
      policy.ExperienceFor(command.tier), before.experience, after.experience, after.level,
      after.LevelUpEligible(), context.occurredAt)
  }

  lemma ValidExperienceIsSmall(h: Hero)
    requires ValidHero(h)
    ensures h.experience < LEVEL_THREE_XP
  {
  }

  lemma ValidIdentity(h: Hero)
    requires ValidHero(h)
    ensures LegalIdentity(h)
  {
  }

  lemma RewardKeepsValid(h: Hero, awarded: nat)
    requires ValidHero(h)
    requires h.experience + awarded < LEVEL_THREE_XP && h.revision < U64_MAX
    ensures ValidHero(Rewarded(h, awarded))
  {
  }

  /** The normalising comparison of `HeroCharacter::validate`. */
  method CompareSheet(stored: HeroSheet, expected: HeroSheet) returns (r: HeroCheck)
    requires DistinctKinds(expected.resources)
    ensures r.Success? <==> RuntimeOf(stored, expected)
  {
    var normalized := stored;
    if normalized.currentHitPoints > normalized.maximumHitPoints {
      return Invalid(SheetCurrentHitPoints);
    }
    normalized := normalized.(currentHitPoints := expected.currentHitPoints);
    if |normalized.resources| != |expected.resources| {
      return Invalid(SheetResources);
    }
    var i := 0;
    while i < |normalized.resources|
      invariant 0 <= i <= |normalized.resources| == |stored.resources|
      invariant normalized == stored.(
        currentHitPoints := expected.currentHitPoints, resources := normalized.resources)
      invariant forall k :: i <= k < |stored.resources| ==> normalized.resources[k] == stored.resources[k]
      invariant forall k :: 0 <= k < i ==> Normalizes(stored.resources[k], normalized.resources[k], expected.resources)
    {
      var pool := normalized.resources[i];
      if pool.current > pool.maximum {
        return Invalid(SheetResourcesCurrent);
      }
      var found := FindPool(expected.resources, pool.resource);
      if found.None? {
        return Invalid(SheetResources);
      }
      var filled := pool.(current := expected.resources[found.value].current);
      normalized := normalized.(resources := normalized.resources[i := filled]);
      i := i + 1;
    }
    NormalizedAgrees(stored.resources, normalized.resources, expected.resources);
    r := Require(normalized == expected, Field.Sheet);
  }

  /** `after` is `before` with the counter the expected pools give its kind. */
  ghost predicate Normalizes(before: ResourcePool, after: ResourcePool, expected: seq<ResourcePool>) {
    && before.current <= before.maximum
    && FindPool(expected, before.resource).Some?
    && after == before.(current := expected[FindPool(expected, before.resource).value].current)
  }

  /** After normalisation, equality with the expected pools is exactly place-by-place agreement. */
  lemma NormalizedAgrees(stored: seq<ResourcePool>, normalized: seq<ResourcePool>, expected: seq<ResourcePool>)
    requires DistinctKinds(expected)
    requires |stored| == |normalized| == |expected|
    requires forall k :: 0 <= k < |stored| ==> Normalizes(stored[k], normalized[k], expected)
    ensures normalized == expected <==> PoolsMatch(stored, expected)
  {
  }

  lemma FreshSheetIsValid(h: Hero)
    requires LegalIdentity(h) && LegalProgress(h)
    requires h.sheet == Derived(h.choices, h.level)
    ensures ValidHero(h)
  {
    DerivedRuntime(h.choices, h.level);
  }

  /** Changing only hit points and counters, within their maxima, keeps a hero valid. */
  lemma RuntimeWriteKeepsValid(before: Hero, after: Hero)
    requires ValidHero(before)
    requires after == before.(sheet := after.sheet)
    requires after.sheet == before.sheet.(
      currentHitPoints := after.sheet.currentHitPoints, resources := after.sheet.resources)
    requires after.sheet.currentHitPoints <= after.sheet.maximumHitPoints
    requires PoolsMatch(after.sheet.resources, before.sheet.resources)
    ensures ValidHero(after)
  {
  }

  lemma ValidRuntimeIsBounded(h: Hero)
    requires ValidHero(h)
    ensures PoolsMatch(h.sheet.resources, h.sheet.resources)
    ensures h.sheet.currentHitPoints <= h.sheet.maximumHitPoints
  {
  }

  lemma ValidityIgnoresRevision(h: Hero, revision: U64)
    requires ValidHero(h)
    ensures ValidHero(h.(revision := revision))
  {
  }
}
