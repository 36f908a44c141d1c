// What it takes for a command to be accepted, how it is refused, and what its audit says
// (crates/game-core/src/hero.rs, lines 1872-1916, 1961-2278, 2536-2560, 2641-2897 and 3024-3066).

module CommandLaws {
  import opened Wrappers
  import opened MachineInts
  import opened Text
  import opened HeroErrors
  import opened HeroRules
  import opened HeroSheets
  import opened HeroDocuments
  import opened HeroCharacters
  import opened HeroSync
  import opened HeroLaws
  import opened HeroDrafts
  import opened HeroCreation
  import opened ChoiceLaws
  import opened SheetTables

  predicate ContextLegal(context: TrustedMutationContext) {
    IsOpaqueId(context.auditId) && IsOpaqueId(context.actorId) && context.occurredAt >= 1
  }

  // ----- Rewards

  predicate RewardLegal(command: RewardAwardCommand) {
    command.schemaVersion == 1 && IsOpaqueId(command.characterId) && IsOpaqueId(command.idempotencyKey)
  }

  function TierAmount(tier: RewardTier): nat {
    if tier == Minor then 50 else if tier == Significant then 150 else 300
  }

  /** A reward is accepted iff command and context are legal, it names this hero and its revision, the
      total stays below 900 and the revision can grow. */
  lemma RewardAcceptedIff(h: Hero, command: RewardAwardCommand, policy: TrustedRewardPolicy, context: TrustedMutationContext)
    ensures RewardGuards(h, command, policy, context).Success? <==>
      && RewardLegal(command) && ContextLegal(context)
      && command.characterId == h.characterId && command.expectedRevision == h.revision
      && h.experience + TierAmount(command.tier) <= 899 && h.revision < U64_MAX
  {
    hide IsOpaqueId;
  }

  /** A legal reward is refused by the first of: another hero, a stale revision, a third level, a
      revision at its limit. */
  lemma RewardRefusals(h: Hero, command: RewardAwardCommand, policy: TrustedRewardPolicy, context: TrustedMutationContext)
    requires RewardLegal(command) && ContextLegal(context)
    ensures var r := RewardGuards(h, command, policy, context);
      var sameHero, sameRevision := command.characterId == h.characterId, command.expectedRevision == h.revision;
      var tooMuch := h.experience + TierAmount(command.tier) >= 900;
      && (!sameHero ==> r == Failure(InvalidField(CharacterId)))
      && (sameHero && !sameRevision ==> r == Failure(StaleRevision(command.expectedRevision, h.revision)))
      && (sameHero && sameRevision && tooMuch ==> r == Failure(UnsupportedLevelThree))
      && (sameHero && sameRevision && !tooMuch && h.revision == U64_MAX ==> r == Failure(InvalidField(Revision)))
  {
    hide IsOpaqueId;
  }

  /** The audit of an accepted reward: who, which hero, and exactly what moved. */
  lemma RewardAuditTells(h: Hero, command: RewardAwardCommand, policy: TrustedRewardPolicy, context: TrustedMutationContext)
    requires ValidHero(h) && RewardGuards(h, command, policy, context).Success?
    ensures var after := Rewarded(h, policy.ExperienceFor(command.tier));
      var audit := RewardAuditOf(h, after, command, policy, context);
      && audit.auditId == context.auditId && audit.actorId == context.actorId
      && audit.occurredAt == context.occurredAt && audit.characterId == h.characterId
      && audit.idempotencyKey == command.idempotencyKey && audit.tier == command.tier
      && audit.revisionBefore == h.revision && audit.revisionAfter == h.revision + 1
      && audit.experienceBefore == h.experience && audit.experienceAfter == after.experience
      && audit.experienceAwarded == TierAmount(command.tier) == after.experience - h.experience
      && audit.level == h.level
      && (audit.levelUpEligible <==> h.level == One && h.experience + TierAmount(command.tier) >= 300)
  {
    hide ValidHero;
  }

  /** A stored reward audit is valid exactly when its identifiers are legal, it happened, and its
      revision, experience and eligibility follow from the tier. */
  lemma RewardAuditValidIff(audit: RewardAwardAudit)
    ensures audit.Validate().Success? <==>
      && audit.schemaVersion == 1 && audit.occurredAt >= 1
      && IsOpaqueId(audit.auditId) && IsOpaqueId(audit.actorId)
      && IsOpaqueId(audit.characterId) && IsOpaqueId(audit.idempotencyKey)
      && audit.revisionAfter - audit.revisionBefore == 1
      && audit.experienceAwarded == TierAmount(audit.tier) == audit.experienceAfter - audit.experienceBefore
      && (audit.levelUpEligible <==> audit.level == One && audit.experienceAfter >= 300)
  {
    hide IsOpaqueId;
  }

  // ----- Level-ups

  predicate LevelUpLegal(command: LevelUpCommand) {
    command.schemaVersion == 1 && IsOpaqueId(command.characterId) && IsOpaqueId(command.idempotencyKey)
  }

  /** The fighter takes the fixed hit points; the wizard also the school of evocation. */
  predicate ChoiceOffered(choice: LevelUpChoice, class_: HeroClass) {
    choice == if class_ == Fighter then FighterLevelUp(FixedAverage) else WizardLevelUp(FixedAverage, Evocation)
  }

  lemma LevelUpAcceptedIff(h: Hero, command: LevelUpCommand, context: TrustedMutationContext)
    ensures LevelUpGuards(h, command, context).Success? <==>
      && LevelUpLegal(command) && ContextLegal(context)
      && command.characterId == h.characterId && command.expectedRevision == h.revision
      && h.level == One && h.experience >= 300
      && ChoiceOffered(command.choice, h.choices.class_.Class())
      && h.revision < U64_MAX
  {
    hide IsOpaqueId;
  }

  lemma LevelUpRefusals(h: Hero, command: LevelUpCommand, context: TrustedMutationContext)
    requires LevelUpLegal(command) && ContextLegal(context)
    ensures var r := LevelUpGuards(h, command, context);
      var sameHero, sameRevision := command.characterId == h.characterId, command.expectedRevision == h.revision;
      var ready, offered := h.level == One && h.experience >= 300, ChoiceOffered(command.choice, h.choices.class_.Class());
      && (!sameHero ==> r == Failure(InvalidField(CharacterId)))
      && (sameHero && !sameRevision ==> r == Failure(StaleRevision(command.expectedRevision, h.revision)))
      && (sameHero && sameRevision && !ready ==> r == Failure(InvalidField(LevelField)))
      && (sameHero && sameRevision && ready && !offered ==> r == Failure(InvalidField(LevelUpChoiceField)))
      && (sameHero && sameRevision && ready && offered && h.revision == U64_MAX ==> r == Failure(InvalidField(Revision)))
  {
    hide IsOpaqueId;
  }

  /** The levelled-up hero, field by field, and its audit. */
  lemma LevelUpAuditTells(h: Hero, command: LevelUpCommand, context: TrustedMutationContext)
    requires ValidHero(h) && LevelUpGuards(h, command, context).Success?
    ensures h.LevelUpEligible() && h.revision < U64_MAX
    ensures var after := LevelledUp(h); var audit := LevelUpAuditOf(h, after, command, context);
      && after == h.(level := Two, advancement := [command.choice], revision := h.revision + 1, sheet := after.sheet)
      && audit.auditId == context.auditId && audit.actorId == context.actorId
      && audit.occurredAt == context.occurredAt && audit.characterId == h.characterId
      && audit.idempotencyKey == command.idempotencyKey && audit.choice == command.choice
      && audit.revisionBefore == h.revision && audit.revisionAfter == h.revision + 1
      && audit.levelBefore == One && audit.levelAfter == Two
      && audit.maximumBefore == h.sheet.maximumHitPoints && audit.maximumAfter == after.sheet.maximumHitPoints
      && audit.resourcesBefore == h.sheet.resources && audit.resourcesAfter == after.sheet.resources
  {
    LevelUpAcceptedIff(h, command, context);
    hide Derived, ValidHero, CarryPools, IsOpaqueId, LevelUpGuards;
  }

  /** A stored level-up audit is valid exactly when its identifiers are legal, it happened, and it shows
      one step from level one to two with more hit points and other pools. */
  lemma LevelUpAuditValidIff(audit: LevelUpAuditRecord)
    ensures audit.Validate().Success? <==>
      && audit.schemaVersion == 1 && audit.occurredAt >= 1
      && IsOpaqueId(audit.auditId) && IsOpaqueId(audit.actorId)
      && IsOpaqueId(audit.characterId) && IsOpaqueId(audit.idempotencyKey)
      && audit.revisionAfter - audit.revisionBefore == 1
      && audit.levelBefore == One && audit.levelAfter == Two
      && audit.maximumBefore < audit.maximumAfter
      && audit.resourcesBefore != audit.resourcesAfter
  {
    hide IsOpaqueId;
  }

  // ----- Synchronisation

  /** A refused synchronisation of a valid hero names its hit points, its readings or, when both are
      good, the revision. */
  lemma SynchronizationRefusals(h: Hero, hitPoints: U16, readings: seq<PoolReading>)
    requires ValidHero(h)
    ensures var r := Synchronized(h, hitPoints, readings).1;
      var fits := hitPoints <= h.sheet.maximumHitPoints;
      var good := |readings| == |h.sheet.resources| && GoodReadings(h.sheet.resources, readings);
      && (!fits ==> r == Failure(InvalidField(Field.CurrentHitPoints)))
      && (fits && !good ==> r == Failure(InvalidField(ResourceCurrents)))
      && (fits && good && h.revision == U64_MAX ==> r == Failure(InvalidField(Revision)))
  {
    ValidKindsAreDistinct(h);
    hide Derived, ValidHero, GoodReadings;
    if |readings| == |h.sheet.resources| {
      RefusedLoop(h.sheet.resources, readings, {});
      if GoodReadings(h.sheet.resources, readings) {
        GoodLoop(h.sheet.resources, readings);
      } else if SyncPools(h.sheet.resources, readings, {}).1.Success? {
        AcceptedReadingsAreGood(h.sheet.resources, readings, {});
      }
    }
  }

  lemma GoodLoop(pools: seq<ResourcePool>, readings: seq<PoolReading>)
    requires DistinctKinds(pools) && GoodReadings(pools, readings)
    ensures SyncPools(pools, readings, {}).1.Success?
  {
    GoodReadingsAreAccepted(pools, readings, {});
  }

  lemma {:induction false} RefusedLoop(pools: seq<ResourcePool>, readings: seq<PoolReading>, seen: set<ResourceKind>)
    ensures var r := SyncPools(pools, readings, seen).1; r.Failure? ==> r == Failure(InvalidField(ResourceCurrents))
    decreases |readings|
  {
    if readings != [] {
      var (kind, current) := readings[0];
      var found := FindPool(pools, kind);
      if kind !in seen && found.Some? && current <= pools[found.value].maximum {
        RefusedLoop(pools[found.value := pools[found.value].(current := current)], readings[1..], seen + {kind});
      }
    }
  }

  // ----- Valid heroes

  /** A stored hero is valid exactly when its identity is legal, its record is valid, its progress fits
      its level, and its sheet is the derived one but for counters within their maxima. */
  lemma ValidHeroesAre(h: Hero)
    ensures ValidHero(h) <==>
      && h.schemaVersion == 1
      && IsOpaqueId(h.characterId) && IsOpaqueId(h.campaignId) && IsOpaqueId(h.ownerId)
      && h.choices.Valid()
      && h.advancement == (if h.level == One then []
                           else if h.choices.class_.FighterClass? then [FighterLevelUp(FixedAverage)]
                           else [WizardLevelUp(FixedAverage, Evocation)])
      && (h.level == Two ==> h.experience >= 300)
      && h.experience <= 899
      && SheetIsCurrent(h.sheet, Derived(h.choices, h.level))
  {
    if h.choices.Valid() {
      AdvancementIs(h.choices.class_.Class(), h.level, h.advancement);
      hide Derived, HeroChoices.Validate, AdvancementMatches, IsOpaqueId;
      SheetsMatch(h.sheet, Derived(h.choices, h.level));
    }
  }

  /** Every field agrees with the derived sheet, and every counter lies below its maximum. */
  predicate SheetIsCurrent(stored: HeroSheet, derived: HeroSheet) {
    && stored.currentHitPoints <= derived.maximumHitPoints
    && |stored.resources| == |derived.resources|
    && (forall i :: 0 <= i < |derived.resources| ==>
          && stored.resources[i].resource == derived.resources[i].resource
          && stored.resources[i].maximum == derived.resources[i].maximum
          && stored.resources[i].recoversOn == derived.resources[i].recoversOn
          && stored.resources[i].current <= derived.resources[i].maximum)
    && stored.(currentHitPoints := 0, resources := []) == derived.(currentHitPoints := 0, resources := [])
  }

  lemma SheetsMatch(stored: HeroSheet, derived: HeroSheet)
    ensures RuntimeOf(stored, derived) <==> SheetIsCurrent(stored, derived)
  {
  }

  // ----- Valid drafts

  /** Which selections a draft holds, step by step. */
  predicate HoldsWhatItPassed(d: Draft) {
    var step := d.step;
    && (d.pins.None? <==> step in {AtCampaignTheme})
    && (d.concept.None? <==> step in {AtCampaignTheme, AtConcept})
    && (d.ancestry.None? <==> step in {AtCampaignTheme, AtConcept, AtRules})
    && (d.class_.None? <==> step in {AtCampaignTheme, AtConcept, AtRules})
    && (d.assignment.None? <==> step in {AtCampaignTheme, AtConcept, AtRules, AtAbilityScores})
    && (d.background.Some? <==> step in {AtEquipmentAndSpells, AtPresentation, AtReview, AtCommit, Committed})
    && (d.equipment.Some? <==> step in {AtPresentation, AtReview, AtCommit, Committed})
    && (d.presentation.Some? <==> step in {AtReview, AtCommit, Committed})
    && (d.reviewed <==> step in {AtCommit, Committed})
    && (d.committedCharacterId.Some? <==> step in {Committed})
  }

  /** The selections it holds are ones that were offered, together. */
  predicate HoldsFitting(d: Draft)
    requires HoldsWhatItPassed(d)
  {
    && (d.pins.Some? ==> PinsFit(d.pins.value))
    && (d.assignment.Some? ==> ScoresFit(d.assignment.value))
    && (d.background.Some? ==> SkillsFit(d.background.value, d.class_.value.Class()))
    && (d.equipment.Some? ==> EquipmentFits(d.equipment.value, d.class_.value))
    && (d.equipment.Some? ==>
          MagicFits(d.class_.value, d.wizardSpells, HumanModifier(d.assignment.value.intelligence)))
    && (d.equipment.None? ==> d.wizardSpells.None?)
    && (d.presentation.Some? ==> PresentationFits(d.presentation.value))
    && (d.committedCharacterId.Some? ==> IsOpaqueId(d.committedCharacterId.value))
  }

  lemma PresenceIs(d: Draft)
    ensures PresenceMatchesStep(d) <==> HoldsWhatItPassed(d)
  {
    match d.step {
      case AtCampaignTheme => case AtConcept => case AtRules => case AtAbilityScores => case AtBackground =>
      case AtEquipmentAndSpells => case AtPresentation => case AtReview => case AtCommit => case Committed =>
    }
  }

  lemma PresentTogether(d: Draft)
    requires HoldsWhatItPassed(d)
    ensures d.background.Some? ==> d.class_.Some?
    ensures d.equipment.Some? ==> d.class_.Some? && d.assignment.Some?
  {
  }

  lemma DraftSpells(d: Draft)
    requires d.assignment.Some? && d.class_.Some? && d.assignment.value.Validate().Success?
    ensures HeroDrafts.SpellsFit(d)
      <==> MagicFits(d.class_.value, d.wizardSpells, HumanModifier(d.assignment.value.intelligence))
  {
    AssignmentScores(d.assignment.value);
    hide StandardArrayAssignment.Validate, CheckSpells, MagicFits;
    SpellsAcceptedIff(d.class_.value, d.wizardSpells, HumanModifier(d.assignment.value.intelligence));
  }

  /** A stored draft is valid exactly when its identifiers are legal, it has an expiry, and it holds
      fitting selections of every step it has passed and nothing of the others. */
  lemma ValidDraftsAre(d: Draft)
    ensures ValidDraft(d) <==>
      && d.schemaVersion == 1 && d.expiresAt >= 1
      && IsOpaqueId(d.draftId) && IsOpaqueId(d.campaignId) && IsOpaqueId(d.ownerId)
      && HoldsWhatItPassed(d)
      && HoldsFitting(d)
  {
    hide PresenceMatchesStep, HoldsWhatItPassed, HeroPins.Validate, StandardArrayAssignment.Validate,
      BackgroundSelection.ValidateFor, EquipmentSelection.ValidateFor, HeroPresentation.Validate, PinsFit, ScoresFit,
      SkillsFit, EquipmentFits, MagicFits, PresentationFits, IsOpaqueId, HeroDrafts.SpellsFit;
    PresenceIs(d);
    if HoldsWhatItPassed(d) {
      PresentTogether(d);
      if d.pins.Some? { PinsAcceptedIff(d.pins.value); }
      if d.background.Some? { SkillsAcceptedIff(d.background.value, d.class_.value.Class()); }
      if d.presentation.Some? { PresentationAcceptedIff(d.presentation.value); }
      if d.assignment.Some? { ScoresAcceptedIff(d.assignment.value); }
      if d.equipment.Some? {
        EquipmentAcceptedIff(d.equipment.value, d.class_.value);
        if d.assignment.value.Validate().Success? { DraftSpells(d); }
      }
    }
  }

  // ----- Creation commands

  predicate CreationLegal(command: CreationCommand) {
    command.schemaVersion == 1 && IsOpaqueId(command.draftId) && IsOpaqueId(command.idempotencyKey)
  }

  /** The step an intent is for, and the payloads offered there. */
  predicate IntentFits(d: Draft, intent: CreationIntent)
    requires ValidDraft(d)
  {
    match intent
    case SelectCampaignTheme(pins) => d.step == AtCampaignTheme && PinsFit(pins)
    case SelectConcept(_) => d.step == AtConcept
    case SelectRules(_, _) => d.step == AtRules
    case AssignAbilities(assignment) => d.step == AtAbilityScores && ScoresFit(assignment)
    case SelectBackground(selection) => d.step == AtBackground && SkillsFit(selection, d.class_.value.Class())
    case SelectEquipmentAndSpells(equipment, spells) =>
      && d.step == AtEquipmentAndSpells && EquipmentFits(equipment, d.class_.value)
      && MagicFits(d.class_.value, spells, HumanModifier(d.assignment.value.intelligence))
    case SetPresentation(presentation) => d.step == AtPresentation && PresentationFits(presentation)
    case Review => d.step == AtReview
    case Commit(characterId) => d.step == AtCommit && IsOpaqueId(characterId)
  }

  lemma IntentChecked(d: Draft, command: CreationCommand)
    requires ValidDraft(d)
    ensures command.Validate().Success? && d.step == command.intent.RequiredStep()
            && PayloadRule(d, command.intent).Success?
      <==> CreationLegal(command) && IntentFits(d, command.intent)
  {
    hide HeroPins.Validate, StandardArrayAssignment.Validate, BackgroundSelection.ValidateFor,
      EquipmentSelection.ValidateFor, HeroPresentation.Validate, CheckSpells, PinsFit, ScoresFit, SkillsFit, EquipmentFits,
      MagicFits, PresentationFits, IsOpaqueId;
    match command.intent
    case SelectCampaignTheme(pins) => PinsAcceptedIff(pins);
    case AssignAbilities(assignment) => ScoresAcceptedIff(assignment);
    case SelectBackground(selection) =>
      if d.step == AtBackground { SkillsAcceptedIff(selection, d.class_.value.Class()); }
    case SelectEquipmentAndSpells(equipment, spells) =>
      if d.step == AtEquipmentAndSpells {
        DraftIntelligence(d);
        EquipmentAcceptedIff(equipment, d.class_.value);
        SpellsAcceptedIff(d.class_.value, spells, HumanModifier(d.assignment.value.intelligence));
      }
    case SetPresentation(presentation) => PresentationAcceptedIff(presentation);
    case _ =>
  }

  lemma DraftIntelligence(d: Draft)
    requires ValidDraft(d) && d.step.Ordinal() >= 4
    ensures IntelligenceModifier(d.assignment.value) == Success(HumanModifier(d.assignment.value.intelligence))
  {
    AssignmentScores(d.assignment.value);
    hide StandardArrayAssignment.Validate;
  }

  /** A creation command is accepted iff command and context are legal, it names this draft and its
      revision, comes from the owner no later than expiry, fits the step, and the revision can grow. */
  lemma CreationAcceptedIff(d: Draft, command: CreationCommand, context: TrustedMutationContext)
    requires ValidDraft(d)
    ensures CreationGuards(d, command, context).Success? <==>
      && CreationLegal(command) && ContextLegal(context)
      && command.draftId == d.draftId && context.actorId == d.ownerId
      && context.occurredAt <= d.expiresAt && command.expectedRevision == d.revision
      && IntentFits(d, command.intent)
      && d.revision < U64_MAX
  {
    hide ValidDraft, IntentFits, PayloadRule, IsOpaqueId, CreationCommand.Validate;
    IntentChecked(d, command);
  }

  /** A legal creation command is refused by the first of: another draft, another actor, expiry, a stale
      revision, another step. */
  lemma CreationRefusals(d: Draft, command: CreationCommand, context: TrustedMutationContext)
    requires ValidDraft(d) && command.Validate().Success? && ContextLegal(context)
    ensures var r := CreationGuards(d, command, context);
      var target, owner, inTime :=
        command.draftId == d.draftId, context.actorId == d.ownerId, context.occurredAt <= d.expiresAt;
      var current, step := command.expectedRevision == d.revision, d.step == command.intent.RequiredStep();
      && (!target ==> r == Failure(InvalidField(DraftId)))
      && (target && !owner ==> r == Failure(InvalidField(ActorId)))
      && (target && owner && !inTime ==> r == Failure(InvalidField(ExpiresAt)))
      && (target && owner && inTime && !current ==> r == Failure(StaleRevision(command.expectedRevision, d.revision)))
      && (target && owner && inTime && current && !step ==>
            r == Failure(DraftStepMismatch(command.intent.RequiredStep().Ordinal(), d.step.Ordinal())))
  {
    hide ValidDraft, PayloadRule, IsOpaqueId, CreationCommand.Validate;
  }

  const STEP_ACTIONS: seq<CreationAction> := [
    CampaignThemeSelected, ConceptSelected, RulesSelected, AbilitiesAssigned, BackgroundSelected,
    EquipmentAndSpellsSelected, PresentationSet, CreationAction.Reviewed, DraftCommitted]

  /** A stored transition audit is valid exactly when its identifiers are legal, it happened, and it
      shows one revision and one step, by the action that leaves that step. */
  lemma TransitionAuditValidIff(audit: TransitionAudit)
    ensures audit.Validate().Success? <==>
      && audit.schemaVersion == 1 && audit.occurredAt >= 1
      && IsOpaqueId(audit.auditId) && IsOpaqueId(audit.actorId)
      && IsOpaqueId(audit.draftId) && IsOpaqueId(audit.idempotencyKey)
      && audit.revisionAfter - audit.revisionBefore == 1
      && audit.stepBefore.Ordinal() < |STEP_ACTIONS|
      && audit.stepAfter.Ordinal() - audit.stepBefore.Ordinal() == 1
      && audit.action == STEP_ACTIONS[audit.stepBefore.Ordinal()]
  {
    hide IsOpaqueId;
  }

  /** A stored created-character audit is valid exactly when its identifiers are legal, it happened, its
      choices are valid and its sheet is the one they give at level one. */
  lemma CreatedAuditValidIff(audit: CreatedAudit)
    ensures audit.Validate().Success? <==>
      && audit.schemaVersion == 1 && audit.occurredAt >= 1
      && IsOpaqueId(audit.auditId) && IsOpaqueId(audit.actorId) && IsOpaqueId(audit.draftId)
      && IsOpaqueId(audit.characterId) && IsOpaqueId(audit.campaignId)
      && audit.choices.Valid() && audit.derivedSheet == Derived(audit.choices, One)
  {
    DerivationSucceedsIff(audit.choices, One, []);
    hide IsOpaqueId, Derived, DeriveSheet;
  }

  /** The transition audit: who, which draft, and the one step taken. */
  lemma TransitionAuditTells(d: Draft, command: CreationCommand, context: TrustedMutationContext)
    requires ValidDraft(d) && CreationGuards(d, command, context).Success?
    ensures var next := Advanced(d, command.intent); var audit := TransitionAuditOf(d, next, command, context);
      && audit.auditId == context.auditId && audit.actorId == d.ownerId && audit.occurredAt == context.occurredAt
      && audit.draftId == d.draftId && audit.idempotencyKey == command.idempotencyKey
      && audit.revisionBefore == d.revision && audit.revisionAfter == d.revision + 1
      && audit.stepBefore == d.step && audit.stepAfter == next.step
      && audit.stepAfter.Ordinal() == d.step.Ordinal() + 1
      && d.step.Ordinal() < |STEP_ACTIONS| && audit.action == STEP_ACTIONS[d.step.Ordinal()]
  {
    StepMovesByOne(d, command.intent);
    SteppedKeepsEnvelope(d, command.intent);
    hide ValidDraft, PayloadRule, Stepped, IsOpaqueId, CreationCommand.Validate;
  }

  /** The created-character audit: the committed hero, its choices and its derived sheet. */
  lemma CreatedAuditTells(d: Draft, command: CreationCommand, context: TrustedMutationContext)
    requires ValidDraft(d) && CreationGuards(d, command, context).Success? && command.intent.Commit?
    ensures d.ToChoices().Success? && d.ToChoices().value.Valid()
    ensures var hero := HeroOf(d, command.intent.characterId);
      var audit := CreatedAuditOf(d, Advanced(d, command.intent), hero, context);
      && audit.auditId == context.auditId && audit.actorId == d.ownerId && audit.occurredAt == context.occurredAt
      && audit.draftId == d.draftId && audit.draftRevision == d.revision + 1
      && audit.characterId == hero.characterId == command.intent.characterId
      && audit.campaignId == hero.campaignId == d.campaignId && hero.ownerId == d.ownerId
      && audit.choices == hero.choices == d.ToChoices().value
      && audit.derivedSheet == hero.sheet == Derived(d.ToChoices().value, One)
  {
    CommitFacts(d, command, context);
    CreationAcceptedIff(d, command, context);
    hide ValidDraft, CreationGuards, Derived, HeroChoices.Validate, IntentFits, IsOpaqueId, Draft.ToChoices;
  }
}
