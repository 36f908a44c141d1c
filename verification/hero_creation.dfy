// The ten-state creation draft and its one transition operation
// (crates/game-core/src/hero.rs, lines 2408-3087).

module HeroDrafts {
  import opened Wrappers
  import opened MachineInts
  import opened Text
  import opened HeroErrors
  import opened HeroRules
  import opened HeroDocuments

  const HERO_DRAFT_SCHEMA_VERSION: U16 := 1
  const LAST_ORDINAL := 9

  datatype CreationStep =
    | AtCampaignTheme | AtConcept | AtRules | AtAbilityScores | AtBackground
    | AtEquipmentAndSpells | AtPresentation | AtReview | AtCommit | Committed
  {
    function Ordinal(): nat {
      match this
      case AtCampaignTheme => 0
      case AtConcept => 1
      case AtRules => 2
      case AtAbilityScores => 3
      case AtBackground => 4
      case AtEquipmentAndSpells => 5
      case AtPresentation => 6
      case AtReview => 7
      case AtCommit => 8
      case Committed => LAST_ORDINAL
    }
  }

  datatype CreationAction =
    | CampaignThemeSelected | ConceptSelected | RulesSelected | AbilitiesAssigned
    | BackgroundSelected | EquipmentAndSpellsSelected | PresentationSet | Reviewed | DraftCommitted

  datatype CreationIntent =
    | SelectCampaignTheme(pins: HeroPins)
    | SelectConcept(concept: HeroConceptId)
    | SelectRules(ancestry: AncestryId, class_: ClassSelection)
    | AssignAbilities(assignment: StandardArrayAssignment)
    | SelectBackground(selection: BackgroundSelection)
    | SelectEquipmentAndSpells(equipment: EquipmentSelection, wizardSpells: Option<WizardSpellSelection>)
    | SetPresentation(presentation: HeroPresentation)
    | Review
    | Commit(characterId: string)
  {
    function RequiredStep(): CreationStep {
      match this
      case SelectCampaignTheme(_) => AtCampaignTheme
      case SelectConcept(_) => AtConcept
      case SelectRules(_, _) => AtRules
      case AssignAbilities(_) => AtAbilityScores
      case SelectBackground(_) => AtBackground
      case SelectEquipmentAndSpells(_, _) => AtEquipmentAndSpells
      case SetPresentation(_) => AtPresentation
      case Review => AtReview
      case Commit(_) => AtCommit
    }

    function Action(): CreationAction {
      match this
      case SelectCampaignTheme(_) => CampaignThemeSelected
      case SelectConcept(_) => ConceptSelected
      case SelectRules(_, _) => RulesSelected
      case AssignAbilities(_) => AbilitiesAssigned
      case SelectBackground(_) => BackgroundSelected
      case SelectEquipmentAndSpells(_, _) => EquipmentAndSpellsSelected
      case SetPresentation(_) => PresentationSet
      case Review => CreationAction.Reviewed
      case Commit(_) => DraftCommitted
    }
  }

  datatype CreationCommand = CreationCommand(
    schemaVersion: U16, draftId: string, expectedRevision: U64, idempotencyKey: string,
    intent: CreationIntent)
  {
    function Validate(): HeroCheck {
      var _ :- RequireSchema(schemaVersion, HERO_COMMAND_SCHEMA_VERSION);
      var _ :- RequireId(DraftId, draftId);
      var _ :- RequireId(IdempotencyKey, idempotencyKey);
      match intent
      case SelectCampaignTheme(pins) => pins.Validate()
      case AssignAbilities(assignment) => assignment.Validate()
      case SetPresentation(presentation) => presentation.Validate()
      case Commit(characterId) => RequireId(CharacterId, characterId)
      case _ => Success(())
    }
  }

  /** The value of a draft at one moment. */
  datatype Draft = Draft(
    schemaVersion: U16,
    draftId: string,
    campaignId: string,
    ownerId: string,
    revision: U64,
    expiresAt: U64,
    step: CreationStep,
    pins: Option<HeroPins>,
    concept: Option<HeroConceptId>,
    ancestry: Option<AncestryId>,
    class_: Option<ClassSelection>,
    assignment: Option<StandardArrayAssignment>,
    background: Option<BackgroundSelection>,
    equipment: Option<EquipmentSelection>,
    wizardSpells: Option<WizardSpellSelection>,
    presentation: Option<HeroPresentation>,
    reviewed: bool,
    committedCharacterId: Option<string>)
  {
    function ToChoices(): HeroResult<HeroChoices> {
      var _ :- Require(pins.Some?, Pins);
      var _ :- Require(concept.Some?, Concept);
      var _ :- Require(ancestry.Some?, Ancestry);
      var _ :- Require(class_.Some?, Class);
      var _ :- Require(assignment.Some?, AbilityAssignment);
      var _ :- Require(background.Some?, Background);
      var _ :- Require(equipment.Some?, Equipment);
      var _ :- Require(presentation.Some?, Field.Presentation);
      Success(HeroChoices(
        pins.value, concept.value, ancestry.value, class_.value, assignment.value, background.value,
        equipment.value, wizardSpells, presentation.value))
    }
  }

  function CheckStepOption<T>(field: Field, value: Option<T>, shouldBePresent: bool): HeroCheck {
    Require(value.Some? == shouldBePresent, field)
  }

  /** The intelligence modifier of a draft whose abilities are assigned. */
  function IntelligenceModifier(assignment: StandardArrayAssignment): HeroResult<I8> {
    var human :- assignment.HumanScores();
    Success(Modifier(human.intelligence))
  }

  function CheckPresence(d: Draft): HeroCheck {
    var ordinal := d.step.Ordinal();
    var _ :- CheckStepOption(Pins, d.pins, ordinal >= 1);
    var _ :- CheckStepOption(Concept, d.concept, ordinal >= 2);
    var _ :- CheckStepOption(Ancestry, d.ancestry, ordinal >= 3);
    var _ :- CheckStepOption(Class, d.class_, ordinal >= 3);
    var _ :- CheckStepOption(AbilityAssignment, d.assignment, ordinal >= 4);
    var _ :- CheckStepOption(Background, d.background, ordinal >= 5);
    var _ :- CheckStepOption(Equipment, d.equipment, ordinal >= 6);
    var _ :- CheckStepOption(Field.Presentation, d.presentation, ordinal >= 7);
    var _ :- Require(d.reviewed == (ordinal >= 8), Field.Reviewed);
    CheckStepOption(CommittedCharacterId, d.committedCharacterId, ordinal == LAST_ORDINAL)
  }

  /** `HeroCreationDraft::validate`. The `value` reads are the engine's `expect`s. */
  function ValidateDraft(d: Draft): HeroCheck {
    var _ :- RequireSchema(d.schemaVersion, HERO_DRAFT_SCHEMA_VERSION);
    var _ :- RequireId(DraftId, d.draftId);
    var _ :- RequireId(CampaignId, d.campaignId);
    var _ :- RequireId(OwnerId, d.ownerId);
    var _ :- Require(d.expiresAt != 0, ExpiresAt);
    var _ :- CheckPresence(d);
    var _ :- if d.pins.Some? then d.pins.value.Validate() else Success(());
    var _ :- if d.assignment.Some? then d.assignment.value.Validate() else Success(());
    var _ :- if d.class_.Some? && d.background.Some?
      then d.background.value.ValidateFor(d.class_.value.Class()) else Success(());
    var _ :- if d.class_.Some? && d.equipment.Some?
      then d.equipment.value.ValidateFor(d.class_.value) else Success(());
    var _ :- Require(d.step.Ordinal() < 6 ==> d.wizardSpells.None?, WizardSpells);
    var _ :-
      if d.step.Ordinal() >= 6 then
        var modifier :- IntelligenceModifier(d.assignment.value);
        CheckSpells(d.class_.value, d.wizardSpells, modifier)
      else Success(());
    var _ :- if d.presentation.Some? then d.presentation.value.Validate() else Success(());
    var _ :- if d.committedCharacterId.Some?
      then RequireId(CommittedCharacterId, d.committedCharacterId.value) else Success(());
    if d.step.Ordinal() >= 7 then
      var choices :- d.ToChoices();
      choices.Validate()
    else Success(())
  }

  // ----- The same condition, said once per field

  predicate PresenceMatchesStep(d: Draft) {
    var ordinal := d.step.Ordinal();
    && (d.pins.Some? <==> ordinal >= 1)
    && (d.concept.Some? <==> ordinal >= 2)
    && (d.ancestry.Some? <==> ordinal >= 3)
    && (d.class_.Some? <==> ordinal >= 3)
    && (d.assignment.Some? <==> ordinal >= 4)
    && (d.background.Some? <==> ordinal >= 5)
    && (d.equipment.Some? <==> ordinal >= 6)
    && (d.presentation.Some? <==> ordinal >= 7)
    && (d.reviewed <==> ordinal >= 8)
    && (d.committedCharacterId.Some? <==> ordinal == LAST_ORDINAL)
  }

  predicate SpellsFit(d: Draft)
    requires d.assignment.Some? && d.class_.Some?
  {
    var modifier := IntelligenceModifier(d.assignment.value);
    modifier.Success? && CheckSpells(d.class_.value, d.wizardSpells, modifier.value).Success?
  }

  /** A draft is valid when the fields its step calls for, and no others, are present and legal
      together. Nothing ties the revision to the step. */
  predicate ValidDraft(d: Draft) {
    && d.schemaVersion == HERO_DRAFT_SCHEMA_VERSION
    && IsOpaqueId(d.draftId) && IsOpaqueId(d.campaignId) && IsOpaqueId(d.ownerId)
    && d.expiresAt != 0
    && PresenceMatchesStep(d)
    && (d.pins.Some? ==> d.pins.value.Validate().Success?)
    && (d.assignment.Some? ==> d.assignment.value.Validate().Success?)
    && (d.background.Some? ==> d.background.value.ValidateFor(d.class_.value.Class()).Success?)
    && (d.equipment.Some? ==> d.equipment.value.ValidateFor(d.class_.value).Success?)
    && (d.equipment.Some? ==> SpellsFit(d))
    && (d.equipment.None? ==> d.wizardSpells.None?)
    && (d.presentation.Some? ==> d.presentation.value.Validate().Success?)
    && (d.committedCharacterId.Some? ==> IsOpaqueId(d.committedCharacterId.value))
  }

  /** From the presentation step on, the fields of a valid draft form a valid choice record. */
  lemma CompleteDraftsHaveValidChoices(d: Draft)
    requires ValidDraft(d) && d.step.Ordinal() >= 7
    ensures d.ToChoices().Success? && d.ToChoices().value.Valid()
  {
  }

  /** The engine's draft validation, with its final re-validation of the whole choice record,
      accepts exactly the valid drafts: that last check adds nothing. */
  lemma DraftValidationIsExact(d: Draft)
    ensures ValidateDraft(d).Success? <==> ValidDraft(d)
  {
    if ValidDraft(d) && d.step.Ordinal() >= 7 {
      CompleteDraftsHaveValidChoices(d);
    }
  }
}

module HeroCreation {
  import opened Wrappers
  import opened MachineInts
  import opened Text
  import opened HeroErrors
  import opened HeroRules
  import opened HeroSheets
  import opened HeroDocuments
  import opened HeroCharacters
  import opened HeroDrafts

  // ----- Audits and outcome

  datatype TransitionAudit = TransitionAudit(
    schemaVersion: U16, auditId: string, actorId: string, draftId: string, idempotencyKey: string,
    revisionBefore: U64, revisionAfter: U64, stepBefore: CreationStep, stepAfter: CreationStep,
    action: CreationAction, occurredAt: U64)
  {
    function Validate(): HeroCheck {
      var _ :- RequireSchema(schemaVersion, HERO_AUDIT_SCHEMA_VERSION);
      var _ :- RequireId(AuditId, auditId);
      var _ :- RequireId(ActorId, actorId);
      var _ :- RequireId(DraftId, draftId);
      var _ :- RequireId(IdempotencyKey, idempotencyKey);
      var _ :- Require(
        && revisionBefore + 1 == revisionAfter
        && stepAfter.Ordinal() == stepBefore.Ordinal() + 1
        && occurredAt != 0,
        CreationAudit);
      var _ :- Require(!stepBefore.Committed?, CreationAuditStepBefore);
      Require(action == ActionOf(stepBefore), CreationAuditAction)
    }
  }

  /** The action that leaves a step. */
  function ActionOf(step: CreationStep): CreationAction {
    match step
    case AtCampaignTheme => CampaignThemeSelected
    case AtConcept => ConceptSelected
    case AtRules => RulesSelected
    case AtAbilityScores => AbilitiesAssigned
    case AtBackground => BackgroundSelected
    case AtEquipmentAndSpells => EquipmentAndSpellsSelected
    case AtPresentation => PresentationSet
    case AtReview => CreationAction.Reviewed
    case AtCommit => DraftCommitted
    case Committed => DraftCommitted
  }

  datatype CreatedAudit = CreatedAudit(
    schemaVersion: U16, auditId: string, actorId: string, draftId: string, characterId: string,
    campaignId: string, draftRevision: U64, choices: HeroChoices, derivedSheet: HeroSheet, occurredAt: U64)
  {
    function Validate(): HeroCheck {
      var _ :- RequireSchema(schemaVersion, HERO_AUDIT_SCHEMA_VERSION);
      var _ :- RequireId(AuditId, auditId);
      var _ :- RequireId(ActorId, actorId);
      var _ :- RequireId(DraftId, draftId);
      var _ :- RequireId(CharacterId, characterId);
      var _ :- RequireId(CampaignId, campaignId);
      var _ :- choices.Validate();
      var derived :- DeriveSheet(choices, One, []);
      Require(derivedSheet == derived && occurredAt != 0, CharacterCreatedAudit)
    }
  }

  datatype CreationOutcome = CreationOutcome(
    transition: TransitionAudit, character: Option<HeroCharacter>, created: Option<CreatedAudit>)

  function TransitionAuditOf(before: Draft, after: Draft, command: CreationCommand,
                             context: TrustedMutationContext): TransitionAudit {
    TransitionAudit(
      HERO_AUDIT_SCHEMA_VERSION, context.auditId, context.actorId, before.draftId,
      command.idempotencyKey, before.revision, after.revision, before.step, after.step,
      command.intent.Action(), context.occurredAt)
  }

  function CreatedAuditOf(before: Draft, after: Draft, hero: Hero, context: TrustedMutationContext): CreatedAudit {
    CreatedAudit(
      HERO_AUDIT_SCHEMA_VERSION, context.auditId, context.actorId, before.draftId, hero.characterId,
      hero.campaignId, after.revision, hero.choices, hero.sheet, context.occurredAt)
  }

  // ----- The guards and the effect, without the later re-validations

  /** The intent's own cross-field rule: skills and equipment against the class, prepared spells
      against intelligence. */
  function PayloadRule(d: Draft, intent: CreationIntent): HeroCheck
    requires ValidDraft(d) && d.step == intent.RequiredStep()
  {
    match intent
    case SelectBackground(selection) => selection.ValidateFor(d.class_.value.Class())
    case SelectEquipmentAndSpells(equipment, wizardSpells) =>
      var _ :- equipment.ValidateFor(d.class_.value);
      var modifier :- IntelligenceModifier(d.assignment.value);
      CheckSpells(d.class_.value, wizardSpells, modifier)
    case _ => Success(())
  }

  function CreationGuards(d: Draft, command: CreationCommand, context: TrustedMutationContext): HeroCheck
    requires ValidDraft(d)
  {
    var _ :- command.Validate();
    var _ :- context.Validate();
    var _ :- Require(command.draftId == d.draftId, DraftId);
    var _ :- Require(context.actorId == d.ownerId, ActorId);
    var _ :- Require(context.occurredAt <= d.expiresAt, ExpiresAt);
    var _ :- CheckRevision(d.revision, command.expectedRevision);
    if d.step != command.intent.RequiredStep() then
      Failure(DraftStepMismatch(command.intent.RequiredStep().Ordinal(), d.step.Ordinal()))
    else
      var _ :- PayloadRule(d, command.intent);
      Require(d.revision < U64_MAX, Revision)
  }

  /** The payload of an intent stored and the step moved on by one. */
  function Stepped(d: Draft, intent: CreationIntent): Draft {
    match intent
    case SelectCampaignTheme(pins) => d.(pins := Some(pins), step := AtConcept)
    case SelectConcept(concept) => d.(concept := Some(concept), step := AtRules)
    case SelectRules(ancestry, class_) =>
      d.(ancestry := Some(ancestry), class_ := Some(class_), step := AtAbilityScores)
    case AssignAbilities(assignment) => d.(assignment := Some(assignment), step := AtBackground)
    case SelectBackground(selection) => d.(background := Some(selection), step := AtEquipmentAndSpells)
    case SelectEquipmentAndSpells(equipment, wizardSpells) =>
      d.(equipment := Some(equipment), wizardSpells := wizardSpells, step := AtPresentation)
    case SetPresentation(presentation) => d.(presentation := Some(presentation), step := AtReview)
    case Review => d.(reviewed := true, step := AtCommit)
    case Commit(characterId) => d.(committedCharacterId := Some(characterId), step := Committed)
  }

  function Advanced(d: Draft, intent: CreationIntent): Draft
    requires d.revision < U64_MAX
  {
    Stepped(d, intent).(revision := d.revision + 1)
  }

  lemma SteppedKeepsEnvelope(d: Draft, intent: CreationIntent)
    ensures var next := Stepped(d, intent);
      (next.revision, next.draftId, next.campaignId, next.ownerId) == (d.revision, d.draftId, d.campaignId, d.ownerId)
  {
  }

  lemma StepMovesByOne(d: Draft, intent: CreationIntent)
    requires d.step == intent.RequiredStep()
    ensures Stepped(d, intent).step.Ordinal() == d.step.Ordinal() + 1
    ensures ActionOf(d.step) == intent.Action() && !d.step.Committed?
  {
  }

  /** The guards alone make the advanced draft valid. */
  lemma AdvanceKeepsValid(d: Draft, command: CreationCommand, context: TrustedMutationContext)
    requires ValidDraft(d) && CreationGuards(d, command, context).Success?
    ensures ValidDraft(Advanced(d, command.intent))
    ensures Advanced(d, command.intent).step.Ordinal() == d.step.Ordinal() + 1
  {
    hide HeroPins.Validate, StandardArrayAssignment.Validate, BackgroundSelection.ValidateFor,
      EquipmentSelection.ValidateFor, HeroPresentation.Validate, CheckSpells;
  }

  function HeroOf(d: Draft, characterId: string): Hero
    requires ValidDraft(d) && d.step.Ordinal() >= 7
  {
    CompleteDraftsHaveValidChoices(d);
    NewHero(characterId, d.campaignId, d.ownerId, d.ToChoices().value)
  }

  class HeroCreationDraft {
    var schemaVersion: U16
    var draftId: string
    var campaignId: string
    var ownerId: string
    var revision: U64
    var expiresAt: U64
    var step: CreationStep
    var pins: Option<HeroPins>
    var concept: Option<HeroConceptId>
    var ancestry: Option<AncestryId>
    var class_: Option<ClassSelection>
    var assignment: Option<StandardArrayAssignment>
    var background: Option<BackgroundSelection>
    var equipment: Option<EquipmentSelection>
    var wizardSpells: Option<WizardSpellSelection>
    var presentation: Option<HeroPresentation>
    var reviewed: bool
    var committedCharacterId: Option<string>

    function View(): Draft
      reads this
    {
      Draft(schemaVersion, draftId, campaignId, ownerId, revision, expiresAt, step, pins, concept,
            ancestry, class_, assignment, background, equipment, wizardSpells, presentation, reviewed,
            committedCharacterId)
    }

    constructor Of(doc: Draft)
      ensures View() == doc
    {
      schemaVersion, draftId, campaignId, ownerId := doc.schemaVersion, doc.draftId, doc.campaignId, doc.ownerId;
      revision, expiresAt, step, pins, concept := doc.revision, doc.expiresAt, doc.step, doc.pins, doc.concept;
      ancestry, class_, assignment, background := doc.ancestry, doc.class_, doc.assignment, doc.background;
      equipment, wizardSpells, presentation := doc.equipment, doc.wizardSpells, doc.presentation;
      reviewed, committedCharacterId := doc.reviewed, doc.committedCharacterId;
    }

    method ReplaceEnvelope(doc: Draft)
      modifies `schemaVersion, `draftId, `campaignId, `ownerId, `revision, `expiresAt, `step, `reviewed, `committedCharacterId
      ensures schemaVersion == doc.schemaVersion && draftId == doc.draftId && campaignId == doc.campaignId
      ensures ownerId == doc.ownerId && revision == doc.revision && expiresAt == doc.expiresAt
      ensures step == doc.step && reviewed == doc.reviewed && committedCharacterId == doc.committedCharacterId
    {
      schemaVersion, draftId, campaignId, ownerId := doc.schemaVersion, doc.draftId, doc.campaignId, doc.ownerId;
      revision, expiresAt, step := doc.revision, doc.expiresAt, doc.step;
      reviewed, committedCharacterId := doc.reviewed, doc.committedCharacterId;
    }

    method ReplaceSelections(doc: Draft)
      modifies `pins, `concept, `ancestry, `class_, `assignment, `background, `equipment, `wizardSpells, `presentation
      ensures pins == doc.pins && concept == doc.concept && ancestry == doc.ancestry && class_ == doc.class_
      ensures assignment == doc.assignment && background == doc.background && equipment == doc.equipment
      ensures wizardSpells == doc.wizardSpells && presentation == doc.presentation
    {
      pins, concept, ancestry, class_ := doc.pins, doc.concept, doc.ancestry, doc.class_;
      assignment, background, equipment := doc.assignment, doc.background, doc.equipment;
      wizardSpells, presentation := doc.wizardSpells, doc.presentation;
    }

    method Replace(doc: Draft)
      modifies this
      ensures View() == doc
    {
      ReplaceSelections(doc);
      ReplaceEnvelope(doc);
    }

    static method New(draftId: string, campaignId: string, ownerId: string, expiresAt: U64)
      returns (r: HeroResult<HeroCreationDraft>)
      ensures r.Success? <==>
        IsOpaqueId(draftId) && IsOpaqueId(campaignId) && IsOpaqueId(ownerId) && expiresAt != 0
      ensures r.Success? ==>
        && fresh(r.value) && r.value.View() == NewDraft(draftId, campaignId, ownerId, expiresAt)
        && ValidDraft(r.value.View())
      ensures r.Success? ==>
        && r.value.draftId == draftId && r.value.campaignId == campaignId && r.value.ownerId == ownerId
        && r.value.expiresAt == expiresAt && r.value.revision == 0 && r.value.step == AtCampaignTheme
    {
      var draft := new HeroCreationDraft.Of(NewDraft(draftId, campaignId, ownerId, expiresAt));
      DraftValidationIsExact(draft.View());
      var validated :- ValidateDraft(draft.View());
      return Success(draft);
    }

    /** One creation step by the draft's owner. It succeeds exactly when the guards hold; no later
        check can reject, and on an error the draft is unchanged. */
    method ApplyTrusted(command: CreationCommand, context: TrustedMutationContext)
      returns (r: HeroResult<CreationOutcome>)
      modifies this
      ensures !ValidDraft(old(View())) ==> r.Failure? && View() == old(View())
      ensures ValidDraft(old(View())) ==>
        var guards := CreationGuards(old(View()), command, context);
        && (guards.Failure? ==> r == Failure(guards.error) && View() == old(View()))
        && (guards.Success? ==>
              && View() == Advanced(old(View()), command.intent) && ValidDraft(View())
              && r.Success?
              && r.value.transition == TransitionAuditOf(old(View()), View(), command, context)
              && r.value.character.Some? == r.value.created.Some? == command.intent.Commit?)
      ensures r.Success? ==>
        && command.draftId == old(draftId) && context.actorId == old(ownerId)
        && context.occurredAt <= old(expiresAt) && command.expectedRevision == old(revision)
      ensures ValidDraft(old(View())) && r.Success? && command.intent.Commit? ==>
        var hero := HeroOf(old(View()), command.intent.characterId);
        && fresh(r.value.character.value) && r.value.character.value.View() == hero
        && r.value.created.value == CreatedAuditOf(old(View()), View(), hero, context)
    {
      hide ValidDraft, ValidateDraft, NewHero, Derived, PayloadRule, Stepped, HeroOf;
      ghost var before := View();
      DraftValidationIsExact(View());
      var validated :- ValidateDraft(View());
      var commandChecked :- command.Validate();
      var contextChecked :- context.Validate();
      var targetChecked :- Require(command.draftId == draftId, DraftId);
      var actorChecked :- Require(context.actorId == ownerId, ActorId);
      var expiryChecked :- Require(!(context.occurredAt > expiresAt), ExpiresAt);
      var revisionChecked :- CheckRevision(revision, command.expectedRevision);
      var expected := command.intent.RequiredStep();
      if step != expected {
        return Failure(DraftStepMismatch(expected.Ordinal(), step.Ordinal()));
      }
      var applied :- ApplyIntent(View(), command.intent);
      var candidate, character := applied.0, applied.1;
      SteppedKeepsEnvelope(before, command.intent);
      if candidate.revision == U64_MAX {
        return Invalid(Revision);
      }
      candidate := candidate.(revision := candidate.revision + 1);
      AdvanceKeepsValid(before, command, context);
      DraftValidationIsExact(candidate);
      if ValidateDraft(candidate).Failure? { assert false; }
      var transition := TransitionAuditOf(View(), candidate, command, context);
      TransitionAuditPasses(before, command, context);
      if transition.Validate().Failure? { assert false; }
      var created: Option<CreatedAudit> := None;
      if character.Some? {
        var audit := CreatedAuditOf(View(), candidate, character.value.View(), context);
        CreatedAuditPasses(before, command, context);
        if audit.Validate().Failure? { assert false; }
        created := Some(audit);
      }
      Replace(candidate);
      return Success(CreationOutcome(transition, character, created));
    }
  }

  lemma TransitionAuditPasses(d: Draft, command: CreationCommand, context: TrustedMutationContext)
    requires ValidDraft(d) && CreationGuards(d, command, context).Success?
    ensures TransitionAuditOf(d, Advanced(d, command.intent), command, context).Validate().Success?
  {
    hide Stepped, PayloadRule;
    StepMovesByOne(d, command.intent);
    SteppedKeepsEnvelope(d, command.intent);
  }

  /** What the guards of a commit give its audit. */
  lemma CommitFacts(d: Draft, command: CreationCommand, context: TrustedMutationContext)
    requires ValidDraft(d) && CreationGuards(d, command, context).Success? && command.intent.Commit?
    ensures d.revision < U64_MAX && d.step.Ordinal() >= 7
    ensures d.ToChoices().Success? && d.ToChoices().value.Valid()
    ensures IsOpaqueId(d.draftId) && IsOpaqueId(d.campaignId) && IsOpaqueId(command.intent.characterId)
    ensures context.Validate().Success?
  {
    hide HeroPins.Validate, StandardArrayAssignment.Validate, BackgroundSelection.ValidateFor,
      EquipmentSelection.ValidateFor, HeroPresentation.Validate, CheckSpells;
    CompleteDraftsHaveValidChoices(d);
  }

  /** An audit of valid choices with the sheet derived from them validates. */
  lemma AuditOfDerivedSheet(audit: CreatedAudit)
    requires audit.schemaVersion == HERO_AUDIT_SCHEMA_VERSION && audit.occurredAt != 0
    requires IsOpaqueId(audit.auditId) && IsOpaqueId(audit.actorId) && IsOpaqueId(audit.draftId)
    requires IsOpaqueId(audit.characterId) && IsOpaqueId(audit.campaignId)
    requires audit.choices.Valid() && audit.derivedSheet == Derived(audit.choices, One)
    ensures audit.Validate().Success?
  {
    DerivationSucceedsIff(audit.choices, One, []);
    hide Derived, DeriveSheet, IsOpaqueId;
  }

  lemma CreatedAuditPasses(d: Draft, command: CreationCommand, context: TrustedMutationContext)
    requires ValidDraft(d) && CreationGuards(d, command, context).Success? && command.intent.Commit?
    ensures CreatedAuditOf(d, Advanced(d, command.intent), HeroOf(d, command.intent.characterId), context)
      .Validate().Success?
  {
    CommitFacts(d, command, context);
    hide ValidDraft, CreationGuards, Advanced, Draft.ToChoices, HeroChoices.Validate, Derived, IsOpaqueId,
      CreatedAudit.Validate;
    AuditOfDerivedSheet(
      CreatedAuditOf(d, Advanced(d, command.intent), HeroOf(d, command.intent.characterId), context));
  }

  /** The intent's branch: its own checks, its payload and its step, on a copy of the draft. */
  method ApplyIntent(before: Draft, intent: CreationIntent)
    returns (r: HeroResult<(Draft, Option<HeroCharacter>)>)
    requires ValidDraft(before) && before.step == intent.RequiredStep()
    requires intent.Commit? ==> IsOpaqueId(intent.characterId)
    requires intent.AssignAbilities? ==> intent.assignment.Validate().Success?
    requires intent.SetPresentation? ==> intent.presentation.Validate().Success?
    ensures var rule := PayloadRule(before, intent);
      && (rule.Failure? ==> r == Failure(rule.error))
      && (rule.Success? ==> r.Success? && r.value.0 == Stepped(before, intent) && r.value.1.Some? == intent.Commit?)
    ensures r.Success? && intent.Commit? ==>
      fresh(r.value.1.value) && r.value.1.value.View() == HeroOf(before, intent.characterId)
  {
    hide NewHero, Derived;
    var candidate := before;
    var character: Option<HeroCharacter> := None;
    match intent {
      case SelectCampaignTheme(pins) =>
        candidate := candidate.(pins := Some(pins), step := AtConcept);
      case SelectConcept(concept) =>
        candidate := candidate.(concept := Some(concept), step := AtRules);
      case SelectRules(ancestry, class_) =>
        candidate := candidate.(ancestry := Some(ancestry), class_ := Some(class_), step := AtAbilityScores);
      case AssignAbilities(assignment) =>
        if assignment.Validate().Failure? { assert false; }
        candidate := candidate.(assignment := Some(assignment), step := AtBackground);
      case SelectBackground(selection) =>
        var fits :- selection.ValidateFor(candidate.class_.value.Class());
        candidate := candidate.(background := Some(selection), step := AtEquipmentAndSpells);
      case SelectEquipmentAndSpells(equipment, wizardSpells) =>
        var fits :- equipment.ValidateFor(candidate.class_.value);
        AssignmentScores(candidate.assignment.value);
        var human := candidate.assignment.value.HumanScores();
        if human.Failure? { assert false; }
        var spellsFit :- CheckSpells(candidate.class_.value, wizardSpells, Modifier(human.value.intelligence));
        candidate := candidate.(equipment := Some(equipment), wizardSpells := wizardSpells, step := AtPresentation);
      case SetPresentation(presentation) =>
        if presentation.Validate().Failure? { assert false; }
        candidate := candidate.(presentation := Some(presentation), step := AtReview);
      case Review =>
        CompleteDraftsHaveValidChoices(candidate);
        var choices := candidate.ToChoices();
        if choices.Failure? { assert false; }
        if choices.value.Validate().Failure? { assert false; }
        candidate := candidate.(reviewed := true, step := AtCommit);
      case Commit(characterId) =>
        CompleteDraftsHaveValidChoices(candidate);
        var choices := candidate.ToChoices();
        if choices.Failure? { assert false; }
        var made := HeroCharacter.Create(characterId, candidate.campaignId, candidate.ownerId, choices.value);
        if made.Failure? { assert false; }
        candidate := candidate.(committedCharacterId := Some(characterId), step := Committed);
        character := Some(made.value);
    }
    return Success((candidate, character));
  }

  function NewDraft(draftId: string, campaignId: string, ownerId: string, expiresAt: U64): Draft {
    Draft(HERO_DRAFT_SCHEMA_VERSION, draftId, campaignId, ownerId, 0, expiresAt, AtCampaignTheme,
          None, None, None, None, None, None, None, None, None, false, None)
  }
}
