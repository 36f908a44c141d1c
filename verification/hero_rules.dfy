// The creation choices of a hero and the rules that bound them
// (crates/game-core/src/hero.rs, lines 62-792 and 1288-1342).

module HeroErrors {
  import opened Wrappers
  import opened MachineInts
  import opened Text

  /** The document fields an `InvalidField` error can name. */
  datatype Field =
    | AbilityAssignment | ActorId | AdvancementChoices | Ancestry | ArmorClass | Attacks
    | AuditId | Background | BackgroundClassSkills | CampaignId | CharacterCreatedAudit
    | CharacterId | Class | CommittedCharacterId | Concept | CoreContent | CreationAudit
    | CreationAuditAction | CreationAuditStepBefore | CurrentHitPoints | DisplayName | DraftId
    | Equipment | EquipmentCarried | EquipmentArmor | EquipmentShield | EquipmentSimpleWeapon
    | ExperiencePoints | ExpiresAt | FightingStyle | IdempotencyKey | LevelField | LevelUpAudit
    | LevelUpChoiceField | OccurredAt | OwnerAccountId | OwnerId | Pins | PinsDigest
    | Presentation | PresentationToneLimits | ResourceCurrents | Revision | Reviewed
    | RewardAudit | RuntimeCharacterId | Sheet | SheetCurrentHitPoints | SheetResources
    | SheetResourcesCurrent | SpellSaveDc | Theme | WizardSpells | WizardSpellsList
    | WizardSpellsPrepared

  /** The engine's errors; the fixed human-readable reasons are not modelled. */
  datatype HeroError =
    | InvalidSchemaVersion(expected: U16, actual: U16)
    | InvalidField(field: Field)
    | DraftStepMismatch(expectedOrdinal: nat, actualOrdinal: nat)
    | StaleRevision(expectedRevision: U64, actualRevision: U64)
    | UnsupportedLevelThree

  type HeroResult<+T> = Result<T, HeroError>
  type HeroCheck = Result<(), HeroError>

  function Invalid<T>(field: Field): HeroResult<T> { Failure(InvalidField(field)) }

  function Require(condition: bool, field: Field): HeroCheck {
    Check(condition, InvalidField(field))
  }

  function RequireSchema(actual: U16, expected: U16): HeroCheck {
    Check(actual == expected, InvalidSchemaVersion(expected, actual))
  }

  function RequireId(field: Field, value: string): HeroCheck {
    Require(IsOpaqueId(value), field)
  }

  function CheckRevision(actual: U64, expected: U64): HeroCheck {
    Check(actual == expected, StaleRevision(expected, actual))
  }
}

module HeroRules {
  import opened Wrappers
  import opened MachineInts
  import opened Text
  import opened Sorting
  import opened HeroErrors

  // ----- Content pins

  datatype RulesetId = Srd51
  datatype ThemeId = RainboundBorough | EmberlineArchive
  datatype PackId = CorePack | RainboundPack | EmberlinePack | OtherPack(id: string)
  datatype PackVersion = MvpVersion | OtherVersion(text: string)

  /** The nine retained digests, and every other digest. */
  datatype PackDigest =
    | CoreCurrent | RainboundCurrent | EmberlineCurrent
    | CorePreLive | RainboundPreLive | EmberlinePreLive
    | CoreDev | RainboundDev | EmberlineDev
    | OtherDigest(text: string)

  datatype PackPin = PackPin(packId: PackId, version: PackVersion, digest: PackDigest)

  function ThemePack(theme: ThemeId): PackId {
    match theme
    case RainboundBorough => RainboundPack
    case EmberlineArchive => EmberlinePack
  }

  function CheckPin(field: Field, pin: PackPin, expected: PackId): HeroCheck {
    Require(pin.packId == expected && pin.version == MvpVersion, field)
  }

  datatype HeroPins = HeroPins(rulesetId: RulesetId, coreContent: PackPin, themeId: ThemeId, theme: PackPin) {
    predicate IsCurrent() {
      && coreContent.digest == CoreCurrent
      && theme.digest == (if themeId.RainboundBorough? then RainboundCurrent else EmberlineCurrent)
    }

    predicate IsLegacyDevAlias() {
      || (&& coreContent.digest == CoreDev
          && theme.digest == if themeId.RainboundBorough? then RainboundDev else EmberlineDev)
      || (&& coreContent.digest == CorePreLive
          && theme.digest == if themeId.RainboundBorough? then RainboundPreLive else EmberlinePreLive)
    }

    function Validate(): HeroCheck {
      var _ :- CheckPin(CoreContent, coreContent, CorePack);
      var _ :- CheckPin(Theme, theme, ThemePack(themeId));
      Require(IsCurrent() || IsLegacyDevAlias(), PinsDigest)
    }
  }

  datatype HeroConceptId = CanalGuardian | ArchiveSeeker
  datatype AncestryId = Human

  // ----- Classes and skills

  datatype Ability = Strength | Dexterity | Constitution | Intelligence | Wisdom | Charisma
  datatype HeroClass = Fighter | Wizard
  datatype FightingStyleId = Defense | Dueling

  datatype ClassSelection = FighterClass(style: FightingStyleId) | WizardClass {
    function Class(): HeroClass {
      if FighterClass? then Fighter else Wizard
    }
  }

  datatype SkillId =
    | Acrobatics | AnimalHandling | Arcana | Athletics | Deception | History | Insight
    | Intimidation | Investigation | Medicine | Nature | Perception | Performance | Persuasion
    | Religion | SleightOfHand | Stealth | Survival
  {
    function Ord(): nat {
      match this
      case Acrobatics => 0 case AnimalHandling => 1 case Arcana => 2 case Athletics => 3
      case Deception => 4 case History => 5 case Insight => 6 case Intimidation => 7
      case Investigation => 8 case Medicine => 9 case Nature => 10 case Perception => 11
      case Performance => 12 case Persuasion => 13 case Religion => 14 case SleightOfHand => 15
      case Stealth => 16 case Survival => 17
    }

    function GoverningAbility(): Ability {
      match this
      case Athletics => Strength
      case Acrobatics | SleightOfHand | Stealth => Dexterity
      case Arcana | History | Investigation | Nature | Religion => Intelligence
      case AnimalHandling | Insight | Medicine | Perception | Survival => Wisdom
      case Deception | Intimidation | Performance | Persuasion => Charisma
    }
  }

  const ALL_SKILLS: seq<SkillId> := [
    Acrobatics, AnimalHandling, Arcana, Athletics, Deception, History, Insight, Intimidation,
    Investigation, Medicine, Nature, Perception, Performance, Persuasion, Religion,
    SleightOfHand, Stealth, Survival]

  predicate SkillLeq(a: SkillId, b: SkillId) { a.Ord() <= b.Ord() }

  function ClassSkillChoices(class_: HeroClass): seq<SkillId> {
    match class_
    case Fighter =>
      [Acrobatics, AnimalHandling, Athletics, History, Insight, Intimidation, Perception, Survival]
    case Wizard => [Arcana, History, Insight, Investigation, Medicine, Religion]
  }

  datatype BackgroundId = Soldier | Sage {
    function Skills(): seq<SkillId> {
      if Soldier? then [Athletics, Intimidation] else [Arcana, History]
    }
  }

  datatype BackgroundSelection = BackgroundSelection(background: BackgroundId, classSkills: seq<SkillId>) {
    function ValidateFor(class_: HeroClass): HeroCheck {
      var _ :- Require(StrictlySorted(SkillLeq, classSkills), BackgroundClassSkills);
      var _ :- Require(|classSkills| == 2, BackgroundClassSkills);
      Require(
        forall i :: 0 <= i < |classSkills| ==>
          classSkills[i] in ClassSkillChoices(class_) && classSkills[i] !in background.Skills(),
        BackgroundClassSkills)
    }

    /** The class skills extended by the background's own, sorted. */
    function AllSkills(): seq<SkillId> {
      Sort(SkillLeq, classSkills + background.Skills())
    }
  }

  // ----- Ability assignment

  predicate ScoreLeq(a: int, b: int) { a <= b }

  const STANDARD_ARRAY: seq<int> := [8, 10, 12, 13, 14, 15]

  /** A rules-valid score, 1 to 30 (crates/game-core/src/ability.rs). */
  type AbilityScore = x: int | 1 <= x <= 30 witness 1

  /** `(score - 10)` halved toward negative infinity; Dafny's `/` is Euclidean too. */
  function Modifier(score: AbilityScore): I8 { (score - 10) / 2 }

  datatype AbilityScores = AbilityScores(
    strength: AbilityScore, dexterity: AbilityScore, constitution: AbilityScore,
    intelligence: AbilityScore, wisdom: AbilityScore, charisma: AbilityScore)
  {
    function Get(ability: Ability): AbilityScore {
      match ability
      case Strength => strength
      case Dexterity => dexterity
      case Constitution => constitution
      case Intelligence => intelligence
      case Wisdom => wisdom
      case Charisma => charisma
    }
  }

  /** `AbilityScores::new`: every score must lie in 1 to 30. */
  function NewScores(s: int, d: int, c: int, i: int, w: int, h: int): HeroResult<AbilityScores> {
    if 1 <= s <= 30 && 1 <= d <= 30 && 1 <= c <= 30 && 1 <= i <= 30 && 1 <= w <= 30 && 1 <= h <= 30
    then Success(AbilityScores(s, d, c, i, w, h))
    else Invalid(AbilityAssignment)
  }

  datatype StandardArrayAssignment = StandardArrayAssignment(
    strength: U8, dexterity: U8, constitution: U8, intelligence: U8, wisdom: U8, charisma: U8)
  {
    function Values(): seq<int> {
      [strength, dexterity, constitution, intelligence, wisdom, charisma]
    }

    /** Sorts a copy and compares it with the standard array. */
    function Validate(): HeroCheck {
      Require(Sort(ScoreLeq, Values()) == STANDARD_ARRAY, AbilityAssignment)
    }

    function BaseScores(): HeroResult<AbilityScores> {
      var _ :- Validate();
      NewScores(strength, dexterity, constitution, intelligence, wisdom, charisma)
    }

    function HumanScores(): HeroResult<AbilityScores> {
      var _ :- Validate();
      NewScores(strength + 1, dexterity + 1, constitution + 1, intelligence + 1, wisdom + 1, charisma + 1)
    }
  }

  /** Sort-and-compare accepts exactly the permutations of the standard array. */
  lemma AssignmentIsPermutation(a: StandardArrayAssignment)
    ensures a.Validate().Success? <==> multiset(a.Values()) == multiset(STANDARD_ARRAY)
  {
    SortMatches(ScoreLeq, a.Values(), STANDARD_ARRAY);
  }

  lemma StandardArrayRange(values: seq<int>)
    requires multiset(values) == multiset(STANDARD_ARRAY)
    ensures forall i :: 0 <= i < |values| ==> 8 <= values[i] <= 15
  {
    forall i | 0 <= i < |values|
      ensures 8 <= values[i] <= 15
    {
      assert values[i] in multiset(values);
      assert values[i] in STANDARD_ARRAY;
    }
  }

  lemma AssignmentRange(a: StandardArrayAssignment)
    requires a.Validate().Success?
    ensures 8 <= a.strength <= 15 && 8 <= a.dexterity <= 15 && 8 <= a.constitution <= 15
    ensures 8 <= a.intelligence <= 15 && 8 <= a.wisdom <= 15 && 8 <= a.charisma <= 15
  {
    hide StandardArrayAssignment.Validate, Sort;
    var v := a.Values();
    assert forall i :: 0 <= i < |v| ==> 8 <= v[i] <= 15 by {
      AssignmentIsPermutation(a);
      StandardArrayRange(v);
    }
    assert v[0] == a.strength && v[1] == a.dexterity && v[2] == a.constitution;
    assert v[3] == a.intelligence && v[4] == a.wisdom && v[5] == a.charisma;
  }

  /** A valid assignment always yields both score blocks, one point apart. */
  lemma AssignmentScores(a: StandardArrayAssignment)
    requires a.Validate().Success?
    ensures a.BaseScores().Success? && a.HumanScores().Success?
    ensures a.BaseScores().value == AbilityScores(
      a.strength, a.dexterity, a.constitution, a.intelligence, a.wisdom, a.charisma)
    ensures a.HumanScores().value == AbilityScores(
      a.strength + 1, a.dexterity + 1, a.constitution + 1, a.intelligence + 1, a.wisdom + 1, a.charisma + 1)
  {
    AssignmentRange(a);
  }

  // ----- Equipment

  datatype EquipmentId =
    | SimpleWeapons | Longsword | LightCrossbow | Shield | ChainMail | LeatherArmor
    | ExplorersPack | ScholarsPack | Spellbook | ArcaneFocus
  {
    function Ord(): nat {
      match this
      case SimpleWeapons => 0 case Longsword => 1 case LightCrossbow => 2 case Shield => 3
      case ChainMail => 4 case LeatherArmor => 5 case ExplorersPack => 6 case ScholarsPack => 7
      case Spellbook => 8 case ArcaneFocus => 9
    }
  }

  const EQUIPMENT_KINDS := 10

  predicate EquipmentLeq(a: EquipmentId, b: EquipmentId) { a.Ord() <= b.Ord() }

  datatype SimpleWeaponId =
    | Club | Dagger | Greatclub | Handaxe | Javelin | LightHammer | Mace | Quarterstaff | Sickle | Spear
  {
    predicate WizardAllowed() { Dagger? || Quarterstaff? }
    predicate IsTwoHanded() { Greatclub? }
  }

  datatype EquipmentSelection = EquipmentSelection(
    carried: seq<EquipmentId>,
    simpleWeapon: Option<SimpleWeaponId>,
    equippedArmor: Option<EquipmentId>,
    shieldEquipped: bool)
  {
    predicate ArmorMatches() {
      match equippedArmor
      case Some(armor) => (armor.ChainMail? || armor.LeatherArmor?) && armor in carried
      case None => ChainMail !in carried && LeatherArmor !in carried
    }

    function CountOf(a: EquipmentId, b: EquipmentId): nat {
      (if a in carried then 1 else 0) + (if b in carried then 1 else 0)
    }

    function ValidateFor(class_: ClassSelection): HeroCheck {
      var _ :- Require(StrictlySorted(EquipmentLeq, carried), EquipmentCarried);
      var _ :- Require(|carried| <= EQUIPMENT_KINDS, EquipmentCarried);
      var _ :- Require((SimpleWeapons in carried) == simpleWeapon.Some?, EquipmentSimpleWeapon);
      var _ :- Require(!(ChainMail in carried && LeatherArmor in carried), EquipmentCarried);
      var _ :- Require(shieldEquipped == (Shield in carried), EquipmentShield);
      var _ :- Require(ArmorMatches(), EquipmentArmor);
      match class_
      case FighterClass(style) =>
        var twoHanded := simpleWeapon.Some? && simpleWeapon.value.IsTwoHanded();
        var _ :- Require(
          && CountOf(ChainMail, LeatherArmor) == 1
          && CountOf(SimpleWeapons, Longsword) == 1
          && LightCrossbow in carried && ExplorersPack in carried
          && ScholarsPack !in carried && Spellbook !in carried && ArcaneFocus !in carried,
          Equipment);
        var _ :- Require(!(twoHanded && shieldEquipped), Equipment);
        Require(!(style.Dueling? && twoHanded), FightingStyle)
      case WizardClass =>
        Require(
          && carried == [SimpleWeapons, ScholarsPack, Spellbook, ArcaneFocus]
          && equippedArmor.None? && !shieldEquipped
          && simpleWeapon.Some? && simpleWeapon.value.WizardAllowed(),
          Equipment)
    }
  }

  /** The length test on carried items can never reject what the sort test let through. */
  lemma CarriedListIsNeverTooLong(carried: seq<EquipmentId>)
    requires StrictlySorted(EquipmentLeq, carried)
    ensures |carried| <= EQUIPMENT_KINDS
  {
    if |carried| > EQUIPMENT_KINDS {
      ItemsClimb(carried, EQUIPMENT_KINDS);
    }
  }

  lemma {:induction false} ItemsClimb(carried: seq<EquipmentId>, i: nat)
    requires StrictlySorted(EquipmentLeq, carried) && i < |carried|
    ensures carried[i].Ord() >= i
  {
    if i > 0 {
      ItemsClimb(carried, i - 1);
    }
  }

  /** Two accepted carried lists with the same items are the same list: the saved form of a loadout
      is unique. */
  lemma CarriedListIsCanonical(a: seq<EquipmentId>, b: seq<EquipmentId>)
    requires StrictlySorted(EquipmentLeq, a) && StrictlySorted(EquipmentLeq, b)
    requires forall item :: item in a <==> item in b
    ensures a == b
  {
    CanonicalListsAgree(EquipmentLeq, a, b);
  }

  // ----- Wizard spells

  datatype SpellId = FireBolt | Light | MageHand | MagicMissile | ShieldSpell | Sleep {
    function Ord(): nat {
      match this
      case FireBolt => 0 case Light => 1 case MageHand => 2
      case MagicMissile => 3 case ShieldSpell => 4 case Sleep => 5
    }
  }

  predicate SpellLeq(a: SpellId, b: SpellId) { a.Ord() <= b.Ord() }

  const CANTRIPS: seq<SpellId> := [FireBolt, Light, MageHand]
  const LEVEL_ONE_SPELLS: seq<SpellId> := [MagicMissile, ShieldSpell, Sleep]

  function PreparedSpellCapacity(level: U8, intelligenceModifier: I8): (r: U8)
    ensures 1 <= r <= 3
  {
    var rules := if level + intelligenceModifier < 1 then 1 else level + intelligenceModifier;
    if rules < 3 then rules else 3
  }

  datatype WizardSpellSelection = WizardSpellSelection(
    cantrips: seq<SpellId>, spellbook: seq<SpellId>, prepared: seq<SpellId>)
  {
    function ValidateCreation(intelligenceModifier: I8): HeroCheck {
      var _ :- Require(StrictlySorted(SpellLeq, cantrips), WizardSpellsList);
      var _ :- Require(StrictlySorted(SpellLeq, spellbook), WizardSpellsList);
      var _ :- Require(StrictlySorted(SpellLeq, prepared), WizardSpellsPrepared);
      var _ :- Require(cantrips == CANTRIPS && spellbook == LEVEL_ONE_SPELLS, WizardSpells);
      Require(
        && |prepared| == PreparedSpellCapacity(1, intelligenceModifier)
        && forall i :: 0 <= i < |prepared| ==> prepared[i] in spellbook,
        WizardSpellsPrepared)
    }
  }

  /** A wizard needs a legal selection and a fighter must not have one. */
  function CheckSpells(class_: ClassSelection, spells: Option<WizardSpellSelection>,
                       intelligenceModifier: I8): HeroCheck {
    match (class_, spells)
    case (WizardClass, Some(selection)) => selection.ValidateCreation(intelligenceModifier)
    case (WizardClass, None) => Invalid(WizardSpells)
    case (FighterClass(_), None) => Success(())
    case (FighterClass(_), Some(_)) => Invalid(WizardSpells)
  }

  // ----- Presentation

  const MAX_NAME_CHARS := 80
  const MAX_PRONOUN_CHARS := 60
  const MAX_PRESENTATION_CHARS := 500
  const MAX_TONE_LIMIT_CHARS := 120
  const MAX_TONE_LIMITS := 8

  datatype HeroPresentation = HeroPresentation(
    name: string, pronouns: string, appearance: string, ideal: string, bond: string, flaw: string,
    toneLimits: seq<string>)
  {
    function Validate(): HeroCheck {
      var _ :- Require(IsProse(name, MAX_NAME_CHARS), Field.Presentation);
      var _ :- Require(IsProse(pronouns, MAX_PRONOUN_CHARS), Field.Presentation);
      var _ :- Require(IsProse(appearance, MAX_PRESENTATION_CHARS), Field.Presentation);
      var _ :- Require(IsProse(ideal, MAX_PRESENTATION_CHARS), Field.Presentation);
      var _ :- Require(IsProse(bond, MAX_PRESENTATION_CHARS), Field.Presentation);
      var _ :- Require(IsProse(flaw, MAX_PRESENTATION_CHARS), Field.Presentation);
      var _ :- Require(|toneLimits| <= MAX_TONE_LIMITS, PresentationToneLimits);
      CheckToneLimits(toneLimits, {})
    }
  }

  function CheckToneLimits(limits: seq<string>, seen: set<string>): HeroCheck {
    if limits == [] then Success(())
    else
      var _ :- Require(IsProse(limits[0], MAX_TONE_LIMIT_CHARS), PresentationToneLimits);
      var _ :- Require(limits[0] !in seen, PresentationToneLimits);
      CheckToneLimits(limits[1..], seen + {limits[0]})
  }

  /** The insert-and-test pass accepts exactly the duplicate-free lists of legal texts. */
  lemma {:induction false} ToneLimitsAreDistinctProse(limits: seq<string>, seen: set<string>)
    ensures CheckToneLimits(limits, seen).Success? <==>
      && (forall i :: 0 <= i < |limits| ==> IsProse(limits[i], MAX_TONE_LIMIT_CHARS) && limits[i] !in seen)
      && (forall i, j :: 0 <= i < j < |limits| ==> limits[i] != limits[j])
  {
    if limits != [] {
      var rest := limits[1..];
      ToneLimitsAreDistinctProse(rest, seen + {limits[0]});
      assert forall i :: 0 < i < |limits| ==> limits[i] == rest[i - 1];
      assert forall i :: 0 <= i < |rest| ==> rest[i] == limits[i + 1];
    }
  }

  // ----- The complete choice record

  datatype HeroChoices = HeroChoices(
    pins: HeroPins,
    concept: HeroConceptId,
    ancestry: AncestryId,
    class_: ClassSelection,
    assignment: StandardArrayAssignment,
    background: BackgroundSelection,
    equipment: EquipmentSelection,
    wizardSpells: Option<WizardSpellSelection>,
    presentation: HeroPresentation)
  {
    function Validate(): HeroCheck {
      var _ :- pins.Validate();
      var _ :- assignment.Validate();
      var _ :- background.ValidateFor(class_.Class());
      var _ :- equipment.ValidateFor(class_);
      var _ :- presentation.Validate();
      var human :- assignment.HumanScores();
      CheckSpells(class_, wizardSpells, Modifier(human.intelligence))
    }

    predicate Valid() { Validate().Success? }
  }

  // ----- Valid records exist

  function LoadoutFor(class_: ClassSelection): EquipmentSelection {
    match class_
    case FighterClass(_) =>
      EquipmentSelection([Longsword, LightCrossbow, ChainMail, ExplorersPack], None, Some(ChainMail), false)
    case WizardClass =>
      EquipmentSelection([SimpleWeapons, ScholarsPack, Spellbook, ArcaneFocus], Some(Dagger), None, false)
  }

  function SkillsFor(class_: HeroClass): seq<SkillId> {
    match class_
    case Fighter => [Acrobatics, AnimalHandling]
    case Wizard => [Insight, Investigation]
  }

  function SpellsFor(class_: ClassSelection, intelligenceModifier: I8): Option<WizardSpellSelection> {
    if class_.FighterClass? then None
    else Some(WizardSpellSelection(
      CANTRIPS, LEVEL_ONE_SPELLS, LEVEL_ONE_SPELLS[..PreparedSpellCapacity(1, intelligenceModifier)]))
  }

  lemma DefaultSkillsFit(class_: HeroClass, background: BackgroundId)
    ensures BackgroundSelection(background, SkillsFor(class_)).ValidateFor(class_).Success?
  {
  }

  lemma FighterLoadoutFits(style: FightingStyleId)
    ensures LoadoutFor(FighterClass(style)).ValidateFor(FighterClass(style)).Success?
  {
    var carried := LoadoutFor(FighterClass(style)).carried;
    assert carried[0] == Longsword && carried[1] == LightCrossbow && carried[2] == ChainMail && carried[3] == ExplorersPack;
  }

  lemma WizardLoadoutFits()
    ensures LoadoutFor(WizardClass).ValidateFor(WizardClass).Success?
  {
    assert LoadoutFor(WizardClass).carried[0] == SimpleWeapons;
  }

  lemma DefaultSpellsFit(class_: ClassSelection, intelligenceModifier: I8)
    ensures CheckSpells(class_, SpellsFor(class_, intelligenceModifier), intelligenceModifier).Success?
  {
  }

  /** No combination is a dead end: every class, style and background can be completed from every
      valid assignment, pins and presentation. */
  lemma EveryCombinationFits(pins: HeroPins, concept: HeroConceptId, class_: ClassSelection, background: BackgroundId,
                             assignment: StandardArrayAssignment, presentation: HeroPresentation)
    returns (choices: HeroChoices)
    requires pins.Validate().Success? && assignment.Validate().Success? && presentation.Validate().Success?
    ensures choices.Valid()
    ensures choices.pins == pins && choices.concept == concept && choices.class_ == class_
    ensures choices.assignment == assignment && choices.presentation == presentation
    ensures choices.background.background == background
  {
    AssignmentScores(assignment);
    var modifier := Modifier(assignment.HumanScores().value.intelligence);
    DefaultSkillsFit(class_.Class(), background);
    if class_.FighterClass? {
      FighterLoadoutFits(class_.style);
    } else {
      WizardLoadoutFits();
    }
    DefaultSpellsFit(class_, modifier);
    hide HeroPins.Validate, StandardArrayAssignment.Validate, BackgroundSelection.ValidateFor,
      EquipmentSelection.ValidateFor, HeroPresentation.Validate, CheckSpells;
    choices := HeroChoices(
      pins, concept, Human, class_, assignment, BackgroundSelection(background, SkillsFor(class_.Class())),
      LoadoutFor(class_), SpellsFor(class_, modifier), presentation);
  }

  lemma ExamplePins() returns (pins: HeroPins)
    ensures pins.Validate().Success?
  {
    pins := HeroPins(
      Srd51, PackPin(CorePack, MvpVersion, CoreCurrent), RainboundBorough,
      PackPin(RainboundPack, MvpVersion, RainboundCurrent));
  }

  lemma ExampleAssignment() returns (assignment: StandardArrayAssignment)
    ensures assignment.Validate().Success?
  {
    hide StandardArrayAssignment.Validate;
    assignment := StandardArrayAssignment(8, 10, 12, 13, 14, 15);
    assert assignment.Values() == STANDARD_ARRAY;
    AssignmentIsPermutation(assignment);
  }

  lemma ExamplePresentation() returns (presentation: HeroPresentation)
    ensures presentation.Validate().Success?
  {
    var word := "A";
    assert word[0] == 'A';
    presentation := HeroPresentation(word, word, word, word, word, word, []);
  }

  /** Valid records of both classes exist. */
  lemma ValidRecordsExist(class_: ClassSelection)
    ensures exists choices: HeroChoices :: choices.Valid() && choices.class_ == class_
  {
    var pins := ExamplePins();
    var assignment := ExampleAssignment();
    var presentation := ExamplePresentation();
    var choices := EveryCombinationFits(pins, CanalGuardian, class_, Soldier, assignment, presentation);
  }
}
