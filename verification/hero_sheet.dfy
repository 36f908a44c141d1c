// The derived hero sheet (crates/game-core/src/hero.rs, lines 796-1287 and 1376-1851).

module HeroSheets {
  import opened Wrappers
  import opened MachineInts
  import opened HeroErrors
  import opened HeroRules

  const HERO_SHEET_SCHEMA_VERSION: U16 := 1
  const PROFICIENCY_BONUS := 2

  datatype SupportedLevel = One | Two {
    function Value(): U8 { if One? then 1 else 2 }
  }

  datatype DerivationId = HeroDerivationV1 | OtherDerivation(text: string)
  datatype CapacityPolicyId = AuthoredStartingLoadoutV1 | OtherPolicy(text: string)

  datatype ActionCapability =
    | Attack | CastSupportedSpell | Dash | Disengage | Dodge | Help | Hide | Ready | Search
    | UseObject | SecondWindAction | ActionSurgeAction

  datatype DamageType = Bludgeoning | Piercing | Slashing | Fire | Force
  datatype RestKind = Short | Long

  datatype ResourceKind =
    | HitDiceD6 | HitDiceD10 | SecondWind | ActionSurge | LevelOneSpellSlots | ArcaneRecovery

  datatype FeatureId =
    | FightingStyleDefense | FightingStyleDueling | SecondWindFeature | ActionSurgeFeature
    | WizardSpellcasting | ArcaneRecoveryFeature | EvocationTradition | SculptSpells

  datatype FeatureAvailability = Active | DormantNoQualifyingSupportedSpell
  datatype FeatureSummary = FeatureSummary(feature: FeatureId, availability: FeatureAvailability)

  datatype AbilityModifiers = AbilityModifiers(
    strength: I8, dexterity: I8, constitution: I8, intelligence: I8, wisdom: I8, charisma: I8)
  {
    function Get(ability: Ability): I8 {
      match ability
      case Strength => strength
      case Dexterity => dexterity
      case Constitution => constitution
      case Intelligence => intelligence
      case Wisdom => wisdom
      case Charisma => charisma
    }

    /** The range reachable from legal scores; inside it no sum below leaves its width. */
    predicate Legal() {
      && -5 <= strength <= 10 && -5 <= dexterity <= 10 && -5 <= constitution <= 10
      && -5 <= intelligence <= 10 && -5 <= wisdom <= 10 && -5 <= charisma <= 10
    }
  }

  function ModifiersOf(scores: AbilityScores): (r: AbilityModifiers)
    ensures r.Legal()
  {
    AbilityModifiers(
      Modifier(scores.strength), Modifier(scores.dexterity), Modifier(scores.constitution),
      Modifier(scores.intelligence), Modifier(scores.wisdom), Modifier(scores.charisma))
  }

  datatype SavingThrowSummary = SavingThrowSummary(ability: Ability, proficient: bool, modifier: I8)
  datatype SkillSummary = SkillSummary(skill: SkillId, proficient: bool, modifier: I8)
  datatype PassiveValues = PassiveValues(perception: I8, investigation: I8, insight: I8)
  datatype DamageDice = DamageDice(count: U8, sides: U8, constant: I8)
  datatype WeaponChoice = SimpleWeapon(kind: SimpleWeaponId) | LongswordWeapon | LightCrossbowWeapon

  /** The attack identifier is a function of the weapon, plus every other text. */
  datatype AttackId = WeaponAttack(weapon: WeaponChoice) | OtherAttack(text: string)

  datatype AttackSummary = AttackSummary(
    attackId: AttackId, weapon: WeaponChoice, ability: Ability, attackBonus: I8, damage: DamageDice,
    damageType: DamageType, normalRangeFeet: U16, longRangeFeet: Option<U16>, versatileSides: Option<U8>)

  datatype ResourcePool = ResourcePool(
    resource: ResourceKind, current: U8, maximum: U8, recoversOn: RestKind)

  datatype EquipmentState = EquipmentState(
    carried: seq<EquipmentId>, simpleWeapon: Option<SimpleWeaponId>,
    equippedArmor: Option<EquipmentId>, shieldEquipped: bool, capacityPolicy: CapacityPolicyId)

  datatype SpellcastingSummary = SpellcastingSummary(
    ability: Ability, spellAttackBonus: I8, spellSaveDc: U8, cantrips: seq<SpellId>,
    spellbook: seq<SpellId>, prepared: seq<SpellId>, preparedCapacity: U8)

  datatype HeroSheet = HeroSheet(
    schemaVersion: U16,
    derivationId: DerivationId,
    level: SupportedLevel,
    proficiencyBonus: U8,
    baseScores: AbilityScores,
    abilityScores: AbilityScores,
    modifiers: AbilityModifiers,
    armorClass: U8,
    speedFeet: U8,
    maximumHitPoints: U16,
    currentHitPoints: U16,
    savingThrows: seq<SavingThrowSummary>,
    skills: seq<SkillSummary>,
    passiveValues: PassiveValues,
    attacks: seq<AttackSummary>,
    resources: seq<ResourcePool>,
    equipment: EquipmentState,
    spellcasting: Option<SpellcastingSummary>,
    features: seq<FeatureSummary>,
    actions: seq<ActionCapability>)

  datatype HitPointGrowthChoice = FixedAverage
  datatype ArcaneTraditionId = Evocation

  datatype LevelUpChoice =
    | FighterLevelUp(hitPoints: HitPointGrowthChoice)
    | WizardLevelUp(hitPoints: HitPointGrowthChoice, arcaneTradition: ArcaneTraditionId)
  {
    function Class(): HeroClass { if FighterLevelUp? then Fighter else Wizard }
  }

  // ----- Parts of the derivation

  function DeriveArmorClass(class_: ClassSelection, equipment: EquipmentSelection,
                            modifiers: AbilityModifiers): HeroResult<U8> {
    var _ :- equipment.ValidateFor(class_);
    var unarmored: HeroResult<int> :=
      match equipment.equippedArmor
      case Some(ChainMail) => Success(16)
      case Some(LeatherArmor) => Success(11 + modifiers.dexterity)
      case None => Success(10 + modifiers.dexterity)
      case Some(_) => Invalid(EquipmentArmor);
    var worn :- unarmored;
    var total := worn
      + (if equipment.shieldEquipped then 2 else 0)
      + (if class_ == FighterClass(Defense) then 1 else 0);
    if 0 <= total < 0x100 then Success(total) else Invalid(Field.ArmorClass)
  }

  function AtLeastOne(x: int): nat { if x < 1 then 1 else x }

  function DeriveMaximumHitPoints(class_: HeroClass, level: SupportedLevel,
                                  modifiers: AbilityModifiers): U16 {
    var constitution := modifiers.constitution;
    var levelOne := AtLeastOne((if class_.Fighter? then 10 else 6) + constitution);
    var levelTwo := AtLeastOne((if class_.Fighter? then 6 else 4) + constitution);
    levelOne + if level.Two? then levelTwo else 0
  }

  predicate SavingThrowProficient(class_: HeroClass, ability: Ability) {
    match class_
    case Fighter => ability.Strength? || ability.Constitution?
    case Wizard => ability.Intelligence? || ability.Wisdom?
  }

  function DeriveSavingThrow(class_: HeroClass, modifiers: AbilityModifiers, ability: Ability): SavingThrowSummary
    requires modifiers.Legal()
  {
    var proficient := SavingThrowProficient(class_, ability);
    SavingThrowSummary(
      ability, proficient, modifiers.Get(ability) + if proficient then PROFICIENCY_BONUS else 0)
  }

  function DeriveSavingThrows(class_: HeroClass, modifiers: AbilityModifiers): seq<SavingThrowSummary>
    requires modifiers.Legal()
  {
    [DeriveSavingThrow(class_, modifiers, Strength),
     DeriveSavingThrow(class_, modifiers, Dexterity),
     DeriveSavingThrow(class_, modifiers, Constitution),
     DeriveSavingThrow(class_, modifiers, Intelligence),
     DeriveSavingThrow(class_, modifiers, Wisdom),
     DeriveSavingThrow(class_, modifiers, Charisma)]
  }

  function DeriveSkill(proficientSkills: seq<SkillId>, modifiers: AbilityModifiers, skill: SkillId): SkillSummary
    requires modifiers.Legal()
  {
    var proficient := skill in proficientSkills;
    SkillSummary(
      skill, proficient,
      modifiers.Get(skill.GoverningAbility()) + if proficient then PROFICIENCY_BONUS else 0)
  }

  function DeriveSkills(proficientSkills: seq<SkillId>, modifiers: AbilityModifiers): (r: seq<SkillSummary>)
    requires modifiers.Legal()
    ensures |r| == |ALL_SKILLS|
    ensures forall i :: 0 <= i < |r| ==> r[i] == DeriveSkill(proficientSkills, modifiers, ALL_SKILLS[i])
  {
    seq(|ALL_SKILLS|, i requires 0 <= i < |ALL_SKILLS| =>
      DeriveSkill(proficientSkills, modifiers, ALL_SKILLS[i]))
  }

  /** The first entry for a skill; zero when there is none. */
  function SkillModifier(skills: seq<SkillSummary>, wanted: SkillId): I8 {
    if skills == [] then 0
    else if skills[0].skill == wanted then skills[0].modifier
    else SkillModifier(skills[1..], wanted)
  }

  lemma {:induction false} SkillModifierBound(skills: seq<SkillSummary>, wanted: SkillId)
    requires forall i :: 0 <= i < |skills| ==> -5 <= skills[i].modifier <= 12
    ensures -5 <= SkillModifier(skills, wanted) <= 12
  {
    if skills != [] && skills[0].skill != wanted {
      SkillModifierBound(skills[1..], wanted);
    }
  }

  function DerivePassiveValues(skills: seq<SkillSummary>): PassiveValues
    requires forall i :: 0 <= i < |skills| ==> -5 <= skills[i].modifier <= 12
  {
    SkillModifierBound(skills, Perception);
    SkillModifierBound(skills, Investigation);
    SkillModifierBound(skills, Insight);
    PassiveValues(
      10 + SkillModifier(skills, Perception),
      10 + SkillModifier(skills, Investigation),
      10 + SkillModifier(skills, Insight))
  }

  datatype WeaponProfile = WeaponProfile(
    sides: U8, damageType: DamageType, finesse: bool, longRange: Option<U16>, versatile: Option<U8>)

  function SimpleWeaponProfile(weapon: SimpleWeaponId): WeaponProfile {
    match weapon
    case Club => WeaponProfile(4, Bludgeoning, false, None, None)
    case Dagger => WeaponProfile(4, Piercing, true, Some(60), None)
    case Greatclub => WeaponProfile(8, Bludgeoning, false, None, None)
    case Handaxe => WeaponProfile(6, Slashing, false, Some(60), None)
    case Javelin => WeaponProfile(6, Piercing, false, Some(120), None)
    case LightHammer => WeaponProfile(4, Bludgeoning, false, Some(60), None)
    case Mace => WeaponProfile(6, Bludgeoning, false, None, None)
    case Quarterstaff => WeaponProfile(6, Bludgeoning, false, None, Some(8))
    case Sickle => WeaponProfile(4, Slashing, false, None, None)
    case Spear => WeaponProfile(6, Piercing, false, Some(60), Some(8))
  }

  function SimpleWeaponAttack(weapon: SimpleWeaponId, modifiers: AbilityModifiers, dueling: bool): AttackSummary
    requires modifiers.Legal()
  {
    var profile := SimpleWeaponProfile(weapon);
    var ability :=
      if profile.finesse && modifiers.dexterity > modifiers.strength then Dexterity else Strength;
    var constant := modifiers.Get(ability) + if dueling && !weapon.IsTwoHanded() then 2 else 0;
    AttackSummary(
      WeaponAttack(SimpleWeapon(weapon)), SimpleWeapon(weapon), ability,
      modifiers.Get(ability) + PROFICIENCY_BONUS, DamageDice(1, profile.sides, constant),
      profile.damageType, 5, profile.longRange, profile.versatile)
  }

  function LongswordAttack(modifiers: AbilityModifiers, twoHanded: bool, dueling: bool): AttackSummary
    requires modifiers.Legal()
  {
    AttackSummary(
      WeaponAttack(LongswordWeapon), LongswordWeapon, Strength, modifiers.strength + PROFICIENCY_BONUS,
      DamageDice(1, if twoHanded then 10 else 8, modifiers.strength + if dueling then 2 else 0),
      Slashing, 5, None, Some(10))
  }

  function LightCrossbowAttack(modifiers: AbilityModifiers): AttackSummary
    requires modifiers.Legal()
  {
    AttackSummary(
      WeaponAttack(LightCrossbowWeapon), LightCrossbowWeapon, Dexterity,
      modifiers.dexterity + PROFICIENCY_BONUS, DamageDice(1, 8, modifiers.dexterity),
      Piercing, 80, Some(320), None)
  }

  function DeriveAttacks(class_: ClassSelection, equipment: EquipmentSelection,
                         modifiers: AbilityModifiers): HeroResult<seq<AttackSummary>>
    requires modifiers.Legal()
  {
    var dueling := class_ == FighterClass(Dueling);
    var simple :=
      if equipment.simpleWeapon.Some?
      then [SimpleWeaponAttack(equipment.simpleWeapon.value, modifiers, dueling)] else [];
    var longsword :=
      if Longsword in equipment.carried
      then [LongswordAttack(modifiers, !equipment.shieldEquipped && !dueling, dueling)] else [];
    var crossbow :=
      if LightCrossbow in equipment.carried then [LightCrossbowAttack(modifiers)] else [];
    var attacks := simple + longsword + crossbow;
    if attacks == [] then Invalid(Attacks) else Success(attacks)
  }

  function DeriveResources(class_: HeroClass, level: SupportedLevel): seq<ResourcePool> {
    var dice := level.Value();
    match class_
    case Fighter =>
      [ResourcePool(HitDiceD10, dice, dice, Long), ResourcePool(SecondWind, 1, 1, Short)]
      + if level.Two? then [ResourcePool(ActionSurge, 1, 1, Short)] else []
    case Wizard =>
      var slots := if level.One? then 2 else 3;
      [ResourcePool(HitDiceD6, dice, dice, Long),
       ResourcePool(LevelOneSpellSlots, slots, slots, Long),
       ResourcePool(ArcaneRecovery, 1, 1, Long)]
  }

  function DeriveSpellcasting(choices: HeroChoices, level: SupportedLevel,
                              modifiers: AbilityModifiers): HeroResult<Option<SpellcastingSummary>>
    requires modifiers.Legal()
  {
    match choices.wizardSpells
    case None => Success(None)
    case Some(selection) =>
      var _ :- Require(choices.class_.WizardClass?, WizardSpells);
      var capacity := PreparedSpellCapacity(level.Value(), modifiers.intelligence);
      var _ :- Require(|selection.prepared| <= capacity, WizardSpellsPrepared);
      var saveDc := 8 + modifiers.intelligence + PROFICIENCY_BONUS;
      if 0 <= saveDc < 0x100 then
        Success(Some(SpellcastingSummary(
          Intelligence, modifiers.intelligence + PROFICIENCY_BONUS, saveDc,
          selection.cantrips, selection.spellbook, selection.prepared, capacity)))
      else Invalid(SpellSaveDc)
  }

  function DeriveFeatures(class_: ClassSelection, level: SupportedLevel): seq<FeatureSummary> {
    match class_
    case FighterClass(style) =>
      [FeatureSummary(if style.Defense? then FightingStyleDefense else FightingStyleDueling, Active),
       FeatureSummary(SecondWindFeature, Active)]
      + if level.Two? then [FeatureSummary(ActionSurgeFeature, Active)] else []
    case WizardClass =>
      [FeatureSummary(WizardSpellcasting, Active), FeatureSummary(ArcaneRecoveryFeature, Active)]
      + if level.Two?
        then [FeatureSummary(EvocationTradition, Active),
              FeatureSummary(SculptSpells, DormantNoQualifyingSupportedSpell)]
        else []
  }

  function DeriveActions(class_: HeroClass, level: SupportedLevel): seq<ActionCapability> {
    match class_
    case Fighter =>
      [Attack, Dash, Disengage, Dodge, Help, Hide, Ready, Search, UseObject, SecondWindAction]
      + if level.Two? then [ActionSurgeAction] else []
    case Wizard =>
      [Attack, CastSupportedSpell, Dash, Disengage, Dodge, Help, Hide, Ready, Search, UseObject]
  }

  // ----- The whole derivation

  predicate AdvancementMatches(class_: HeroClass, level: SupportedLevel, advancement: seq<LevelUpChoice>) {
    match level
    case One => advancement == []
    case Two => |advancement| == 1 && advancement[0].Class() == class_
  }

  function SpeedFeet(choices: HeroChoices, scores: AbilityScores): U8 {
    if choices.equipment.equippedArmor == Some(ChainMail) && scores.strength < 13 then 20 else 30
  }

  function EquipmentStateOf(equipment: EquipmentSelection): EquipmentState {
    EquipmentState(
      equipment.carried, equipment.simpleWeapon, equipment.equippedArmor, equipment.shieldEquipped,
      AuthoredStartingLoadoutV1)
  }

  /** The fields of the sheet, once the fallible parts are known. */
  function AssembleSheet(choices: HeroChoices, level: SupportedLevel, baseScores: AbilityScores,
                         scores: AbilityScores, armorClass: U8, attacks: seq<AttackSummary>,
                         spellcasting: Option<SpellcastingSummary>): HeroSheet {
    var class_ := choices.class_.Class();
    var modifiers := ModifiersOf(scores);
    var hitPoints := DeriveMaximumHitPoints(class_, level, modifiers);
    var skills := DeriveSkills(choices.background.AllSkills(), modifiers);
    HeroSheet(
      HERO_SHEET_SCHEMA_VERSION, HeroDerivationV1, level, PROFICIENCY_BONUS, baseScores, scores,
      modifiers, armorClass, SpeedFeet(choices, scores), hitPoints, hitPoints,
      DeriveSavingThrows(class_, modifiers), skills, DerivePassiveValues(skills), attacks,
      DeriveResources(class_, level), EquipmentStateOf(choices.equipment), spellcasting,
      DeriveFeatures(choices.class_, level), DeriveActions(class_, level))
  }

  function ComputeSheet(choices: HeroChoices, level: SupportedLevel): HeroResult<HeroSheet> {
    var baseScores :- choices.assignment.BaseScores();
    var scores :- choices.assignment.HumanScores();
    var modifiers := ModifiersOf(scores);
    var armorClass :- DeriveArmorClass(choices.class_, choices.equipment, modifiers);
    var attacks :- DeriveAttacks(choices.class_, choices.equipment, modifiers);
    var spellcasting :- DeriveSpellcasting(choices, level, modifiers);
    Success(AssembleSheet(choices, level, baseScores, scores, armorClass, attacks, spellcasting))
  }

  /** `derive_sheet`: validates the choices and the level's advancement record, then computes
      every field. Pins, concept and presentation are never read after validation. */
  function DeriveSheet(choices: HeroChoices, level: SupportedLevel,
                       advancement: seq<LevelUpChoice>): HeroResult<HeroSheet> {
    var _ :- choices.Validate();
    var _ :- Require(AdvancementMatches(choices.class_.Class(), level, advancement), AdvancementChoices);
    ComputeSheet(choices, level)
  }

  // ----- What the derivation guarantees

  lemma AttacksExist(class_: ClassSelection, equipment: EquipmentSelection, modifiers: AbilityModifiers)
    requires modifiers.Legal() && equipment.ValidateFor(class_).Success?
    ensures DeriveAttacks(class_, equipment, modifiers).Success?
  {
  }

  lemma ArmorClassFits(class_: ClassSelection, equipment: EquipmentSelection, modifiers: AbilityModifiers)
    requires modifiers.Legal() && equipment.ValidateFor(class_).Success?
    ensures DeriveArmorClass(class_, equipment, modifiers).Success?
  {
  }

  /** A selection that fits level one still fits level two. */
  lemma SpellcastingFits(choices: HeroChoices, level: SupportedLevel, modifiers: AbilityModifiers)
    requires modifiers.Legal()
    requires CheckSpells(choices.class_, choices.wizardSpells, modifiers.intelligence).Success?
    ensures DeriveSpellcasting(choices, level, modifiers).Success?
  {
  }

  lemma ComputationSucceeds(choices: HeroChoices, level: SupportedLevel)
    requires choices.Valid()
    ensures ComputeSheet(choices, level).Success?
  {
    AssignmentScores(choices.assignment);
    var modifiers := ModifiersOf(choices.assignment.HumanScores().value);
    ArmorClassFits(choices.class_, choices.equipment, modifiers);
    AttacksExist(choices.class_, choices.equipment, modifiers);
    SpellcastingFits(choices, level, modifiers);
  }

  /** The sheet of a valid choice record at a level. */
  function Derived(choices: HeroChoices, level: SupportedLevel): HeroSheet
    requires choices.Valid()
  {
    ComputationSucceeds(choices, level);
    ComputeSheet(choices, level).value
  }

  /** Valid choices and a matching advancement record are all the derivation needs: none of its
      later range, loadout or capacity errors can be reached, and the record is never read. */
  lemma DerivationSucceedsIff(choices: HeroChoices, level: SupportedLevel, advancement: seq<LevelUpChoice>)
    ensures DeriveSheet(choices, level, advancement).Success?
      <==> choices.Valid() && AdvancementMatches(choices.class_.Class(), level, advancement)
    ensures DeriveSheet(choices, level, advancement).Success?
      ==> DeriveSheet(choices, level, advancement).value == Derived(choices, level)
  {
    if choices.Valid() {
      ComputationSucceeds(choices, level);
    }
  }

  /** The runtime part of a derived sheet: hit points and pools start full. */
  lemma DerivedRuntime(choices: HeroChoices, level: SupportedLevel)
    requires choices.Valid()
    ensures choices.assignment.HumanScores().Success?
    ensures Derived(choices, level).resources == DeriveResources(choices.class_.Class(), level)
    ensures Derived(choices, level).currentHitPoints == Derived(choices, level).maximumHitPoints
    ensures Derived(choices, level).maximumHitPoints == DeriveMaximumHitPoints(
      choices.class_.Class(), level, ModifiersOf(choices.assignment.HumanScores().value))
  {
    ComputationSucceeds(choices, level);
    var scores := choices.assignment.HumanScores().value;
    var modifiers := ModifiersOf(scores);
    assert Derived(choices, level) == AssembleSheet(
      choices, level, choices.assignment.BaseScores().value, scores,
      DeriveArmorClass(choices.class_, choices.equipment, modifiers).value,
      DeriveAttacks(choices.class_, choices.equipment, modifiers).value,
      DeriveSpellcasting(choices, level, modifiers).value);
  }

  /** Level two adds at least three hit points, in both classes: no floor is ever needed. */
  lemma LevelTwoRaisesHitPoints(choices: HeroChoices)
    requires choices.Valid()
    ensures 5 <= Derived(choices, One).maximumHitPoints
    ensures Derived(choices, One).maximumHitPoints + 3 <= Derived(choices, Two).maximumHitPoints
  {
    DerivedRuntime(choices, One);
    DerivedRuntime(choices, Two);
    var scores := choices.assignment.HumanScores().value;
    assert 9 <= scores.constitution <= 16 by {
      AssignmentRange(choices.assignment);
    }
    assert -1 <= ModifiersOf(scores).constitution <= 3;
  }
}
