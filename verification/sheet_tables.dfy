// The derived sheet field by field, for every valid record and level, against tables written out
// independently of the derivation (crates/game-core/src/hero.rs, lines 306-325 and 1302-1830).

module SheetTables {
  import opened Wrappers
  import opened MachineInts
  import opened Sorting
  import opened HeroRules
  import opened HeroSheets
  import opened HeroLaws
  import opened SheetLaws
  import opened ChoiceLaws

  // ----- Skills

  /** The ability behind each skill, as five lists of skills. */
  predicate Governs(ability: Ability, skill: SkillId) {
    match ability
    case Strength => skill in {Athletics}
    case Dexterity => skill in {Acrobatics, SleightOfHand, Stealth}
    case Constitution => false
    case Intelligence => skill in {Arcana, History, Investigation, Nature, Religion}
    case Wisdom => skill in {AnimalHandling, Insight, Medicine, Perception, Survival}
    case Charisma => skill in {Deception, Intimidation, Performance, Persuasion}
  }

  lemma GoverningIs(ability: Ability, skill: SkillId)
    ensures Governs(ability, skill) <==> ability == skill.GoverningAbility()
  {
  }

  /** The two chosen class skills and the background's two. */
  predicate IsTrained(choices: HeroChoices, skill: SkillId) {
    || skill in choices.background.classSkills
    || skill in (if choices.background.background.Soldier? then {Athletics, Intimidation} else {Arcana, History})
  }

  lemma TrainedIs(choices: HeroChoices, skill: SkillId)
    ensures skill in choices.background.AllSkills() <==> IsTrained(choices, skill)
  {
    var listed := choices.background.classSkills + choices.background.background.Skills();
    SortSorts(SkillLeq, listed);
    assert skill in Sort(SkillLeq, listed) <==> skill in multiset(Sort(SkillLeq, listed));
    assert skill in listed <==> skill in multiset(listed);
  }

  /** The entry of a skill: its mark, and its ability's modifier with two more exactly when marked. */
  predicate SkillAgrees(entry: SkillSummary, skill: SkillId, trained: bool, modifier: int) {
    && entry.skill == skill
    && entry.proficient == trained
    && entry.modifier == modifier + if trained then 2 else 0
  }

  lemma ListedSkill(chosen: seq<SkillId>, modifiers: AbilityModifiers, skill: SkillId, ability: Ability)
    requires modifiers.Legal() && Governs(ability, skill)
    ensures SkillAgrees(DeriveSkills(chosen, modifiers)[skill.Ord()], skill, skill in chosen, modifiers.Get(ability))
  {
    GoverningIs(ability, skill);
    hide Governs, SkillId.GoverningAbility;
    EverySkillIsListed(skill);
  }

  /** Each skill stands at its own place with its ability's modifier, plus two exactly when trained. */
  lemma SkillsAreExact(choices: HeroChoices, level: SupportedLevel, skill: SkillId, ability: Ability)
    requires choices.Valid() && Governs(ability, skill)
    ensures var sheet := Derived(choices, level);
      && |sheet.skills| == 18
      && SkillAgrees(sheet.skills[skill.Ord()], skill, IsTrained(choices, skill), sheet.modifiers.Get(ability))
  {
    DerivedSkills(choices, level);
    DerivedAbilities(choices, level);
    TrainedIs(choices, skill);
    hide Derived, HeroChoices.Validate, ModifiersOf, IsTrained, Governs, BackgroundSelection.AllSkills, DeriveSkills,
      SkillId.Ord, SkillAgrees;
    ListedSkill(choices.background.AllSkills(), Derived(choices, level).modifiers, skill, ability);
  }

  // ----- Armor class and speed

  lemma WornArmor(class_: ClassSelection, equipment: EquipmentSelection, modifiers: AbilityModifiers)
    requires DeriveArmorClass(class_, equipment, modifiers).Success?
    ensures var worn := equipment.equippedArmor;
      DeriveArmorClass(class_, equipment, modifiers).value ==
        (if worn == Some(ChainMail) then 16
         else if worn == Some(LeatherArmor) then 11 + modifiers.dexterity
         else 10 + modifiers.dexterity)
        + (if equipment.shieldEquipped then 2 else 0)
        + (if class_ == FighterClass(Defense) then 1 else 0)
  {
    hide EquipmentSelection.ValidateFor;
  }

  /** With modifiers from legal scores, any valid loadout and no other has an armor class. */
  lemma ArmorClassExistsIff(class_: ClassSelection, equipment: EquipmentSelection, modifiers: AbilityModifiers)
    requires modifiers.Legal()
    ensures DeriveArmorClass(class_, equipment, modifiers).Success? <==> EquipmentFits(equipment, class_)
  {
    EquipmentAcceptedIff(equipment, class_);
    if equipment.ValidateFor(class_).Success? {
      ArmorClassFits(class_, equipment, modifiers);
    }
    hide EquipmentSelection.ValidateFor, EquipmentFits;
  }

  lemma ArmorClassIsExact(choices: HeroChoices, level: SupportedLevel)
    requires choices.Valid()
    ensures var sheet := Derived(choices, level); var worn := choices.equipment.equippedArmor;
      sheet.armorClass ==
        (if worn == Some(ChainMail) then 16
         else if worn == Some(LeatherArmor) then 11 + sheet.modifiers.dexterity
         else 10 + sheet.modifiers.dexterity)
        + (if choices.equipment.shieldEquipped then 2 else 0)
        + (if choices.class_ == FighterClass(Defense) then 1 else 0)
  {
    DerivedArmorClass(choices, level);
    DerivedAbilities(choices, level);
    hide Derived, HeroChoices.Validate, ModifiersOf, EquipmentSelection.ValidateFor, DeriveArmorClass,
      StandardArrayAssignment.HumanScores;
    WornArmor(choices.class_, choices.equipment, Derived(choices, level).modifiers);
  }

  /** Only chain mail slows, and only a hero whose strength is below 13. */
  lemma SpeedIsExact(choices: HeroChoices, level: SupportedLevel)
    requires choices.Valid()
    ensures var sheet := Derived(choices, level);
      sheet.speedFeet ==
        if choices.equipment.equippedArmor == Some(ChainMail) && sheet.abilityScores.strength <= 12 then 20 else 30
  {
    DerivedIsAssembled(choices, level);
    hide Derived, HeroChoices.Validate, DeriveSkills, DerivePassiveValues;
  }

  // ----- Attacks

  datatype WeaponFacts = WeaponFacts(
    sides: U8, damageType: DamageType, normalRange: U16, longRange: Option<U16>, versatile: Option<U8>)

  function SimpleFacts(weapon: SimpleWeaponId): WeaponFacts {
    WeaponFacts(
      if weapon in {Club, Dagger, LightHammer, Sickle} then 4 else if weapon == Greatclub then 8 else 6,
      if weapon in {Dagger, Javelin, Spear} then Piercing
      else if weapon in {Handaxe, Sickle} then Slashing
      else Bludgeoning,
      5,
      if weapon in {Dagger, Handaxe, LightHammer, Spear} then Some(60)
      else if weapon == Javelin then Some(120)
      else None,
      if weapon in {Quarterstaff, Spear} then Some(8) else None)
  }

  /** A longsword is held in both hands unless a shield or a duel takes one. */
  function FactsOf(weapon: WeaponChoice, oneHanded: bool): WeaponFacts {
    match weapon
    case SimpleWeapon(kind) => SimpleFacts(kind)
    case LongswordWeapon => WeaponFacts(if oneHanded then 8 else 10, Slashing, 5, None, Some(10))
    case LightCrossbowWeapon => WeaponFacts(8, Piercing, 80, Some(320), None)
  }

  /** Strength swings; dexterity shoots, and wields a dagger when it is higher. */
  function AttackAbility(weapon: WeaponChoice, modifiers: AbilityModifiers): Ability {
    if weapon.LightCrossbowWeapon? || (weapon == SimpleWeapon(Dagger) && modifiers.dexterity > modifiers.strength)
    then Dexterity else Strength
  }

  predicate DuelsWith(weapon: WeaponChoice) {
    weapon != LightCrossbowWeapon && weapon != SimpleWeapon(Greatclub)
  }

  function ExpectedAttack(weapon: WeaponChoice, modifiers: AbilityModifiers, dueling: bool, shield: bool): AttackSummary
    requires modifiers.Legal()
  {
    var facts, ability := FactsOf(weapon, shield || dueling), AttackAbility(weapon, modifiers);
    AttackSummary(
      WeaponAttack(weapon), weapon, ability, modifiers.Get(ability) + 2,
      DamageDice(1, facts.sides, modifiers.Get(ability) + if dueling && DuelsWith(weapon) then 2 else 0),
      facts.damageType, facts.normalRange, facts.longRange, facts.versatile)
  }

  lemma SimpleAttackIs(weapon: SimpleWeaponId, modifiers: AbilityModifiers, dueling: bool, shield: bool)
    requires modifiers.Legal()
    ensures SimpleWeaponAttack(weapon, modifiers, dueling)
         == ExpectedAttack(SimpleWeapon(weapon), modifiers, dueling, shield)
  {
  }

  lemma OtherAttacksAre(modifiers: AbilityModifiers, dueling: bool, shield: bool)
    requires modifiers.Legal()
    ensures LongswordAttack(modifiers, !shield && !dueling, dueling)
         == ExpectedAttack(LongswordWeapon, modifiers, dueling, shield)
    ensures LightCrossbowAttack(modifiers) == ExpectedAttack(LightCrossbowWeapon, modifiers, dueling, shield)
  {
  }

  /** A fighter has the one melee weapon and a crossbow; a wizard the one melee weapon. */
  function WeaponsOf(choices: HeroChoices): seq<WeaponChoice> {
    [if choices.equipment.simpleWeapon.Some? then SimpleWeapon(choices.equipment.simpleWeapon.value) else LongswordWeapon]
    + if choices.class_.FighterClass? then [LightCrossbowWeapon] else []
  }

  lemma WeaponsCarried(choices: HeroChoices)
    requires choices.equipment.ValidateFor(choices.class_).Success?
    ensures Longsword in choices.equipment.carried <==> choices.equipment.simpleWeapon.None?
    ensures LightCrossbow in choices.equipment.carried <==> choices.class_.FighterClass?
  {
    EquipmentAcceptedIff(choices.equipment, choices.class_);
    if choices.class_.FighterClass? {
      var armor :| armor in {ChainMail, LeatherArmor}
        && choices.equipment == FighterLoadout(armor, choices.equipment.simpleWeapon, choices.equipment.shieldEquipped);
      FighterLoadoutSorted(armor, choices.equipment.simpleWeapon, choices.equipment.shieldEquipped);
    }
  }

  lemma DerivedAttacks(choices: HeroChoices, level: SupportedLevel)
    requires choices.Valid()
    ensures var sheet := Derived(choices, level);
      sheet.modifiers.Legal()
      && DeriveAttacks(choices.class_, choices.equipment, sheet.modifiers) == Success(sheet.attacks)
    ensures choices.equipment.ValidateFor(choices.class_).Success?
  {
    DerivedIsAssembled(choices, level);
    PartsOfValid(choices);
    hide Derived, HeroChoices.Validate, DeriveSkills, DerivePassiveValues, DeriveAttacks, DeriveSpellcasting,
      DeriveArmorClass, EquipmentSelection.ValidateFor;
  }

  /** The attacks are one for each weapon, melee first, each as the tables say. */
  lemma AttacksAreExact(choices: HeroChoices, level: SupportedLevel)
    requires choices.Valid()
    ensures var sheet := Derived(choices, level); var weapons := WeaponsOf(choices);
      && sheet.modifiers.Legal()
      && |sheet.attacks| == |weapons|
      && forall i :: 0 <= i < |weapons| ==> sheet.attacks[i] == ExpectedAttack(
           weapons[i], sheet.modifiers, choices.class_ == FighterClass(Dueling), choices.equipment.shieldEquipped)
  {
    DerivedAttacks(choices, level);
    WeaponsCarried(choices);
    var modifiers := Derived(choices, level).modifiers;
    var dueling, shield := choices.class_ == FighterClass(Dueling), choices.equipment.shieldEquipped;
    hide Derived, HeroChoices.Validate, EquipmentSelection.ValidateFor, ExpectedAttack, SimpleWeaponAttack, LongswordAttack,
      LightCrossbowAttack;
    if choices.equipment.simpleWeapon.Some? {
      SimpleAttackIs(choices.equipment.simpleWeapon.value, modifiers, dueling, shield);
    }
    OtherAttacksAre(modifiers, dueling, shield);
  }

  // ----- Hit points

  /** With any modifiers, each level gives its die (the whole of it first, then the rounded average)
      and constitution, but never less than one. */
  lemma EachLevelGivesOne(class_: HeroClass, modifiers: AbilityModifiers)
    ensures var one, two := DeriveMaximumHitPoints(class_, One, modifiers), DeriveMaximumHitPoints(class_, Two, modifiers);
      var first := (if class_ == Fighter then 10 else 6) + modifiers.constitution;
      var second := (if class_ == Fighter then 6 else 4) + modifiers.constitution;
      && one >= 1 && one >= first && (one == 1 || one == first)
      && two - one >= 1 && two - one >= second && (two - one == 1 || two - one == second)
  {
  }

  // ----- Pools, features and actions

  function FullPool(kind: ResourceKind, maximum: U8, rest: RestKind): ResourcePool {
    ResourcePool(kind, maximum, maximum, rest)
  }

  lemma PoolsAre(choices: HeroChoices)
    requires choices.Valid()
    ensures Derived(choices, One).resources ==
      if choices.class_.FighterClass?
      then [FullPool(HitDiceD10, 1, Long), FullPool(SecondWind, 1, Short)]
      else [FullPool(HitDiceD6, 1, Long), FullPool(LevelOneSpellSlots, 2, Long), FullPool(ArcaneRecovery, 1, Long)]
    ensures Derived(choices, Two).resources ==
      if choices.class_.FighterClass?
      then [FullPool(HitDiceD10, 2, Long), FullPool(SecondWind, 1, Short), FullPool(ActionSurge, 1, Short)]
      else [FullPool(HitDiceD6, 2, Long), FullPool(LevelOneSpellSlots, 3, Long), FullPool(ArcaneRecovery, 1, Long)]
  {
    DerivedRuntime(choices, One);
    DerivedRuntime(choices, Two);
    hide Derived, HeroChoices.Validate;
  }

  predicate FeaturesAgree(features: seq<FeatureSummary>, class_: ClassSelection, level: SupportedLevel) {
    var active := set i | 0 <= i < |features| && features[i].availability == Active :: features[i].feature;
    var dormant := set i | 0 <= i < |features| && features[i].availability != Active :: features[i].feature;
    match class_
    case FighterClass(style) =>
      && dormant == {}
      && active == {if style == Defense then FightingStyleDefense else FightingStyleDueling, SecondWindFeature}
                   + if level == Two then {ActionSurgeFeature} else {}
    case WizardClass =>
      && active == {WizardSpellcasting, ArcaneRecoveryFeature} + (if level == Two then {EvocationTradition} else {})
      && dormant == if level == Two then {SculptSpells} else {}
  }

  lemma FeaturesOf(class_: ClassSelection, level: SupportedLevel)
    ensures FeaturesAgree(DeriveFeatures(class_, level), class_, level)
  {
    var features := DeriveFeatures(class_, level);
    match class_
    case FighterClass(style) =>
      assert features[0].availability == features[1].availability == Active;
      if level == Two { assert features[2].feature == ActionSurgeFeature; }
    case WizardClass =>
      assert features[0].availability == features[1].availability == Active;
      if level == Two {
        assert features[2] == FeatureSummary(EvocationTradition, Active);
        assert features[3].feature == SculptSpells;
      }
  }

  /** Everyone has the nine common actions; casting is the wizard's, second wind the fighter's, and an
      action surge comes with the fighter's second level. */
  predicate ActionsAgree(actions: seq<ActionCapability>, class_: HeroClass, level: SupportedLevel) {
    forall action: ActionCapability ::
      action in actions <==>
        match action
        case CastSupportedSpell => class_ == Wizard
        case SecondWindAction => class_ == Fighter
        case ActionSurgeAction => class_ == Fighter && level == Two
        case _ => true
  }

  lemma ActionsOf(class_: HeroClass, level: SupportedLevel)
    ensures ActionsAgree(DeriveActions(class_, level), class_, level)
  {
  }

  lemma FeaturesAndActionsAre(choices: HeroChoices, level: SupportedLevel)
    requires choices.Valid()
    ensures FeaturesAgree(Derived(choices, level).features, choices.class_, level)
    ensures ActionsAgree(Derived(choices, level).actions, choices.class_.Class(), level)
  {
    DerivedIsAssembled(choices, level);
    hide Derived, HeroChoices.Validate, DeriveSkills, DerivePassiveValues, DeriveFeatures, DeriveActions, FeaturesAgree,
      ActionsAgree, DeriveAttacks, DeriveSpellcasting, DeriveArmorClass, DeriveSavingThrows;
    FeaturesOf(choices.class_, level);
    ActionsOf(choices.class_.Class(), level);
  }

  // ----- Spells and the rest

  /** How many spells fit, from the intelligence score: level one 1, 2 or 3 from 12 and 14 up, and one
      more, up to three, at level two. */
  function CapacityOf(intelligence: AbilityScore, level: SupportedLevel): U8 {
    match level
    case One => if intelligence >= 14 then 3 else if intelligence >= 12 then 2 else 1
    case Two => if intelligence >= 12 then 3 else if intelligence >= 10 then 2 else 1
  }

  predicate CastingAgrees(sheet: HeroSheet, choices: HeroChoices) {
    match (choices.wizardSpells, sheet.spellcasting)
    case (None, None) => true
    case (Some(chosen), Some(cast)) =>
      && cast.ability == Intelligence
      && cast.spellAttackBonus == sheet.modifiers.intelligence + 2
      && cast.spellSaveDc == sheet.modifiers.intelligence + 10
      && (cast.cantrips, cast.spellbook, cast.prepared) == (chosen.cantrips, chosen.spellbook, chosen.prepared)
      && cast.preparedCapacity == CapacityOf(sheet.abilityScores.intelligence, sheet.level)
    case _ => false
  }

  /** Spells can be put on a sheet exactly when there are none, or a wizard's prepared list fits. */
  lemma CastingExistsIff(choices: HeroChoices, level: SupportedLevel, scores: AbilityScores)
    ensures DeriveSpellcasting(choices, level, ModifiersOf(scores)).Success? <==>
      || choices.wizardSpells.None?
      || (choices.class_.WizardClass?
          && |choices.wizardSpells.value.prepared| <= CapacityOf(scores.intelligence, level))
  {
    CapacityIs(scores.intelligence, level);
    hide PreparedSpellCapacity, CapacityOf;
  }

  lemma CapacityIs(intelligence: AbilityScore, level: SupportedLevel)
    ensures PreparedSpellCapacity(level.Value(), Modifier(intelligence)) == CapacityOf(intelligence, level)
  {
  }

  lemma AssembledCasting(choices: HeroChoices, level: SupportedLevel, baseScores: AbilityScores, scores: AbilityScores,
                         armorClass: U8, attacks: seq<AttackSummary>, spells: Option<SpellcastingSummary>)
    requires DeriveSpellcasting(choices, level, ModifiersOf(scores)) == Success(spells)
    ensures CastingAgrees(AssembleSheet(choices, level, baseScores, scores, armorClass, attacks, spells), choices)
  {
    CapacityIs(scores.intelligence, level);
    hide DeriveSkills, DerivePassiveValues, PreparedSpellCapacity, CapacityOf;
  }

  lemma CastingIsExact(choices: HeroChoices, level: SupportedLevel)
    requires choices.Valid()
    ensures CastingAgrees(Derived(choices, level), choices)
  {
    DerivedIsAssembled(choices, level);
    hide Derived, HeroChoices.Validate, DeriveSkills, DerivePassiveValues, DeriveSpellcasting, DeriveArmorClass,
      DeriveAttacks, CastingAgrees, AssembleSheet;
    var scores := choices.assignment.HumanScores().value;
    var modifiers := ModifiersOf(scores);
    AssembledCasting(choices, level, choices.assignment.BaseScores().value, scores,
                     DeriveArmorClass(choices.class_, choices.equipment, modifiers).value,
                     DeriveAttacks(choices.class_, choices.equipment, modifiers).value,
                     DeriveSpellcasting(choices, level, modifiers).value);
  }

  /** The fields that say what the sheet is, and the loadout it repeats. */
  lemma HeadingIs(choices: HeroChoices, level: SupportedLevel)
    requires choices.Valid()
    ensures var sheet := Derived(choices, level);
      && sheet.schemaVersion == 1 && sheet.derivationId == HeroDerivationV1
      && sheet.level == level && sheet.proficiencyBonus == 2
      && sheet.equipment == EquipmentState(
           choices.equipment.carried, choices.equipment.simpleWeapon, choices.equipment.equippedArmor,
           choices.equipment.shieldEquipped, AuthoredStartingLoadoutV1)
  {
    DerivedIsAssembled(choices, level);
    hide Derived, HeroChoices.Validate, DeriveSkills, DerivePassiveValues, DeriveAttacks, DeriveSpellcasting, DeriveArmorClass;
  }

  /** Level one has no advancement; level two has the one choice of the hero's class. */
  lemma AdvancementIs(class_: HeroClass, level: SupportedLevel, advancement: seq<LevelUpChoice>)
    ensures AdvancementMatches(class_, level, advancement) <==>
      advancement == if level == One then []
                     else if class_ == Fighter then [FighterLevelUp(FixedAverage)]
                     else [WizardLevelUp(FixedAverage, Evocation)]
  {
    if |advancement| == 1 {
      assert advancement == [advancement[0]];
      match advancement[0]
      case FighterLevelUp(FixedAverage) =>
      case WizardLevelUp(FixedAverage, Evocation) =>
    }
  }
}
