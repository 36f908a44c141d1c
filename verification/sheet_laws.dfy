// How the derived sheet answers to the choices: scores and saves against the assignment, and what
// a shield or a fighting style is worth (crates/game-core/src/hero.rs, lines 363-417 and 1302-1612).

module SheetLaws {
  import opened Wrappers
  import opened HeroRules
  import opened HeroSheets
  import opened HeroLaws

  const ABILITIES: seq<Ability> := [Strength, Dexterity, Constitution, Intelligence, Wisdom, Charisma]

  function ScoreList(scores: AbilityScores): seq<int> {
    [scores.strength, scores.dexterity, scores.constitution, scores.intelligence, scores.wisdom, scores.charisma]
  }

  /** A modifier is half the distance to ten, rounded down. */
  predicate IsModifierOf(modifier: int, score: int) { 2 * modifier <= score - 10 <= 2 * modifier + 1 }

  /** Base scores are the standard array dealt out, a human adds one to each, and modifiers follow. */
  predicate AbilitiesAgree(sheet: HeroSheet) {
    && multiset(ScoreList(sheet.baseScores)) == multiset(STANDARD_ARRAY)
    && forall ability: Ability ::
         && sheet.abilityScores.Get(ability) == sheet.baseScores.Get(ability) + 1
         && IsModifierOf(sheet.modifiers.Get(ability), sheet.abilityScores.Get(ability))
  }

  /** One saving throw per ability, in order; the class's two carry the proficiency bonus. */
  predicate SavesAgree(saves: seq<SavingThrowSummary>, modifiers: AbilityModifiers, class_: HeroClass) {
    var trained := if class_.Fighter? then {Strength, Constitution} else {Intelligence, Wisdom};
    && |saves| == |ABILITIES|
    && forall i :: 0 <= i < |ABILITIES| ==>
         && saves[i].ability == ABILITIES[i]
         && (saves[i].proficient <==> saves[i].ability in trained)
         && saves[i].modifier == modifiers.Get(saves[i].ability) + if saves[i].proficient then PROFICIENCY_BONUS else 0
  }

  lemma HumanAddsOne(choices: HeroChoices)
    requires choices.Valid()
    ensures choices.assignment.BaseScores().Success? && choices.assignment.HumanScores().Success?
    ensures var base, human := choices.assignment.BaseScores().value, choices.assignment.HumanScores().value;
      && ScoreList(base) == choices.assignment.Values()
      && forall ability: Ability :: human.Get(ability) == base.Get(ability) + 1
  {
    AssignmentScores(choices.assignment);
  }

  lemma ModifiersFollow(scores: AbilityScores, ability: Ability)
    ensures IsModifierOf(ModifiersOf(scores).Get(ability), scores.Get(ability))
  {
  }

  lemma SavesFollowModifiers(class_: HeroClass, modifiers: AbilityModifiers)
    requires modifiers.Legal()
    ensures SavesAgree(DeriveSavingThrows(class_, modifiers), modifiers, class_)
  {
  }

  lemma DerivedAbilities(choices: HeroChoices, level: SupportedLevel)
    requires choices.Valid()
    ensures choices.assignment.BaseScores().Success? && choices.assignment.HumanScores().Success?
    ensures var sheet := Derived(choices, level);
      && sheet.baseScores == choices.assignment.BaseScores().value
      && sheet.abilityScores == choices.assignment.HumanScores().value
      && sheet.modifiers == ModifiersOf(sheet.abilityScores)
      && sheet.savingThrows == DeriveSavingThrows(choices.class_.Class(), sheet.modifiers)
  {
    DerivedIsAssembled(choices, level);
    hide Derived, HeroChoices.Validate, DeriveSkills, DerivePassiveValues, DeriveAttacks, DeriveSpellcasting,
      DeriveArmorClass, DeriveSavingThrows, StandardArrayAssignment.Validate;
  }

  lemma AbilitiesAgreeFrom(sheet: HeroSheet)
    requires multiset(ScoreList(sheet.baseScores)) == multiset(STANDARD_ARRAY)
    requires forall ability: Ability :: sheet.abilityScores.Get(ability) == sheet.baseScores.Get(ability) + 1
    requires sheet.modifiers == ModifiersOf(sheet.abilityScores)
    ensures AbilitiesAgree(sheet)
  {
    hide ModifiersOf, IsModifierOf, ScoreList;
    forall ability: Ability
      ensures IsModifierOf(sheet.modifiers.Get(ability), sheet.abilityScores.Get(ability))
    {
      ModifiersFollow(sheet.abilityScores, ability);
    }
  }

  lemma AbilitiesFollowTheAssignment(choices: HeroChoices, level: SupportedLevel)
    requires choices.Valid()
    ensures AbilitiesAgree(Derived(choices, level))
    ensures var sheet := Derived(choices, level);
      SavesAgree(sheet.savingThrows, sheet.modifiers, choices.class_.Class())
  {
    DerivedAbilities(choices, level);
    HumanAddsOne(choices);
    AssignmentIsPermutation(choices.assignment);
    AssignmentIsValid(choices);
    hide Derived, HeroChoices.Validate, StandardArrayAssignment.Validate, StandardArrayAssignment.BaseScores,
      StandardArrayAssignment.HumanScores, StandardArrayAssignment.Values, ModifiersOf, DeriveSavingThrows,
      SavesAgree, AbilitiesAgree, ScoreList;
    SavesFollowModifiers(choices.class_.Class(), Derived(choices, level).modifiers);
    AbilitiesAgreeFrom(Derived(choices, level));
  }

  lemma AssignmentIsValid(choices: HeroChoices)
    requires choices.Valid()
    ensures choices.assignment.Validate().Success?
  {
  }

  // ----- Armor

  lemma DerivedArmorClass(choices: HeroChoices, level: SupportedLevel)
    requires choices.Valid()
    ensures choices.assignment.HumanScores().Success?
    ensures var modifiers := ModifiersOf(choices.assignment.HumanScores().value);
      && DeriveArmorClass(choices.class_, choices.equipment, modifiers) == Success(Derived(choices, level).armorClass)
      && -1 <= modifiers.dexterity <= 3
    ensures choices.equipment.ValidateFor(choices.class_).Success?
  {
    DerivedIsAssembled(choices, level);
    AssignmentScores(choices.assignment);
    AssignmentRange(choices.assignment);
  }

  /** No legal loadout leaves the range 9 to 19, whatever the level. */
  lemma ArmorClassRange(choices: HeroChoices, level: SupportedLevel)
    requires choices.Valid()
    ensures 9 <= Derived(choices, level).armorClass <= 19
    ensures Derived(choices, One).armorClass == Derived(choices, Two).armorClass
  {
    DerivedArmorClass(choices, level);
    DerivedArmorClass(choices, One);
    DerivedArmorClass(choices, Two);
    hide Derived;
  }

  /** The same loadout with a shield added. */
  predicate AddsShield(a: EquipmentSelection, b: EquipmentSelection) {
    && !a.shieldEquipped && b.shieldEquipped
    && b.simpleWeapon == a.simpleWeapon && b.equippedArmor == a.equippedArmor
    && forall item :: item in b.carried <==> item in a.carried || item == Shield
  }

  lemma ArmorOfShield(class_: ClassSelection, a: EquipmentSelection, b: EquipmentSelection, modifiers: AbilityModifiers)
    requires AddsShield(a, b) && -1 <= modifiers.dexterity <= 3
    requires DeriveArmorClass(class_, a, modifiers).Success? && DeriveArmorClass(class_, b, modifiers).Success?
    ensures DeriveArmorClass(class_, b, modifiers).value == DeriveArmorClass(class_, a, modifiers).value + 2
  {
    hide EquipmentSelection.ValidateFor;
  }

  lemma ShieldAddsTwo(a: HeroChoices, b: HeroChoices, level: SupportedLevel)
    requires a.Valid() && b.Valid() && AddsShield(a.equipment, b.equipment)
    requires b == a.(equipment := b.equipment)
    ensures Derived(b, level).armorClass == Derived(a, level).armorClass + 2
  {
    DerivedArmorClass(a, level);
    DerivedArmorClass(b, level);
    hide Derived, HeroChoices.Validate, DeriveArmorClass, StandardArrayAssignment.HumanScores, ModifiersOf, AddsShield,
      EquipmentSelection.ValidateFor;
    ArmorOfShield(a.class_, a.equipment, b.equipment, ModifiersOf(a.assignment.HumanScores().value));
  }

  // ----- Fighting style

  /** Two attacks alike but for damage: as many dice, the first's no larger, and at most two more in
      its constant. */
  predicate DuelingEdge(dueling: AttackSummary, defense: AttackSummary) {
    && defense == dueling.(damage := defense.damage)
    && dueling.damage.count == defense.damage.count
    && dueling.damage.sides <= defense.damage.sides
    && (dueling.damage.constant == defense.damage.constant || dueling.damage.constant == defense.damage.constant + 2)
  }

  /** One more armor class, and no other change outside attack damage and the feature list. */
  predicate StyleTrade(dueling: HeroSheet, defense: HeroSheet) {
    && defense.armorClass == dueling.armorClass + 1
    && defense == dueling.(armorClass := defense.armorClass, attacks := defense.attacks, features := defense.features)
    && |defense.attacks| == |dueling.attacks|
    && forall i :: 0 <= i < |defense.attacks| ==> DuelingEdge(dueling.attacks[i], defense.attacks[i])
  }

  lemma StyleOfAttacks(equipment: EquipmentSelection, modifiers: AbilityModifiers)
    requires modifiers.Legal()
    requires DeriveAttacks(FighterClass(Dueling), equipment, modifiers).Success?
    requires DeriveAttacks(FighterClass(Defense), equipment, modifiers).Success?
    ensures var dueling := DeriveAttacks(FighterClass(Dueling), equipment, modifiers).value;
      var defense := DeriveAttacks(FighterClass(Defense), equipment, modifiers).value;
      |defense| == |dueling| && forall i :: 0 <= i < |defense| ==> DuelingEdge(dueling[i], defense[i])
  {
  }

  /** Choosing defense over dueling is worth exactly one armor class, costs at most two damage on an
      attack, and leaves every other number of the sheet alone. */
  lemma DefenseTradesDamageForArmor(dueling: HeroChoices, defense: HeroChoices, level: SupportedLevel)
    requires dueling.Valid() && defense.Valid()
    requires dueling.class_ == FighterClass(Dueling) && defense == dueling.(class_ := FighterClass(Defense))
    ensures StyleTrade(Derived(dueling, level), Derived(defense, level))
  {
    DerivedIsAssembled(dueling, level);
    DerivedIsAssembled(defense, level);
    DerivedArmorClass(dueling, level);
    DerivedArmorClass(defense, level);
    hide Derived, HeroChoices.Validate, DeriveSkills, DerivePassiveValues, DeriveAttacks, StandardArrayAssignment.Validate,
      DuelingEdge;
    StyleOfAttacks(dueling.equipment, ModifiersOf(dueling.assignment.HumanScores().value));
  }

  // ----- The step to level two

  /** A caster keeps every spell fact but the capacity, which does not fall. */
  predicate SameSpells(one: Option<SpellcastingSummary>, two: Option<SpellcastingSummary>) {
    match (one, two)
    case (None, None) => true
    case (Some(a), Some(b)) => b == a.(preparedCapacity := b.preparedCapacity) && a.preparedCapacity <= b.preparedCapacity
    case _ => false
  }

  /** Level two only adds: features and actions are extended, and nothing else moves but the level,
      hit points, pools and spell capacity. */
  predicate OnlyAdds(one: HeroSheet, two: HeroSheet) {
    && two == one.(level := Two, maximumHitPoints := two.maximumHitPoints, currentHitPoints := two.currentHitPoints,
                   resources := two.resources, spellcasting := two.spellcasting, features := two.features,
                   actions := two.actions)
    && one.features <= two.features
    && one.actions <= two.actions
    && |one.resources| <= |two.resources|
    && SameSpells(one.spellcasting, two.spellcasting)
  }

  lemma ListsOnlyGrow(class_: ClassSelection)
    ensures DeriveFeatures(class_, One) <= DeriveFeatures(class_, Two)
    ensures DeriveActions(class_.Class(), One) <= DeriveActions(class_.Class(), Two)
    ensures |DeriveResources(class_.Class(), One)| <= |DeriveResources(class_.Class(), Two)|
  {
  }

  lemma SpellsStay(choices: HeroChoices, modifiers: AbilityModifiers)
    requires modifiers.Legal()
    requires DeriveSpellcasting(choices, One, modifiers).Success? && DeriveSpellcasting(choices, Two, modifiers).Success?
    ensures SameSpells(DeriveSpellcasting(choices, One, modifiers).value, DeriveSpellcasting(choices, Two, modifiers).value)
  {
  }

  lemma LevelTwoOnlyAdds(choices: HeroChoices)
    requires choices.Valid()
    ensures OnlyAdds(Derived(choices, One), Derived(choices, Two))
  {
    DerivedIsAssembled(choices, One);
    DerivedIsAssembled(choices, Two);
    hide Derived, HeroChoices.Validate, DeriveSkills, DerivePassiveValues, DeriveAttacks, DeriveSpellcasting,
      DeriveArmorClass, DeriveSavingThrows, DeriveFeatures, DeriveActions, DeriveResources, SameSpells,
      StandardArrayAssignment.Validate;
    ListsOnlyGrow(choices.class_);
    SpellsStay(choices, ModifiersOf(choices.assignment.HumanScores().value));
  }

  /** Hit points, without the floors: the hit die and constitution at level one; level two adds four
      less than that for a fighter and two less for a wizard. */
  lemma HitPointsAreExact(choices: HeroChoices)
    requires choices.Valid()
    ensures var one, two := Derived(choices, One), Derived(choices, Two);
      && one.maximumHitPoints == (if choices.class_.FighterClass? then 10 else 6) + one.modifiers.constitution
      && two.maximumHitPoints == 2 * one.maximumHitPoints - if choices.class_.FighterClass? then 4 else 2
  {
    DerivedRuntime(choices, One);
    DerivedRuntime(choices, Two);
    DerivedAbilities(choices, One);
    AssignmentRange(choices.assignment);
    AssignmentScores(choices.assignment);
    hide Derived;
    assert -1 <= Derived(choices, One).modifiers.constitution <= 3;
  }
}
