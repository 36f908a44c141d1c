// The valid creation choices written out: each part of a record against an explicit list of what
// the rules offer (crates/game-core/src/hero.rs, lines 122-792 and 1231-1265).

module ChoiceLaws {
  import opened Wrappers
  import opened MachineInts
  import opened Text
  import opened Sorting
  import opened HeroErrors
  import opened HeroRules

  // ----- Pins

  function Pinned(themeId: ThemeId, themePack: PackId, core: PackDigest, theme: PackDigest): HeroPins {
    HeroPins(Srd51, PackPin(CorePack, MvpVersion, core), themeId, PackPin(themePack, MvpVersion, theme))
  }

  /** Both themes, each with the current digests and two retained older pairs. */
  const LEGAL_PINS: seq<HeroPins> := [
    Pinned(RainboundBorough, RainboundPack, CoreCurrent, RainboundCurrent),
    Pinned(RainboundBorough, RainboundPack, CorePreLive, RainboundPreLive),
    Pinned(RainboundBorough, RainboundPack, CoreDev, RainboundDev),
    Pinned(EmberlineArchive, EmberlinePack, CoreCurrent, EmberlineCurrent),
    Pinned(EmberlineArchive, EmberlinePack, CorePreLive, EmberlinePreLive),
    Pinned(EmberlineArchive, EmberlinePack, CoreDev, EmberlineDev)]

  predicate PinsFit(pins: HeroPins) { pins in LEGAL_PINS }

  /** Six pin sets are accepted and no mixture of them. */
  lemma PinsAcceptedIff(pins: HeroPins)
    ensures pins.Validate().Success? <==> PinsFit(pins)
  {
    if pins.Validate().Success? {
      assert pins == Pinned(pins.themeId, pins.theme.packId, pins.coreContent.digest, pins.theme.digest);
      var offset := if pins.themeId.RainboundBorough? then 0 else 3;
      var pair := if pins.IsCurrent() then 0 else if pins.coreContent.digest == CorePreLive then 1 else 2;
      assert pins == LEGAL_PINS[offset + pair];
    }
  }

  // ----- Skills

  /** What a class can train on top of a background. */
  function Trainable(class_: HeroClass, background: BackgroundId): set<SkillId> {
    match (class_, background)
    case (Fighter, Soldier) => {Acrobatics, AnimalHandling, History, Insight, Perception, Survival}
    case (Fighter, Sage) => {Acrobatics, AnimalHandling, Athletics, Insight, Intimidation, Perception, Survival}
    case (Wizard, Soldier) => {Arcana, History, Insight, Investigation, Medicine, Religion}
    case (Wizard, Sage) => {Insight, Investigation, Medicine, Religion}
  }

  lemma OfferedSkills(class_: HeroClass, background: BackgroundId, skill: SkillId)
    ensures skill in ClassSkillChoices(class_) && skill !in background.Skills() <==> skill in Trainable(class_, background)
  {
  }

  predicate SkillsFit(selection: BackgroundSelection, class_: HeroClass) {
    && |selection.classSkills| == 2
    && selection.classSkills[0].Ord() < selection.classSkills[1].Ord()
    && selection.classSkills[0] in Trainable(class_, selection.background)
    && selection.classSkills[1] in Trainable(class_, selection.background)
  }

  /** Exactly the ascending pairs of trainable skills are accepted. */
  lemma SkillsAcceptedIff(selection: BackgroundSelection, class_: HeroClass)
    ensures selection.ValidateFor(class_).Success? <==> SkillsFit(selection, class_)
  {
    hide Trainable, ClassSkillChoices, BackgroundId.Skills;
    if |selection.classSkills| == 2 {
      var a, b := selection.classSkills[0], selection.classSkills[1];
      assert selection.classSkills == [a, b];
      assert StrictlySorted(SkillLeq, selection.classSkills) <==> a.Ord() < b.Ord() by {
        assert selection.classSkills[1 - 1] == a;
      }
      OfferedSkills(class_, selection.background, a);
      OfferedSkills(class_, selection.background, b);
    }
  }

  // ----- Equipment

  /** A fighter's loadout: one armor, a longsword or a simple weapon, perhaps a shield. */
  function FighterLoadout(armor: EquipmentId, weapon: Option<SimpleWeaponId>, shield: bool): EquipmentSelection {
    EquipmentSelection(
      [if weapon.Some? then SimpleWeapons else Longsword, LightCrossbow]
      + (if shield then [Shield] else []) + [armor, ExplorersPack],
      weapon, Some(armor), shield)
  }

  /** The items carried are those of a fighter's loadout with this armor. */
  predicate HoldsExactly(e: EquipmentSelection, armor: EquipmentId) {
    forall item :: item in e.carried <==>
      item in {LightCrossbow, armor, ExplorersPack}
              + (if e.simpleWeapon.Some? then {SimpleWeapons} else {Longsword})
              + (if e.shieldEquipped then {Shield} else {})
  }

  lemma FighterLoadoutSorted(armor: EquipmentId, weapon: Option<SimpleWeaponId>, shield: bool)
    requires armor in {ChainMail, LeatherArmor}
    ensures var e := FighterLoadout(armor, weapon, shield);
      && StrictlySorted(EquipmentLeq, e.carried)
      && HoldsExactly(e, armor)
  {
    var head := [if weapon.Some? then SimpleWeapons else Longsword, LightCrossbow];
    var middle := if shield then [Shield] else [];
    var tail := [armor, ExplorersPack];
    assert FighterLoadout(armor, weapon, shield).carried == head + middle + tail;
  }

  /** What a fighter's loadout must also respect: a greatclub leaves no hand for a shield or a duel. */
  predicate HandsFit(weapon: Option<SimpleWeaponId>, shield: bool, style: FightingStyleId) {
    weapon == Some(Greatclub) ==> !shield && style.Defense?
  }

  predicate IsFighterLoadout(e: EquipmentSelection, style: FightingStyleId) {
    exists armor <- {ChainMail, LeatherArmor} :: e == FighterLoadout(armor, e.simpleWeapon, e.shieldEquipped)
      && HandsFit(e.simpleWeapon, e.shieldEquipped, style)
  }

  lemma CountIsOne(e: EquipmentSelection, a: EquipmentId, b: EquipmentId)
    ensures e.CountOf(a, b) == 1 <==> (a in e.carried) != (b in e.carried)
  {
  }

  lemma FighterItems(e: EquipmentSelection, style: FightingStyleId)
    requires e.ValidateFor(FighterClass(style)).Success?
    ensures e.equippedArmor.Some? && e.equippedArmor.value in {ChainMail, LeatherArmor}
    ensures StrictlySorted(EquipmentLeq, e.carried)
    ensures HoldsExactly(e, e.equippedArmor.value)
    ensures HandsFit(e.simpleWeapon, e.shieldEquipped, style)
  {
    hide StrictlySorted;
    CountIsOne(e, ChainMail, LeatherArmor);
    CountIsOne(e, SimpleWeapons, Longsword);
    forall item: EquipmentId
      ensures item in e.carried <==>
        item in {LightCrossbow, e.equippedArmor.value, ExplorersPack}
                + (if e.simpleWeapon.Some? then {SimpleWeapons} else {Longsword})
                + (if e.shieldEquipped then {Shield} else {})
    {
      match item
      case SimpleWeapons =>
      case Longsword =>
      case LightCrossbow =>
      case Shield =>
      case ChainMail =>
      case LeatherArmor =>
      case ExplorersPack =>
      case ScholarsPack =>
      case Spellbook =>
      case ArcaneFocus =>
    }
  }

  lemma FighterItemsSuffice(e: EquipmentSelection, armor: EquipmentId, style: FightingStyleId)
    requires armor in {ChainMail, LeatherArmor} && e.equippedArmor == Some(armor)
    requires StrictlySorted(EquipmentLeq, e.carried) && |e.carried| <= EQUIPMENT_KINDS
    requires HoldsExactly(e, armor)
    requires HandsFit(e.simpleWeapon, e.shieldEquipped, style)
    ensures e.ValidateFor(FighterClass(style)).Success?
  {
    hide StrictlySorted, EquipmentSelection.CountOf;
    assert (SimpleWeapons in e.carried <==> e.simpleWeapon.Some?) && (Longsword in e.carried <==> e.simpleWeapon.None?);
    assert (ChainMail in e.carried <==> armor == ChainMail) && (LeatherArmor in e.carried <==> armor == LeatherArmor);
    assert (Shield in e.carried <==> e.shieldEquipped) && LightCrossbow in e.carried && ExplorersPack in e.carried;
    assert ScholarsPack !in e.carried && Spellbook !in e.carried && ArcaneFocus !in e.carried;
    hide HoldsExactly;
    CountIsOne(e, ChainMail, LeatherArmor);
    CountIsOne(e, SimpleWeapons, Longsword);
  }

  lemma FighterLoadoutAccepted(armor: EquipmentId, weapon: Option<SimpleWeaponId>, shield: bool, style: FightingStyleId)
    requires armor in {ChainMail, LeatherArmor} && HandsFit(weapon, shield, style)
    ensures FighterLoadout(armor, weapon, shield).ValidateFor(FighterClass(style)).Success?
  {
    hide EquipmentSelection.ValidateFor;
    FighterLoadoutSorted(armor, weapon, shield);
    FighterItemsSuffice(FighterLoadout(armor, weapon, shield), armor, style);
  }

  /** A fighter's accepted loadouts are exactly these: both armors, longsword or any simple weapon,
      with or without a shield, except a greatclub with a shield or with the dueling style. */
  lemma FighterLoadoutsAre(e: EquipmentSelection, style: FightingStyleId)
    ensures e.ValidateFor(FighterClass(style)).Success? <==> IsFighterLoadout(e, style)
  {
    if e.ValidateFor(FighterClass(style)).Success? {
      FighterItems(e, style);
      var armor := e.equippedArmor.value;
      hide EquipmentSelection.ValidateFor;
      FighterLoadoutSorted(armor, e.simpleWeapon, e.shieldEquipped);
      CanonicalListsAgree(EquipmentLeq, e.carried, FighterLoadout(armor, e.simpleWeapon, e.shieldEquipped).carried);
      assert e == FighterLoadout(armor, e.simpleWeapon, e.shieldEquipped);
    }
    if IsFighterLoadout(e, style) {
      hide EquipmentSelection.ValidateFor;
      var armor :| armor in {ChainMail, LeatherArmor} && e == FighterLoadout(armor, e.simpleWeapon, e.shieldEquipped);
      FighterLoadoutAccepted(armor, e.simpleWeapon, e.shieldEquipped, style);
    }
  }

  function WizardLoadout(weapon: SimpleWeaponId): EquipmentSelection {
    EquipmentSelection([SimpleWeapons, ScholarsPack, Spellbook, ArcaneFocus], Some(weapon), None, false)
  }

  /** A wizard has two: dagger or quarterstaff. */
  lemma WizardLoadoutsAre(e: EquipmentSelection)
    ensures e.ValidateFor(WizardClass).Success? <==> e == WizardLoadout(Dagger) || e == WizardLoadout(Quarterstaff)
  {
    var carried := WizardLoadout(Dagger).carried;
    assert carried[0] == SimpleWeapons && carried[1] == ScholarsPack && carried[2] == Spellbook && carried[3] == ArcaneFocus;
  }

  /** The order items are listed in. */
  lemma ItemsAreListed(item: EquipmentId)
    ensures item.Ord() < 10
    ensures [SimpleWeapons, Longsword, LightCrossbow, Shield, ChainMail, LeatherArmor, ExplorersPack, ScholarsPack,
             Spellbook, ArcaneFocus][item.Ord()] == item
  {
  }

  /** The carried list strictly follows that order. */
  predicate CarriedInOrder(e: EquipmentSelection) {
    forall i, j :: 0 <= i < j < |e.carried| ==> e.carried[i].Ord() < e.carried[j].Ord()
  }

  lemma InOrderIff(e: EquipmentSelection)
    ensures StrictlySorted(EquipmentLeq, e.carried) <==> CarriedInOrder(e)
  {
    if StrictlySorted(EquipmentLeq, e.carried) {
      forall i, j | 0 <= i < j < |e.carried|
        ensures e.carried[i].Ord() < e.carried[j].Ord()
      {
        StrictPairs(EquipmentLeq, e.carried, i, j);
      }
    }
  }

  /** Whatever the class, a loadout is refused by the first of: its list, a simple weapon named but not
      carried or carried but not named, two armors, a shield not matching, armor not matching. */
  lemma EquipmentRefusals(e: EquipmentSelection, class_: ClassSelection)
    ensures var r := e.ValidateFor(class_);
      var listed := CarriedInOrder(e);
      var named := SimpleWeapons in e.carried <==> e.simpleWeapon.Some?;
      var oneArmor := ChainMail !in e.carried || LeatherArmor !in e.carried;
      var shielded := e.shieldEquipped <==> Shield in e.carried;
      var worn := match e.equippedArmor
        case Some(armor) => armor in {ChainMail, LeatherArmor} && armor in e.carried
        case None => ChainMail !in e.carried && LeatherArmor !in e.carried;
      && (!listed ==> r == Failure(InvalidField(EquipmentCarried)))
      && (listed && !named ==> r == Failure(InvalidField(EquipmentSimpleWeapon)))
      && (listed && named && !oneArmor ==> r == Failure(InvalidField(EquipmentCarried)))
      && (listed && named && oneArmor && !shielded ==> r == Failure(InvalidField(EquipmentShield)))
      && (listed && named && oneArmor && shielded && !worn ==> r == Failure(InvalidField(EquipmentArmor)))
      && (listed && named && oneArmor && shielded && worn && r.Failure? ==>
            r.error == InvalidField(Equipment) || (r.error == InvalidField(FightingStyle) && class_ == FighterClass(Dueling)))
  {
    InOrderIff(e);
    hide StrictlySorted, CarriedInOrder, EquipmentSelection.CountOf;
    if StrictlySorted(EquipmentLeq, e.carried) {
      CarriedListIsNeverTooLong(e.carried);
    }
  }

  predicate EquipmentFits(e: EquipmentSelection, class_: ClassSelection) {
    match class_
    case FighterClass(style) => IsFighterLoadout(e, style)
    case WizardClass => e == WizardLoadout(Dagger) || e == WizardLoadout(Quarterstaff)
  }

  // ----- Spells

  /** The prepared lists for an intelligence modifier: one spell, two, or all three. */
  function Preparable(modifier: I8): set<seq<SpellId>> {
    if modifier <= 0 then {[MagicMissile], [ShieldSpell], [Sleep]}
    else if modifier == 1 then {[MagicMissile, ShieldSpell], [MagicMissile, Sleep], [ShieldSpell, Sleep]}
    else {[MagicMissile, ShieldSpell, Sleep]}
  }

  predicate MagicFits(class_: ClassSelection, spells: Option<WizardSpellSelection>, modifier: I8) {
    if class_.FighterClass? then spells.None?
    else
      && spells.Some?
      && spells.value.cantrips == [FireBolt, Light, MageHand]
      && spells.value.spellbook == [MagicMissile, ShieldSpell, Sleep]
      && spells.value.prepared in Preparable(modifier)
  }

  lemma SortedSpellLists(prepared: seq<SpellId>, modifier: I8)
    ensures prepared in Preparable(modifier) <==>
      && StrictlySorted(SpellLeq, prepared)
      && |prepared| == PreparedSpellCapacity(1, modifier)
      && forall i :: 0 <= i < |prepared| ==> prepared[i] in [MagicMissile, ShieldSpell, Sleep]
  {
    if |prepared| == 1 {
      assert prepared == [prepared[0]];
    } else if |prepared| == 2 {
      assert prepared == [prepared[0], prepared[1]];
      assert StrictlySorted(SpellLeq, prepared) <==> !SpellLeq(prepared[1], prepared[1 - 1]);
    } else if |prepared| == 3 {
      assert prepared == [prepared[0], prepared[1], prepared[2]];
      assert StrictlySorted(SpellLeq, prepared) <==>
        !SpellLeq(prepared[1], prepared[1 - 1]) && !SpellLeq(prepared[2], prepared[2 - 1]);
    }
  }

  lemma SpellsAcceptedIff(class_: ClassSelection, spells: Option<WizardSpellSelection>, modifier: I8)
    ensures CheckSpells(class_, spells, modifier).Success? <==> MagicFits(class_, spells, modifier)
  {
    if class_.WizardClass? && spells.Some? {
      SortedSpellLists(spells.value.prepared, modifier);
      hide Preparable;
      assert StrictlySorted(SpellLeq, CANTRIPS) && StrictlySorted(SpellLeq, LEVEL_ONE_SPELLS);
    }
  }

  // ----- Presentation

  predicate PresentationFits(p: HeroPresentation) {
    && IsProse(p.name, 80) && IsProse(p.pronouns, 60)
    && IsProse(p.appearance, 500) && IsProse(p.ideal, 500) && IsProse(p.bond, 500) && IsProse(p.flaw, 500)
    && |p.toneLimits| <= 8
    && (forall i :: 0 <= i < |p.toneLimits| ==> IsProse(p.toneLimits[i], 120))
    && (forall i, j :: 0 <= i < j < |p.toneLimits| ==> p.toneLimits[i] != p.toneLimits[j])
  }

  lemma PresentationAcceptedIff(p: HeroPresentation)
    ensures p.Validate().Success? <==> PresentationFits(p)
  {
    ToneLimitsAreDistinctProse(p.toneLimits, {});
    hide IsProse;
  }

  // ----- The whole record

  /** Any six scores from 1 to 30 make a score block that keeps each in its place, and no others do. */
  lemma NewScoresIff(s: int, d: int, c: int, i: int, w: int, h: int)
    ensures NewScores(s, d, c, i, w, h).Success? <==> (forall k :: 0 <= k < 6 ==> 0 < [s, d, c, i, w, h][k] < 31)
    ensures NewScores(s, d, c, i, w, h).Success? ==>
      NewScores(s, d, c, i, w, h).value == AbilityScores(s, d, c, i, w, h)
  {
    var scores := [s, d, c, i, w, h];
    assert scores[0] == s && scores[1] == d && scores[2] == c && scores[3] == i && scores[4] == w && scores[5] == h;
  }

  /** Neither score block is computed for an assignment that is not the standard array. */
  lemma ScoresNeedTheArray(assignment: StandardArrayAssignment)
    ensures assignment.BaseScores().Success? <==> ScoresFit(assignment)
    ensures assignment.HumanScores().Success? <==> ScoresFit(assignment)
  {
    ScoresAcceptedIff(assignment);
    if assignment.Validate().Success? {
      AssignmentScores(assignment);
    }
    hide ScoresFit, Sort, StandardArrayAssignment.Values;
  }

  /** The modifier of a base score that a human raises by one. */
  function HumanModifier(base: U8): I8 { (base - 9) / 2 }

  lemma PartsOfValid(choices: HeroChoices)
    ensures choices.Valid() <==>
      && choices.pins.Validate().Success?
      && choices.assignment.Validate().Success?
      && choices.background.ValidateFor(choices.class_.Class()).Success?
      && choices.equipment.ValidateFor(choices.class_).Success?
      && choices.presentation.Validate().Success?
      && CheckSpells(choices.class_, choices.wizardSpells, HumanModifier(choices.assignment.intelligence)).Success?
  {
    hide HeroPins.Validate, BackgroundSelection.ValidateFor, EquipmentSelection.ValidateFor, HeroPresentation.Validate,
      CheckSpells, Sort;
    if choices.assignment.Validate().Success? {
      AssignmentScores(choices.assignment);
    }
  }

  lemma EquipmentAcceptedIff(e: EquipmentSelection, class_: ClassSelection)
    ensures e.ValidateFor(class_).Success? <==> EquipmentFits(e, class_)
  {
    hide EquipmentSelection.ValidateFor, IsFighterLoadout;
    if class_.FighterClass? {
      FighterLoadoutsAre(e, class_.style);
    } else {
      WizardLoadoutsAre(e);
    }
  }

  /** The six scores of the standard array, dealt out in any order. */
  predicate ScoresFit(assignment: StandardArrayAssignment) {
    multiset(assignment.Values()) == multiset{15, 14, 13, 12, 10, 8}
  }

  lemma ScoresAcceptedIff(assignment: StandardArrayAssignment)
    ensures assignment.Validate().Success? <==> ScoresFit(assignment)
  {
    hide StandardArrayAssignment.Validate, StandardArrayAssignment.Values;
    AssignmentIsPermutation(assignment);
    StandardArrayIs();
  }

  lemma StandardArrayIs()
    ensures multiset(STANDARD_ARRAY) == multiset{15, 14, 13, 12, 10, 8}
  {
  }

  /** A choice record is valid exactly when its pins are one of six, its scores are the standard array
      dealt out, and skills, equipment, spells and presentation are among those offered for them. */
  lemma ValidRecordsAre(choices: HeroChoices)
    ensures choices.Valid() <==>
      && PinsFit(choices.pins)
      && ScoresFit(choices.assignment)
      && SkillsFit(choices.background, choices.class_.Class())
      && EquipmentFits(choices.equipment, choices.class_)
      && PresentationFits(choices.presentation)
      && MagicFits(choices.class_, choices.wizardSpells, HumanModifier(choices.assignment.intelligence))
  {
    PartsOfValid(choices);
    hide *;
    PinsAcceptedIff(choices.pins);
    ScoresAcceptedIff(choices.assignment);
    SkillsAcceptedIff(choices.background, choices.class_.Class());
    EquipmentAcceptedIff(choices.equipment, choices.class_);
    PresentationAcceptedIff(choices.presentation);
    SpellsAcceptedIff(choices.class_, choices.wizardSpells, HumanModifier(choices.assignment.intelligence));
  }

  // ----- Text

  /** An identifier is 1 to 128 ASCII letters, digits and the four marks. */
  lemma OpaqueIdsAre(s: string)
    ensures IsOpaqueId(s) <==>
      && 1 <= |s| <= 128
      && forall i :: 0 <= i < |s| ==>
           || '0' <= s[i] <= '9' || 'a' <= s[i] <= 'z' || 'A' <= s[i] <= 'Z' || s[i] in {'-', '_', ':', '.'}
  {
  }

  /** The white space that trimming removes, code point by code point. */
  lemma WhitespaceIs(c: char)
    ensures IsWhitespace(c) <==> c as int in {
      9, 10, 11, 12, 13, 32, 133, 160, 5760, 8192, 8193, 8194, 8195, 8196, 8197, 8198, 8199, 8200, 8201, 8202,
      8232, 8233, 8239, 8287, 12288}
    ensures IsControl(c) <==> c as int <= 31 || 127 <= c as int <= 159
  {
  }

  /** Prose written in ASCII is printable text with something other than spaces. */
  lemma AsciiProseIs(s: string, maximum: nat)
    requires forall i :: 0 <= i < |s| ==> s[i] < '\U{0080}'
    ensures IsProse(s, maximum) <==>
      && |s| <= maximum
      && (forall i :: 0 <= i < |s| ==> ' ' <= s[i] <= '~')
      && (exists i :: 0 <= i < |s| && s[i] != ' ')
  {
  }
}
