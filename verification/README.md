# Manchester Arcana: a verified model of the rules engine

Manchester Arcana is a server for a tabletop role-playing game under the System Reference Document
5.1. Its `game-core` crate decides everything mechanical: how a hero is created, what its sheet says,
what a reward, a level-up or an encounter does to it, how dice become results, and which proposals of
a language-model game master are accepted. This project states those decisions in Dafny and proves
what they guarantee, over every input and every run.

## What is proved

**Hero creation** (`hero_creation.dfy`, `hero_creation_runs.dfy`). The ten-state draft is a class
with the engine's fields. A transition succeeds exactly when its explicit guards hold; every later
re-validation, audit check and `expect` is dead code, and an error leaves the draft unchanged. Over any
run of a new draft, the revision is the ordinal of the step, at most nine commands are accepted, no
accepted choice is lost or overwritten, and a hero exists exactly when the draft is committed.
Conversely, every valid choice record is reached by some run.

**The hero** (`hero_rules.dfy`, `choice_laws.dfy`, `hero_sheet.dfy`, `sheet_laws.dfy`,
`sheet_tables.dfy`, `hero_character.dfy`, `hero_runs.dfy`, `hero_laws.dfy`, `command_laws.dfy`). The sheet is derived from the choices; the stored copy may differ
only in its counters. The class's methods keep that over any mix of rewards, level-ups and runtime
synchronisations, accepted or refused. On top of that: experience is the sum of the accepted awards
and never exceeds 850, level-up conserves what was spent, an expected revision has at most one winner,
and pins, concept and presentation never influence mechanics.

**Library characters** (`player_character.dfy`). Two heroes instantiated from one library character
evolve independently under any interleaving of their commands.

**Smaller machines.** The request limiter against a counter over the full history
(`rate_limit.dfy`); experience and levels (`progression.dfy`); d20 checks and attacks against their
validator (`checks.dfy`); acceptance of game-master proposals (`proposals.dfy`); the chain of roll
records of an encounter (`roll_chain.dfy`); digest text and path encoding (`codecs.dfy`); the cookie
parser (`cookies.dfy`); turn and point ledgers (`ledgers.dfy`). `foundations.dfy` holds results,
machine integers, identifier and prose rules, and sorting.

## How the model is built

Objects the engine updates in place are classes; each method is proved against a function on the
value of the object (`View`), and the laws are lemmas about those functions. Pure code is functions.
Machine integers are range types, so every verified member also shows that no width is exceeded.
A re-validation that can never fail appears as a branch proved unreachable. Errors name the field
they complain about.

Where the code and its documentation differ, the model follows the code:

- `synchronize_encounter_runtime` is not atomic: a reading refused in mid-loop, or a revision at its
  maximum, leaves earlier writes behind (`HeroLaws.SynchronizationIsNotAtomic`,
  `HeroLaws.RevisionLimitIsNotAtomic`). The hero is still valid, and `HeroLaws.RefusalIsAtomicIff`
  says, for every refused call, exactly when nothing changes.
- The comment on `instantiate_for_campaign` asks that campaign pins be compatible with the
  character's theme pins. The code receives no campaign pins and makes no such test.
- `HeroCreationDraft::validate` does not tie the revision to the step
  (`HeroCreationRuns.AnyRevisionIsValid`). That link is proved for drafts reached from `new`, and
  relative to the starting revision for any valid draft.
- `ActionPointPolicy::apply` uses plain 32-bit arithmetic, which wraps in release builds.
  `PointLedger.ApplyIsExactIff` gives the exact balances on which wrapping is harmless.
- The limiter reads the clock before it takes its lock, so times can arrive out of order. That is
  harmless inside a window. What the window law needs is that no window is refilled: left for another
  and returned to with its maximum already used. `RateLimits.LimiterMeetsSpecificationIff` and
  `RateLimits.WindowsAreBoundedIff` prove that this condition is exact, and
  `RateLimits.AnySpanIsBounded` bounds every span for every clock by the number of visits.

Run `dafny verify dfyconfig.toml` to check everything.

## Model

| member | source | states |
|---|---|---|
| HeroRules.AssignmentIsPermutation | crates/game-core/src/hero.rs:363-373 | sort-and-compare accepts an ability assignment iff it is a permutation of the standard array |
| HeroRules.AssignmentScores | crates/game-core/src/hero.rs:386-417 | a valid assignment can never fail the score range checks; human scores are one above base scores |
| ChoiceLaws.NewScoresIff | crates/game-core/src/ability.rs:32-94 | any six scores from 1 to 30, and no others, make a score block that keeps each in its place |
| ChoiceLaws.ScoresNeedTheArray | crates/game-core/src/hero.rs:386-417 | neither score block is computed for an assignment that is not the standard array dealt out |
| HeroRules.CarriedListIsNeverTooLong | crates/game-core/src/hero.rs:514-520 | the length test on carried items is implied by strict order: it can never reject |
| HeroRules.CarriedListIsCanonical | crates/game-core/src/hero.rs:3089-3101 | two accepted carried lists with the same items are the same list |
| Sorting.CanonicalListsAgree | crates/game-core/src/hero.rs:3089-3101 | strict adjacent order makes any list the only accepted list with its elements |
| HeroRules.ToneLimitsAreDistinctProse | crates/game-core/src/hero.rs:770-785 | the insert-into-a-set pass accepts exactly lists of legal texts without repeats |
| HeroSheets.DerivationSucceedsIff | crates/game-core/src/hero.rs:1302-1442 | deriving a sheet succeeds iff the choices are valid and the advancement record fits the level; no later range, loadout or capacity error is reachable, and the record's content is not read |
| HeroRules.EveryCombinationFits | crates/game-core/src/hero.rs:1231-1265 | no combination is a dead end: every class, style and background can be completed to a valid record from every valid assignment, pins and presentation |
| HeroRules.ValidRecordsExist | crates/game-core/src/hero.rs:1231-1265 | there are valid records of every class and style |
| ChoiceLaws.ValidRecordsAre | crates/game-core/src/hero.rs:1231-1265 | a choice record is valid exactly when its pins are one of six, its scores are 15, 14, 13, 12, 10 and 8 dealt out, and its skills, loadout, spells and presentation are on explicit lists of what its class, background and intelligence offer |
| ChoiceLaws.PinsAcceptedIff | crates/game-core/src/hero.rs:107-190 | six pin sets are accepted, three for each theme, and no mixture of them |
| ChoiceLaws.SkillsAcceptedIff | crates/game-core/src/hero.rs:711-729 | accepted class skills are exactly the ascending pairs from the set each class and background leaves |
| ChoiceLaws.FighterLoadoutsAre | crates/game-core/src/hero.rs:514-620 | a fighter's accepted loadouts are exactly: chain or leather, a longsword or one of ten simple weapons, shield or none, with no greatclub beside a shield or the dueling style |
| ChoiceLaws.WizardLoadoutsAre | crates/game-core/src/hero.rs:514-620 | a wizard has exactly two accepted loadouts, with dagger or quarterstaff |
| ChoiceLaws.EquipmentRefusals | crates/game-core/src/hero.rs:514-620 | which error a loadout is refused with: its list, its simple weapon, two armors, shield, armor, and only then the class rules |
| ChoiceLaws.ItemsAreListed | crates/game-core/src/hero.rs:421-446 | the order in which items must be listed |
| ChoiceLaws.InOrderIff | crates/game-core/src/hero.rs:3089-3101 | the adjacent-pair test on carried items accepts exactly the lists in declared order, every pair of them |
| ChoiceLaws.SpellsAcceptedIff | crates/game-core/src/hero.rs:674-700 | accepted spells are exactly: none for a fighter; for a wizard all cantrips, all three spells, and one of the listed prepared sets of the size intelligence allows |
| ChoiceLaws.PresentationAcceptedIff | crates/game-core/src/hero.rs:753-785 | each text within its own length, at most eight tone limits, no two alike |
| ChoiceLaws.OpaqueIdsAre | crates/game-core/src/identifier.rs:6-13 | an identifier is 1 to 128 ASCII letters, digits and four marks |
| ChoiceLaws.AsciiProseIs | crates/game-core/src/hero.rs:3119-3137 | in ASCII, accepted prose is printable text within its length that is not all spaces |
| ChoiceLaws.WhitespaceIs | crates/game-core/src/hero.rs:3119-3137 | trimming removes exactly the 25 code points of the Unicode White_Space property |
| HeroSheets.DerivedRuntime | crates/game-core/src/hero.rs:1361-1408 | a derived sheet starts with full hit points and exactly the class's pools for the level |
| HeroSheets.LevelTwoRaisesHitPoints | crates/game-core/src/hero.rs:1444-1465 | every valid hero has at least 5 hit points at level one and gains at least 3 at level two |
| SheetLaws.HitPointsAreExact | crates/game-core/src/hero.rs:1444-1465 | no floor ever acts on a valid hero: level one is hit die plus constitution, and level two adds that number again less four (fighter) or two (wizard) |
| SheetTables.EachLevelGivesOne | crates/game-core/src/hero.rs:1444-1465 | with any modifiers at all, each level gives its die and constitution but never less than one hit point |
| SheetLaws.AbilitiesFollowTheAssignment | crates/game-core/src/hero.rs:1328-1342 | the sheet's base scores are a permutation of the standard array, each human score is one higher, each modifier is the halved distance to ten rounded down, and exactly the class's two saving throws carry proficiency |
| SheetTables.SkillsAreExact | crates/game-core/src/hero.rs:1343-1360 | on every derived sheet each of the 18 skills stands at its own place with the modifier of its governing ability, taken from five skill lists, plus two exactly when it is one of the four trained skills |
| SheetTables.ArmorClassIsExact | crates/game-core/src/hero.rs:1410-1442 | armor class is 16 in chain mail, 11 or 10 plus dexterity in leather or none, plus two for a shield and one for the defense style |
| SheetTables.ArmorClassExistsIff | crates/game-core/src/hero.rs:1410-1442 | with modifiers of legal scores, the listed loadouts and no others have an armor class |
| SheetTables.SpeedIsExact | crates/game-core/src/hero.rs:1334-1341 | speed is 20 for chain mail under strength 13 and 30 otherwise |
| SheetTables.AttacksAreExact | crates/game-core/src/hero.rs:1494-1603 | a sheet lists one attack for each weapon, melee first, each with the ability, bonus, dice, damage type, ranges and grip of a separate weapon table |
| SheetTables.PoolsAre | crates/game-core/src/hero.rs:1605-1652 | the full pools of both classes at both levels |
| SheetTables.FeaturesAndActionsAre | crates/game-core/src/hero.rs:1384-1392 | which features are active, which one is dormant, and which actions each class and level has |
| SheetTables.CastingIsExact | crates/game-core/src/hero.rs:1654-1692 | a caster's bonus and save DC from intelligence, its lists as chosen, and a capacity read off the intelligence score |
| SheetTables.CastingExistsIff | crates/game-core/src/hero.rs:1654-1692 | spells can be put on a sheet exactly when there are none or a wizard's prepared list fits the capacity |
| SheetTables.HeadingIs | crates/game-core/src/hero.rs:1384-1408 | schema, derivation, level, proficiency bonus, and the loadout repeated as chosen |
| SheetTables.AdvancementIs | crates/game-core/src/hero.rs:1308-1325 | level one takes no advancement record and level two exactly the one choice of the class |
| SheetLaws.ArmorClassRange | crates/game-core/src/hero.rs:1410-1442 | armor class lies in 9 to 19 for every legal hero and does not depend on the level |
| SheetLaws.ShieldAddsTwo | crates/game-core/src/hero.rs:1410-1442 | between any two valid records that differ only by a shield, armor class differs by exactly two, whatever the armor, style and level |
| SheetLaws.DefenseTradesDamageForArmor | crates/game-core/src/hero.rs:1410-1557 | defense instead of dueling adds exactly one armor class; each attack keeps its bonus and number of dice, with dice no smaller and at most two less in the constant; nothing else changes but the feature list |
| SheetLaws.LevelTwoOnlyAdds | crates/game-core/src/hero.rs:1302-1408 | from level one to level two, features and actions are only extended and no other field moves but level, hit points, pools and a spell capacity that never falls |
| HeroLaws.SheetIgnoresPresentation | crates/game-core/src/hero.rs:1302-1408 | valid choice records that differ only in pins, concept and presentation have equal sheets |
| HeroLaws.FourProficientSkills | crates/game-core/src/hero.rs:1343-1360 | every valid hero's sheet marks exactly four distinct skills: the two class and the two background skills |
| HeroLaws.SheetAgreesWithItself | crates/game-core/src/hero.rs:1361-1692 | passive values are ten plus the listed skill; attacks add proficiency to their own ability and only dueling adds damage; a sheet casts iff it is a wizard's, with a save DC eight above the attack bonus and prepared spells from the book within capacity |
| HeroCharacters.CompareSheet | crates/game-core/src/hero.rs:1992-2032 | the normalising loop accepts exactly the sheets equal to the expected one except for current hit points and pool currents, each at most its maximum, with no pool reordered, repeated or missing |
| HeroCharacters.NormalizedAgrees | crates/game-core/src/hero.rs:2003-2032 | copying counters by kind and then comparing is place-by-place agreement, because derived kinds never repeat |
| HeroCharacters.HeroCharacter.Create | crates/game-core/src/hero.rs:1934-1959 | creation succeeds iff the identifiers and choices are legal; the hero holds what was given, at level one with no experience and revision 0; the final validation cannot fail |
| HeroCharacters.HeroCharacter.Validate | crates/game-core/src/hero.rs:1961-2033 | accepts exactly legal identity, legal progress and a sheet that is the derived one up to counters |
| CommandLaws.ValidHeroesAre | crates/game-core/src/hero.rs:1961-2033 | a stored hero is valid exactly when its identity is legal, its record valid, its advancement the one its level calls for, its experience below 900 and from 300 at level two, and every sheet field the derived one but for counters within their maxima |
| HeroCharacters.HeroCharacter.WritePools | crates/game-core/src/hero.rs:2055-2081 | the in-place loop writes what the functional specification writes, and on every exit keeps kinds, order, maxima and counter bounds |
| HeroCharacters.HeroCharacter.SynchronizeEncounterRuntime | crates/game-core/src/hero.rs:2037-2091 | on every exit, errors included, a valid hero stays valid; the state and the verdict are those of the specification, and the closing validation cannot reject |
| HeroCharacters.HeroCharacter.ApplyReward | crates/game-core/src/hero.rs:2113-2180 | succeeds exactly on the guards and only for a command naming this hero and revision; adds 50, 150 or 300 experience by tier and one revision; changes nothing on an error; re-validation and audit cannot reject |
| CommandLaws.RewardAcceptedIff | crates/game-core/src/hero.rs:2113-2160 | a reward is accepted iff command and context are legal, it names this hero and its revision, the total stays below 900 and the revision can grow |
| CommandLaws.RewardRefusals | crates/game-core/src/hero.rs:2113-2160 | which error a legal reward is refused with, and which of several comes first |
| CommandLaws.RewardAuditTells | crates/game-core/src/hero.rs:2161-2178 | the audit names actor, hero, key and tier, and its amounts and revisions are exactly what moved |
| CommandLaws.RewardAuditValidIff | crates/game-core/src/hero.rs:2339-2361 | a stored reward audit is valid exactly when its identifiers are legal, it happened, and revision, experience and eligibility follow from the tier |
| HeroCharacters.HeroCharacter.LevelUp | crates/game-core/src/hero.rs:2182-2278 | succeeds exactly on the guards and only for a command naming this hero and revision, and then is the clamp-free level-up; changes nothing on an error; re-validation and audit cannot reject |
| CommandLaws.LevelUpAcceptedIff | crates/game-core/src/hero.rs:2182-2220 | a level-up is accepted iff command and context are legal, it names this hero and its revision, the hero is at level one with 300 experience, the choice is the class's one, and the revision can grow |
| CommandLaws.LevelUpRefusals | crates/game-core/src/hero.rs:2182-2220 | which error a legal level-up is refused with, and which of several comes first |
| CommandLaws.LevelUpAuditTells | crates/game-core/src/hero.rs:2258-2275 | the audit names actor, hero, key and choice, with the maximum hit points and pools of before and after |
| CommandLaws.LevelUpAuditValidIff | crates/game-core/src/hero.rs:2383-2402 | a stored level-up audit is valid exactly when its identifiers are legal, it happened, and it shows one step from level one to two with more hit points and other pools |
| HeroCharacters.AdvanceSheet | crates/game-core/src/hero.rs:2221-2257 | the derivation and the two checked hit-point steps cannot fail, and capping hit points changes nothing |
| HeroCharacters.AdvancePools | crates/game-core/src/hero.rs:2242-2256 | the pool loop with its saturating sums and caps equals carrying each pool's expenditure exactly |
| HeroCharacters.LevelUpKeepsValid | crates/game-core/src/hero.rs:2182-2278 | an eligible valid hero below the revision limit is valid after the level-up |
| HeroCharacters.LevelUpIsVisible | crates/game-core/src/hero.rs:2383-2402 | the two facts the audit demands, more maximum hit points and changed pools, always hold |
| HeroSync.SyncPoolsWrites | crates/game-core/src/hero.rs:2054-2081 | a loop that completes had distinct, known kinds, and each pool holds its reading |
| HeroSync.GoodReadingsAreAccepted | crates/game-core/src/hero.rs:2054-2081 | distinct readings of known kinds within their maxima are never refused |
| HeroSync.SyncPoolsStayLegal | crates/game-core/src/hero.rs:2054-2081 | after any prefix of writes the pools are the same pools with counters in range |
| HeroSync.SyncCoversEveryPool | crates/game-core/src/hero.rs:2048-2081 | pigeonhole: as many distinct known readings as pools leave no pool without its reading |
| HeroLaws.SynchronizationSucceedsIff | crates/game-core/src/hero.rs:2037-2091 | succeeds iff hit points fit, readings are as many as pools, distinct, known and within maxima, and the revision can grow |
| CommandLaws.SynchronizationRefusals | crates/game-core/src/hero.rs:2042-2090 | which error a refused synchronisation gets: hit points first, then readings, then the revision limit |
| HeroLaws.SynchronizationStoresEveryReading | crates/game-core/src/hero.rs:2037-2091 | on success every pool holds exactly the supplied value for its kind, and maxima, order, choices, level and experience are untouched |
| HeroLaws.SynchronizationIsNotAtomic | crates/game-core/src/hero.rs:2055-2081 | for every created hero, a repeated reading is refused after its first copy was written |
| HeroLaws.RefusalIsAtomicIff | crates/game-core/src/hero.rs:2037-2091 | every refused synchronisation of a valid hero changes nothing exactly when hit points or the number of readings are refused first, or every reading before the first bad one repeats its stored counter and, if none is bad, so do the hit points |
| HeroLaws.RevisionLimitIsNotAtomic | crates/game-core/src/hero.rs:2082-2090 | at the largest revision, the stored readings with any legal hit points are refused after the hit points were written |
| HeroLaws.LevelUpConservesExpenditure | crates/game-core/src/hero.rs:2221-2256 | for hit points and every pool of level one, maximum minus current is the same before and after; new pools start full; maximum hit points strictly rise |
| HeroRuns.AfterKeepsValid | crates/game-core/src/hero.rs:2037-2278 | any single request, accepted or refused, keeps a valid hero valid |
| HeroRuns.StepAccounts | crates/game-core/src/hero.rs:2037-2278 | what one request moves, by how much, and that a refused reward or level-up moves nothing |
| HeroRuns.RunAccounts | crates/game-core/src/hero.rs:2037-2278 | over any run, experience is the sum of accepted awards, the revision counts accepted requests, level rises by accepted level-ups, and choices never change |
| HeroRuns.ExperienceByTier | crates/game-core/src/hero.rs:1854-1860 | over any run, experience rises by 50 for each accepted minor award, 150 for each significant and 300 for each major one, and by nothing else |
| HeroRuns.CreatedHeroHistory | crates/game-core/src/hero.rs:1854-2278 | over any run of a created hero: always valid, experience a multiple of 50 and at most 850, at most one level-up, and level two only with at least 300 earned |
| HeroRuns.OneWinnerPerRevision | crates/game-core/src/hero.rs:3143-3149 | in any run at most one reward or level-up naming a given revision is accepted; later ones change nothing |
| HeroRuns.PassedRevisionIsDead | crates/game-core/src/hero.rs:3143-3149 | once the hero has passed a revision, no later command naming it is ever accepted |
| HeroRuns.RedeliveryIsStale | crates/game-core/src/hero.rs:2113-2278 | delivering an applied command again, after anything else, fails with the stale-revision error naming both revisions |
| HeroLaws.TwinsStepAlike | crates/game-core/src/hero.rs:2113-2278 | heroes differing only in pins, concept and presentation give each request the same verdict and stay so related |
| HeroLaws.TwinsRunAlike | crates/game-core/src/hero.rs:2113-2278 | under any shared run they accept and refuse the same requests and keep equal sheets, levels and experience |
| HeroDrafts.CompleteDraftsHaveValidChoices | crates/game-core/src/hero.rs:2899-2938 | from the presentation step on, a valid draft's fields always form a valid choice record |
| HeroDrafts.DraftValidationIsExact | crates/game-core/src/hero.rs:2641-2731 | draft validation accepts exactly: the fields the step calls for, no others, legal together; its final whole-record check adds nothing and no `expect` can fail |
| CommandLaws.ValidDraftsAre | crates/game-core/src/hero.rs:2641-2731 | a stored draft is valid exactly when its identifiers are legal, it has an expiry, and it holds selections on the offered lists for every step it has passed and nothing of the others |
| HeroCreation.HeroCreationDraft.New | crates/game-core/src/hero.rs:2611-2639 | a new draft exists iff its three identifiers are legal and its expiry is not zero, and it is valid |
| HeroCreation.HeroCreationDraft.ApplyTrusted | crates/game-core/src/hero.rs:2737-2897 | on a valid draft succeeds exactly on the explicit guards, and only for a command that names this draft and revision, from its owner, no later than expiry; stores the payload, moves step and revision by one; later validations and audits cannot reject; an error changes nothing; a commit returns the fresh hero and its audit |
| CommandLaws.CreationAcceptedIff | crates/game-core/src/hero.rs:2737-2850 | a creation command is accepted iff command and context are legal, it names this draft and revision, comes from the owner no later than expiry, offers a listed payload for the current step, and the revision can grow |
| CommandLaws.CreationRefusals | crates/game-core/src/hero.rs:2742-2765 | which error a legal creation command is refused with: draft, actor, expiry, stale revision, then step |
| CommandLaws.TransitionAuditTells | crates/game-core/src/hero.rs:2861-2876 | the transition audit names owner, draft and key, and the one step, revision and action taken |
| CommandLaws.TransitionAuditValidIff | crates/game-core/src/hero.rs:3025-3066 | a stored transition audit is valid exactly when its identifiers are legal, it happened, and it shows one revision and one step by the action that leaves it |
| CommandLaws.CreatedAuditTells | crates/game-core/src/hero.rs:2877-2893 | the created audit holds the committed hero, its choices and its derived sheet |
| CommandLaws.CreatedAuditValidIff | crates/game-core/src/hero.rs:2421-2438 | a stored created-character audit is valid exactly when its identifiers are legal, it happened, its choices are valid and its sheet is theirs at level one |
| HeroCreation.ApplyIntent | crates/game-core/src/hero.rs:2767-2851 | the branch of an intent fails only by its own payload rule; no prerequisite read and no hero creation in it can fail |
| HeroCreation.AdvanceKeepsValid | crates/game-core/src/hero.rs:2767-2859 | the guards alone make the advanced draft valid |
| HeroCreation.TransitionAuditPasses | crates/game-core/src/hero.rs:3024-3066 | the transition audit of an accepted command always validates |
| HeroCreation.CreatedAuditPasses | crates/game-core/src/hero.rs:2420-2438 | the created-character audit of an accepted commit always validates |
| HeroCreationRuns.AnyRevisionIsValid | crates/game-core/src/hero.rs:2641-2731 | validation never ties the revision to the step: a valid draft stays valid under any revision |
| HeroCreationRuns.RunCounts | crates/game-core/src/hero.rs:2737-2897 | from any valid draft each accepted command moves step and revision by one, at most nine are accepted, and a committed draft accepts none |
| HeroCreationRuns.AcceptedDeliveriesBelong | crates/game-core/src/hero.rs:2737-2765 | in any run the k-th accepted delivery came from the draft's owner, named the draft and the revision it had after k acceptances, and arrived no later than expiry |
| HeroCreationRuns.RunRecords | crates/game-core/src/hero.rs:2768-2850 | over any run the draft's fields are exactly the payloads of the accepted commands, one per step, in order |
| HeroCreationRuns.RunHeroes | crates/game-core/src/hero.rs:2829-2850 | a run makes exactly one hero if it commits the draft and none otherwise, and it is the hero of the final draft |
| HeroCreationRuns.EveryRunKeepsItsHistory | crates/game-core/src/hero.rs:2611-2938 | over every run of a new draft: revision equals step ordinal equals number accepted, at most nine; fields are the accepted payloads; one hero iff committed, with exactly those choices |
| HeroCreationRuns.EveryValidRecordIsReachable | crates/game-core/src/hero.rs:2611-2938 | for every valid choice record some run of a new draft makes exactly that hero |
| PlayerCharacters.AccountRule | crates/game-core/src/player_character.rs:121-145 | the two special cases change nothing: an account identifier is accepted iff it is a legal identifier with the account prefix |
| PlayerCharacters.PlayerCharacter.New | crates/game-core/src/player_character.rs:44-67 | the exact condition for a library character, that it holds what was given, and that validating it afterwards cannot fail |
| PlayerCharacters.PlayerCharacter.Validate | crates/game-core/src/player_character.rs:69-78 | accepts exactly: schema 1, legal identifiers with the account prefix, a display name within 200 characters, and valid choices |
| PlayerCharacters.PlayerCharacter.BumpRevision | crates/game-core/src/player_character.rs:80-84 | counts up, saturates at the largest revision, and never affects legality |
| PlayerCharacters.PlayerCharacter.InstantiateForCampaign | crates/game-core/src/player_character.rs:91-106 | succeeds iff the character and both identifiers are legal; the hero is fresh and valid, and the library character is not modified |
| PlayerCharacters.Perform | crates/game-core/src/hero.rs:2037-2278 | the three methods on a hero object realise the transition function and the verdicts that the run laws are about |
| PlayerCharacters.PlayBoth | crates/game-core/src/player_character.rs:86-106 | any interleaving over two hero objects gives each request the verdict, errors included, and leaves each object in the state, that its own subsequence alone would give |
| PlayerCharacters.PlayTwoCampaigns | crates/game-core/src/player_character.rs:86-106 | two instances of one library character answer and evolve independently under any interleaving, and the library character never changes |
| RateLimits.RateWindow.Check | app/src/main.rs:248-273 | the counters and the decision are those of one charge, and counters never exceed their maxima |
| RateLimits.RequestRateLimiter.Check | app/src/main.rs:216-222 | a poisoned lock answers unavailable and charges nothing; otherwise it is one charge |
| RateLimits.LimiterAllowsIff | app/src/main.rs:248-273 | for any history and clock, a request is allowed iff it is unmetered or fewer requests than its class maximum arrived in the latest unbroken block of its window: past decisions do not matter |
| RateLimits.BurstIsCut | app/src/main.rs:44-47 | within one minute since the epoch the first 300 mutations, 6 restores or 600 image reads are allowed and all later ones limited |
| RateLimits.NextDecisionDiffersIff | app/src/main.rs:248-273 | after any history, the next decision differs from the history specification exactly when the request refills: its class has used the window up, but not since the window was last entered; the limiter then allows it |
| RateLimits.LimiterMeetsSpecificationIff | app/src/main.rs:248-273 | the limiter equals the history specification (allowed iff fewer than the class maximum were already allowed in that 60-second window) exactly on the traces that never refill a window |
| RateLimits.WindowsAreBoundedIff | app/src/main.rs:248-273 | no window of any class ever allows more than the maximum, exactly on the traces that never refill a window |
| RateLimits.NoReturnNeverRefills | app/src/main.rs:216-222 | a trace that never returns to a window it left, whatever the order of times inside a window, never refills one; a clock that never goes back is a special case |
| RateLimits.ClassesAreIndependentIff | app/src/main.rs:253-263 | deleting every other class's requests changes no decision, exactly when no request got its room from a visit to another window that its own class did not make |
| RateLimits.NeverRefillsNeverFrees | app/src/main.rs:253-263 | on traces that never refill a window, no class ever gains from another |
| RateLimits.VisitsBoundWindow | app/src/main.rs:248-273 | for any clock, a window allows at most the class maximum for each time it is entered |
| RateLimits.AnySpanIsBounded | app/src/main.rs:248-273 | for any clock, a half-open 60-second span, however placed, holds at most the class maximum for each visit to the two windows it touches; at most twice the maximum on traces that never refill |
| RateLimits.SpanGrowsWithReturns | app/src/main.rs:248-273 | no number bounds a span for every clock: n returns to a window allow n times the maximum within it |
| RateLimits.LeavingRefills | app/src/main.rs:253-257 | after any history, one metered request in another window gives a window its whole maximum back, even when it was used up |
| Progression.PartitionPoint | crates/game-core/src/progression.rs:35-40 | the binary search finds the number of thresholds met |
| Progression.FromExperience | crates/game-core/src/progression.rs:35-40 | the searched level is the linearly counted one, always in 1 to 20 |
| Progression.LevelReachedIff | crates/game-core/src/progression.rs:31-40 | the level is at least L exactly when experience is at least L's threshold |
| Progression.LevelTable | crates/game-core/src/progression.rs:5-40 | the level of every experience total, as a written-out table |
| Characters.Character.Build | crates/game-core/src/character.rs:29-42 | a built character holds what was given, is legal, and has the level its experience determines |
| Characters.RecordAcceptedIff | crates/game-core/src/character.rs:179-205 | what a legal character record is: identifier, name and theme of 1 to 200 characters that are not blank, and hit points up to a maximum of at least one |
| Characters.Character.Validate | crates/game-core/src/character.rs:92-108 | accepts exactly legal characters, including agreement of level and experience |
| Characters.Character.AwardExperience | crates/game-core/src/character.rs:111-134 | succeeds iff the character is legal and the total fits 32 bits; keeps it legal and reports the crossing; an error changes nothing |
| Characters.SummaryIsSoundAndComplete | crates/game-core/src/character.rs:153-176 | the summary validator accepts exactly the summaries an award can produce |
| Characters.RunListsEveryLevelOnce | crates/game-core/src/character.rs:111-134 | over any run of awards the reported levels, concatenated, are the levels after the first up to the last, one by one |
| Characters.SplitAwardsAgree | crates/game-core/src/character.rs:111-134 | granting an amount in any parts ends in the same total and list of levels as at once |
| Checks.RollValidated | crates/game-core/src/dice.rs:156-164 | one die is drawn, and it is returned iff it lies on the die |
| Checks.ResolveD20 | crates/game-core/src/dice.rs:135-154 | one die is drawn exactly when there are advantage and disadvantage sources on both sides or neither, else two, of which the larger or smaller is kept; the error names the first illegal die |
| Checks.OpposedSourcesCancel | crates/game-core/src/dice.rs:55-63 | any number of sources on both sides gives the roll of none at all |
| Checks.ProficiencyIs | crates/game-core/src/proficiency.rs:12-28 | what proficiency and expertise add at each level |
| Checks.ResolveCheck | crates/game-core/src/check.rs:18-56 | the roll follows the sources; only an illegal die is an error: validating the finished result cannot fail |
| Checks.CheckAddsUp | crates/game-core/src/check.rs:18-56 | a check adds the kept die, its own ability's halved score, proficiency and situation, and succeeds on meeting the difficulty |
| Checks.CheckResultsAreValid | crates/game-core/src/check.rs:61-89 | soundness of the validator: every resolvable result passes |
| Checks.ValidResultIsReachable | crates/game-core/src/check.rs:61-89 | completeness, with witnesses: scores, level, proficiency and dice that produce any accepted result |
| Checks.ValidatorIsSoundAndComplete | crates/game-core/src/check.rs:61-89 | the validator accepts exactly the results some scores, level, proficiency and legal dice make |
| Checks.ResolveAttack | crates/game-core/src/check.rs:136-175 | the roll follows the sources, the result is that of the drawn dice, and only an illegal die is an error |
| Checks.AttackAddsUp | crates/game-core/src/check.rs:136-175 | an attack adds up like a check; a natural 20 is a critical hit and a natural 1 a miss whatever the total, and otherwise it hits on meeting the armor class |
| Checks.BetterModeKeepsSuccess | crates/game-core/src/dice.rs:135-154 | with the first die fixed and any second dice, success under disadvantage implies success on a normal roll, which implies it under advantage |
| Checks.BetterModeKeepsHit | crates/game-core/src/check.rs:136-175 | the same for attack hits, natural 1 and 20 included |
| Proposals.ValidateAgainst | crates/game-core/src/ai_turn.rs:271-356 | accepts exactly the acceptable proposals; asks for confirmation exactly on checks with irreversible or defeating stakes, converts exactly actions, scenes and the other checks, only presents narration and only asks clarifications; and the exact conditions of the stale and contradiction errors |
| Proposals.AcceptedIsCurrent | crates/game-core/src/ai_turn.rs:47-86 | an accepted proposal was made for this session, revision, event, prompt, policy and configuration |
| Proposals.ContentAcceptedIff | crates/game-core/src/ai_turn.rs:271-356 | a proposal's content is legal exactly when everything it names is on the context's own list, texts are bounded, a narration claims exactly the authoritative facts, and one to four choices differ |
| Proposals.BaseAcceptedIff | crates/game-core/src/ai_turn.rs:47-62 | what identifies a proposal: schema 1, legal names and a revision past zero |
| Proposals.ContextAcceptedIff | crates/game-core/src/ai_turn.rs:382-418 | a context is valid exactly when it is named, past revision zero, its five lists have at most 256 legal names, and its at most 64 sound facts occur once each |
| Proposals.SoundIff | crates/game-core/src/ai_turn.rs:183-223 | a fact is valid exactly when its names are legal, classes and difficulties are positive, and damage does not heal |
| Proposals.ValidateChoices | crates/game-core/src/ai_turn.rs:330-354 | accepts exactly one to four legal choices with pairwise distinct identifiers whose actions are currently legal |
| Proposals.SetTestIsPermutationTest | crates/game-core/src/ai_turn.rs:315-334 | against a duplicate-free list, set equality plus full size is multiset equality |
| Proposals.FullSizeMeansNoRepeats | crates/game-core/src/ai_turn.rs:383-417 | as many distinct elements as entries iff no entry repeats |
| RollRecords.FoldIsOrderedSum | crates/game-core/src/roll.rs:528-555 | the fold accepts exactly legal, strictly ascending names and yields their sum |
| RollRecords.ValidRecordsAre | crates/game-core/src/roll.rs:489-633 | a record is valid exactly when its names are legal, its modifiers ascend and make up the constant, its dice are on their faces with the right ones kept, its total is their sum within a million, and its cursor moved at least a word a die |
| RollRecords.SpanCoversDice | crates/game-core/src/roll.rs:556-633 | a valid record's cursor span pays for every die it rolled |
| Sorting.SortSorts | crates/game-core/src/exploration.rs:713-718 | sorting gives a rearrangement of the input in order |
| Sorting.StrictIsCanonical | crates/game-core/src/exploration.rs:713-736 | a sorted list with the elements of a strictly sorted one is that list, so any sort, stable or not, gives the same answer |
| RollChains.ValidatePair | crates/game-core/src/exploration.rs:691-744 | accepts exactly records that restate the raw roll with its modifiers rearranged |
| RollChains.AcceptedRecordTells | crates/game-core/src/exploration.rs:691-766 | an accepted record has the raw roll's actor, target, purpose, mode, expression, dice, kept dice and total, and an identifier built from session, event and number |
| RollChains.DecimalSpells | crates/game-core/src/exploration.rs:697-700 | numbers in identifiers are their decimal digits, without leading zeros |
| RollChains.ValidateRolls | crates/game-core/src/exploration.rs:505-534 | the loop accepts exactly equally many valid restating records that form one chain |
| RollChains.SpansTile | crates/game-core/src/exploration.rs:510-534 | spans of a chain sum to the last cursor minus the first, and cover the dice of all records |
| RollChains.CursorsAreDisjoint | crates/game-core/src/exploration.rs:510-534 | no two records of a chain share a random word, and all share the seed reference |
| RollChains.RollIdsDiffer | crates/game-core/src/exploration.rs:697-700 | the records of one accepted outcome have pairwise different roll identifiers |
| RollChains.AcceptedOutcomeIsOneChain | crates/game-core/src/exploration.rs:505-534 | an accepted outcome is one unbroken cursor interval under one seed; each record's modifiers are the raw ones in name order with the same sum |
| Digests.FromBytes | crates/game-core/src/digest.rs:27-34 | the loop builds the digest text of the bytes, which the parser accepts |
| Digests.DigestSpells | crates/game-core/src/digest.rs:27-34 | a digest is its prefix and, byte by byte, the high then the low lower-case digit |
| Digests.FormattingIsBijective | crates/game-core/src/digest.rs:12-34 | formatting is a bijection from 32-byte arrays onto exactly the accepted texts |
| Paths.DecodingUndoesEncoding | app/src/components/protected_layout.rs:73-83 | percent-decoding (section 2.1 of RFC 3986) recovers every byte string |
| Paths.EncodingIsInjective | app/src/components/protected_layout.rs:73-83 | no two paths share an encoding |
| Paths.EncodingIsQuerySafe | app/src/components/protected_layout.rs:73-83 | an encoding holds only unreserved characters (section 2.3 of RFC 3986), slashes and percent signs |
| Paths.EncodedByteIs | app/src/components/protected_layout.rs:73-83 | which bytes stand for themselves, and that every other becomes a percent sign and two upper-case digits |
| Paths.EncodingJoins | app/src/components/protected_layout.rs:73-83 | the encoding of a path is that of its bytes, joined |
| Cookies.OpaqueCookie | app/src/auth_boundary.rs:268-289 | returns a value iff all headers and segments are well formed and exactly one segment has the name, with a legal value; the early returns lose nothing |
| Cookies.ReturnedValueIsPlain | app/src/auth_boundary.rs:268-289 | a returned value is 1 to 128 letters, digits, hyphens and underscores, and every header was visible ASCII and tabs |
| Cookies.PlainValuesAreLegal | app/src/auth_boundary.rs:275-281 | nothing else makes a value illegal |
| Cookies.ReadableIs | app/src/auth_boundary.rs:271 | a header is readable exactly when it is visible ASCII, spaces and tabs |
| Cookies.ScanHeader | app/src/auth_boundary.rs:272-286 | stopping at the first refused segment is final: no later segment could have restored a cookie |
| Cookies.JoinUndoesSplit | app/src/auth_boundary.rs:272 | splitting at semicolons loses nothing and leaves none inside a piece |
| Cookies.SplitOnceSpells | app/src/auth_boundary.rs:273 | a pair is found iff there is an equals sign, and it spells the text around the first one |
| Cookies.HeaderRoundTrip | app/src/auth_boundary.rs:272-273 | a header written from plain pairs reads back as exactly those pairs, in order |
| Cookies.WrittenCookieIsRead | app/src/auth_boundary.rs:268-289 | from a written header a value comes back iff one pair alone has the name and its value is legal |
| TurnLedger.ActionEconomy.Spend | crates/game-core/src/action.rs:67-82 | succeeds iff the resource is available, removes that one alone, and changes nothing on an error |
| TurnLedger.ActionEconomy.SpendMovement | crates/game-core/src/action.rs:84-93 | succeeds iff enough movement remains, subtracts it, and changes nothing on an error |
| TurnLedger.ActionEconomy.GrantBonusAction | crates/game-core/src/action.rs:63-65 | adds the bonus action and nothing else |
| TurnLedger.ActionEconomy.ResetForTurn | crates/game-core/src/action.rs:95-97 | the whole state a turn starts with, whatever came before |
| TurnLedger.TurnBalances | crates/game-core/src/action.rs:63-97 | over any turn, movement spent plus remaining is the speed, and a resource is used at most once per time held or granted |
| PointLedger.ApplyIsExact | crates/game-core/src/action_points.rs:102-117 | on a balance that is not negative, wrap-around never changes the answer, whatever the amount |
| PointLedger.ApplyIsExactIff | crates/game-core/src/action_points.rs:102-117 | the exact balances and caps on which machine and integer arithmetic agree for every entry |
| PointLedger.ChargeAgreesIff | crates/game-core/src/action_points.rs:102-122 | for every balance, cost and cap, the ledger applies a charge exactly when the policy says it can be spent, unless a payable charge leaves more than the cap or one that is not payable underflows into it; neither happens for a balance within the cap and a cost from zero up |
| PointLedger.LedgerBalances | crates/game-core/src/action_points.rs:54-117 | any run with any amounts keeps the balance in bounds and equal to the sum of accepted changes |

## Left out

- The fixed human-readable reasons of errors; an error keeps its kind, field and numbers.
- The payload of the unsupported-mechanic error of a third level: one constructor stands for it.
- The text of content-pack identifiers, versions and digests, of mechanic identifiers and of the
  derivation and capacity-policy identifiers: each is a constructor, with one more for every other text.
- The spell-effect table on a caster's sheet and the authored alternatives for unsupported actions: constants.
- Fields whose type has a single value in the engine (ruleset and random-number algorithm of a roll
  record) and their always-true tests.
- Ability scores of a rules character and the difficulty and tier fields of proposals: carried, never read by the checks modelled.
- Parsing of dice-expression text: a raw roll carries the parsed expression, or none.
- RollChains.ValidateRolls: assumes what the resolution's own validation establishes first (rolls
  numbered from one, kept indices in range; crates/game-core/src/encounter.rs, lines 2033-2062 and
  2516-2527); the rest of the outcome's validation, the legal-action comparison among it, is not modelled.
- Sorting.SortSorts: one insertion sort on values stands for the standard library's sorts, stable and
  unstable; sorting in place is not modelled.
- Progression.PartitionPoint: one binary search stands for the standard library's; only its contract is used.
- RateLimits.RequestRateLimiter.Check: the elapsed time is a parameter and lock poisoning a flag; concurrency appears only as times that need not be ordered.
- PointLedger.ApplyIsExact: models release builds, where arithmetic wraps; a debug build stops instead.
- Cookies.OpaqueCookie: header lookup is not modelled; headers arrive as a list, with characters for bytes.
- The random-number generator, serialisation formats, persistence, HTTP middleware, authentication other than the cookie parse, and the user interface.
- Exploration checks, social scenes and the encounter engine itself: their state is not part of this model.
