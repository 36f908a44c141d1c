// Every history of a creation draft (crates/game-core/src/hero.rs, lines 2597-2938).

module HeroCreationRuns {
  import opened Wrappers
  import opened MachineInts
  import opened Text
  import opened HeroRules
  import opened HeroDocuments
  import opened HeroDrafts
  import opened HeroCreation

  /** A command together with the trusted context it arrives in. */
  datatype Delivery = Delivery(command: CreationCommand, context: TrustedMutationContext)

  predicate Accepts(d: Draft, delivery: Delivery)
    requires ValidDraft(d)
  {
    CreationGuards(d, delivery.command, delivery.context).Success?
  }

  lemma AcceptedFacts(d: Draft, delivery: Delivery)
    requires ValidDraft(d) && Accepts(d, delivery)
    ensures d.revision < U64_MAX
    ensures d.step == delivery.command.intent.RequiredStep()
    ensures d.step.Ordinal() < LAST_ORDINAL
    ensures ValidDraft(Advanced(d, delivery.command.intent))
    ensures Advanced(d, delivery.command.intent).step.Ordinal() == d.step.Ordinal() + 1
  {
    hide ValidDraft, PayloadRule;
    AdvanceKeepsValid(d, delivery.command, delivery.context);
  }

  /** The draft one delivery leaves behind. */
  function After(d: Draft, delivery: Delivery): (r: Draft)
    requires ValidDraft(d)
    ensures ValidDraft(r)
  {
    hide ValidDraft, Accepts, Advanced;
    if Accepts(d, delivery) then
      AcceptedFacts(d, delivery);
      Advanced(d, delivery.command.intent)
    else d
  }

  /** What a run produces: the final draft, the accepted intents in order, and the heroes made. */
  datatype Outcome = Outcome(draft: Draft, accepted: seq<CreationIntent>, heroes: seq<Hero>)

  function HeroesOf(d: Draft, delivery: Delivery): seq<Hero>
    requires ValidDraft(d)
  {
    hide ValidDraft, HeroOf;
    if Accepts(d, delivery) && delivery.command.intent.Commit? then
      AcceptedFacts(d, delivery);
      [HeroOf(d, delivery.command.intent.characterId)]
    else []
  }

  function Run(d: Draft, deliveries: seq<Delivery>): (r: Outcome)
    requires ValidDraft(d)
    ensures ValidDraft(r.draft)
    decreases |deliveries|
  {
    hide ValidDraft, Accepts, After, HeroesOf;
    if deliveries == [] then Outcome(d, [], [])
    else
      var first := deliveries[0];
      var rest := Run(After(d, first), deliveries[1..]);
      Outcome(
        rest.draft,
        (if Accepts(d, first) then [first.command.intent] else []) + rest.accepted,
        HeroesOf(d, first) + rest.heroes)
  }

  // ----- Counting

  /** From any valid draft, each accepted command moves the step and the revision by one, so at
      most nine are ever accepted and a committed draft accepts none. */
  lemma {:induction false} RunCounts(d: Draft, deliveries: seq<Delivery>)
    requires ValidDraft(d)
    ensures var r := Run(d, deliveries);
      && r.draft.step.Ordinal() == d.step.Ordinal() + |r.accepted| <= LAST_ORDINAL
      && r.draft.revision == d.revision + |r.accepted|
      && (d.step.Committed? ==> r == Outcome(d, [], []))
    decreases |deliveries|
  {
    hide ValidDraft, Accepts, HeroOf;
    if deliveries != [] {
      if Accepts(d, deliveries[0]) {
        AcceptedFacts(d, deliveries[0]);
      }
      RunCounts(After(d, deliveries[0]), deliveries[1..]);
    }
  }

  /** Validation never ties the revision to the step: any other revision is as valid. Only a run does. */
  lemma AnyRevisionIsValid(d: Draft, revision: U64)
    requires ValidDraft(d)
    ensures ValidDraft(d.(revision := revision))
    ensures ValidateDraft(d.(revision := revision)).Success?
  {
    DraftValidationIsExact(d.(revision := revision));
    hide ValidateDraft;
  }

  // ----- Who, what and when

  /** The deliveries a run accepts, in order. */
  function AcceptedDeliveries(d: Draft, deliveries: seq<Delivery>): seq<Delivery>
    requires ValidDraft(d)
    decreases |deliveries|
  {
    hide ValidDraft, Accepts, After;
    if deliveries == [] then []
    else
      (if Accepts(d, deliveries[0]) then [deliveries[0]] else [])
      + AcceptedDeliveries(After(d, deliveries[0]), deliveries[1..])
  }

  /** A delivery that names this draft and this revision, by its owner, before it expires. */
  predicate Belongs(delivery: Delivery, d: Draft, revision: int) {
    && delivery.command.draftId == d.draftId
    && delivery.context.actorId == d.ownerId
    && delivery.context.occurredAt <= d.expiresAt
    && delivery.command.expectedRevision == revision
  }

  lemma AcceptedBelongs(d: Draft, delivery: Delivery)
    requires ValidDraft(d) && Accepts(d, delivery)
    ensures Belongs(delivery, d, d.revision)
  {
    hide ValidDraft, PayloadRule;
  }

  /** The parts of a draft that no command changes. */
  lemma StepKeepsTarget(d: Draft, delivery: Delivery)
    requires ValidDraft(d)
    ensures var next := After(d, delivery);
      && (next.draftId, next.ownerId, next.expiresAt) == (d.draftId, d.ownerId, d.expiresAt)
      && next.revision == d.revision + if Accepts(d, delivery) then 1 else 0
  {
    hide ValidDraft, Accepts;
    if Accepts(d, delivery) {
      AcceptedFacts(d, delivery);
    }
  }

  /** In any run, the k-th accepted delivery came from the draft's owner, named the draft and the
      revision it had then, and arrived no later than its expiry. */
  lemma {:induction false} AcceptedDeliveriesBelong(d: Draft, deliveries: seq<Delivery>)
    requires ValidDraft(d)
    ensures var accepted := AcceptedDeliveries(d, deliveries);
      && |accepted| == |Run(d, deliveries).accepted|
      && forall k :: 0 <= k < |accepted| ==>
           && accepted[k].command.intent == Run(d, deliveries).accepted[k]
           && Belongs(accepted[k], d, d.revision + k)
    decreases |deliveries|
  {
    hide ValidDraft, Accepts, After, HeroesOf;
    if deliveries != [] {
      var first, rest := deliveries[0], deliveries[1..];
      AcceptedDeliveriesBelong(After(d, first), rest);
      StepKeepsTarget(d, first);
      if Accepts(d, first) {
        AcceptedBelongs(d, first);
      }
    }
  }

  // ----- History

  /** One intent for each step, in order. */
  predicate InStepOrder(accepted: seq<CreationIntent>) {
    forall i :: 0 <= i < |accepted| ==> accepted[i].RequiredStep().Ordinal() == i
  }

  /** The selections up to the abilities. */
  predicate RecordsRules(d: Draft, accepted: seq<CreationIntent>)
    requires InStepOrder(accepted)
  {
    var n := |accepted|;
    && d.pins == (if n > 0 then Some(accepted[0].pins) else None)
    && d.concept == (if n > 1 then Some(accepted[1].concept) else None)
    && d.ancestry == (if n > 2 then Some(accepted[2].ancestry) else None)
    && d.class_ == (if n > 2 then Some(accepted[2].class_) else None)
    && d.assignment == (if n > 3 then Some(accepted[3].assignment) else None)
  }

  /** The selections from the background on. */
  predicate RecordsPerson(d: Draft, accepted: seq<CreationIntent>)
    requires InStepOrder(accepted)
  {
    var n := |accepted|;
    && d.background == (if n > 4 then Some(accepted[4].selection) else None)
    && d.equipment == (if n > 5 then Some(accepted[5].equipment) else None)
    && d.wizardSpells == (if n > 5 then accepted[5].wizardSpells else None)
    && d.presentation == (if n > 6 then Some(accepted[6].presentation) else None)
    && d.reviewed == (n > 7)
    && d.committedCharacterId == (if n > 8 then Some(accepted[8].characterId) else None)
  }

  /** The draft holds, field by field, the payloads of the accepted intents, and nothing else. */
  predicate Records(d: Draft, accepted: seq<CreationIntent>) {
    && |accepted| == d.step.Ordinal()
    && InStepOrder(accepted)
    && RecordsRules(d, accepted)
    && RecordsPerson(d, accepted)
  }

  lemma OrderSnoc(accepted: seq<CreationIntent>, intent: CreationIntent)
    requires InStepOrder(accepted) && intent.RequiredStep().Ordinal() == |accepted|
    ensures InStepOrder(accepted + [intent])
  {
  }

  lemma StepRecordsRules(d: Draft, accepted: seq<CreationIntent>, intent: CreationIntent)
    requires d.step == intent.RequiredStep() && |accepted| == d.step.Ordinal()
    requires InStepOrder(accepted) && InStepOrder(accepted + [intent]) && RecordsRules(d, accepted)
    ensures RecordsRules(Stepped(d, intent), accepted + [intent])
  {
    hide InStepOrder;
  }

  lemma StepRecordsPerson(d: Draft, accepted: seq<CreationIntent>, intent: CreationIntent)
    requires d.step == intent.RequiredStep() && |accepted| == d.step.Ordinal()
    requires InStepOrder(accepted) && InStepOrder(accepted + [intent]) && RecordsPerson(d, accepted)
    ensures RecordsPerson(Stepped(d, intent), accepted + [intent])
  {
    hide InStepOrder;
  }

  lemma StepRecords(d: Draft, accepted: seq<CreationIntent>, intent: CreationIntent)
    requires Records(d, accepted) && d.step == intent.RequiredStep() && d.revision < U64_MAX
    ensures Records(Advanced(d, intent), accepted + [intent])
  {
    OrderSnoc(accepted, intent);
    StepMovesByOne(d, intent);
    StepRecordsRules(d, accepted, intent);
    StepRecordsPerson(d, accepted, intent);
    hide InStepOrder, Stepped;
  }

  lemma AfterCases(d: Draft, delivery: Delivery)
    requires ValidDraft(d)
    ensures !Accepts(d, delivery) ==> After(d, delivery) == d
    ensures Accepts(d, delivery) ==>
      && d.revision < U64_MAX && d.step == delivery.command.intent.RequiredStep()
      && After(d, delivery) == Advanced(d, delivery.command.intent)
  {
    hide ValidDraft, Accepts, Advanced;
    if Accepts(d, delivery) { AcceptedFacts(d, delivery); }
  }

  lemma Regroup<T>(a: seq<T>, x: T, b: seq<T>)
    ensures (a + [x]) + b == a + ([x] + b)
  {
  }

  lemma {:induction false} RunRecords(d: Draft, history: seq<CreationIntent>, deliveries: seq<Delivery>)
    requires ValidDraft(d) && Records(d, history)
    ensures Records(Run(d, deliveries).draft, history + Run(d, deliveries).accepted)
    decreases |deliveries|
  {
    hide ValidDraft, Accepts, Advanced, After, Records, HeroesOf;
    if deliveries == [] {
      assert history + [] == history;
    } else {
      var first := deliveries[0];
      var next := After(d, first);
      var rest := Run(next, deliveries[1..]);
      AfterCases(d, first);
      if Accepts(d, first) {
        StepRecords(d, history, first.command.intent);
        RunRecords(next, history + [first.command.intent], deliveries[1..]);
        Regroup(history, first.command.intent, rest.accepted);
      } else {
        RunRecords(next, history, deliveries[1..]);
        assert [] + rest.accepted == rest.accepted;
      }
    }
  }

  /** The choice record that the accepted intents spell out. */
  function ChoicesOf(accepted: seq<CreationIntent>): HeroChoices
    requires |accepted| >= 7 && InStepOrder(accepted)
  {
    assert accepted[0].SelectCampaignTheme? && accepted[1].SelectConcept? && accepted[2].SelectRules?;
    assert accepted[3].AssignAbilities? && accepted[4].SelectBackground?;
    assert accepted[5].SelectEquipmentAndSpells? && accepted[6].SetPresentation?;
    HeroChoices(
      accepted[0].pins, accepted[1].concept, accepted[2].ancestry, accepted[2].class_,
      accepted[3].assignment, accepted[4].selection, accepted[5].equipment, accepted[5].wizardSpells,
      accepted[6].presentation)
  }

  /** The hero a committed draft stands for. */
  function CommittedHero(d: Draft): Hero
    requires ValidDraft(d) && d.step.Committed?
  {
    HeroOf(d, d.committedCharacterId.value)
  }

  lemma CommitKeepsChoices(d: Draft, characterId: string)
    requires d.revision < U64_MAX
    ensures var next := Advanced(d, Commit(characterId));
      && next.step.Committed? && next.committedCharacterId == Some(characterId)
      && next.ToChoices() == d.ToChoices()
      && next.campaignId == d.campaignId && next.ownerId == d.ownerId
  {
  }

  lemma CommitMakesTheCommittedHero(d: Draft, delivery: Delivery)
    requires ValidDraft(d) && Accepts(d, delivery) && delivery.command.intent.Commit?
    ensures After(d, delivery).step.Committed?
    ensures HeroesOf(d, delivery) == [CommittedHero(After(d, delivery))]
  {
    AcceptedFacts(d, delivery);
    hide NewHero, HeroChoices.Validate, ValidDraft, CreationGuards, Advanced, Draft.ToChoices;
    CommitKeepsChoices(d, delivery.command.intent.characterId);
    CompleteDraftsHaveValidChoices(d);
  }

  /** Heroes are made by the commit alone: one, that of the final draft, if the run commits it. */
  lemma {:induction false} RunHeroes(d: Draft, deliveries: seq<Delivery>)
    requires ValidDraft(d)
    ensures var r := Run(d, deliveries);
      r.heroes == if r.draft.step.Committed? && !d.step.Committed? then [CommittedHero(r.draft)] else []
    decreases |deliveries|
  {
    hide ValidDraft, Accepts, CommittedHero, HeroOf;
    RunCounts(d, deliveries);
    if deliveries != [] && !d.step.Committed? {
      var first := deliveries[0];
      var next := After(d, first);
      var rest := Run(next, deliveries[1..]);
      RunHeroes(next, deliveries[1..]);
      if Accepts(d, first) && first.command.intent.Commit? {
        CommitMakesTheCommittedHero(d, first);
        RunCounts(next, deliveries[1..]);
        assert Run(d, deliveries).heroes == HeroesOf(d, first) + [];
      } else {
        OnlyCommitCommits(d, first);
        assert Run(d, deliveries).heroes == [] + rest.heroes;
      }
    }
  }

  lemma OnlyCommitCommits(d: Draft, delivery: Delivery)
    requires ValidDraft(d) && !d.step.Committed?
    requires !(Accepts(d, delivery) && delivery.command.intent.Commit?)
    ensures !After(d, delivery).step.Committed?
  {
    hide ValidDraft, CreationGuards;
  }

  lemma RecordedChoices(d: Draft, accepted: seq<CreationIntent>)
    requires Records(d, accepted) && d.step.Committed?
    ensures InStepOrder(accepted) && |accepted| == LAST_ORDINAL
    ensures accepted[8].Commit? && d.committedCharacterId == Some(accepted[8].characterId)
    ensures d.ToChoices() == Success(ChoicesOf(accepted))
  {
    hide InStepOrder;
    assert InStepOrder(accepted);
    assert accepted[8].RequiredStep().Ordinal() == 8 by { LastIntentCommits(accepted); }
  }

  lemma LastIntentCommits(accepted: seq<CreationIntent>)
    requires InStepOrder(accepted) && |accepted| == LAST_ORDINAL
    ensures accepted[8].RequiredStep().Ordinal() == 8
  {
  }

  lemma CommittedHeroIsRecorded(d: Draft, accepted: seq<CreationIntent>)
    requires ValidDraft(d) && Records(d, accepted) && d.step.Committed?
    ensures InStepOrder(accepted) && |accepted| == LAST_ORDINAL
    ensures accepted[8].Commit? && ChoicesOf(accepted).Valid()
    ensures CommittedHero(d) == NewHero(accepted[8].characterId, d.campaignId, d.ownerId, ChoicesOf(accepted))
  {
    CompleteDraftsHaveValidChoices(d);
    hide NewHero, HeroChoices.Validate, ValidDraft, Records, InStepOrder, ChoicesOf, Draft.ToChoices;
    RecordedChoices(d, accepted);
  }

  lemma NewDraftIsValid(draftId: string, campaignId: string, ownerId: string, expiresAt: U64)
    requires IsOpaqueId(draftId) && IsOpaqueId(campaignId) && IsOpaqueId(ownerId) && expiresAt != 0
    ensures ValidDraft(NewDraft(draftId, campaignId, ownerId, expiresAt))
    ensures Records(NewDraft(draftId, campaignId, ownerId, expiresAt), [])
  {
  }

  /** No command changes who owns a draft or which campaign it is for. */
  lemma {:induction false} RunKeepsEnvelope(d: Draft, deliveries: seq<Delivery>)
    requires ValidDraft(d)
    ensures Run(d, deliveries).draft.campaignId == d.campaignId
    ensures Run(d, deliveries).draft.ownerId == d.ownerId
    decreases |deliveries|
  {
    hide ValidDraft, Accepts, Stepped, HeroesOf;
    if deliveries != [] {
      SteppedKeepsEnvelope(d, deliveries[0].command.intent);
      RunKeepsEnvelope(After(d, deliveries[0]), deliveries[1..]);
    }
  }

  /** Every run of a new draft, whatever is delivered to it: the revision is the step's ordinal and
      the number of accepted commands, at most nine; no accepted payload is lost or overwritten;
      and a hero exists exactly when the draft is committed, with exactly the accepted choices. */
  lemma EveryRunKeepsItsHistory(draftId: string, campaignId: string, ownerId: string, expiresAt: U64,
                                deliveries: seq<Delivery>)
    requires IsOpaqueId(draftId) && IsOpaqueId(campaignId) && IsOpaqueId(ownerId) && expiresAt != 0
    ensures ValidDraft(NewDraft(draftId, campaignId, ownerId, expiresAt))
    ensures var r := Run(NewDraft(draftId, campaignId, ownerId, expiresAt), deliveries);
      && r.draft.revision == r.draft.step.Ordinal() == |r.accepted| <= 9
      && Records(r.draft, r.accepted)
      && (!r.draft.step.Committed? ==> r.heroes == [])
      && (r.draft.step.Committed? ==>
            && r.accepted[8].Commit? && ChoicesOf(r.accepted).Valid()
            && r.heroes == [NewHero(r.accepted[8].characterId, campaignId, ownerId, ChoicesOf(r.accepted))])
  {
    hide ValidDraft, NewHero, HeroChoices.Validate, Run, CommittedHero, ChoicesOf;
    NewDraftIsValid(draftId, campaignId, ownerId, expiresAt);
    var d := NewDraft(draftId, campaignId, ownerId, expiresAt);
    RunCounts(d, deliveries);
    RunRecords(d, [], deliveries);
    RunHeroes(d, deliveries);
    RunKeepsEnvelope(d, deliveries);
    var r := Run(d, deliveries);
    assert [] + r.accepted == r.accepted;
    if r.draft.step.Committed? {
      CommittedHeroIsRecorded(r.draft, r.accepted);
    }
  }

  // ----- Every valid choice record can be reached

  /** What a nine-command script is made from. */
  datatype Script = Script(draft: Draft, choices: HeroChoices, characterId: string,
                           idempotencyKey: string, context: TrustedMutationContext)
  {
    /** Legal identifiers, valid choices, and a context of the owner's before expiry. */
    predicate Legal() {
      && IsOpaqueId(draft.draftId) && IsOpaqueId(draft.campaignId) && IsOpaqueId(draft.ownerId)
      && draft.expiresAt != 0
      && draft == NewDraft(draft.draftId, draft.campaignId, draft.ownerId, draft.expiresAt)
      && choices.Valid()
      && IsOpaqueId(characterId) && IsOpaqueId(idempotencyKey)
      && context.Validate().Success?
      && context.actorId == draft.ownerId && context.occurredAt <= draft.expiresAt
    }
  }

  function StepAt(k: nat): (r: CreationStep)
    requires k <= LAST_ORDINAL
    ensures r.Ordinal() == k
  {
    [AtCampaignTheme, AtConcept, AtRules, AtAbilityScores, AtBackground, AtEquipmentAndSpells,
     AtPresentation, AtReview, AtCommit, Committed][k]
  }

  function IntentAt(s: Script, k: nat): (r: CreationIntent)
    requires k < LAST_ORDINAL
    ensures r.RequiredStep() == StepAt(k)
  {
    if k == 0 then SelectCampaignTheme(s.choices.pins)
    else if k == 1 then SelectConcept(s.choices.concept)
    else if k == 2 then SelectRules(s.choices.ancestry, s.choices.class_)
    else if k == 3 then AssignAbilities(s.choices.assignment)
    else if k == 4 then SelectBackground(s.choices.background)
    else if k == 5 then SelectEquipmentAndSpells(s.choices.equipment, s.choices.wizardSpells)
    else if k == 6 then SetPresentation(s.choices.presentation)
    else if k == 7 then Review
    else Commit(s.characterId)
  }

  function DeliveryAt(s: Script, k: nat): Delivery
    requires k < LAST_ORDINAL
  {
    Delivery(
      CreationCommand(HERO_COMMAND_SCHEMA_VERSION, s.draft.draftId, k, s.idempotencyKey, IntentAt(s, k)),
      s.context)
  }

  /** The commands from the k-th on. */
  function Remaining(s: Script, k: nat): seq<Delivery>
    requires k <= LAST_ORDINAL
    decreases LAST_ORDINAL - k
  {
    if k == LAST_ORDINAL then [] else [DeliveryAt(s, k)] + Remaining(s, k + 1)
  }

  /** The draft once the first k commands are accepted. */
  function Filled(s: Script, k: nat): Draft
    requires k <= LAST_ORDINAL
  {
    s.draft.(
      revision := k,
      step := StepAt(k),
      pins := if k > 0 then Some(s.choices.pins) else None,
      concept := if k > 1 then Some(s.choices.concept) else None,
      ancestry := if k > 2 then Some(s.choices.ancestry) else None,
      class_ := if k > 2 then Some(s.choices.class_) else None,
      assignment := if k > 3 then Some(s.choices.assignment) else None,
      background := if k > 4 then Some(s.choices.background) else None,
      equipment := if k > 5 then Some(s.choices.equipment) else None,
      wizardSpells := if k > 5 then s.choices.wizardSpells else None,
      presentation := if k > 6 then Some(s.choices.presentation) else None,
      reviewed := k > 7,
      committedCharacterId := if k > 8 then Some(s.characterId) else None)
  }

  lemma FilledIsValid(s: Script, k: nat)
    requires s.Legal() && k <= LAST_ORDINAL
    ensures ValidDraft(Filled(s, k))
  {
    AssignmentScores(s.choices.assignment);
    hide HeroPins.Validate, StandardArrayAssignment.Validate, BackgroundSelection.ValidateFor,
      EquipmentSelection.ValidateFor, HeroPresentation.Validate, CheckSpells;
  }

  lemma FilledAdvances(s: Script, k: nat)
    requires k < LAST_ORDINAL
    ensures Advanced(Filled(s, k), IntentAt(s, k)) == Filled(s, k + 1)
  {
  }

  lemma ScriptStepIsAccepted(s: Script, k: nat)
    requires s.Legal() && k < LAST_ORDINAL && ValidDraft(Filled(s, k))
    ensures Accepts(Filled(s, k), DeliveryAt(s, k))
  {
    AssignmentScores(s.choices.assignment);
    hide HeroPins.Validate, StandardArrayAssignment.Validate, BackgroundSelection.ValidateFor,
      EquipmentSelection.ValidateFor, HeroPresentation.Validate, CheckSpells, ValidDraft;
  }

  lemma {:induction false} ScriptRuns(s: Script, k: nat)
    requires s.Legal() && k <= LAST_ORDINAL
    ensures ValidDraft(Filled(s, k))
    ensures Run(Filled(s, k), Remaining(s, k)).draft == Filled(s, LAST_ORDINAL)
    decreases LAST_ORDINAL - k
  {
    hide ValidDraft, Accepts, Advanced, Filled, HeroesOf;
    FilledIsValid(s, k);
    if k < LAST_ORDINAL {
      ScriptStepIsAccepted(s, k);
      FilledAdvances(s, k);
      assert Remaining(s, k)[0] == DeliveryAt(s, k) && Remaining(s, k)[1..] == Remaining(s, k + 1);
      ScriptRuns(s, k + 1);
    }
  }

  /** Completeness: for every valid choice record there is a run of a new draft that makes exactly
      that hero. With `EveryRunKeepsItsHistory`, drafts reach the valid records and no others. */
  lemma EveryValidRecordIsReachable(s: Script)
    requires s.Legal()
    ensures ValidDraft(s.draft)
    ensures var r := Run(s.draft, Remaining(s, 0));
      && r.draft.step.Committed?
      && r.heroes == [NewHero(s.characterId, s.draft.campaignId, s.draft.ownerId, s.choices)]
  {
    hide ValidDraft, NewHero, HeroChoices.Validate, Run, CommittedHero;
    FilledIsValid(s, LAST_ORDINAL);
    ScriptRuns(s, 0);
    assert Filled(s, 0) == s.draft;
    RunHeroes(s.draft, Remaining(s, 0));
    FilledHero(s);
  }

  lemma FilledHero(s: Script)
    requires s.Legal() && ValidDraft(Filled(s, LAST_ORDINAL))
    ensures CommittedHero(Filled(s, LAST_ORDINAL))
         == NewHero(s.characterId, s.draft.campaignId, s.draft.ownerId, s.choices)
  {
    var d := Filled(s, LAST_ORDINAL);
    CompleteDraftsHaveValidChoices(d);
    hide NewHero, HeroChoices.Validate, ValidDraft;
    assert d.ToChoices() == Success(s.choices);
  }
}
