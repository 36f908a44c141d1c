// Acceptance of typed game-master proposals (crates/game-core/src/ai_turn.rs, lines 38-427).

module Proposals {
  import opened Wrappers
  import opened MachineInts
  import opened Text

  const PROPOSAL_SCHEMA_VERSION: U16 := 1
  const MAX_CLARIFICATION_CHOICES := 4
  const MAX_NARRATION_FACTS := 64
  const MAX_ALLOWLIST := 256

  datatype ProposalError = InvalidProposal | Stale | UnsupportedCapability | Contradiction
  type ProposalResult<+T> = Result<T, ProposalError>

  datatype ProposalBase = ProposalBase(
    schemaVersion: U16, proposalId: string, sessionId: string, basedOnRevision: U64,
    basedOnEventSequence: U64, promptTemplateId: string, policyId: string, configFingerprint: string)
  {
    predicate WellFormed() {
      && schemaVersion == PROPOSAL_SCHEMA_VERSION
      && IsOpaqueId(proposalId) && IsOpaqueId(sessionId) && IsOpaqueId(promptTemplateId)
      && IsOpaqueId(policyId) && basedOnRevision != 0
    }
  }

  datatype MechanicalFact =
    | Actor(actorId: string)
    | Target(targetId: string)
    | RollTotal(rollId: string, total: I32)
    | DifficultyClass(sourceId: string, difficulty: I16)
    | ArmorClass(targetId: string, armor: I16)
    | Damage(targetId: string, amount: U16)
    | HitPoints(targetId: string, before: U16, after: U16)
    | Condition(targetId: string, conditionId: string)
    | Resource(actorId: string, resourceId: string, remaining: U16)
    | Outcome(outcomeId: string)
    | Objective(objectiveId: string, statusId: string)
  {
    function Ids(): seq<string> {
      match this
      case Actor(actorId) => [actorId]
      case Target(targetId) => [targetId]
      case RollTotal(rollId, _) => [rollId]
      case DifficultyClass(sourceId, _) => [sourceId]
      case ArmorClass(targetId, _) => [targetId]
      case Damage(targetId, _) => [targetId]
      case HitPoints(targetId, _, _) => [targetId]
      case Condition(targetId, conditionId) => [targetId, conditionId]
      case Resource(actorId, resourceId, _) => [actorId, resourceId]
      case Outcome(outcomeId) => [outcomeId]
      case Objective(objectiveId, statusId) => [objectiveId, statusId]
    }

    /** Legal identifiers, positive AC and DC, and hit points that do not rise. */
    predicate WellFormed() {
      && (forall i :: 0 <= i < |Ids()| ==> IsOpaqueId(Ids()[i]))
      && (DifficultyClass? ==> difficulty > 0)
      && (ArmorClass? ==> armor > 0)
      && (HitPoints? ==> after <= before)
    }
  }

  datatype CheckStakes = Reversible | ResourceLoss | Irreversible | CharacterDefeat {
    predicate RequiresConfirmation() { Irreversible? || CharacterDefeat? }
  }

  datatype ClarificationChoice = ClarificationChoice(choiceId: string, labelText: string, actionId: Option<string>)

  datatype Proposal =
    | ActionProposal(base: ProposalBase, actionId: string, actionTarget: Option<string>, rationale: string)
    | CheckProposal(base: ProposalBase, checkId: string, stakes: CheckStakes, rationale: string)
    | SceneProposal(base: ProposalBase, sceneId: string, objective: Option<string>, rationale: string)
    | NarrationProposal(base: ProposalBase, narrationId: string, text: string, claimedFacts: seq<MechanicalFact>)
    | ClarificationProposal(base: ProposalBase, question: string, choices: seq<ClarificationChoice>)

  datatype Disposition =
    | ConvertToEngineCommand | RequirePlayerConfirmation | PresentationOnly | AskClarification

  datatype AcceptanceContext = AcceptanceContext(
    sessionId: string, revision: U64, eventSequence: U64, promptTemplateId: string, policyId: string,
    configFingerprint: string, legalActionIds: set<string>, legalCheckIds: set<string>,
    legalTargetIds: set<string>, legalSceneIds: set<string>, legalObjectiveIds: set<string>,
    authoritativeFacts: seq<MechanicalFact>)
  {
    function Validate(): ProposalResult<()> {
      var _ :- Check(
        IsOpaqueId(sessionId) && revision != 0 && IsOpaqueId(promptTemplateId) && IsOpaqueId(policyId),
        InvalidProposal);
      var _ :- Check(
        && LegalAllowlist(legalActionIds) && LegalAllowlist(legalCheckIds)
        && LegalAllowlist(legalTargetIds) && LegalAllowlist(legalSceneIds)
        && LegalAllowlist(legalObjectiveIds),
        InvalidProposal);
      Check(
        && |authoritativeFacts| <= MAX_NARRATION_FACTS
        && AllWellFormed(authoritativeFacts)
        && |Elements(authoritativeFacts)| == |authoritativeFacts|,
        InvalidProposal)
    }
  }

  predicate LegalAllowlist(ids: set<string>) {
    |ids| <= MAX_ALLOWLIST && forall id :: id in ids ==> IsOpaqueId(id)
  }

  predicate AllWellFormed(facts: seq<MechanicalFact>) {
    forall i :: 0 <= i < |facts| ==> facts[i].WellFormed()
  }

  function Elements<T>(s: seq<T>): set<T> { set x | x in s }

  /** Proposal prose: not blank, at most `maximum` characters. */
  predicate IsText(s: string, maximum: nat) { !IsBlank(s) && |s| <= maximum }

  predicate LegalOption(id: Option<string>, allowed: set<string>) {
    id.Some? ==> IsOpaqueId(id.value) && id.value in allowed
  }

  // ----- Declarative acceptance

  predicate Current(base: ProposalBase, context: AcceptanceContext) {
    && base.sessionId == context.sessionId
    && base.basedOnRevision == context.revision
    && base.basedOnEventSequence == context.eventSequence
  }

  predicate SamePolicy(base: ProposalBase, context: AcceptanceContext) {
    && base.promptTemplateId == context.promptTemplateId
    && base.policyId == context.policyId
    && base.configFingerprint == context.configFingerprint
  }

  predicate LegalNarration(narrationId: string, text: string, facts: seq<MechanicalFact>) {
    IsText(text, 12_000) && IsOpaqueId(narrationId) && |facts| <= MAX_NARRATION_FACTS && AllWellFormed(facts)
  }

  predicate LegalChoice(choice: ClarificationChoice, context: AcceptanceContext) {
    && IsText(choice.labelText, 300) && IsOpaqueId(choice.choiceId)
    && LegalOption(choice.actionId, context.legalActionIds)
  }

  /** One to four legal choices with pairwise distinct identifiers. */
  predicate LegalChoices(choices: seq<ClarificationChoice>, context: AcceptanceContext) {
    && 1 <= |choices| <= MAX_CLARIFICATION_CHOICES
    && (forall i :: 0 <= i < |choices| ==> LegalChoice(choices[i], context))
    && (forall i, j :: 0 <= i < j < |choices| ==> choices[i].choiceId != choices[j].choiceId)
  }

  predicate LegalContent(p: Proposal, context: AcceptanceContext) {
    match p
    case ActionProposal(_, actionId, target, rationale) =>
      && IsText(rationale, 1_000) && IsOpaqueId(actionId) && actionId in context.legalActionIds
      && LegalOption(target, context.legalTargetIds)
    case CheckProposal(_, checkId, _, rationale) =>
      IsText(rationale, 1_000) && IsOpaqueId(checkId) && checkId in context.legalCheckIds
    case SceneProposal(_, sceneId, objective, rationale) =>
      && IsText(rationale, 1_000) && IsOpaqueId(sceneId) && sceneId in context.legalSceneIds
      && LegalOption(objective, context.legalObjectiveIds)
    case NarrationProposal(_, narrationId, text, facts) =>
      LegalNarration(narrationId, text, facts) && multiset(facts) == multiset(context.authoritativeFacts)
    case ClarificationProposal(_, question, choices) =>
      IsText(question, 500) && LegalChoices(choices, context)
  }

  predicate Acceptable(p: Proposal, context: AcceptanceContext) {
    && p.base.WellFormed() && context.Validate().Success?
    && Current(p.base, context) && SamePolicy(p.base, context)
    && LegalContent(p, context)
  }

  /** What an accepted proposal guarantees about the moment it was accepted in. */
  lemma AcceptedIsCurrent(p: Proposal, context: AcceptanceContext)
    requires Acceptable(p, context)
    ensures p.base.sessionId == context.sessionId
    ensures p.base.basedOnRevision == context.revision
    ensures p.base.basedOnEventSequence == context.eventSequence
    ensures p.base.promptTemplateId == context.promptTemplateId && p.base.policyId == context.policyId
    ensures p.base.configFingerprint == context.configFingerprint
  {
    hide IsOpaqueId, LegalAllowlist, AllWellFormed, LegalContent;
  }

  predicate Offered(id: string, allowed: set<string>) { IsOpaqueId(id) && id in allowed }

  predicate OfferedIfAny(id: Option<string>, allowed: set<string>) { id == None || Offered(id.value, allowed) }

  /** Something other than white space, and no more than so many characters. */
  predicate Says(s: string, maximum: nat) {
    |s| <= maximum && exists i :: 0 <= i < |s| && !IsWhitespace(s[i])
  }

  /** Legal names, positive classes and difficulties, and no damage that raises hit points. */
  predicate Sound(fact: MechanicalFact) {
    match fact
    case Actor(actorId) => IsOpaqueId(actorId)
    case Target(targetId) => IsOpaqueId(targetId)
    case RollTotal(rollId, _) => IsOpaqueId(rollId)
    case DifficultyClass(sourceId, difficulty) => IsOpaqueId(sourceId) && difficulty >= 1
    case ArmorClass(targetId, armor) => IsOpaqueId(targetId) && armor >= 1
    case Damage(targetId, _) => IsOpaqueId(targetId)
    case HitPoints(targetId, before, after) => IsOpaqueId(targetId) && before >= after
    case Condition(targetId, conditionId) => IsOpaqueId(targetId) && IsOpaqueId(conditionId)
    case Resource(actorId, resourceId, _) => IsOpaqueId(actorId) && IsOpaqueId(resourceId)
    case Outcome(outcomeId) => IsOpaqueId(outcomeId)
    case Objective(objectiveId, statusId) => IsOpaqueId(objectiveId) && IsOpaqueId(statusId)
  }

  lemma SoundIff(fact: MechanicalFact)
    ensures fact.WellFormed() <==> Sound(fact)
  {
    hide IsOpaqueId;
    var ids := fact.Ids();
    assert fact.WellFormed() ==> IsOpaqueId(ids[0]) && (|ids| == 2 ==> IsOpaqueId(ids[1]));
  }

  predicate AllSound(facts: seq<MechanicalFact>) { forall i :: 0 <= i < |facts| ==> Sound(facts[i]) }

  lemma AllSoundIff(facts: seq<MechanicalFact>)
    ensures AllWellFormed(facts) <==> AllSound(facts)
  {
    forall i | 0 <= i < |facts|
      ensures facts[i].WellFormed() <==> Sound(facts[i])
    {
      SoundIff(facts[i]);
    }
  }

  predicate ShortList(ids: set<string>) { |ids| <= 256 && forall id <- ids :: IsOpaqueId(id) }

  /** The moment a proposal is judged in: named, past its first revision, with bounded lists of legal
      names and at most 64 sound facts, none of them twice. */
  lemma ContextAcceptedIff(context: AcceptanceContext)
    ensures context.Validate().Success? <==>
      && IsOpaqueId(context.sessionId) && IsOpaqueId(context.promptTemplateId) && IsOpaqueId(context.policyId)
      && context.revision >= 1
      && ShortList(context.legalActionIds) && ShortList(context.legalCheckIds) && ShortList(context.legalTargetIds)
      && ShortList(context.legalSceneIds) && ShortList(context.legalObjectiveIds)
      && |context.authoritativeFacts| <= 64
      && AllSound(context.authoritativeFacts)
      && (forall fact <- context.authoritativeFacts :: multiset(context.authoritativeFacts)[fact] == 1)
  {
    hide IsOpaqueId;
    AllSoundIff(context.authoritativeFacts);
    NoTwiceIff(context.authoritativeFacts);
    hide AllSound, AllWellFormed, Elements;
    assert forall ids :: LegalAllowlist(ids) <==> ShortList(ids);
  }

  lemma NoTwiceIff(facts: seq<MechanicalFact>)
    ensures |Elements(facts)| == |facts| <==> forall fact <- facts :: multiset(facts)[fact] == 1
  {
    FullSizeMeansNoRepeats(facts);
    assert forall fact :: fact in facts <==> fact in multiset(facts);
    if forall fact <- facts :: multiset(facts)[fact] == 1 {
      assert forall fact :: multiset(facts)[fact] == multiset(Elements(facts))[fact];
      assert multiset(facts) == multiset(Elements(facts));
    }
  }

  /** A proposal names its moment: schema 1, legal names, and a revision past zero. */
  lemma BaseAcceptedIff(base: ProposalBase)
    ensures base.WellFormed() <==>
      && base.schemaVersion == 1 && base.basedOnRevision >= 1
      && IsOpaqueId(base.proposalId) && IsOpaqueId(base.sessionId)
      && IsOpaqueId(base.promptTemplateId) && IsOpaqueId(base.policyId)
  {
    hide IsOpaqueId;
  }

  /** What a proposal may say: everything it names is on the context's lists, texts are bounded, a
      narration claims exactly the authoritative facts, and one to four choices differ. */
  predicate SaysOnlyOffered(p: Proposal, context: AcceptanceContext) {
    match p
    case ActionProposal(_, actionId, target, rationale) =>
      && Says(rationale, 1000) && Offered(actionId, context.legalActionIds)
      && OfferedIfAny(target, context.legalTargetIds)
    case CheckProposal(_, checkId, _, rationale) => Says(rationale, 1000) && Offered(checkId, context.legalCheckIds)
    case SceneProposal(_, sceneId, objective, rationale) =>
      && Says(rationale, 1000) && Offered(sceneId, context.legalSceneIds)
      && OfferedIfAny(objective, context.legalObjectiveIds)
    case NarrationProposal(_, narrationId, text, facts) =>
      && Says(text, 12000) && IsOpaqueId(narrationId) && |facts| <= 64 && AllSound(facts)
      && multiset(facts) == multiset(context.authoritativeFacts)
    case ClarificationProposal(_, question, choices) =>
      && Says(question, 500) && 1 <= |choices| <= 4
      && (forall i :: 0 <= i < |choices| ==>
            && Says(choices[i].labelText, 300) && IsOpaqueId(choices[i].choiceId)
            && OfferedIfAny(choices[i].actionId, context.legalActionIds))
      && (forall i, j :: 0 <= i < j < |choices| ==> choices[i].choiceId != choices[j].choiceId)
  }

  lemma ContentAcceptedIff(p: Proposal, context: AcceptanceContext)
    ensures LegalContent(p, context) <==> SaysOnlyOffered(p, context)
  {
    if p.NarrationProposal? {
      AllSoundIff(p.claimedFacts);
    }
    forall s: string, maximum: nat
      ensures IsText(s, maximum) <==> Says(s, maximum)
    {
    }
    hide IsOpaqueId, IsText, Says, AllSound, AllWellFormed;
  }

  // ----- The engine's checks

  function ValidateBase(base: ProposalBase, context: AcceptanceContext): ProposalResult<()> {
    var _ :- Check(base.WellFormed(), InvalidProposal);
    var _ :- context.Validate();
    var _ :- Check(Current(base, context), Stale);
    Check(SamePolicy(base, context), UnsupportedCapability)
  }

  /** The narration arm: size of the claim set, then equality of the two sets. */
  function ValidateNarration(narrationId: string, text: string, claimed: seq<MechanicalFact>,
                             authoritative: seq<MechanicalFact>): ProposalResult<()> {
    var _ :- Check(LegalNarration(narrationId, text, claimed), InvalidProposal);
    var claims := Elements(claimed);
    Check(|claims| == |claimed| && claims == Elements(authoritative), Contradiction)
  }

  /** The clarification arm: one pass that inserts each identifier into a set. */
  method ValidateChoices(choices: seq<ClarificationChoice>, context: AcceptanceContext)
    returns (r: ProposalResult<()>)
    ensures r.Success? <==> LegalChoices(choices, context)
    ensures r.Failure? ==> r.error == InvalidProposal || r.error == UnsupportedCapability
  {
    if choices == [] || |choices| > MAX_CLARIFICATION_CHOICES {
      return Failure(InvalidProposal);
    }
    var ids: set<string> := {};
    for i := 0 to |choices|
      invariant forall k :: 0 <= k < i ==> LegalChoice(choices[k], context)
      invariant forall j, k :: 0 <= j < k < i ==> choices[j].choiceId != choices[k].choiceId
      invariant ids == set k | 0 <= k < i :: choices[k].choiceId
    {
      var choice := choices[i];
      if !IsText(choice.labelText, 300) {
        return Failure(InvalidProposal);
      }
      if !IsOpaqueId(choice.choiceId) || choice.choiceId in ids || !LegalOption(choice.actionId, context.legalActionIds) {
        return Failure(UnsupportedCapability);
      }
      ids := ids + {choice.choiceId};
    }
    return Success(());
  }

  method ValidateAgainst(p: Proposal, context: AcceptanceContext) returns (r: ProposalResult<Disposition>)
    ensures r.Success? <==> Acceptable(p, context)
    ensures r.Success? ==>
      && (r.value == RequirePlayerConfirmation <==>
            p.CheckProposal? && p.stakes in {Irreversible, CharacterDefeat})
      && (r.value == ConvertToEngineCommand <==>
            p.ActionProposal? || p.SceneProposal? || (p.CheckProposal? && p.stakes in {Reversible, ResourceLoss}))
      && (r.value == PresentationOnly <==> p.NarrationProposal?)
      && (r.value == AskClarification <==> p.ClarificationProposal?)
    ensures r == Failure(Stale) <==>
      p.base.WellFormed() && context.Validate().Success? && !Current(p.base, context)
    ensures r == Failure(Contradiction) <==>
      && ValidateBase(p.base, context).Success?
      && p.NarrationProposal? && LegalNarration(p.narrationId, p.text, p.claimedFacts)
      && multiset(p.claimedFacts) != multiset(context.authoritativeFacts)
  {
    var baseChecked :- ValidateBase(p.base, context);
    match p {
      case ActionProposal(_, actionId, target, rationale) =>
        if !IsText(rationale, 1_000) { return Failure(InvalidProposal); }
        if !IsOpaqueId(actionId) || actionId !in context.legalActionIds || !LegalOption(target, context.legalTargetIds) {
          return Failure(UnsupportedCapability);
        }
        return Success(ConvertToEngineCommand);
      case CheckProposal(_, checkId, stakes, rationale) =>
        if !IsText(rationale, 1_000) { return Failure(InvalidProposal); }
        if !IsOpaqueId(checkId) || checkId !in context.legalCheckIds { return Failure(UnsupportedCapability); }
        return Success(if stakes.RequiresConfirmation() then RequirePlayerConfirmation else ConvertToEngineCommand);
      case SceneProposal(_, sceneId, objective, rationale) =>
        if !IsText(rationale, 1_000) { return Failure(InvalidProposal); }
        if !IsOpaqueId(sceneId) || sceneId !in context.legalSceneIds || !LegalOption(objective, context.legalObjectiveIds) {
          return Failure(UnsupportedCapability);
        }
        return Success(ConvertToEngineCommand);
      case NarrationProposal(_, narrationId, text, claimed) =>
        SetTestIsPermutationTest(claimed, context.authoritativeFacts);
        var narrated :- ValidateNarration(narrationId, text, claimed, context.authoritativeFacts);
        return Success(PresentationOnly);
      case ClarificationProposal(_, question, choices) =>
        if !IsText(question, 500) { return Failure(InvalidProposal); }
        var chosen :- ValidateChoices(choices, context);
        return Success(AskClarification);
    }
  }

  // ----- Set equality without duplicates is multiset equality

  lemma {:induction false} ElementsAtMostLength<T>(s: seq<T>)
    ensures |Elements(s)| <= |s|
  {
    if s != [] {
      ElementsAtMostLength(s[1..]);
      assert Elements(s) == Elements(s[1..]) + {s[0]};
    }
  }

  /** A list has as many distinct elements as entries exactly when no entry repeats, that is, when
      its multiset is its set. */
  lemma {:induction false} FullSizeMeansNoRepeats<T(!new)>(s: seq<T>)
    ensures |Elements(s)| == |s| <==> multiset(s) == multiset(Elements(s))
  {
    if s == [] {
      assert Elements(s) == {};
    } else {
      var rest := s[1..];
      FullSizeMeansNoRepeats(rest);
      ElementsAtMostLength(rest);
      assert s == [s[0]] + rest;
      assert Elements(s) == Elements(rest) + {s[0]};
      if s[0] in rest {
        assert Elements(s) == Elements(rest);
        assert multiset(rest)[s[0]] >= 1;
        assert multiset(s)[s[0]] >= 2;
        assert multiset(Elements(s))[s[0]] == 1;
      } else {
        assert s[0] !in Elements(rest);
        if multiset(s) == multiset(Elements(s)) {
          assert multiset(rest) == multiset(s) - multiset{s[0]};
          assert multiset(Elements(rest)) == multiset(Elements(s)) - multiset{s[0]};
        }
      }
    }
  }

  /** Against a duplicate-free list, the set test accepts exactly the permutations of it. */
  lemma SetTestIsPermutationTest<T(!new)>(claimed: seq<T>, authoritative: seq<T>)
    ensures |Elements(authoritative)| == |authoritative| ==>
      (|Elements(claimed)| == |claimed| && Elements(claimed) == Elements(authoritative)
       <==> multiset(claimed) == multiset(authoritative))
  {
    FullSizeMeansNoRepeats(claimed);
    FullSizeMeansNoRepeats(authoritative);
    if multiset(claimed) == multiset(authoritative) {
      assert forall x :: x in claimed <==> x in multiset(claimed);
      assert forall x :: x in authoritative <==> x in multiset(authoritative);
      assert Elements(claimed) == Elements(authoritative);
    }
  }
}
