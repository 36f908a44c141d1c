// Library characters and their independent campaign instances
// (crates/game-core/src/player_character.rs).

module PlayerCharacters {
  import opened Wrappers
  import opened MachineInts
  import opened Text
  import opened HeroErrors
  import opened HeroRules
  import opened HeroSheets
  import opened HeroDocuments
  import opened HeroCharacters
  import opened HeroRuns

  const PLAYER_CHARACTER_SCHEMA_VERSION: U16 := 1
  const MAX_DISPLAY_NAME_LEN := 200
  const CORE_CONTENT_PACK_ID := "dev.manchester-arcana.core-mvp"
  const LOCAL_ACCOUNT := "account:local"
  const ACCOUNT_PREFIX := "account:"

  function CheckAccountId(accountId: string): HeroCheck {
    if accountId == CORE_CONTENT_PACK_ID then Invalid(OwnerAccountId)
    else if accountId == LOCAL_ACCOUNT then Success(())
    else if !(ACCOUNT_PREFIX <= accountId) then Invalid(OwnerAccountId)
    else Require(IsOpaqueId(accountId), OwnerAccountId)
  }

  /** The two special cases change nothing: the rule is the prefix and the identifier bounds. */
  lemma AccountRule(accountId: string)
    ensures CheckAccountId(accountId).Success? <==> "account:" <= accountId && IsOpaqueId(accountId)
  {
    if accountId == CORE_CONTENT_PACK_ID {
      assert accountId[0] == 'd';
    }
  }

  class PlayerCharacter {
    var schemaVersion: U16
    var characterId: string
    var ownerAccountId: string
    var revision: U64
    var displayName: string
    var choices: HeroChoices

    predicate Legal()
      reads this
    {
      && schemaVersion == PLAYER_CHARACTER_SCHEMA_VERSION
      && IsOpaqueId(characterId)
      && CheckAccountId(ownerAccountId).Success?
      && IsProse(displayName, MAX_DISPLAY_NAME_LEN)
      && choices.Valid()
    }

    constructor Make(characterId: string, ownerAccountId: string, displayName: string, choices: HeroChoices)
      ensures this.schemaVersion == PLAYER_CHARACTER_SCHEMA_VERSION && this.revision == 0
      ensures this.characterId == characterId && this.ownerAccountId == ownerAccountId
      ensures this.displayName == displayName && this.choices == choices
    {
      this.schemaVersion, this.revision := PLAYER_CHARACTER_SCHEMA_VERSION, 0;
      this.characterId, this.ownerAccountId := characterId, ownerAccountId;
      this.displayName, this.choices := displayName, choices;
    }

    static method New(characterId: string, ownerAccountId: string, displayName: string, choices: HeroChoices)
      returns (r: HeroResult<PlayerCharacter>)
      ensures r.Success? <==>
        && IsOpaqueId(characterId) && "account:" <= ownerAccountId && IsOpaqueId(ownerAccountId)
        && IsProse(displayName, 200) && choices.Valid()
      ensures r.Success? ==>
        && fresh(r.value) && r.value.Legal() && r.value.revision == 0
        && r.value.characterId == characterId && r.value.ownerAccountId == ownerAccountId
        && r.value.displayName == displayName && r.value.choices == choices
    {
      AccountRule(ownerAccountId);
      var idChecked :- RequireId(CharacterId, characterId);
      var accountChecked :- CheckAccountId(ownerAccountId);
      var nameChecked :- Require(IsProse(displayName, MAX_DISPLAY_NAME_LEN), DisplayName);
      var choicesChecked :- choices.Validate();
      var character := new PlayerCharacter.Make(characterId, ownerAccountId, displayName, choices);
      if character.Validate().Failure? { assert false; }
      return Success(character);
    }

    function Validate(): (r: HeroCheck)
      reads this
      ensures r.Success? <==> Legal()
      ensures r.Success? <==>
        && schemaVersion == 1 && IsOpaqueId(characterId)
        && "account:" <= ownerAccountId && IsOpaqueId(ownerAccountId)
        && IsProse(displayName, 200) && choices.Valid()
    {
      AccountRule(ownerAccountId);
      var _ :- RequireSchema(schemaVersion, PLAYER_CHARACTER_SCHEMA_VERSION);
      var _ :- RequireId(CharacterId, characterId);
      var _ :- CheckAccountId(ownerAccountId);
      var _ :- Require(IsProse(displayName, MAX_DISPLAY_NAME_LEN), DisplayName);
      choices.Validate()
    }

    /** Counts an edit, stopping at the largest revision. */
    method BumpRevision()
      modifies this`revision
      ensures revision == (if old(revision) == U64_MAX then U64_MAX else old(revision) + 1)
      ensures Legal() == old(Legal())
    {
      if revision < U64_MAX {
        revision := revision + 1;
      }
    }

    /** A new level-one hero with the library character's choices. The engine's own validation of
        the owner identifier cannot reject, and the library character is not touched. */
    method InstantiateForCampaign(campaignId: string, runtimeCharacterId: string)
      returns (r: HeroResult<HeroCharacter>)
      ensures r.Success? <==> Legal() && IsOpaqueId(campaignId) && IsOpaqueId(runtimeCharacterId)
      ensures r.Success? ==>
        && fresh(r.value)
        && r.value.View() == NewHero(runtimeCharacterId, campaignId, ownerAccountId, choices)
        && ValidHero(r.value.View())
    {
      AccountRule(ownerAccountId);
      var validated :- Validate();
      var campaignChecked :- RequireId(CampaignId, campaignId);
      var runtimeChecked :- RequireId(RuntimeCharacterId, runtimeCharacterId);
      FreshSheetIsValid(NewHero(runtimeCharacterId, campaignId, ownerAccountId, choices));
      hide Derived, NewHero, ValidHero;
      var created := HeroCharacter.Create(runtimeCharacterId, campaignId, ownerAccountId, choices);
      if created.Failure? { assert false; }
      return created;
    }
  }

  /** Carries one request out on a hero object: the methods realise `After` and `Verdict`. */
  method Perform(hero: HeroCharacter, request: Request) returns (verdict: HeroCheck)
    requires ValidHero(hero.View())
    modifies hero
    ensures hero.View() == After(old(hero.View()), request)
    ensures verdict == Verdict(old(hero.View()), request)
    ensures ValidHero(hero.View())
  {
    hide Derived, ValidHero, LevelledUp;
    AfterKeepsValid(hero.View(), request);
    match request {
      case Award(award, policy, context) =>
        var audit := hero.ApplyReward(award, policy, context);
        return if audit.Success? then Success(()) else Failure(audit.error);
      case Advance(levelUp, context) =>
        var audit := hero.LevelUp(levelUp, context);
        return if audit.Success? then Success(()) else Failure(audit.error);
      case Synchronize(hitPoints, readings) =>
        verdict := hero.SynchronizeEncounterRuntime(hitPoints, readings);
    }
  }

  /** The verdicts a run gives, one for each request. */
  function Verdicts(h: Hero, requests: seq<Request>): (r: seq<HeroCheck>)
    requires ValidHero(h)
    ensures |r| == |requests|
  {
    if requests == [] then []
    else
      var last := |requests| - 1;
      Verdicts(h, requests[..last]) + [Verdict(Run(h, requests[..last]), requests[last])]
  }

  // ----- Two instances of one library character

  /** One entry of an interleaved history: a request to the left or the right instance. */
  datatype Turn = Turn(onLeft: bool, request: Request)

  /** The requests of one side, in order. */
  function Mine(turns: seq<Turn>, left: bool): seq<Request> {
    if turns == [] then []
    else
      var last := |turns| - 1;
      Mine(turns[..last], left) + if turns[last].onLeft == left then [turns[last].request] else []
  }

  /** The verdicts given to one side, in order. */
  function MyVerdicts(turns: seq<Turn>, verdicts: seq<HeroCheck>, left: bool): seq<HeroCheck>
    requires |verdicts| == |turns|
  {
    if turns == [] then []
    else
      var last := |turns| - 1;
      MyVerdicts(turns[..last], verdicts[..last], left) + if turns[last].onLeft == left then [verdicts[last]] else []
  }

  lemma MineSnoc(turns: seq<Turn>, verdicts: seq<HeroCheck>, turn: Turn, verdict: HeroCheck, left: bool)
    requires |verdicts| == |turns|
    ensures Mine(turns + [turn], left) == Mine(turns, left) + if turn.onLeft == left then [turn.request] else []
    ensures MyVerdicts(turns + [turn], verdicts + [verdict], left)
         == MyVerdicts(turns, verdicts, left) + if turn.onLeft == left then [verdict] else []
  {
    assert (turns + [turn])[..|turns|] == turns && (verdicts + [verdict])[..|turns|] == verdicts;
  }

  /** What one side has seen so far is what its own requests alone would give. */
  ghost predicate PlayedAlone(start: Hero, now: Hero, turns: seq<Turn>, verdicts: seq<HeroCheck>, left: bool)
    requires |verdicts| == |turns| && ValidHero(start)
  {
    now == Run(start, Mine(turns, left)) && MyVerdicts(turns, verdicts, left) == Verdicts(start, Mine(turns, left))
  }

  lemma OneTurn(start: Hero, now: Hero, turns: seq<Turn>, verdicts: seq<HeroCheck>, turn: Turn, verdict: HeroCheck,
                left: bool)
    requires |verdicts| == |turns| && ValidHero(start) && ValidHero(now)
    requires PlayedAlone(start, now, turns, verdicts, left)
    requires turn.onLeft == left ==> verdict == Verdict(now, turn.request)
    ensures PlayedAlone(start, if turn.onLeft == left then After(now, turn.request) else now,
                        turns + [turn], verdicts + [verdict], left)
  {
    hide ValidHero, After, Verdict, Run, Mine, MyVerdicts;
    var requests := Mine(turns, left);
    MineSnoc(turns, verdicts, turn, verdict, left);
    if turn.onLeft == left {
      RunSnoc(start, requests, turn.request);
      assert (requests + [turn.request])[..|requests|] == requests;
    } else {
      assert requests + [] == requests;
      assert MyVerdicts(turns, verdicts, left) + [] == MyVerdicts(turns, verdicts, left);
    }
  }

  lemma RunSnoc(h: Hero, requests: seq<Request>, last: Request)
    requires ValidHero(h)
    ensures Run(h, requests + [last]) == After(Run(h, requests), last)
  {
    hide ValidHero, After;
    RunSplits(h, requests, [last]);
    AfterKeepsValid(Run(h, requests), last);
    assert [last][1..] == [];
  }

  /** Any interleaving of two command streams over two hero objects gives each request the verdict,
      and leaves each object in the state, that its own stream alone would give. */
  method PlayBoth(left: HeroCharacter, right: HeroCharacter, turns: seq<Turn>) returns (verdicts: seq<HeroCheck>)
    requires left != right && ValidHero(left.View()) && ValidHero(right.View())
    modifies left, right
    ensures |verdicts| == |turns|
    ensures left.View() == Run(old(left.View()), Mine(turns, true))
    ensures right.View() == Run(old(right.View()), Mine(turns, false))
    ensures MyVerdicts(turns, verdicts, true) == Verdicts(old(left.View()), Mine(turns, true))
    ensures MyVerdicts(turns, verdicts, false) == Verdicts(old(right.View()), Mine(turns, false))
  {
    hide Derived, ValidHero, After, Verdict, Run;
    RunOfNothing(left.View());
    RunOfNothing(right.View());
    verdicts := [];
    var i := 0;
    while i < |turns|
      invariant 0 <= i <= |turns| && |verdicts| == i
      invariant ValidHero(left.View()) && ValidHero(right.View())
      invariant PlayedAlone(old(left.View()), left.View(), turns[..i], verdicts, true)
      invariant PlayedAlone(old(right.View()), right.View(), turns[..i], verdicts, false)
    {
      hide PlayedAlone;
      assert turns[..i + 1] == turns[..i] + [turns[i]];
      ghost var leftBefore, rightBefore := left.View(), right.View();
      var verdict := Perform(if turns[i].onLeft then left else right, turns[i].request);
      OneTurn(old(left.View()), leftBefore, turns[..i], verdicts, turns[i], verdict, true);
      OneTurn(old(right.View()), rightBefore, turns[..i], verdicts, turns[i], verdict, false);
      verdicts := verdicts + [verdict];
      i := i + 1;
    }
    assert turns[..i] == turns;
  }

  lemma RunOfNothing(h: Hero)
    requires ValidHero(h)
    ensures Run(h, []) == h
  {
  }

  /** Two instances of one library character, played in any interleaving: each answers and ends as its
      own commands alone decide, and the library character is never changed. */
  method PlayTwoCampaigns(library: PlayerCharacter, campaigns: (string, string), ids: (string, string),
                          turns: seq<Turn>)
    returns (left: HeroCharacter, right: HeroCharacter, verdicts: seq<HeroCheck>)
    requires library.Legal()
    requires IsOpaqueId(campaigns.0) && IsOpaqueId(campaigns.1) && IsOpaqueId(ids.0) && IsOpaqueId(ids.1)
    ensures fresh(left) && fresh(right) && left != right && |verdicts| == |turns|
    ensures var hero := NewHero(ids.0, campaigns.0, library.ownerAccountId, library.choices);
      && ValidHero(hero) && left.View() == Run(hero, Mine(turns, true))
      && MyVerdicts(turns, verdicts, true) == Verdicts(hero, Mine(turns, true))
    ensures var hero := NewHero(ids.1, campaigns.1, library.ownerAccountId, library.choices);
      && ValidHero(hero) && right.View() == Run(hero, Mine(turns, false))
      && MyVerdicts(turns, verdicts, false) == Verdicts(hero, Mine(turns, false))
    ensures unchanged(library)
  {
    hide Derived, NewHero, ValidHero, Run, Verdicts, MyVerdicts;
    var first := library.InstantiateForCampaign(campaigns.0, ids.0);
    var second := library.InstantiateForCampaign(campaigns.1, ids.1);
    left, right := first.value, second.value;
    verdicts := PlayBoth(left, right, turns);
  }
}
