// What every history of a campaign hero keeps: laws over arbitrary runs of rewards, level-ups
// and runtime synchronisations (crates/game-core/src/hero.rs, lines 1934-2278).

module HeroSync {
  import opened Wrappers
  import opened MachineInts
  import opened HeroSheets
  import opened HeroDocuments

  /** The counter the readings give for a kind. */
  function ReadingFor(readings: seq<PoolReading>, kind: ResourceKind): Option<U8> {
    if readings == [] then None
    else if readings[0].0 == kind then Some(readings[0].1)
    else ReadingFor(readings[1..], kind)
  }

  predicate DistinctReadings(readings: seq<PoolReading>) {
    forall i, j :: 0 <= i < j < |readings| ==> readings[i].0 != readings[j].0
  }

  predicate KnownReadings(readings: seq<PoolReading>, pools: seq<ResourcePool>) {
    forall j :: 0 <= j < |readings| ==> FindPool(pools, readings[j].0).Some?
  }

  /** The pool with its reading, if it has one. */
  function Overwrite(readings: seq<PoolReading>, pool: ResourcePool): ResourcePool {
    match ReadingFor(readings, pool.resource)
    case None => pool
    case Some(current) => pool.(current := current)
  }

  /** `after` is `before` with each pool that has a reading set to it, and no other change. */
  predicate Overwritten(before: seq<ResourcePool>, after: seq<ResourcePool>, readings: seq<PoolReading>) {
    && |after| == |before|
    && forall i :: 0 <= i < |before| ==> after[i] == Overwrite(readings, before[i])
  }

  lemma {:induction false} UnreadKind(readings: seq<PoolReading>, kind: ResourceKind)
    ensures ReadingFor(readings, kind).None? <==> forall j :: 0 <= j < |readings| ==> readings[j].0 != kind
  {
    if readings != [] {
      UnreadKind(readings[1..], kind);
      assert forall j :: 0 < j < |readings| ==> readings[j] == readings[1..][j - 1];
    }
  }

  /** Changing a counter does not change where a kind is found. */
  lemma FindAfterWrite(pools: seq<ResourcePool>, at: nat, current: U8, kind: ResourceKind)
    requires at < |pools|
    ensures FindPool(pools[at := pools[at].(current := current)], kind) == FindPool(pools, kind)
  {
    var next := pools[at := pools[at].(current := current)];
    assert forall i :: 0 <= i < |pools| ==> next[i].resource == pools[i].resource;
  }

  /** A successful write loop: distinct readings, all of known kinds, each one stored. */
  lemma {:induction false} SyncPoolsWrites(pools: seq<ResourcePool>, readings: seq<PoolReading>, seen: set<ResourceKind>)
    requires DistinctKinds(pools)
    requires SyncPools(pools, readings, seen).1.Success?
    ensures DistinctReadings(readings) && KnownReadings(readings, pools)
    ensures forall j :: 0 <= j < |readings| ==> readings[j].0 !in seen
    ensures Overwritten(pools, SyncPools(pools, readings, seen).0, readings)
    decreases |readings|
  {
    if readings != [] {
      var (kind, current) := readings[0];
      var rest := readings[1..];
      var at := FindPool(pools, kind).value;
      var next := pools[at := pools[at].(current := current)];
      SyncPoolsWrites(next, rest, seen + {kind});
      forall j | 0 <= j < |readings|
        ensures FindPool(pools, readings[j].0).Some? && readings[j].0 !in seen
        ensures j > 0 ==> readings[j].0 != kind
      {
        if j > 0 {
          assert readings[j] == rest[j - 1];
          FindAfterWrite(pools, at, current, readings[j].0);
        }
      }
      UnreadKind(rest, kind);
      WriteThenOverwrite(pools, at, readings);
    }
  }

  /** Writing the first reading and overwriting with the rest is overwriting with all. */
  lemma WriteThenOverwrite(pools: seq<ResourcePool>, at: nat, readings: seq<PoolReading>)
    requires DistinctKinds(pools) && readings != [] && at < |pools| && pools[at].resource == readings[0].0
    requires ReadingFor(readings[1..], readings[0].0).None?
    ensures forall after ::
      (Overwritten(pools[at := pools[at].(current := readings[0].1)], after, readings[1..])
       ==> Overwritten(pools, after, readings))
  {
  }

  function PoolKinds(pools: seq<ResourcePool>): set<ResourceKind> {
    set i | 0 <= i < |pools| :: pools[i].resource
  }

  function ReadingKinds(readings: seq<PoolReading>): set<ResourceKind> {
    set j | 0 <= j < |readings| :: readings[j].0
  }

  lemma {:induction false} PoolKindsCount(pools: seq<ResourcePool>)
    requires DistinctKinds(pools)
    ensures |PoolKinds(pools)| == |pools|
  {
    if pools != [] {
      var front := pools[..|pools| - 1];
      PoolKindsCount(front);
      var last := pools[|pools| - 1].resource;
      assert forall i :: 0 <= i < |front| ==> front[i] == pools[i] && front[i].resource != last;
      assert PoolKinds(pools) == PoolKinds(front) + {last};
    }
  }

  lemma {:induction false} ReadingKindsCount(readings: seq<PoolReading>)
    requires DistinctReadings(readings)
    ensures |ReadingKinds(readings)| == |readings|
  {
    if readings != [] {
      var front, last := readings[..|readings| - 1], readings[|readings| - 1].0;
      ReadingKindsCount(front);
      assert forall j :: 0 <= j < |front| ==> front[j] == readings[j] && front[j].0 != last;
      assert ReadingKinds(readings) == ReadingKinds(front) + {last};
    }
  }

  lemma FullSubset<T>(small: set<T>, large: set<T>)
    requires small <= large && |small| == |large|
    ensures small == large
  {
    assert small * large == small && small + large == large;
    assert |large - small| == 0;
  }

  /** Pigeonhole: as many distinct, known readings as pools leave no pool out, so the stored
      counters are exactly the readings. */
  lemma SyncCoversEveryPool(pools: seq<ResourcePool>, readings: seq<PoolReading>)
    requires DistinctKinds(pools) && |readings| == |pools|
    requires SyncPools(pools, readings, {}).1.Success?
    ensures Overwritten(pools, SyncPools(pools, readings, {}).0, readings)
    ensures forall i :: 0 <= i < |pools| ==> ReadingFor(readings, pools[i].resource).Some?
  {
    SyncPoolsWrites(pools, readings, {});
    PoolKindsCount(pools);
    ReadingKindsCount(readings);
    forall kind | kind in ReadingKinds(readings)
      ensures kind in PoolKinds(pools)
    {
      var j :| 0 <= j < |readings| && readings[j].0 == kind;
      assert FindPool(pools, readings[j].0).Some?;
    }
    FullSubset(ReadingKinds(readings), PoolKinds(pools));
    forall i | 0 <= i < |pools|
      ensures ReadingFor(readings, pools[i].resource).Some?
    {
      assert pools[i].resource in ReadingKinds(readings);
      UnreadKind(readings, pools[i].resource);
    }
  }

  /** Conversely, distinct readings of known kinds within their maxima are all accepted. */
  lemma {:induction false} GoodReadingsAreAccepted(pools: seq<ResourcePool>, readings: seq<PoolReading>, seen: set<ResourceKind>)
    requires DistinctKinds(pools) && DistinctReadings(readings) && KnownReadings(readings, pools)
    requires forall j :: 0 <= j < |readings| ==>
      readings[j].0 !in seen && readings[j].1 <= pools[FindPool(pools, readings[j].0).value].maximum
    ensures SyncPools(pools, readings, seen).1.Success?
    decreases |readings|
  {
    if readings != [] {
      var (kind, current) := readings[0];
      var rest := readings[1..];
      var at := FindPool(pools, kind).value;
      var next := pools[at := pools[at].(current := current)];
      forall j | 0 <= j < |rest|
        ensures rest[j].0 !in seen + {kind} && FindPool(next, rest[j].0).Some?
        ensures rest[j].1 <= next[FindPool(next, rest[j].0).value].maximum
      {
        assert rest[j] == readings[j + 1];
        FindAfterWrite(pools, at, current, rest[j].0);
      }
      GoodReadingsAreAccepted(next, rest, seen + {kind});
    }
  }

  /** On any exit the pools keep their kinds, maxima and order, with every counter in range. */
  lemma {:induction false} SyncPoolsStayLegal(pools: seq<ResourcePool>, readings: seq<PoolReading>, seen: set<ResourceKind>)
    requires PoolsMatch(pools, pools)
    ensures PoolsMatch(SyncPools(pools, readings, seen).0, pools)
    decreases |readings|
  {
    if readings != [] {
      var (kind, current) := readings[0];
      var found := FindPool(pools, kind);
      if kind !in seen && found.Some? && current <= pools[found.value].maximum {
        var next := pools[found.value := pools[found.value].(current := current)];
        assert PoolsMatch(next, next);
        SyncPoolsStayLegal(next, readings[1..], seen + {kind});
      }
    }
  }
}

module HeroRuns {
  import opened Wrappers
  import opened MachineInts
  import opened Text
  import opened HeroErrors
  import opened HeroRules
  import opened HeroSheets
  import opened HeroDocuments
  import opened HeroCharacters
  import opened HeroSync

  /** One request to a hero. */
  datatype Request =
    | Award(award: RewardAwardCommand, policy: TrustedRewardPolicy, context: TrustedMutationContext)
    | Advance(levelUp: LevelUpCommand, context: TrustedMutationContext)
    | Synchronize(hitPoints: U16, readings: seq<PoolReading>)

  /** The verdict the three methods give on a valid hero. */
  function Verdict(h: Hero, request: Request): HeroCheck {
    match request
    case Award(award, policy, context) => RewardGuards(h, award, policy, context)
    case Advance(levelUp, context) => LevelUpGuards(h, levelUp, context)
    case Synchronize(hitPoints, readings) => Synchronized(h, hitPoints, readings).1
  }

  predicate Accepts(h: Hero, request: Request) { Verdict(h, request).Success? }

  /** The state the three methods leave a valid hero in. */
  function After(h: Hero, request: Request): Hero
    requires ValidHero(h)
  {
    match request
    case Award(award, policy, context) =>
      if Accepts(h, request) then Rewarded(h, policy.ExperienceFor(award.tier)) else h
    case Advance(levelUp, context) => if Accepts(h, request) then LevelledUp(h) else h
    case Synchronize(hitPoints, readings) => Synchronized(h, hitPoints, readings).0
  }

  lemma AfterKeepsValid(h: Hero, request: Request)
    requires ValidHero(h)
    ensures ValidHero(After(h, request))
  {
    hide Derived, ValidHero, LevelledUp;
    match request
    case Award(award, policy, context) =>
      if Accepts(h, request) { RewardKeepsValid(h, policy.ExperienceFor(award.tier)); }
    case Advance(levelUp, context) =>
      if Accepts(h, request) { LevelUpKeepsValid(h); }
    case Synchronize(hitPoints, readings) =>
      ValidRuntimeIsBounded(h);
      SyncPoolsStayLegal(h.sheet.resources, readings, {});
      var after := Synchronized(h, hitPoints, readings).0;
      RuntimeWriteKeepsValid(h, after.(revision := h.revision));
      ValidityIgnoresRevision(after.(revision := h.revision), after.revision);
  }

  /** The state after a whole run, with any mix of accepted and rejected requests. */
  function Run(h: Hero, requests: seq<Request>): (r: Hero)
    requires ValidHero(h)
    ensures ValidHero(r)
    decreases |requests|
  {
    hide ValidHero, After;
    if requests == [] then h
    else
      AfterKeepsValid(h, requests[0]);
      Run(After(h, requests[0]), requests[1..])
  }

  // ----- Accounting

  /** Experience one request grants. */
  function Grant(h: Hero, request: Request): nat {
    if request.Award? && Accepts(h, request) then request.policy.ExperienceFor(request.award.tier) else 0
  }

  /** Totals over a run: experience granted, requests accepted, level-ups accepted. */
  datatype Tally = Tally(granted: nat, accepted: nat, levelUps: nat)

  function TallyOf(h: Hero, requests: seq<Request>): Tally
    requires ValidHero(h)
    decreases |requests|
  {
    hide ValidHero, After;
    if requests == [] then Tally(0, 0, 0)
    else
      AfterKeepsValid(h, requests[0]);
      var rest := TallyOf(After(h, requests[0]), requests[1..]);
      var accepted := Accepts(h, requests[0]);
      Tally(
        rest.granted + Grant(h, requests[0]),
        rest.accepted + (if accepted then 1 else 0),
        rest.levelUps + if accepted && requests[0].Advance? then 1 else 0)
  }

  function LevelOrdinal(h: Hero): nat { if h.level.One? then 0 else 1 }

  /** One request: what moves and by how much. */
  lemma StepAccounts(h: Hero, request: Request)
    requires ValidHero(h)
    ensures var next := After(h, request); var accepted := Accepts(h, request);
      && next.experience == h.experience + Grant(h, request)
      && next.revision == h.revision + (if accepted then 1 else 0)
      && LevelOrdinal(next) == LevelOrdinal(h) + (if accepted && request.Advance? then 1 else 0)
      && (next.choices, next.characterId, next.campaignId, next.ownerId)
         == (h.choices, h.characterId, h.campaignId, h.ownerId)
      && (!accepted && !request.Synchronize? ==> next == h)
  {
    hide Derived, ValidHero;
  }

  lemma GrantsAreMultiplesOfFifty(h: Hero, request: Request)
    ensures Grant(h, request) % 50 == 0
  {
  }

  /** Over any run: experience is the sum of the accepted awards, the revision counts the accepted
      requests, and accepted level-ups are exactly the rise in level. */
  lemma {:induction false} RunAccounts(h: Hero, requests: seq<Request>)
    requires ValidHero(h)
    ensures var final := Run(h, requests); var tally := TallyOf(h, requests);
      && final.experience == h.experience + tally.granted
      && final.revision == h.revision + tally.accepted
      && LevelOrdinal(final) == LevelOrdinal(h) + tally.levelUps
      && tally.granted % 50 == 0
      && final.choices == h.choices
    decreases |requests|
  {
    hide Derived, ValidHero, After;
    if requests != [] {
      AfterKeepsValid(h, requests[0]);
      StepAccounts(h, requests[0]);
      GrantsAreMultiplesOfFifty(h, requests[0]);
      RunAccounts(After(h, requests[0]), requests[1..]);
    }
  }

  /** How many awards of a tier a run accepts. */
  function AcceptedAwards(h: Hero, requests: seq<Request>, tier: RewardTier): nat
    requires ValidHero(h)
    decreases |requests|
  {
    hide ValidHero, After;
    if requests == [] then 0
    else
      AfterKeepsValid(h, requests[0]);
      (if requests[0].Award? && requests[0].award.tier == tier && Accepts(h, requests[0]) then 1 else 0)
      + AcceptedAwards(After(h, requests[0]), requests[1..], tier)
  }

  /** What one accepted award is worth, by its tier. */
  lemma GrantIs(h: Hero, request: Request)
    ensures Grant(h, request) ==
      if !request.Award? || !Accepts(h, request) then 0
      else if request.award.tier == Minor then 50
      else if request.award.tier == Significant then 150
      else 300
  {
    hide Verdict;
  }

  /** Over any run, experience rises by 50 for each accepted minor award, 150 for each significant and
      300 for each major one, and by nothing else. */
  lemma {:induction false} ExperienceByTier(h: Hero, requests: seq<Request>)
    requires ValidHero(h)
    ensures Run(h, requests).experience == h.experience
      + 50 * AcceptedAwards(h, requests, Minor)
      + 150 * AcceptedAwards(h, requests, Significant)
      + 300 * AcceptedAwards(h, requests, Major)
    decreases |requests|
  {
    hide Derived, ValidHero, After, Accepts, Grant;
    if requests != [] {
      AfterKeepsValid(h, requests[0]);
      StepAccounts(h, requests[0]);
      GrantIs(h, requests[0]);
      ExperienceByTier(After(h, requests[0]), requests[1..]);
    }
  }

  /** Any run from a hero with nothing earned yet. */
  lemma FreshHeroHistory(created: Hero, requests: seq<Request>)
    requires ValidHero(created) && created.experience == 0 && created.revision == 0 && created.level.One?
    ensures var final := Run(created, requests); var tally := TallyOf(created, requests);
      && final.experience == tally.granted <= 850 && tally.granted % 50 == 0
      && final.revision == tally.accepted
      && tally.levelUps <= 1
      && (tally.levelUps == 1 <==> final.level.Two?)
      && (final.level.Two? ==> tally.granted >= 300)
      && final.choices == created.choices
  {
    hide Derived, ValidHero, After, Run, TallyOf, Verdict;
    RunAccounts(created, requests);
    ValidExperience(Run(created, requests));
  }

  lemma ValidExperience(h: Hero)
    requires ValidHero(h)
    ensures h.experience < LEVEL_THREE_XP && (h.level.Two? ==> h.experience >= LEVEL_TWO_XP)
  {
  }

  /** The life of a created hero, whatever is asked of it. */
  lemma CreatedHeroHistory(characterId: string, campaignId: string, ownerId: string, choices: HeroChoices,
                           requests: seq<Request>)
    requires IsOpaqueId(characterId) && IsOpaqueId(campaignId) && IsOpaqueId(ownerId) && choices.Valid()
    ensures ValidHero(NewHero(characterId, campaignId, ownerId, choices))
    ensures var created := NewHero(characterId, campaignId, ownerId, choices);
      var final := Run(created, requests); var tally := TallyOf(created, requests);
      && ValidHero(final)
      && final.experience == tally.granted <= 850 && tally.granted % 50 == 0
      && final.revision == tally.accepted
      && tally.levelUps <= 1
      && (tally.levelUps == 1 <==> final.level.Two?)
      && (final.level.Two? ==> tally.granted >= 300)
      && final.choices == choices
      && final.experience == 50 * AcceptedAwards(created, requests, Minor)
                             + 150 * AcceptedAwards(created, requests, Significant)
                             + 300 * AcceptedAwards(created, requests, Major)
  {
    FreshSheetIsValid(NewHero(characterId, campaignId, ownerId, choices));
    hide Derived, ValidHero, Run, TallyOf, AcceptedAwards;
    FreshHeroHistory(NewHero(characterId, campaignId, ownerId, choices), requests);
    ExperienceByTier(NewHero(characterId, campaignId, ownerId, choices), requests);
  }

  // ----- Optimistic revisions

  predicate IsVersioned(request: Request) { !request.Synchronize? }

  function ExpectedRevision(request: Request): U64
    requires IsVersioned(request)
  {
    if request.Award? then request.award.expectedRevision else request.levelUp.expectedRevision
  }

  /** A versioned request is only ever accepted at the revision it expects. */
  lemma AcceptedAtExpectedRevision(h: Hero, request: Request)
    requires IsVersioned(request) && Accepts(h, request)
    ensures ExpectedRevision(request) == h.revision
  {
  }

  /** Once the hero has moved past a revision, no later request naming it is accepted. */
  lemma {:induction false} PassedRevisionIsDead(h: Hero, requests: seq<Request>, i: nat)
    requires ValidHero(h) && i < |requests| && IsVersioned(requests[i])
    requires ExpectedRevision(requests[i]) < h.revision
    ensures !Accepts(Run(h, requests[..i]), requests[i])
    ensures After(Run(h, requests[..i]), requests[i]) == Run(h, requests[..i])
  {
    hide Derived, ValidHero, After;
    RunAccounts(h, requests[..i]);
    StepAccounts(Run(h, requests[..i]), requests[i]);
  }

  lemma {:induction false} RunSplits(h: Hero, first: seq<Request>, second: seq<Request>)
    requires ValidHero(h)
    ensures Run(h, first + second) == Run(Run(h, first), second)
    decreases |first|
  {
    hide ValidHero, After;
    if first == [] {
      assert first + second == second;
    } else {
      AfterKeepsValid(h, first[0]);
      assert (first + second)[1..] == first[1..] + second;
      RunSplits(After(h, first[0]), first[1..], second);
    }
  }

  lemma WinnerShutsOutLater(h: Hero, requests: seq<Request>, k: nat)
    requires ValidHero(h) && 0 < k < |requests|
    requires IsVersioned(requests[0]) && IsVersioned(requests[k])
    requires ExpectedRevision(requests[0]) == ExpectedRevision(requests[k])
    requires Accepts(h, requests[0])
    ensures !Accepts(Run(h, requests[..k]), requests[k])
    ensures After(Run(h, requests[..k]), requests[k]) == Run(h, requests[..k])
  {
    hide Derived, ValidHero, After, Verdict;
    AcceptedAtExpectedRevision(h, requests[0]);
    AfterKeepsValid(h, requests[0]);
    StepAccounts(h, requests[0]);
    assert requests[..k][1..] == requests[1..][..k - 1];
    PassedRevisionIsDead(After(h, requests[0]), requests[1..], k - 1);
  }

  /** In any run at most one reward or level-up naming a given revision is accepted: if request i
      is, every later request j with the same expected revision is refused and changes nothing. */
  lemma OneWinnerPerRevision(h: Hero, requests: seq<Request>, i: nat, j: nat)
    requires ValidHero(h) && i < j < |requests|
    requires IsVersioned(requests[i]) && IsVersioned(requests[j])
    requires ExpectedRevision(requests[i]) == ExpectedRevision(requests[j])
    requires Accepts(Run(h, requests[..i]), requests[i])
    ensures !Accepts(Run(h, requests[..j]), requests[j])
    ensures After(Run(h, requests[..j]), requests[j]) == Run(h, requests[..j])
  {
    hide Derived, ValidHero, After, Verdict;
    var tail := requests[i..];
    assert requests[..j] == requests[..i] + tail[..j - i];
    RunSplits(h, requests[..i], tail[..j - i]);
    WinnerShutsOutLater(Run(h, requests[..i]), tail, j - i);
  }

  /** Delivering an applied command again is refused as stale, by name. */
  lemma RedeliveryIsStale(h: Hero, request: Request, later: seq<Request>)
    requires ValidHero(h) && IsVersioned(request) && Accepts(h, request)
    ensures ValidHero(After(h, request))
    ensures var now := Run(After(h, request), later);
      Verdict(now, request) == Failure(StaleRevision(h.revision, now.revision))
  {
    hide Derived, ValidHero, After, LevelledUp;
    AfterKeepsValid(h, request);
    StepAccounts(h, request);
    RunAccounts(After(h, request), later);
    RunKeepsIdentity(After(h, request), later);
  }

  lemma {:induction false} RunKeepsIdentity(h: Hero, requests: seq<Request>)
    requires ValidHero(h)
    ensures Run(h, requests).characterId == h.characterId
    decreases |requests|
  {
    hide Derived, ValidHero, After;
    if requests != [] {
      AfterKeepsValid(h, requests[0]);
      StepAccounts(h, requests[0]);
      RunKeepsIdentity(After(h, requests[0]), requests[1..]);
    }
  }
}
