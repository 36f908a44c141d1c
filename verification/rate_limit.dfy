// The fixed-window request limiter (app/src/main.rs, lines 44-47, 201-273).

module RateLimits {
  import opened MachineInts

  const NANOS_PER_SECOND := 1_000_000_000
  const WINDOW_SECONDS := 60
  const WINDOW_NANOS := 60_000_000_000
  const MAX_MUTATIONS: U32 := 300
  const MAX_RESTORES: U32 := 6
  const MAX_IMAGE_READS: U32 := 600

  /** Nanoseconds since the limiter was created; whole seconds fit 64 bits. */
  type Duration = n: nat | n / NANOS_PER_SECOND <= U64_MAX

  datatype RateClass = Unmetered | Mutation | CampaignRestore | ImageRead
  datatype RateDecision = Allowed | Limited | Unavailable

  function Maximum(class_: RateClass): U32 {
    match class_
    case Unmetered => 0
    case Mutation => MAX_MUTATIONS
    case CampaignRestore => MAX_RESTORES
    case ImageRead => MAX_IMAGE_READS
  }

  function WindowIndex(elapsed: Duration): U64 {
    elapsed / NANOS_PER_SECOND / WINDOW_SECONDS
  }

  /** The value of a window at one moment. */
  datatype Window = Window(index: U64, mutations: U32, restores: U32, imageReads: U32) {
    function Count(class_: RateClass): U32 {
      match class_
      case Unmetered => 0
      case Mutation => mutations
      case CampaignRestore => restores
      case ImageRead => imageReads
    }

    predicate Bounded() {
      mutations <= MAX_MUTATIONS && restores <= MAX_RESTORES && imageReads <= MAX_IMAGE_READS
    }
  }

  const FRESH_WINDOW := Window(0, 0, 0, 0)

  class RateWindow {
    var index: U64
    var mutationCount: U32
    var restoreCount: U32
    var imageReadCount: U32

    function View(): Window
      reads this
    {
      Window(index, mutationCount, restoreCount, imageReadCount)
    }

    constructor Default()
      ensures View() == FRESH_WINDOW
    {
      index, mutationCount, restoreCount, imageReadCount := 0, 0, 0, 0;
    }

    /** Charges one request at a time since the epoch. */
    method Check(class_: RateClass, elapsed: Duration) returns (r: RateDecision)
      modifies this
      ensures old(View().Bounded()) ==> View().Bounded()
      ensures (View(), r) == Charged(old(View()), Request(class_, elapsed))
    {
      if class_ == Unmetered {
        return Allowed;
      }
      var current := elapsed / NANOS_PER_SECOND / WINDOW_SECONDS;
      if current != index {
        index := current;
        mutationCount := 0;
        restoreCount := 0;
        imageReadCount := 0;
      }
      match class_ {
        case Unmetered => return Allowed;
        case Mutation =>
          if mutationCount >= MAX_MUTATIONS { return Limited; }
          mutationCount := mutationCount + 1;
        case CampaignRestore =>
          if restoreCount >= MAX_RESTORES { return Limited; }
          restoreCount := restoreCount + 1;
        case ImageRead =>
          if imageReadCount >= MAX_IMAGE_READS { return Limited; }
          imageReadCount := imageReadCount + 1;
      }
      return Allowed;
    }
  }

  /** The shared limiter; a poisoned lock answers without touching the window. */
  class RequestRateLimiter {
    const window: RateWindow
    var poisoned: bool

    constructor New()
      ensures fresh(window) && window.View() == FRESH_WINDOW && !poisoned
    {
      window := new RateWindow.Default();
      poisoned := false;
    }

    method Check(class_: RateClass, elapsed: Duration) returns (r: RateDecision)
      modifies window
      ensures poisoned ==> r == Unavailable && window.View() == old(window.View())
      ensures !poisoned ==> (window.View(), r) == Charged(old(window.View()), Request(class_, elapsed))
      ensures old(window.View().Bounded()) ==> window.View().Bounded()
    {
      if poisoned {
        return Unavailable;
      }
      r := window.Check(class_, elapsed);
    }
  }

  // ----- One charge, as a value

  datatype Request = Request(class_: RateClass, at: Duration) {
    predicate Metered() { !class_.Unmetered? }
  }

  function AddOne(w: Window, class_: RateClass): Window
    requires w.Count(class_) < Maximum(class_)
  {
    match class_
    case Mutation => w.(mutations := w.mutations + 1)
    case CampaignRestore => w.(restores := w.restores + 1)
    case ImageRead => w.(imageReads := w.imageReads + 1)
  }

  /** The window a request is counted in. */
  function Rolled(w: Window, at: Duration): Window {
    if WindowIndex(at) == w.index then w else Window(WindowIndex(at), 0, 0, 0)
  }

  function Charged(w: Window, request: Request): (r: (Window, RateDecision))
    ensures w.Bounded() ==> r.0.Bounded()
  {
    if !request.Metered() then (w, Allowed)
    else
      var rolled := Rolled(w, request.at);
      if rolled.Count(request.class_) >= Maximum(request.class_) then (rolled, Limited)
      else (AddOne(rolled, request.class_), Allowed)
  }

  // ----- Whole histories

  function Played(requests: seq<Request>): (r: (Window, seq<RateDecision>))
    ensures r.0.Bounded() && |r.1| == |requests|
  {
    if requests == [] then (FRESH_WINDOW, [])
    else
      var last := |requests| - 1;
      var (w, decisions) := Played(requests[..last]);
      var (next, decision) := Charged(w, requests[last]);
      (next, decisions + [decision])
  }

  /** Allowed requests of a class in the trailing run of metered requests that share a window. */
  function AllowedInBlock(requests: seq<Request>, decisions: seq<RateDecision>, class_: RateClass, index: nat): nat
    requires |requests| == |decisions|
  {
    if requests == [] then 0
    else
      var last := |requests| - 1;
      if requests[last].Metered() && WindowIndex(requests[last].at) != index then 0
      else
        AllowedInBlock(requests[..last], decisions[..last], class_, index)
        + if requests[last].class_ == class_ && decisions[last] == Allowed then 1 else 0
  }

  /** The window of the latest metered request, zero before the first. */
  function LatestIndex(requests: seq<Request>): nat {
    if requests == [] then 0
    else
      var last := |requests| - 1;
      if requests[last].Metered() then WindowIndex(requests[last].at) else LatestIndex(requests[..last])
  }

  lemma {:induction false} NoBlockElsewhere(requests: seq<Request>, decisions: seq<RateDecision>, class_: RateClass, index: nat)
    requires |requests| == |decisions| && LatestIndex(requests) != index && !class_.Unmetered?
    ensures AllowedInBlock(requests, decisions, class_, index) == 0
  {
    if requests != [] && !requests[|requests| - 1].Metered() {
      NoBlockElsewhere(requests[..|requests| - 1], decisions[..|requests| - 1], class_, index);
    }
  }

  lemma {:induction false} WindowCountsBlock(requests: seq<Request>, class_: RateClass)
    requires !class_.Unmetered?
    ensures var (w, decisions) := Played(requests);
      && w.index == LatestIndex(requests)
      && w.Count(class_) == AllowedInBlock(requests, decisions, class_, w.index)
  {
    if requests != [] {
      var last := |requests| - 1;
      var front, request := requests[..last], requests[last];
      WindowCountsBlock(front, class_);
      var (w, decisions) := Played(front);
      assert Played(requests).1[..last] == decisions;
      if request.Metered() && WindowIndex(request.at) != w.index {
        NoBlockElsewhere(front, decisions, class_, WindowIndex(request.at));
      }
    }
  }

  lemma AllowedWhileBlockHasRoom(history: seq<Request>, request: Request)
    ensures var (w, decisions) := Played(history);
      Charged(w, request).1 == Allowed <==>
        || !request.Metered()
        || AllowedInBlock(history, decisions, request.class_, WindowIndex(request.at)) < Maximum(request.class_)
  {
    if request.Metered() {
      WindowCountsBlock(history, request.class_);
      var (w, decisions) := Played(history);
      if WindowIndex(request.at) != w.index {
        NoBlockElsewhere(history, decisions, request.class_, WindowIndex(request.at));
      }
    }
  }

  // ----- Decisions as counts of requests

  /** Requests of a class in the trailing run of metered requests that share a window. */
  function CountInBlock(requests: seq<Request>, class_: RateClass, index: nat): nat {
    if requests == [] then 0
    else
      var last := |requests| - 1;
      if requests[last].Metered() && WindowIndex(requests[last].at) != index then 0
      else CountInBlock(requests[..last], class_, index) + if requests[last].class_ == class_ then 1 else 0
  }

  /** Requests of a class in a window. */
  function CountIn(requests: seq<Request>, class_: RateClass, index: nat): nat {
    if requests == [] then 0
    else
      var last := |requests| - 1;
      CountIn(requests[..last], class_, index)
      + if requests[last].class_ == class_ && WindowIndex(requests[last].at) == index then 1 else 0
  }

  function Capped(count: nat, class_: RateClass): nat {
    if count < Maximum(class_) then count else Maximum(class_)
  }

  lemma {:induction false} BlockIsCapped(requests: seq<Request>, class_: RateClass, index: nat)
    requires !class_.Unmetered?
    ensures AllowedInBlock(requests, Played(requests).1, class_, index)
         == Capped(CountInBlock(requests, class_, index), class_)
  {
    if requests != [] {
      var last := |requests| - 1;
      BlockIsCapped(requests[..last], class_, index);
      AllowedWhileBlockHasRoom(requests[..last], requests[last]);
      assert Played(requests).1[..last] == Played(requests[..last]).1;
    }
  }

  /** For any history and any clock, the next request is allowed iff it is unmetered or fewer than its
      class maximum arrived in the current block: the limiter's memory is a count of requests. */
  lemma LimiterAllowsIff(history: seq<Request>, request: Request)
    ensures Charged(Played(history).0, request).1 == Allowed <==>
      || !request.Metered()
      || CountInBlock(history, request.class_, WindowIndex(request.at)) < Maximum(request.class_)
  {
    AllowedWhileBlockHasRoom(history, request);
    if request.Metered() {
      BlockIsCapped(history, request.class_, WindowIndex(request.at));
    }
  }

  lemma {:induction false} DecisionAt(requests: seq<Request>, k: nat)
    requires k < |requests|
    ensures Played(requests).1[k] == Charged(Played(requests[..k]).0, requests[k]).1
    decreases |requests|
  {
    var last := |requests| - 1;
    if k < last {
      DecisionAt(requests[..last], k);
      assert requests[..last][..k] == requests[..k];
    }
  }

  /** Requests of one class, all within one minute since the epoch. */
  predicate Burst(requests: seq<Request>, class_: RateClass, minute: nat) {
    forall i :: 0 <= i < |requests| ==>
      requests[i].class_ == class_ && requests[i].at / 60_000_000_000 == minute
  }

  lemma {:induction false} MinuteIsOneBlock(requests: seq<Request>, class_: RateClass, minute: nat)
    requires Burst(requests, class_, minute)
    ensures CountInBlock(requests, class_, minute) == |requests|
  {
    if requests != [] {
      var last := |requests| - 1;
      MinuteIsOneBlock(requests[..last], class_, minute);
      assert WindowIndex(requests[last].at) == requests[last].at / 60_000_000_000;
    }
  }

  /** In a burst the first 300 mutations, 6 restores or 600 image reads are allowed and all later ones
      limited; unmetered requests never are. */
  lemma BurstIsCut(requests: seq<Request>, class_: RateClass, minute: nat, k: nat)
    requires k < |requests| && Burst(requests, class_, minute)
    ensures Played(requests).1[k] == Allowed <==>
      match class_
      case Unmetered => true
      case Mutation => k < 300
      case CampaignRestore => k < 6
      case ImageRead => k < 600
    ensures Played(requests).1[k] in {Allowed, Limited}
  {
    DecisionAt(requests, k);
    LimiterAllowsIff(requests[..k], requests[k]);
    MinuteIsOneBlock(requests[..k], class_, minute);
  }

  // ----- The history specification

  /** How many requests of a class were allowed in one window. */
  function AllowedIn(requests: seq<Request>, decisions: seq<RateDecision>, class_: RateClass, index: nat): nat
    requires |requests| == |decisions|
  {
    if requests == [] then 0
    else
      var last := |requests| - 1;
      AllowedIn(requests[..last], decisions[..last], class_, index)
      + if requests[last].class_ == class_ && WindowIndex(requests[last].at) == index && decisions[last] == Allowed
        then 1 else 0
  }

  /** A metered request is allowed iff fewer than its class maximum were already allowed in the same
      60-second window. */
  function Specified(requests: seq<Request>): (r: seq<RateDecision>)
    ensures |r| == |requests|
  {
    if requests == [] then []
    else
      var last := |requests| - 1;
      var before := Specified(requests[..last]);
      var request := requests[last];
      var allowed :=
        || !request.Metered()
        || AllowedIn(requests[..last], before, request.class_, WindowIndex(request.at)) < Maximum(request.class_);
      before + [if allowed then Allowed else Limited]
  }

  lemma {:induction false} SpecifiedIsCapped(requests: seq<Request>, class_: RateClass, index: nat)
    requires !class_.Unmetered?
    ensures AllowedIn(requests, Specified(requests), class_, index) == Capped(CountIn(requests, class_, index), class_)
  {
    if requests != [] {
      var last := |requests| - 1;
      SpecifiedIsCapped(requests[..last], class_, index);
      assert Specified(requests)[..last] == Specified(requests[..last]);
    }
  }

  lemma {:induction false} BlockWithinWindow(requests: seq<Request>, class_: RateClass, index: nat)
    requires !class_.Unmetered?
    ensures CountInBlock(requests, class_, index) <= CountIn(requests, class_, index)
  {
    if requests != [] {
      BlockWithinWindow(requests[..|requests| - 1], class_, index);
    }
  }

  /** A request that comes back to a window after it was left: its class has used the window up, but
      not since the return. */
  predicate Refills(history: seq<Request>, request: Request) {
    && request.Metered()
    && CountInBlock(history, request.class_, WindowIndex(request.at)) < Maximum(request.class_)
    && Maximum(request.class_) <= CountIn(history, request.class_, WindowIndex(request.at))
  }

  predicate NeverRefills(requests: seq<Request>) {
    forall k :: 0 <= k < |requests| ==> !Refills(requests[..k], requests[k])
  }

  lemma NeverRefillsSnoc(requests: seq<Request>)
    requires requests != []
    ensures var last := |requests| - 1;
      NeverRefills(requests) <==> NeverRefills(requests[..last]) && !Refills(requests[..last], requests[last])
  {
    var last := |requests| - 1;
    assert forall k :: 0 <= k < last ==> requests[..last][..k] == requests[..k];
  }

  /** After any history, whatever was decided in it, the limiter's next decision differs from the
      specification's exactly on a refill: the limiter allows what the window no longer permits. */
  lemma NextDecisionDiffersIff(history: seq<Request>, request: Request)
    ensures (Charged(Played(history).0, request).1 == Specified(history + [request])[|history|])
      <==> !Refills(history, request)
    ensures Refills(history, request) ==> Charged(Played(history).0, request).1 == Allowed
  {
    assert (history + [request])[..|history|] == history;
    LimiterAllowsIff(history, request);
    if request.Metered() {
      SpecifiedIsCapped(history, request.class_, WindowIndex(request.at));
      BlockWithinWindow(history, request.class_, WindowIndex(request.at));
    }
  }

  /** The limiter is the history specification exactly on the traces that never refill a window. */
  lemma {:induction false} LimiterMeetsSpecificationIff(requests: seq<Request>)
    ensures Played(requests).1 == Specified(requests) <==> NeverRefills(requests)
  {
    if requests != [] {
      var last := |requests| - 1;
      var front, request := requests[..last], requests[last];
      LimiterMeetsSpecificationIff(front);
      NeverRefillsSnoc(requests);
      assert requests == front + [request];
      NextDecisionDiffersIff(front, request);
      SameSnoc(Played(front).1, Charged(Played(front).0, request).1, Specified(front), Specified(requests)[last]);
    }
  }

  lemma SameSnoc(a: seq<RateDecision>, x: RateDecision, b: seq<RateDecision>, y: RateDecision)
    requires |a| == |b|
    ensures a + [x] == b + [y] <==> a == b && x == y
  {
    assert (a + [x])[..|a|] == a && (b + [y])[..|b|] == b;
    assert (a + [x])[|a|] == x && (b + [y])[|b|] == y;
  }

  // ----- Traces that never refill

  /** No window is left for another and then returned to; times inside a window may be in any order. */
  predicate NoReturn(requests: seq<Request>) {
    forall i, j, k :: 0 <= i < j < k < |requests| ==>
      requests[i].Metered() && requests[j].Metered() && requests[k].Metered()
      && WindowIndex(requests[i].at) == WindowIndex(requests[k].at)
      ==> WindowIndex(requests[j].at) == WindowIndex(requests[k].at)
  }

  predicate NonDecreasing(requests: seq<Request>) {
    forall i, j :: 0 <= i < j < |requests| ==> requests[i].at <= requests[j].at
  }

  /** Once a metered request falls in the window, so do all later ones. */
  predicate NeverLeaves(requests: seq<Request>, index: nat) {
    forall i, j :: 0 <= i < j < |requests| ==>
      requests[i].Metered() && requests[j].Metered() && WindowIndex(requests[i].at) == index
      ==> WindowIndex(requests[j].at) == index
  }

  lemma {:induction false} NoneInWindow(requests: seq<Request>, class_: RateClass, index: nat)
    requires !class_.Unmetered?
    requires forall i :: 0 <= i < |requests| && requests[i].Metered() ==> WindowIndex(requests[i].at) != index
    ensures CountIn(requests, class_, index) == 0
  {
    if requests != [] {
      NoneInWindow(requests[..|requests| - 1], class_, index);
    }
  }

  lemma {:induction false} BlockIsWindow(requests: seq<Request>, class_: RateClass, index: nat)
    requires !class_.Unmetered? && NeverLeaves(requests, index)
    ensures CountInBlock(requests, class_, index) == CountIn(requests, class_, index)
  {
    if requests != [] {
      var last := |requests| - 1;
      if requests[last].Metered() && WindowIndex(requests[last].at) != index {
        NoneInWindow(requests, class_, index);
      } else {
        BlockIsWindow(requests[..last], class_, index);
      }
    }
  }

  /** A trace that never returns to a window never refills one; a clock that never goes back cannot
      return. */
  lemma NoReturnNeverRefills(requests: seq<Request>)
    ensures NonDecreasing(requests) ==> NoReturn(requests)
    ensures NoReturn(requests) ==> NeverRefills(requests)
  {
    if NoReturn(requests) {
      forall k | 0 <= k < |requests| && requests[k].Metered()
        ensures !Refills(requests[..k], requests[k])
      {
        BlockIsWindow(requests[..k], requests[k].class_, WindowIndex(requests[k].at));
      }
    }
  }

  // ----- Classes do not disturb each other

  function OfClass(requests: seq<Request>, class_: RateClass): seq<Request> {
    if requests == [] then []
    else
      var last := |requests| - 1;
      OfClass(requests[..last], class_) + if requests[last].class_ == class_ then [requests[last]] else []
  }

  function DecisionsOfClass(requests: seq<Request>, decisions: seq<RateDecision>, class_: RateClass): (r: seq<RateDecision>)
    requires |requests| == |decisions|
    ensures |r| == |OfClass(requests, class_)|
  {
    if requests == [] then []
    else
      var last := |requests| - 1;
      DecisionsOfClass(requests[..last], decisions[..last], class_)
      + if requests[last].class_ == class_ then [decisions[last]] else []
  }

  /** A request helped by another class: room was made for it by a visit to another window that its
      own class did not pay for. */
  predicate FreedByOthers(history: seq<Request>, request: Request) {
    var class_, index := request.class_, WindowIndex(request.at);
    && request.Metered()
    && CountInBlock(history, class_, index) < Maximum(class_)
    && Maximum(class_) <= CountInBlock(OfClass(history, class_), class_, index)
  }

  predicate NeverFreed(requests: seq<Request>, class_: RateClass) {
    forall k :: 0 <= k < |requests| && requests[k].class_ == class_ ==> !FreedByOthers(requests[..k], requests[k])
  }

  lemma NeverFreedSnoc(requests: seq<Request>, class_: RateClass)
    requires requests != []
    ensures var last := |requests| - 1;
      NeverFreed(requests, class_) <==>
        && NeverFreed(requests[..last], class_)
        && (requests[last].class_ == class_ ==> !FreedByOthers(requests[..last], requests[last]))
  {
    var last := |requests| - 1;
    assert forall k :: 0 <= k < last ==> requests[..last][..k] == requests[..k];
  }

  lemma CountInBlockSnoc(requests: seq<Request>, request: Request, class_: RateClass, index: nat)
    ensures CountInBlock(requests + [request], class_, index)
         == if request.Metered() && WindowIndex(request.at) != index then 0
            else CountInBlock(requests, class_, index) + if request.class_ == class_ then 1 else 0
  {
    assert (requests + [request])[..|requests|] == requests;
  }

  lemma {:induction false} OthersOnlyFree(requests: seq<Request>, class_: RateClass, index: nat)
    ensures CountInBlock(requests, class_, index) <= CountInBlock(OfClass(requests, class_), class_, index)
  {
    if requests != [] {
      var last := |requests| - 1;
      OthersOnlyFree(requests[..last], class_, index);
      CountInBlockSnoc(OfClass(requests[..last], class_), requests[last], class_, index);
      assert OfClass(requests[..last], class_) + [] == OfClass(requests[..last], class_);
    }
  }

  lemma PlayedSnoc(history: seq<Request>, request: Request)
    ensures Played(history + [request]).1 == Played(history).1 + [Charged(Played(history).0, request).1]
  {
    assert (history + [request])[..|history|] == history;
  }

  lemma FreedDecisionDiffers(history: seq<Request>, request: Request)
    ensures (Charged(Played(history).0, request).1 == Charged(Played(OfClass(history, request.class_)).0, request).1)
      <==> !FreedByOthers(history, request)
  {
    LimiterAllowsIff(history, request);
    LimiterAllowsIff(OfClass(history, request.class_), request);
    OthersOnlyFree(history, request.class_, WindowIndex(request.at));
  }

  lemma OfClassSnoc(requests: seq<Request>, decisions: seq<RateDecision>, request: Request, decision: RateDecision,
                    class_: RateClass)
    requires |decisions| == |requests|
    ensures OfClass(requests + [request], class_)
         == OfClass(requests, class_) + if request.class_ == class_ then [request] else []
    ensures DecisionsOfClass(requests + [request], decisions + [decision], class_)
         == DecisionsOfClass(requests, decisions, class_) + if request.class_ == class_ then [decision] else []
  {
    assert (requests + [request])[..|requests|] == requests && (decisions + [decision])[..|requests|] == decisions;
  }

  /** Each request of the class gets the decision it would get without the other classes. */
  predicate Independent(requests: seq<Request>, class_: RateClass) {
    DecisionsOfClass(requests, Played(requests).1, class_) == Played(OfClass(requests, class_)).1
  }

  lemma IndependentSnoc(history: seq<Request>, request: Request, class_: RateClass)
    ensures Independent(history + [request], class_) <==>
      Independent(history, class_) && (request.class_ == class_ ==> !FreedByOthers(history, request))
  {
    hide Played, OfClass, DecisionsOfClass, FreedByOthers, Charged;
    var kept, answers := OfClass(history, class_), DecisionsOfClass(history, Played(history).1, class_);
    var decision := Charged(Played(history).0, request).1;
    PlayedSnoc(history, request);
    OfClassSnoc(history, Played(history).1, request, decision, class_);
    if request.class_ == class_ {
      PlayedSnoc(kept, request);
      FreedDecisionDiffers(history, request);
      SameSnoc(answers, decision, Played(kept).1, Charged(Played(kept).0, request).1);
    } else {
      assert kept + [] == kept && answers + [] == answers;
    }
  }

  lemma NothingIsIndependent(class_: RateClass)
    ensures Independent([], class_) && NeverFreed([], class_)
  {
  }

  /** Deleting every other class's requests changes no decision, exactly when no request was freed by
      another class. */
  lemma {:induction false} ClassesAreIndependentIff(requests: seq<Request>, class_: RateClass)
    ensures Independent(requests, class_) <==> NeverFreed(requests, class_)
  {
    hide Independent, NeverFreed, FreedByOthers;
    if requests == [] {
      NothingIsIndependent(class_);
    } else {
      var last := |requests| - 1;
      ClassesAreIndependentIff(requests[..last], class_);
      assert requests == requests[..last] + [requests[last]];
      IndependentSnoc(requests[..last], requests[last], class_);
      NeverFreedSnoc(requests, class_);
    }
  }

  lemma {:induction false} CountInOfClass(requests: seq<Request>, class_: RateClass, index: nat)
    ensures CountIn(OfClass(requests, class_), class_, index) == CountIn(requests, class_, index)
  {
    if requests != [] {
      var last := |requests| - 1;
      var kept := OfClass(requests[..last], class_);
      CountInOfClass(requests[..last], class_, index);
      assert (kept + [requests[last]])[..|kept|] == kept;
      assert kept + [] == kept;
    }
  }

  /** A trace that never refills a window never frees one class through another. */
  lemma NeverRefillsNeverFrees(requests: seq<Request>, class_: RateClass)
    requires NeverRefills(requests)
    ensures NeverFreed(requests, class_)
  {
    forall k | 0 <= k < |requests| && requests[k].class_ == class_ && requests[k].Metered()
      ensures !FreedByOthers(requests[..k], requests[k])
    {
      var history, index := requests[..k], WindowIndex(requests[k].at);
      CountInOfClass(history, class_, index);
      BlockWithinWindow(OfClass(history, class_), class_, index);
      assert !Refills(history, requests[k]);
    }
  }

  // ----- Bounds, for any clock

  /** The latest metered request is in the window. */
  predicate Inside(requests: seq<Request>, index: nat) {
    requests != [] &&
    var last := |requests| - 1;
    if requests[last].Metered() then WindowIndex(requests[last].at) == index else Inside(requests[..last], index)
  }

  /** How many times the trace enters a window. */
  function Visits(requests: seq<Request>, index: nat): nat {
    if requests == [] then 0
    else
      var last := |requests| - 1;
      Visits(requests[..last], index)
      + if requests[last].Metered() && WindowIndex(requests[last].at) == index && !Inside(requests[..last], index)
        then 1 else 0
  }

  /** What a number of visits may have been allowed. */
  function Allowance(class_: RateClass, visits: nat): nat { Maximum(class_) * visits }

  lemma OneMoreVisit(class_: RateClass, visits: nat)
    ensures Allowance(class_, visits + 1) == Allowance(class_, visits) + Maximum(class_)
  {
  }

  lemma {:induction false} OutsideIsNoBlock(requests: seq<Request>, decisions: seq<RateDecision>, class_: RateClass, index: nat)
    requires |requests| == |decisions| && !class_.Unmetered? && !Inside(requests, index)
    ensures AllowedInBlock(requests, decisions, class_, index) == 0
  {
    if requests != [] && !requests[|requests| - 1].Metered() {
      OutsideIsNoBlock(requests[..|requests| - 1], decisions[..|requests| - 1], class_, index);
    }
  }

  /** How one more request moves each of the counts. */
  lemma CountsSnoc(history: seq<Request>, request: Request, class_: RateClass, index: nat)
    requires !class_.Unmetered?
    ensures var longer := history + [request]; var allowed := Charged(Played(history).0, request).1 == Allowed;
      var counted := if request.class_ == class_ && allowed then 1 else 0;
      var here := WindowIndex(request.at) == index;
      && AllowedIn(longer, Played(longer).1, class_, index)
         == AllowedIn(history, Played(history).1, class_, index) + (if here then counted else 0)
      && AllowedInBlock(longer, Played(longer).1, class_, index)
         == (if request.Metered() && !here then 0
             else AllowedInBlock(history, Played(history).1, class_, index) + counted)
      && Inside(longer, index) == (if request.Metered() then here else Inside(history, index))
      && Visits(longer, index)
         == Visits(history, index) + if request.Metered() && here && !Inside(history, index) then 1 else 0
  {
    hide Charged;
    PlayedSnoc(history, request);
    assert (history + [request])[..|history|] == history;
    assert Played(history + [request]).1[..|history|] == Played(history).1;
  }

  lemma {:induction false} EarlierVisitsAllowed(requests: seq<Request>, class_: RateClass, index: nat)
    requires !class_.Unmetered?
    ensures var allowed, visits := AllowedIn(requests, Played(requests).1, class_, index), Visits(requests, index);
      && (Inside(requests, index) ==> visits > 0)
      && allowed <= AllowedInBlock(requests, Played(requests).1, class_, index)
                    + Allowance(class_, if Inside(requests, index) then visits - 1 else visits)
  {
    if requests != [] {
      hide AllowedIn, AllowedInBlock, Inside, Visits, Allowance, Played, Charged, CountInBlock;
      var last := |requests| - 1;
      var front := requests[..last];
      EarlierVisitsAllowed(front, class_, index);
      assert requests == front + [requests[last]];
      CountsSnoc(front, requests[last], class_, index);
      if !Inside(front, index) {
        OutsideIsNoBlock(front, Played(front).1, class_, index);
      } else {
        BlockIsCapped(front, class_, index);
        OneMoreVisit(class_, Visits(front, index) - 1);
      }
    }
  }

  /** For any clock, a window never allows more than the class maximum for each visit to it. */
  lemma VisitsBoundWindow(requests: seq<Request>, class_: RateClass, index: nat)
    requires !class_.Unmetered?
    ensures AllowedIn(requests, Played(requests).1, class_, index) <= Allowance(class_, Visits(requests, index))
  {
    hide Allowance;
    EarlierVisitsAllowed(requests, class_, index);
    BlockIsCapped(requests, class_, index);
    if Inside(requests, index) {
      OneMoreVisit(class_, Visits(requests, index) - 1);
    } else {
      OutsideIsNoBlock(requests, Played(requests).1, class_, index);
    }
  }

  /** The limiter never allows less in a window than the specification would. */
  lemma {:induction false} AllowsAtLeastCapped(requests: seq<Request>, class_: RateClass, index: nat)
    requires !class_.Unmetered?
    ensures AllowedInBlock(requests, Played(requests).1, class_, index)
         <= AllowedIn(requests, Played(requests).1, class_, index)
    ensures Capped(CountIn(requests, class_, index), class_) <= AllowedIn(requests, Played(requests).1, class_, index)
  {
    if requests != [] {
      var last := |requests| - 1;
      AllowsAtLeastCapped(requests[..last], class_, index);
      AllowedWhileBlockHasRoom(requests[..last], requests[last]);
      assert Played(requests).1[..last] == Played(requests[..last]).1;
    }
  }

  lemma {:induction false} AllowedInGrows(requests: seq<Request>, class_: RateClass, index: nat, k: nat)
    requires k <= |requests|
    ensures AllowedIn(requests[..k], Played(requests[..k]).1, class_, index)
         <= AllowedIn(requests, Played(requests).1, class_, index)
    decreases |requests|
  {
    if k == |requests| {
      assert requests[..k] == requests;
    } else {
      var last := |requests| - 1;
      AllowedInGrows(requests[..last], class_, index, k);
      assert requests[..last][..k] == requests[..k];
      assert Played(requests).1[..last] == Played(requests[..last]).1;
    }
  }

  lemma RefillExceeds(requests: seq<Request>, k: nat)
    requires k < |requests| && Refills(requests[..k], requests[k])
    ensures AllowedIn(requests, Played(requests).1, requests[k].class_, WindowIndex(requests[k].at))
          > Maximum(requests[k].class_)
  {
    var history, request := requests[..k], requests[k];
    var class_, index := request.class_, WindowIndex(request.at);
    AllowsAtLeastCapped(history, class_, index);
    LimiterAllowsIff(history, request);
    var longer := requests[..k + 1];
    assert longer[..k] == history && longer[k] == request;
    assert Played(longer).1[..k] == Played(history).1;
    AllowedInGrows(requests, class_, index, k + 1);
  }

  /** No window of any class ever allows more than the maximum, exactly on the traces that never
      refill a window. */
  lemma WindowsAreBoundedIff(requests: seq<Request>)
    ensures NeverRefills(requests) <==>
      forall class_: RateClass, index: nat :: class_.Unmetered?
        || AllowedIn(requests, Played(requests).1, class_, index) <= Maximum(class_)
  {
    if NeverRefills(requests) {
      LimiterMeetsSpecificationIff(requests);
      forall class_: RateClass, index: nat | !class_.Unmetered?
        ensures AllowedIn(requests, Played(requests).1, class_, index) <= Maximum(class_)
      {
        SpecifiedIsCapped(requests, class_, index);
      }
    } else {
      var k :| 0 <= k < |requests| && Refills(requests[..k], requests[k]);
      RefillExceeds(requests, k);
    }
  }

  /** How many requests of a class were allowed at or after `from` and before `from` plus a window. */
  function AllowedInSpan(requests: seq<Request>, decisions: seq<RateDecision>, class_: RateClass, from: nat): nat
    requires |requests| == |decisions|
  {
    if requests == [] then 0
    else
      var last := |requests| - 1;
      AllowedInSpan(requests[..last], decisions[..last], class_, from)
      + if requests[last].class_ == class_ && from <= requests[last].at < from + WINDOW_NANOS && decisions[last] == Allowed
        then 1 else 0
  }

  lemma {:induction false} SpanTouchesTwoWindows(requests: seq<Request>, decisions: seq<RateDecision>, class_: RateClass, from: nat)
    requires |requests| == |decisions|
    ensures var index := from / WINDOW_NANOS;
      AllowedInSpan(requests, decisions, class_, from)
      <= AllowedIn(requests, decisions, class_, index) + AllowedIn(requests, decisions, class_, index + 1)
  {
    if requests != [] {
      var last := |requests| - 1;
      SpanTouchesTwoWindows(requests[..last], decisions[..last], class_, from);
      assert WindowIndex(requests[last].at) == requests[last].at / WINDOW_NANOS;
    }
  }

  /** For any clock, any half-open 60-second span, however placed, holds at most the class maximum
      for each visit to the two windows it touches; on traces that never refill, at most twice it. */
  lemma AnySpanIsBounded(requests: seq<Request>, class_: RateClass, from: nat)
    requires !class_.Unmetered?
    ensures var index := from / WINDOW_NANOS;
      AllowedInSpan(requests, Played(requests).1, class_, from)
      <= Allowance(class_, Visits(requests, index)) + Allowance(class_, Visits(requests, index + 1))
    ensures NeverRefills(requests) ==>
      AllowedInSpan(requests, Played(requests).1, class_, from) <= 2 * Maximum(class_)
  {
    hide Allowance;
    SpanTouchesTwoWindows(requests, Played(requests).1, class_, from);
    VisitsBoundWindow(requests, class_, from / WINDOW_NANOS);
    VisitsBoundWindow(requests, class_, from / WINDOW_NANOS + 1);
    WindowsAreBoundedIff(requests);
  }

  // ----- What returning to a window gives back

  function Repeated(class_: RateClass, at: Duration, n: nat): seq<Request> {
    seq(n, _ => Request(class_, at))
  }

  lemma {:induction false} BlockFills(history: seq<Request>, class_: RateClass, at: Duration, n: nat)
    requires !class_.Unmetered? && n <= Maximum(class_)
    requires CountInBlock(history, class_, WindowIndex(at)) == 0
    ensures var requests := history + Repeated(class_, at, n);
      && Played(requests).1 == Played(history).1 + seq(n, _ => Allowed)
      && CountInBlock(requests, class_, WindowIndex(at)) == n
  {
    var requests := history + Repeated(class_, at, n);
    hide CountInBlock, Played;
    if n == 0 {
      assert requests == history;
    } else {
      var front, request := history + Repeated(class_, at, n - 1), Request(class_, at);
      assert requests == front + [request];
      BlockFills(history, class_, at, n - 1);
      LimiterAllowsIff(front, request);
      PlayedSnoc(front, request);
      CountInBlockSnoc(front, request, class_, WindowIndex(at));
      assert seq(n, _ => Allowed) == seq(n - 1, _ => Allowed) + [Allowed];
    }
  }

  /** After any history, one request of another window gives a window its whole maximum back, even
      when the window was already used up. */
  lemma LeavingRefills(history: seq<Request>, class_: RateClass, at: Duration, other: Request)
    requires !class_.Unmetered? && other.Metered() && WindowIndex(other.at) != WindowIndex(at)
    ensures var before := history + [other];
      Played(before + Repeated(class_, at, Maximum(class_))).1
      == Played(before).1 + seq(Maximum(class_), _ => Allowed)
    ensures Maximum(class_) <= CountIn(history, class_, WindowIndex(at)) ==>
      Refills(history + [other], Request(class_, at))
  {
    var before := history + [other];
    assert before[..|history|] == history;
    BlockFills(before, class_, at, Maximum(class_));
  }

  /** A window entered anew n times, each time until its maximum is used. */
  function Returns(class_: RateClass, at: Duration, other: Request, n: nat): seq<Request> {
    if n == 0 then [] else (Returns(class_, at, other, n - 1) + [other]) + Repeated(class_, at, Maximum(class_))
  }

  lemma {:induction false} SpanCountsRepeated(requests: seq<Request>, decisions: seq<RateDecision>,
                                              class_: RateClass, at: Duration, n: nat, from: nat)
    requires |requests| == |decisions| && from <= at < from + WINDOW_NANOS
    ensures AllowedInSpan(requests + Repeated(class_, at, n), decisions + seq(n, _ => Allowed), class_, from)
         == AllowedInSpan(requests, decisions, class_, from) + n
  {
    var longer, decided := requests + Repeated(class_, at, n), decisions + seq(n, _ => Allowed);
    if n == 0 {
      assert longer == requests && decided == decisions;
    } else {
      SpanCountsRepeated(requests, decisions, class_, at, n - 1, from);
      assert longer[..|longer| - 1] == requests + Repeated(class_, at, n - 1);
      assert decided[..|decided| - 1] == decisions + seq(n - 1, _ => Allowed);
    }
  }

  lemma SpanSnoc(history: seq<Request>, request: Request, class_: RateClass, from: nat)
    ensures AllowedInSpan(history, Played(history).1, class_, from)
         <= AllowedInSpan(history + [request], Played(history + [request]).1, class_, from)
  {
    PlayedSnoc(history, request);
    assert (history + [request])[..|history|] == history;
    assert Played(history + [request]).1[..|history|] == Played(history).1;
  }

  lemma OneReturn(history: seq<Request>, class_: RateClass, at: Duration, other: Request, from: nat)
    requires !class_.Unmetered? && other.Metered() && WindowIndex(other.at) != WindowIndex(at)
    requires from <= at < from + WINDOW_NANOS
    ensures var requests := (history + [other]) + Repeated(class_, at, Maximum(class_));
      AllowedInSpan(history, Played(history).1, class_, from) + Maximum(class_)
      <= AllowedInSpan(requests, Played(requests).1, class_, from)
  {
    hide Played, AllowedInSpan, Repeated, Refills;
    LeavingRefills(history, class_, at, other);
    SpanSnoc(history, other, class_, from);
    SpanCountsRepeated(history + [other], Played(history + [other]).1, class_, at, Maximum(class_), from);
  }

  /** So no number bounds a 60-second span for every clock: n returns allow n times the maximum. */
  lemma {:induction false} SpanGrowsWithReturns(class_: RateClass, at: Duration, other: Request, n: nat, from: nat)
    requires !class_.Unmetered? && other.Metered() && WindowIndex(other.at) != WindowIndex(at)
    requires from <= at < from + WINDOW_NANOS
    ensures var requests := Returns(class_, at, other, n);
      AllowedInSpan(requests, Played(requests).1, class_, from) >= Maximum(class_) * n
  {
    if n > 0 {
      hide Played, AllowedInSpan, Repeated;
      SpanGrowsWithReturns(class_, at, other, n - 1, from);
      OneReturn(Returns(class_, at, other, n - 1), class_, at, other, from);
      OneMoreVisit(class_, n - 1);
    }
  }
}
