// Turn resources (crates/game-core/src/action.rs, lines 43-98) and custom-action points
// (crates/game-core/src/action_points.rs, lines 10-122).

module TurnLedger {
  import opened Wrappers
  import opened MachineInts

  datatype TurnResource = Action | BonusAction | Reaction | ObjectInteraction
  datatype TurnError = Unavailable(resource: TurnResource) | InsufficientMovement(requested: U16, remaining: U16)
  type TurnResult = Result<(), TurnError>

  /** The value of a turn's economy. */
  datatype Economy = Economy(available: set<TurnResource>, movement: U16)

  class ActionEconomy {
    var actionAvailable: bool
    var bonusActionAvailable: bool
    var reactionAvailable: bool
    var objectInteractionAvailable: bool
    var movementRemaining: U16

    function View(): Economy
      reads this
    {
      Economy(
        (if actionAvailable then {Action} else {})
        + (if bonusActionAvailable then {BonusAction} else {})
        + (if reactionAvailable then {Reaction} else {})
        + (if objectInteractionAvailable then {ObjectInteraction} else {}),
        movementRemaining)
    }

    /** A turn starts without a bonus action. */
    constructor New(speed: U16)
      ensures View() == Economy({Action, Reaction, ObjectInteraction}, speed)
    {
      actionAvailable, bonusActionAvailable, reactionAvailable := true, false, true;
      objectInteractionAvailable, movementRemaining := true, speed;
    }

    method GrantBonusAction()
      modifies this`bonusActionAvailable
      ensures View() == After(old(View()), Grant)
      ensures View() == Economy(old(View()).available + {BonusAction}, old(movementRemaining))
    {
      bonusActionAvailable := true;
    }

    method Spend(resource: TurnResource) returns (r: TurnResult)
      modifies this
      ensures View() == After(old(View()), Use(resource))
      ensures View() == Economy(old(View()).available - {resource}, old(movementRemaining))
      ensures r == if resource in old(View()).available then Success(()) else Failure(Unavailable(resource))
    {
      var available := match resource
        case Action => actionAvailable
        case BonusAction => bonusActionAvailable
        case Reaction => reactionAvailable
        case ObjectInteraction => objectInteractionAvailable;
      if !available {
        return Failure(Unavailable(resource));
      }
      match resource {
        case Action => actionAvailable := false;
        case BonusAction => bonusActionAvailable := false;
        case Reaction => reactionAvailable := false;
        case ObjectInteraction => objectInteractionAvailable := false;
      }
      return Success(());
    }

    method SpendMovement(feet: U16) returns (r: TurnResult)
      modifies this`movementRemaining
      ensures View() == After(old(View()), Move(feet))
      ensures feet <= old(movementRemaining) ==>
        r == Success(()) && View() == Economy(old(View()).available, old(movementRemaining) - feet)
      ensures feet > old(movementRemaining) ==>
        r == Failure(InsufficientMovement(feet, old(movementRemaining))) && View() == old(View())
    {
      if feet > movementRemaining {
        return Failure(InsufficientMovement(feet, movementRemaining));
      }
      movementRemaining := movementRemaining - feet;
      return Success(());
    }

    method ResetForTurn(speed: U16)
      modifies this
      ensures View() == Economy({Action, Reaction, ObjectInteraction}, speed)
    {
      actionAvailable, bonusActionAvailable, reactionAvailable := true, false, true;
      objectInteractionAvailable, movementRemaining := true, speed;
    }
  }

  // ----- A turn as a run of requests

  datatype TurnRequest = Grant | Use(resource: TurnResource) | Move(feet: U16)

  predicate Accepts(e: Economy, request: TurnRequest) {
    match request
    case Grant => true
    case Use(resource) => resource in e.available
    case Move(feet) => feet <= e.movement
  }

  function After(e: Economy, request: TurnRequest): Economy {
    if !Accepts(e, request) then e
    else match request
      case Grant => e.(available := e.available + {BonusAction})
      case Use(resource) => e.(available := e.available - {resource})
      case Move(feet) => e.(movement := e.movement - feet)
  }

  function Run(e: Economy, requests: seq<TurnRequest>): Economy
    decreases |requests|
  {
    if requests == [] then e else Run(After(e, requests[0]), requests[1..])
  }

  /** Feet moved and uses of a resource among the accepted requests of a run, and grants in it. */
  function Moved(e: Economy, requests: seq<TurnRequest>): nat
    decreases |requests|
  {
    if requests == [] then 0
    else
      (if requests[0].Move? && Accepts(e, requests[0]) then requests[0].feet else 0)
      + Moved(After(e, requests[0]), requests[1..])
  }

  function Uses(e: Economy, requests: seq<TurnRequest>, resource: TurnResource): nat
    decreases |requests|
  {
    if requests == [] then 0
    else
      (if requests[0] == Use(resource) && Accepts(e, requests[0]) then 1 else 0)
      + Uses(After(e, requests[0]), requests[1..], resource)
  }

  function Grants(requests: seq<TurnRequest>): nat {
    if requests == [] then 0 else (if requests[0].Grant? then 1 else 0) + Grants(requests[1..])
  }

  function Held(e: Economy, resource: TurnResource): nat { if resource in e.available then 1 else 0 }

  /** Within a turn, movement spent plus movement left is what there was; a resource is used at most
      once for each time it was held or granted. */
  lemma {:induction false} TurnBalances(e: Economy, requests: seq<TurnRequest>, resource: TurnResource)
    ensures Moved(e, requests) + Run(e, requests).movement == e.movement
    ensures Uses(e, requests, resource) + Held(Run(e, requests), resource)
         <= Held(e, resource) + if resource.BonusAction? then Grants(requests) else 0
    decreases |requests|
  {
    if requests != [] {
      TurnBalances(After(e, requests[0]), requests[1..], resource);
    }
  }
}

module PointLedger {
  import opened Wrappers
  import opened MachineInts

  datatype Reason = InitialGrant | Earned | CustomActionSpent | AdministrativeRefund

  /** Two's-complement wrap-around to 32 bits, as release builds compute. */
  function Wrap32(x: int): I32 {
    (x + 0x8000_0000) % 0x1_0000_0000 - 0x8000_0000
  }

  function Delta(reason: Reason, amount: I32): I32 {
    if reason.CustomActionSpent? then Wrap32(0 - amount) else amount
  }

  /** `ActionPointPolicy::apply`, with the machine's arithmetic. */
  function Apply(maximum: I32, balance: I32, reason: Reason, amount: I32): Option<I32> {
    var next := Wrap32(balance + Delta(reason, amount));
    if next < 0 then None else if next > maximum then None else Some(next)
  }

  /** `ActionPointPolicy::can_spend`; the cost is a field of the policy. */
  predicate CanSpend(cost: I32, balance: I32) { balance >= cost }

  /** The signed change an entry stands for, over the integers. */
  function ExactDelta(reason: Reason, amount: I32): int {
    if reason.CustomActionSpent? then 0 - amount else amount
  }

  function ExactApply(maximum: I32, balance: I32, reason: Reason, amount: I32): Option<I32> {
    var next := balance + ExactDelta(reason, amount);
    if 0 <= next <= maximum then Some(next) else None
  }

  lemma WrapIsIdentityInRange(x: int)
    ensures -0x8000_0000 <= x < 0x8000_0000 ==> Wrap32(x) == x
    ensures 0x8000_0000 <= x < 0x1_8000_0000 ==> Wrap32(x) == x - 0x1_0000_0000
    ensures -0x1_8000_0000 <= x < -0x8000_0000 ==> Wrap32(x) == x + 0x1_0000_0000
  {
  }

  /** Wrap-around is harmless on every balance that is not negative, whatever the amount. */
  lemma ApplyIsExact(maximum: I32, balance: I32, reason: Reason, amount: I32)
    requires balance >= 0 || maximum < balance + 0x8000_0000
    ensures Apply(maximum, balance, reason, amount) == ExactApply(maximum, balance, reason, amount)
  {
  }

  /** The machine's rule agrees with the integers for every entry exactly when the balance is not
      negative, or the cap lies below where an underflow would land. */
  lemma ApplyIsExactIff(maximum: I32, balance: I32)
    ensures (forall reason: Reason, amount: I32 ::
               Apply(maximum, balance, reason, amount) == ExactApply(maximum, balance, reason, amount))
      <==> balance >= 0 || maximum < balance + 0x8000_0000
  {
    if balance >= 0 || maximum < balance + 0x8000_0000 {
      forall reason: Reason, amount: I32
        ensures Apply(maximum, balance, reason, amount) == ExactApply(maximum, balance, reason, amount)
      {
        ApplyIsExact(maximum, balance, reason, amount);
      }
    } else {
      var least: I32 := -0x8000_0000;
      WrapIsIdentityInRange(balance + least);
      assert Apply(maximum, balance, Earned, least) == Some(balance + 0x8000_0000);
      assert ExactApply(maximum, balance, Earned, least) == None;
    }
  }

  /** For every balance, cost and cap, the ledger applies the charge of a custom action exactly when
      the policy says it can be spent, unless a payable charge leaves more than the cap, or one that
      is not payable underflows to a balance within it. */
  lemma ChargeAgreesIff(cost: I32, maximum: I32, balance: I32)
    ensures (Apply(maximum, balance, CustomActionSpent, cost).Some? <==> CanSpend(cost, balance))
      <==> (if CanSpend(cost, balance) then balance - cost <= maximum
            else balance - cost >= -0x8000_0000 || balance - cost + 0x1_0000_0000 > maximum)
    ensures 0 <= balance <= maximum && cost >= 0 ==>
      (Apply(maximum, balance, CustomActionSpent, cost).Some? <==> CanSpend(cost, balance))
  {
    WrapIsIdentityInRange(0 - cost);
    WrapIsIdentityInRange(balance + Delta(CustomActionSpent, cost));
  }

  datatype Entry = Entry(reason: Reason, amount: I32)

  /** A ledger run: refused entries change nothing. */
  function Run(maximum: I32, balance: I32, entries: seq<Entry>): I32
    decreases |entries|
  {
    if entries == [] then balance
    else
      var next := Apply(maximum, balance, entries[0].reason, entries[0].amount);
      Run(maximum, if next.Some? then next.value else balance, entries[1..])
  }

  /** The sum, over the integers, of the accepted entries' changes. */
  function AcceptedSum(maximum: I32, balance: I32, entries: seq<Entry>): int
    decreases |entries|
  {
    if entries == [] then 0
    else
      var next := Apply(maximum, balance, entries[0].reason, entries[0].amount);
      if next.Some?
      then ExactDelta(entries[0].reason, entries[0].amount) + AcceptedSum(maximum, next.value, entries[1..])
      else AcceptedSum(maximum, balance, entries[1..])
  }

  /** Any run with any amounts keeps the balance within bounds and equal to the sum of what was
      accepted. */
  lemma {:induction false} LedgerBalances(maximum: I32, balance: I32, entries: seq<Entry>)
    requires 0 <= balance <= maximum
    ensures 0 <= Run(maximum, balance, entries) <= maximum
    ensures Run(maximum, balance, entries) == balance + AcceptedSum(maximum, balance, entries)
    decreases |entries|
  {
    if entries != [] {
      ApplyIsExact(maximum, balance, entries[0].reason, entries[0].amount);
      var next := Apply(maximum, balance, entries[0].reason, entries[0].amount);
      LedgerBalances(maximum, if next.Some? then next.value else balance, entries[1..]);
    }
  }
}
