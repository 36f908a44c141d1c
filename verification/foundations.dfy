// Shared vocabulary: optional values and results, the machine integer ranges of
// the engine, its text and identifier rules, and sorting.

module Wrappers {
  datatype Option<+T> = None | Some(value: T)

  /** A value or an error, usable with `:-`. */
  datatype Result<+T, +E> = Success(value: T) | Failure(error: E) {
    predicate IsFailure() { Failure? }

    function PropagateFailure<U>(): Result<U, E>
      requires Failure?
    {
      Failure(error)
    }

    function Extract(): T
      requires Success?
    {
      value
    }
  }

  /** `Success(())` when the condition holds, the given error otherwise. */
  function Check<E>(condition: bool, error: E): Result<(), E> {
    if condition then Success(()) else Failure(error)
  }
}

/** Fixed-width integers as ranges: storing an out-of-range value is a proof failure, so a
    verified member never overflows the width the engine gives it. */
module MachineInts {
  const U64_MAX := 0xFFFF_FFFF_FFFF_FFFF

  type U8 = x: int | 0 <= x < 0x100
  type I8 = x: int | -0x80 <= x < 0x80
  type U16 = x: int | 0 <= x < 0x1_0000
  type I16 = x: int | -0x8000 <= x < 0x8000
  type U32 = x: int | 0 <= x < 0x1_0000_0000
  type I32 = x: int | -0x8000_0000 <= x < 0x8000_0000
  type U64 = x: int | 0 <= x <= U64_MAX
}

/** Opaque identifiers and bounded prose (crates/game-core/src/identifier.rs and the
    text checks of hero.rs). */
module Text {
  const MAX_OPAQUE_ID_LEN := 128

  predicate IsDigit(c: char) { '0' <= c <= '9' }

  predicate IsAsciiAlphanumeric(c: char) {
    IsDigit(c) || 'a' <= c <= 'z' || 'A' <= c <= 'Z'
  }

  predicate IsIdChar(c: char) {
    IsAsciiAlphanumeric(c) || c == '-' || c == '_' || c == ':' || c == '.'
  }

  /** Every legal identifier is ASCII, so its byte length is its character count. */
  predicate IsOpaqueId(s: string) {
    s != "" && |s| <= MAX_OPAQUE_ID_LEN && forall i :: 0 <= i < |s| ==> IsIdChar(s[i])
  }

  /** The Unicode White_Space property, which `str::trim` removes. */
  predicate IsWhitespace(c: char) {
    || '\U{0009}' <= c <= '\U{000D}' || c == ' ' || c == '\U{0085}' || c == '\U{00A0}'
    || c == '\U{1680}' || '\U{2000}' <= c <= '\U{200A}' || c == '\U{2028}' || c == '\U{2029}'
    || c == '\U{202F}' || c == '\U{205F}' || c == '\U{3000}'
  }

  /** The Unicode Cc category. */
  predicate IsControl(c: char) {
    c < ' ' || '\U{007F}' <= c <= '\U{009F}'
  }

  predicate IsBlank(s: string) {
    forall i :: 0 <= i < |s| ==> IsWhitespace(s[i])
  }

  /** Required prose: not blank after trimming, at most `maximum` characters, no control
      characters. */
  predicate IsProse(s: string, maximum: nat) {
    && !IsBlank(s)
    && |s| <= maximum
    && forall i :: 0 <= i < |s| ==> !IsControl(s[i])
  }
}

/** Sorting by a total order, and the canonical strictly ascending lists. */
module Sorting {
  ghost predicate IsOrder<T(!new)>(leq: (T, T) -> bool) {
    && (forall x, y :: leq(x, y) || leq(y, x))
    && (forall x, y, z :: leq(x, y) && leq(y, z) ==> leq(x, z))
  }

  ghost predicate Ascending<T>(leq: (T, T) -> bool, s: seq<T>) {
    forall i, j :: 0 <= i < j < |s| ==> leq(s[i], s[j])
  }

  lemma AscendingCons<T>(leq: (T, T) -> bool, x: T, s: seq<T>)
    requires Ascending(leq, s) && forall y :: y in s ==> leq(x, y)
    ensures Ascending(leq, [x] + s)
  {
  }

  function Insert<T>(leq: (T, T) -> bool, x: T, s: seq<T>): seq<T> {
    if s == [] then [x]
    else if leq(x, s[0]) then [x] + s
    else [s[0]] + Insert(leq, x, s[1..])
  }

  lemma {:induction false} InsertCounts<T>(leq: (T, T) -> bool, x: T, s: seq<T>)
    ensures multiset(Insert(leq, x, s)) == multiset(s) + multiset{x}
  {
    if s != [] && !leq(x, s[0]) {
      assert s == [s[0]] + s[1..];
      InsertCounts(leq, x, s[1..]);
    }
  }

  lemma {:induction false} InsertOrders<T(!new)>(leq: (T, T) -> bool, x: T, s: seq<T>)
    requires IsOrder(leq) && Ascending(leq, s)
    ensures Ascending(leq, Insert(leq, x, s))
    ensures forall y :: y in Insert(leq, x, s) ==> y == x || y in s
  {
    if s != [] {
      if leq(x, s[0]) {
        AscendingCons(leq, x, s);
      } else {
        InsertOrders(leq, x, s[1..]);
        AscendingCons(leq, s[0], Insert(leq, x, s[1..]));
      }
    }
  }

  /** The rearrangement of a list in order. */
  function Sort<T>(leq: (T, T) -> bool, s: seq<T>): seq<T> {
    if s == [] then [] else Insert(leq, s[0], Sort(leq, s[1..]))
  }

  lemma {:induction false} SortSorts<T(!new)>(leq: (T, T) -> bool, s: seq<T>)
    requires IsOrder(leq)
    ensures Ascending(leq, Sort(leq, s)) && multiset(Sort(leq, s)) == multiset(s)
  {
    if s != [] {
      assert s == [s[0]] + s[1..];
      SortSorts(leq, s[1..]);
      InsertCounts(leq, s[0], Sort(leq, s[1..]));
      InsertOrders(leq, s[0], Sort(leq, s[1..]));
    }
  }

  /** No adjacent pair is out of order or equal: the engine's canonical-list test. */
  predicate StrictlySorted<T>(leq: (T, T) -> bool, s: seq<T>) {
    forall i :: 0 < i < |s| ==> !leq(s[i], s[i - 1])
  }

  /** Adjacent strictness extends to every pair. */
  lemma {:induction false} StrictPairs<T(!new)>(leq: (T, T) -> bool, s: seq<T>, i: nat, j: nat)
    requires IsOrder(leq) && StrictlySorted(leq, s) && i < j < |s|
    ensures !leq(s[j], s[i])
    decreases j
  {
    if i < j - 1 {
      StrictPairs(leq, s, i, j - 1);
    }
  }

  lemma StrictIsAscending<T(!new)>(leq: (T, T) -> bool, s: seq<T>)
    requires IsOrder(leq) && StrictlySorted(leq, s)
    ensures Ascending(leq, s)
    ensures forall i, j :: 0 <= i < j < |s| ==> s[i] != s[j]
  {
    forall i, j | 0 <= i < j < |s|
      ensures leq(s[i], s[j]) && s[i] != s[j]
    {
      StrictPairs(leq, s, i, j);
    }
  }

  lemma HeadsAgree<T(!new)>(leq: (T, T) -> bool, strict: seq<T>, sorted: seq<T>)
    requires IsOrder(leq) && StrictlySorted(leq, strict) && Ascending(leq, sorted)
    requires strict != [] && sorted != [] && strict[0] in sorted && sorted[0] in strict
    ensures strict[0] == sorted[0]
  {
    var j :| 0 <= j < |strict| && strict[j] == sorted[0];
    if j > 0 {
      StrictPairs(leq, strict, 0, j);
    }
  }

  lemma TailCounts<T>(s: seq<T>)
    requires s != []
    ensures multiset(s[1..]) == multiset(s) - multiset{s[0]}
  {
    assert s == [s[0]] + s[1..];
  }

  lemma TailsStaySorted<T>(leq: (T, T) -> bool, strict: seq<T>, sorted: seq<T>)
    requires StrictlySorted(leq, strict) && Ascending(leq, sorted) && strict != [] && sorted != []
    ensures StrictlySorted(leq, strict[1..]) && Ascending(leq, sorted[1..])
  {
  }

  lemma SamePieces<T>(a: seq<T>, b: seq<T>)
    requires a != [] && b != [] && a[0] == b[0] && a[1..] == b[1..]
    ensures a == b
  {
  }

  /** A sorted list with the elements of a strictly sorted one is that list: it does not matter which
      sort produced it, stable or not. */
  lemma {:induction false} StrictIsCanonical<T(!new)>(leq: (T, T) -> bool, strict: seq<T>, sorted: seq<T>)
    requires IsOrder(leq) && StrictlySorted(leq, strict) && Ascending(leq, sorted)
    requires multiset(strict) == multiset(sorted)
    ensures strict == sorted
  {
    hide IsOrder, StrictlySorted, Ascending;
    if strict == [] || sorted == [] {
      assert |strict| == |multiset(strict)| == |multiset(sorted)| == |sorted|;
    } else {
      assert strict[0] in multiset(sorted) && sorted[0] in multiset(strict);
      HeadsAgree(leq, strict, sorted);
      TailCounts(strict);
      TailCounts(sorted);
      TailsStaySorted(leq, strict, sorted);
      StrictIsCanonical(leq, strict[1..], sorted[1..]);
      SamePieces(strict, sorted);
    }
  }

  /** Sorting and comparing with a strictly sorted target tests for a permutation of it. */
  lemma SortMatches<T(!new)>(leq: (T, T) -> bool, values: seq<T>, target: seq<T>)
    requires IsOrder(leq) && StrictlySorted(leq, target)
    ensures Sort(leq, values) == target <==> multiset(values) == multiset(target)
  {
    SortSorts(leq, values);
    if multiset(values) == multiset(target) {
      StrictIsCanonical(leq, target, Sort(leq, values));
    }
  }

  /** Two canonical lists with the same elements are the same list. */
  lemma CanonicalListsAgree<T(!new)>(leq: (T, T) -> bool, a: seq<T>, b: seq<T>)
    requires IsOrder(leq) && StrictlySorted(leq, a) && StrictlySorted(leq, b)
    requires forall x :: x in a <==> x in b
    ensures a == b
  {
    StrictIsAscending(leq, a);
    StrictIsAscending(leq, b);
    DistinctCounts(a);
    DistinctCounts(b);
    assert forall x :: multiset(a)[x] == multiset(b)[x];
    StrictIsCanonical(leq, a, b);
  }

  lemma {:induction false} DistinctCounts<T>(s: seq<T>)
    requires forall i, j :: 0 <= i < j < |s| ==> s[i] != s[j]
    ensures forall x :: multiset(s)[x] == if x in s then 1 else 0
  {
    if s != [] {
      assert s == [s[0]] + s[1..];
      DistinctCounts(s[1..]);
    }
  }
}
