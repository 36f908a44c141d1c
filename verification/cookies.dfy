// The opaque-cookie parser of the authentication boundary (app/src/auth_boundary.rs, lines
// 268-289). Cookie pairs have the syntax of section 4.2.1 of RFC 6265.

module Cookies {
  import opened Wrappers
  import opened Text

  const MAX_COOKIE_VALUE := 128

  /** A header byte that can be read as text: visible ASCII, or a tab. */
  predicate IsReadableChar(c: char) { c == '\t' || ' ' <= c <= '~' }

  predicate IsReadable(header: string) {
    forall i :: 0 <= i < |header| ==> IsReadableChar(header[i])
  }

  // ----- Splitting and trimming

  /** The pieces between semicolons; always at least one. */
  function Split(s: string): (r: seq<string>)
    ensures |r| >= 1
  {
    if s == "" then [""]
    else
      var rest := Split(s[1..]);
      if s[0] == ';' then [""] + rest else [[s[0]] + rest[0]] + rest[1..]
  }

  function Join(pieces: seq<string>): string
    requires |pieces| >= 1
  {
    if |pieces| == 1 then pieces[0] else pieces[0] + ";" + Join(pieces[1..])
  }

  predicate NoSemicolon(s: string) { ';' !in s }

  /** Splitting is undone by joining, and no piece holds a semicolon. */
  lemma {:induction false} JoinUndoesSplit(s: string)
    ensures Join(Split(s)) == s
    ensures forall i :: 0 <= i < |Split(s)| ==> NoSemicolon(Split(s)[i])
  {
    if s != "" {
      var rest := Split(s[1..]);
      JoinUndoesSplit(s[1..]);
      assert s == [s[0]] + s[1..];
      if s[0] == ';' {
        assert Split(s)[1..] == rest;
        assert "" + ";" + Join(rest) == [';'] + Join(rest);
      } else if |rest| > 1 {
        assert Split(s)[1..] == rest[1..];
        assert [s[0]] + (rest[0] + ";" + Join(rest[1..])) == ([s[0]] + rest[0]) + ";" + Join(rest[1..]);
      }
    }
  }

  lemma {:induction false} SplitPlain(s: string)
    requires NoSemicolon(s)
    ensures Split(s) == [s]
  {
    if s != "" {
      assert forall c :: c in s[1..] ==> c in s;
      SplitPlain(s[1..]);
      assert s == [s[0]] + s[1..];
    }
  }

  lemma {:induction false} SplitFirst(piece: string, rest: string)
    requires NoSemicolon(piece)
    ensures Split(piece + ";" + rest) == [piece] + Split(rest)
  {
    var s := piece + ";" + rest;
    if piece == "" {
      assert s[0] == ';' && s[1..] == rest;
    } else {
      assert forall c :: c in piece[1..] ==> c in piece;
      SplitFirst(piece[1..], rest);
      assert s[1..] == piece[1..] + ";" + rest;
      assert piece == [piece[0]] + piece[1..];
    }
  }

  function TrimStart(s: string): string {
    if s != "" && IsWhitespace(s[0]) then TrimStart(s[1..]) else s
  }

  function TrimEnd(s: string): string {
    if s != "" && IsWhitespace(s[|s| - 1]) then TrimEnd(s[..|s| - 1]) else s
  }

  function Trim(s: string): string { TrimEnd(TrimStart(s)) }

  predicate IsTrimmed(s: string) {
    s != "" ==> !IsWhitespace(s[0]) && !IsWhitespace(s[|s| - 1])
  }

  /** Leading padding before trimmed text is all that trimming removes. */
  lemma TrimOfPadded(s: string)
    requires IsTrimmed(s)
    ensures Trim(s) == s && Trim(" " + s) == s
  {
  }

  datatype Pair = Pair(name: string, value: string)

  /** Everything before the first `=`, and everything after it. */
  function SplitOnce(s: string): Option<Pair> {
    if s == "" then None
    else if s[0] == '=' then Some(Pair("", s[1..]))
    else match SplitOnce(s[1..])
      case None => None
      case Some(pair) => Some(Pair([s[0]] + pair.name, pair.value))
  }

  lemma {:induction false} SplitOnceOf(name: string, value: string)
    requires '=' !in name
    ensures SplitOnce(name + "=" + value) == Some(Pair(name, value))
  {
    var s := name + "=" + value;
    if name == "" {
      assert s[0] == '=' && s[1..] == value;
    } else {
      assert forall c :: c in name[1..] ==> c in name;
      SplitOnceOf(name[1..], value);
      assert s[1..] == name[1..] + "=" + value;
      assert name == [name[0]] + name[1..];
    }
  }

  /** A pair is found exactly when there is an `=`, and it spells the text. */
  lemma {:induction false} SplitOnceSpells(s: string)
    ensures SplitOnce(s).Some? <==> '=' in s
    ensures SplitOnce(s).Some? ==>
      var pair := SplitOnce(s).value; s == pair.name + "=" + pair.value && '=' !in pair.name
  {
    if s != "" {
      assert s == [s[0]] + s[1..];
      if s[0] != '=' {
        SplitOnceSpells(s[1..]);
      } else {
        assert s == "" + "=" + s[1..];
      }
    }
  }

  // ----- The specification

  predicate LegalValue(value: string) {
    && value != "" && |value| <= MAX_COOKIE_VALUE
    && forall i :: 0 <= i < |value| ==> IsAsciiAlphanumeric(value[i]) || value[i] == '-' || value[i] == '_'
  }

  /** The trimmed segments of every header, in order. */
  function Segments(headers: seq<string>): seq<string> {
    if headers == [] then []
    else
      var last := |headers| - 1;
      Segments(headers[..last]) + TrimAll(Split(headers[last]))
  }

  function TrimAll(pieces: seq<string>): (r: seq<string>)
    ensures |r| == |pieces|
  {
    seq(|pieces|, i requires 0 <= i < |pieces| => Trim(pieces[i]))
  }

  predicate AllPairs(segments: seq<string>) {
    forall i :: 0 <= i < |segments| ==> SplitOnce(segments[i]).Some?
  }

  predicate WellFormed(headers: seq<string>) {
    (forall i :: 0 <= i < |headers| ==> IsReadable(headers[i])) && AllPairs(Segments(headers))
  }

  /** The values under a name, one for each segment that has it. */
  function ValuesNamed(segments: seq<string>, name: string): seq<string> {
    if segments == [] then []
    else
      var last := |segments| - 1;
      var pair := SplitOnce(segments[last]);
      ValuesNamed(segments[..last], name) + if pair.Some? && pair.value.name == name then [pair.value.value] else []
  }

  /** The one value under a name, when every header and segment is well formed, exactly one segment
      has the name, and its value is legal. */
  function CookieNamed(headers: seq<string>, name: string): Option<string> {
    var values := ValuesNamed(Segments(headers), name);
    if WellFormed(headers) && |values| == 1 && LegalValue(values[0]) then Some(values[0]) else None
  }

  // ----- The parser

  /** What the loops know after some segments: all well formed, and at most one legal match. */
  predicate Scanned(segments: seq<string>, name: string, found: Option<string>) {
    && AllPairs(segments)
    && ValuesNamed(segments, name) == (if found.Some? then [found.value] else [])
    && (found.Some? ==> LegalValue(found.value))
  }

  lemma ScanOne(segments: seq<string>, segment: string, name: string)
    ensures ValuesNamed(segments + [segment], name) == ValuesNamed(segments, name)
      + if SplitOnce(segment).Some? && SplitOnce(segment).value.name == name then [SplitOnce(segment).value.value] else []
    ensures AllPairs(segments + [segment]) <==> AllPairs(segments) && SplitOnce(segment).Some?
  {
  }

  /** Later segments only add to what was seen. */
  lemma {:induction false} ScanGrows(first: seq<string>, second: seq<string>, name: string)
    ensures ValuesNamed(first + second, name) == ValuesNamed(first, name) + ValuesNamed(second, name)
    ensures AllPairs(first + second) <==> AllPairs(first) && AllPairs(second)
  {
    if second == [] {
      assert first + second == first;
    } else {
      var last := |second| - 1;
      ScanGrows(first, second[..last], name);
      assert first + second == (first + second[..last]) + [second[last]];
      assert second == second[..last] + [second[last]];
      ScanOne(first + second[..last], second[last], name);
      ScanOne(second[..last], second[last], name);
    }
  }

  lemma {:induction false} SegmentsGrow(headers: seq<string>, n: nat)
    requires n <= |headers|
    ensures Segments(headers[..n]) <= Segments(headers)
    decreases |headers|
  {
    if n < |headers| {
      var front := headers[..|headers| - 1];
      SegmentsGrow(front, n);
      assert front[..n] == headers[..n];
    } else {
      assert headers[..n] == headers;
    }
  }

  /** What a list of segments must satisfy for any later segments to leave a cookie. */
  predicate Acceptable(segments: seq<string>, name: string) {
    var values := ValuesNamed(segments, name);
    AllPairs(segments) && |values| <= 1 && forall i :: 0 <= i < |values| ==> LegalValue(values[i])
  }

  lemma RejectedForGood(segments: seq<string>, rest: seq<string>, name: string)
    requires !Acceptable(segments, name)
    ensures !Acceptable(segments + rest, name)
  {
    ScanGrows(segments, rest, name);
    var values, more := ValuesNamed(segments, name), ValuesNamed(rest, name);
    assert forall i :: 0 <= i < |values| ==> (values + more)[i] == values[i];
  }

  /** A segment is refused for having no pair, a second match, or an illegal value. */
  predicate Refused(segment: string, name: string, found: Option<string>) {
    var split := SplitOnce(segment);
    split.None? || (split.value.name == name && (found.Some? || !LegalValue(split.value.value)))
  }

  lemma RefusalIsFinal(segments: seq<string>, segment: string, name: string, found: Option<string>)
    requires Scanned(segments, name, found) && Refused(segment, name, found)
    ensures !Acceptable(segments + [segment], name)
  {
    ScanOne(segments, segment, name);
    var values := ValuesNamed(segments + [segment], name);
    if SplitOnce(segment).Some? {
      assert values[|values| - 1] == SplitOnce(segment).value.value;
    }
  }

  lemma AcceptedSegment(segments: seq<string>, segment: string, name: string, found: Option<string>)
    requires Scanned(segments, name, found) && !Refused(segment, name, found)
    ensures var pair := SplitOnce(segment).value;
      Scanned(segments + [segment], name, if pair.name == name then Some(pair.value) else found)
  {
  }

  /** One header: its pairs in order, stopping at the first that is refused. */
  method ScanHeader(before: seq<string>, header: string, name: string, found: Option<string>)
    returns (ok: bool, latest: Option<string>)
    requires Scanned(before, name, found)
    ensures ok ==> Scanned(before + TrimAll(Split(header)), name, latest)
    ensures !ok ==> !Acceptable(before + TrimAll(Split(header)), name)
  {
    hide Scanned, Acceptable, LegalValue, Split, Trim, SplitOnce;
    latest := found;
    var pieces := Split(header);
    ghost var segments := TrimAll(pieces);
    assert before + segments[..0] == before;
    for i := 0 to |pieces|
      invariant Scanned(before + segments[..i], name, latest)
    {
      var segment := Trim(pieces[i]);
      assert before + segments[..i + 1] == before + segments[..i] + [segment];
      var split := SplitOnce(segment);
      if split.None? || (split.value.name == name && (latest.Some? || !LegalValue(split.value.value))) {
        RefusalIsFinal(before + segments[..i], segment, name, latest);
        RejectedForGood(before + segments[..i + 1], segments[i + 1..], name);
        assert before + segments == (before + segments[..i + 1]) + segments[i + 1..];
        return false, None;
      }
      AcceptedSegment(before + segments[..i], segment, name, latest);
      if split.value.name == name {
        latest := Some(split.value.value);
      }
    }
    assert segments[..|pieces|] == segments;
    return true, latest;
  }

  lemma ScannedIsTheCookie(headers: seq<string>, name: string, found: Option<string>)
    requires forall i :: 0 <= i < |headers| ==> IsReadable(headers[i])
    requires Scanned(Segments(headers), name, found)
    ensures CookieNamed(headers, name) == found
  {
  }

  lemma RejectionIsNone(headers: seq<string>, name: string)
    requires !Acceptable(Segments(headers), name)
    ensures CookieNamed(headers, name) == None
  {
  }

  lemma SegmentsSnoc(headers: seq<string>, h: nat)
    requires h < |headers|
    ensures Segments(headers[..h + 1]) == Segments(headers[..h]) + TrimAll(Split(headers[h]))
  {
    assert headers[..h + 1][..h] == headers[..h];
  }

  /** `opaque_cookie`: nested loops over headers and pairs, with early returns. */
  method OpaqueCookie(headers: seq<string>, name: string) returns (r: Option<string>)
    ensures r == CookieNamed(headers, name)
  {
    hide Scanned, Acceptable, CookieNamed, Segments, IsReadable;
    var found: Option<string> := None;
    NothingScanned(headers, name);
    for h := 0 to |headers|
      invariant forall i :: 0 <= i < h ==> IsReadable(headers[i])
      invariant Scanned(Segments(headers[..h]), name, found)
    {
      if !IsReadable(headers[h]) {
        UnreadableIsNone(headers, name, h);
        return None;
      }
      SegmentsSnoc(headers, h);
      var ok, latest := ScanHeader(Segments(headers[..h]), headers[h], name, found);
      if !ok {
        var seen := Segments(headers[..h + 1]);
        SegmentsGrow(headers, h + 1);
        RejectedForGood(seen, Segments(headers)[|seen|..], name);
        assert Segments(headers) == seen + Segments(headers)[|seen|..];
        RejectionIsNone(headers, name);
        return None;
      }
      found := latest;
    }
    assert headers[..|headers|] == headers;
    ScannedIsTheCookie(headers, name, found);
    return found;
  }

  lemma NothingScanned(headers: seq<string>, name: string)
    ensures Scanned(Segments(headers[..0]), name, None)
  {
  }

  lemma UnreadableIsNone(headers: seq<string>, name: string, h: nat)
    requires h < |headers| && !IsReadable(headers[h])
    ensures CookieNamed(headers, name) == None
  {
  }

  /** A returned value is 1 to 128 letters, digits, hyphens and underscores, and every header was
      visible ASCII and tabs. */
  lemma ReturnedValueIsPlain(headers: seq<string>, name: string)
    requires CookieNamed(headers, name).Some?
    ensures var value := CookieNamed(headers, name).value;
      && 1 <= |value| <= 128
      && forall i :: 0 <= i < |value| ==>
           || '0' <= value[i] <= '9' || 'a' <= value[i] <= 'z' || 'A' <= value[i] <= 'Z' || value[i] in {'-', '_'}
    ensures forall i, j :: 0 <= i < |headers| && 0 <= j < |headers[i]| ==>
      headers[i][j] as int == 9 || 32 <= headers[i][j] as int <= 126
  {
    hide Segments, ValuesNamed, AllPairs;
    forall i, j | 0 <= i < |headers| && 0 <= j < |headers[i]|
      ensures headers[i][j] as int == 9 || 32 <= headers[i][j] as int <= 126
    {
      assert IsReadable(headers[i]);
    }
  }

  /** A header is readable exactly when it is visible ASCII, spaces and tabs. */
  lemma ReadableIs(header: string)
    ensures IsReadable(header) <==> forall c <- header :: c as int == 9 || 32 <= c as int <= 126
  {
    assert forall i :: 0 <= i < |header| ==> header[i] in header;
  }

  /** Nothing else makes a value illegal. */
  lemma PlainValuesAreLegal(value: string)
    ensures LegalValue(value) <==>
      && 1 <= |value| <= 128
      && forall i :: 0 <= i < |value| ==>
           || '0' <= value[i] <= '9' || 'a' <= value[i] <= 'z' || 'A' <= value[i] <= 'Z' || value[i] in {'-', '_'}
  {
  }

  // ----- Writing a cookie header and reading it back

  /** A pair that survives being written: no separators inside, no padding outside. */
  predicate IsPlainPair(pair: Pair) {
    && '=' !in pair.name && NoSemicolon(pair.name) && NoSemicolon(pair.value)
    && IsTrimmed(Written(pair))
  }

  function Written(pair: Pair): string { pair.name + "=" + pair.value }

  /** Pairs separated by a semicolon and a space, as a browser sends them. */
  function Header(pairs: seq<Pair>): string
    requires |pairs| >= 1
  {
    if |pairs| == 1 then Written(pairs[0]) else Written(pairs[0]) + ";" + (" " + Header(pairs[1..]))
  }

  function Pieces(pairs: seq<Pair>, padded: bool): seq<string> {
    if pairs == [] then []
    else [(if padded then " " else "") + Written(pairs[0])] + Pieces(pairs[1..], true)
  }

  lemma {:induction false} SplitHeader(pairs: seq<Pair>, padded: bool)
    requires |pairs| >= 1 && forall i :: 0 <= i < |pairs| ==> IsPlainPair(pairs[i])
    ensures Split((if padded then " " else "") + Header(pairs)) == Pieces(pairs, padded)
  {
    var lead := if padded then " " else "";
    var piece := lead + Written(pairs[0]);
    assert IsPlainPair(pairs[0]) && NoSemicolon(piece);
    if |pairs| == 1 {
      SplitPlain(piece);
      assert Pieces(pairs[1..], true) == [];
    } else {
      SplitHeader(pairs[1..], true);
      assert lead + Header(pairs) == piece + ";" + (" " + Header(pairs[1..]));
      SplitFirst(piece, " " + Header(pairs[1..]));
    }
  }

  lemma {:induction false} TrimmedPieces(pairs: seq<Pair>, padded: bool, i: nat)
    requires i < |pairs| && forall k :: 0 <= k < |pairs| ==> IsPlainPair(pairs[k])
    ensures |Pieces(pairs, padded)| == |pairs|
    ensures SplitOnce(Trim(Pieces(pairs, padded)[i])) == Some(pairs[i])
  {
    if |pairs| > 1 {
      TrimmedPieces(pairs[1..], true, if i == 0 then 0 else i - 1);
    }
    if i == 0 {
      TrimOfPadded(Written(pairs[0]));
      SplitOnceOf(pairs[0].name, pairs[0].value);
      assert "" + Written(pairs[0]) == Written(pairs[0]);
    }
  }

  /** Reading a written header gives back each pair, in order. */
  lemma HeaderRoundTrip(pairs: seq<Pair>)
    requires |pairs| >= 1 && forall i :: 0 <= i < |pairs| ==> IsPlainPair(pairs[i])
    ensures |Split(Header(pairs))| == |pairs|
    ensures forall i :: 0 <= i < |pairs| ==> SplitOnce(Trim(Split(Header(pairs))[i])) == Some(pairs[i])
  {
    SplitHeader(pairs, false);
    assert "" + Header(pairs) == Header(pairs);
    TrimmedPieces(pairs, false, 0);
    hide Header, Split, Pieces, SplitOnce, Trim;
    forall i | 0 <= i < |pairs|
      ensures SplitOnce(Trim(Split(Header(pairs))[i])) == Some(pairs[i])
    {
      TrimmedPieces(pairs, false, i);
    }
  }

  /** The values that pairs carry under a name. */
  function ValuesOfPairs(pairs: seq<Pair>, name: string): seq<string> {
    if pairs == [] then []
    else
      var last := |pairs| - 1;
      ValuesOfPairs(pairs[..last], name) + if pairs[last].name == name then [pairs[last].value] else []
  }

  lemma {:induction false} SegmentsCarryPairs(segments: seq<string>, pairs: seq<Pair>, name: string)
    requires |segments| == |pairs| && forall i :: 0 <= i < |pairs| ==> SplitOnce(segments[i]) == Some(pairs[i])
    ensures AllPairs(segments) && ValuesNamed(segments, name) == ValuesOfPairs(pairs, name)
  {
    if pairs != [] {
      SegmentsCarryPairs(segments[..|pairs| - 1], pairs[..|pairs| - 1], name);
    }
  }

  lemma SegmentsOfOne(header: string)
    ensures Segments([header]) == TrimAll(Split(header))
  {
  }

  lemma SingleHeaderCookie(header: string, name: string)
    requires IsReadable(header) && AllPairs(Segments([header]))
    ensures var values := ValuesNamed(Segments([header]), name);
      CookieNamed([header], name) == if |values| == 1 && LegalValue(values[0]) then Some(values[0]) else None
  {
    hide IsReadable, AllPairs, Segments, ValuesNamed, LegalValue;
  }

  /** End to end: from one written header the parser returns a value exactly when one pair alone has
      the name and its value is legal. */
  lemma WrittenCookieIsRead(pairs: seq<Pair>, name: string)
    requires |pairs| >= 1 && forall i :: 0 <= i < |pairs| ==> IsPlainPair(pairs[i])
    requires IsReadable(Header(pairs))
    ensures var values := ValuesOfPairs(pairs, name);
      CookieNamed([Header(pairs)], name)
      == if |values| == 1 && LegalValue(values[0]) then Some(values[0]) else None
  {
    hide Header, Split, SplitOnce, Trim, LegalValue, Segments, CookieNamed, IsReadable, IsPlainPair;
    HeaderRoundTrip(pairs);
    SegmentsOfOne(Header(pairs));
    SegmentsCarryPairs(Segments([Header(pairs)]), pairs, name);
    SingleHeaderCookie(Header(pairs), name);
  }
}
