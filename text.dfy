/** String helpers shared by the backend (Python `str`) and the frontend
    (JavaScript `String`) models. Strings are sequences of characters. */
module Text {
  import opened Wrappers

  predicate StartsWith(s: string, prefix: string) {
    |prefix| <= |s| && s[..|prefix|] == prefix
  }

  /** `pat` occurs in `s` starting at index `k`. */
  predicate OccursAt(s: string, pat: string, k: nat) {
    k + |pat| <= |s| && s[k..k + |pat|] == pat
  }

  ghost predicate Contains(s: string, pat: string) {
    exists k: nat :: OccursAt(s, pat, k)
  }

  /** Leftmost occurrence of a non-empty `pat` at or after index `from`. */
  function IndexFrom(s: string, pat: string, from: nat): (r: Option<nat>)
    requires |pat| > 0
    ensures r.Some? ==> from <= r.value && OccursAt(s, pat, r.value)
    ensures r.Some? ==> forall j: nat :: from <= j < r.value ==> !OccursAt(s, pat, j)
    ensures r.None? ==> forall j: nat :: from <= j ==> !OccursAt(s, pat, j)
    decreases |s| - from
  {
    if from + |pat| > |s| then None
    else if s[from..from + |pat|] == pat then Some(from)
    else IndexFrom(s, pat, from + 1)
  }

  /** JavaScript `s.split(sep)` and Python `s.split(sep)` for a non-empty separator:
      the pieces between leftmost, non-overlapping occurrences of `sep`. */
  function SplitOn(s: string, sep: string): (pieces: seq<string>)
    requires |sep| > 0
    ensures |pieces| >= 1
    decreases |s|
  {
    match IndexFrom(s, sep, 0)
    case None => [s]
    case Some(k) => [s[..k]] + SplitOn(s[k + |sep|..], sep)
  }

  /** Python `sep.join(parts)`; also the inverse of `SplitOn`. */
  function JoinWith(parts: seq<string>, sep: string): string
    decreases |parts|
  {
    if |parts| == 0 then ""
    else if |parts| == 1 then parts[0]
    else parts[0] + sep + JoinWith(parts[1..], sep)
  }

  /** Splitting loses nothing: joining the pieces back with the separator gives the input. */
  lemma {:induction false} SplitJoin(s: string, sep: string)
    requires |sep| > 0
    ensures JoinWith(SplitOn(s, sep), sep) == s
    decreases |s|
  {
    match IndexFrom(s, sep, 0)
    case None =>
    case Some(k) =>
      var rest := s[k + |sep|..];
      var tail := SplitOn(rest, sep);
      SplitJoin(rest, sep);
      calc {
        JoinWith(SplitOn(s, sep), sep);
        JoinWith([s[..k]] + tail, sep);
        { assert ([s[..k]] + tail)[1..] == tail; }
        s[..k] + sep + JoinWith(tail, sep);
        s[..k] + s[k..k + |sep|] + s[k + |sep|..];
        s;
      }
  }

  /** The last piece of a split holds no occurrence of the separator. */
  lemma {:induction false} SplitLastHasNoSeparator(s: string, sep: string)
    requires |sep| > 0
    ensures !Contains(SplitOn(s, sep)[|SplitOn(s, sep)| - 1], sep)
    decreases |s|
  {
    match IndexFrom(s, sep, 0)
    case None =>
    case Some(k) =>
      SplitLastHasNoSeparator(s[k + |sep|..], sep);
  }

  /** A string without the separator splits into itself alone. */
  lemma SplitWithoutSeparator(s: string, sep: string)
    requires |sep| > 0
    requires !Contains(s, sep)
    ensures SplitOn(s, sep) == [s]
  {
  }

  /** A string none of whose characters is `c` does not contain `c`. */
  lemma WithoutCharNotContained(s: string, c: char)
    requires forall j :: 0 <= j < |s| ==> s[j] != c
    ensures !Contains(s, [c])
  {
    forall k: nat ensures !OccursAt(s, [c], k) {
      if k + 1 <= |s| {
        assert s[k..k + 1] == [s[k]];
      }
    }
  }

  /** When the first occurrence of the separator follows `y`, the split starts with `y`. */
  lemma SplitOnFirst(y: string, sep: string, z: string)
    requires |sep| > 0
    requires forall j: nat :: j < |y| ==> !OccursAt(y + sep, sep, j)
    ensures SplitOn(y + sep + z, sep) == [y] + SplitOn(z, sep)
  {
    var s := y + sep + z;
    assert OccursAt(s, sep, |y|);
    forall j: nat | j < |y| ensures !OccursAt(s, sep, j) {
      assert s[..|y| + |sep|] == y + sep;
      if OccursAt(s, sep, j) {
        assert (y + sep)[j..j + |sep|] == s[j..j + |sep|];
        assert OccursAt(y + sep, sep, j);
      }
    }
    var r := IndexFrom(s, sep, 0);
    assert r == Some(|y|);
    assert s[..|y|] == y;
    assert s[|y| + |sep|..] == z;
  }

  /** The text up to the first occurrence of the separator, with the separator,
      holds no earlier occurrence. */
  lemma FirstOccurrenceIsFirst(x: string, sep: string, k: nat)
    requires |sep| > 0 && IndexFrom(x, sep, 0) == Some(k)
    ensures forall j: nat :: j < k ==> !OccursAt(x[..k] + sep, sep, j)
  {
    var head := x[..k] + sep;
    assert head == x[..k + |sep|];
    forall j: nat | j < k ensures !OccursAt(head, sep, j) {
      assert !OccursAt(x, sep, j);
      assert head[j..j + |sep|] == x[j..j + |sep|];
    }
  }

  /** The pieces of a split that a later separator can no longer change: all but the last. */
  function CompletePieces(t: string, sep: string): seq<string>
    requires |sep| > 0
  {
    var p := SplitOn(t, sep);
    p[..|p| - 1]
  }

  /** The last piece of a split, still open to continuation. */
  function LastPiece(t: string, sep: string): string
    requires |sep| > 0
  {
    var p := SplitOn(t, sep);
    p[|p| - 1]
  }

  /** Splitting works online: the pieces of `x + y` are the complete pieces of `x`
      followed by the pieces of `x`'s unfinished last piece continued by `y`. */
  lemma {:induction false} SplitOnline(x: string, y: string, sep: string)
    requires |sep| > 0
    ensures SplitOn(x + y, sep) == CompletePieces(x, sep) + SplitOn(LastPiece(x, sep) + y, sep)
    decreases |x|
  {
    match IndexFrom(x, sep, 0)
    case None =>
      assert SplitOn(x, sep) == [x];
    case Some(k) =>
      var rest := x[k + |sep|..];
      SplitOnline(rest, y, sep);
      assert SplitOn(x, sep) == [x[..k]] + SplitOn(rest, sep);
      PiecesOfCons(x, sep, x[..k], rest);
      SplitAtFirst(x, y, sep, k);
      Regroup(SplitOn(x + y, sep), x[..k], SplitOn(rest + y, sep), CompletePieces(rest, sep),
              SplitOn(LastPiece(rest, sep) + y, sep), CompletePieces(x, sep));
  }

  /** A split that starts with `head` followed by the pieces of `rest`: its complete
      pieces are `head` and those of `rest`, its last piece that of `rest`. */
  lemma PiecesOfCons(x: string, sep: string, head: string, rest: string)
    requires |sep| > 0 && SplitOn(x, sep) == [head] + SplitOn(rest, sep)
    ensures CompletePieces(x, sep) == [head] + CompletePieces(rest, sep)
    ensures LastPiece(x, sep) == LastPiece(rest, sep)
  {
    SplitCons(head, SplitOn(rest, sep), SplitOn(x, sep));
  }

  lemma Regroup(whole: seq<string>, head: string, after: seq<string>, complete: seq<string>,
                tail: seq<string>, headComplete: seq<string>)
    requires whole == [head] + after && after == complete + tail && headComplete == [head] + complete
    ensures whole == headComplete + tail
  {
  }

  /** Extending a string does not move its first separator. */
  lemma SplitAtFirst(x: string, y: string, sep: string, k: nat)
    requires |sep| > 0 && IndexFrom(x, sep, 0) == Some(k)
    ensures SplitOn(x + y, sep) == [x[..k]] + SplitOn(x[k + |sep|..] + y, sep)
  {
    var rest := x[k + |sep|..];
    assert x + y == x[..k] + sep + (rest + y) by {
      assert x[k..k + |sep|] == sep;
      assert x == x[..k] + x[k..k + |sep|] + rest;
    }
    FirstOccurrenceIsFirst(x, sep, k);
    SplitOnFirst(x[..k], sep, rest + y);
  }

  lemma SplitCons(head: string, pr: seq<string>, px: seq<string>)
    requires |pr| >= 1 && px == [head] + pr
    ensures px[..|px| - 1] == [head] + pr[..|pr| - 1] && px[|px| - 1] == pr[|pr| - 1]
  {
  }

  /** Joining splits at any inner boundary: the parts before it, the separator, the parts after it. */
  lemma {:induction false} JoinWithSplitAt(parts: seq<string>, sep: string, i: nat)
    requires 0 < i < |parts|
    ensures JoinWith(parts, sep) == JoinWith(parts[..i], sep) + sep + JoinWith(parts[i..], sep)
    decreases i
  {
    if i == 1 {
      assert parts[..1] == [parts[0]];
    } else {
      var tail := parts[1..];
      JoinWithSplitAt(tail, sep, i - 1);
      assert tail[..i - 1] == parts[..i][1..] && tail[i - 1..] == parts[i..];
      var a, b := JoinWith(parts[1..i], sep), JoinWith(parts[i..], sep);
      assert JoinWith(parts[..i], sep) == parts[0] + sep + a;
      calc {
        JoinWith(parts, sep);
        parts[0] + sep + JoinWith(tail, sep);
        parts[0] + sep + (a + sep + b);
        (parts[0] + sep + a) + sep + b;
      }
    }
  }

  /** Where the `i`-th part starts in `JoinWith(parts, sep)`. */
  function PartOffset(parts: seq<string>, sep: string, i: nat): nat
    requires i < |parts|
  {
    if i == 0 then 0 else |JoinWith(parts[..i], sep)| + |sep|
  }

  /** Every part occurs in the joined string at its offset. */
  lemma JoinWithPlacesParts(parts: seq<string>, sep: string, i: nat)
    requires i < |parts|
    ensures OccursAt(JoinWith(parts, sep), parts[i], PartOffset(parts, sep, i))
  {
    var rest := JoinWith(parts[i..], sep);
    assert StartsWith(rest, parts[i]) by {
      if |parts[i..]| >= 2 {
        assert rest == parts[i..][0] + sep + JoinWith(parts[i..][1..], sep);
      }
    }
    if i > 0 {
      JoinWithSplitAt(parts, sep, i);
      var j := JoinWith(parts, sep);
      var k := PartOffset(parts, sep, i);
      assert j[k..] == rest;
    } else {
      assert parts[0..] == parts;
    }
  }

  /** The parts follow one another in order, each followed by the separator. */
  lemma PartOffsetNext(parts: seq<string>, sep: string, i: nat)
    requires i + 1 < |parts|
    ensures PartOffset(parts, sep, i + 1) == PartOffset(parts, sep, i) + |parts[i]| + |sep|
  {
    var prefix := parts[..i + 1];
    if i == 0 {
      assert prefix == [parts[0]];
    } else {
      JoinWithSplitAt(prefix, sep, i);
      assert prefix[..i] == parts[..i];
      assert prefix[i..] == [parts[i]];
    }
  }

  /** JavaScript `s.replace(pat, rep)` with a string pattern: only the first
      occurrence is replaced. */
  function ReplaceFirst(s: string, pat: string, rep: string): (r: string)
    requires |pat| > 0
    ensures !Contains(s, pat) ==> r == s
    ensures StartsWith(s, pat) ==> r == rep + s[|pat|..]
  {
    match IndexFrom(s, pat, 0)
    case None => s
    case Some(k) =>
      assert StartsWith(s, pat) ==> OccursAt(s, pat, 0);
      s[..k] + rep + s[k + |pat|..]
  }

  /** The stream protocol's escaping of line breaks: every newline becomes the
      two characters backslash and `n`. */
  function EscapeNewlines(s: string): (r: string)
    ensures forall i :: 0 <= i < |r| ==> r[i] != '\n'
    decreases |s|
  {
    if s == [] then ""
    else (if s[0] == '\n' then "\\n" else [s[0]]) + EscapeNewlines(s[1..])
  }

  /** JavaScript `s.replace(/\\n/g, "\n")`: every backslash-`n` pair, scanned left to
      right without overlap, becomes a newline. */
  function UnescapeNewlines(s: string): string
    decreases |s|
  {
    if s == [] then ""
    else if |s| >= 2 && s[0] == '\\' && s[1] == 'n' then "\n" + UnescapeNewlines(s[2..])
    else [s[0]] + UnescapeNewlines(s[1..])
  }

  /** `s` has no literal backslash immediately followed by `n`. */
  predicate NoEscapedNewline(s: string) {
    forall i :: 0 <= i < |s| - 1 ==> !(s[i] == '\\' && s[i + 1] == 'n')
  }

  lemma EscapeHead(s: string)
    requires s != []
    ensures EscapeNewlines(s) != [] && EscapeNewlines(s)[0] == (if s[0] == '\n' then '\\' else s[0])
  {
  }

  /** Unescaping undoes the escaping for any text that has no literal backslash-`n`. */
  lemma {:induction false} UnescapeEscape(s: string)
    requires NoEscapedNewline(s)
    ensures UnescapeNewlines(EscapeNewlines(s)) == s
    decreases |s|
  {
    if s != [] {
      var tail := s[1..];
      assert NoEscapedNewline(tail) by {
        forall i | 0 <= i < |tail| - 1 ensures !(tail[i] == '\\' && tail[i + 1] == 'n') {
          assert tail[i] == s[i + 1] && tail[i + 1] == s[i + 2];
        }
      }
      UnescapeEscape(tail);
      var e := EscapeNewlines(s);
      var et := EscapeNewlines(tail);
      if s[0] == '\n' {
        assert e == "\\n" + et;
        assert e[2..] == et;
      } else {
        assert e == [s[0]] + et;
        assert e[1..] == et;
        if s[0] == '\\' && et != [] {
          EscapeHead(tail);
          assert s[1] != 'n';
          assert e[1] == et[0];
        }
      }
    }
  }

  /** Python's `str.isspace` character set. */
  predicate IsPySpace(c: char) {
    c == ' ' || c == '\t' || c == '\n' || c == '\r' || c == '\U{0B}' || c == '\U{0C}'
    || ('\U{1C}' <= c <= '\U{1F}') || c == '\U{85}' || c == '\U{A0}' || c == '\U{1680}'
    || ('\U{2000}' <= c <= '\U{200A}') || c == '\U{2028}' || c == '\U{2029}'
    || c == '\U{202F}' || c == '\U{205F}' || c == '\U{3000}'
  }

  /** The characters JavaScript's `String.prototype.trim` removes. */
  predicate IsJsSpace(c: char) {
    c == ' ' || c == '\t' || c == '\n' || c == '\r' || c == '\U{0B}' || c == '\U{0C}'
    || c == '\U{A0}' || c == '\U{1680}' || ('\U{2000}' <= c <= '\U{200A}')
    || c == '\U{2028}' || c == '\U{2029}' || c == '\U{202F}' || c == '\U{205F}'
    || c == '\U{3000}' || c == '\U{FEFF}'
  }

  /** Number of leading characters of `s` satisfying `ws`. */
  function LeadingCount(s: string, ws: char -> bool): (n: nat)
    ensures n <= |s|
    ensures forall i :: 0 <= i < n ==> ws(s[i])
    ensures n < |s| ==> !ws(s[n])
    decreases |s|
  {
    if s == [] || !ws(s[0]) then 0 else 1 + LeadingCount(s[1..], ws)
  }

  /** Number of trailing characters of `s` satisfying `ws`. */
  function TrailingCount(s: string, ws: char -> bool): (n: nat)
    ensures n <= |s|
    ensures forall i :: |s| - n <= i < |s| ==> ws(s[i])
    ensures n < |s| ==> !ws(s[|s| - n - 1])
    decreases |s|
  {
    if s == [] || !ws(s[|s| - 1]) then 0 else 1 + TrailingCount(s[..|s| - 1], ws)
  }

  /** Python `s.strip()` / JavaScript `s.trim()` for the whitespace set `ws`: the
      longest infix that neither starts nor ends with whitespace, and everything cut
      off on either side is whitespace. */
  function Strip(s: string, ws: char -> bool): (r: string)
    ensures LeadingCount(s, ws) + |r| <= |s|
    ensures r == s[LeadingCount(s, ws)..LeadingCount(s, ws) + |r|]
    ensures forall i :: LeadingCount(s, ws) + |r| <= i < |s| ==> ws(s[i])
    ensures r != [] ==> !ws(r[0]) && !ws(r[|r| - 1])
  {
    var lead := LeadingCount(s, ws);
    var t := s[lead..];
    var trail := TrailingCount(t, ws);
    assert forall i :: lead + |t| - trail <= i < |s| ==> s[i] == t[i - lead];
    t[..|t| - trail]
  }

  /** Stripping twice is the same as stripping once. */
  lemma StripIdempotent(s: string, ws: char -> bool)
    ensures Strip(Strip(s, ws), ws) == Strip(s, ws)
  {
    var r := Strip(s, ws);
    if r != [] {
      assert LeadingCount(r, ws) == 0;
      assert TrailingCount(r, ws) == 0;
      assert r[0..] == r;
      assert r[..|r|] == r;
    }
  }

  function DigitChar(d: nat): (c: char)
    requires d < 10
    ensures '0' <= c <= '9'
  {
    ['0', '1', '2', '3', '4', '5', '6', '7', '8', '9'][d]
  }

  /** Decimal rendering of a natural number, as Python's `str` and f-strings do it. */
  function NatToString(n: nat): (r: string)
    ensures |r| >= 1
    ensures forall i :: 0 <= i < |r| ==> '0' <= r[i] <= '9'
    ensures n >= 10 ==> r[0] != '0'
  {
    if n < 10 then [DigitChar(n)] else NatToString(n / 10) + [DigitChar(n % 10)]
  }

  /** Decimal rendering of an integer with a leading `-` when negative. */
  function IntToString(n: int): (r: string)
    ensures |r| >= 1 && ((n < 0) <==> (r[0] == '-'))
  {
    if n < 0 then "-" + NatToString(-n) else NatToString(n)
  }

  /** Python `s[:n]` for a non-negative `n`. */
  function PrefixUpTo<T>(s: seq<T>, n: nat): (r: seq<T>)
    ensures |r| == if |s| <= n then |s| else n
    ensures r == s[..|r|]
  {
    if |s| <= n then s else s[..n]
  }

  /** Python `s[start:]` for any integer `start`, negative values counting from the end. */
  function SliceFrom<T>(s: seq<T>, start: int): (r: seq<T>)
    ensures 0 <= start <= |s| ==> r == s[start..]
    ensures -|s| <= start < 0 ==> r == s[|s| + start..]
    ensures start < -|s| ==> r == s
    ensures start > |s| ==> r == []
  {
    var b := if start < 0 then (if |s| + start < 0 then 0 else |s| + start)
             else (if start > |s| then |s| else start);
    s[b..]
  }
}
