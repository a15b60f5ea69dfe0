/**
 * The Python string operations the pipeline relies on: `isspace`, `strip`, ASCII
 * `lower`, substring search, `split(sep)`, `join`, `split()` into words, decimal
 * rendering of integers and `int(s)` parsing.
 */
module Text {
  import opened Wrappers

  /** Python's `str.isspace()` for one character (its full list of whitespace code points). */
  predicate IsSpace(c: char) {
    c == ' ' || ('\t' <= c <= '\r') || ('\U{1c}' <= c <= '\U{1f}') || c == '\U{85}'
    || c == '\U{a0}' || c == '\U{1680}' || ('\U{2000}' <= c <= '\U{200a}') || c == '\U{2028}'
    || c == '\U{2029}' || c == '\U{202f}' || c == '\U{205f}' || c == '\U{3000}'
  }

  predicate AllSpace(s: string) {
    forall i :: 0 <= i < |s| ==> IsSpace(s[i])
  }

  predicate NoSpace(s: string) {
    forall i :: 0 <= i < |s| ==> !IsSpace(s[i])
  }

  // ---------------------------------------------------------------- strip

  /** Number of leading whitespace characters. */
  function LeadingSpaces(s: string): (n: nat)
    ensures n <= |s| && AllSpace(s[..n]) && (n < |s| ==> !IsSpace(s[n]))
  {
    if s != [] && IsSpace(s[0]) then
      var m := LeadingSpaces(s[1..]);
      assert s[..1 + m] == [s[0]] + s[1..][..m];
      1 + m
    else 0
  }

  /** Number of trailing whitespace characters. */
  function TrailingSpaces(s: string): (n: nat)
    ensures n <= |s| && AllSpace(s[|s| - n..]) && (n < |s| ==> !IsSpace(s[|s| - n - 1]))
  {
    if s != [] && IsSpace(s[|s| - 1]) then
      var p := s[..|s| - 1];
      var m := TrailingSpaces(p);
      var w := s[|s| - (1 + m)..];
      assert AllSpace(w) by {
        forall i | 0 <= i < |w| ensures IsSpace(w[i]) {
          if i < m {
            assert w[i] == p[|p| - m..][i];
          }
        }
      }
      1 + m
    else 0
  }

  /** Python's `s.strip()`. */
  function Strip(s: string): (r: string)
    ensures r == [] || (!IsSpace(r[0]) && !IsSpace(r[|r| - 1]))
  {
    var t := s[LeadingSpaces(s)..];
    t[..|t| - TrailingSpaces(t)]
  }

  /** Strip removes exactly the whitespace padding around a body that is not padded itself. */
  lemma {:induction false} StripPadded(pre: string, body: string, post: string)
    requires AllSpace(pre) && AllSpace(post)
    requires body == [] || (!IsSpace(body[0]) && !IsSpace(body[|body| - 1]))
    ensures Strip(pre + body + post) == body
  {
    var s := pre + body + post;
    if body == [] {
      assert s == pre + post;
      AllSpaceLeading(s);
    } else {
      LeadingIs(s, |pre|);
      var t := s[|pre|..];
      assert t == body + post;
      TrailingIs(t, |post|);
      assert t[..|t| - |post|] == body;
    }
  }

  lemma AllSpaceLeading(s: string)
    requires AllSpace(s)
    ensures LeadingSpaces(s) == |s|
  {
  }

  lemma {:induction false} LeadingIs(s: string, n: nat)
    requires n < |s| && AllSpace(s[..n]) && !IsSpace(s[n])
    ensures LeadingSpaces(s) == n
  {
    if n > 0 {
      assert s[1..][..n - 1] == s[1..n];
      assert s[1..][n - 1] == s[n];
      LeadingIs(s[1..], n - 1);
    }
  }

  lemma {:induction false} TrailingIs(s: string, n: nat)
    requires n < |s| && AllSpace(s[|s| - n..]) && !IsSpace(s[|s| - n - 1])
    ensures TrailingSpaces(s) == n
  {
    if n > 0 {
      var p := s[..|s| - 1];
      assert p[|p| - (n - 1)..] == s[|s| - n..|s| - 1];
      assert p[|p| - (n - 1) - 1] == s[|s| - n - 1];
      TrailingIs(p, n - 1);
    }
  }

  // ---------------------------------------------------------------- lower

  /** Python's `lower()` on one character, restricted to ASCII letters. */
  function LowerChar(c: char): (d: char)
    ensures !('A' <= d <= 'Z')
  {
    if 'A' <= c <= 'Z' then (c as int - 'A' as int + 'a' as int) as char else c
  }

  function Lower(s: string): (r: string)
    ensures |r| == |s| && forall i :: 0 <= i < |s| ==> r[i] == LowerChar(s[i])
  {
    if s == [] then [] else [LowerChar(s[0])] + Lower(s[1..])
  }

  predicate IsLower(s: string) {
    forall i :: 0 <= i < |s| ==> !('A' <= s[i] <= 'Z')
  }

  // ------------------------------------------------------- substring search

  predicate OccursAt(s: string, p: string, i: nat) {
    i + |p| <= |s| && s[i..i + |p|] == p
  }

  /** The first index at or after `from` where p occurs in s. */
  function IndexFrom(s: string, p: string, from: nat): (r: Option<nat>)
    ensures r.Some? ==> from <= r.value && OccursAt(s, p, r.value)
    ensures r.Some? ==> forall k :: from <= k < r.value ==> !OccursAt(s, p, k)
    ensures r.None? ==> forall k :: from <= k ==> !OccursAt(s, p, k)
    decreases |s| - from
  {
    if from + |p| > |s| then None
    else if OccursAt(s, p, from) then Some(from)
    else IndexFrom(s, p, from + 1)
  }

  /** Python's `s.find(p)` as an option. */
  function IndexOf(s: string, p: string): Option<nat> {
    IndexFrom(s, p, 0)
  }

  /** Python's `p in s`. */
  predicate Contains(s: string, p: string) {
    IndexOf(s, p).Some?
  }

  lemma ContainsIff(s: string, p: string)
    ensures Contains(s, p) <==> exists k :: OccursAt(s, p, k)
  {
  }

  lemma IndexOfIs(s: string, p: string, i: nat)
    requires OccursAt(s, p, i) && forall k: nat :: k < i ==> !OccursAt(s, p, k)
    ensures IndexOf(s, p) == Some(i)
  {
  }

  /** p cannot occur at a position of s that does not hold p's first character. */
  lemma NotAtOtherChar(s: string, p: string, k: nat)
    requires |p| > 0 && k < |s| && s[k] != p[0]
    ensures !OccursAt(s, p, k)
  {
    if k + |p| <= |s| {
      assert s[k..k + |p|][0] == s[k];
    }
  }

  /** A string without p's first character does not contain p. */
  lemma NotInFree(s: string, p: string)
    requires |p| > 0 && p[0] !in s
    ensures !Contains(s, p)
  {
    forall k: nat ensures !OccursAt(s, p, k) {
      if k < |s| {
        NotAtOtherChar(s, p, k);
      }
    }
  }

  /** In pre + p + rest, where pre lacks p's first character, p is first found right after pre. */
  lemma FirstOccurrenceAfter(pre: string, p: string, rest: string)
    requires |p| > 0 && p[0] !in pre
    ensures IndexOf(pre + p + rest, p) == Some(|pre|)
    ensures (pre + p + rest)[|pre| + |p|..] == rest
    ensures (pre + p + rest)[..|pre|] == pre
  {
    var s := pre + p + rest;
    assert s[|pre|..|pre| + |p|] == p;
    forall k: nat | k < |pre| ensures !OccursAt(s, p, k) {
      assert s[k] == pre[k];
      NotAtOtherChar(s, p, k);
    }
    IndexOfIs(s, p, |pre|);
  }

  // ------------------------------------------------------------ split/join

  /** Python's `s.split(sep)` for a non-empty separator. */
  function Split(s: string, sep: string): (parts: seq<string>)
    requires |sep| > 0
    ensures |parts| >= 1
    ensures |parts| >= 2 <==> Contains(s, sep)
    ensures Contains(s, sep) ==> parts[0] == s[..IndexOf(s, sep).value]
    ensures !Contains(s, sep) ==> parts == [s]
    decreases |s|
  {
    match IndexOf(s, sep)
    case None => [s]
    case Some(i) => [s[..i]] + Split(s[i + |sep|..], sep)
  }
  /** Splitting  a + sep + rest,  where a lacks sep's first character, splits off a and then splits rest. */
  lemma SplitCons(a: string, sep: string, rest: string)
    requires |sep| > 0 && sep[0] !in a
    ensures Split(a + sep + rest, sep) == [a] + Split(rest, sep)
  {
    FirstOccurrenceAfter(a, sep, rest);
  }

  /** Splitting  a + sep + b  where a lacks sep's first character and b lacks sep gives [a, b]. */
  lemma SplitPair(a: string, sep: string, b: string)
    requires |sep| > 0 && sep[0] !in a && !Contains(b, sep)
    ensures Split(a + sep + b, sep) == [a, b]
  {
    FirstOccurrenceAfter(a, sep, b);
  }


  /** Python's `sep.join(parts)`. */
  function Join(sep: string, parts: seq<string>): string {
    if |parts| == 0 then ""
    else if |parts| == 1 then parts[0]
    else parts[0] + sep + Join(sep, parts[1..])
  }

  /** Splitting and joining again gives the original string back. */
  lemma {:induction false} JoinSplit(s: string, sep: string)
    requires |sep| > 0
    ensures Join(sep, Split(s, sep)) == s
    decreases |s|
  {
    match IndexOf(s, sep)
    case None =>
    case Some(i) =>
      var rest := s[i + |sep|..];
      JoinSplit(rest, sep);
      assert s == s[..i] + sep + rest;
  }

  /** Joining pieces free of the separator's first character and splitting again gives the pieces back. */
  lemma {:induction false} SplitJoin(parts: seq<string>, sep: string)
    requires |sep| > 0 && |parts| >= 1 && forall i :: 0 <= i < |parts| ==> sep[0] !in parts[i]
    ensures Split(Join(sep, parts), sep) == parts
  {
    if |parts| == 1 {
      NotInFree(parts[0], sep);
    } else {
      var tail := parts[1..];
      assert forall i :: 0 <= i < |tail| ==> sep[0] !in tail[i] by {
        forall i | 0 <= i < |tail| ensures sep[0] !in tail[i] {
          assert tail[i] == parts[i + 1];
        }
      }
      SplitJoin(tail, sep);
      SplitCons(parts[0], sep, Join(sep, tail));
      assert parts == [parts[0]] + tail;
    }
  }

  /** No piece of a split contains the separator. */
  lemma {:induction false} SplitPiecesFree(s: string, sep: string, j: nat)
    requires |sep| > 0 && j < |Split(s, sep)|
    ensures !Contains(Split(s, sep)[j], sep)
    decreases |s|
  {
    if j == 0 {
      if Contains(s, sep) {
        NothingBefore(s, sep, IndexOf(s, sep).value);
      }
    } else {
      var i := IndexOf(s, sep).value;
      var rest := s[i + |sep|..];
      SplitTail(s, sep, i);
      assert Split(s, sep)[j] == Split(rest, sep)[j - 1];
      SplitPiecesFree(rest, sep, j - 1);
    }
  }

  /** Past the first piece, the pieces are those of the text after the first separator. */
  lemma SplitTail(s: string, sep: string, i: nat)
    requires |sep| > 0 && IndexOf(s, sep) == Some(i)
    ensures i + |sep| <= |s| && Split(s, sep) == [s[..i]] + Split(s[i + |sep|..], sep)
  {
  }

  /** The text before the first occurrence of p does not contain p. */
  lemma NothingBefore(s: string, p: string, i: nat)
    requires |p| > 0 && IndexOf(s, p) == Some(i)
    ensures !Contains(s[..i], p)
  {
    if Contains(s[..i], p) {
      var k := IndexOf(s[..i], p).value;
      assert k < i && s[..i][k..k + |p|] == s[k..k + |p|];
      assert OccursAt(s, p, k);
    }
  }

  // ------------------------------------------------------------- words

  /** Length of the word at the start of s. */
  function WordLength(s: string): (n: nat)
    ensures n <= |s| && NoSpace(s[..n]) && (n < |s| ==> IsSpace(s[n]))
  {
    if s != [] && !IsSpace(s[0]) then
      var m := WordLength(s[1..]);
      assert s[..1 + m] == [s[0]] + s[1..][..m];
      1 + m
    else 0
  }

  /** Python's `s.split()`: the maximal runs of non-whitespace characters. */
  function Words(s: string): (ws: seq<string>)
    ensures forall i :: 0 <= i < |ws| ==> ws[i] != [] && NoSpace(ws[i])
    decreases |s|
  {
    if s == [] then []
    else if IsSpace(s[0]) then Words(s[1..])
    else
      var n := WordLength(s);
      [s[..n]] + Words(s[n..])
  }

  /**
   * Independent count of words: the positions holding a non-whitespace character
   * whose predecessor (if any) is whitespace. `afterSpace` says whether the
   * character before s was whitespace (or s starts the text).
   */
  function WordStarts(s: string, afterSpace: bool): nat {
    if s == [] then 0
    else (if afterSpace && !IsSpace(s[0]) then 1 else 0) + WordStarts(s[1..], IsSpace(s[0]))
  }

  lemma {:induction false} WordStartsInsideWord(s: string, n: nat)
    requires n <= |s| && NoSpace(s[..n]) && n > 0
    ensures WordStarts(s[1..], false) == WordStarts(s[n..], false) || n == 1
    ensures n > 1 ==> WordStarts(s[1..], false) == WordStarts(s[n..], false)
  {
    if n > 1 {
      assert s[1..][..n - 1] == s[1..n];
      assert !IsSpace(s[1]);
      if n > 2 {
        WordStartsInsideWord(s[1..], n - 1);
        assert s[1..][n - 1..] == s[n..];
      } else {
        assert s[1..][1..] == s[2..];
      }
    }
  }

  lemma {:induction false} WordStartsAfterSpace(s: string)
    requires s == [] || IsSpace(s[0])
    ensures WordStarts(s, false) == WordStarts(s, true)
  {
  }

  /** The number of words returned by `split()` equals the number of word starts. */
  lemma {:induction false} WordCountIsWordStarts(s: string)
    ensures |Words(s)| == WordStarts(s, true)
    decreases |s|
  {
    if s == [] {
    } else if IsSpace(s[0]) {
      WordCountIsWordStarts(s[1..]);
    } else {
      var n := WordLength(s);
      WordCountIsWordStarts(s[n..]);
      WordStartsInsideWord(s, n);
      WordStartsAfterSpace(s[n..]);
      if n == 1 {
        assert s[1..] == s[n..];
      }
    }
  }

  // ------------------------------------------------------ decimal numbers

  predicate IsDigit(c: char) {
    '0' <= c <= '9'
  }

  function DigitChar(d: nat): (c: char)
    requires d < 10
    ensures IsDigit(c)
  {
    ('0' as int + d) as char
  }

  /** Decimal rendering of a natural number, as Python's `str(n)`. */
  function NatToString(n: nat): (s: string)
    ensures |s| >= 1 && forall i :: 0 <= i < |s| ==> IsDigit(s[i])
  {
    if n < 10 then [DigitChar(n)] else NatToString(n / 10) + [DigitChar(n % 10)]
  }

  /** Python's `str(i)` for an integer. */
  function IntToString(i: int): string {
    if i < 0 then "-" + NatToString(-i) else NatToString(i)
  }

  /** Digits with single underscores between them, as Python's `int()` accepts. */
  predicate ValidDecimal(d: string) {
    && |d| > 0 && IsDigit(d[0]) && IsDigit(d[|d| - 1])
    && forall i :: 0 <= i < |d| ==> IsDigit(d[i]) || (d[i] == '_' && i + 1 < |d| && IsDigit(d[i + 1]))
  }

  /** Value of a digit string, skipping underscores. */
  function DecimalValue(d: string): nat {
    if d == [] then 0
    else
      var last := d[|d| - 1];
      if IsDigit(last) then DecimalValue(d[..|d| - 1]) * 10 + (last as int - '0' as int)
      else DecimalValue(d[..|d| - 1])
  }

  /** Python's `int(s)` in base 10 (ASCII digits): `None` where Python raises ValueError. */
  function PyInt(s: string): Option<int> {
    var t := Strip(s);
    if |t| > 0 && (t[0] == '+' || t[0] == '-') then
      if ValidDecimal(t[1..]) then
        var v: int := DecimalValue(t[1..]);
        Some(if t[0] == '-' then -v else v)
      else None
    else if ValidDecimal(t) then Some(DecimalValue(t))
    else None
  }

  lemma {:induction false} DecimalValueOfNatToString(n: nat)
    ensures DecimalValue(NatToString(n)) == n
  {
    if n >= 10 {
      DecimalValueOfNatToString(n / 10);
      var s := NatToString(n);
      assert s[..|s| - 1] == NatToString(n / 10);
    }
  }

  lemma StripUnpadded(s: string)
    requires s == [] || (!IsSpace(s[0]) && !IsSpace(s[|s| - 1]))
    ensures Strip(s) == s
  {
    assert "" + s + "" == s;
    StripPadded("", s, "");
  }

  /** Rendering a natural number and parsing it back with `int()` is the identity. */
  lemma PyIntOfNatToString(n: nat)
    ensures PyInt(NatToString(n)) == Some(n)
  {
    var s := NatToString(n);
    assert IsDigit(s[0]) && IsDigit(s[|s| - 1]);
    StripUnpadded(s);
    assert ValidDecimal(s);
    DecimalValueOfNatToString(n);
  }

  /** Python's `s.replace(x, y)` for single characters. */
  function ReplaceChar(s: string, x: char, y: char): (r: string)
    ensures |r| == |s| && forall i :: 0 <= i < |s| ==> r[i] == (if s[i] == x then y else s[i])
  {
    if s == [] then [] else [if s[0] == x then y else s[0]] + ReplaceChar(s[1..], x, y)
  }

  /** Python's `s.replace(x, '')` for a single character. */
  function RemoveChar(s: string, x: char): (r: string)
    ensures x !in r
    ensures forall c :: c in r ==> c in s
  {
    if s == [] then [] else (if s[0] == x then [] else [s[0]]) + RemoveChar(s[1..], x)
  }
}
