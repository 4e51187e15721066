/**
 * The JavaScript string operations the application relies on, over
 * `string` (a sequence of characters): `startsWith`, `indexOf`,
 * `split` with a non-empty literal separator, `join`, and `trim`.
 */
module Strings {
  import opened Common

  predicate StartsWith(s: string, prefix: string) {
    |prefix| <= |s| && s[..|prefix|] == prefix
  }

  /** `pat` occurs in `s` starting at index `i`. */
  predicate OccursAt(s: string, pat: string, i: int) {
    0 <= i && i + |pat| <= |s| && s[i..i + |pat|] == pat
  }

  predicate Contains(s: string, pat: string) {
    exists i :: 0 <= i <= |s| && OccursAt(s, pat, i)
  }

  /** The leftmost occurrence of `pat` in `s` at or after `from`. */
  function IndexFrom(s: string, pat: string, from: nat): (r: Option<nat>)
    ensures r.Some? ==> from <= r.value && OccursAt(s, pat, r.value)
    decreases |s| - from
  {
    if from + |pat| > |s| then None
    else if s[from..from + |pat|] == pat then Some(from)
    else IndexFrom(s, pat, from + 1)
  }

  /** `IndexFrom` finds the leftmost occurrence at or after `from`, if any. */
  lemma {:induction false} IndexFromSpec(s: string, pat: string, from: nat)
    ensures var r := IndexFrom(s, pat, from);
      && (r.Some? ==> OccursAt(s, pat, r.value))
      && (r.Some? ==> forall j :: from <= j < r.value ==> !OccursAt(s, pat, j))
      && (r.None? ==> forall j :: from <= j ==> !OccursAt(s, pat, j))
    decreases |s| - from
  {
    if from + |pat| > |s| {
    } else if s[from..from + |pat|] == pat {
    } else {
      IndexFromSpec(s, pat, from + 1);
    }
  }

  /** `s.indexOf(pat)`, with -1 written as `None`. */
  function IndexOf(s: string, pat: string): (r: Option<nat>)
    ensures r.Some? ==> OccursAt(s, pat, r.value)
  {
    IndexFrom(s, pat, 0)
  }

  /** `IndexOf` finds the leftmost occurrence, and finds one whenever there is one. */
  lemma IndexOfSpec(s: string, pat: string)
    ensures IndexOf(s, pat).Some? <==> Contains(s, pat)
    ensures IndexOf(s, pat).Some? ==> OccursAt(s, pat, IndexOf(s, pat).value)
    ensures IndexOf(s, pat).Some? ==> forall j :: 0 <= j < IndexOf(s, pat).value ==> !OccursAt(s, pat, j)
  {
    IndexFromSpec(s, pat, 0);
  }

  /** A leftmost occurrence stays leftmost when text is appended. */
  lemma IndexOfExtend(s: string, c: string, pat: string)
    requires IndexOf(s, pat).Some?
    ensures IndexOf(s + c, pat) == IndexOf(s, pat)
  {
    IndexOfSpec(s, pat);
    IndexOfSpec(s + c, pat);
    var i := IndexOf(s, pat).value;
    assert (s + c)[i..i + |pat|] == s[i..i + |pat|];
    assert OccursAt(s + c, pat, i);
    forall j | 0 <= j < i
      ensures !OccursAt(s + c, pat, j)
    {
      assert (s + c)[j..j + |pat|] == s[j..j + |pat|];
      assert !OccursAt(s, pat, j);
    }
  }

  /** `parts.join(sep)`. */
  function Join(parts: seq<string>, sep: string): string {
    if |parts| == 0 then ""
    else if |parts| == 1 then parts[0]
    else parts[0] + sep + Join(parts[1..], sep)
  }

  /**
   * `s.split(sep)` for a non-empty separator: the pieces between the
   * successive leftmost, non-overlapping occurrences of `sep`. Joining the
   * pieces back with `sep` gives `s`; no piece contains `sep`; and the
   * first cut is at the leftmost occurrence (the rest is the split of what
   * follows it).
   */
  function Split(s: string, sep: string): (parts: seq<string>)
    requires sep != ""
    ensures |parts| >= 1
    ensures Join(parts, sep) == s
    ensures forall k :: 0 <= k < |parts| ==> IndexOf(parts[k], sep).None?
    ensures |parts| == 1 <==> IndexOf(s, sep).None?
    ensures |parts| > 1 ==> IndexOf(s, sep) == Some(|parts[0]|)
    decreases |s|
  {
    match IndexOf(s, sep)
    case None => [s]
    case Some(i) =>
      var rest := Split(s[i + |sep|..], sep);
      assert s == s[..i] + sep + s[i + |sep|..];
      LeftmostPrefixFree(s, sep, i);
      IndexOfSpec(s[..i], sep);
      [s[..i]] + rest
  }

  /** The text before the leftmost occurrence of `pat` does not contain `pat`. */
  lemma LeftmostPrefixFree(s: string, pat: string, i: nat)
    requires pat != "" && IndexOf(s, pat) == Some(i)
    ensures !Contains(s[..i], pat)
  {
    IndexOfSpec(s, pat);
    forall j | 0 <= j <= i
      ensures !OccursAt(s[..i], pat, j)
    {
      if OccursAt(s[..i], pat, j) {
        assert s[j..j + |pat|] == s[..i][j..j + |pat|];
        assert OccursAt(s, pat, j);
      }
    }
  }

  function Last<T>(s: seq<T>): T
    requires |s| > 0
  {
    s[|s| - 1]
  }

  function AllButLast<T>(s: seq<T>): seq<T>
    requires |s| > 0
  {
    s[..|s| - 1]
  }

  /**
   * Splitting is insensitive to where the text was cut: splitting `s + c`
   * keeps every complete piece of `s` and re-splits only the last,
   * unterminated piece together with `c`.
   */
  lemma {:induction false} SplitAppend(s: string, c: string, sep: string)
    requires sep != ""
    ensures Split(s + c, sep) == AllButLast(Split(s, sep)) + Split(Last(Split(s, sep)) + c, sep)
    decreases |s|
  {
    var r := IndexOf(s, sep);
    if r.None? {
      assert Split(s, sep) == [s];
    } else {
      var i := r.value;
      var rest := s[i + |sep|..];
      SplitUnfold(s, sep, i);
      SplitAppendUnfold(s, c, sep, i);
      SplitAppend(rest, c, sep);
      ReplaceLast(s[..i], Split(rest, sep), Split(rest + c, sep), Split(Last(Split(rest, sep)) + c, sep));
    }
  }

  lemma SplitAppendUnfold(s: string, c: string, sep: string, i: nat)
    requires sep != "" && IndexOf(s, sep) == Some(i)
    ensures Split(s + c, sep) == [s[..i]] + Split(s[i + |sep|..] + c, sep)
  {
    IndexOfExtend(s, c, sep);
    SplitUnfold(s + c, sep, i);
    assert (s + c)[i + |sep|..] == s[i + |sep|..] + c;
    assert (s + c)[..i] == s[..i];
  }

  lemma ReplaceLast(h: string, q: seq<string>, t: seq<string>, u: seq<string>)
    requires |q| >= 1 && t == AllButLast(q) + u
    ensures [h] + t == AllButLast([h] + q) + u
    ensures Last([h] + q) == Last(q)
  {
  }

  /** One step of `Split`: the piece before the leftmost separator, then the rest. */
  lemma SplitUnfold(s: string, sep: string, i: nat)
    requires sep != "" && IndexOf(s, sep) == Some(i)
    ensures Split(s, sep) == [s[..i]] + Split(s[i + |sep|..], sep)
  {
  }

  /** The concatenation of all parts, in order. */
  function Concat(parts: seq<string>): string {
    if |parts| == 0 then "" else parts[0] + Concat(parts[1..])
  }

  lemma {:induction false} ConcatAppend(a: seq<string>, b: seq<string>)
    ensures Concat(a + b) == Concat(a) + Concat(b)
  {
    if |a| > 0 {
      assert (a + b)[1..] == a[1..] + b;
      ConcatAppend(a[1..], b);
    } else {
      assert a + b == b;
    }
  }

  /** Every part followed by `sep`: the text of a stream of terminated records. */
  function Terminated(parts: seq<string>, sep: string): string {
    if |parts| == 0 then "" else parts[0] + sep + Terminated(parts[1..], sep)
  }

  /**
   * When each record's first separator is the one that terminates it, the
   * split of a stream of terminated records gives back exactly those
   * records, followed by the split of whatever trails them.
   */
  lemma {:induction false} SplitTerminated(parts: seq<string>, sep: string, tail: string)
    requires sep != ""
    requires forall k :: 0 <= k < |parts| ==> IndexOf(parts[k] + sep, sep) == Some(|parts[k]|)
    ensures Split(Terminated(parts, sep) + tail, sep) == parts + Split(tail, sep)
  {
    if |parts| > 0 {
      var p := parts[0];
      var rest := Terminated(parts[1..], sep) + tail;
      assert Split(Terminated(parts, sep) + tail, sep) == [p] + Split(rest, sep) by {
        assert Terminated(parts, sep) + tail == (p + sep) + rest;
        SplitAppendUnfold(p + sep, rest, sep, |p|);
        assert (p + sep)[..|p|] == p;
        assert (p + sep)[|p| + |sep|..] + rest == rest;
      }
      SplitTerminated(parts[1..], sep, tail);
      Prepend(parts, Split(rest, sep), Split(tail, sep));
    } else {
      assert Terminated(parts, sep) + tail == tail;
    }
  }

  lemma Prepend(parts: seq<string>, a: seq<string>, b: seq<string>)
    requires |parts| > 0 && a == parts[1..] + b
    ensures [parts[0]] + a == parts + b
  {
  }

  predicate NoLineFeed(s: string) {
    forall k :: 0 <= k < |s| ==> s[k] != '\n'
  }

  lemma NoLineFeedAppend(a: string, b: string)
    requires NoLineFeed(a) && NoLineFeed(b)
    ensures NoLineFeed(a + b)
  {
    assert forall k :: 0 <= k < |a + b| ==> (a + b)[k] == if k < |a| then a[k] else b[k - |a|];
  }

  /** A string with no line feed is terminated exactly by a following blank line. */
  lemma FirstBlankLine(f: string)
    requires NoLineFeed(f)
    ensures IndexOf(f + "\n\n", "\n\n") == Some(|f|)
  {
    var s := f + "\n\n";
    assert OccursAt(s, "\n\n", |f|);
    assert Contains(s, "\n\n");
    IndexOfSpec(s, "\n\n");
    var r := IndexOf(s, "\n\n").value;
    assert s[r] == s[r..r + 2][0] == '\n';
  }

  /**
   * The characters JavaScript's `trim` removes: white space and line
   * terminators (section 12.2 and 12.3 of ECMA-262).
   */
  predicate IsJsSpace(c: char) {
    || c == '\t' || c == '\n' || c == '\U{000B}' || c == '\U{000C}' || c == '\r'
    || c == ' ' || c == '\U{00A0}' || c == '\U{1680}'
    || ('\U{2000}' <= c <= '\U{200A}')
    || c == '\U{2028}' || c == '\U{2029}' || c == '\U{202F}' || c == '\U{205F}'
    || c == '\U{3000}' || c == '\U{FEFF}'
  }

  predicate AllSpace(s: string) {
    forall k :: 0 <= k < |s| ==> IsJsSpace(s[k])
  }

  /** Index of the first character that is not space (or `|s|`). */
  function SpaceBefore(s: string, from: nat): (n: nat)
    requires from <= |s|
    requires AllSpace(s[..from])
    ensures from <= n <= |s| && AllSpace(s[..n])
    ensures n < |s| ==> !IsJsSpace(s[n])
    decreases |s| - from
  {
    if from == |s| || !IsJsSpace(s[from]) then from
    else
      assert s[..from + 1] == s[..from] + [s[from]];
      SpaceBefore(s, from + 1)
  }

  /** Index just after the last character that is not space (or 0). */
  function SpaceAfter(s: string, to: nat): (n: nat)
    requires to <= |s|
    requires AllSpace(s[to..])
    ensures n <= to && AllSpace(s[n..])
    ensures n > 0 ==> !IsJsSpace(s[n - 1])
  {
    if to == 0 || !IsJsSpace(s[to - 1]) then to
    else
      assert s[to - 1..] == [s[to - 1]] + s[to..];
      SpaceAfter(s, to - 1)
  }

  /** `s.trim()`: `s` without its leading and trailing space. */
  function Trim(s: string): (r: string)
    ensures r == "" <==> AllSpace(s)
    ensures r != "" ==> !IsJsSpace(r[0]) && !IsJsSpace(r[|r| - 1])
    ensures exists i, j :: 0 <= i <= j <= |s| && r == s[i..j] && AllSpace(s[..i]) && AllSpace(s[j..])
  {
    var a := SpaceBefore(s, 0);
    if a == |s| then
      assert s[..a] == s;
      assert s == s[..0] + s[0..];
      ""
    else
      var b := SpaceAfter(s, |s|);
      var r := s[a..b];
      assert !AllSpace(s) by { assert !IsJsSpace(s[a]); }
      r
  }
}
