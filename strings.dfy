/**
 * The few JavaScript string operations the core relies on: `indexOf`, `includes`,
 * `replace` with a string pattern, `split`, `join`, `toLowerCase` and `trim`.
 */
module Strings {
  import opened Wrappers

  /** `pat` occurs in `s` starting at index `i`. */
  predicate OccursAt(s: string, pat: string, i: nat) {
    i + |pat| <= |s| && s[i..i + |pat|] == pat
  }

  /** `s.indexOf(pat, from)`: the first occurrence of `pat` at or after `from`, if any. */
  function IndexOfFrom(s: string, pat: string, from: nat): (r: Option<nat>)
    ensures r.Some? ==> from <= r.value && OccursAt(s, pat, r.value)
    ensures r.Some? ==> forall j: nat :: from <= j < r.value ==> !OccursAt(s, pat, j)
    ensures r.None? ==> forall j: nat :: from <= j ==> !OccursAt(s, pat, j)
    decreases |s| - from
  {
    if from + |pat| > |s| then None
    else if s[from..from + |pat|] == pat then Some(from)
    else IndexOfFrom(s, pat, from + 1)
  }

  /** `s.indexOf(pat)`. */
  function IndexOf(s: string, pat: string): Option<nat> {
    IndexOfFrom(s, pat, 0)
  }

  /** `s.includes(pat)`. */
  predicate Contains(s: string, pat: string) {
    IndexOf(s, pat).Some?
  }

  /** `s.startsWith(pat)`. */
  predicate StartsWith(s: string, pat: string) {
    |pat| <= |s| && s[..|pat|] == pat
  }

  /** `s.replace(pat, rep)` for a string pattern: only the first occurrence is replaced. */
  function ReplaceFirst(s: string, pat: string, rep: string): string {
    match IndexOf(s, pat)
    case None => s
    case Some(i) => s[..i] + rep + s[i + |pat|..]
  }

  /**
   * `s.split(sep)[1]`: the text between the first occurrence of `sep` and the
   * next one (or the end); `undefined` when `sep` does not occur.
   */
  function SplitSecond(s: string, sep: string): Option<string>
    requires |sep| > 0
  {
    match IndexOf(s, sep)
    case None => None
    case Some(i) =>
      var from := i + |sep|;
      match IndexOfFrom(s, sep, from)
      case None => Some(s[from..])
      case Some(j) => Some(s[from..j])
  }

  /** If the first character of `pat` occurs nowhere else in it, no occurrence of `pat`
    * in `a + b` can start inside `a` when `b` starts with that character and `a`
    * does not contain `pat`. */
  lemma NoOccurrenceInPrefix(a: string, b: string, pat: string)
    requires |pat| > 0 && |b| > 0 && b[0] == pat[0]
    requires forall k :: 0 < k < |pat| ==> pat[k] != pat[0]
    requires !Contains(a, pat)
    ensures forall i: nat :: i < |a| ==> !OccursAt(a + b, pat, i)
  {
    forall i: nat | i < |a| ensures !OccursAt(a + b, pat, i) {
      if i + |pat| <= |a| {
        assert (a + b)[i..i + |pat|] == a[i..i + |pat|];
        assert !OccursAt(a, pat, i);
      } else if i + |pat| <= |a + b| {
        var k := |a| - i;
        assert (a + b)[i..i + |pat|][k] == b[0];
      }
    }
  }

  /** No proper suffix of `pat` is also a prefix of it, so two occurrences never overlap. */
  predicate Unbordered(pat: string) {
    forall k :: 0 < k < |pat| ==> pat[k..] != pat[..|pat| - k]
  }

  /** A pattern whose first character occurs nowhere else in it is unbordered. */
  lemma FirstCharUniqueUnbordered(pat: string)
    requires forall k :: 0 < k < |pat| ==> pat[k] != pat[0]
    ensures Unbordered(pat)
  {
    forall k | 0 < k < |pat| ensures pat[k..] != pat[..|pat| - k] {
      assert pat[k..][0] == pat[k];
    }
  }

  /** `pat` occurs in `a + b` at a position inside `b` exactly when it occurs in `b` there. */
  lemma OccursInSuffix(a: string, b: string, pat: string, i: nat)
    requires |a| <= i
    ensures OccursAt(a + b, pat, i) <==> OccursAt(b, pat, i - |a|)
  {
    if i + |pat| <= |a + b| {
      assert (a + b)[i..i + |pat|] == b[i - |a|..i - |a| + |pat|];
    }
  }

  /**
   * When `b` starts with an unbordered `pat` that `a` does not contain, searching
   * `a + b` finds the occurrence at the start of `b`.
   */
  lemma IndexOfAfterPrefix(a: string, b: string, pat: string)
    requires |pat| > 0 && StartsWith(b, pat) && Unbordered(pat)
    requires !Contains(a, pat)
    ensures IndexOf(a + b, pat) == Some(|a|)
  {
    forall i: nat | i < |a| ensures !OccursAt(a + b, pat, i) {
      if i + |pat| <= |a| {
        assert (a + b)[i..i + |pat|] == a[i..i + |pat|];
        assert !OccursAt(a, pat, i);
      } else if i + |pat| <= |a + b| {
        var k := |a| - i;
        assert (a + b)[i..i + |pat|][k..] == b[..|pat| - k];
        assert pat[k..] != pat[..|pat| - k];
      }
    }
    assert (a + b)[|a|..|a| + |pat|] == b[..|pat|];
    assert OccursAt(a + b, pat, |a|);
    var r := IndexOf(a + b, pat);
    assert r.Some?;
    assert r.value >= |a|;
    assert r.value <= |a|;
  }

  /**
   * Neither `a` nor `b` contains `pat`, and `b` starts with the first character of
   * `pat`, which occurs nowhere else in it: then `a + b` does not contain `pat`.
   */
  lemma NotContainsConcat(a: string, b: string, pat: string)
    requires |pat| > 0 && |b| > 0 && b[0] == pat[0]
    requires forall k :: 0 < k < |pat| ==> pat[k] != pat[0]
    requires !Contains(a, pat) && !Contains(b, pat)
    ensures !Contains(a + b, pat)
  {
    NoOccurrenceInPrefix(a, b, pat);
    forall i: nat | |a| <= i ensures !OccursAt(a + b, pat, i) {
      OccursInSuffix(a, b, pat, i);
      assert !OccursAt(b, pat, i - |a|);
    }
    assert forall i: nat :: !OccursAt(a + b, pat, i);
  }

  /** ASCII upper-case letters become lower-case; every other character is kept. */
  function LowerChar(c: char): char {
    if 'A' <= c <= 'Z' then (c as int + 32) as char else c
  }

  /** `s.toLowerCase()` restricted to ASCII letters. */
  function ToLower(s: string): (r: string)
    ensures |r| == |s|
    ensures forall i :: 0 <= i < |s| ==> r[i] == LowerChar(s[i])
  {
    seq(|s|, i requires 0 <= i < |s| => LowerChar(s[i]))
  }

  /** A subset of the white-space and line-terminator characters that `String.prototype.trim`
    * removes: the ASCII ones, no-break space, byte-order mark and the Unicode line and
    * paragraph separators, but not the other Unicode space separators. */
  predicate IsWhitespace(c: char) {
    c == ' ' || c == '\t' || c == '\n' || c == '\r' || c == '\U{B}' || c == '\U{C}'
    || c == '\U{A0}' || c == '\U{FEFF}' || c == '\U{2028}' || c == '\U{2029}'
  }

  /** Every character of `s` is white space. */
  predicate Blank(s: string) {
    forall i :: 0 <= i < |s| ==> IsWhitespace(s[i])
  }

  function TrimStart(s: string): string {
    if s != [] && IsWhitespace(s[0]) then TrimStart(s[1..]) else s
  }

  function TrimEnd(s: string): string {
    if s != [] && IsWhitespace(s[|s| - 1]) then TrimEnd(s[..|s| - 1]) else s
  }

  /** `s.trim()`. */
  function Trim(s: string): string {
    TrimEnd(TrimStart(s))
  }

  /** Trimming the front keeps a string blank or non-blank. */
  lemma {:induction false} TrimStartBlank(s: string)
    ensures Blank(TrimStart(s)) <==> Blank(s)
  {
    if s != [] && IsWhitespace(s[0]) {
      TrimStartBlank(s[1..]);
      assert Blank(s) <==> Blank(s[1..]) by {
        if Blank(s[1..]) {
          forall i | 0 <= i < |s| ensures IsWhitespace(s[i]) {
            if i > 0 { assert s[i] == s[1..][i - 1]; }
          }
        }
      }
    }
  }

  lemma {:induction false} TrimEndEmpty(s: string)
    ensures TrimEnd(s) == "" <==> Blank(s)
  {
    if s != [] && IsWhitespace(s[|s| - 1]) {
      TrimEndEmpty(s[..|s| - 1]);
      assert Blank(s) <==> Blank(s[..|s| - 1]) by {
        if Blank(s[..|s| - 1]) {
          forall i | 0 <= i < |s| ensures IsWhitespace(s[i]) {
            if i < |s| - 1 { assert s[i] == s[..|s| - 1][i]; }
          }
        }
      }
    }
  }

  /** `s.trim()` is the empty string exactly when `s` consists of white space only. */
  lemma TrimEmptyIffBlank(s: string)
    ensures Trim(s) == "" <==> Blank(s)
  {
    TrimStartBlank(s);
    TrimEndEmpty(TrimStart(s));
  }

  /** `parts.join(sep)`. */
  function Join(parts: seq<string>, sep: string): string {
    if |parts| == 0 then ""
    else if |parts| == 1 then parts[0]
    else parts[0] + sep + Join(parts[1..], sep)
  }

  /** `s.split(c)` for a one-character separator; never empty (`"".split(",")` is `[""]`). */
  function Split(s: string, c: char): (r: seq<string>)
    ensures |r| >= 1
  {
    if s == [] then [""]
    else
      var rest := Split(s[1..], c);
      if s[0] == c then [""] + rest
      else [[s[0]] + rest[0]] + rest[1..]
  }

  /** A string without the separator is split into itself alone. */
  lemma {:induction false} SplitWithoutSeparator(s: string, c: char)
    requires c !in s
    ensures Split(s, c) == [s]
  {
    if s != [] {
      SplitWithoutSeparator(s[1..], c);
      assert [s[0]] + s[1..] == s;
    }
  }

  /** Splitting `a + [c] + b`, where `a` holds no `c`, cuts exactly after `a`. */
  lemma {:induction false} SplitAtFirstSeparator(a: string, c: char, b: string)
    requires c !in a
    ensures Split(a + [c] + b, c) == [a] + Split(b, c)
  {
    if a == [] {
      assert a + [c] + b == [c] + b;
      assert ([c] + b)[1..] == b;
    } else {
      SplitAtFirstSeparator(a[1..], c, b);
      assert (a + [c] + b)[1..] == a[1..] + [c] + b;
      assert [a[0]] + a[1..] == a;
    }
  }

  /** Splitting a join by a separator that occurs in no part gives the parts back. */
  lemma {:induction false} SplitJoin(parts: seq<string>, c: char)
    requires |parts| >= 1
    requires forall k :: 0 <= k < |parts| ==> c !in parts[k]
    ensures Split(Join(parts, [c]), c) == parts
  {
    if |parts| == 1 {
      SplitWithoutSeparator(parts[0], c);
    } else {
      SplitJoin(parts[1..], c);
      SplitAtFirstSeparator(parts[0], c, Join(parts[1..], [c]));
      assert [parts[0]] + parts[1..] == parts;
    }
  }
}
