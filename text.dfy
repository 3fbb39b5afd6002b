/** Python string rules the source relies on: `str.isspace`, `strip`,
    `lower`, `startswith`/`endswith`, `find`, `join`, `s[:n]` and `str(int)`. */
module Text {

  /** Python's `str.isspace` (also the `\s` class of `re` on `str`). */
  predicate IsSpace(c: char) {
    ('\t' <= c <= '\r') || ('\U{1C}' <= c <= ' ') || c == '\U{85}' || c == '\U{A0}'
    || c == '\U{1680}' || ('\U{2000}' <= c <= '\U{200A}') || c == '\U{2028}'
    || c == '\U{2029}' || c == '\U{202F}' || c == '\U{205F}' || c == '\U{3000}'
  }

  predicate AllSpace(s: string) {
    forall k :: 0 <= k < |s| ==> IsSpace(s[k])
  }

  /** `s.lstrip()` */
  function LStrip(s: string): string {
    if |s| > 0 && IsSpace(s[0]) then LStrip(s[1..]) else s
  }

  /** `lstrip` keeps a suffix that does not start with whitespace and cuts
      off only whitespace. */
  lemma {:induction false} LStripShape(s: string)
    ensures var r := LStrip(s);
            && |r| <= |s| && r == s[|s| - |r|..]
            && (r != [] ==> !IsSpace(r[0]))
            && AllSpace(s[..|s| - |r|])
  {
    if |s| > 0 && IsSpace(s[0]) {
      LStripShape(s[1..]);
      var r := LStrip(s[1..]);
      assert s[1..][..|s[1..]| - |r|] == s[1..|s| - |r|];
    }
  }

  /** `s.rstrip()` */
  function RStrip(s: string): string {
    if |s| > 0 && IsSpace(s[|s| - 1]) then RStrip(s[..|s| - 1]) else s
  }

  /** `rstrip` keeps a prefix that does not end in whitespace and cuts off
      only whitespace. */
  lemma {:induction false} RStripShape(s: string)
    ensures var r := RStrip(s);
            && |r| <= |s| && r == s[..|r|]
            && (r != [] ==> !IsSpace(r[|r| - 1]))
            && AllSpace(s[|r|..])
  {
    if |s| > 0 && IsSpace(s[|s| - 1]) {
      RStripShape(s[..|s| - 1]);
      var r := RStrip(s[..|s| - 1]);
      assert s[..|s| - 1][|r|..] + [s[|s| - 1]] == s[|r|..];
    }
  }

  /** `s.strip()` */
  function Strip(s: string): string {
    RStrip(LStrip(s))
  }

  /** No whitespace is left at either end of a stripped string. */
  lemma StripEnds(s: string)
    ensures |Strip(s)| <= |s|
    ensures Strip(s) != [] ==> !IsSpace(Strip(s)[0]) && !IsSpace(Strip(s)[|Strip(s)| - 1])
  {
    LStripShape(s);
    RStripShape(LStrip(s));
    var l := LStrip(s);
    var r := RStrip(l);
    if r != [] {
      assert r[0] == l[0];
    }
  }

  /** The stripped string is a contiguous slice of `s`, and everything cut
      off is whitespace. */
  lemma StripIsSlice(s: string)
    ensures exists i, j :: 0 <= i <= j <= |s| && Strip(s) == s[i..j]
                        && AllSpace(s[..i]) && AllSpace(s[j..])
  {
    var l := LStrip(s);
    var r := RStrip(l);
    LStripShape(s);
    RStripShape(l);
    var i := |s| - |l|;
    assert r == s[i..i + |r|];
    assert s[i + |r|..] == l[|r|..];
  }

  lemma {:induction false} LStripAllSpace(s: string)
    requires AllSpace(s)
    ensures LStrip(s) == []
  {
    if |s| > 0 {
      LStripAllSpace(s[1..]);
    }
  }

  /** `not s.strip()`: a string is blank exactly when it is all whitespace. */
  lemma StripEmptyIffAllSpace(s: string)
    ensures Strip(s) == [] <==> AllSpace(s)
  {
    if AllSpace(s) {
      LStripAllSpace(s);
    }
    if Strip(s) == [] {
      StripIsSlice(s);
      var i, j :| 0 <= i <= j <= |s| && Strip(s) == s[i..j]
                 && AllSpace(s[..i]) && AllSpace(s[j..]);
      assert s == s[..i] + s[j..];
    }
  }

  /** The source's `not s.strip()`: by `StripEmptyIffAllSpace`, exactly the
      strings made only of whitespace. */
  predicate IsBlank(s: string) {
    AllSpace(s)
  }

  /** Strip is idempotent. */
  lemma {:induction false} StripIdempotent(s: string)
    ensures Strip(Strip(s)) == Strip(s)
  {
    var r := Strip(s);
    StripEnds(s);
    if r != [] {
      assert LStrip(r) == r;
      assert RStrip(r) == r;
    }
  }

  /** ASCII part of `str.lower`. */
  function LowerChar(c: char): (r: char)
    ensures !('A' <= r <= 'Z')
    ensures 'A' <= c <= 'Z' ==> r as int == c as int + 32
    ensures !('A' <= c <= 'Z') ==> r == c
  {
    if 'A' <= c <= 'Z' then (c as int + 32) as char else c
  }

  function Lower(s: string): (r: string)
    ensures |r| == |s|
    ensures forall k :: 0 <= k < |s| ==> r[k] == LowerChar(s[k])
  {
    seq(|s|, k requires 0 <= k < |s| => LowerChar(s[k]))
  }

  predicate HasUpper(s: string) {
    exists k :: 0 <= k < |s| && 'A' <= s[k] <= 'Z'
  }

  /** A lowered string contains no upper-case letter, so a set entry that
      contains one never equals a lowered string. */
  lemma LowerHasNoUpper(s: string, entry: string)
    requires HasUpper(entry)
    ensures Lower(s) != entry
  {
    var k :| 0 <= k < |entry| && 'A' <= entry[k] <= 'Z';
    if k < |s| {
      assert !('A' <= Lower(s)[k] <= 'Z');
    }
  }

  lemma LowerIdempotent(s: string)
    ensures Lower(Lower(s)) == Lower(s)
  {
  }

  predicate StartsWith(s: string, prefix: string) {
    |prefix| <= |s| && s[..|prefix|] == prefix
  }

  predicate EndsWith(s: string, suffix: string) {
    |suffix| <= |s| && s[|s| - |suffix|..] == suffix
  }

  /** `sep.join(parts)` */
  function Join(sep: string, parts: seq<string>): (r: string)
    ensures parts == [] ==> r == []
    ensures |parts| == 1 ==> r == parts[0]
  {
    if parts == [] then []
    else if |parts| == 1 then parts[0]
    else Join(sep, parts[..|parts| - 1]) + sep + parts[|parts| - 1]
  }

  /** Joining one more part puts the separator between the earlier join
      and the new part; a single part gets no separator. */
  lemma JoinAppend(sep: string, parts: seq<string>, p: string)
    ensures |parts| >= 1 ==> Join(sep, parts + [p]) == Join(sep, parts) + sep + p
    ensures parts == [] ==> Join(sep, parts + [p]) == p
  {
    assert (parts + [p])[..|parts|] == parts;
  }

  /** `"".join(parts)` */
  function Concat(parts: seq<string>): (r: string)
  {
    if parts == [] then [] else Concat(parts[..|parts| - 1]) + parts[|parts| - 1]
  }

  /** `s[:n]` for a Python slice bound `n`, negative bounds included. */
  function Take<T>(s: seq<T>, n: int): (r: seq<T>)
    ensures n >= 0 ==> |r| == if n < |s| then n else |s|
    ensures n < 0 ==> |r| == if |s| + n > 0 then |s| + n else 0
    ensures r == s[..|r|]
  {
    if n >= 0 then (if n < |s| then s[..n] else s)
    else (if |s| + n > 0 then s[..|s| + n] else [])
  }

  function DigitChar(d: nat): (c: char)
    requires d < 10
  {
    "0123456789"[d]
  }

  /** `str(n)` for a natural number. */
  function NatToString(n: nat): (r: string)
    ensures |r| >= 1
    ensures n >= 10 ==> |r| >= 2
    ensures r[|r| - 1] == DigitChar(n % 10)
  {
    if n < 10 then [DigitChar(n)] else NatToString(n / 10) + [DigitChar(n % 10)]
  }

  lemma {:induction false} NatToStringInjective(a: nat, b: nat)
    requires NatToString(a) == NatToString(b)
    ensures a == b
  {
    var s := NatToString(a);
    assert a % 10 == b % 10 by {
      assert DigitChar(a % 10) == DigitChar(b % 10);
    }
    if a >= 10 && b >= 10 {
      assert NatToString(a / 10) == s[..|s| - 1] == NatToString(b / 10);
      NatToStringInjective(a / 10, b / 10);
    }
  }

  /** `str(i)` for any integer. */
  function IntToString(i: int): string {
    if i < 0 then "-" + NatToString(-i) else NatToString(i)
  }

  /** True when `sub` occurs in `s` at index `i`. */
  predicate OccursAt(s: string, sub: string, i: int) {
    0 <= i && i + |sub| <= |s| && s[i..i + |sub|] == sub
  }

  /** The first occurrence of `sub` in `s` at index `i` or later, or -1. */
  function FindFromIndex(s: string, sub: string, i: nat): (r: int)
    ensures r == -1 || i <= r
    decreases |s| - i
  {
    if i + |sub| > |s| then -1
    else if s[i..i + |sub|] == sub then i
    else FindFromIndex(s, sub, i + 1)
  }

  /** FindFromIndex returns the first occurrence from `i` on, and -1 only
      when there is none. */
  lemma {:induction false} FindFromIndexMeaning(s: string, sub: string, i: nat)
    ensures var r := FindFromIndex(s, sub, i);
            && (r != -1 ==> OccursAt(s, sub, r) && forall k :: i <= k < r ==> !OccursAt(s, sub, k))
            && (r == -1 ==> forall k :: i <= k ==> !OccursAt(s, sub, k))
    decreases |s| - i
  {
    if i + |sub| <= |s| && s[i..i + |sub|] != sub {
      FindFromIndexMeaning(s, sub, i + 1);
    }
  }

  /** The index `s.find(sub, start)` starts from: a negative start counts
      from the end of `s` and is clamped at 0, as Python's slice indices
      are. */
  function FindOrigin(s: string, start: int): (r: nat)
    ensures start >= 0 ==> r == start
  {
    if start >= 0 then start else if |s| + start >= 0 then |s| + start else 0
  }

  /** `s.find(sub, start)` */
  function Find(s: string, sub: string, start: int): (r: int)
    ensures r == -1 || FindOrigin(s, start) <= r
  {
    FindFromIndex(s, sub, FindOrigin(s, start))
  }

  /** `find` returns the first occurrence at or after its origin, or -1
      exactly when there is none. */
  lemma FindMeaning(s: string, sub: string, start: int)
    ensures var r := Find(s, sub, start);
            && (r != -1 ==> OccursAt(s, sub, r) && forall k :: FindOrigin(s, start) <= k < r ==> !OccursAt(s, sub, k))
            && (r == -1 <==> forall k :: FindOrigin(s, start) <= k ==> !OccursAt(s, sub, k))
  {
    FindFromIndexMeaning(s, sub, FindOrigin(s, start));
  }
}
