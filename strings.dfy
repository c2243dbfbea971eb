/**
 * The JavaScript string operations the application relies on, over `seq<char>`:
 * `includes`, `indexOf`, `startsWith`, `trim`, `toLowerCase` (ASCII letters),
 * `split` / `join` with a string separator, `slice`, the `\s+` collapse, and
 * decimal printing of integers as a template literal does it.
 */
module Strings {
  import opened Wrappers

  /** The code points that JavaScript's `\s` and `String.prototype.trim` treat as white space. */
  predicate IsSpace(c: char) {
    || c == ' ' || c == '\t' || c == '\n' || c == '\U{B}' || c == '\U{C}' || c == '\r'
    || c == '\U{A0}' || c == '\U{1680}' || ('\U{2000}' <= c <= '\U{200A}')
    || c == '\U{2028}' || c == '\U{2029}' || c == '\U{202F}' || c == '\U{205F}'
    || c == '\U{3000}' || c == '\U{FEFF}'
  }

  /** The code points a regular-expression `.` does not match. */
  predicate IsLineTerminator(c: char) {
    c == '\n' || c == '\r' || c == '\U{2028}' || c == '\U{2029}'
  }

  predicate IsDigit(c: char) {
    '0' <= c <= '9'
  }

  predicate IsBlank(s: string) {
    forall k :: 0 <= k < |s| ==> IsSpace(s[k])
  }

  predicate StartsWith(s: string, p: string) {
    |p| <= |s| && s[..|p|] == p
  }

  predicate EndsWith(s: string, p: string) {
    |p| <= |s| && s[|s| - |p|..] == p
  }

  /** `p` occurs in `s` starting at index `i`. */
  predicate OccursAt(s: string, p: string, i: nat) {
    i <= |s| && StartsWith(s[i..], p)
  }

  /** `s.includes(p)`. */
  predicate Contains(s: string, p: string) {
    exists i: nat :: i <= |s| && OccursAt(s, p, i)
  }

  /** `p[k..]` matches `s` from `i + k` on, compared character by character. */
  predicate MatchFrom(s: string, p: string, i: nat, k: nat)
    decreases |p| - k
  {
    k >= |p| || (i + k < |s| && s[i + k] == p[k] && MatchFrom(s, p, i, k + 1))
  }

  lemma {:induction false} MatchFromChars(s: string, p: string, i: nat, k: nat)
    requires k <= |p| && i + |p| <= |s|
    ensures MatchFrom(s, p, i, k) <==> forall j :: k <= j < |p| ==> s[i + j] == p[j]
    decreases |p| - k
  {
    if k < |p| {
      MatchFromChars(s, p, i, k + 1);
    }
  }

  /** The character-by-character match is an occurrence. */
  lemma MatchOccurs(s: string, p: string, i: nat)
    requires i + |p| <= |s|
    ensures MatchFrom(s, p, i, 0) <==> OccursAt(s, p, i)
  {
    MatchFromChars(s, p, i, 0);
    if OccursAt(s, p, i) {
      forall j | 0 <= j < |p| ensures s[i + j] == p[j] {
        assert s[i..][..|p|][j] == s[i + j];
      }
    }
  }

  /** `s.indexOf(p, from)`: the first index at or after `from` where `p` occurs (`FindFromSpec`). */
  function FindFrom(s: string, p: string, from: nat): (r: Option<nat>)
    ensures r.Some? ==> from <= r.value && r.value + |p| <= |s|
    decreases |s| - from
  {
    if from + |p| > |s| then None
    else if MatchFrom(s, p, from, 0) then Some(from)
    else FindFrom(s, p, from + 1)
  }

  /** What `FindFrom` finds is an occurrence with none before it from `from` on; finding nothing means there is none. */
  lemma {:induction false} FindFromSpec(s: string, p: string, from: nat)
    ensures FindFrom(s, p, from).Some? ==> OccursAt(s, p, FindFrom(s, p, from).value)
    ensures FindFrom(s, p, from).Some? ==> forall j: nat :: from <= j < FindFrom(s, p, from).value ==> !OccursAt(s, p, j)
    ensures FindFrom(s, p, from).None? ==> forall j: nat :: from <= j ==> !OccursAt(s, p, j)
    decreases |s| - from
  {
    if from + |p| <= |s| {
      MatchOccurs(s, p, from);
      if !OccursAt(s, p, from) {
        FindFromSpec(s, p, from + 1);
      }
    }
  }

  lemma FindFromContains(s: string, p: string)
    ensures FindFrom(s, p, 0).Some? <==> Contains(s, p)
  {
    FindFromSpec(s, p, 0);
    if FindFrom(s, p, 0).Some? {
      assert OccursAt(s, p, FindFrom(s, p, 0).value);
    }
  }

  /** An occurrence at `i` with none between `from` and `i` is what `indexOf` finds. */
  lemma {:induction false} FindFromIs(s: string, p: string, from: nat, i: nat)
    requires from <= i && OccursAt(s, p, i)
    requires forall j: nat :: from <= j < i ==> !OccursAt(s, p, j)
    ensures FindFrom(s, p, from) == Some(i)
    decreases i - from
  {
    MatchOccurs(s, p, from);
    if from < i {
      FindFromIs(s, p, from + 1, i);
    }
  }

  /** `p` starts with a character that occurs nowhere else in it, as `<` in a tag. */
  predicate HeadUnique(p: string) {
    p != [] && forall k :: 1 <= k < |p| ==> p[k] != p[0]
  }

  /**
   * In `w + u + p + v`, searching from the end of `w` finds the `p` that
   * follows `u` when `u` holds none: an earlier match would have to lie in
   * `u` or overlap the start of `p`, which `HeadUnique` rules out.
   */
  lemma FindAfter(w: string, u: string, p: string, v: string)
    requires HeadUnique(p) && !Contains(u, p)
    ensures FindFrom(w + u + p + v, p, |w|) == Some(|w| + |u|)
  {
    var s := w + u + p + v;
    var i := |w| + |u|;
    assert s[i..][..|p|] == p;
    forall j: nat | |w| <= j < i ensures !OccursAt(s, p, j) {
      if j + |p| <= i {
        assert !OccursAt(u, p, j - |w|);
        assert u[j - |w|..][..|p|] == s[j..][..|p|];
      } else {
        assert s[i] == p[0] && p[i - j] != p[0];
      }
    }
    FindFromIs(s, p, |w|, i);
  }

  /** Searching from the end of `w` in `w + u` finds nothing when `u` holds no `p`. */
  lemma FindNone(w: string, u: string, p: string)
    requires !Contains(u, p)
    ensures FindFrom(w + u, p, |w|) == None
  {
    FindFromSpec(w + u, p, |w|);
    var r := FindFrom(w + u, p, |w|);
    if r.Some? {
      var i := r.value;
      assert (w + u)[i..][..|p|] == u[i - |w|..][..|p|];
      assert OccursAt(u, p, i - |w|);
    }
  }

  /** A character of the text that differs from the pattern rules out a match at `i`. */
  lemma Mismatch(s: string, p: string, i: nat, j: nat)
    requires i + j < |s| && j < |p| && s[i + j] != p[j]
    ensures !OccursAt(s, p, i)
  {
    if i + |p| <= |s| {
      assert s[i..][..|p|][j] == s[i + j];
    }
  }

  /** No match starting between `a` and `b` means no match inside `s[a..b]`. */
  lemma NoOccurrenceBetween(s: string, p: string, a: nat, b: nat)
    requires a <= b <= |s| && |p| > 0
    requires forall j: nat :: a <= j < b ==> !OccursAt(s, p, j)
    ensures !Contains(s[a..b], p)
  {
    forall k: nat | k <= b - a ensures !OccursAt(s[a..b], p, k) {
      if k + |p| <= b - a {
        assert !OccursAt(s, p, a + k);
        assert s[a..b][k..][..|p|] == s[a + k..][..|p|];
      }
    }
  }

  /** `parts.join('')`. */
  function Concat(parts: seq<string>): string
    decreases |parts|
  {
    if parts == [] then "" else parts[0] + Concat(parts[1..])
  }

  /**
   * The match at `i` is the first one from `from` on when the text between
   * holds none: an earlier match would lie in that text or overlap the start
   * of this one, which `HeadUnique` rules out.
   */
  lemma FindFirst(s: string, p: string, from: nat, i: nat)
    requires HeadUnique(p) && from <= i && OccursAt(s, p, i) && !Contains(s[from..i], p)
    ensures FindFrom(s, p, from) == Some(i)
  {
    forall j: nat | from <= j < i ensures !OccursAt(s, p, j) {
      if j + |p| <= i {
        assert !OccursAt(s[from..i], p, j - from);
        assert s[from..i][j - from..][..|p|] == s[j..][..|p|];
      } else {
        assert s[i] == s[i..][..|p|][0] == p[0] && p[i - j] != p[0];
        Mismatch(s, p, j, i - j);
      }
    }
    FindFromIs(s, p, from, i);
  }

  /** `c` does not occur in `s`. */
  predicate NoChar(s: string, c: char) {
    forall k :: 0 <= k < |s| ==> s[k] != c
  }

  lemma NoCharConcat(a: string, b: string, c: char)
    requires NoChar(a, c) && NoChar(b, c)
    ensures NoChar(a + b, c)
  {
    forall k | 0 <= k < |a + b| ensures (a + b)[k] != c {
      if k >= |a| {
        assert (a + b)[k] == b[k - |a|];
      }
    }
  }

  /** A pattern that starts with `c` does not occur in a string without `c`. */
  lemma NoCharNoMatch(s: string, c: char, p: string)
    requires NoChar(s, c) && p != [] && p[0] == c
    ensures !Contains(s, p)
  {
  }

  /** An occurrence that lies inside a prefix or a suffix of `s` is an occurrence in `s`. */
  lemma OccursInPrefix(s: string, n: nat, p: string, i: nat)
    requires n <= |s| && OccursAt(s[..n], p, i)
    ensures OccursAt(s, p, i)
  {
    assert s[..n][i..][..|p|] == s[i..][..|p|];
  }

  lemma OccursInSuffix(s: string, n: nat, p: string, i: nat)
    requires n <= |s| && OccursAt(s[n..], p, i)
    ensures OccursAt(s, p, n + i)
  {
    assert s[n..][i..] == s[n + i..];
  }

  lemma ContainsConcat(a: string, b: string, p: string)
    ensures Contains(a, p) ==> Contains(a + b, p)
    ensures Contains(b, p) ==> Contains(a + b, p)
  {
    if Contains(a, p) {
      var i: nat :| OccursAt(a, p, i);
      assert (a + b)[..|a|] == a;
      OccursInPrefix(a + b, |a|, p, i);
    }
    if Contains(b, p) {
      var i: nat :| OccursAt(b, p, i);
      assert (a + b)[|a|..] == b;
      OccursInSuffix(a + b, |a|, p, i);
    }
  }

  /** `trimStart`: drops the leading white space. */
  function TrimStart(s: string): (r: string)
    ensures |r| <= |s|
    decreases |s|
  {
    if s != [] && IsSpace(s[0]) then TrimStart(s[1..]) else s
  }

  /** `trimStart` removes a blank prefix and stops at the first other character. */
  lemma {:induction false} TrimStartMeaning(s: string)
    ensures var r := TrimStart(s);
      r == s[|s| - |r|..] && (r == [] || !IsSpace(r[0])) && IsBlank(s[..|s| - |r|])
    decreases |s|
  {
    if s != [] && IsSpace(s[0]) {
      TrimStartMeaning(s[1..]);
      var r := TrimStart(s[1..]);
      assert s[1..][|s| - 1 - |r|..] == s[|s| - |r|..];
      assert s[..|s| - |r|] == [s[0]] + s[1..][..|s| - 1 - |r|];
    }
  }

  /** `trimEnd`: drops the trailing white space. */
  function TrimEnd(s: string): (r: string)
    ensures |r| <= |s|
    decreases |s|
  {
    if s != [] && IsSpace(s[|s| - 1]) then TrimEnd(s[..|s| - 1]) else s
  }

  /** `trimEnd` removes a blank suffix and stops at the last other character. */
  lemma {:induction false} TrimEndMeaning(s: string)
    ensures var r := TrimEnd(s);
      r == s[..|r|] && (r == [] || !IsSpace(r[|r| - 1])) && IsBlank(s[|r|..])
    decreases |s|
  {
    if s != [] && IsSpace(s[|s| - 1]) {
      TrimEndMeaning(s[..|s| - 1]);
      var r := TrimEnd(s[..|s| - 1]);
      assert s[..|s| - 1][..|r|] == s[..|r|];
      assert s[|r|..] == s[..|s| - 1][|r|..] + [s[|s| - 1]];
    }
  }

  /** `trim`: drops white space at both ends. */
  function Trim(s: string): (r: string)
  {
    TrimEnd(TrimStart(s))
  }

  lemma {:induction false} TrimEmptyIffBlank(s: string)
    ensures Trim(s) == [] <==> IsBlank(s)
  {
    var t := TrimStart(s);
    if Trim(s) == [] {
      TrimStartMeaning(s);
      TrimEndMeaning(t);
      assert |t| == 0;
      assert s[..|s|] == s;
    }
    if IsBlank(s) {
      BlankTrimsAway(s);
    }
  }

  lemma {:induction false} BlankTrimsAway(s: string)
    requires IsBlank(s)
    ensures TrimStart(s) == []
    decreases |s|
  {
    if s != [] {
      BlankTrimsAway(s[1..]);
    }
  }

  lemma {:induction false} TrimStartSnoc(y: string, c: char)
    requires IsSpace(c)
    ensures IsBlank(y) ==> TrimStart(y + [c]) == []
    ensures !IsBlank(y) ==> TrimStart(y + [c]) == TrimStart(y) + [c]
    decreases |y|
  {
    if y == [] {
      assert TrimStart([c]) == TrimStart([c][1..]);
    } else {
      assert (y + [c])[0] == y[0] && (y + [c])[1..] == y[1..] + [c];
      TrimStartSnoc(y[1..], c);
      if IsBlank(y) {
        assert IsBlank(y[1..]);
      } else if IsSpace(y[0]) {
        assert !IsBlank(y[1..]);
      }
    }
  }

  /** A trailing white-space character does not change what `trim` returns. */
  lemma {:induction false} TrimDropsTrailingSpace(y: string, c: char)
    requires IsSpace(c)
    ensures Trim(y + [c]) == Trim(y)
  {
    TrimStartSnoc(y, c);
    if IsBlank(y) {
      BlankTrimsAway(y);
    } else {
      var t := TrimStart(y);
      assert (t + [c])[..|t|] == t;
    }
  }

  /** What `trim` leaves has no white space at either end, so trimming it again changes nothing. */
  lemma TrimTrimmed(s: string)
    ensures var r := Trim(s); (r == [] || (!IsSpace(r[0]) && !IsSpace(r[|r| - 1]))) && Trim(r) == r
  {
    var t := TrimStart(s);
    TrimStartMeaning(s);
    TrimEndMeaning(t);
    TrimNoSpaceEnds(Trim(s));
  }

  /** Trimming text that has no white space at its ends gives it back. */
  lemma TrimNoSpaceEnds(s: string)
    requires s == [] || (!IsSpace(s[0]) && !IsSpace(s[|s| - 1]))
    ensures Trim(s) == s
  {
  }

  function LowerChar(c: char): char {
    if 'A' <= c <= 'Z' then (c as int + 32) as char else c
  }

  /** `toLowerCase`, for the ASCII letters. */
  function ToLower(s: string): (r: string)
    ensures |r| == |s| && forall k :: 0 <= k < |s| ==> r[k] == LowerChar(s[k])
  {
    seq(|s|, k requires 0 <= k < |s| => LowerChar(s[k]))
  }

  lemma ToLowerConcat(a: string, b: string)
    ensures ToLower(a + b) == ToLower(a) + ToLower(b)
  {
  }

  /** `s.map(t => t.toLowerCase())`. */
  function LowerAll(s: seq<string>): (r: seq<string>)
    ensures |r| == |s| && forall k :: 0 <= k < |s| ==> r[k] == ToLower(s[k])
  {
    seq(|s|, k requires 0 <= k < |s| => ToLower(s[k]))
  }

  /** JavaScript `s.slice(0, n)` for a non-negative `n`. */
  function Prefix(s: string, n: nat): (r: string)
    ensures r == s[..if n < |s| then n else |s|]
  {
    if n < |s| then s[..n] else s
  }

  /** `parts.join(sep)`. */
  function Join(parts: seq<string>, sep: string): string
    decreases |parts|
  {
    if |parts| == 0 then ""
    else if |parts| == 1 then parts[0]
    else parts[0] + sep + Join(parts[1..], sep)
  }

  /** No occurrence of `p` before index `i` of `s` means none inside `s[..i]`. */
  lemma NoOccurrenceInPrefix(s: string, p: string, i: nat)
    requires i <= |s|
    requires forall j: nat :: j < i ==> !OccursAt(s, p, j)
    requires |p| > 0
    ensures !Contains(s[..i], p)
  {
    forall j: nat | j <= i ensures !OccursAt(s[..i], p, j) {
      if j + |p| <= i {
        assert !OccursAt(s, p, j);
        assert s[..i][j..][..|p|] == s[j..][..|p|];
      }
    }
  }

  /**
   * `s.split(sep)` for a non-empty string separator: the pieces between the
   * leftmost non-overlapping occurrences of `sep`, in order.
   */
  function Split(s: string, sep: string): (parts: seq<string>)
    requires |sep| > 0
    ensures |parts| >= 1
    decreases |s|
  {
    match FindFrom(s, sep, 0)
    case None => [s]
    case Some(i) => [s[..i]] + Split(s[i + |sep|..], sep)
  }

  /** Joining the pieces with `sep` gives `s` back. */
  lemma {:induction false} SplitJoin(s: string, sep: string)
    requires |sep| > 0
    ensures Join(Split(s, sep), sep) == s
    decreases |s|
  {
    FindFromSpec(s, sep, 0);
    match FindFrom(s, sep, 0)
    case None =>
    case Some(i) =>
      var rest := Split(s[i + |sep|..], sep);
      SplitJoin(s[i + |sep|..], sep);
      var parts := [s[..i]] + rest;
      assert parts[0] == s[..i] && parts[1..] == rest;
      assert Join(parts, sep) == s[..i] + sep + s[i + |sep|..];
      assert s[i..][..|sep|] == sep;
      assert s == s[..i] + sep + s[i + |sep|..];
  }

  /** No piece contains `sep`. */
  lemma {:induction false} SplitNoSeparator(s: string, sep: string)
    requires |sep| > 0
    ensures forall k :: 0 <= k < |Split(s, sep)| ==> !Contains(Split(s, sep)[k], sep)
    decreases |s|
  {
    match FindFrom(s, sep, 0)
    case None =>
      FindFromContains(s, sep);
    case Some(i) =>
      FindFromSpec(s, sep, 0);
      NoOccurrenceInPrefix(s, sep, i);
      SplitNoSeparator(s[i + |sep|..], sep);
      var rest := Split(s[i + |sep|..], sep);
      assert Split(s, sep) == [s[..i]] + rest;
      forall k | 0 <= k < |Split(s, sep)| ensures !Contains(Split(s, sep)[k], sep) {
        if k > 0 {
          assert Split(s, sep)[k] == rest[k - 1];
        }
      }
  }

  /** Every piece of a blank string is blank. */
  lemma {:induction false} SplitBlank(s: string, sep: string)
    requires |sep| > 0 && IsBlank(s)
    ensures forall k :: 0 <= k < |Split(s, sep)| ==> IsBlank(Split(s, sep)[k])
    decreases |s|
  {
    match FindFrom(s, sep, 0)
    case None =>
    case Some(i) =>
      assert IsBlank(s[i + |sep|..]);
      SplitBlank(s[i + |sep|..], sep);
  }

  /** The text before the first occurrence of `sep` (`s.split(sep)[0]`). */
  function Before(s: string, sep: string): (r: string)
    requires |sep| > 0
    ensures StartsWith(s, r) && !Contains(r, sep)
    ensures r == s <==> !Contains(s, sep)
    ensures r != s ==> OccursAt(s, sep, |r|)
  {
    match FindFrom(s, sep, 0)
    case None =>
      FindFromContains(s, sep);
      s
    case Some(i) =>
      FindFromSpec(s, sep, 0);
      NoOccurrenceInPrefix(s, sep, i);
      assert OccursAt(s, sep, i);
      s[..i]
  }

  function DigitChar(d: nat): char
    requires d < 10
  {
    ('0' as int + d) as char
  }

  function DigitValue(c: char): nat
    requires IsDigit(c)
  {
    c as int - '0' as int
  }

  /** The number that a string of decimal digits denotes (`parseInt` on digits). */
  function DigitsValue(s: string): nat
    requires forall k :: 0 <= k < |s| ==> IsDigit(s[k])
    decreases |s|
  {
    if s == [] then 0 else DigitsValue(s[..|s| - 1]) * 10 + DigitValue(s[|s| - 1])
  }

  /** Decimal rendering of a natural number, as `${n}` prints it. */
  function NatToString(n: nat): (r: string)
    ensures |r| >= 1 && forall k :: 0 <= k < |r| ==> IsDigit(r[k])
    ensures DigitsValue(r) == n
    ensures |r| > 1 ==> r[0] != '0'
    decreases n
  {
    if n < 10 then [DigitChar(n)]
    else
      var r := NatToString(n / 10) + [DigitChar(n % 10)];
      assert r[..|r| - 1] == NatToString(n / 10);
      r
  }

  /** Decimal rendering of an integer, as `${i}` prints it. */
  function IntToString(i: int): string
  {
    if i < 0 then "-" + NatToString(-i) else NatToString(i)
  }

  /** `s.replace(/\s+/g, ' ')`: every maximal run of white space becomes one space. */
  function CollapseSpaces(s: string): (r: string)
    ensures |r| <= |s| && (r == [] <==> s == [])
    ensures r != [] ==> (IsSpace(r[0]) <==> IsSpace(s[0]))
    ensures forall k :: 0 <= k < |r| && IsSpace(r[k]) ==> r[k] == ' '
    ensures forall k :: 0 <= k < |r| - 1 ==> !(IsSpace(r[k]) && IsSpace(r[k + 1]))
    decreases |s|
  {
    if s == [] then []
    else if IsSpace(s[0]) then
      TrimStartMeaning(s[1..]);
      " " + CollapseSpaces(TrimStart(s[1..]))
    else [s[0]] + CollapseSpaces(s[1..])
  }

  /** Integer division rounding up (`Math.ceil(a / b)`), for any integer `a`. */
  function CeilDiv(a: int, b: nat): (r: int)
    requires b > 0
    ensures (r - 1) * b < a <= r * b
  {
    -((-a) / b)
  }

  /** `Math.min`. */
  function Min(a: int, b: int): int {
    if a <= b then a else b
  }
}
