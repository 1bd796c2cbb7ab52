/**
 * String helpers shared by the model: decimal rendering of numbers inside template
 * strings, Array.prototype.join, prefix/suffix/infix tests, String.prototype.trim and a
 * first-occurrence search.
 *
 * A JavaScript string is a sequence of UTF-16 code units and a Dafny `string` is a
 * sequence of Unicode scalar values; every cut the modelled code makes is at an ASCII
 * character, so the two views give the same pieces.
 */
module Strings {
  import opened Results

  // ---------------------------------------------------------------------------
  // Decimal numbers, as `${n}` renders a non-negative integer

  predicate IsDigit(c: char) {
    '0' <= c <= '9'
  }

  predicate AllDigits(s: string) {
    forall k :: 0 <= k < |s| ==> IsDigit(s[k])
  }

  function DigitChar(d: nat): (c: char)
    requires d < 10
    ensures IsDigit(c)
  {
    ('0' as int + d) as char
  }

  function DigitValue(c: char): (d: nat)
    requires IsDigit(c)
    ensures d < 10
  {
    c as int - '0' as int
  }

  /** The decimal text of `n`: digits only, never empty, no leading zero. */
  function NatToString(n: nat): (s: string)
    ensures |s| >= 1 && AllDigits(s)
    ensures |s| > 1 ==> s[0] != '0'
    ensures n < 10 <==> |s| == 1
    decreases n
  {
    if n < 10 then [DigitChar(n)] else NatToString(n / 10) + [DigitChar(n % 10)]
  }

  /** The number a string of decimal digits denotes (the partner of NatToString). */
  function DecimalValue(s: string): nat
    requires AllDigits(s)
  {
    if s == [] then 0 else DecimalValue(s[..|s| - 1]) * 10 + DigitValue(s[|s| - 1])
  }

  /** Reading back the decimal text of a number gives the number. */
  lemma {:induction false} DecimalRoundTrip(n: nat)
    ensures DecimalValue(NatToString(n)) == n
  {
    if n >= 10 {
      var s := NatToString(n);
      DecimalRoundTrip(n / 10);
      assert s[..|s| - 1] == NatToString(n / 10);
    }
  }

  /** Distinct numbers have distinct decimal texts, so `carousel-<n>` ids never collide. */
  lemma NatToStringInjective(m: nat, n: nat)
    ensures NatToString(m) == NatToString(n) ==> m == n
  {
    DecimalRoundTrip(m);
    DecimalRoundTrip(n);
  }

  // ---------------------------------------------------------------------------
  // Array.prototype.map and Array.prototype.join

  /** `xs.map(f)`: one result per element, in the given order. */
  function Map<T>(xs: seq<T>, f: T -> string): seq<string> {
    seq(|xs|, i requires 0 <= i < |xs| => f(xs[i]))
  }

  /** `parts.join(sep)`: the parts in order with `sep` between neighbours. */
  function Join(parts: seq<string>, sep: string): string {
    if |parts| == 0 then ""
    else if |parts| == 1 then parts[0]
    else parts[0] + sep + Join(parts[1..], sep)
  }

  /** Joining two non-empty lists puts exactly one separator at the seam. */
  lemma {:induction false} JoinAppend(xs: seq<string>, ys: seq<string>, sep: string)
    requires |xs| > 0 && |ys| > 0
    ensures Join(xs + ys, sep) == Join(xs, sep) + sep + Join(ys, sep)
  {
    if |xs| == 1 {
      assert (xs + ys)[1..] == ys;
    } else {
      assert (xs + ys)[1..] == xs[1..] + ys;
      JoinAppend(xs[1..], ys, sep);
    }
  }

  /** With the empty separator, joining distributes over concatenation (no reordering, no loss). */
  lemma ConcatAppend(xs: seq<string>, ys: seq<string>)
    ensures Join(xs + ys, "") == Join(xs, "") + Join(ys, "")
  {
    if xs == [] {
      assert xs + ys == ys;
    } else if ys == [] {
      assert xs + ys == xs;
    } else {
      JoinAppend(xs, ys, "");
    }
  }

  /** Joining one more part at the end appends the separator and that part. */
  lemma JoinSnoc(xs: seq<string>, x: string, sep: string)
    requires |xs| > 0
    ensures Join(xs + [x], sep) == Join(xs, sep) + sep + x
  {
    JoinAppend(xs, [x], sep);
  }

  lemma ConcatAssociative(a: string, b: string, c: string)
    ensures a + (b + c) == (a + b) + c
  {
  }

  /** Mapping then joining with '' splits at any element: element k's text sits between the texts of those before and after it. */
  lemma {:induction false} MapJoinAt<T>(xs: seq<T>, f: T -> string, k: nat)
    requires k < |xs|
    ensures Join(Map(xs, f), "") == Join(Map(xs[..k], f), "") + f(xs[k]) + Join(Map(xs[k + 1..], f), "")
  {
    assert Map(xs, f) == Map(xs[..k], f) + [f(xs[k])] + Map(xs[k + 1..], f);
    ConcatAppend(Map(xs[..k], f) + [f(xs[k])], Map(xs[k + 1..], f));
    ConcatAppend(Map(xs[..k], f), [f(xs[k])]);
  }

  /** Mapping then joining with '' peels off the first element's text. */
  lemma MapJoinCons<T>(x: T, xs: seq<T>, f: T -> string)
    ensures Join(Map([x] + xs, f), "") == f(x) + Join(Map(xs, f), "")
  {
    assert Map([x] + xs, f) == [f(x)] + Map(xs, f);
    ConcatAppend([f(x)], Map(xs, f));
  }

  /**
   * A text emitted piece by piece: if `done` followed by the texts of `[x] + xs` makes up
   * `total`, so does `done` with `x`'s text appended followed by the texts of `xs`.
   */
  lemma EmitStep<T>(done: string, x: T, xs: seq<T>, f: T -> string, total: string)
    requires done + Join(Map([x] + xs, f), "") == total
    ensures done + f(x) + Join(Map(xs, f), "") == total
  {
    MapJoinCons(x, xs, f);
  }

  // ---------------------------------------------------------------------------
  // Prefix, suffix, infix

  predicate StartsWith(s: string, p: string) {
    |p| <= |s| && s[..|p|] == p
  }

  predicate EndsWith(s: string, p: string) {
    |p| <= |s| && s[|s| - |p|..] == p
  }

  /** `x` occurs in `s` starting at index `k`. */
  predicate OccursAt(s: string, x: string, k: int) {
    0 <= k && k + |x| <= |s| && s[k..k + |x|] == x
  }

  predicate Contains(s: string, x: string) {
    exists k | 0 <= k <= |s| :: OccursAt(s, x, k)
  }

  /** Whatever is spliced between two texts occurs in the result. */
  lemma ContainsMiddle(a: string, x: string, b: string)
    ensures Contains(a + x + b, x)
  {
    assert OccursAt(a + x + b, x, |a|);
  }

  /** A text spliced between `a` and `b` starts with `a`. */
  lemma FramedStart(a: string, x: string, b: string)
    ensures StartsWith(a + x + b, a)
  {
    assert (a + x + b)[..|a|] == a;
  }

  lemma ContainsSelf(x: string)
    ensures Contains(x, x)
  {
    assert OccursAt(x, x, 0);
  }

  /** Text found in `a` is found in `a + b`. */
  lemma ContainsLeft(a: string, b: string, x: string)
    requires Contains(a, x)
    ensures Contains(a + b, x)
  {
    var k :| 0 <= k <= |a| && OccursAt(a, x, k);
    assert (a + b)[k..k + |x|] == a[k..k + |x|];
    assert OccursAt(a + b, x, k);
  }

  /** Text found in `b` is found in `a + b`. */
  lemma ContainsRight(a: string, b: string, x: string)
    requires Contains(b, x)
    ensures Contains(a + b, x)
  {
    var k :| 0 <= k <= |b| && OccursAt(b, x, k);
    assert (a + b)[|a| + k..|a| + k + |x|] == b[k..k + |x|];
    assert OccursAt(a + b, x, |a| + k);
  }

  /** Text inside the middle part is found in the whole. */
  lemma ContainsWithin(a: string, t: string, b: string, x: string)
    requires Contains(t, x)
    ensures Contains(a + t + b, x)
  {
    ContainsRight(a, t, x);
    ContainsLeft(a + t, b, x);
  }

  /** `x` occurs in `s`, and `y` occurs somewhere after the end of that occurrence. */
  predicate Precedes(s: string, x: string, y: string) {
    exists p | 0 <= p <= |s| :: OccursAt(s, x, p) && Contains(s[p + |x|..], y)
  }

  /** An order found in `a` survives appending. */
  lemma PrecedesLeft(a: string, b: string, x: string, y: string)
    requires Precedes(a, x, y)
    ensures Precedes(a + b, x, y)
  {
    var p :| 0 <= p <= |a| && OccursAt(a, x, p) && Contains(a[p + |x|..], y);
    assert (a + b)[p..p + |x|] == a[p..p + |x|];
    assert (a + b)[p + |x|..] == a[p + |x|..] + b;
    ContainsLeft(a[p + |x|..], b, y);
    assert OccursAt(a + b, x, p);
  }

  /** An order found in `b` survives prepending. */
  lemma PrecedesRight(a: string, b: string, x: string, y: string)
    requires Precedes(b, x, y)
    ensures Precedes(a + b, x, y)
  {
    var p :| 0 <= p <= |b| && OccursAt(b, x, p) && Contains(b[p + |x|..], y);
    assert (a + b)[|a| + p..|a| + p + |x|] == b[p..p + |x|];
    assert (a + b)[|a| + p + |x|..] == b[p + |x|..];
    assert OccursAt(a + b, x, |a| + p);
  }

  /** Two texts spliced in one after the other occur in that order. */
  lemma PrecedesSpliced(a: string, x: string, m: string, y: string)
    ensures Precedes(a + x + m + y, x, y)
  {
    var s := a + x + m + y;
    assert s[..|a|] + s[|a|..] == s;
    assert s[|a|..|a| + |x|] == x;
    assert s[|a| + |x|..] == m + y;
    ContainsMiddle(m, y, "");
    assert m + y + "" == m + y;
    assert OccursAt(s, x, |a|);
  }

  /** An order found in the middle part holds in the whole. */
  lemma PrecedesWithin(a: string, t: string, b: string, x: string, y: string)
    requires Precedes(t, x, y)
    ensures Precedes(a + t + b, x, y)
  {
    PrecedesRight(a, t, x, y);
    PrecedesLeft(a + t, b, x, y);
  }

  /** Containment is transitive. */
  lemma ContainsTrans(s: string, t: string, x: string)
    requires Contains(s, t) && Contains(t, x)
    ensures Contains(s, x)
  {
    var i :| 0 <= i <= |s| && OccursAt(s, t, i);
    var j :| 0 <= j <= |t| && OccursAt(t, x, j);
    assert s[i..i + |t|] == t;
    assert forall m | 0 <= m < |x| :: s[i + j + m] == t[j + m] == x[m];
    assert s[i + j..i + j + |x|] == x;
    assert OccursAt(s, x, i + j);
  }

  /** An order found in a text holds in any text containing it. */
  lemma PrecedesTrans(s: string, t: string, x: string, y: string)
    requires Contains(s, t) && Precedes(t, x, y)
    ensures Precedes(s, x, y)
  {
    var i :| 0 <= i <= |s| && OccursAt(s, t, i);
    assert s == s[..i] + t + s[i + |t|..];
    PrecedesWithin(s[..i], t, s[i + |t|..], x, y);
  }

  /** Every part of a join occurs in the joined text. */
  lemma {:induction false} JoinHasPart(parts: seq<string>, sep: string, k: nat)
    requires k < |parts|
    ensures Contains(Join(parts, sep), parts[k])
  {
    if |parts| == 1 {
      ContainsSelf(parts[0]);
    } else if k == 0 {
      ContainsSelf(parts[0]);
      ContainsLeft(parts[0], sep + Join(parts[1..], sep), parts[0]);
      assert parts[0] + sep + Join(parts[1..], sep) == parts[0] + (sep + Join(parts[1..], sep));
    } else {
      JoinHasPart(parts[1..], sep, k - 1);
      ContainsRight(parts[0] + sep, Join(parts[1..], sep), parts[k]);
    }
  }

  /** A join keeps its parts in order: an earlier part occurs before a later one. */
  lemma {:induction false} JoinInOrder(parts: seq<string>, sep: string, j: nat, k: nat)
    requires j < k < |parts|
    ensures Precedes(Join(parts, sep), parts[j], parts[k])
  {
    var rest := Join(parts[1..], sep);
    assert Join(parts, sep) == parts[0] + sep + rest;
    if j == 0 {
      JoinHasPart(parts[1..], sep, k - 1);
      var s := parts[0] + sep + rest;
      assert s[..|parts[0]|] == parts[0];
      assert s[|parts[0]|..] == sep + rest;
      ContainsRight(sep, rest, parts[k]);
      assert OccursAt(s, parts[0], 0);
    } else {
      JoinInOrder(parts[1..], sep, j - 1, k - 1);
      PrecedesRight(parts[0] + sep, rest, parts[j], parts[k]);
    }
  }

  /**
   * The first occurrence of `pat` in `s` at or after `from`, as `s.indexOf(pat, from)` finds it
   * (None for -1).
   */
  function IndexOf(s: string, pat: string, from: nat): (r: Option<nat>)
    ensures r.Some? ==> from <= r.value && OccursAt(s, pat, r.value)
    ensures r.Some? ==> forall j :: from <= j < r.value ==> !OccursAt(s, pat, j)
    ensures r.None? ==> forall j :: from <= j ==> !OccursAt(s, pat, j)
    decreases |s| - from
  {
    if from + |pat| > |s| then None
    else if s[from..from + |pat|] == pat then Some(from)
    else IndexOf(s, pat, from + 1)
  }

  // ---------------------------------------------------------------------------
  // String.prototype.trim

  /** The characters ECMAScript's trim removes: WhiteSpace and LineTerminator. */
  predicate IsJsWhitespace(c: char) {
    || c == '\t' || c == '\U{000B}' || c == '\U{000C}' || c == ' ' || c == '\U{00A0}' || c == '\U{FEFF}'
    || c == '\U{1680}' || ('\U{2000}' <= c <= '\U{200A}') || c == '\U{202F}' || c == '\U{205F}' || c == '\U{3000}'
    || c == '\n' || c == '\r' || c == '\U{2028}' || c == '\U{2029}'
  }

  /** Drops the leading whitespace: the result is a suffix of `s` and everything dropped is whitespace. */
  function TrimStart(s: string): (r: string)
    ensures |r| <= |s| && r == s[|s| - |r|..]
    ensures forall k :: 0 <= k < |s| - |r| ==> IsJsWhitespace(s[k])
    ensures r != [] ==> !IsJsWhitespace(r[0])
  {
    if |s| > 0 && IsJsWhitespace(s[0]) then TrimStart(s[1..]) else s
  }

  /** Drops the trailing whitespace: the result is a prefix of `s` and everything dropped is whitespace. */
  function TrimEnd(s: string): (r: string)
    ensures |r| <= |s| && r == s[..|r|]
    ensures forall k :: |r| <= k < |s| ==> IsJsWhitespace(s[k])
    ensures r != [] ==> !IsJsWhitespace(r[|r| - 1])
  {
    if |s| > 0 && IsJsWhitespace(s[|s| - 1]) then TrimEnd(s[..|s| - 1]) else s
  }

  /** No whitespace at either end. */
  predicate IsTrimmed(s: string) {
    s != [] ==> !IsJsWhitespace(s[0]) && !IsJsWhitespace(s[|s| - 1])
  }

  /** `r` is `s[i..i + |r|]` and everything of `s` outside that slice is whitespace. */
  predicate TrimmedSliceAt(s: string, r: string, i: int) {
    && 0 <= i <= |s| - |r| && r == s[i..i + |r|]
    && (forall k :: 0 <= k < i ==> IsJsWhitespace(s[k]))
    && (forall k :: i + |r| <= k < |s| ==> IsJsWhitespace(s[k]))
  }

  /**
   * `s.trim()`: the result is a contiguous slice of `s`, has no whitespace at either end,
   * and only whitespace was cut away.
   */
  function Trim(s: string): (r: string)
    ensures IsTrimmed(r)
    ensures exists i :: TrimmedSliceAt(s, r, i)
  {
    var t := TrimStart(s);
    var r := TrimEnd(t);
    assert r != [] ==> r[0] == t[0];
    var i := |s| - |t|;
    assert TrimmedSliceAt(s, r, i);
    r
  }

  /** Text without whitespace at its ends is its own trim. */
  lemma TrimOfTrimmed(s: string)
    requires IsTrimmed(s)
    ensures Trim(s) == s
  {
  }

  /** Trimming twice is trimming once. */
  lemma TrimIdempotent(s: string)
    ensures Trim(Trim(s)) == Trim(s)
  {
    TrimOfTrimmed(Trim(s));
  }
}
