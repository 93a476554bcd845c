// Python's `str` operations that the modelled code relies on, over `seq<char>`.
// Whitespace is space, tab, line feed, carriage return, vertical tab and form feed: the
// part of what `str.strip()` and `str.split()` remove that ordinary text carries (Python
// also removes the separators \x1c-\x1f and the Unicode spaces).
module Strings {
  import opened Base

  predicate IsSpace(c: char) {
    c == ' ' || c == '\t' || c == '\n' || c == '\r' || c == '\U{000B}' || c == '\U{000C}'
  }

  predicate IsDigit(c: char) { '0' <= c <= '9' }

  // ---------------------------------------------------------------------------
  // Prefixes, suffixes and occurrences (`startswith`, `endswith`, `in`)
  // ---------------------------------------------------------------------------

  predicate StartsWith(s: string, p: string) { |p| <= |s| && s[..|p|] == p }

  predicate EndsWith(s: string, p: string) { |p| <= |s| && s[|s| - |p|..] == p }

  predicate OccursAt(s: string, p: string, i: int) {
    0 <= i && i + |p| <= |s| && s[i..i + |p|] == p
  }

  /** Python's `p in s` for strings. */
  predicate Contains(s: string, p: string) {
    exists i | 0 <= i <= |s| - |p| :: OccursAt(s, p, i)
  }

  lemma EndsWithTail(a: string, p: string)
    ensures EndsWith(a + p, p)
  {
    assert (a + p)[|a|..] == p;
  }

  lemma EndsWithTrans(s: string, m: string, p: string)
    requires EndsWith(s, m) && EndsWith(m, p)
    ensures EndsWith(s, p)
  {
    assert s[|s| - |p|..] == s[|s| - |m|..][|m| - |p|..];
  }

  lemma ContainsMiddle(a: string, p: string, b: string)
    ensures Contains(a + p + b, p)
  {
    assert (a + p + b)[|a|..|a| + |p|] == p;
    assert OccursAt(a + p + b, p, |a|);
  }

  lemma ContainsPrefix(p: string, b: string)
    ensures Contains(p + b, p)
  {
    ContainsMiddle([], p, b);
    assert [] + p + b == p + b;
  }

  lemma ContainsSuffix(a: string, p: string)
    ensures Contains(a + p, p)
  {
    ContainsMiddle(a, p, []);
    assert a + p + [] == a + p;
  }

  lemma StartsWithContains(s: string, p: string)
    requires StartsWith(s, p)
    ensures Contains(s, p)
  {
    assert OccursAt(s, p, 0);
  }

  /** An occurrence survives any text added around it. */
  lemma ContainsWiden(s: string, p: string, a: string, b: string)
    requires Contains(s, p)
    ensures Contains(a + s + b, p)
  {
    var i :| 0 <= i <= |s| - |p| && OccursAt(s, p, i);
    assert (a + s + b)[|a| + i..|a| + i + |p|] == s[i..i + |p|];
    assert OccursAt(a + s + b, p, |a| + i);
  }

  lemma ContainsAppend(s: string, p: string, b: string)
    requires Contains(s, p)
    ensures Contains(s + b, p)
  {
    ContainsWiden(s, p, [], b);
    assert [] + s + b == s + b;
  }

  /** An occurrence past the first character is one in the rest of the text. */
  lemma OccursShift(s: string, p: string, j: int)
    requires 1 <= j && s != []
    ensures OccursAt(s, p, j) <==> OccursAt(s[1..], p, j - 1)
  {
    if j + |p| <= |s| {
      assert s[1..][j - 1..j - 1 + |p|] == s[j..j + |p|];
    }
  }

  /** The first index at which `p` occurs in `s` (`str.find`, without the -1). */
  function IndexOf(s: string, p: string): (r: Option<nat>)
    ensures r.Some? ==> OccursAt(s, p, r.value)
    ensures r.Some? ==> forall j :: 0 <= j < r.value ==> !OccursAt(s, p, j)
    ensures r.None? ==> !Contains(s, p)
    decreases |s|
  {
    if |s| < |p| then None
    else if s[..|p|] == p then Some(0)
    else
      match IndexOf(s[1..], p)
      case None =>
        assert forall j :: 1 <= j <= |s| - |p| ==> (OccursAt(s, p, j) ==> OccursAt(s[1..], p, j - 1)) by {
          forall j | 1 <= j <= |s| - |p| {
            OccursShift(s, p, j);
          }
        }
        None
      case Some(i) =>
        assert forall j :: 1 <= j < i + 1 ==> (OccursAt(s, p, j) ==> OccursAt(s[1..], p, j - 1)) by {
          forall j | 1 <= j < i + 1 {
            OccursShift(s, p, j);
          }
        }
        OccursShift(s, p, i + 1);
        Some(i + 1)
  }

  /** The last index at which `p` occurs in `s` (`str.rfind`, without the -1). */
  function RFind(s: string, p: string): (r: Option<nat>)
    ensures r.Some? ==> OccursAt(s, p, r.value)
    ensures r.Some? ==> forall j :: r.value < j <= |s| - |p| ==> !OccursAt(s, p, j)
    ensures r.None? ==> !Contains(s, p)
    decreases |s|
  {
    if |s| < |p| then None
    else if s[|s| - |p|..] == p then Some(|s| - |p|)
    else
      var t := s[..|s| - 1];
      assert forall j :: 0 <= j < |s| - |p| ==> (OccursAt(s, p, j) <==> OccursAt(t, p, j)) by {
        forall j | 0 <= j < |s| - |p| ensures OccursAt(s, p, j) <==> OccursAt(t, p, j) {
          assert s[j..j + |p|] == t[j..j + |p|];
        }
      }
      RFind(t, p)
  }

  /** An occurrence with none before it is the one `IndexOf` finds. */
  lemma IndexOfAt(s: string, p: string, i: nat)
    requires OccursAt(s, p, i) && forall j :: 0 <= j < i ==> !OccursAt(s, p, j)
    ensures IndexOf(s, p) == Some(i)
  {
    assert Contains(s, p);
  }

  /** A text ending with `p` has its last occurrence of `p` at the end. */
  lemma RFindAtEnd(a: string, p: string)
    ensures RFind(a + p, p) == Some(|a|)
  {
    assert (a + p)[|a + p| - |p|..] == p;
  }

  // ---------------------------------------------------------------------------
  // Stripping
  // ---------------------------------------------------------------------------

  function LeadingSpaces(s: string): (k: nat)
    ensures k <= |s|
    ensures forall j :: 0 <= j < k ==> IsSpace(s[j])
    ensures k < |s| ==> !IsSpace(s[k])
  {
    if s == [] || !IsSpace(s[0]) then 0 else 1 + LeadingSpaces(s[1..])
  }

  function TrailingSpaces(s: string): (k: nat)
    ensures k <= |s|
    ensures forall j :: |s| - k <= j < |s| ==> IsSpace(s[j])
    ensures k < |s| ==> !IsSpace(s[|s| - 1 - k])
  {
    if s == [] || !IsSpace(s[|s| - 1]) then 0 else 1 + TrailingSpaces(s[..|s| - 1])
  }

  predicate IsStripped(s: string) {
    s == [] || (!IsSpace(s[0]) && !IsSpace(s[|s| - 1]))
  }

  function LStrip(s: string): string { s[LeadingSpaces(s)..] }

  function RStrip(s: string): string { s[..|s| - TrailingSpaces(s)] }

  /** Python's `str.strip()`: the result has no whitespace at either end and is a slice of `s`. */
  function Strip(s: string): (r: string)
    ensures IsStripped(r)
    ensures |r| <= |s|
    ensures IsStripped(s) ==> r == s
  {
    var t := LStrip(s);
    var k := TrailingSpaces(t);
    assert k < |t| ==> t[0] == t[..|t| - k][0];
    t[..|t| - k]
  }

  /** Stripping only removes whitespace at the ends, so it keeps every inner occurrence
      of a non-empty text that itself neither starts nor ends with whitespace. */
  lemma {:induction false} StripKeeps(s: string, p: string)
    requires Contains(s, p) && p != [] && IsStripped(p)
    ensures Contains(Strip(s), p)
  {
    var i :| 0 <= i <= |s| - |p| && OccursAt(s, p, i);
    var lead := LeadingSpaces(s);
    assert s[i] == p[0];
    assert i >= lead;
    var t := s[lead..];
    assert t[i - lead..i - lead + |p|] == s[i..i + |p|];
    var k := TrailingSpaces(t);
    var e := i - lead + |p| - 1;
    assert t[e] == p[|p| - 1];
    assert e < |t| - k;
    var r := t[..|t| - k];
    assert r == Strip(s);
    assert r[i - lead..i - lead + |p|] == t[i - lead..i - lead + |p|];
    assert OccursAt(r, p, i - lead);
  }

  /** `Strip(s)` is the slice of `s` that starts after its leading whitespace. */
  lemma StripSlice(s: string)
    ensures LeadingSpaces(s) + |Strip(s)| <= |s|
    ensures Strip(s) == s[LeadingSpaces(s)..LeadingSpaces(s) + |Strip(s)|]
  {
  }

  predicate AllSpace(s: string) { forall i :: 0 <= i < |s| ==> IsSpace(s[i]) }

  lemma StripBlank(s: string)
    requires AllSpace(s)
    ensures Strip(s) == []
  {
    assert LeadingSpaces(s) == |s|;
  }

  // ---------------------------------------------------------------------------
  // Splitting, joining, replacing
  // ---------------------------------------------------------------------------

  /** Python's `s.split(sep)` for a non-empty separator. */
  function Split(s: string, sep: string): (parts: seq<string>)
    requires sep != []
    ensures |parts| >= 1
    decreases |s|
  {
    match IndexOf(s, sep)
    case None => [s]
    case Some(i) => [s[..i]] + Split(s[i + |sep|..], sep)
  }

  /** Python's `sep.join(parts)`. */
  function Join(parts: seq<string>, sep: string): string {
    if |parts| == 0 then ""
    else if |parts| == 1 then parts[0]
    else Join(parts[..|parts| - 1], sep) + sep + parts[|parts| - 1]
  }

  lemma JoinStep(parts: seq<string>, n: nat, sep: string)
    requires 1 <= n < |parts|
    ensures Join(parts[..n + 1], sep) == Join(parts[..n], sep) + sep + parts[n]
  {
    assert parts[..n + 1][..n] == parts[..n];
  }

  /** Joining from the front: the first part, the separator, then the rest joined. */
  lemma {:induction false} JoinCons(a: string, rest: seq<string>, sep: string)
    requires rest != []
    ensures Join([a] + rest, sep) == a + sep + Join(rest, sep)
    decreases |rest|
  {
    var all := [a] + rest;
    assert all[..|all| - 1] == [a] + rest[..|rest| - 1];
    if |rest| > 1 {
      JoinCons(a, rest[..|rest| - 1], sep);
    }
  }

  /** A part that cannot hold the separator, not even together with the start of
      the separator that follows it. */
  predicate SeparableBy(p: string, sep: string)
    requires sep != []
  {
    !Contains(p + sep[..|sep| - 1], sep)
  }

  /** `s.split(sep)` undoes `sep.join(parts)` when no part can hold the separator. */
  lemma {:induction false} SplitOfJoin(parts: seq<string>, sep: string)
    requires sep != [] && parts != []
    requires forall k :: 0 <= k < |parts| ==> SeparableBy(parts[k], sep)
    ensures Split(Join(parts, sep), sep) == parts
    decreases |parts|
  {
    var a := parts[0];
    assert SeparableBy(a, sep);
    if |parts| == 1 {
      SeparableNoSep(a, sep);
    } else {
      var rest := parts[1..];
      assert parts == [a] + rest;
      JoinCons(a, rest, sep);
      var j := Join(rest, sep);
      var s := a + sep + j;
      FirstSeparator(a, sep, j);
      assert s[..|a|] == a && s[|a| + |sep|..] == j;
      forall k | 0 <= k < |rest|
        ensures SeparableBy(rest[k], sep)
      {
        assert rest[k] == parts[k + 1];
      }
      SplitOfJoin(rest, sep);
    }
  }

  /** A separable part does not hold the separator. */
  lemma SeparableNoSep(a: string, sep: string)
    requires sep != [] && SeparableBy(a, sep)
    ensures IndexOf(a, sep) == None
  {
    var cut := a + sep[..|sep| - 1];
    if IndexOf(a, sep).Some? {
      var i := IndexOf(a, sep).value;
      assert cut[i..i + |sep|] == a[i..i + |sep|];
      assert OccursAt(cut, sep, i);
    }
  }

  /** After a separable part, the first separator is the one that follows it. */
  lemma FirstSeparator(a: string, sep: string, rest: string)
    requires sep != [] && SeparableBy(a, sep)
    ensures IndexOf(a + sep + rest, sep) == Some(|a|)
  {
    var s := a + sep + rest;
    var cut := a + sep[..|sep| - 1];
    assert OccursAt(s, sep, |a|) by { assert s[|a|..|a| + |sep|] == sep; }
    forall i | 0 <= i < |a| ensures !OccursAt(s, sep, i) {
      if i + |sep| <= |s| && s[i..i + |sep|] == sep {
        assert s[i..i + |sep|] == cut[i..i + |sep|];
        assert OccursAt(cut, sep, i);
      }
    }
    IndexOfAt(s, sep, |a|);
  }

  /** The pieces of a template written one after the other: `"".join(parts)`. */
  function Flatten(parts: seq<string>): (r: string)
    ensures parts != [] ==> StartsWith(r, parts[0])
  {
    if parts == [] then "" else parts[0] + Flatten(parts[1..])
  }

  /** A template ends with its last piece. */
  lemma FlattenEndsWith(parts: seq<string>)
    requires parts != []
    ensures EndsWith(Flatten(parts), parts[|parts| - 1])
  {
    FlattenSplit(parts, |parts| - 1);
    assert parts[|parts|..] == [];
    EndsWithTail(Flatten(parts[..|parts| - 1]), parts[|parts| - 1]);
  }

  lemma {:induction false} FlattenSplit(parts: seq<string>, i: nat)
    requires i < |parts|
    ensures Flatten(parts) == Flatten(parts[..i]) + parts[i] + Flatten(parts[i + 1..])
  {
    var rest := parts[i..];
    assert parts == parts[..i] + rest;
    FlattenAppend(parts[..i], rest);
    assert rest[1..] == parts[i + 1..];
  }

  lemma {:induction false} FlattenAppend(a: seq<string>, b: seq<string>)
    ensures Flatten(a + b) == Flatten(a) + Flatten(b)
  {
    if a == [] {
      assert a + b == b;
    } else {
      assert (a + b)[1..] == a[1..] + b;
      FlattenAppend(a[1..], b);
    }
  }

  /** Every piece of a template occurs in the text it builds. */
  lemma {:induction false} FlattenContains(parts: seq<string>, i: nat)
    requires i < |parts|
    ensures Contains(Flatten(parts), parts[i])
  {
    if i == 0 {
      ContainsPrefix(parts[0], Flatten(parts[1..]));
    } else {
      FlattenContains(parts[1..], i - 1);
      ContainsWiden(Flatten(parts[1..]), parts[i], parts[0], []);
      assert parts[0] + Flatten(parts[1..]) + [] == Flatten(parts);
    }
  }

  /** Every piece of a split of blank text is blank. */
  lemma {:induction false} SplitBlank(s: string, sep: string)
    requires sep != [] && AllSpace(s)
    ensures forall k :: 0 <= k < |Split(s, sep)| ==> AllSpace(Split(s, sep)[k])
    decreases |s|
  {
    match IndexOf(s, sep)
    case None =>
    case Some(i) =>
      SplitBlank(s[i + |sep|..], sep);
  }

  /** Python's `s.replace(target, repl)`: every non-overlapping occurrence, left to right. */
  function ReplaceAll(s: string, target: string, repl: string): (r: string)
    requires target != []
    ensures !Contains(s, target) ==> r == s
    decreases |s|
  {
    if |s| < |target| then s
    else if s[..|target|] == target then
      assert OccursAt(s, target, 0);
      repl + ReplaceAll(s[|target|..], target, repl)
    else
      var rest := ReplaceAll(s[1..], target, repl);
      assert !Contains(s, target) ==> !Contains(s[1..], target) by {
        if Contains(s[1..], target) {
          var j :| 0 <= j <= |s[1..]| - |target| && OccursAt(s[1..], target, j);
          assert s[j + 1..j + 1 + |target|] == s[1..][j..j + |target|];
          assert OccursAt(s, target, j + 1);
        }
      }
      assert !Contains(s, target) ==> [s[0]] + s[1..] == s;
      [s[0]] + rest
  }

  /** Replacing a character by text without it leaves none of it behind. */
  lemma {:induction false} ReplaceAllRemoves(s: string, c: char, repl: string)
    requires c !in repl
    ensures c !in ReplaceAll(s, [c], repl)
    decreases |s|
  {
    if |s| >= 1 {
      ReplaceAllRemoves(s[1..], c, repl);
    }
  }

  /** A character in neither the text nor the replacement is not in the result. */
  lemma {:induction false} ReplaceAllKeepsOut(s: string, target: string, repl: string, d: char)
    requires target != [] && d !in s && d !in repl
    ensures d !in ReplaceAll(s, target, repl)
    decreases |s|
  {
    if |s| >= |target| {
      if s[..|target|] == target {
        assert forall x :: x in s[|target|..] ==> x in s;
        ReplaceAllKeepsOut(s[|target|..], target, repl, d);
      } else {
        assert forall x :: x in s[1..] ==> x in s;
        ReplaceAllKeepsOut(s[1..], target, repl, d);
      }
    }
  }

  function Repeat(c: char, n: nat): (r: string)
    ensures |r| == n
    ensures forall i :: 0 <= i < n ==> r[i] == c
  {
    if n == 0 then "" else Repeat(c, n - 1) + [c]
  }

  /** Python's `s[:n]` for `n >= 0`. */
  function Take(s: string, n: nat): (r: string)
    ensures |r| == Min(n, |s|)
    ensures StartsWith(s, r)
  {
    if n >= |s| then s else s[..n]
  }

  /** Python's `s.ljust(width)`. */
  function PadRight(s: string, width: nat): (r: string)
    ensures |r| == Max(width, |s|)
    ensures StartsWith(r, s)
  {
    if |s| >= width then s else s + Repeat(' ', width - |s|)
  }

  /** The text after the last `c`, or all of `s` when `c` does not occur: Python's
      `s.split(c)[-1]`, and `os.path.basename` for `c == '/'`. */
  function LastSegment(s: string, c: char): (r: string)
    ensures c !in r
    ensures EndsWith(s, r)
    ensures |r| < |s| ==> s[|s| - |r| - 1] == c
  {
    if s == [] || s[|s| - 1] == c then []
    else
      var r := LastSegment(s[..|s| - 1], c);
      SegmentStep(s, c, r);
      r + [s[|s| - 1]]
  }

  lemma SegmentStep(s: string, c: char, r: string)
    requires s != [] && s[|s| - 1] != c && c !in r
    requires var t := s[..|s| - 1]; EndsWith(t, r) && (|r| < |t| ==> t[|t| - |r| - 1] == c)
    ensures var r' := r + [s[|s| - 1]];
      c !in r' && EndsWith(s, r') && (|r'| < |s| ==> s[|s| - |r'| - 1] == c)
  {
    var t := s[..|s| - 1];
    assert s[|s| - |r| - 1..] == t[|t| - |r|..] + [s[|s| - 1]];
  }

  lemma {:induction false} LastSegmentWhole(s: string, c: char)
    requires c !in s
    ensures LastSegment(s, c) == s
  {
    if s != [] {
      assert s[|s| - 1] in s;
      LastSegmentWhole(s[..|s| - 1], c);
    }
  }

  lemma {:induction false} LastSegmentAfter(a: string, c: char, b: string)
    requires c !in b
    ensures LastSegment(a + [c] + b, c) == b
    decreases |b|
  {
    if b == [] {
      assert a + [c] + b == a + [c];
    } else {
      assert b[|b| - 1] in b;
      assert (a + [c] + b)[..|a + [c] + b| - 1] == a + [c] + b[..|b| - 1];
      LastSegmentAfter(a, c, b[..|b| - 1]);
    }
  }

  // ---------------------------------------------------------------------------
  // Case mapping (ASCII letters; Python maps every cased Unicode letter)
  // ---------------------------------------------------------------------------

  function LowerChar(c: char): char {
    if 'A' <= c <= 'Z' then (c as int + 32) as char else c
  }

  function UpperChar(c: char): char {
    if 'a' <= c <= 'z' then (c as int - 32) as char else c
  }

  function Lower(s: string): (r: string)
    ensures |r| == |s|
    ensures forall i :: 0 <= i < |s| ==> r[i] == LowerChar(s[i])
  {
    if s == [] then "" else [LowerChar(s[0])] + Lower(s[1..])
  }

  function Upper(s: string): (r: string)
    ensures |r| == |s|
    ensures forall i :: 0 <= i < |s| ==> r[i] == UpperChar(s[i])
  {
    if s == [] then "" else [UpperChar(s[0])] + Upper(s[1..])
  }

  // ---------------------------------------------------------------------------
  // Integers as decimal text (`str(n)`, `f"{n:0Wd}"`, `int(s)`)
  // ---------------------------------------------------------------------------

  function DigitChar(d: nat): char
    requires d < 10
  {
    ('0' as int + d) as char
  }

  function DigitValue(c: char): nat
    requires IsDigit(c)
  {
    c as int - '0' as int
  }

  predicate AllDigits(s: string) { forall i :: 0 <= i < |s| ==> IsDigit(s[i]) }

  function NatToString(n: nat): (r: string)
    ensures |r| >= 1 && AllDigits(r)
  {
    if n < 10 then [DigitChar(n)] else NatToString(n / 10) + [DigitChar(n % 10)]
  }

  function IntToString(n: int): string {
    if n < 0 then "-" + NatToString(-n) else NatToString(n)
  }

  /** `f"{n:0{width}d}"` for a non-negative `n`. */
  function ZeroPad(n: nat, width: nat): (r: string)
    ensures |r| == Max(width, |NatToString(n)|)
    ensures EndsWith(r, NatToString(n))
  {
    var digits := NatToString(n);
    var r := if |digits| >= width then digits else Repeat('0', width - |digits|) + digits;
    assert r[|r| - |digits|..] == digits;
    r
  }

  function DigitsValue(s: string): nat
    requires AllDigits(s)
  {
    if s == [] then 0 else DigitsValue(s[..|s| - 1]) * 10 + DigitValue(s[|s| - 1])
  }

  lemma {:induction false} LeadingZerosValue(z: string, s: string)
    requires forall i :: 0 <= i < |z| ==> z[i] == '0'
    requires AllDigits(s)
    ensures AllDigits(z + s) && DigitsValue(z + s) == DigitsValue(s)
    decreases |s|, |z|
  {
    if s == [] {
      assert z + s == z;
      if z != [] {
        LeadingZerosValue(z[..|z| - 1], []);
        assert z[..|z| - 1] + [] == z[..|z| - 1];
      }
    } else {
      assert (z + s)[..|z + s| - 1] == z + s[..|s| - 1];
      LeadingZerosValue(z, s[..|s| - 1]);
    }
  }

  /** Zero padding keeps the value: the padded text reads back as `n`. */
  lemma ZeroPadValue(n: nat, width: nat)
    ensures AllDigits(ZeroPad(n, width)) && DigitsValue(ZeroPad(n, width)) == n
  {
    var digits := NatToString(n);
    DigitsOfNat(n);
    if |digits| < width {
      LeadingZerosValue(Repeat('0', width - |digits|), digits);
    }
  }

  lemma ZeroPadInjective(m: nat, n: nat, width: nat)
    requires ZeroPad(m, width) == ZeroPad(n, width)
    ensures m == n
  {
    ZeroPadValue(m, width);
    ZeroPadValue(n, width);
  }

  /** Python's `int(s)` on text: surrounding whitespace, an optional sign, then one or
      more decimal digits; anything else is a `ValueError`, modelled as `None`. Python also
      reads digits grouped by single underscores (`1_000`); those are `None` here. */
  function ParseInt(s: string): Option<int> {
    var t := Strip(s);
    if t == [] then None
    else if t[0] == '-' || t[0] == '+' then
      var d := t[1..];
      if d != [] && AllDigits(d) then
        var m: int := DigitsValue(d);
        var v: int := if t[0] == '-' then 0 - m else m;
        Some(v)
      else None
    else if AllDigits(t) then Some(DigitsValue(t))
    else None
  }

  lemma {:induction false} DigitsOfNat(n: nat)
    ensures DigitsValue(NatToString(n)) == n
  {
    if n >= 10 {
      var s := NatToString(n);
      assert s[..|s| - 1] == NatToString(n / 10);
      DigitsOfNat(n / 10);
    }
  }

  /** Printing an integer and reading it back gives the integer. */
  lemma ParseIntRoundTrip(n: int)
    ensures ParseInt(IntToString(n)) == Some(n)
  {
    var s := IntToString(n);
    IntTextStripped(n);
    assert Strip(s) == s;
    if n < 0 {
      DigitsOfNat(-n);
      assert s[1..] == NatToString(-n);
    } else {
      DigitsOfNat(n);
    }
  }

  lemma IntTextStripped(n: int)
    ensures IsStripped(IntToString(n))
  {
    var d := NatToString(if n < 0 then -n else n);
    assert IsDigit(d[0]) && IsDigit(d[|d| - 1]);
    if n < 0 {
      assert IntToString(n) == "-" + d;
    }
  }
}
