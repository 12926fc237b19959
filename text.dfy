/**
 * The JavaScript string operations the core relies on: `startsWith`, `trim`,
 * `toLowerCase` (on the ASCII range), `replace` / `replaceAll` with a string
 * pattern (including the `$` substitution patterns of the replacement),
 * `split` on one character, `join`, `length` in UTF-16 code units, and the
 * `toString` / `parseInt` pair used to persist an integer.
 */
module Text {
  import opened Wrappers

  // ---------------------------------------------------------------------
  // Prefixes, blanks and trimming

  predicate StartsWith(s: string, prefix: string) {
    |prefix| <= |s| && s[..|prefix|] == prefix
  }

  /** The characters `String.prototype.trim` removes: WhiteSpace and LineTerminator. */
  predicate IsJsSpace(c: char) {
    c == '\t' || c == '\n' || c == '\U{B}' || c == '\U{C}' || c == '\r' || c == ' '
    || c == '\U{A0}' || c == '\U{1680}' || ('\U{2000}' <= c <= '\U{200A}')
    || c == '\U{2028}' || c == '\U{2029}' || c == '\U{202F}' || c == '\U{205F}'
    || c == '\U{3000}' || c == '\U{FEFF}'
  }

  function TrimStart(s: string): (r: string)
    ensures |r| <= |s|
  {
    if |s| > 0 && IsJsSpace(s[0]) then TrimStart(s[1..]) else s
  }

  /** `TrimStart` removes exactly the leading white space. */
  lemma {:induction false} TrimStartSpec(s: string)
    ensures TrimStart(s) == s[|s| - |TrimStart(s)|..]
    ensures forall i :: 0 <= i < |s| - |TrimStart(s)| ==> IsJsSpace(s[i])
    ensures |TrimStart(s)| > 0 ==> !IsJsSpace(TrimStart(s)[0])
  {
    if |s| > 0 && IsJsSpace(s[0]) {
      TrimStartSpec(s[1..]);
      assert forall i :: 1 <= i < |s| ==> s[1..][i - 1] == s[i];
    }
  }

  function TrimEnd(s: string): (r: string)
    ensures |r| <= |s|
  {
    if |s| > 0 && IsJsSpace(s[|s| - 1]) then TrimEnd(s[..|s| - 1]) else s
  }

  /** `TrimEnd` removes exactly the trailing white space. */
  lemma {:induction false} TrimEndSpec(s: string)
    ensures TrimEnd(s) == s[..|TrimEnd(s)|]
    ensures forall i :: |TrimEnd(s)| <= i < |s| ==> IsJsSpace(s[i])
    ensures |TrimEnd(s)| > 0 ==> !IsJsSpace(TrimEnd(s)[|TrimEnd(s)| - 1])
  {
    if |s| > 0 && IsJsSpace(s[|s| - 1]) {
      TrimEndSpec(s[..|s| - 1]);
      assert s[..|s| - 1][..|TrimEnd(s)|] == s[..|TrimEnd(s)|];
    }
  }

  function Trim(s: string): string {
    TrimEnd(TrimStart(s))
  }

  /** `!s.trim()`: the string is empty or made of white space only. */
  predicate IsBlank(s: string) {
    |s| == 0 || (IsJsSpace(s[0]) && IsBlank(s[1..]))
  }

  /** A string is blank exactly when trimming leaves nothing of it. */
  lemma BlankIffTrimEmpty(s: string)
    ensures IsBlank(s) <==> Trim(s) == ""
  {
    BlankIffAllSpace(s);
    TrimEmptyIffAllSpace(s);
  }

  lemma TrimEmptyIffAllSpace(s: string)
    ensures Trim(s) == "" <==> forall i :: 0 <= i < |s| ==> IsJsSpace(s[i])
  {
    var t := TrimStart(s);
    TrimStartSpec(s);
    if forall i :: 0 <= i < |s| ==> IsJsSpace(s[i]) {
      TrimStartAllSpace(s);
    } else {
      var k :| 0 <= k < |s| && !IsJsSpace(s[k]);
      var d := |s| - |t|;
      assert k >= d;
      assert s[d..][k - d] == s[k];
      TrimEndSpec(t);
      assert |TrimEnd(t)| > 0;
    }
  }

  lemma {:induction false} BlankIffAllSpace(s: string)
    ensures IsBlank(s) <==> forall i :: 0 <= i < |s| ==> IsJsSpace(s[i])
  {
    if |s| > 0 {
      BlankIffAllSpace(s[1..]);
      assert forall i :: 1 <= i < |s| ==> s[1..][i - 1] == s[i];
    }
  }

  lemma {:induction false} TrimStartAllSpace(s: string)
    requires forall i :: 0 <= i < |s| ==> IsJsSpace(s[i])
    ensures TrimStart(s) == ""
  {
    if |s| > 0 {
      TrimStartAllSpace(s[1..]);
    }
  }

  /** ASCII case folding; other characters are kept. */
  function ToLowerAscii(s: string): (r: string)
    ensures |r| == |s|
    ensures forall i :: 0 <= i < |s| ==> r[i] == LowerChar(s[i])
  {
    seq(|s|, i requires 0 <= i < |s| => LowerChar(s[i]))
  }

  function LowerChar(c: char): char {
    if 'A' <= c <= 'Z' then (c as int - 'A' as int + 'a' as int) as char else c
  }

  /**
   * Lower-casing leaves no ASCII capital, shifts each capital to its small
   * letter, keeps every other character, and changes nothing a second time.
   */
  lemma ToLowerAsciiSpec(s: string)
    ensures var r := ToLowerAscii(s);
      && |r| == |s|
      && (forall i :: 0 <= i < |r| ==> !('A' <= r[i] <= 'Z'))
      && (forall i :: 0 <= i < |s| && 'A' <= s[i] <= 'Z' ==> r[i] as int == s[i] as int + 32)
      && (forall i :: 0 <= i < |s| && !('A' <= s[i] <= 'Z') ==> r[i] == s[i])
      && ToLowerAscii(r) == r
  {
  }

  // ---------------------------------------------------------------------
  // Searching and replacing

  predicate OccursAt(s: string, p: string, i: nat) {
    i + |p| <= |s| && s[i..i + |p|] == p
  }

  /** `s.indexOf(p, from)`: the first position at or after `from` where `p` occurs. */
  function IndexOfFrom(s: string, p: string, from: nat): (r: Option<nat>)
    requires from <= |s|
    decreases |s| - from
    ensures r.Some? ==> from <= r.value && OccursAt(s, p, r.value)
    ensures r.Some? ==> forall j :: from <= j < r.value ==> !OccursAt(s, p, j)
    ensures r.None? ==> forall j :: from <= j <= |s| ==> !OccursAt(s, p, j)
  {
    if OccursAt(s, p, from) then Some(from)
    else if from == |s| then None
    else IndexOfFrom(s, p, from + 1)
  }

  function IndexOf(s: string, p: string): Option<nat> {
    IndexOfFrom(s, p, 0)
  }

  /**
   * The replacement text of one match (GetSubstitution with no capture groups):
   * `$$` is a dollar sign, `$&` the match, `` $` `` the text before it and `$'`
   * the text after it; every other `$` is literal.
   */
  function Substitute(repl: string, matched: string, before: string, after: string): string
    decreases |repl|
  {
    if |repl| == 0 then ""
    else if repl[0] == '$' && |repl| >= 2 && repl[1] in "$&`'" then
      (if repl[1] == '$' then "$"
       else if repl[1] == '&' then matched
       else if repl[1] == '`' then before
       else after)
      + Substitute(repl[2..], matched, before, after)
    else [repl[0]] + Substitute(repl[1..], matched, before, after)
  }

  /** A replacement without `$` is inserted verbatim. */
  lemma {:induction false} SubstitutePlain(repl: string, matched: string, before: string, after: string)
    requires '$' !in repl
    ensures Substitute(repl, matched, before, after) == repl
  {
    if |repl| > 0 {
      assert '$' !in repl[1..];
      SubstitutePlain(repl[1..], matched, before, after);
    }
  }

  /** `s.replace(p, repl)` with a string pattern: only the first occurrence is replaced. */
  function ReplaceFirst(s: string, p: string, repl: string): string {
    match IndexOf(s, p)
    case None => s
    case Some(i) => s[..i] + Substitute(repl, p, s[..i], s[i + |p|..]) + s[i + |p|..]
  }

  /**
   * `replace` in terms of occurrences: when `p` occurs at `i` and nowhere
   * before, the text before `i` and after the match is kept and only the
   * match is replaced by its substitution.
   */
  lemma ReplaceFirstAt(s: string, p: string, repl: string, i: nat)
    requires OccursAt(s, p, i)
    requires forall j :: 0 <= j < i ==> !OccursAt(s, p, j)
    ensures ReplaceFirst(s, p, repl) == s[..i] + Substitute(repl, p, s[..i], s[i + |p|..]) + s[i + |p|..]
    ensures '$' !in repl ==> ReplaceFirst(s, p, repl) == s[..i] + repl + s[i + |p|..]
  {
    var k := IndexOf(s, p);
    assert k.Some? && k.value == i;
    if '$' !in repl {
      SubstitutePlain(repl, p, s[..i], s[i + |p|..]);
    }
  }

  /** When `p` occurs nowhere, `replace` returns its input. */
  lemma ReplaceFirstNone(s: string, p: string, repl: string)
    requires forall j :: 0 <= j <= |s| ==> !OccursAt(s, p, j)
    ensures ReplaceFirst(s, p, repl) == s
  {
  }

  /** `s.replaceAll(p, repl)` with a non-empty string pattern. */
  function ReplaceAll(s: string, p: string, repl: string): string
    requires |p| > 0
  {
    ReplaceAllFrom(s, p, repl, 0)
  }

  function ReplaceAllFrom(s: string, p: string, repl: string, from: nat): string
    requires |p| > 0 && from <= |s|
    decreases |s| - from
  {
    match IndexOfFrom(s, p, from)
    case None => s[from..]
    case Some(i) =>
      s[from..i] + Substitute(repl, p, s[..i], s[i + |p|..]) + ReplaceAllFrom(s, p, repl, i + |p|)
  }

  /** With no occurrence of the pattern, `replaceAll` returns its input. */
  lemma ReplaceAllAbsent(s: string, p: string, repl: string)
    requires |p| > 0 && IndexOf(s, p).None?
    ensures ReplaceAll(s, p, repl) == s
  {
  }

  /** Where no `{` occurs from `from` on, a pattern starting with `{` is not found. */
  lemma NoBraceNotFound(s: string, p: string, from: nat)
    requires |p| > 0 && p[0] == '{' && from <= |s|
    requires '{' !in s[from..]
    ensures IndexOfFrom(s, p, from).None?
  {
    forall k | from <= k < |s|
      ensures s[k] != '{'
    {
      assert s[from..][k - from] == s[k];
    }
    forall k | from <= k < |s| && k + |p| <= |s|
      ensures !OccursAt(s, p, k)
    {
      assert s[k..k + |p|][0] == s[k];
    }
  }

  lemma OccursShift(pre: string, rest: string, p: string, k: nat)
    ensures OccursAt(pre + rest, p, |pre| + k) <==> OccursAt(rest, p, k)
  {
    if k + |p| <= |rest| {
      assert (pre + rest)[|pre| + k..|pre| + k + |p|] == rest[k..k + |p|];
    }
  }

  /** A pattern absent from `rest` from `k` on is absent from `pre + rest` from `|pre| + k` on. */
  lemma {:induction false} IndexOfShift(pre: string, rest: string, p: string, k: nat)
    requires k <= |rest|
    requires IndexOfFrom(rest, p, k).None?
    ensures IndexOfFrom(pre + rest, p, |pre| + k).None?
    decreases |rest| - k
  {
    OccursShift(pre, rest, p, k);
    if k < |rest| {
      IndexOfShift(pre, rest, p, k + 1);
    }
  }

  /**
   * `replaceAll` of a pattern starting with `{` whose first occurrence has no
   * `{` before it and which does not occur again puts a `$`-free
   * replacement exactly in its place.
   */
  lemma ReplaceAllOnce(a: string, p: string, rest: string, repl: string)
    requires |p| > 0 && p[0] == '{' && '{' !in a && '$' !in repl
    requires IndexOf(rest, p).None?
    ensures ReplaceAll(a + p + rest, p, repl) == a + repl + rest
  {
    var s := a + p + rest;
    assert s[..|a|] == a;
    assert s[|a|..|a| + |p|] == p;
    forall j | 0 <= j < |a| && j + |p| <= |s|
      ensures !OccursAt(s, p, j)
    {
      assert s[..|a|][j] == s[j];
      assert s[j..j + |p|][0] == s[j];
    }
    assert OccursAt(s, p, |a|);
    var r := IndexOfFrom(s, p, 0);
    assert r.Some? && r.value == |a|;
    assert s == (a + p) + rest;
    IndexOfShift(a + p, rest, p, 0);
    assert s[|a| + |p|..] == rest;
    assert ReplaceAllFrom(s, p, repl, |a| + |p|) == rest;
    SubstitutePlain(repl, p, s[..|a|], s[|a| + |p|..]);
    assert s[0..|a|] == a;
    assert ReplaceAllFrom(s, p, repl, 0)
      == s[0..|a|] + Substitute(repl, p, s[..|a|], s[|a| + |p|..]) + ReplaceAllFrom(s, p, repl, |a| + |p|);
  }

  // ---------------------------------------------------------------------
  // Splitting and joining

  /** `s.split(sep)` for a one-character separator. */
  function SplitOn(s: string, sep: char): (parts: seq<string>)
    ensures |parts| >= 1
    ensures forall k :: 0 <= k < |parts| ==> sep !in parts[k]
  {
    if sep !in s then [s]
    else
      var i := FirstIndex(s, sep);
      [s[..i]] + SplitOn(s[i + 1..], sep)
  }

  function FirstIndex(s: string, c: char): (i: nat)
    requires c in s
    ensures i < |s| && s[i] == c && c !in s[..i]
  {
    if s[0] == c then 0 else 1 + FirstIndex(s[1..], c)
  }

  function Join(parts: seq<string>, sep: string): string {
    if |parts| == 0 then ""
    else if |parts| == 1 then parts[0]
    else parts[0] + sep + Join(parts[1..], sep)
  }

  function Concat(parts: seq<string>): string {
    if |parts| == 0 then "" else Concat(parts[..|parts| - 1]) + parts[|parts| - 1]
  }

  /** Joining the pieces of a split with the separator gives the string back. */
  lemma {:induction false} SplitJoin(s: string, sep: char)
    ensures Join(SplitOn(s, sep), [sep]) == s
  {
    if sep in s {
      var i := FirstIndex(s, sep);
      var rest := SplitOn(s[i + 1..], sep);
      assert SplitOn(s, sep) == [s[..i]] + rest;
      assert ([s[..i]] + rest)[1..] == rest;
      SplitJoin(s[i + 1..], sep);
      assert Join(SplitOn(s, sep), [sep]) == s[..i] + [sep] + s[i + 1..];
      assert s == s[..i] + [sep] + s[i + 1..];
    }
  }

  /** The split of a string that starts with a separator-free piece and the separator. */
  lemma SplitAfterPrefix(a: string, sep: char, rest: string)
    requires sep !in a
    ensures SplitOn(a + [sep] + rest, sep) == [a] + SplitOn(rest, sep)
  {
    var s := a + [sep] + rest;
    assert s[..|a|] == a;
    FirstIndexAt(s, sep, |a|);
    assert s[|a| + 1..] == rest;
  }

  /**
   * Splitting a join of newline-free pieces gives the pieces back: joining
   * with one separator character and splitting on it are inverse.
   */
  lemma {:induction false} JoinSplit(parts: seq<string>, sep: char)
    requires |parts| >= 1
    requires forall k :: 0 <= k < |parts| ==> sep !in parts[k]
    ensures SplitOn(Join(parts, [sep]), sep) == parts
  {
    if |parts| == 1 {
      assert sep !in Join(parts, [sep]);
    } else {
      JoinSplit(parts[1..], sep);
      SplitAfterPrefix(parts[0], sep, Join(parts[1..], [sep]));
      assert [parts[0]] + parts[1..] == parts;
    }
  }

  lemma {:induction false} FirstIndexAt(s: string, c: char, k: nat)
    requires k < |s| && s[k] == c && c !in s[..k]
    ensures FirstIndex(s, c) == k
  {
    if k > 0 {
      assert s[..k][0] == s[0];
      assert s[1..][..k - 1] == s[..k][1..];
      FirstIndexAt(s[1..], c, k - 1);
    }
  }

  lemma ConcatAppend(parts: seq<string>, last: string)
    ensures Concat(parts + [last]) == Concat(parts) + last
  {
    assert (parts + [last])[..|parts|] == parts;
  }

  lemma {:induction false} ConcatSplit(a: seq<string>, b: seq<string>)
    ensures Concat(a + b) == Concat(a) + Concat(b)
    decreases |b|
  {
    if |b| == 0 {
      assert a + b == a;
    } else {
      var b' := b[..|b| - 1];
      assert a + b == (a + b') + [b[|b| - 1]];
      ConcatAppend(a + b', b[|b| - 1]);
      ConcatSplit(a, b');
      ConcatAppend(b', b[|b| - 1]);
      assert b' + [b[|b| - 1]] == b;
    }
  }

  lemma AppendAssoc<T>(a: seq<T>, b: seq<T>, c: seq<T>)
    ensures a + (b + c) == (a + b) + c
  {
  }

  /** `f(xs[0]) + ... + f(xs[n - 1])`, the pieces produced for the first `n` elements. */
  function FlatMap<T, U>(xs: seq<T>, n: nat, f: T -> seq<U>): seq<U>
    requires n <= |xs|
  {
    if n == 0 then [] else FlatMap(xs, n - 1, f) + f(xs[n - 1])
  }

  /** Elements appended after the first `n` do not change what those `n` produce. */
  lemma {:induction false} FlatMapPrefix<T, U>(a: seq<T>, b: seq<T>, n: nat, f: T -> seq<U>)
    requires n <= |a|
    ensures FlatMap(a + b, n, f) == FlatMap(a, n, f)
  {
    if n > 0 {
      assert (a + b)[n - 1] == a[n - 1];
      FlatMapPrefix(a, b, n - 1, f);
    }
  }

  /** The pieces of a concatenation are the pieces of its parts, one after the other. */
  lemma {:induction false} FlatMapAppend<T, U>(a: seq<T>, b: seq<T>, m: nat, f: T -> seq<U>)
    requires m <= |b|
    ensures FlatMap(a + b, |a| + m, f) == FlatMap(a, |a|, f) + FlatMap(b, m, f)
  {
    if m == 0 {
      FlatMapPrefix(a, b, |a|, f);
    } else {
      assert (a + b)[|a| + m - 1] == b[m - 1];
      FlatMapAppend(a, b, m - 1, f);
    }
  }

  /** When `g` maps every run `f(x)` back to `[x]`, it maps the runs of a prefix back to that prefix. */
  lemma {:induction false} FlatMapOfRuns<T, U>(xs: seq<T>, n: nat, f: T -> seq<U>, g: U -> seq<T>)
    requires n <= |xs|
    requires forall x :: FlatMap(f(x), |f(x)|, g) == [x]
    ensures var runs := FlatMap(xs, n, f); FlatMap(runs, |runs|, g) == xs[..n]
  {
    if n > 0 {
      var before := FlatMap(xs, n - 1, f);
      var last := f(xs[n - 1]);
      FlatMapOfRuns(xs, n - 1, f, g);
      FlatMapAppend(before, last, |last|, g);
      assert xs[..n] == xs[..n - 1] + [xs[n - 1]];
    }
  }

  // ---------------------------------------------------------------------
  // Lengths

  /** `s.length`: UTF-16 code units, two for a character outside the Basic Multilingual Plane. */
  function Utf16Length(s: string): (n: nat)
    ensures |s| <= n <= 2 * |s|
  {
    if |s| == 0 then 0
    else Utf16Length(s[..|s| - 1]) + (if s[|s| - 1] as int > 0xFFFF then 2 else 1)
  }

  // ---------------------------------------------------------------------
  // Integers as decimal text

  predicate IsDigit(c: char) {
    '0' <= c <= '9'
  }

  function DigitValue(c: char): nat
    requires IsDigit(c)
  {
    c as int - '0' as int
  }

  function DigitChar(d: nat): (c: char)
    requires d < 10
    ensures IsDigit(c) && DigitValue(c) == d
  {
    ('0' as int + d) as char
  }

  /** The decimal digits of a natural number, most significant first. */
  function Digits(n: nat): (s: string)
    ensures |s| > 0 && forall i :: 0 <= i < |s| ==> IsDigit(s[i])
  {
    if n < 10 then [DigitChar(n)] else Digits(n / 10) + [DigitChar(n % 10)]
  }

  function DigitsValue(s: string): nat
    requires forall i :: 0 <= i < |s| ==> IsDigit(s[i])
  {
    if |s| == 0 then 0 else DigitsValue(s[..|s| - 1]) * 10 + DigitValue(s[|s| - 1])
  }

  lemma {:induction false} DigitsValueOfDigits(n: nat)
    ensures DigitsValue(Digits(n)) == n
  {
    if n >= 10 {
      DigitsValueOfDigits(n / 10);
      var s := Digits(n);
      assert s[..|s| - 1] == Digits(n / 10);
    }
  }

  /** `n.toString()` for an integer. */
  function IntToString(n: int): string {
    if n < 0 then "-" + Digits(-n) else Digits(n)
  }

  /** The longest prefix of `s` made of decimal digits. */
  function LeadingDigits(s: string): (d: string)
    ensures |d| <= |s|
    ensures forall i :: 0 <= i < |d| ==> IsDigit(d[i])
  {
    if |s| > 0 && IsDigit(s[0]) then [s[0]] + LeadingDigits(s[1..]) else ""
  }

  lemma {:induction false} LeadingDigitsOfDigits(s: string)
    requires forall i :: 0 <= i < |s| ==> IsDigit(s[i])
    ensures LeadingDigits(s) == s
  {
    if |s| > 0 {
      LeadingDigitsOfDigits(s[1..]);
    }
  }

  /**
   * `parseInt(s)` with radix 10: leading white space, an optional sign, then
   * the longest run of digits; `None` stands for `NaN`.
   */
  function ParseInt(s: string): Option<int> {
    ParseSigned(TrimStart(s))
  }

  function ParseSigned(t: string): Option<int> {
    if |t| > 0 && t[0] == '-' then
      (match ParseDigitRun(t[1..]) case None => None case Some(v) => Some(-v))
    else if |t| > 0 && t[0] == '+' then ParseDigitRun(t[1..])
    else ParseDigitRun(t)
  }

  /** The value of the leading run of digits, `None` when there is none. */
  function ParseDigitRun(b: string): Option<int> {
    var ds := LeadingDigits(b);
    if |ds| == 0 then None else Some(DigitsValue(ds) as int)
  }

  /** Reading back an integer written with `toString` gives the same integer. */
  lemma ParseIntToString(n: int)
    ensures ParseInt(IntToString(n)) == Some(n)
  {
    if n < 0 {
      ParseNegative(n);
    } else {
      ParseNonNegative(n);
    }
  }

  lemma ParseRunOfDigits(m: nat)
    ensures ParseDigitRun(Digits(m)) == Some(m as int)
  {
    DigitsValueOfDigits(m);
    LeadingDigitsOfDigits(Digits(m));
  }

  lemma ParseNonNegative(n: int)
    requires n >= 0
    ensures ParseInt(IntToString(n)) == Some(n)
  {
    var ds := Digits(n);
    assert IntToString(n) == ds;
    assert !IsJsSpace(ds[0]) && TrimStart(ds) == ds;
    ParseRunOfDigits(n);
  }

  lemma ParseNegative(n: int)
    requires n < 0
    ensures ParseInt(IntToString(n)) == Some(n)
  {
    var ds := Digits(-n);
    var s := "-" + ds;
    assert IntToString(n) == s;
    assert s[0] == '-' && !IsJsSpace(s[0]);
    assert TrimStart(s) == s;
    assert s[1..] == ds;
    ParseRunOfDigits(-n);
    assert ParseSigned(s) == Some(-(-n));
  }
}
