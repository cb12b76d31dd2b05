/** The Python `str` operations the services rely on (`strip`, `lower`,
    `startswith`, `in`, `replace`, `split`, `join`, `int(...)`), on `seq<char>`. */
module Strings {
  import opened Wrappers

  /** Python's `str.isspace()` for a single character. */
  predicate IsSpace(c: char) {
    || c == ' ' || '\t' <= c <= '\r' || '\U{1c}' <= c <= '\U{1f}'
    || c == '\U{85}' || c == '\U{a0}' || c == '\U{1680}' || '\U{2000}' <= c <= '\U{200a}'
    || c == '\U{2028}' || c == '\U{2029}' || c == '\U{202f}' || c == '\U{205f}' || c == '\U{3000}'
  }

  /** The index of the first non-whitespace character of `s` at or after `i`,
      or `|s|`. */
  function SkipSpace(s: string, i: nat): (k: nat)
    requires i <= |s|
    ensures i <= k <= |s| && (k == |s| || !IsSpace(s[k]))
    ensures forall j :: i <= j < k ==> IsSpace(s[j])
    decreases |s| - i
  {
    if i < |s| && IsSpace(s[i]) then SkipSpace(s, i + 1) else i
  }

  /** The end of `s[..i]` once its trailing whitespace is dropped. */
  function BackSpace(s: string, i: nat): (k: nat)
    requires i <= |s|
    ensures k <= i && (k == 0 || !IsSpace(s[k - 1]))
    ensures forall j :: k <= j < i ==> IsSpace(s[j])
  {
    if i > 0 && IsSpace(s[i - 1]) then BackSpace(s, i - 1) else i
  }

  /** `s.lstrip()`: the suffix left after the longest all-whitespace prefix. */
  function TrimLeft(s: string): (r: string)
    ensures |r| <= |s| && r == s[|s| - |r|..]
    ensures r == [] || !IsSpace(r[0])
    ensures forall i :: 0 <= i < |s| - |r| ==> IsSpace(s[i])
  {
    s[SkipSpace(s, 0)..]
  }

  /** `s.rstrip()`: the prefix left before the longest all-whitespace suffix. */
  function TrimRight(s: string): (r: string)
    ensures |r| <= |s| && r == s[..|r|]
    ensures r == [] || !IsSpace(r[|r| - 1])
    ensures forall i :: |r| <= i < |s| ==> IsSpace(s[i])
  {
    s[..BackSpace(s, |s|)]
  }

  /** `s.strip()` */
  function Strip(s: string): string {
    TrimRight(TrimLeft(s))
  }

  /** The number of whitespace characters `strip` removes at the front. */
  function Lead(s: string): nat {
    |s| - |TrimLeft(s)|
  }

  /** A stripped string is the piece of `s` after the leading whitespace. */
  lemma StripSlice(s: string)
    ensures Lead(s) + |Strip(s)| <= |s| && s[Lead(s)..Lead(s) + |Strip(s)|] == Strip(s)
  {
    var l := TrimLeft(s);
    var r := TrimRight(l);
    assert s[Lead(s)..] == l;
    assert s[Lead(s)..Lead(s) + |r|] == l[..|r|];
  }

  /** Everything after the stripped piece is whitespace. */
  lemma StripTrail(s: string)
    ensures forall i :: Lead(s) + |Strip(s)| <= i < |s| ==> IsSpace(s[i])
  {
    var l := TrimLeft(s);
    var r := TrimRight(l);
    var k := Lead(s);
    assert l == s[k..];
    forall i | k + |r| <= i < |s| ensures IsSpace(s[i]) {
      var j := i - k;
      assert |r| <= j < |l|;
      assert IsSpace(l[j]);
      assert s[i] == l[j];
    }
  }

  /** A stripped string neither starts nor ends with whitespace, and is a
      contiguous piece of the original whose surroundings are all whitespace. */
  lemma StripShape(s: string)
    ensures Strip(s) == [] || (!IsSpace(Strip(s)[0]) && !IsSpace(Strip(s)[|Strip(s)| - 1]))
    ensures Lead(s) + |Strip(s)| <= |s| && s[Lead(s)..Lead(s) + |Strip(s)|] == Strip(s)
    ensures forall i :: 0 <= i < Lead(s) ==> IsSpace(s[i])
    ensures forall i :: Lead(s) + |Strip(s)| <= i < |s| ==> IsSpace(s[i])
  {
    StripSlice(s);
    StripTrail(s);
  }

  /** Stripping twice is stripping once. */
  lemma StripIdempotent(s: string)
    ensures Strip(Strip(s)) == Strip(s)
  {
    var r := Strip(s);
    StripShape(s);
    if r != [] {
      assert !IsSpace(r[0]) && !IsSpace(r[|r| - 1]);
      assert TrimLeft(r) == r;
      assert TrimRight(r) == r;
    }
  }

  /** Text with no whitespace at either end is left alone by `strip`. */
  lemma StripUnpadded(s: string)
    requires s == [] || (!IsSpace(s[0]) && !IsSpace(s[|s| - 1]))
    ensures Strip(s) == s
  {
    if s != [] {
      assert SkipSpace(s, 0) == 0;
      assert TrimLeft(s) == s;
      assert BackSpace(s, |s|) == |s|;
    }
  }

  /** ASCII case folding of `str.lower()`. */
  function LowerChar(c: char): char {
    if 'A' <= c <= 'Z' then (c as int + 32) as char else c
  }

  function Lower(s: string): (r: string)
    ensures |r| == |s|
    ensures forall i :: 0 <= i < |s| ==> r[i] == LowerChar(s[i])
  {
    seq(|s|, i requires 0 <= i < |s| => LowerChar(s[i]))
  }

  /** After `lower()` no upper-case ASCII letter is left, each upper-case
      letter became its lower-case partner 32 code points up, every other
      character is kept, and lowering again changes nothing. */
  lemma LowerFolds(s: string)
    ensures forall i :: 0 <= i < |s| ==> !('A' <= Lower(s)[i] <= 'Z')
    ensures forall i :: 0 <= i < |s| && 'A' <= s[i] <= 'Z' ==> Lower(s)[i] as int == s[i] as int + 32 && 'a' <= Lower(s)[i] <= 'z'
    ensures forall i :: 0 <= i < |s| && !('A' <= s[i] <= 'Z') ==> Lower(s)[i] == s[i]
    ensures Lower(Lower(s)) == Lower(s)
  {
  }

  /** `s.startswith(p)` */
  predicate StartsWith(s: string, p: string) {
    |p| <= |s| && s[..|p|] == p
  }

  /** `p` occurs in `s` at index `i`. */
  predicate MatchAt(s: string, p: string, i: nat) {
    i + |p| <= |s| && s[i..i + |p|] == p
  }

  /** The first index at or after `i` where `p` occurs in `s`. */
  function FindFrom(s: string, p: string, i: nat): (r: Option<nat>)
    requires i <= |s|
    ensures r.Some? ==> i <= r.value && MatchAt(s, p, r.value)
    ensures r.Some? ==> forall j :: i <= j < r.value ==> !MatchAt(s, p, j)
    ensures r.None? ==> forall j :: i <= j <= |s| ==> !MatchAt(s, p, j)
    decreases |s| - i
  {
    if MatchAt(s, p, i) then Some(i)
    else if i == |s| then None
    else FindFrom(s, p, i + 1)
  }

  /** `s.find(p)` as an option: the first index where `p` occurs. */
  function Find(s: string, p: string): (r: Option<nat>)
    ensures r.Some? ==> MatchAt(s, p, r.value) && forall j :: 0 <= j < r.value ==> !MatchAt(s, p, j)
    ensures r.None? ==> forall j :: 0 <= j <= |s| ==> !MatchAt(s, p, j)
  {
    FindFrom(s, p, 0)
  }

  /** `p in s` */
  predicate Contains(s: string, p: string) {
    Find(s, p).Some?
  }

  /** `s.split(p, 1)[0]`: the text before the first occurrence of `p`, or all of `s`. */
  function Before(s: string, p: string): (r: string)
    requires |p| > 0
    ensures Contains(s, p) ==> s == r + p + After(s, p) && !Contains(r, p)
    ensures !Contains(s, p) ==> r == s
  {
    match Find(s, p)
    case None => s
    case Some(i) =>
      assert s == s[..i] + s[i..i + |p|] + s[i + |p|..];
      NotFoundInPrefix(s, p, i);
      s[..i]
  }

  /** `s.split(p, 1)[1]`, which exists only when `p` occurs in `s`. */
  function After(s: string, p: string): string
    requires Contains(s, p)
  {
    s[Find(s, p).value + |p|..]
  }

  /** No occurrence of `p` lies inside `s[..i]` when the first one in `s` is at `i`. */
  lemma NotFoundInPrefix(s: string, p: string, i: nat)
    requires |p| > 0 && Find(s, p) == Some(i)
    ensures !Contains(s[..i], p)
  {
    var t := s[..i];
    forall j | 0 <= j <= |t| ensures !MatchAt(t, p, j) {
      if j + |p| <= |t| {
        assert !MatchAt(s, p, j);
        assert t[j..j + |p|] == s[j..j + |p|];
      }
    }
  }

  /** `s.replace(p, v)` for a non-empty `p`: every non-overlapping occurrence of
      `p`, scanning left to right, is replaced by `v`. */
  function Replace(s: string, p: string, v: string): string
    requires |p| > 0
    decreases |s|
  {
    if |s| < |p| then s
    else if s[..|p|] == p then v + Replace(s[|p|..], p, v)
    else [s[0]] + Replace(s[1..], p, v)
  }

  /** Text that does not contain the first character of `p` is left alone. */
  lemma {:induction false} ReplaceAbsent(s: string, p: string, v: string)
    requires |p| > 0 && p[0] !in s
    ensures Replace(s, p, v) == s
    decreases |s|
  {
    if |s| >= |p| {
      assert s[..|p|][0] == s[0] != p[0];
      assert s[1..] == s[1..] && p[0] !in s[1..];
      ReplaceAbsent(s[1..], p, v);
    }
  }

  /** A prefix free of `p`'s first character passes through a replacement unchanged. */
  lemma {:induction false} ReplaceSkipsPrefix(a: string, t: string, p: string, v: string)
    requires |p| > 0 && p[0] !in a
    ensures Replace(a + t, p, v) == a + Replace(t, p, v)
    decreases |a|
  {
    if a == [] {
      assert a + t == t;
    } else {
      var s := a + t;
      if |s| < |p| {
        assert |t| < |p|;
      } else {
        assert s[..|p|][0] == a[0] != p[0];
        assert s[1..] == a[1..] + t;
        assert p[0] !in a[1..];
        ReplaceSkipsPrefix(a[1..], t, p, v);
        assert a == [a[0]] + a[1..];
      }
    }
  }

  /** A leading occurrence of `p` is replaced by `v`. */
  lemma ReplaceLeading(p: string, t: string, v: string)
    requires |p| > 0
    ensures Replace(p + t, p, v) == v + Replace(t, p, v)
  {
    assert (p + t)[..|p|] == p;
    assert (p + t)[|p|..] == t;
  }

  /** `sep.join(parts)` */
  function Join(sep: string, parts: seq<string>): string {
    if |parts| == 0 then ""
    else if |parts| == 1 then parts[0]
    else parts[0] + sep + Join(sep, parts[1..])
  }

  /** `s.split(sep)` for a one-character separator; `"".split(";")` is `[""]`. */
  function Split(s: string, sep: char): (r: seq<string>)
    ensures |r| >= 1
    ensures forall i :: 0 <= i < |r| ==> sep !in r[i]
  {
    if s == [] then [[]]
    else if s[0] == sep then [[]] + Split(s[1..], sep)
    else
      var rest := Split(s[1..], sep);
      [[s[0]] + rest[0]] + rest[1..]
  }

  /** Splitting and joining back with the same separator gives the original text. */
  lemma {:induction false} JoinSplit(s: string, sep: char)
    ensures Join([sep], Split(s, sep)) == s
  {
    if s != [] {
      var rest := Split(s[1..], sep);
      JoinSplit(s[1..], sep);
      if s[0] == sep {
        assert Split(s, sep) == [[]] + rest;
        assert s == [] + [sep] + s[1..];
      } else {
        var r := Split(s, sep);
        assert r == [[s[0]] + rest[0]] + rest[1..];
        if |rest| == 1 {
          assert Join([sep], r) == [s[0]] + rest[0];
        } else {
          assert r[1..] == rest[1..];
          assert Join([sep], r) == [s[0]] + rest[0] + [sep] + Join([sep], rest[1..]);
        }
      }
    }
  }

  predicate IsDigit(c: char) {
    '0' <= c <= '9'
  }

  /** The digits of a Python integer literal: digits with single underscores
      between them (`1_000`), not starting or ending with `_`. */
  predicate DigitRun(s: string) {
    && |s| > 0 && IsDigit(s[0]) && IsDigit(s[|s| - 1])
    && (forall i :: 0 <= i < |s| ==> IsDigit(s[i]) || s[i] == '_')
    && (forall i :: 0 <= i < |s| - 1 ==> !DoubleUnderscoreAt(s, i))
  }

  /** Two underscores in a row at `i`. */
  predicate DoubleUnderscoreAt(s: string, i: nat)
    requires i + 1 < |s|
  {
    s[i] == '_' && s[i + 1] == '_'
  }

  /** The value of a digit run, reading left to right and skipping underscores. */
  function DigitsValue(s: string): nat
    requires forall i :: 0 <= i < |s| ==> IsDigit(s[i]) || s[i] == '_'
  {
    if s == [] then 0
    else
      var last := s[|s| - 1];
      assert IsDigit(last) || last == '_';
      if last == '_' then DigitsValue(s[..|s| - 1])
      else 10 * DigitsValue(s[..|s| - 1]) + (last as int - '0' as int)
  }

  /** `int(s)` on a string: surrounding whitespace, an optional sign, then a
      digit run; anything else raises, which is `None` here. */
  function ParseInt(s: string): Option<int> {
    var t := Strip(s);
    if |t| > 0 && (t[0] == '+' || t[0] == '-') then
      if DigitRun(t[1..]) then
        var n: int := DigitsValue(t[1..]);
        Some(if t[0] == '-' then -n else n)
      else None
    else if DigitRun(t) then Some(DigitsValue(t))
    else None
  }

  /** `str(n)` for a natural number. */
  function Decimal(n: nat): (r: string)
    ensures |r| > 0 && forall i :: 0 <= i < |r| ==> IsDigit(r[i])
  {
    var d := [('0' as int + n % 10) as char];
    if n < 10 then d else Decimal(n / 10) + d
  }

  /** A plain digit string parses as its value. */
  lemma ParseDigits(s: string)
    requires |s| > 0 && forall i :: 0 <= i < |s| ==> IsDigit(s[i])
    ensures ParseInt(s) == Some(DigitsValue(s))
  {
    StripUnpadded(s);
    assert Strip(s) == s;
    assert IsDigit(s[0]) && IsDigit(s[|s| - 1]);
    assert !(s[0] == '+' || s[0] == '-');
    assert DigitRun(s);
  }

  /** `int(str(n)) == n`. */
  lemma ParseDecimal(n: nat)
    ensures ParseInt(Decimal(n)) == Some(n)
  {
    ParseDigits(Decimal(n));
    DecimalValue(n);
  }

  lemma {:induction false} DecimalValue(n: nat)
    ensures DigitsValue(Decimal(n)) == n
  {
    if n >= 10 {
      var s := Decimal(n);
      DecimalValue(n / 10);
      assert s[..|s| - 1] == Decimal(n / 10);
    }
  }
}
