/**
 * The few `java.lang.String` operations the client relies on, written out
 * over `seq<char>`: `trim`, `indexOf`, `split(sep, 2)`, the decimal form of
 * an `int`, "non-null and non-empty", and appending lines to a StringBuilder.
 */
module JavaString {
  import opened Wrappers

  /** `String.trim()` removes every leading and trailing char whose code is at most U+0020. */
  predicate IsTrimmable(c: char) {
    c <= ' '
  }

  /** The first position at or after `i` whose char is not trimmable, or `|s|`:
      `trim`'s forward scan. */
  function SkipLeading(s: string, i: nat): (j: nat)
    requires i <= |s|
    ensures i <= j <= |s|
    ensures forall k :: i <= k < j ==> IsTrimmable(s[k])
    ensures j < |s| ==> !IsTrimmable(s[j])
    decreases |s| - i
  {
    if i < |s| && IsTrimmable(s[i]) then SkipLeading(s, i + 1) else i
  }

  /** The end, at most `j` and at least `lo`, after dropping the trimmable chars
      before `j`: `trim`'s backward scan, which stops at the start position. */
  function SkipTrailing(s: string, lo: nat, j: nat): (n: nat)
    requires lo <= j <= |s|
    ensures lo <= n <= j
    ensures forall k :: n <= k < j ==> IsTrimmable(s[k])
    ensures n > lo ==> !IsTrimmable(s[n - 1])
    ensures lo < j && !IsTrimmable(s[lo]) ==> n > lo
    decreases j
  {
    if lo < j && IsTrimmable(s[j - 1]) then SkipTrailing(s, lo, j - 1) else j
  }

  /** `s.trim()`: the slice between the two scans. */
  function Trim(s: string): (r: string)
    ensures exists i, j :: 0 <= i <= j <= |s| && r == s[i..j]
                           && (forall k :: 0 <= k < i ==> IsTrimmable(s[k]))
                           && (forall k :: j <= k < |s| ==> IsTrimmable(s[k]))
    ensures r == "" <==> forall k :: 0 <= k < |s| ==> IsTrimmable(s[k])
    ensures r != "" ==> !IsTrimmable(r[0]) && !IsTrimmable(r[|r| - 1])
    ensures s != "" && !IsTrimmable(s[0]) ==> r != "" && r[0] == s[0]
  {
    var start := SkipLeading(s, 0);
    s[start..SkipTrailing(s, start, |s|)]
  }

  /** After a run of trimmable chars, a char that is not trimmable starts the trim. */
  lemma TrimAfterBlankPrefix(ws: string, t: string)
    requires forall k :: 0 <= k < |ws| ==> IsTrimmable(ws[k])
    requires t != [] && !IsTrimmable(t[0])
    ensures Trim(ws + t) != "" && Trim(ws + t)[0] == t[0]
  {
    var s := ws + t;
    assert s[|ws|] == t[0];
    assert forall k :: 0 <= k < |ws| ==> s[k] == ws[k];
    assert SkipLeading(s, 0) == |ws|;
  }

  /** `s.indexOf(c)`: the first position of `c`, or -1. */
  function IndexOf(s: string, c: char): (r: int)
    ensures -1 <= r < |s|
    ensures r == -1 <==> c !in s
    ensures r >= 0 ==> s[r] == c && c !in s[..r]
  {
    if s == [] then -1
    else if s[0] == c then 0
    else
      var i := IndexOf(s[1..], c);
      assert s[1..][..(if i < 0 then 0 else i)] == s[1..(if i < 0 then 1 else i + 1)];
      if i < 0 then -1 else i + 1
  }

  /** `s.split(sep, 2)` for a separator that is one plain char: at most one
      cut, at the first `sep`; with no `sep` the whole string is the only part. */
  function SplitLimit2(s: string, sep: char): (parts: seq<string>)
    ensures |parts| == 1 || |parts| == 2
    ensures |parts| == 2 <==> sep in s
    ensures |parts| == 1 ==> parts[0] == s
    ensures |parts| == 2 ==> sep !in parts[0] && parts[0] + [sep] + parts[1] == s
  {
    var i := IndexOf(s, sep);
    if i < 0 then [s] else [s[..i], s[i + 1..]]
  }

  /** `x != null && !x.isEmpty()`. */
  predicate IsPresent(x: Option<string>) {
    x.Some? && x.value != ""
  }

  predicate IsDigit(c: char) {
    '0' <= c <= '9'
  }

  function DigitChar(d: nat): (c: char)
    requires d < 10
    ensures IsDigit(c) && c as int - '0' as int == d
  {
    ['0', '1', '2', '3', '4', '5', '6', '7', '8', '9'][d]
  }

  /** Decimal digits of `n`, most significant first, with no leading zero. */
  function Digits(n: nat): (s: string)
    ensures s != [] && forall k :: 0 <= k < |s| ==> IsDigit(s[k])
    ensures |s| > 1 ==> s[0] != '0'
  {
    if n < 10 then [DigitChar(n)] else Digits(n / 10) + [DigitChar(n % 10)]
  }

  /** The value of a string of decimal digits. */
  function DigitsValue(s: string): nat
    requires forall k :: 0 <= k < |s| ==> IsDigit(s[k])
  {
    if s == [] then 0
    else
      var last := s[|s| - 1];
      assert IsDigit(last);
      DigitsValue(s[..|s| - 1]) * 10 + (last as int - '0' as int)
  }

  /** Reading the digits back gives the number: `Digits` loses nothing. */
  lemma {:induction false} DigitsRoundTrip(n: nat)
    ensures DigitsValue(Digits(n)) == n
  {
    if n >= 10 {
      var s := Digits(n);
      assert s[..|s| - 1] == Digits(n / 10);
      DigitsRoundTrip(n / 10);
    }
  }

  /** The text Java's string concatenation writes for an `int`. */
  function IntToString(n: int): string {
    if n < 0 then "-" + Digits(-n) else Digits(n)
  }

  /** Different numbers print differently, so a message carrying
      `IntToString(code)` identifies the code. */
  lemma IntToStringInjective(m: int, n: int)
    requires IntToString(m) == IntToString(n)
    ensures m == n
  {
    IntToStringSign(m);
    IntToStringSign(n);
    if m >= 0 {
      DigitsRoundTrip(m);
      DigitsRoundTrip(n);
    } else {
      assert Digits(-m) == IntToString(m)[1..] == IntToString(n)[1..] == Digits(-n);
      DigitsRoundTrip(-m);
      DigitsRoundTrip(-n);
    }
  }

  /** The text starts with `-` exactly for a negative number. */
  lemma IntToStringSign(n: int)
    ensures IntToString(n) != "" && (IntToString(n)[0] == '-' <==> n < 0)
  {
  }

  /** No decimal text holds a comma. */
  lemma IntToStringHasNoComma(n: int)
    ensures ',' !in IntToString(n)
  {
    var s := IntToString(n);
    assert forall k :: 0 <= k < |s| ==> s[k] != ',';
  }

  /** The first `sep` of `x + q` is the first char of `q` when `x` has none. */
  lemma {:induction false} IndexOfAfterFree(x: string, q: string, sep: char)
    requires sep !in x && q != "" && q[0] == sep
    ensures IndexOf(x + q, sep) == |x|
    decreases |x|
  {
    if x != "" {
      assert (x + q)[0] == x[0] && (x + q)[1..] == x[1..] + q;
      assert sep !in x[1..];
      IndexOfAfterFree(x[1..], q, sep);
    } else {
      assert x + q == q;
    }
  }

  /** Two strings without `sep`, each followed by text starting with `sep`:
      the cut at the first `sep` recovers both parts. */
  lemma CutAtFirst(x: string, q: string, y: string, r: string, sep: char)
    requires x + q == y + r
    requires sep !in x && sep !in y
    requires q != "" && q[0] == sep && r != "" && r[0] == sep
    ensures x == y && q == r
  {
    IndexOfAfterFree(x, q, sep);
    IndexOfAfterFree(y, r, sep);
    assert x == (x + q)[..|x|] == (y + r)[..|y|] == y;
    assert q == (x + q)[|x|..] == (y + r)[|y|..] == r;
  }

  /** The lines appended one after the other to a StringBuilder, without separators. */
  function Concat(lines: seq<string>): string
  {
    if lines == [] then "" else Concat(lines[..|lines| - 1]) + lines[|lines| - 1]
  }
}
