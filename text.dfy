/**
 * The text building blocks the renderers and the path rules share: decimal
 * rendering of a natural number (Rust's `{}` on an unsigned integer),
 * left padding with '0' to a minimum width (`{:0>w}`, which never
 * truncates), ASCII case mapping, `writeln!`-style line joining and the
 * readers that invert them.
 */
module Text {

  predicate IsDigit(c: char) {
    '0' <= c <= '9'
  }

  predicate AllDigits(s: string) {
    forall i :: 0 <= i < |s| ==> IsDigit(s[i])
  }

  /** No position of `s` holds `c`. */
  predicate Free(s: string, c: char) {
    c !in s
  }

  lemma PaddedDigits(n: nat, w: nat)
    ensures AllDigits(Padded(n, w))
  {
    var d := Decimal(n);
    var r := PadLeft(d, w);
    assert forall i :: |r| - |d| <= i < |r| ==> r[i] == d[i - (|r| - |d|)];
  }

  /** Numbers, padded or not, hold no line break. */
  lemma NumbersSingleLine(n: nat, w: nat)
    ensures Free(Decimal(n), '\n') && Free(Padded(n, w), '\n')
  {
    PaddedDigits(n, w);
  }

  /** Digits hold no character other than a digit. */
  lemma DigitsFree(s: string, c: char)
    requires AllDigits(s) && !IsDigit(c)
    ensures Free(s, c)
  {
  }

  function DigitChar(d: nat): (c: char)
    requires d < 10
    ensures IsDigit(c)
  {
    (48 + d) as char
  }

  function DigitValue(c: char): (d: nat)
    requires IsDigit(c)
    ensures d < 10 && DigitChar(d) == c
  {
    c as int - 48
  }

  function Pow10(k: nat): (p: nat)
    ensures p >= 1
  {
    if k == 0 then 1 else 10 * Pow10(k - 1)
  }

  /** Shortest decimal rendering of `n`: digits only, no leading zero. */
  function Decimal(n: nat): (s: string)
    ensures 1 <= |s| && AllDigits(s)
    ensures |s| > 1 ==> s[0] != '0'
    decreases n
  {
    if n < 10 then [DigitChar(n)] else Decimal(n / 10) + [DigitChar(n % 10)]
  }

  /** The value a string of decimal digits denotes (leading zeros allowed). */
  function ParseDecimal(s: string): nat
    requires AllDigits(s)
  {
    if |s| == 0 then 0 else ParseDecimal(s[..|s| - 1]) * 10 + DigitValue(s[|s| - 1])
  }

  lemma {:induction false} DecimalRoundTrip(n: nat)
    ensures ParseDecimal(Decimal(n)) == n
    decreases n
  {
    if n >= 10 {
      var d := Decimal(n / 10);
      assert Decimal(n) == d + [DigitChar(n % 10)];
      assert Decimal(n)[..|Decimal(n)| - 1] == d;
      DecimalRoundTrip(n / 10);
    }
  }

  lemma Pow10Values()
    ensures Pow10(1) == 10 && Pow10(2) == 100 && Pow10(3) == 1_000 && Pow10(4) == 10_000
    ensures Pow10(5) == 100_000 && Pow10(6) == 1_000_000
  {
    assert Pow10(1) == 10;
    assert Pow10(2) == 100;
    assert Pow10(3) == 1_000;
    assert Pow10(4) == 10_000;
    assert Pow10(5) == 100_000;
  }

  /** Two concatenations with equally long heads agree head to head and tail to tail. */
  lemma SplitEqual<T>(a: seq<T>, b: seq<T>, c: seq<T>, d: seq<T>)
    requires a + b == c + d && |a| == |c|
    ensures a == c && b == d
  {
    assert a == (a + b)[..|a|] && c == (c + d)[..|c|];
    assert b == (a + b)[|a|..] && d == (c + d)[|c|..];
  }

  /** A number below 10^w needs at most w digits. */
  lemma {:induction false} DecimalWidth(n: nat, w: nat)
    requires 1 <= w && n < Pow10(w)
    ensures |Decimal(n)| <= w
    decreases n
  {
    if n >= 10 {
      assert Pow10(1) == 10;
      assert n / 10 < Pow10(w - 1);
      DecimalWidth(n / 10, w - 1);
    }
  }

  function Zeros(k: nat): (z: string)
    ensures |z| == k && AllDigits(z)
  {
    seq(k, _ => '0')
  }

  /** `{:0>w}`: pads on the left with '0' up to width `w`; a longer `s` is kept whole. */
  function PadLeft(s: string, w: nat): (r: string)
    ensures |r| == if |s| < w then w else |s|
    ensures r[|r| - |s|..] == s
    ensures forall i :: 0 <= i < |r| - |s| ==> r[i] == '0'
  {
    if |s| < w then Zeros(w - |s|) + s else s
  }

  /** `{:0>w}` applied to a number. */
  function Padded(n: nat, w: nat): string {
    PadLeft(Decimal(n), w)
  }

  lemma {:induction false} ZerosParse(k: nat)
    ensures ParseDecimal(Zeros(k)) == 0
    decreases k
  {
    if k > 0 {
      assert Zeros(k)[..k - 1] == Zeros(k - 1);
      ZerosParse(k - 1);
    }
  }

  lemma {:induction false} LeadingZerosParse(k: nat, s: string)
    requires AllDigits(s)
    ensures AllDigits(Zeros(k) + s)
    ensures ParseDecimal(Zeros(k) + s) == ParseDecimal(s)
    decreases |s|
  {
    var t := Zeros(k) + s;
    if |s| == 0 {
      assert t == Zeros(k);
      ZerosParse(k);
    } else {
      assert t[..|t| - 1] == Zeros(k) + s[..|s| - 1];
      LeadingZerosParse(k, s[..|s| - 1]);
    }
  }

  /** Zero padding loses nothing: the padded digits still read back as `n`. */
  lemma PaddedDecimalRoundTrip(n: nat, w: nat)
    ensures AllDigits(PadLeft(Decimal(n), w))
    ensures ParseDecimal(PadLeft(Decimal(n), w)) == n
  {
    var d := Decimal(n);
    DecimalRoundTrip(n);
    if |d| < w {
      LeadingZerosParse(w - |d|, d);
    }
  }

  /** A padded field of a number below 10^w is exactly w characters wide. */
  lemma PaddedWidth(n: nat, w: nat)
    requires 1 <= w && n < Pow10(w)
    ensures |PadLeft(Decimal(n), w)| == w
  {
    DecimalWidth(n, w);
  }

  /** Equal padded renderings mean equal numbers. */
  lemma PaddedDecimalInjective(a: nat, b: nat, w: nat)
    requires PadLeft(Decimal(a), w) == PadLeft(Decimal(b), w)
    ensures a == b
  {
    PaddedDecimalRoundTrip(a, w);
    PaddedDecimalRoundTrip(b, w);
  }

  lemma DecimalInjective(a: nat, b: nat)
    requires Decimal(a) == Decimal(b)
    ensures a == b
  {
    DecimalRoundTrip(a);
    DecimalRoundTrip(b);
  }

  function LowerChar(c: char): char {
    if 'A' <= c <= 'Z' then (c as int + 32) as char else c
  }

  function UpperChar(c: char): char {
    if 'a' <= c <= 'z' then (c as int - 32) as char else c
  }

  /** `str::to_lowercase`, restricted to the ASCII letters the tokens use. */
  function Lower(s: string): string {
    seq(|s|, i requires 0 <= i < |s| => LowerChar(s[i]))
  }

  /** `str::to_uppercase`, restricted to the ASCII letters the tokens use. */
  function Upper(s: string): string {
    seq(|s|, i requires 0 <= i < |s| => UpperChar(s[i]))
  }

  /** The text a sequence of `writeln!` calls produces: each line followed by a newline. */
  function JoinLines(ls: seq<string>): string {
    if ls == [] then [] else ls[0] + "\n" + JoinLines(ls[1..])
  }

  lemma {:induction false} JoinLinesSnoc(ls: seq<string>, l: string)
    ensures JoinLines(ls + [l]) == JoinLines(ls) + l + "\n"
    decreases |ls|
  {
    if ls != [] {
      assert (ls + [l])[1..] == ls[1..] + [l];
      JoinLinesSnoc(ls[1..], l);
    } else {
      assert ls + [l] == [l];
    }
  }

  /** Position of the first `c` in `s`, or `|s|` when there is none. */
  function IndexOf(s: string, c: char): (i: nat)
    ensures i <= |s|
    ensures forall j :: 0 <= j < i ==> s[j] != c
    ensures i < |s| ==> s[i] == c
  {
    if |s| == 0 then 0
    else if s[0] == c then 0
    else 1 + IndexOf(s[1..], c)
  }

  lemma IndexOfSeparated(a: string, c: char, b: string)
    requires Free(a, c)
    ensures IndexOf(a + [c] + b, c) == |a|
  {
    var s := a + [c] + b;
    assert s[|a|] == c;
    assert forall j :: 0 <= j < |a| ==> s[j] == a[j];
  }

  lemma IndexOfAbsent(a: string, c: char)
    requires Free(a, c)
    ensures IndexOf(a, c) == |a|
  {
  }

  /** Reads newline-terminated text back into its lines (`str::lines`). */
  function Lines(t: string): seq<string>
    decreases |t|
  {
    if t == [] then []
    else
      var i := IndexOf(t, '\n');
      if i == |t| then [t] else [t[..i]] + Lines(t[i + 1..])
  }

  /** No line holds a line break. */
  predicate SingleLines(ls: seq<string>) {
    forall k :: 0 <= k < |ls| ==> Free(ls[k], '\n')
  }

  /** Reading the lines back gives exactly the lines written, as long as none contains a newline. */
  lemma {:induction false} LinesJoinLines(ls: seq<string>)
    requires SingleLines(ls)
    ensures Lines(JoinLines(ls)) == ls
    decreases |ls|
  {
    if ls != [] {
      var rest := JoinLines(ls[1..]);
      var t := JoinLines(ls);
      assert t == ls[0] + ['\n'] + rest;
      IndexOfSeparated(ls[0], '\n', rest);
      assert t[..|ls[0]|] == ls[0];
      assert t[|ls[0]| + 1..] == rest;
      LinesJoinLines(ls[1..]);
      assert ls == [ls[0]] + ls[1..];
    }
  }

  /** A block of three lines and a blank line reads back as written. */
  lemma LinesOfBlock3(a: string, b: string, c: string)
    requires Free(a, '\n') && Free(b, '\n') && Free(c, '\n')
    ensures Lines(JoinLines([a, b, c, ""])) == [a, b, c, ""]
  {
    LinesJoinLines([a, b, c, ""]);
  }

  /** A block of four lines and a blank line reads back as written. */
  lemma LinesOfBlock4(a: string, b: string, c: string, d: string)
    requires Free(a, '\n') && Free(b, '\n') && Free(c, '\n') && Free(d, '\n')
    ensures Lines(JoinLines([a, b, c, d, ""])) == [a, b, c, d, ""]
  {
    LinesJoinLines([a, b, c, d, ""]);
  }

  /** Splits `s` at every `c` (`str::split`). */
  function Split(s: string, c: char): (parts: seq<string>)
    ensures |parts| >= 1
    decreases |s|
  {
    var i := IndexOf(s, c);
    if i == |s| then [s] else [s[..i]] + Split(s[i + 1..], c)
  }

  lemma SplitSeparated(a: string, c: char, b: string)
    requires Free(a, c)
    ensures Split(a + [c] + b, c) == [a] + Split(b, c)
  {
    var s := a + [c] + b;
    IndexOfSeparated(a, c, b);
    assert s[..|a|] == a;
    assert s[|a| + 1..] == b;
  }
}
