/**
  The two Go library string functions the plugin relies on: the `%03d`
  verb of `fmt.Sprintf` for a non-negative integer, and `path.Base`.
 */
module Format {

  predicate IsDigit(c: char) {
    '0' <= c <= '9'
  }

  predicate AllDigits(s: string) {
    forall i :: 0 <= i < |s| ==> IsDigit(s[i])
  }

  function DigitChar(d: nat): (c: char)
    requires d < 10
    ensures IsDigit(c)
  {
    ('0' as int + d) as char
  }

  function DigitValue(c: char): (d: nat)
    requires IsDigit(c)
    ensures d < 10 && DigitChar(d) == c
  {
    c as int - '0' as int
  }

  /** The decimal digits of `n`, most significant first, without leading zeros. */
  function Decimal(n: nat): string
    decreases n
  {
    if n < 10 then [DigitChar(n)] else Decimal(n / 10) + [DigitChar(n % 10)]
  }

  /** The number a string of decimal digits denotes (leading zeros allowed). */
  function DecimalValue(s: string): nat
    requires AllDigits(s)
  {
    if s == [] then 0 else DecimalValue(s[..|s| - 1]) * 10 + DigitValue(s[|s| - 1])
  }

  /** Left-pads `s` with '0' up to `width` characters. */
  function ZeroPad(s: string, width: nat): string
    decreases width - |s|
  {
    if |s| >= width then s else ZeroPad("0" + s, width)
  }

  /** `fmt.Sprintf("%03d", n)` for `n >= 0`. */
  function Format03d(n: nat): string {
    ZeroPad(Decimal(n), 3)
  }

  lemma {:induction false} DecimalRoundTrip(n: nat)
    ensures AllDigits(Decimal(n)) && DecimalValue(Decimal(n)) == n
    decreases n
  {
    if n >= 10 {
      DecimalRoundTrip(n / 10);
      var s := Decimal(n);
      assert s[..|s| - 1] == Decimal(n / 10);
    }
  }

  /** A leading zero does not change the value of a digit string. */
  lemma {:induction false} LeadingZero(s: string)
    requires AllDigits(s)
    ensures AllDigits("0" + s) && DecimalValue("0" + s) == DecimalValue(s)
    decreases |s|
  {
    var t := "0" + s;
    if s != [] {
      LeadingZero(s[..|s| - 1]);
      assert t[..|t| - 1] == "0" + s[..|s| - 1];
    } else {
      assert t[..|t| - 1] == [];
    }
  }

  lemma {:induction false} ZeroPadKeepsValue(s: string, width: nat)
    requires AllDigits(s)
    ensures AllDigits(ZeroPad(s, width))
    ensures DecimalValue(ZeroPad(s, width)) == DecimalValue(s)
    ensures |ZeroPad(s, width)| == if |s| >= width then |s| else width
    decreases width - |s|
  {
    if |s| < width {
      LeadingZero(s);
      ZeroPadKeepsValue("0" + s, width);
    }
  }

  /** Reading back a `%03d` rendering yields the number: the format is injective. */
  lemma Format03dRoundTrip(n: nat)
    ensures AllDigits(Format03d(n)) && DecimalValue(Format03d(n)) == n
  {
    DecimalRoundTrip(n);
    ZeroPadKeepsValue(Decimal(n), 3);
  }

  /** Below 1000, `%03d` is exactly three digits: hundreds, tens, units. */
  lemma Format03dBelowThousand(n: nat)
    requires n < 1000
    ensures Format03d(n) == [DigitChar(n / 100), DigitChar(n / 10 % 10), DigitChar(n % 10)]
  {
    if n < 10 {
      assert Decimal(n) == [DigitChar(n)];
      assert ZeroPad([DigitChar(n)], 3) == ZeroPad("0" + [DigitChar(n)], 3);
      assert ZeroPad("0" + [DigitChar(n)], 3) == ZeroPad("00" + [DigitChar(n)], 3);
    } else if n < 100 {
      assert Decimal(n / 10) == [DigitChar(n / 10)];
      assert Decimal(n) == [DigitChar(n / 10), DigitChar(n % 10)];
      assert ZeroPad(Decimal(n), 3) == ZeroPad("0" + Decimal(n), 3);
    } else {
      var q := n / 10;
      assert 10 <= q < 100 && q / 10 == n / 100;
      assert Decimal(q / 10) == [DigitChar(n / 100)];
      assert Decimal(q) == [DigitChar(n / 100), DigitChar(q % 10)];
      assert Decimal(n) == [DigitChar(n / 100), DigitChar(n / 10 % 10), DigitChar(n % 10)];
    }
  }

  /** Drops every '/' at the end of `p`. */
  function TrimTrailingSlashes(p: string): (t: string)
    ensures |t| <= |p| && t == p[..|t|]
    ensures forall i :: |t| <= i < |p| ==> p[i] == '/'
    ensures t == [] || t[|t| - 1] != '/'
    decreases |p|
  {
    if |p| > 0 && p[|p| - 1] == '/' then TrimTrailingSlashes(p[..|p| - 1]) else p
  }

  /** The index of the last `c` in `s`, or -1 when there is none. */
  function LastIndex(s: string, c: char): (i: int)
    ensures -1 <= i < |s|
    ensures i >= 0 ==> s[i] == c
    ensures forall j :: i < j < |s| ==> s[j] != c
    decreases |s|
  {
    if s == [] then -1
    else if s[|s| - 1] == c then |s| - 1
    else LastIndex(s[..|s| - 1], c)
  }

  /** Go's `path.Base`: the last element of a slash-separated path, trailing
      slashes ignored; "." for the empty path and "/" for a path of slashes. */
  function Base(p: string): (b: string)
    ensures b != []
    ensures '/' in b ==> b == "/"
  {
    if p == [] then "."
    else
      var t := TrimTrailingSlashes(p);
      var i := LastIndex(t, '/');
      var e := if i >= 0 then t[i + 1..] else t;
      if e == [] then "/" else e
  }

  /** A directory that is empty or ends with a separator. */
  predicate IsDirectoryPrefix(dir: string) {
    dir == [] || dir[|dir| - 1] == '/'
  }

  /** The base of a file name placed in a directory is the file name. */
  lemma BaseOfFileInDirectory(dir: string, name: string)
    requires IsDirectoryPrefix(dir)
    requires name != [] && '/' !in name
    ensures Base(dir + name) == name
  {
    var p := dir + name;
    assert p[|p| - 1] == name[|name| - 1];
    assert TrimTrailingSlashes(p) == p;
    var i := LastIndex(p, '/');
    forall j | |dir| <= j < |p|
      ensures p[j] != '/'
    {
      assert p[j] == name[j - |dir|];
    }
    if dir == [] {
      assert i == -1;
    } else {
      assert p[|dir| - 1] == '/';
      assert i == |dir| - 1;
      assert p[i + 1..] == name;
    }
  }
}
