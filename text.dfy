// String helpers shared by the identifier, query and file-name builders:
// decimal rendering, zero padding, character removal and joining.
module Text {

  /** The decimal digit character for d. */
  function Digit(d: nat): (c: char)
    requires d < 10
    ensures '0' <= c <= '9' && c as int - '0' as int == d
  {
    (48 + d) as char
  }

  predicate IsDigits(s: string) {
    forall i :: 0 <= i < |s| ==> '0' <= s[i] <= '9'
  }

  /** Decimal rendering of a natural number, without leading zeros (Python's str(n)). */
  function NatStr(n: nat): (s: string)
    ensures 1 <= |s| && IsDigits(s)
    ensures |s| == 1 <==> n < 10
    ensures s[0] == '0' ==> n == 0
    decreases n
  {
    if n < 10 then [Digit(n)] else NatStr(n / 10) + [Digit(n % 10)]
  }

  /** The number a string of decimal digits denotes (leading zeros allowed). */
  function DigitsValue(s: string): nat
    requires IsDigits(s)
  {
    if s == [] then 0
    else DigitsValue(s[..|s| - 1]) * 10 + (s[|s| - 1] as int - '0' as int)
  }

  lemma {:induction false} NatStrValue(n: nat)
    ensures DigitsValue(NatStr(n)) == n
    decreases n
  {
    if n >= 10 {
      var s := NatStr(n);
      assert s[..|s| - 1] == NatStr(n / 10);
      NatStrValue(n / 10);
    }
  }

  /** Distinct numbers have distinct decimal renderings. */
  lemma {:induction false} NatStrInjective(m: nat, n: nat)
    requires NatStr(m) == NatStr(n)
    ensures m == n
  {
    NatStrValue(m);
    NatStrValue(n);
  }

  lemma {:induction false} LeadingZeroValue(s: string)
    requires IsDigits(s)
    ensures IsDigits("0" + s) && DigitsValue("0" + s) == DigitsValue(s)
    decreases |s|
  {
    var t := "0" + s;
    if s != [] {
      assert t[..|t| - 1] == "0" + s[..|s| - 1];
      LeadingZeroValue(s[..|s| - 1]);
    }
  }

  function Zeros(k: nat): (z: string)
    ensures |z| == k && IsDigits(z)
  {
    seq(k, _ => '0')
  }

  lemma {:induction false} ZerosValue(k: nat, s: string)
    requires IsDigits(s)
    ensures IsDigits(Zeros(k) + s) && DigitsValue(Zeros(k) + s) == DigitsValue(s)
    decreases k
  {
    if k > 0 {
      var rest := Zeros(k - 1) + s;
      assert Zeros(k) == "0" + Zeros(k - 1);
      assert Zeros(k) + s == "0" + rest;
      ZerosValue(k - 1, s);
      LeadingZeroValue(rest);
    } else {
      assert Zeros(k) + s == s;
    }
  }

  /** n in decimal, left-padded with zeros to at least w characters (strftime's %Y, %m, %d, ...). */
  function ZeroPad(n: nat, w: nat): (s: string)
    ensures IsDigits(s)
    ensures |s| == if |NatStr(n)| >= w then |NatStr(n)| else w
  {
    var d := NatStr(n);
    if |d| >= w then d else Zeros(w - |d|) + d
  }

  /** Zero padding never changes the number denoted, so padded renderings can be read back. */
  lemma {:induction false} ZeroPadValue(n: nat, w: nat)
    ensures DigitsValue(ZeroPad(n, w)) == n
  {
    var d := NatStr(n);
    var z := ZeroPad(n, w);
    NatStrValue(n);
    if |d| < w {
      var k := w - |d|;
      ZerosValue(k, d);
      assert z == Zeros(k) + d;
      assert DigitsValue(z) == DigitsValue(d);
    } else {
      assert z == d;
    }
  }

  /** A two-digit padding of a number below 100 is exactly two characters long. */
  lemma {:induction false} ZeroPadTwo(n: nat)
    requires n < 100
    ensures |ZeroPad(n, 2)| == 2
  {
    if n >= 10 {
      assert NatStr(n) == NatStr(n / 10) + [Digit(n % 10)];
      assert |NatStr(n / 10)| == 1;
    }
  }

  /** s with every occurrence of c removed (Python's s.replace(c, "")). */
  function Remove(s: string, c: char): (r: string)
    ensures c !in r
    ensures |r| <= |s|
    ensures forall x :: x in r ==> x in s
  {
    if s == [] then []
    else if s[0] == c then Remove(s[1..], c)
    else [s[0]] + Remove(s[1..], c)
  }

  /** Removing a character that does not occur changes nothing. */
  lemma {:induction false} RemoveAbsent(s: string, c: char)
    requires c !in s
    ensures Remove(s, c) == s
  {
    if s != [] {
      assert c !in s[1..];
      RemoveAbsent(s[1..], c);
    }
  }

  lemma {:induction false} RemoveAppend(s: string, t: string, c: char)
    ensures Remove(s + t, c) == Remove(s, c) + Remove(t, c)
  {
    if s != [] {
      assert (s + t)[1..] == s[1..] + t;
      RemoveAppend(s[1..], t, c);
    } else {
      assert s + t == t;
    }
  }

  /** The items joined with sep between consecutive ones (Python's sep.join(items)). */
  function JoinWith(sep: string, items: seq<string>): string
  {
    if items == [] then ""
    else if |items| == 1 then items[0]
    else JoinWith(sep, items[..|items| - 1]) + sep + items[|items| - 1]
  }

  predicate IsPrefix(p: string, s: string) {
    |p| <= |s| && s[..|p|] == p
  }

  predicate IsSuffix(p: string, s: string) {
    |p| <= |s| && s[|s| - |p|..] == p
  }
}
