/**
  The cache's file names: Swift's string interpolation `"\(dayId)_\(pageNumber)"`
  writes each `Int` in decimal, with a leading `-` when it is negative.
 */
module FileNames {

  predicate IsDigit(c: char) {
    '0' <= c <= '9'
  }

  function DigitChar(d: nat): (c: char)
    requires d < 10
    ensures IsDigit(c)
  {
    (48 + d) as char
  }

  /** The decimal digits of `n`, most significant first, without leading zeros. */
  function NatToString(n: nat): (r: string)
    ensures |r| >= 1
    ensures |r| == 1 <==> n < 10
    ensures forall i :: 0 <= i < |r| ==> IsDigit(r[i])
  {
    if n < 10 then [DigitChar(n)] else NatToString(n / 10) + [DigitChar(n % 10)]
  }

  /** `"\(n)"` for an `Int`. */
  function IntToString(n: int): (r: string)
    ensures forall i :: 0 <= i < |r| ==> IsDigit(r[i]) || (i == 0 && r[i] == '-')
    ensures |r| >= 1 && (r[0] == '-' <==> n < 0)
  {
    if n < 0 then "-" + NatToString(-n) else NatToString(n)
  }

  /**
    `"\(dayId)_\(pageNumber)"`, the last path component of a cache entry. The name holds
    exactly one `_`: before it the day in decimal, after it the page in decimal, and no
    `/`, so the name stays one path component.
   */
  function CacheFileName(dayId: int, pageNumber: int): (r: string)
    ensures var k := |IntToString(dayId)|;
      k < |r| && r[k] == '_' && r[..k] == IntToString(dayId) && r[k + 1..] == IntToString(pageNumber)
    ensures forall i :: 0 <= i < |r| && r[i] == '_' ==> i == |IntToString(dayId)|
    ensures forall i :: 0 <= i < |r| ==> r[i] != '/'
  {
    var x, y := IntToString(dayId), IntToString(pageNumber);
    var r := x + "_" + y;
    assert forall i :: 0 <= i < |x| ==> r[i] == x[i];
    assert forall i :: |x| < i < |r| ==> r[i] == y[i - |x| - 1];
    r
  }

  lemma {:induction false} NatToStringInjective(a: nat, b: nat)
    requires NatToString(a) == NatToString(b)
    ensures a == b
  {
    if a >= 10 && b >= 10 {
      var sa, sb := NatToString(a), NatToString(b);
      assert sa[..|sa| - 1] == NatToString(a / 10);
      assert sb[..|sb| - 1] == NatToString(b / 10);
      NatToStringInjective(a / 10, b / 10);
      assert DigitChar(a % 10) == sa[|sa| - 1] == sb[|sb| - 1] == DigitChar(b % 10);
    }
  }

  lemma IntToStringInjective(a: int, b: int)
    requires IntToString(a) == IntToString(b)
    ensures a == b
  {
    var sa, sb := IntToString(a), IntToString(b);
    if a < 0 {
      assert sa[1..] == NatToString(-a) && sb[1..] == NatToString(-b);
      NatToStringInjective(-a, -b);
    } else {
      NatToStringInjective(a, b);
    }
  }

  /** The position of the first `c` in `s`, or `|s|` when there is none. */
  function FirstIndexOf(s: string, c: char): (k: nat)
    ensures k <= |s|
  {
    if s == [] then 0 else if s[0] == c then 0 else 1 + FirstIndexOf(s[1..], c)
  }

  lemma {:induction false} SeparatorPosition(x: string, y: string, c: char)
    requires forall i :: 0 <= i < |x| ==> x[i] != c
    ensures FirstIndexOf(x + [c] + y, c) == |x|
  {
    if x != [] {
      assert (x + [c] + y)[1..] == x[1..] + [c] + y;
      SeparatorPosition(x[1..], y, c);
    }
  }

  /** Distinct `(dayId, pageNumber)` keys never share a cache file. */
  lemma CacheFileNameInjective(d1: int, p1: int, d2: int, p2: int)
    requires CacheFileName(d1, p1) == CacheFileName(d2, p2)
    ensures d1 == d2 && p1 == p2
  {
    var x1, x2 := IntToString(d1), IntToString(d2);
    var name := CacheFileName(d1, p1);
    assert name == CacheFileName(d2, p2);
    SeparatorPosition(x1, IntToString(p1), '_');
    SeparatorPosition(x2, IntToString(p2), '_');
    assert x1 == name[..|x1|] == x2;
    IntToStringInjective(d1, d2);
    assert IntToString(p1) == name[|x1| + 1..] == IntToString(p2);
    IntToStringInjective(p1, p2);
  }
}
