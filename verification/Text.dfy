/** Decimal numerals and splitting, as the cron parser and the key builders use
    them. */
module Text {
  import opened Core

  function Digit(d: nat): char
    requires d < 10
  {
    "0123456789"[d]
  }

  predicate IsDigit(c: char) { '0' <= c <= '9' }

  predicate AllDigits(s: string) {
    forall i :: 0 <= i < |s| ==> IsDigit(s[i])
  }

  function Decimal(n: nat): string {
    if n < 10 then [Digit(n)] else Decimal(n / 10) + [Digit(n % 10)]
  }

  function Signed(i: int): string {
    if i < 0 then "-" + Decimal(-i) else Decimal(i)
  }

  /** The value of a string of digits, most significant first. */
  function Value(s: string): nat
    requires AllDigits(s)
  {
    if s == [] then 0 else 10 * Value(s[..|s| - 1]) + (s[|s| - 1] - '0') as nat
  }

  lemma {:induction false} DecimalRoundTrip(n: nat)
    ensures Decimal(n) != [] && AllDigits(Decimal(n)) && Value(Decimal(n)) == n
  {
    if n < 10 {
      assert [Digit(n)][..0] == [];
      assert Digit(n) - '0' == n as char;
    } else {
      DecimalRoundTrip(n / 10);
      var s := Decimal(n);
      assert s[..|s| - 1] == Decimal(n / 10);
      assert Digit(n % 10) - '0' == (n % 10) as char;
    }
  }

  predicate Lacks(s: string, c: char) {
    forall i :: 0 <= i < |s| ==> s[i] != c
  }

  lemma SignedLacks(i: int, c: char)
    requires !IsDigit(c) && c != '-'
    ensures Signed(i) != [] && Lacks(Signed(i), c)
  {
    DecimalRoundTrip(if i < 0 then -i else i);
  }

  lemma SignedInjective(i: int, j: int)
    requires Signed(i) == Signed(j)
    ensures i == j
  {
    var m, n := if i < 0 then -i else i, if j < 0 then -j else j;
    DecimalRoundTrip(m);
    DecimalRoundTrip(n);
    assert IsDigit(Decimal(m)[0]) && IsDigit(Decimal(n)[0]);
    assert i < 0 <==> Signed(i)[0] == '-';
    if i < 0 {
      assert Signed(i)[1..] == Decimal(m) && Signed(j)[1..] == Decimal(n);
    }
  }

  lemma NotShorter(x: string, y: string, x': string, y': string, c: char)
    requires x + [c] + y == x' + [c] + y' && Lacks(y', c)
    ensures |y'| <= |y|
  {
    var s := x + [c] + y;
    assert s[|x|] == c;
    assert forall k :: |x'| < k < |s| ==> s[k] == y'[k - |x'| - 1];
  }

  /** The last separator tells the two parts apart. */
  lemma LastPart(x: string, y: string, x': string, y': string, c: char)
    requires x + [c] + y == x' + [c] + y' && Lacks(y, c) && Lacks(y', c)
    ensures x == x' && y == y'
  {
    NotShorter(x, y, x', y', c);
    NotShorter(x', y', x, y, c);
    var s := x + [c] + y;
    assert s[..|x|] == x && s[..|x|] == x' && s[|x| + 1..] == y && s[|x| + 1..] == y';
  }

  // ---- splitting -----------------------------------------------------------------

  /** Position of the first `c`, or the length. */
  function Find(s: string, c: char): (k: nat)
    ensures k <= |s| && Lacks(s[..k], c) && (k < |s| ==> s[k] == c)
  {
    if s == [] then 0 else if s[0] == c then 0
    else
      var k := Find(s[1..], c) + 1;
      assert s[..k] == [s[0]] + s[1..][..k - 1];
      k
  }

  lemma FindAfter(p: string, c: char, rest: string)
    requires Lacks(p, c)
    ensures Find(p + [c] + rest, c) == |p|
  {
    if p != [] {
      assert (p + [c] + rest)[1..] == p[1..] + [c] + rest;
      FindAfter(p[1..], c, rest);
    }
  }

  lemma FindNone(s: string, c: char)
    requires Lacks(s, c)
    ensures Find(s, c) == |s|
  {
  }

  /** All the pieces between separators; the empty string is one empty piece. */
  function Split(s: string, c: char): seq<string>
    decreases |s|
  {
    var k := Find(s, c);
    if k == |s| then [s] else [s[..k]] + Split(s[k + 1..], c)
  }

  function Join(parts: seq<string>, c: char): string {
    if parts == [] then "" else if |parts| == 1 then parts[0] else parts[0] + [c] + Join(parts[1..], c)
  }

  lemma {:induction false} SplitJoin(parts: seq<string>, c: char)
    requires parts != [] && forall i :: 0 <= i < |parts| ==> Lacks(parts[i], c)
    ensures Split(Join(parts, c), c) == parts
    decreases |parts|
  {
    if |parts| == 1 {
      FindNone(parts[0], c);
    } else {
      var rest := Join(parts[1..], c);
      FindAfter(parts[0], c, rest);
      var s := Join(parts, c);
      assert s[..|parts[0]|] == parts[0] && s[|parts[0]| + 1..] == rest;
      SplitJoin(parts[1..], c);
    }
  }
}
