/**
 * String helpers the overlay code relies on implicitly: the decimal
 * rendering of an index inside a template literal, and the way a `class`
 * attribute is read as a list of space-separated class names.
 */
module Text {

  predicate IsDigit(c: char) {
    '0' <= c <= '9'
  }

  function DigitChar(d: nat): (c: char)
    requires d < 10
    ensures IsDigit(c) && (c as int) - ('0' as int) == d
  {
    (('0' as int) + d) as char
  }

  /** `${n}` for a non-negative integer: its decimal digits, no leading zero. */
  function Decimal(n: nat): (s: string)
    ensures |s| > 0
    ensures forall i :: 0 <= i < |s| ==> IsDigit(s[i])
    ensures n > 0 ==> s[0] != '0'
  {
    if n < 10 then [DigitChar(n)] else Decimal(n / 10) + [DigitChar(n % 10)]
  }

  /** The number a string of decimal digits denotes (the partner of Decimal). */
  function DecimalValue(s: string): nat
    requires forall i :: 0 <= i < |s| ==> IsDigit(s[i])
  {
    if s == [] then 0
    else DecimalValue(s[..|s| - 1]) * 10 + DigitValue(s[|s| - 1])
  }

  function DigitValue(c: char): (d: nat)
    requires IsDigit(c)
    ensures d < 10
  {
    (c as int) - ('0' as int)
  }

  /** Reading back the decimal rendering of n gives n. */
  lemma {:induction false} DecimalRoundTrip(n: nat)
    ensures DecimalValue(Decimal(n)) == n
  {
    if n >= 10 {
      var s := Decimal(n);
      assert s[..|s| - 1] == Decimal(n / 10);
      DecimalRoundTrip(n / 10);
    }
  }

  /** Distinct indices render to distinct strings. */
  lemma DecimalInjective(a: nat, b: nat)
    ensures Decimal(a) == Decimal(b) <==> a == b
  {
    DecimalRoundTrip(a);
    DecimalRoundTrip(b);
  }

  /** Position of the first occurrence of c in s. */
  function FirstIndexOf(s: string, c: char): (k: nat)
    requires c in s
    ensures k < |s| && s[k] == c && c !in s[..k]
  {
    if s[0] == c then 0
    else
      var k' := FirstIndexOf(s[1..], c);
      assert s[..k' + 1] == [s[0]] + s[1..][..k'];
      k' + 1
  }

  /**
   * The pieces of s between single spaces. A browser splits a class
   * attribute on any ASCII whitespace; only the single space, the one
   * separator the class strings here use, is modelled.
   */
  function SplitSpaces(s: string): (parts: seq<string>)
    ensures |parts| > 0
    decreases |s|
  {
    if ' ' !in s then [s]
    else
      var k := FirstIndexOf(s, ' ');
      [s[..k]] + SplitSpaces(s[k + 1..])
  }

  /** The set of class names an element with attribute `class="s"` carries. */
  function ClassList(s: string): set<string> {
    set p | p in SplitSpaces(s) && p != ""
  }

  /** Joining a space-free name in front of a class attribute adds exactly that name. */
  lemma SplitAfterName(a: string, b: string)
    requires ' ' !in a
    ensures SplitSpaces(a + " " + b) == [a] + SplitSpaces(b)
  {
    var s := a + " " + b;
    var k := FirstIndexOf(s, ' ');
    assert s[|a|] == ' ';
    assert forall i :: 0 <= i < |a| ==> s[i] == a[i];
    assert s[..k] == a;
    assert s[k + 1..] == b;
  }

  /** A class attribute made of two space-free names carries exactly those two. */
  lemma {:induction false} TwoClassNames(a: string, b: string)
    requires ' ' !in a && ' ' !in b && a != "" && b != ""
    ensures ClassList(a + " " + b) == {a, b}
  {
    SplitAfterName(a, b);
    assert SplitSpaces(b) == [b];
    assert SplitSpaces(a + " " + b) == [a, b];
  }
}
