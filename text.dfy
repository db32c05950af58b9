/** String helpers shared by the model: the decimal text JavaScript gives an integer
    number in a template literal, list joining, and ASCII upper-casing. */
module Text {

  predicate IsDigit(c: char) {
    '0' <= c <= '9'
  }

  predicate AllDigits(s: string) {
    forall i :: 0 <= i < |s| ==> IsDigit(s[i])
  }

  function DigitChar(d: nat): (c: char)
    requires d < 10
    ensures IsDigit(c) && c as int - '0' as int == d
  {
    ('0' as int + d) as char
  }

  /** Decimal text of a natural number, as `${n}` renders an integral number. */
  function NatText(n: nat): (s: string)
    ensures |s| > 0 && AllDigits(s)
    ensures s[0] == '0' ==> s == "0" && n == 0
    decreases n
  {
    if n < 10 then [DigitChar(n)] else NatText(n / 10) + [DigitChar(n % 10)]
  }

  /** The number a string of decimal digits denotes. */
  function DigitsValue(s: string): nat
    requires AllDigits(s)
  {
    if s == [] then 0 else DigitsValue(s[..|s| - 1]) * 10 + (s[|s| - 1] as int - '0' as int)
  }

  /** Reading the decimal text back gives the number. */
  lemma {:induction false} NatTextRoundTrip(n: nat)
    ensures DigitsValue(NatText(n)) == n
    decreases n
  {
    if n >= 10 {
      NatTextRoundTrip(n / 10);
      var s := NatText(n);
      assert s[..|s| - 1] == NatText(n / 10);
    }
  }

  /** Distinct numbers have distinct decimal texts. */
  lemma NatTextInjective(m: nat, n: nat)
    ensures NatText(m) == NatText(n) ==> m == n
  {
    NatTextRoundTrip(m);
    NatTextRoundTrip(n);
  }

  /** Decimal text of an integer, with a leading '-' when negative. */
  function IntText(i: int): (s: string)
    ensures |s| > 0
    ensures i >= 0 <==> s[0] != '-'
  {
    if i < 0 then "-" + NatText(-i) else NatText(i)
  }

  /** `xs.join(sep)`: the items in order with `sep` between neighbours. */
  function Join(xs: seq<string>, sep: string): string
  {
    if |xs| == 0 then ""
    else if |xs| == 1 then xs[0]
    else Join(xs[..|xs| - 1], sep) + sep + xs[|xs| - 1]
  }

  /** The items in order, each followed by `sep`: what a loop appending item and separator builds. */
  function Terminated(xs: seq<string>, sep: string): string
  {
    if |xs| == 0 then "" else Terminated(xs[..|xs| - 1], sep) + xs[|xs| - 1] + sep
  }

  /** Terminating every item is joining them and adding one trailing separator. */
  lemma {:induction false} TerminatedIsJoinPlusSep(xs: seq<string>, sep: string)
    requires |xs| > 0
    ensures Terminated(xs, sep) == Join(xs, sep) + sep
    decreases |xs|
  {
    if |xs| > 1 {
      TerminatedIsJoinPlusSep(xs[..|xs| - 1], sep);
      assert xs[..|xs| - 1][..|xs| - 2] == xs[..|xs| - 2];
    }
  }

  /** Extending the list by its next item extends the terminated text by that item. */
  lemma TerminatedSnoc(xs: seq<string>, i: nat, sep: string)
    requires i < |xs|
    ensures Terminated(xs[..i + 1], sep) == Terminated(xs[..i], sep) + xs[i] + sep
  {
    assert xs[..i + 1][..i] == xs[..i];
  }

  function UpperChar(c: char): char {
    if 'a' <= c <= 'z' then (c as int - 32) as char else c
  }

  /** `String.prototype.toUpperCase` restricted to the ASCII letters. */
  function Upper(s: string): (r: string)
    ensures |r| == |s|
    ensures forall i :: 0 <= i < |s| ==> r[i] == UpperChar(s[i])
  {
    seq(|s|, i requires 0 <= i < |s| => UpperChar(s[i]))
  }
}
