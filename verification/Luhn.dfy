/** Recognition of payment card numbers by the check digit of ISO/IEC 7812-1, Annex B. */
module Luhn {
  import opened Session

  type digit = n: int | 0 <= n < 10

  predicate IsDigit(b: byte) { 48 <= b <= 57 }

  function Digits(s: Bytes): seq<digit> {
    if s == [] then []
    else Digits(s[..|s| - 1]) + if IsDigit(s[|s| - 1]) then [s[|s| - 1] - 48] else []
  }

  function Doubled(d: digit): digit { if 2 * d > 9 then 2 * d - 9 else 2 * d }

  function Weight(d: digit, twice: bool): digit { if twice then Doubled(d) else d }

  /** The standard's definition, from the right: every second digit is doubled. */
  function Sum(ds: seq<digit>, twice: bool): nat {
    if ds == [] then 0 else Weight(ds[|ds| - 1], twice) + Sum(ds[..|ds| - 1], !twice)
  }

  predicate Accepted(ds: seq<digit>) {
    12 <= |ds| <= 19 && Sum(ds, false) % 10 == 0
  }

  /** The loop runs from the left and decides by parity which digits to double. */
  method IsPaymentCardNumber(candidate: Bytes) returns (accepted: bool)
    ensures accepted == Accepted(Digits(candidate))
    ensures accepted ==> 12 <= |Digits(candidate)| <= 19
  {
    var digits: seq<digit> := [];
    for i := 0 to |candidate|
      invariant digits == Digits(candidate[..i])
    {
      assert candidate[..i + 1][..i] == candidate[..i];
      if IsDigit(candidate[i]) {
        digits := digits + [candidate[i] - 48];
      }
    }
    assert candidate[..|candidate|] == candidate;
    if |digits| < 12 || |digits| > 19 { return false; }
    var sum := 0;
    var parity := |digits| % 2;
    for i := 0 to |digits|
      invariant sum == Sum(digits[..i], (i + 1) % 2 == parity)
    {
      var value: int := digits[i];
      if i % 2 == parity {
        value := value * 2;
        if value > 9 {
          value := value - 9;
        }
      }
      OneMoreDigit(digits, i, parity);
      sum := sum + value;
    }
    assert digits[..|digits|] == digits;
    return sum % 10 == 0;
  }

  /** Reading one more digit turns every parity around, and the new digit is doubled at even distance. */
  lemma OneMoreDigit(ds: seq<digit>, i: nat, parity: nat)
    requires i < |ds| && parity < 2
    ensures Sum(ds[..i + 1], (i + 2) % 2 == parity) == Sum(ds[..i], (i + 1) % 2 == parity) + Weight(ds[i], i % 2 == parity)
  {
    assert ds[..i + 1][..i] == ds[..i];
    assert ((i + 2) % 2 == parity) == (i % 2 == parity) == !((i + 1) % 2 == parity);
  }

  lemma {:induction false} DigitsOfConcat(a: Bytes, b: Bytes)
    ensures Digits(a + b) == Digits(a) + Digits(b)
    decreases |b|
  {
    if b == [] {
      assert a + b == a;
    } else {
      assert (a + b)[..|a + b| - 1] == a + b[..|b| - 1];
      DigitsOfConcat(a, b[..|b| - 1]);
    }
  }

  /** Spaces, dashes and anything else between the digits make no difference. */
  lemma SeparatorsAreIgnored(a: Bytes, c: byte, b: Bytes)
    requires !IsDigit(c)
    ensures Digits(a + [c] + b) == Digits(a + b)
  {
    DigitsOfConcat(a + [c], b);
    DigitsOfConcat(a, [c]);
    DigitsOfConcat(a, b);
  }

  predicate TwiceAt(n: nat, i: nat, twice: bool)
    requires i < n
  {
    ((n - 1 - i) % 2 == 0) == twice
  }

  /** Replacing one digit changes the sum by the difference of the two weights. */
  lemma {:induction false} SumOfUpdate(ds: seq<digit>, i: nat, d: digit, twice: bool)
    requires i < |ds|
    ensures var t := TwiceAt(|ds|, i, twice);
            Sum(ds[i := d], twice) == Sum(ds, twice) - Weight(ds[i], t) + Weight(d, t)
    decreases |ds|
  {
    var n := |ds| - 1;
    if i == n {
      assert ds[i := d][..n] == ds[..n];
    } else {
      assert ds[i := d][..n] == ds[..n][i := d];
      SumOfUpdate(ds[..n], i, d, !twice);
      assert TwiceAt(n, i, !twice) == TwiceAt(|ds|, i, twice);
    }
  }

  lemma ShiftedRemainder(x: int, y: int)
    requires x % 10 == 0
    ensures (x + y) % 10 == 0 <==> y % 10 == 0
  {
  }

  /** Every single wrong digit is found. */
  lemma SingleErrorsAreFound(ds: seq<digit>, i: nat, d: digit)
    requires Accepted(ds) && i < |ds| && d != ds[i]
    ensures !Accepted(ds[i := d])
  {
    var t := TwiceAt(|ds|, i, false);
    SumOfUpdate(ds, i, d, false);
    ShiftedRemainder(Sum(ds, false), Weight(d, t) - Weight(ds[i], t));
    WeightGap(ds[i], d, t);
  }

  lemma WeightGap(a: digit, b: digit, t: bool)
    requires a != b
    ensures (Weight(b, t) - Weight(a, t)) % 10 != 0
  {
  }

  /** Swapping two different neighbours goes unnoticed exactly for 0 and 9. */
  lemma TranspositionsAreFound(ds: seq<digit>, i: nat)
    requires Accepted(ds) && i + 1 < |ds| && ds[i] != ds[i + 1]
    ensures Accepted(ds[i := ds[i + 1]][i + 1 := ds[i]]) <==> {ds[i], ds[i + 1]} == {0, 9}
  {
    var a, b := ds[i], ds[i + 1];
    var t := TwiceAt(|ds|, i, false);
    OppositeNeighbours(|ds|, i);
    SumOfUpdate(ds, i, b, false);
    SumOfUpdate(ds[i := b], i + 1, a, false);
    ShiftedRemainder(Sum(ds, false), Weight(b, t) + Weight(a, !t) - Weight(a, t) - Weight(b, !t));
    SwapGap(a, b, t);
  }

  lemma OppositeNeighbours(n: nat, i: nat)
    requires i + 1 < n
    ensures TwiceAt(n, i + 1, false) == !TwiceAt(n, i, false)
  {
  }

  lemma SwapGap(a: digit, b: digit, t: bool)
    requires a != b
    ensures (Weight(b, t) + Weight(a, !t) - Weight(a, t) - Weight(b, !t)) % 10 == 0 <==> {a, b} == {0, 9}
  {
    assert Doubled(a) - a == if a < 5 then a else a - 9;
    assert Doubled(b) - b == if b < 5 then b else b - 9;
    assert -8 <= (Doubled(b) - b) - (Doubled(a) - a) <= 8;
    assert {a, b} == {0, 9} <==> (a == 0 && b == 9) || (a == 9 && b == 0) by {
      if {a, b} == {0, 9} { assert a in {0, 9} && b in {0, 9}; }
    }
  }

  function CheckDigit(prefix: seq<digit>): digit {
    (10 - Sum(prefix, true) % 10) % 10
  }

  /** Every prefix of 11 to 18 digits is completed by exactly one check digit. */
  lemma ExactlyOneCheckDigit(prefix: seq<digit>, d: digit)
    requires 11 <= |prefix| <= 18
    ensures Accepted(prefix + [d]) <==> d == CheckDigit(prefix)
  {
    assert (prefix + [d])[..|prefix|] == prefix;
    assert Sum(prefix + [d], false) == d + Sum(prefix, true);
    Completes(Sum(prefix, true), d);
  }

  lemma Completes(sum: nat, d: digit)
    ensures (d + sum) % 10 == 0 <==> d == (10 - sum % 10) % 10
  {
  }

  /** Doubling takes the sum of the two decimal digits. */
  lemma DoubledIsADigitSum(d: digit)
    ensures Doubled(d) == (2 * d) / 10 + (2 * d) % 10
  {
  }

  /** Digits as ASCII text. */
  function Text(ds: seq<digit>): Bytes
  {
    if ds == [] then [] else
    var last: int := ds[|ds| - 1];
    Text(ds[..|ds| - 1]) + [48 + last]
  }

  /** The digits of a text are its ASCII digits in order. */
  lemma {:induction false} DigitsOfText(ds: seq<digit>)
    ensures Digits(Text(ds)) == ds
    ensures forall b: byte :: b < 48 || b > 57 ==> Digits([b]) == []
  {
    if ds != [] {
      DigitsOfText(ds[..|ds| - 1]);
      var text := Text(ds);
      assert text[..|text| - 1] == Text(ds[..|ds| - 1]);
    }
  }

  /** The rightmost digit counts once, the one before it twice, and so on. */
  lemma SumOfTwo(ds: seq<digit>, a: digit, b: digit)
    ensures Sum(ds + [a, b], false) == Sum(ds, false) + Doubled(a) + b
  {
    assert (ds + [a, b])[..|ds| + 1] == ds + [a] && (ds + [a])[..|ds|] == ds;
  }

  /** Accepted are 12 to 19 digits whose sum is a multiple of ten, and no others. */
  lemma AcceptedLengths(ds: seq<digit>)
    ensures Accepted(ds) <==> |ds| >= 12 && |ds| <= 19 && exists tens: nat :: Sum(ds, false) == 10 * tens
  {
    if Accepted(ds) { assert Sum(ds, false) == 10 * (Sum(ds, false) / 10); }
  }
}
