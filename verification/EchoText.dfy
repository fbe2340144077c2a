/** The text of an echo: how it is written, and that it can be read in one way only. */
module EchoText {

  const DIGITS := "0123456789"

  function Decimal(n: nat): string {
    if n < 10 then [DIGITS[n]] else Decimal(n / 10) + [DIGITS[n % 10]]
  }

  function Format(number: nat, body: string): string {
    "echo " + Decimal(number) + ": " + body
  }

  predicate AllDigits(s: string) {
    forall i | 0 <= i < |s| :: '0' <= s[i] <= '9'
  }

  function DigitValue(c: char): nat
    requires '0' <= c <= '9'
  {
    (c - '0') as nat
  }

  /** The number a string of digits stands for. */
  function ValueOf(s: string): nat
    requires AllDigits(s)
  {
    if |s| == 0 then 0 else 10 * ValueOf(s[..|s| - 1]) + DigitValue(s[|s| - 1])
  }

  /** Digits that stand for the number, without a leading zero. */
  predicate IsNumeral(s: string, n: nat) {
    |s| > 0 && AllDigits(s) && ValueOf(s) == n && (|s| > 1 ==> s[0] != '0')
  }

  lemma DigitOf(d: nat)
    requires d < 10
    ensures '0' <= DIGITS[d] <= '9' && DigitValue(DIGITS[d]) == d
    ensures d > 0 ==> DIGITS[d] != '0'
  {
  }

  lemma DigitBack(c: char)
    requires '0' <= c <= '9'
    ensures DigitValue(c) < 10 && DIGITS[DigitValue(c)] == c
  {
    var d := DigitValue(c);
    DigitOf(d);
    assert c == '0' + d as char;
  }

  /** `Decimal` writes the numeral of its number. */
  lemma {:induction false} DecimalReadsBack(n: nat)
    ensures IsNumeral(Decimal(n), n) && (n > 0 ==> Decimal(n)[0] != '0')
  {
    var s := Decimal(n);
    DigitOf(n % 10);
    if n >= 10 {
      DecimalReadsBack(n / 10);
      assert s[..|s| - 1] == Decimal(n / 10);
      assert s[0] == Decimal(n / 10)[0];
    } else {
      assert s[..0] == "";
    }
  }

  /** A last digit is split off by division. */
  lemma SplitDigit(q: nat, d: nat)
    requires d < 10
    ensures (10 * q + d) / 10 == q && (10 * q + d) % 10 == d
  {
  }

  lemma DecimalSnoc(q: nat, d: nat)
    requires q > 0 && d < 10
    ensures Decimal(10 * q + d) == Decimal(q) + [DIGITS[d]]
  {
    SplitDigit(q, d);
  }

  /** A numeral without its last digit is a numeral, and stands for more than zero. */
  lemma FrontIsNumeral(s: string)
    requires |s| > 1 && AllDigits(s) && s[0] != '0'
    ensures var front := s[..|s| - 1];
      IsNumeral(front, ValueOf(front)) && ValueOf(s) == 10 * ValueOf(front) + DigitValue(s[|s| - 1])
  {
  }

  lemma ZeroIsItself(s: string)
    requires |s| > 0 && s == Decimal(0)
    ensures s[0] == '0'
  {
  }

  lemma OneDigit(s: string)
    requires |s| == 1 && AllDigits(s)
    ensures s == Decimal(ValueOf(s))
  {
    DigitBack(s[0]);
    assert s[..0] == "";
  }

  /** There is no other numeral for it. */
  lemma {:induction false} NumeralIsDecimal(s: string, n: nat)
    requires IsNumeral(s, n)
    ensures s == Decimal(n)
    decreases |s|
  {
    if |s| == 1 {
      OneDigit(s);
    } else {
      var front, last := s[..|s| - 1], s[|s| - 1];
      var q, d := ValueOf(front), DigitValue(last);
      FrontIsNumeral(s);
      NumeralIsDecimal(front, q);
      assert q > 0 by { if q == 0 { ZeroIsItself(front); } }
      DigitBack(last);
      DecimalSnoc(q, d);
      assert s == front + [last];
    }
  }

  /** `text` is "echo ", a numeral of `number`, ": " and then the whole of `body`. */
  ghost predicate ReadsAs(text: string, number: nat, body: string) {
    exists digits :: IsNumeral(digits, number) && text == "echo " + digits + ": " + body
  }

  /** A text reads as the echo of a number and a body exactly when it is the one that is written for them. */
  lemma FormatExactly(text: string, number: nat, body: string)
    ensures ReadsAs(text, number, body) <==> text == Format(number, body)
  {
    DecimalReadsBack(number);
    if ReadsAs(text, number, body) {
      var digits :| IsNumeral(digits, number) && text == "echo " + digits + ": " + body;
      NumeralIsDecimal(digits, number);
    }
  }

  /** What stands where in a text that reads as an echo. */
  lemma PartsOf(digits: string, body: string)
    ensures var text := "echo " + digits + ": " + body;
      && |text| == |digits| + |body| + 7
      && text[..5] == "echo " && text[5..5 + |digits|] == digits
      && text[5 + |digits|] == ':' && text[5 + |digits| + 2..] == body
  {
    var text := "echo " + digits + ": " + body;
    assert text == "echo " + (digits + (": " + body));
  }

  /** The digits are digits where they stand. */
  lemma DigitsStand(digits: string, text: string)
    requires AllDigits(digits) && 5 + |digits| <= |text| && text[5..5 + |digits|] == digits
    ensures forall i | 5 <= i < 5 + |digits| :: '0' <= text[i] <= '9'
  {
    forall i | 5 <= i < 5 + |digits| ensures '0' <= text[i] <= '9' {
      assert text[i] == text[5..5 + |digits|][i - 5];
    }
  }

  /** A text reads in one way only: equal echoes have equal numbers and equal bodies. */
  lemma ReadsOneWay(text: string, n: nat, body: string, m: nat, other: string)
    requires ReadsAs(text, n, body) && ReadsAs(text, m, other)
    ensures n == m && body == other
  {
    var a :| IsNumeral(a, n) && text == "echo " + a + ": " + body;
    var b :| IsNumeral(b, m) && text == "echo " + b + ": " + other;
    PartsOf(a, body);
    PartsOf(b, other);
    DigitsStand(a, text);
    DigitsStand(b, text);
    assert |a| == |b|;
  }
}
