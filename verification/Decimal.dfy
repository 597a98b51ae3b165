/** Decimal numerals inside keys and references. */
module Decimal {

  predicate IsDigit(c: char) {
    '0' <= c <= '9'
  }

  predicate AllDigits(s: string) {
    forall i :: 0 <= i < |s| ==> IsDigit(s[i])
  }

  function Digits(n: nat): (s: string)
    ensures s != "" && AllDigits(s)
  {
    (if n < 10 then "" else Digits(n / 10)) + [('0' as int + n % 10) as char]
  }

  lemma {:induction false} DigitsInjective(m: nat, n: nat)
    requires Digits(m) == Digits(n)
    ensures m == n
  {
    var s, t := Digits(m), Digits(n);
    assert s[|s| - 1] == ('0' as int + m % 10) as char && t[|t| - 1] == ('0' as int + n % 10) as char;
    assert s[..|s| - 1] == (if m < 10 then "" else Digits(m / 10)) && t[..|t| - 1] == if n < 10 then "" else Digits(n / 10);
    if m >= 10 && n >= 10 {
      DigitsInjective(m / 10, n / 10);
    }
  }

  /** At least `width` digits, with leading zeros. */
  function Field(n: nat, width: nat): (s: string)
    ensures s != "" && AllDigits(s)
    decreases n, width
  {
    (if n < 10 && width <= 1 then "" else Field(n / 10, if width == 0 then 0 else width - 1)) + [('0' as int + n % 10) as char]
  }

  lemma {:induction false} FieldInjective(m: nat, n: nat, width: nat)
    requires Field(m, width) == Field(n, width)
    ensures m == n
    decreases m, width
  {
    var s, t := Field(m, width), Field(n, width);
    var narrower := if width == 0 then 0 else width - 1;
    assert s[|s| - 1] == ('0' as int + m % 10) as char && t[|t| - 1] == ('0' as int + n % 10) as char;
    assert s[..|s| - 1] == if m < 10 && width <= 1 then "" else Field(m / 10, narrower);
    assert t[..|t| - 1] == if n < 10 && width <= 1 then "" else Field(n / 10, narrower);
    if !(m < 10 && width <= 1) && !(n < 10 && width <= 1) {
      FieldInjective(m / 10, n / 10, narrower);
    }
  }

  /** The number that a string of digits stands for. */
  function ValueOf(s: string): int {
    if s == "" then 0 else 10 * ValueOf(s[..|s| - 1]) + (s[|s| - 1] as int - '0' as int)
  }

  function PowerOfTen(k: nat): nat {
    if k == 0 then 1 else 10 * PowerOfTen(k - 1)
  }

  /** A numeral stands for its number, without a leading zero. */
  lemma {:induction false} DigitsAreDecimal(n: nat)
    ensures ValueOf(Digits(n)) == n && (n > 0 ==> Digits(n)[0] != '0') && (n == 0 ==> Digits(n) == "0")
  {
    var s := Digits(n);
    assert s[..|s| - 1] == if n < 10 then "" else Digits(n / 10);
    if n >= 10 {
      DigitsAreDecimal(n / 10);
      assert s[0] == Digits(n / 10)[0];
    }
  }

  /** A field stands for its number, and has exactly its width when the number fits. */
  lemma {:induction false} FieldIsDecimal(n: nat, width: nat)
    ensures ValueOf(Field(n, width)) == n
    ensures width >= 1 && n < PowerOfTen(width) ==> |Field(n, width)| == width
    decreases n, width
  {
    var s, narrower := Field(n, width), if width == 0 then 0 else width - 1;
    assert s[..|s| - 1] == if n < 10 && width <= 1 then "" else Field(n / 10, narrower);
    if !(n < 10 && width <= 1) {
      FieldIsDecimal(n / 10, narrower);
    }
  }

  /** A numeral ends where the separator begins. */
  lemma {:induction false} SplitUnique(x: string, y: string, c: char, u: string, v: string)
    requires AllDigits(x) && AllDigits(y) && !IsDigit(c) && x + [c] + u == y + [c] + v
    ensures x == y && u == v
  {
    var s, t := x + [c] + u, y + [c] + v;
    assert s[|x|] == c && t[|y|] == c;
    assert forall i :: 0 <= i < |x| ==> s[i] == x[i];
    assert forall i :: 0 <= i < |y| ==> t[i] == y[i];
    assert |x| == |y|;
    assert x == s[..|x|] && y == t[..|y|] && u == s[|x| + 1..] && v == t[|y| + 1..];
  }
}
