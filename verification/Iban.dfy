/** The MOD 97-10 checksum of ISO/IEC 7064 on IBANs (account/iban.go). */
module Iban {
  import opened Wrappers

  const DEMO_BANK_CODE := "99999999"
  const GERMAN_IBAN_LENGTH := 22
  const ACCOUNT_LIMIT := 10_000_000_000

  predicate IsDigit(c: char) {
    '0' <= c <= '9'
  }

  predicate IsUpper(c: char) {
    'A' <= c <= 'Z'
  }

  /** What the Unicode tables say about single characters: white space and upper case. */
  datatype CaseTable = CaseTable(spaces: set<char>, upper: map<char, char>)
  {
    function ToUpper(c: char): char {
      if c in upper then upper[c] else c
    }
  }

  /** White space stays white space, nothing else becomes it, and upper-casing is idempotent. */
  ghost predicate Regular(t: CaseTable) {
    forall c: char :: t.ToUpper(t.ToUpper(c)) == t.ToUpper(c) && (t.ToUpper(c) in t.spaces <==> c in t.spaces)
  }

  /** Strip spaces and uppercase. */
  function Normalize(t: CaseTable, value: string): string {
    if value == "" then ""
    else (if value[0] in t.spaces then "" else [t.ToUpper(value[0])]) + Normalize(t, value[1..])
  }

  /** Character by character: white space disappears, and everything else is written in upper case. */
  lemma {:induction false} NormalizeMeans(t: CaseTable, a: string, c: char, b: string)
    ensures Normalize(t, "") == ""
    ensures Normalize(t, [c]) == if c in t.spaces then "" else if c in t.upper then [t.upper[c]] else [c]
    ensures Normalize(t, a + b) == Normalize(t, a) + Normalize(t, b)
  {
    assert [c][1..] == "";
    if a == "" {
      assert a + b == b;
    } else {
      NormalizeMeans(t, a[1..], c, b);
      assert (a + b)[0] == a[0] && (a + b)[1..] == a[1..] + b;
    }
  }

  /** Validating a normalised value normalises it once more, to the same effect. */
  lemma {:induction false} NormalizeTwice(t: CaseTable, value: string)
    requires Regular(t)
    ensures Normalize(t, Normalize(t, value)) == Normalize(t, value)
  {
    if value != "" {
      NormalizeTwice(t, value[1..]);
      if value[0] !in t.spaces {
        var c, n := t.ToUpper(value[0]), Normalize(t, value);
        assert t.ToUpper(c) == c && c !in t.spaces;
        assert n == [c] + Normalize(t, value[1..]);
        assert n[0] == c && n[1..] == Normalize(t, value[1..]);
        assert Normalize(t, n) == [c] + Normalize(t, n[1..]);
      } else {
        assert Normalize(t, value) == Normalize(t, value[1..]);
      }
    }
  }

  // ----- the expanded integer -----

  /** The number that replaces a character: one digit, or two for a letter (A = 10, ..., Z = 35). */
  function Value(c: char): int {
    if IsDigit(c) then c as int - '0' as int else c as int - 'A' as int + 10
  }

  function Scale(c: char): nat {
    if IsDigit(c) then 10 else 100
  }

  /** The integer written by the characters once every letter is replaced by its number. */
  function Expand(s: string): int {
    if s == "" then 0
    else Expand(s[..|s| - 1]) * Scale(s[|s| - 1]) + Value(s[|s| - 1])
  }

  /** Ten to the number of digits of the expansion. */
  function Weight(s: string): nat {
    if s == "" then 1 else Weight(s[..|s| - 1]) * Scale(s[|s| - 1])
  }

  function Rearranged(iban: string): string
    requires |iban| >= 4
  {
    iban[4..] + iban[..4]
  }

  predicate WellShaped(iban: string) {
    && 15 <= |iban| <= 34
    && (iban[..2] == "DE" ==> |iban| == GERMAN_IBAN_LENGTH)
    && IsUpper(iban[0]) && IsUpper(iban[1]) && IsDigit(iban[2]) && IsDigit(iban[3])
    && forall i :: 4 <= i < |iban| ==> IsDigit(iban[i]) || IsUpper(iban[i])
  }

  predicate Valid(iban: string) {
    WellShaped(iban) && Expand(Rearranged(iban)) % 97 == 1
  }

  // ----- streaming -----

  lemma ModStep(a: int, w: nat, v: int)
    requires w == 10 || w == 100
    ensures (a % 97 * w + v) % 97 == (a * w + v) % 97
  {
    var q := a / 97;
    assert a == 97 * q + a % 97;
    if w == 10 {
      assert a * 10 + v == a % 97 * 10 + v + 97 * (q * 10);
    } else {
      assert a * 100 + v == a % 97 * 100 + v + 97 * (q * 100);
    }
    ModAdd(a % 97 * w + v, q * w);
  }

  lemma ModAdd(x: int, k: int)
    ensures (x + 97 * k) % 97 == x % 97
  {
  }

  /** The streaming remainder is the remainder of the expanded integer. */
  method Mod97(iban: string) returns (remainder: int)
    requires |iban| >= 4
    ensures remainder == Expand(Rearranged(iban)) % 97
  {
    var rearranged := Rearranged(iban);
    remainder := 0;
    for i := 0 to |rearranged|
      invariant remainder == Expand(rearranged[..i]) % 97
    {
      var c := rearranged[i];
      assert rearranged[..i + 1][..i] == rearranged[..i];
      ModStep(Expand(rearranged[..i]), Scale(c), Value(c));
      if IsDigit(c) {
        remainder := (remainder * 10 + (c as int - '0' as int)) % 97;
      } else {
        var value := c as int - 'A' as int + 10;
        remainder := (remainder * 100 + value) % 97;
      }
    }
    assert rearranged[..|rearranged|] == rearranged;
  }

  method ValidateIban(t: CaseTable, value: string) returns (ok: bool)
    ensures ok == Valid(Normalize(t, value))
    ensures var s := Normalize(t, value);
      ok <==> && 15 <= |s| <= 34 && (s[0] == 'D' && s[1] == 'E' ==> |s| == 22)
              && 'A' <= s[0] <= 'Z' && 'A' <= s[1] <= 'Z' && '0' <= s[2] <= '9' && '0' <= s[3] <= '9'
              && (forall i :: 4 <= i < |s| ==> '0' <= s[i] <= '9' || 'A' <= s[i] <= 'Z')
              && Expand(s[4..] + s[..4]) % 97 == 1
  {
    var iban := Normalize(t, value);
    if |iban| < 15 || |iban| > 34 {
      return false;
    }
    if iban[..2] == "DE" && |iban| != GERMAN_IBAN_LENGTH {
      return false;
    }
    for i := 0 to |iban|
      invariant forall j :: 0 <= j < i ==>
                  if j < 2 then IsUpper(iban[j]) else if j < 4 then IsDigit(iban[j]) else IsDigit(iban[j]) || IsUpper(iban[j])
    {
      var c := iban[i];
      if i < 2 {
        if !IsUpper(c) {
          return false;
        }
      } else if i < 4 {
        if !IsDigit(c) {
          return false;
        }
      } else if !IsDigit(c) && !IsUpper(c) {
        return false;
      }
    }
    var remainder := Mod97(iban);
    ok := remainder == 1;
  }

  // ----- concatenation -----

  lemma {:induction false} ExpandConcat(s: string, t: string)
    ensures Expand(s + t) == Expand(s) * Weight(t) + Expand(t)
    ensures Weight(s + t) == Weight(s) * Weight(t)
  {
    if t == "" {
      assert s + t == s;
    } else {
      var init, c := t[..|t| - 1], t[|t| - 1];
      ExpandConcat(s, init);
      assert (s + t)[..|s + t| - 1] == s + init;
      Distribute(Expand(s), Weight(init), Expand(init), Scale(c));
      Distribute(Weight(s), Weight(init), 0, Scale(c));
    }
  }

  lemma Distribute(a: int, b: int, c: int, k: int)
    ensures (a * b + c) * k == a * (b * k) + c * k
  {
    assert (a * b) * k == a * (b * k);
  }

  lemma ExpandChar(c: char)
    ensures Expand([c]) == Value(c) && Weight([c]) == Scale(c)
  {
    assert [c][..0] == "";
  }

  // ----- generated IBANs -----

  function Pow10(n: nat): nat {
    if n == 0 then 1 else 10 * Pow10(n - 1)
  }

  function DigitChar(d: nat): char
    requires d < 10
  {
    ('0' as int + d) as char
  }

  /** Decimal, zero-padded to the given width. */
  function Pad(n: nat, width: nat): (s: string)
    ensures |s| == width && forall i :: 0 <= i < |s| ==> IsDigit(s[i])
  {
    if width == 0 then "" else Pad(n / 10, width - 1) + [DigitChar(n % 10)]
  }

  lemma {:induction false} PadExpands(n: nat, width: nat)
    requires n < Pow10(width)
    ensures Expand(Pad(n, width)) == n && Weight(Pad(n, width)) == Pow10(width)
  {
    if width > 0 {
      PadExpands(n / 10, width - 1);
      var s := Pad(n, width);
      assert s[..|s| - 1] == Pad(n / 10, width - 1);
    }
  }

  function Bban(account: nat): string {
    DEMO_BANK_CODE + Pad(account, 10)
  }

  function CheckDigits(bban: string): int {
    98 - Expand(bban + "131400") % 97
  }

  lemma PowTen()
    ensures Pow10(10) == ACCOUNT_LIMIT && Pow10(2) == 100
  {
    assert Pow10(1) == 10;
    assert Pow10(2) == 100;
    assert Pow10(4) == 100 * Pow10(2);
    assert Pow10(6) == 100 * Pow10(4);
    assert Pow10(8) == 100 * Pow10(6);
    assert Pow10(10) == 100 * Pow10(8);
  }

  /** Weights and values of the two constant suffixes. */
  lemma Suffixes(check: nat)
    requires check < 100
    ensures Weight("131400") == 1_000_000 && Expand("131400") == 131_400
    ensures Weight("DE" + Pad(check, 2)) == 1_000_000 && Expand("DE" + Pad(check, 2)) == 131_400 + check
  {
    PowTen();
    PadExpands(check, 2);
    PadExpands(131_400, 6);
    assert Pad(131_400, 6) == "131400" && Pow10(6) == 1_000_000 by {
      assert Pow10(6) == 1000 * Pow10(3);
      assert Pad(1, 1) == "1" && Pad(13, 2) == "13" && Pad(131, 3) == "131" && Pad(1314, 4) == "1314" && Pad(13_140, 5) == "13140";
    }
    assert "DE"[..1] == "D";
    assert Expand("D") == 13 && Weight("D") == 100 by {
      ExpandChar('D');
    }
    assert Expand("DE") == 1314 && Weight("DE") == 10_000;
    ExpandConcat("DE", Pad(check, 2));
  }

  /** Every account number below 10^10 gets a 22-character IBAN that validates; larger ones are refused. */
  method GermanDemoIbanForAccount(account: nat) returns (r: Result<string, ()>)
    ensures r.Success? <==> account < 10_000_000_000
    ensures r.Success? ==>
              && |r.value| == 22 && Valid(r.value) && r.value[4..] == Bban(account)
              && r.value[..2] == "DE" && r.value[4..12] == "99999999" && Expand(r.value[12..]) == account
              && forall i :: 12 <= i < 22 ==> '0' <= r.value[i] <= '9'
  {
    if account >= ACCOUNT_LIMIT {
      return Failure(());
    }
    var bban := Bban(account);
    var check := CheckDigits(bban);
    var iban := "DE" + Pad(check, 2) + bban;
    GeneratedIsValid(account);
    PowTen();
    PadExpands(account, 10);
    assert iban[4..12] == DEMO_BANK_CODE && iban[12..] == Pad(account, 10);
    r := Success(iban);
  }

  lemma GeneratedIsValid(account: nat)
    requires account < ACCOUNT_LIMIT
    ensures 2 <= CheckDigits(Bban(account)) <= 98
    ensures Valid("DE" + Pad(CheckDigits(Bban(account)), 2) + Bban(account))
  {
    var bban := Bban(account);
    var check: nat := CheckDigits(bban);
    var suffix := "DE" + Pad(check, 2);
    var iban := suffix + bban;
    Suffixes(check);
    ExpandConcat(bban, "131400");
    ExpandConcat(bban, suffix);
    assert Rearranged(iban) == bban + suffix by {
      assert iban[4..] == bban && iban[..4] == suffix;
    }
    assert Expand(Rearranged(iban)) == Expand(bban + "131400") + check;
    Completes(Expand(bban + "131400"));
    assert iban[..2] == "DE";
  }

  lemma Completes(v: int)
    ensures (v + (98 - v % 97)) % 97 == 1
  {
    ModAdd(1, v / 97 + 1);
    assert v + (98 - v % 97) == 1 + 97 * (v / 97 + 1);
  }

  /** Different account numbers get different IBANs. */
  lemma {:induction false} BbanInjective(a: nat, b: nat)
    requires a < ACCOUNT_LIMIT && b < ACCOUNT_LIMIT && Bban(a) == Bban(b)
    ensures a == b
  {
    PowTen();
    PadExpands(a, 10);
    PadExpands(b, 10);
    assert Bban(a)[8..] == Pad(a, 10) && Bban(b)[8..] == Pad(b, 10);
  }

  // ----- error detection -----

  predicate Apart(x: int, y: int) {
    (x - y) % 97 != 0
  }

  /** 97 is prime to ten: appending the same characters keeps a difference from being divisible. */
  lemma {:induction false} TailKeepsDifference(s: string, t: string, tail: string)
    requires Apart(Expand(s), Expand(t))
    ensures Apart(Expand(s + tail), Expand(t + tail))
    decreases |tail|
  {
    if tail == "" {
      assert s + tail == s && t + tail == t;
    } else {
      var init, c := tail[..|tail| - 1], tail[|tail| - 1];
      TailKeepsDifference(s, t, init);
      AppendKeepsDifference(s + init, t + init, c);
      assert s + tail == (s + init) + [c] && t + tail == (t + init) + [c];
    }
  }

  lemma AppendKeepsDifference(s: string, t: string, c: char)
    requires Apart(Expand(s), Expand(t))
    ensures Apart(Expand(s + [c]), Expand(t + [c]))
  {
    ExpandAppend(s, c);
    ExpandAppend(t, c);
    ScalingKeepsApart(Expand(s), Expand(t), IsDigit(c), Value(c), Expand(s + [c]), Expand(t + [c]));
  }

  lemma ScalingKeepsApart(x: int, y: int, once: bool, v: int, a: int, b: int)
    requires Apart(x, y)
    requires a == (if once then 10 * x else 10 * (10 * x)) + v
    requires b == (if once then 10 * y else 10 * (10 * y)) + v
    ensures Apart(a, b)
  {
    TenfoldNotDivisible(x - y);
    if once {
      assert a - b == 10 * (x - y);
    } else {
      TenfoldNotDivisible(10 * (x - y));
      assert a - b == 10 * (10 * (x - y));
    }
  }

  lemma ExpandAppend(s: string, c: char)
    ensures Expand(s + [c]) == (if IsDigit(c) then 10 * Expand(s) else 10 * (10 * Expand(s))) + Value(c)
  {
    assert (s + [c])[..|s|] == s;
  }

  lemma TenfoldNotDivisible(y: int)
    requires y % 97 != 0
    ensures (10 * y) % 97 != 0
  {
    if (10 * y) % 97 == 0 {
      var q := 10 * y / 97;
      assert 10 * y == 97 * q;
      assert y == 97 * (68 * q - 7 * y);
      ModAdd(0, 68 * q - 7 * y);
      assert false;
    }
  }

  lemma ChangeIsRejected(iban: string, changed: string, head: string, mid: string, other: string, tail: string)
    requires Valid(iban) && |changed| >= 4
    requires Rearranged(iban) == head + mid + tail && Rearranged(changed) == head + other + tail
    requires Weight(mid) == Weight(other) && Apart(Expand(other), Expand(mid))
    ensures !Valid(changed)
  {
    ExpandConcat(head, mid);
    ExpandConcat(head, other);
    assert Expand(head + other) - Expand(head + mid) == Expand(other) - Expand(mid);
    TailKeepsDifference(head + other, head + mid, tail);
    var x, y := Expand(Rearranged(iban)), Expand(Rearranged(changed));
    if y % 97 == 1 {
      SameRemainder(y, x);
      assert false;
    }
  }

  lemma SameRemainder(x: int, y: int)
    requires x % 97 == y % 97
    ensures !Apart(x, y)
  {
    assert x - y == 97 * (x / 97 - y / 97);
    ModAdd(0, x / 97 - y / 97);
  }

  /** Changing any single digit of the account part of a valid IBAN is detected. */
  lemma {:induction false} SingleDigitErrorIsRejected(iban: string, i: nat, d: char)
    requires Valid(iban) && 4 <= i < |iban|
    requires IsDigit(iban[i]) && IsDigit(d) && d != iban[i]
    ensures !Valid(iban[i := d])
  {
    var changed := iban[i := d];
    var head, tail := iban[4..i], iban[i + 1..] + iban[..4];
    assert Rearranged(iban) == head + [iban[i]] + tail;
    assert changed[4..] == iban[4..i] + [d] + iban[i + 1..] && changed[..4] == iban[..4];
    assert Rearranged(changed) == head + [d] + tail;
    ExpandChar(d);
    ExpandChar(iban[i]);
    ChangeIsRejected(iban, changed, head, [iban[i]], [d], tail);
  }

  lemma ExpandPair(a: char, b: char)
    requires IsDigit(a) && IsDigit(b)
    ensures Expand([a, b]) == 10 * Value(a) + Value(b) && Weight([a, b]) == 100
  {
    ExpandChar(a);
    assert [a, b][..1] == [a];
  }

  /** Swapping two different adjacent digits of the account part is detected. */
  lemma {:induction false} AdjacentSwapIsRejected(iban: string, i: nat)
    requires Valid(iban) && 4 <= i < |iban| - 1
    requires IsDigit(iban[i]) && IsDigit(iban[i + 1]) && iban[i] != iban[i + 1]
    ensures !Valid(iban[i := iban[i + 1]][i + 1 := iban[i]])
  {
    var a, b := iban[i], iban[i + 1];
    var changed := iban[i := b][i + 1 := a];
    var head, tail := iban[4..i], iban[i + 2..] + iban[..4];
    assert Rearranged(iban) == head + [a, b] + tail;
    assert changed[4..] == iban[4..i] + [b, a] + iban[i + 2..] && changed[..4] == iban[..4];
    assert Rearranged(changed) == head + [b, a] + tail;
    ExpandPair(a, b);
    ExpandPair(b, a);
    ChangeIsRejected(iban, changed, head, [a, b], [b, a], tail);
  }
}
