/** The CPF validator: the Receita Federal module-11 rule with two check
    digits. */
module Cpf {
  import opened DomainErrors

  const NullMessage := "CPF cannot be null"
  const LengthMessage := "CPF must contain exactly 11 digits"
  const ChecksumMessage := "Invalid CPF checksum"

  predicate IsDigit(c: char) {
    '0' <= c <= '9'
  }

  predicate AllDigits(s: string) {
    forall i :: 0 <= i < |s| ==> IsDigit(s[i])
  }

  function Digit(c: char): (n: nat)
    requires IsDigit(c)
    ensures n < 10
  {
    c as int - '0' as int
  }

  /** Strips every character that is not a decimal digit, keeping the order:
      the result is all digits, and a string of digits is kept as it is. */
  function Digits(s: string): (r: string)
    ensures AllDigits(r)
    ensures |r| <= |s|
    ensures AllDigits(s) ==> r == s
    decreases |s|
  {
    if s == [] then []
    else (if IsDigit(s[0]) then [s[0]] else []) + Digits(s[1..])
  }

  /** Stripping is idempotent. */
  lemma DigitsIdempotent(s: string)
    ensures Digits(Digits(s)) == Digits(s)
  {
  }

  /** Sum of `d[i] * (w - i)` over all positions `i` of `d`. */
  function WeightedSum(d: string, w: int): (r: int)
    requires AllDigits(d)
    ensures w >= |d| ==> r >= 0
    ensures (forall i :: 0 <= i < |d| ==> d[i] == '0') ==> r == 0
    decreases |d|
  {
    if d == [] then 0 else Digit(d[0]) * w + WeightedSum(d[1..], w - 1)
  }

  /** The check digit for a weighted sum: 0 when the remainder mod 11 is 0
      or 1, otherwise 11 minus the remainder. It is always a single digit. */
  function CheckDigit(sum: int): (r: nat)
    ensures r < 10
    ensures sum % 11 < 2 ==> r == 0
    ensures sum % 11 >= 2 ==> r + sum % 11 == 11
  {
    var rem := sum % 11;
    if rem < 2 then 0 else 11 - rem
  }

  /** True when every digit equals the first one. */
  predicate AllSame(d: string)
    decreases |d|
  {
    |d| < 2 || (d[1] == d[0] && AllSame(d[1..]))
  }

  /** Both check digits of an 11-digit string agree with its other digits. */
  predicate ChecksumHolds(d: string)
    requires |d| == 11 && AllDigits(d)
  {
    && Digit(d[9]) == CheckDigit(WeightedSum(d[..9], 10))
    && Digit(d[10]) == CheckDigit(WeightedSum(d[..10], 11))
  }

  /** Validates a CPF as entered and returns its 11 digits. */
  function ValidateCpf(raw: Option<string>): (r: Result<string>)
    ensures r.Ok? ==> IsCpf(r.value)
    ensures r.Err? ==> r.error.kind == InvalidCpf
  {
    if raw.None? then Err(Error(InvalidCpf, NullMessage))
    else
      var d := Digits(raw.value);
      if |d| != 11 then Err(Error(InvalidCpf, LengthMessage))
      else if AllSame(d) || !ChecksumHolds(d) then Err(Error(InvalidCpf, ChecksumMessage))
      else
        WeightedSumsAreRule(d);
        AllSameMeans(d);
        Ok(d)
  }

  // ---------------------------------------------------------------------
  // Reference definition: the rule written out position by position.

  /** d0*10 + d1*9 + ... + d8*2: the sum for the first check digit. */
  ghost function FirstSum(d: string): int
    requires |d| == 11 && AllDigits(d)
  {
    Digit(d[0]) * 10 + Digit(d[1]) * 9 + Digit(d[2]) * 8 + Digit(d[3]) * 7
    + Digit(d[4]) * 6 + Digit(d[5]) * 5 + Digit(d[6]) * 4 + Digit(d[7]) * 3
    + Digit(d[8]) * 2
  }

  /** d0*11 + d1*10 + ... + d9*2: the sum for the second check digit. */
  ghost function SecondSum(d: string): int
    requires |d| == 11 && AllDigits(d)
  {
    Digit(d[0]) * 11 + Digit(d[1]) * 10 + Digit(d[2]) * 9 + Digit(d[3]) * 8
    + Digit(d[4]) * 7 + Digit(d[5]) * 6 + Digit(d[6]) * 5 + Digit(d[7]) * 4
    + Digit(d[8]) * 3 + Digit(d[9]) * 2
  }

  /** A valid CPF: eleven digits, not all the same, and both check digits
      right. */
  ghost predicate IsCpf(d: string) {
    && |d| == 11
    && AllDigits(d)
    && (exists i :: 0 <= i < |d| && d[i] != d[0])
    && Digit(d[9]) == CheckDigit(FirstSum(d))
    && Digit(d[10]) == CheckDigit(SecondSum(d))
  }

  lemma WeightedSumStep(d: string, i: nat, j: nat, w: int)
    requires i < j <= |d| && AllDigits(d)
    ensures WeightedSum(d[i..j], w) == Digit(d[i]) * w + WeightedSum(d[i + 1..j], w - 1)
  {
    assert d[i..j][1..] == d[i + 1..j];
  }

  /** The recursive sums are the two sums of the rule. */
  lemma WeightedSumsAreRule(d: string)
    requires |d| == 11 && AllDigits(d)
    ensures WeightedSum(d[..9], 10) == FirstSum(d)
    ensures WeightedSum(d[..10], 11) == SecondSum(d)
  {
    FirstSumIsRule(d);
    SecondSumIsRule(d);
  }

  lemma FirstSumIsRule(d: string)
    requires |d| == 11 && AllDigits(d)
    ensures WeightedSum(d[..9], 10) == FirstSum(d)
  {
    assert d[..9] == d[0..9];
    WeightedSumStep(d, 0, 9, 10);
    WeightedSumStep(d, 1, 9, 9);
    WeightedSumStep(d, 2, 9, 8);
    WeightedSumStep(d, 3, 9, 7);
    WeightedSumStep(d, 4, 9, 6);
    WeightedSumStep(d, 5, 9, 5);
    WeightedSumStep(d, 6, 9, 4);
    WeightedSumStep(d, 7, 9, 3);
    WeightedSumStep(d, 8, 9, 2);
    assert d[9..9] == [];
  }

  lemma SecondSumIsRule(d: string)
    requires |d| == 11 && AllDigits(d)
    ensures WeightedSum(d[..10], 11) == SecondSum(d)
  {
    assert d[..10] == d[0..10];
    WeightedSumStep(d, 0, 10, 11);
    WeightedSumStep(d, 1, 10, 10);
    WeightedSumStep(d, 2, 10, 9);
    WeightedSumStep(d, 3, 10, 8);
    WeightedSumStep(d, 4, 10, 7);
    WeightedSumStep(d, 5, 10, 6);
    WeightedSumStep(d, 6, 10, 5);
    WeightedSumStep(d, 7, 10, 4);
    WeightedSumStep(d, 8, 10, 3);
    WeightedSumStep(d, 9, 10, 2);
    assert d[10..10] == [];
  }

  /** `AllSame` is "no digit differs from the first". */
  lemma {:induction false} AllSameMeans(d: string)
    ensures AllSame(d) <==> forall i :: 0 <= i < |d| ==> d[i] == d[0]
    decreases |d|
  {
    if |d| >= 2 {
      AllSameMeans(d[1..]);
      assert forall i :: 1 <= i < |d| ==> d[i] == d[1..][i - 1];
    }
  }

  /** The validator implements the rule: a CPF is accepted exactly when its
      digits form a valid CPF, and then the digits are what it returns; each
      rejection carries the message of the first check that failed. */
  lemma ValidateCpfSpec(raw: Option<string>)
    ensures raw.None? ==> ValidateCpf(raw) == Err(Error(InvalidCpf, NullMessage))
    ensures raw.Some? ==>
      (ValidateCpf(raw).Ok? <==> IsCpf(Digits(raw.value)))
    ensures raw.Some? && ValidateCpf(raw).Ok? ==> ValidateCpf(raw).value == Digits(raw.value)
    ensures raw.Some? && |Digits(raw.value)| != 11 ==>
      ValidateCpf(raw) == Err(Error(InvalidCpf, LengthMessage))
    ensures raw.Some? && |Digits(raw.value)| == 11 && !IsCpf(Digits(raw.value)) ==>
      ValidateCpf(raw) == Err(Error(InvalidCpf, ChecksumMessage))
  {
    if raw.Some? {
      var d := Digits(raw.value);
      if |d| == 11 {
        WeightedSumsAreRule(d);
        AllSameMeans(d);
      }
    }
  }

  /** Formatting characters do not affect validation. */
  lemma ValidateIgnoresFormatting(raw: string)
    ensures ValidateCpf(Some(raw)) == ValidateCpf(Some(Digits(raw)))
  {
    DigitsIdempotent(raw);
  }

  /** A repeated digit is always rejected with the checksum message, even
      where the arithmetic alone would accept it (00000000000 does). */
  lemma RepeatedDigitRejected(c: char)
    requires IsDigit(c)
    ensures ValidateCpf(Some(seq(11, _ => c))) == Err(Error(InvalidCpf, ChecksumMessage))
  {
    var d := seq(11, _ => c);
    AllSameMeans(d);
  }

  /** The first nine digits determine a valid CPF: the two check digits leave
      no freedom. */
  lemma CheckDigitsDetermined(a: string, b: string)
    requires IsCpf(a) && IsCpf(b)
    requires a[..9] == b[..9]
    ensures a == b
  {
    assert forall i :: 0 <= i < 9 ==> a[i] == a[..9][i] && b[i] == b[..9][i];
    assert FirstSum(a) == FirstSum(b);
    assert a[9] as int == b[9] as int;
    assert SecondSum(a) == SecondSum(b);
    assert a[10] as int == b[10] as int;
    assert forall i :: 0 <= i < 11 ==> a[i] == b[i];
  }

  lemma {:induction false} DigitsAppend(a: string, b: string)
    ensures Digits(a + b) == Digits(a) + Digits(b)
    decreases |a|
  {
    if a == [] {
      assert a + b == b;
    } else {
      assert (a + b)[0] == a[0];
      assert (a + b)[1..] == a[1..] + b;
      DigitsAppend(a[1..], b);
    }
  }

  lemma DigitsOfNonDigit(p: char)
    requires !IsDigit(p)
    ensures Digits([p]) == []
  {
    assert [p][1..] == [];
  }

  /** A run of digits followed by a separator contributes just the run. */
  lemma DigitsOfGroup(x: string, a: string, p: char)
    requires AllDigits(a) && !IsDigit(p)
    ensures Digits(x + a + [p]) == Digits(x) + a
  {
    DigitsAppend(x + a, [p]);
    DigitsAppend(x, a);
    DigitsOfNonDigit(p);
  }

  lemma DigitsOfFirstGroup(a: string, p: char)
    requires AllDigits(a) && !IsDigit(p)
    ensures Digits(a + [p]) == a
  {
    DigitsAppend(a, [p]);
    DigitsOfNonDigit(p);
  }

  /** The usual written form ddd.ddd.ddd-dd strips to its eleven digits. */
  lemma DigitsOfFormatted(a: string, b: string, c: string, e: string, p: char, q: char, r: char)
    requires AllDigits(a) && AllDigits(b) && AllDigits(c) && AllDigits(e)
    requires !IsDigit(p) && !IsDigit(q) && !IsDigit(r)
    ensures Digits(a + [p] + b + [q] + c + [r] + e) == a + b + c + e
  {
    var s1 := a + [p];
    DigitsOfFirstGroup(a, p);
    var s3 := s1 + b + [q];
    DigitsOfGroup(s1, b, q);
    var s5 := s3 + c + [r];
    DigitsOfGroup(s3, c, r);
    DigitsAppend(s5, e);
  }

  lemma Accepts(d: string)
    requires IsCpf(d)
    ensures ValidateCpf(Some(d)) == Ok(d)
  {
    ValidateCpfSpec(Some(d));
  }

  lemma Rejects(d: string)
    requires |d| == 11 && AllDigits(d) && !IsCpf(d)
    ensures ValidateCpf(Some(d)) == Err(Error(InvalidCpf, ChecksumMessage))
  {
    ValidateCpfSpec(Some(d));
  }

  // Test vectors of the source, one lemma each (each is a separate proof).

  lemma Accepts11144477735()
    ensures ValidateCpf(Some("11144477735")) == Ok("11144477735")
  {
    var d := "11144477735";
    assert d[3] != d[0];
    Accepts(d);
  }

  lemma Accepts52998224725()
    ensures ValidateCpf(Some("52998224725")) == Ok("52998224725")
  {
    var d := "52998224725";
    assert d[1] != d[0];
    Accepts(d);
  }

  lemma Accepts39053344705()
    ensures ValidateCpf(Some("39053344705")) == Ok("39053344705")
  {
    var d := "39053344705";
    assert d[1] != d[0];
    Accepts(d);
  }

  lemma Accepts12345678909()
    ensures ValidateCpf(Some("12345678909")) == Ok("12345678909")
  {
    var d := "12345678909";
    assert d[1] != d[0];
    Accepts(d);
  }

  lemma Accepts98765432100()
    ensures ValidateCpf(Some("98765432100")) == Ok("98765432100")
  {
    var d := "98765432100";
    assert d[1] != d[0];
    Accepts(d);
  }

  lemma Accepts84394789508()
    ensures ValidateCpf(Some("84394789508")) == Ok("84394789508")
  {
    var d := "84394789508";
    assert d[1] != d[0];
    Accepts(d);
  }

  // Proof steps for the formatted vector: the literal split into its digit
  // groups and separators, and the groups joined again.

  lemma FormattedSplits()
    ensures "111" + ['.'] + "444" + ['.'] + "777" + ['-'] + "35" == "111.444.777-35"
  {
  }

  lemma DigitGroupsJoin()
    ensures "111" + "444" + "777" + "35" == "11144477735"
  {
  }

  /** Formatting is stripped before the rule applies. */
  lemma FormattedDigits()
    ensures Digits("111.444.777-35") == "11144477735"
  {
    DigitsOfFormatted("111", "444", "777", "35", '.', '.', '-');
    FormattedSplits();
    DigitGroupsJoin();
  }

  lemma AcceptsFormatted11144477735()
    ensures ValidateCpf(Some("111.444.777-35")) == Ok("11144477735")
  {
    FormattedDigits();
    ValidateIgnoresFormatting("111.444.777-35");
    Accepts11144477735();
  }

  /** Passes the first check digit, fails the second. */
  lemma Rejects12345678901()
    ensures ValidateCpf(Some("12345678901")) == Err(Error(InvalidCpf, ChecksumMessage))
  {
    var d := "12345678901";
    assert CheckDigit(FirstSum(d)) == 0 == Digit(d[9]);
    assert CheckDigit(SecondSum(d)) == 9 != Digit(d[10]);
    Rejects(d);
  }

  /** Listed among the scenario steps' numbers, but its first check digit
      should be 1. */
  lemma Rejects71506168051()
    ensures ValidateCpf(Some("71506168051")) == Err(Error(InvalidCpf, ChecksumMessage))
  {
    var d := "71506168051";
    assert CheckDigit(FirstSum(d)) == 1 != Digit(d[9]);
    Rejects(d);
  }

  lemma RejectsRepeatedOnes()
    ensures ValidateCpf(Some("11111111111")) == Err(Error(InvalidCpf, ChecksumMessage))
  {
    RepeatedDigitRejected('1');
    assert seq(11, _ => '1') == "11111111111";
  }

  lemma RejectsMissing()
    ensures ValidateCpf(None) == Err(Error(InvalidCpf, NullMessage))
  {
  }

  lemma RejectsShort()
    ensures ValidateCpf(Some("123456789")) == Err(Error(InvalidCpf, LengthMessage))
  {
    var a, b := "12345", "6789";
    assert a + b == "123456789";
    assert AllDigits(a) && AllDigits(b);
    DigitsAppend(a, b);
  }

  lemma RejectsLong()
    ensures ValidateCpf(Some("123456789012")) == Err(Error(InvalidCpf, LengthMessage))
  {
    var a, b := "123456", "789012";
    assert a + b == "123456789012";
    assert AllDigits(a) && AllDigits(b);
    DigitsAppend(a, b);
  }
}
