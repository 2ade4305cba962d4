/** Why a former spouse is former, and how a saved value is read back. */
module FormerSpouse {
  import opened Wrappers

  datatype FormerSpouseReason = WIDOWED | DIVORCE {
    predicate IsWidowed() { this == WIDOWED }
    predicate IsDivorce() { this == DIVORCE }
  }

  /** The constant name, as `Enum.valueOf` expects it. */
  function ConstantName(r: FormerSpouseReason): string
  {
    match r
    case WIDOWED => "WIDOWED"
    case DIVORCE => "DIVORCE"
  }

  predicate IsDigit(c: char) { '0' <= c <= '9' }

  predicate AllDigits(s: string) { forall i :: 0 <= i < |s| ==> IsDigit(s[i]) }

  function DigitsValue(s: string): (v: nat)
    requires AllDigits(s)
    decreases |s|
  {
    if s == [] then 0
    else
      var last := s[|s| - 1];
      assert IsDigit(last);
      10 * DigitsValue(s[..|s| - 1]) + (last as int - '0' as int)
  }

  const INT_MIN: int := -0x8000_0000
  const INT_MAX: int := 0x7fff_ffff

  /** `Integer.parseInt` on decimal text: an optional sign followed by at least one
      digit, with a value that fits in an int.  None stands for the
      NumberFormatException. */
  function ParseInt(s: string): (r: Option<int>)
    ensures r.Some? ==> |s| > 0 && INT_MIN <= r.value <= INT_MAX
    ensures r.Some? && r.value >= 0 ==> s[0] != '-' || r.value == 0
  {
    var signed := |s| > 0 && (s[0] == '-' || s[0] == '+');
    var digits := if signed then s[1..] else s;
    if |digits| == 0 || !AllDigits(digits) then None
    else
      var v := if signed && s[0] == '-' then -(DigitsValue(digits) as int) else DigitsValue(digits) as int;
      if v < INT_MIN || v > INT_MAX then None else Some(v)
  }

  /** The decimal digits of n, without sign or leading zeros. */
  function Decimal(n: nat): (d: string)
    ensures |d| > 0 && AllDigits(d)
  {
    var last := ['0' + (n % 10) as char];
    if n < 10 then last else Decimal(n / 10) + last
  }

  lemma {:induction false} DecimalValue(n: nat)
    ensures DigitsValue(Decimal(n)) == n
  {
    var d := Decimal(n);
    if n >= 10 {
      assert d[..|d| - 1] == Decimal(n / 10);
      DecimalValue(n / 10);
    }
  }

  /** Every int is read back from its decimal spelling, with a minus sign
      when it is negative. */
  lemma ParseDecimal(n: int)
    requires INT_MIN <= n <= INT_MAX
    ensures n >= 0 ==> ParseInt(Decimal(n)) == Some(n)
    ensures n < 0 ==> ParseInt("-" + Decimal(-n)) == Some(n)
  {
    if n >= 0 {
      DecimalValue(n);
    } else {
      DecimalValue(-n);
      assert ("-" + Decimal(-n))[1..] == Decimal(-n);
    }
  }

  /** Zeros followed by a single 1. */
  predicate PaddedOne(d: string)
  {
    |d| > 0 && d[|d| - 1] == '1' && forall i :: 0 <= i < |d| - 1 ==> d[i] == '0'
  }

  /** The spellings of 1: an optional plus sign, any number of zeros, then
      the digit 1. */
  predicate SpellsOne(s: string)
  {
    if |s| > 0 && s[0] == '+' then PaddedOne(s[1..]) else PaddedOne(s)
  }

  lemma {:induction false} DigitsValueZero(d: string)
    requires AllDigits(d)
    ensures DigitsValue(d) == 0 <==> forall i :: 0 <= i < |d| ==> d[i] == '0'
    decreases |d|
  {
    if d != [] {
      var p := d[..|d| - 1];
      DigitsValueZero(p);
      assert forall i :: 0 <= i < |p| ==> p[i] == d[i];
      if DigitsValue(d) == 0 {
        assert DigitsValue(p) == 0 && d[|d| - 1] == '0';
      }
    }
  }

  lemma DigitsValueOne(d: string)
    requires AllDigits(d) && |d| > 0
    ensures DigitsValue(d) == 1 <==> PaddedOne(d)
  {
    var p := d[..|d| - 1];
    DigitsValueZero(p);
    assert forall i :: 0 <= i < |p| ==> p[i] == d[i];
  }

  /** A padded 1 is all digits and does not start with a sign. */
  lemma PaddedOneDigits(d: string)
    requires PaddedOne(d)
    ensures AllDigits(d) && d[0] != '-' && d[0] != '+'
  {
    forall i | 0 <= i < |d| ensures IsDigit(d[i]) {
      if i < |d| - 1 { assert d[i] == '0'; }
    }
  }

  /** `Integer.parseInt` returns 1 exactly on the spellings of 1. */
  lemma ParseIntOne(s: string)
    ensures ParseInt(s) == Some(1) <==> SpellsOne(s)
  {
    var signed := |s| > 0 && (s[0] == '-' || s[0] == '+');
    var digits := if signed then s[1..] else s;
    if |digits| > 0 && AllDigits(digits) {
      DigitsValueOne(digits);
    }
    if |s| > 0 && s[0] == '+' {
      if PaddedOne(s[1..]) { PaddedOneDigits(s[1..]); }
    } else if PaddedOne(s) {
      PaddedOneDigits(s);
    }
  }

  /** Reads a reason: first the constant name, then the numbers 0 and 1, and
      WIDOWED for anything else; parsing never fails. */
  function ParseFromString(text: string): (r: FormerSpouseReason)
    ensures text == "WIDOWED" ==> r == WIDOWED
    ensures text == "DIVORCE" ==> r == DIVORCE
    ensures text != "WIDOWED" && text != "DIVORCE" ==> (r == DIVORCE <==> SpellsOne(text))
  {
    ParseIntOne(text);
    if text == "WIDOWED" then WIDOWED
    else if text == "DIVORCE" then DIVORCE
    else match ParseInt(text)
      case Some(0) => WIDOWED
      case Some(1) => DIVORCE
      case _ => WIDOWED
  }

  /** Every reason reads back from its own constant name. */
  lemma ParseConstantName(r: FormerSpouseReason)
    ensures ParseFromString(ConstantName(r)) == r
  {
  }

  /** Exactly one of the two predicates holds for every reason. */
  lemma ExactlyOneReason(r: FormerSpouseReason)
    ensures r.IsWidowed() != r.IsDivorce()
  {
  }

  /** The numeric codes 0 and 1 read back as the reasons with those ordinals, and
      so do their signed and zero-padded spellings. */
  lemma ParseNumericCodes()
    ensures ParseFromString("0") == WIDOWED && ParseFromString("1") == DIVORCE
    ensures ParseFromString("+1") == DIVORCE && ParseFromString("-0") == WIDOWED
    ensures ParseFromString("01") == DIVORCE
    ensures ParseFromString("2") == WIDOWED && ParseFromString("-1") == WIDOWED
    ensures ParseFromString("divorce") == WIDOWED && ParseFromString("") == WIDOWED
  {
    assert DigitsValue("1") == 1;
    assert DigitsValue("01") == 1 by { assert "01"[..1] == "0"; }
    assert DigitsValue("2") == 2;
    assert "+1"[1..] == "1";
    assert "-0"[1..] == "0";
    assert "-1"[1..] == "1";
    assert !AllDigits("divorce") by { assert !IsDigit("divorce"[0]); }
  }
}
