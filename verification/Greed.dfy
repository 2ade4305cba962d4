/** The Greed personality trait: its constants in declaration order with their
    positive and major flags, the saved-value parser and the ordinal lookup. */
module GreedTrait {
  import opened Wrappers

  datatype Greed =
    | NONE
    | ASTUTE
    | ADEPT
    | AVARICIOUS
    | CORRUPT
    | DYNAMIC
    | EAGER
    | ENTERPRISING
    | EXPLOITATIVE
    | FRAUDULENT
    | GENEROUS
    | GREEDY
    | HOARDING
    | INSATIABLE
    | INSIGHTFUL
    | INTUITIVE
    | JUDICIOUS
    | LUSTFUL
    | MERCENARY
    | METICULOUS
    | NEFARIOUS
    | OVERREACHING
    | PROFITABLE
    | SAVVY
    | SELF_SERVING
    | SHAMELESS
    | SHREWD
    | TACTICAL
    | THIEF
    | UNPRINCIPLED
    | VORACIOUS

  /** `values()`: every constant, in declaration order. */
  function Values(): (v: seq<Greed>)
    ensures |v| == 31
  {
    seq(31, i requires 0 <= i < 31 => OfOrdinal(i))
  }

  /** The constant declared at position i. */
  function OfOrdinal(i: nat): Greed
    requires i < 31
  {
    match i
    case 0 => NONE
    case 1 => ASTUTE
    case 2 => ADEPT
    case 3 => AVARICIOUS
    case 4 => CORRUPT
    case 5 => DYNAMIC
    case 6 => EAGER
    case 7 => ENTERPRISING
    case 8 => EXPLOITATIVE
    case 9 => FRAUDULENT
    case 10 => GENEROUS
    case 11 => GREEDY
    case 12 => HOARDING
    case 13 => INSATIABLE
    case 14 => INSIGHTFUL
    case 15 => INTUITIVE
    case 16 => JUDICIOUS
    case 17 => LUSTFUL
    case 18 => MERCENARY
    case 19 => METICULOUS
    case 20 => NEFARIOUS
    case 21 => OVERREACHING
    case 22 => PROFITABLE
    case 23 => SAVVY
    case 24 => SELF_SERVING
    case 25 => SHAMELESS
    case 26 => SHREWD
    case 27 => TACTICAL
    case 28 => THIEF
    case 29 => UNPRINCIPLED
    case _ => VORACIOUS
  }

  /** The position of a constant in its declaration. */
  function Ordinal(t: Greed): nat
  {
    match t
    case NONE => 0
    case ASTUTE => 1
    case ADEPT => 2
    case AVARICIOUS => 3
    case CORRUPT => 4
    case DYNAMIC => 5
    case EAGER => 6
    case ENTERPRISING => 7
    case EXPLOITATIVE => 8
    case FRAUDULENT => 9
    case GENEROUS => 10
    case GREEDY => 11
    case HOARDING => 12
    case INSATIABLE => 13
    case INSIGHTFUL => 14
    case INTUITIVE => 15
    case JUDICIOUS => 16
    case LUSTFUL => 17
    case MERCENARY => 18
    case METICULOUS => 19
    case NEFARIOUS => 20
    case OVERREACHING => 21
    case PROFITABLE => 22
    case SAVVY => 23
    case SELF_SERVING => 24
    case SHAMELESS => 25
    case SHREWD => 26
    case TACTICAL => 27
    case THIEF => 28
    case UNPRINCIPLED => 29
    case VORACIOUS => 30
  }

  predicate IsTraitPositive(t: Greed)
  {
    t in {ASTUTE, ADEPT, DYNAMIC, EAGER, ENTERPRISING, GENEROUS, INSIGHTFUL, INTUITIVE, JUDICIOUS, METICULOUS, PROFITABLE, SAVVY, SHREWD, TACTICAL, VORACIOUS}
  }

  predicate IsTraitMajor(t: Greed)
  {
    t in {CORRUPT, ENTERPRISING, INTUITIVE, METICULOUS, NEFARIOUS, THIEF}
  }

  predicate IsNone(t: Greed) { t == NONE }

  /** The cases of `parseFromString` in source order: case k carries the
      numeric label k and the name of the constant it yields. */
  function ByCode(): (v: seq<Greed>)
    ensures |v| == 31
  {
    seq(31, k requires 0 <= k < 31 => OfCode(k))
  }

  function OfCode(k: nat): Greed
    requires k < 31
  {
    match k
    case 0 => NONE
    case 1 => ASTUTE
    case 2 => ADEPT
    case 3 => AVARICIOUS
    case 4 => DYNAMIC
    case 5 => EAGER
    case 6 => EXPLOITATIVE
    case 7 => FRAUDULENT
    case 8 => GENEROUS
    case 9 => GREEDY
    case 10 => HOARDING
    case 11 => INSATIABLE
    case 12 => INSIGHTFUL
    case 13 => JUDICIOUS
    case 14 => LUSTFUL
    case 15 => MERCENARY
    case 16 => OVERREACHING
    case 17 => PROFITABLE
    case 18 => SAVVY
    case 19 => SELF_SERVING
    case 20 => SHAMELESS
    case 21 => SHREWD
    case 22 => TACTICAL
    case 23 => UNPRINCIPLED
    case 24 => VORACIOUS
    case 25 => CORRUPT
    case 26 => ENTERPRISING
    case 27 => INTUITIVE
    case 28 => METICULOUS
    case 29 => NEFARIOUS
    case _ => THIEF
  }

  /** The numeric label under which a constant is saved. */
  function Code(t: Greed): nat
  {
    match t
    case NONE => 0
    case ASTUTE => 1
    case ADEPT => 2
    case AVARICIOUS => 3
    case CORRUPT => 25
    case DYNAMIC => 4
    case EAGER => 5
    case ENTERPRISING => 26
    case EXPLOITATIVE => 6
    case FRAUDULENT => 7
    case GENEROUS => 8
    case GREEDY => 9
    case HOARDING => 10
    case INSATIABLE => 11
    case INSIGHTFUL => 12
    case INTUITIVE => 27
    case JUDICIOUS => 13
    case LUSTFUL => 14
    case MERCENARY => 15
    case METICULOUS => 28
    case NEFARIOUS => 29
    case OVERREACHING => 16
    case PROFITABLE => 17
    case SAVVY => 18
    case SELF_SERVING => 19
    case SHAMELESS => 20
    case SHREWD => 21
    case TACTICAL => 22
    case THIEF => 30
    case UNPRINCIPLED => 23
    case VORACIOUS => 24
  }

  /** The name label under which a constant is saved. */
  function Name(t: Greed): string
  {
    match t
    case NONE => "None"
    case ASTUTE => "Astute"
    case ADEPT => "Adept"
    case AVARICIOUS => "Avaricious"
    case CORRUPT => "Corrupt"
    case DYNAMIC => "Dynamic"
    case EAGER => "Eager"
    case ENTERPRISING => "Enterprising"
    case EXPLOITATIVE => "Exploitative"
    case FRAUDULENT => "Fraudulent"
    case GENEROUS => "Generous"
    case GREEDY => "Greedy"
    case HOARDING => "Hoarding"
    case INSATIABLE => "Insatiable"
    case INSIGHTFUL => "Insightful"
    case INTUITIVE => "Intuitive"
    case JUDICIOUS => "Judicious"
    case LUSTFUL => "Lustful"
    case MERCENARY => "Mercenary"
    case METICULOUS => "Meticulous"
    case NEFARIOUS => "Nefarious"
    case OVERREACHING => "Overreaching"
    case PROFITABLE => "Profitable"
    case SAVVY => "Savvy"
    case SELF_SERVING => "Self-Serving"
    case SHAMELESS => "Shameless"
    case SHREWD => "Shrewd"
    case TACTICAL => "Tactical"
    case THIEF => "Thief"
    case UNPRINCIPLED => "Unprincipled"
    case VORACIOUS => "Voracious"
  }

  /** Decimal text of a number below 100, without leading zeros. */
  function Numeral(n: nat): (s: string)
    requires n < 100
    ensures 1 <= |s| <= 2 && forall i :: 0 <= i < |s| ==> '0' <= s[i] <= '9'
  {
    if n < 10 then [Digit(n)] else [Digit(n / 10), Digit(n % 10)]
  }

  function Digit(d: nat): (c: char)
    requires d < 10
    ensures '0' <= c <= '9'
  {
    (d + '0' as int) as char
  }

  /** `parseFromString`: the numeric label or the name of a case yields that
      case's constant; any other text is an IllegalStateException. */
  function ParseFromString(s: string): (r: Result<Greed>)
    ensures r.Ok? ==> s == Numeral(Code(r.value)) || s == Name(r.value)
    ensures r.Err? ==> r.error == IllegalState
  {
    ParseCases(s, 0)
  }

  /** The switch's cases from case k on, tried in order. */
  function ParseCases(s: string, k: nat): (r: Result<Greed>)
    requires k <= |ByCode()|
    ensures r.Ok? ==> k <= Code(r.value) && (s == Numeral(Code(r.value)) || s == Name(r.value))
    ensures r.Err? ==> r.error == IllegalState
    decreases |ByCode()| - k
  {
    if k == |ByCode()| then Err(IllegalState)
    else
      var t := ByCode()[k];
      CodeIndexesCases(k);
      if s == Numeral(k) || s == Name(t) then Ok(t) else ParseCases(s, k + 1)
  }

  /** Case k of the switch yields the constant whose code is k, and back. */
  lemma CodeIndexesCases(k: nat)
    requires k < |ByCode()|
    ensures Code(ByCode()[k]) == k
  {
    assert ByCode()[k] == OfCode(k);
  }

  lemma CasesCoverCodes(t: Greed)
    ensures Code(t) < |ByCode()| && ByCode()[Code(t)] == t
  {
  }

  /** A fingerprint of a name label: its length and its first four letters. */
  function Key(s: string): (int, char, char, char, char)
    requires |s| >= 4
  {
    (|s|, s[0], s[1], s[2], s[3])
  }

  function FromKey(k: (int, char, char, char, char)): Greed
  {
    match k.0
    case 4 => NONE
    case 5 =>
      if (k.1, k.2, k.3, k.4) == ('A', 'd', 'e', 'p') then ADEPT
      else if (k.1, k.2, k.3, k.4) == ('E', 'a', 'g', 'e') then EAGER
      else if (k.1, k.2, k.3, k.4) == ('S', 'a', 'v', 'v') then SAVVY
      else THIEF
    case 6 =>
      if (k.1, k.2, k.3, k.4) == ('A', 's', 't', 'u') then ASTUTE
      else if (k.1, k.2, k.3, k.4) == ('G', 'r', 'e', 'e') then GREEDY
      else SHREWD
    case 7 =>
      if (k.1, k.2, k.3, k.4) == ('C', 'o', 'r', 'r') then CORRUPT
      else if (k.1, k.2, k.3, k.4) == ('D', 'y', 'n', 'a') then DYNAMIC
      else LUSTFUL
    case 8 =>
      if (k.1, k.2, k.3, k.4) == ('G', 'e', 'n', 'e') then GENEROUS
      else if (k.1, k.2, k.3, k.4) == ('H', 'o', 'a', 'r') then HOARDING
      else TACTICAL
    case 9 =>
      if (k.1, k.2, k.3, k.4) == ('I', 'n', 't', 'u') then INTUITIVE
      else if (k.1, k.2, k.3, k.4) == ('J', 'u', 'd', 'i') then JUDICIOUS
      else if (k.1, k.2, k.3, k.4) == ('M', 'e', 'r', 'c') then MERCENARY
      else if (k.1, k.2, k.3, k.4) == ('N', 'e', 'f', 'a') then NEFARIOUS
      else if (k.1, k.2, k.3, k.4) == ('S', 'h', 'a', 'm') then SHAMELESS
      else VORACIOUS
    case 10 =>
      if (k.1, k.2, k.3, k.4) == ('A', 'v', 'a', 'r') then AVARICIOUS
      else if (k.1, k.2, k.3, k.4) == ('F', 'r', 'a', 'u') then FRAUDULENT
      else if (k.1, k.2, k.3, k.4) == ('I', 'n', 's', 'a') then INSATIABLE
      else if (k.1, k.2, k.3, k.4) == ('I', 'n', 's', 'i') then INSIGHTFUL
      else if (k.1, k.2, k.3, k.4) == ('M', 'e', 't', 'i') then METICULOUS
      else PROFITABLE
    case _ =>
      if (k.1, k.2, k.3, k.4) == ('E', 'n', 't', 'e') then ENTERPRISING
      else if (k.1, k.2, k.3, k.4) == ('E', 'x', 'p', 'l') then EXPLOITATIVE
      else if (k.1, k.2, k.3, k.4) == ('O', 'v', 'e', 'r') then OVERREACHING
      else if (k.1, k.2, k.3, k.4) == ('S', 'e', 'l', 'f') then SELF_SERVING
      else UNPRINCIPLED
  }

  lemma KeyIdentifiesName(t: Greed)
    ensures |Name(t)| >= 4 && FromKey(Key(Name(t))) == t
    ensures 'A' <= Name(t)[0] <= 'Z'
  {
  }

  /** No two constants share a name label. */
  lemma {:induction false} NamesAreDistinct(a: Greed, b: Greed)
    ensures Name(a) == Name(b) ==> a == b
  {
    KeyIdentifiesName(a);
    KeyIdentifiesName(b);
  }

  /** No two numbers below 100 share a numeral. */
  lemma NumeralsAreDistinct(m: nat, n: nat)
    requires m < 100 && n < 100
    ensures Numeral(m) == Numeral(n) ==> m == n
  {
    if Numeral(m) == Numeral(n) {
      if m < 10 {
        assert Numeral(m)[0] == Numeral(n)[0];
      } else {
        assert Numeral(m)[0] == Numeral(n)[0] && Numeral(m)[1] == Numeral(n)[1];
      }
    }
  }

  lemma {:induction false} ParseCasesName(t: Greed, k: nat)
    requires k <= Code(t)
    ensures ParseCases(Name(t), k) == Ok(t)
    decreases Code(t) - k
  {
    CasesCoverCodes(t);
    KeyIdentifiesName(t);
    if k < Code(t) {
      CodeIndexesCases(k);
      NamesAreDistinct(t, ByCode()[k]);
      assert Name(t) != Numeral(k) by { assert Name(t)[0] != Numeral(k)[0]; }
      ParseCasesName(t, k + 1);
    }
  }

  lemma {:induction false} ParseCasesCode(t: Greed, k: nat)
    requires k <= Code(t)
    ensures Code(t) < 100 && ParseCases(Numeral(Code(t)), k) == Ok(t)
    decreases Code(t) - k
  {
    CasesCoverCodes(t);
    if k < Code(t) {
      CodeIndexesCases(k);
      NumeralsAreDistinct(Code(t), k);
      KeyIdentifiesName(ByCode()[k]);
      assert Numeral(Code(t)) != Name(ByCode()[k]) by {
        assert Numeral(Code(t))[0] != Name(ByCode()[k])[0];
      }
      ParseCasesCode(t, k + 1);
    }
  }

  /** Every constant reads back from its numeric label and from its name. */
  lemma ParseLabels(t: Greed)
    ensures Code(t) < 100
    ensures ParseFromString(Numeral(Code(t))) == Ok(t)
    ensures ParseFromString(Name(t)) == Ok(t)
  {
    ParseCasesName(t, 0);
    ParseCasesCode(t, 0);
  }

  /** The labels "0".."30" and the 31 constants are in one-to-one
      correspondence: every code is accepted, and no two constants share one. */
  lemma CodesAreBijective(n: nat, a: Greed, b: Greed)
    requires n < 31
    ensures ParseFromString(Numeral(n)).Ok? && Code(ParseFromString(Numeral(n)).value) == n
    ensures Code(a) < 31 && (Code(a) == Code(b) ==> a == b)
  {
    var t := ByCode()[n];
    CodeIndexesCases(n);
    ParseLabels(t);
    CasesCoverCodes(a);
    CasesCoverCodes(b);
  }

  /** Text that is neither a numeric label nor a name is rejected. */
  lemma UnknownTextRejected(s: string)
    requires forall t :: s != Numeral(Code(t)) && s != Name(t)
    ensures ParseFromString(s) == Err(IllegalState)
  {
  }

  /** The major traits are exactly those saved under codes 25..30. */
  lemma MajorIffHighCode(t: Greed)
    ensures IsTraitMajor(t) <==> Code(t) >= 25
  {
  }

  /** Saved codes are not ordinals: code 4 is DYNAMIC, whose ordinal is 5. */
  lemma CodesAreNotOrdinals()
    ensures ParseFromString("4") == Ok(DYNAMIC) && Ordinal(DYNAMIC) == 5
  {
    ParseLabels(DYNAMIC);
    assert Numeral(Code(DYNAMIC)) == "4";
  }

  /** `isNone` holds of NONE and of nothing else. */
  lemma IsNoneOnlyOfNone(t: Greed)
    ensures IsNone(t) <==> Ordinal(t) == 0
  {
  }

  /** `fromOrdinal`: a search of `values()` for the constant with the given
      ordinal, falling back to NONE. */
  method FromOrdinal(ordinal: int) returns (r: Greed)
    ensures 0 <= ordinal < |Values()| ==> r == Values()[ordinal] && Ordinal(r) == ordinal
    ensures !(0 <= ordinal < |Values()|) ==> r == NONE
  {
    var values := Values();
    var i := 0;
    while i < |values|
      invariant 0 <= i <= |values|
      invariant forall j :: 0 <= j < i ==> Ordinal(values[j]) != ordinal
    {
      OrdinalIndexesValues(i);
      if Ordinal(values[i]) == ordinal {
        return values[i];
      }
      i := i + 1;
    }
    return NONE;
  }

  /** `values()` lists the constants by ordinal. */
  lemma OrdinalIndexesValues(i: nat)
    requires i < |Values()|
    ensures Ordinal(Values()[i]) == i
  {
    assert Values()[i] == OfOrdinal(i);
  }
}
