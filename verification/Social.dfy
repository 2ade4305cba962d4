/** The Social personality trait: its constants in declaration order with their
    positive and major flags, the saved-value parser and the ordinal lookup. */
module SocialTrait {
  import opened Wrappers

  datatype Social =
    | NONE
    | ALTRUISTIC
    | APATHETIC
    | AUTHENTIC
    | BLUNT
    | CALLOUS
    | COMPASSIONATE
    | CONDESCENDING
    | CONSIDERATE
    | DISINGENUOUS
    | DISMISSIVE
    | ENCOURAGING
    | ERRATIC
    | EMPATHETIC
    | FRIENDLY
    | GREGARIOUS
    | INSPIRING
    | INDIFFERENT
    | INTROVERTED
    | IRRITABLE
    | NARCISSISTIC
    | NEGLECTFUL
    | POMPOUS
    | PETTY
    | PERSUASIVE
    | RECEPTIVE
    | SCHEMING
    | SINCERE
    | SUPPORTIVE
    | TACTFUL
    | UNTRUSTWORTHY

  /** `values()`: every constant, in declaration order. */
  function Values(): (v: seq<Social>)
    ensures |v| == 31
  {
    seq(31, i requires 0 <= i < 31 => OfOrdinal(i))
  }

  /** The constant declared at position i. */
  function OfOrdinal(i: nat): Social
    requires i < 31
  {
    match i
    case 0 => NONE
    case 1 => ALTRUISTIC
    case 2 => APATHETIC
    case 3 => AUTHENTIC
    case 4 => BLUNT
    case 5 => CALLOUS
    case 6 => COMPASSIONATE
    case 7 => CONDESCENDING
    case 8 => CONSIDERATE
    case 9 => DISINGENUOUS
    case 10 => DISMISSIVE
    case 11 => ENCOURAGING
    case 12 => ERRATIC
    case 13 => EMPATHETIC
    case 14 => FRIENDLY
    case 15 => GREGARIOUS
    case 16 => INSPIRING
    case 17 => INDIFFERENT
    case 18 => INTROVERTED
    case 19 => IRRITABLE
    case 20 => NARCISSISTIC
    case 21 => NEGLECTFUL
    case 22 => POMPOUS
    case 23 => PETTY
    case 24 => PERSUASIVE
    case 25 => RECEPTIVE
    case 26 => SCHEMING
    case 27 => SINCERE
    case 28 => SUPPORTIVE
    case 29 => TACTFUL
    case _ => UNTRUSTWORTHY
  }

  /** The position of a constant in its declaration. */
  function Ordinal(t: Social): nat
  {
    match t
    case NONE => 0
    case ALTRUISTIC => 1
    case APATHETIC => 2
    case AUTHENTIC => 3
    case BLUNT => 4
    case CALLOUS => 5
    case COMPASSIONATE => 6
    case CONDESCENDING => 7
    case CONSIDERATE => 8
    case DISINGENUOUS => 9
    case DISMISSIVE => 10
    case ENCOURAGING => 11
    case ERRATIC => 12
    case EMPATHETIC => 13
    case FRIENDLY => 14
    case GREGARIOUS => 15
    case INSPIRING => 16
    case INDIFFERENT => 17
    case INTROVERTED => 18
    case IRRITABLE => 19
    case NARCISSISTIC => 20
    case NEGLECTFUL => 21
    case POMPOUS => 22
    case PETTY => 23
    case PERSUASIVE => 24
    case RECEPTIVE => 25
    case SCHEMING => 26
    case SINCERE => 27
    case SUPPORTIVE => 28
    case TACTFUL => 29
    case UNTRUSTWORTHY => 30
  }

  predicate IsTraitPositive(t: Social)
  {
    t in {ALTRUISTIC, AUTHENTIC, COMPASSIONATE, CONSIDERATE, ENCOURAGING, EMPATHETIC, FRIENDLY, GREGARIOUS, INSPIRING, INTROVERTED, PERSUASIVE, RECEPTIVE, SINCERE, SUPPORTIVE, TACTFUL}
  }

  predicate IsTraitMajor(t: Social)
  {
    t in {ALTRUISTIC, COMPASSIONATE, GREGARIOUS, NARCISSISTIC, POMPOUS, SCHEMING}
  }

  predicate IsNone(t: Social) { t == NONE }

  /** The cases of `parseFromString` in source order: case k carries the
      numeric label k and the name of the constant it yields. */
  function ByCode(): (v: seq<Social>)
    ensures |v| == 31
  {
    seq(31, k requires 0 <= k < 31 => OfCode(k))
  }

  function OfCode(k: nat): Social
    requires k < 31
  {
    match k
    case 0 => NONE
    case 1 => APATHETIC
    case 2 => AUTHENTIC
    case 3 => BLUNT
    case 4 => CALLOUS
    case 5 => CONDESCENDING
    case 6 => CONSIDERATE
    case 7 => DISINGENUOUS
    case 8 => DISMISSIVE
    case 9 => ENCOURAGING
    case 10 => ERRATIC
    case 11 => EMPATHETIC
    case 12 => FRIENDLY
    case 13 => INSPIRING
    case 14 => INDIFFERENT
    case 15 => INTROVERTED
    case 16 => IRRITABLE
    case 17 => NEGLECTFUL
    case 18 => PETTY
    case 19 => PERSUASIVE
    case 20 => RECEPTIVE
    case 21 => SINCERE
    case 22 => SUPPORTIVE
    case 23 => TACTFUL
    case 24 => UNTRUSTWORTHY
    case 25 => ALTRUISTIC
    case 26 => COMPASSIONATE
    case 27 => GREGARIOUS
    case 28 => NARCISSISTIC
    case 29 => POMPOUS
    case _ => SCHEMING
  }

  /** The numeric label under which a constant is saved. */
  function Code(t: Social): nat
  {
    match t
    case NONE => 0
    case ALTRUISTIC => 25
    case APATHETIC => 1
    case AUTHENTIC => 2
    case BLUNT => 3
    case CALLOUS => 4
    case COMPASSIONATE => 26
    case CONDESCENDING => 5
    case CONSIDERATE => 6
    case DISINGENUOUS => 7
    case DISMISSIVE => 8
    case ENCOURAGING => 9
    case ERRATIC => 10
    case EMPATHETIC => 11
    case FRIENDLY => 12
    case GREGARIOUS => 27
    case INSPIRING => 13
    case INDIFFERENT => 14
    case INTROVERTED => 15
    case IRRITABLE => 16
    case NARCISSISTIC => 28
    case NEGLECTFUL => 17
    case POMPOUS => 29
    case PETTY => 18
    case PERSUASIVE => 19
    case RECEPTIVE => 20
    case SCHEMING => 30
    case SINCERE => 21
    case SUPPORTIVE => 22
    case TACTFUL => 23
    case UNTRUSTWORTHY => 24
  }

  /** The name label under which a constant is saved. */
  function Name(t: Social): string
  {
    match t
    case NONE => "None"
    case ALTRUISTIC => "Altruistic"
    case APATHETIC => "Apathetic"
    case AUTHENTIC => "Authentic"
    case BLUNT => "Blunt"
    case CALLOUS => "Callous"
    case COMPASSIONATE => "Compassionate"
    case CONDESCENDING => "Condescending"
    case CONSIDERATE => "Considerate"
    case DISINGENUOUS => "Disingenuous"
    case DISMISSIVE => "Dismissive"
    case ENCOURAGING => "Encouraging"
    case ERRATIC => "Erratic"
    case EMPATHETIC => "Empathetic"
    case FRIENDLY => "Friendly"
    case GREGARIOUS => "Gregarious"
    case INSPIRING => "Inspiring"
    case INDIFFERENT => "Indifferent"
    case INTROVERTED => "Introverted"
    case IRRITABLE => "Irritable"
    case NARCISSISTIC => "Narcissistic"
    case NEGLECTFUL => "Neglectful"
    case POMPOUS => "Pompous"
    case PETTY => "Petty"
    case PERSUASIVE => "Persuasive"
    case RECEPTIVE => "Receptive"
    case SCHEMING => "Scheming"
    case SINCERE => "Sincere"
    case SUPPORTIVE => "Supportive"
    case TACTFUL => "Tactful"
    case UNTRUSTWORTHY => "Untrustworthy"
  }

  /** Decimal text of a number below 100, without leading zeros. */
  function Numeral(n: nat): (s: string)
    requires n < 100
    ensures 1 <= |s| <= 2 && forall i :: 0 <= i < |s| ==> '0' <= s[i] <= '9'
  {
    if n < 10 then [Digit(n)] else [Digit(n / 10), Digit(n % 10)]
  }

  function Digit(d: nat): (c: char)
    requires d < 10
    ensures '0' <= c <= '9'
  {
    (d + '0' as int) as char
  }

  /** `parseFromString`: the numeric label or the name of a case yields that
      case's constant; any other text is an IllegalStateException. */
  function ParseFromString(s: string): (r: Result<Social>)
    ensures r.Ok? ==> s == Numeral(Code(r.value)) || s == Name(r.value)
    ensures r.Err? ==> r.error == IllegalState
  {
    ParseCases(s, 0)
  }

  /** The switch's cases from case k on, tried in order. */
  function ParseCases(s: string, k: nat): (r: Result<Social>)
    requires k <= |ByCode()|
    ensures r.Ok? ==> k <= Code(r.value) && (s == Numeral(Code(r.value)) || s == Name(r.value))
    ensures r.Err? ==> r.error == IllegalState
    decreases |ByCode()| - k
  {
    if k == |ByCode()| then Err(IllegalState)
    else
      var t := ByCode()[k];
      CodeIndexesCases(k);
      if s == Numeral(k) || s == Name(t) then Ok(t) else ParseCases(s, k + 1)
  }

  /** Case k of the switch yields the constant whose code is k, and back. */
  lemma CodeIndexesCases(k: nat)
    requires k < |ByCode()|
    ensures Code(ByCode()[k]) == k
  {
    assert ByCode()[k] == OfCode(k);
  }

  lemma CasesCoverCodes(t: Social)
    ensures Code(t) < |ByCode()| && ByCode()[Code(t)] == t
  {
  }

  /** A fingerprint of a name label: its length and its first four letters. */
  function Key(s: string): (int, char, char, char, char)
    requires |s| >= 4
  {
    (|s|, s[0], s[1], s[2], s[3])
  }

  function FromKey(k: (int, char, char, char, char)): Social
  {
    match k.0
    case 4 => NONE
    case 5 =>
      if (k.1, k.2, k.3, k.4) == ('B', 'l', 'u', 'n') then BLUNT
      else PETTY
    case 7 =>
      if (k.1, k.2, k.3, k.4) == ('C', 'a', 'l', 'l') then CALLOUS
      else if (k.1, k.2, k.3, k.4) == ('E', 'r', 'r', 'a') then ERRATIC
      else if (k.1, k.2, k.3, k.4) == ('P', 'o', 'm', 'p') then POMPOUS
      else if (k.1, k.2, k.3, k.4) == ('S', 'i', 'n', 'c') then SINCERE
      else TACTFUL
    case 8 =>
      if (k.1, k.2, k.3, k.4) == ('F', 'r', 'i', 'e') then FRIENDLY
      else SCHEMING
    case 9 =>
      if (k.1, k.2, k.3, k.4) == ('A', 'p', 'a', 't') then APATHETIC
      else if (k.1, k.2, k.3, k.4) == ('A', 'u', 't', 'h') then AUTHENTIC
      else if (k.1, k.2, k.3, k.4) == ('I', 'n', 's', 'p') then INSPIRING
      else if (k.1, k.2, k.3, k.4) == ('I', 'r', 'r', 'i') then IRRITABLE
      else RECEPTIVE
    case 10 =>
      if (k.1, k.2, k.3, k.4) == ('A', 'l', 't', 'r') then ALTRUISTIC
      else if (k.1, k.2, k.3, k.4) == ('D', 'i', 's', 'm') then DISMISSIVE
      else if (k.1, k.2, k.3, k.4) == ('E', 'm', 'p', 'a') then EMPATHETIC
      else if (k.1, k.2, k.3, k.4) == ('G', 'r', 'e', 'g') then GREGARIOUS
      else if (k.1, k.2, k.3, k.4) == ('N', 'e', 'g', 'l') then NEGLECTFUL
      else if (k.1, k.2, k.3, k.4) == ('P', 'e', 'r', 's') then PERSUASIVE
      else SUPPORTIVE
    case 11 =>
      if (k.1, k.2, k.3, k.4) == ('C', 'o', 'n', 's') then CONSIDERATE
      else if (k.1, k.2, k.3, k.4) == ('E', 'n', 'c', 'o') then ENCOURAGING
      else if (k.1, k.2, k.3, k.4) == ('I', 'n', 'd', 'i') then INDIFFERENT
      else INTROVERTED
    case 12 =>
      if (k.1, k.2, k.3, k.4) == ('D', 'i', 's', 'i') then DISINGENUOUS
      else NARCISSISTIC
    case _ =>
      if (k.1, k.2, k.3, k.4) == ('C', 'o', 'm', 'p') then COMPASSIONATE
      else if (k.1, k.2, k.3, k.4) == ('C', 'o', 'n', 'd') then CONDESCENDING
      else UNTRUSTWORTHY
  }

  lemma KeyIdentifiesName(t: Social)
    ensures |Name(t)| >= 4 && FromKey(Key(Name(t))) == t
    ensures 'A' <= Name(t)[0] <= 'Z'
  {
  }

  /** No two constants share a name label. */
  lemma {:induction false} NamesAreDistinct(a: Social, b: Social)
    ensures Name(a) == Name(b) ==> a == b
  {
    KeyIdentifiesName(a);
    KeyIdentifiesName(b);
  }

  /** No two numbers below 100 share a numeral. */
  lemma NumeralsAreDistinct(m: nat, n: nat)
    requires m < 100 && n < 100
    ensures Numeral(m) == Numeral(n) ==> m == n
  {
    if Numeral(m) == Numeral(n) {
      if m < 10 {
        assert Numeral(m)[0] == Numeral(n)[0];
      } else {
        assert Numeral(m)[0] == Numeral(n)[0] && Numeral(m)[1] == Numeral(n)[1];
      }
    }
  }

  lemma {:induction false} ParseCasesName(t: Social, k: nat)
    requires k <= Code(t)
    ensures ParseCases(Name(t), k) == Ok(t)
    decreases Code(t) - k
  {
    CasesCoverCodes(t);
    KeyIdentifiesName(t);
    if k < Code(t) {
      CodeIndexesCases(k);
      NamesAreDistinct(t, ByCode()[k]);
      assert Name(t) != Numeral(k) by { assert Name(t)[0] != Numeral(k)[0]; }
      ParseCasesName(t, k + 1);
    }
  }

  lemma {:induction false} ParseCasesCode(t: Social, k: nat)
    requires k <= Code(t)
    ensures Code(t) < 100 && ParseCases(Numeral(Code(t)), k) == Ok(t)
    decreases Code(t) - k
  {
    CasesCoverCodes(t);
    if k < Code(t) {
      CodeIndexesCases(k);
      NumeralsAreDistinct(Code(t), k);
      KeyIdentifiesName(ByCode()[k]);
      assert Numeral(Code(t)) != Name(ByCode()[k]) by {
        assert Numeral(Code(t))[0] != Name(ByCode()[k])[0];
      }
      ParseCasesCode(t, k + 1);
    }
  }

  /** Every constant reads back from its numeric label and from its name. */
  lemma ParseLabels(t: Social)
    ensures Code(t) < 100
    ensures ParseFromString(Numeral(Code(t))) == Ok(t)
    ensures ParseFromString(Name(t)) == Ok(t)
  {
    ParseCasesName(t, 0);
    ParseCasesCode(t, 0);
  }

  /** The labels "0".."30" and the 31 constants are in one-to-one
      correspondence: every code is accepted, and no two constants share one. */
  lemma CodesAreBijective(n: nat, a: Social, b: Social)
    requires n < 31
    ensures ParseFromString(Numeral(n)).Ok? && Code(ParseFromString(Numeral(n)).value) == n
    ensures Code(a) < 31 && (Code(a) == Code(b) ==> a == b)
  {
    var t := ByCode()[n];
    CodeIndexesCases(n);
    ParseLabels(t);
    CasesCoverCodes(a);
    CasesCoverCodes(b);
  }

  /** Text that is neither a numeric label nor a name is rejected. */
  lemma UnknownTextRejected(s: string)
    requires forall t :: s != Numeral(Code(t)) && s != Name(t)
    ensures ParseFromString(s) == Err(IllegalState)
  {
  }

  /** The major traits are exactly those saved under codes 25..30. */
  lemma MajorIffHighCode(t: Social)
    ensures IsTraitMajor(t) <==> Code(t) >= 25
  {
  }

  /** Saved codes are not ordinals: code 1 is APATHETIC, whose ordinal is 2. */
  lemma CodesAreNotOrdinals()
    ensures ParseFromString("1") == Ok(APATHETIC) && Ordinal(APATHETIC) == 2
  {
    ParseLabels(APATHETIC);
    assert Numeral(Code(APATHETIC)) == "1";
  }

  /** `isNone` holds of NONE and of nothing else. */
  lemma IsNoneOnlyOfNone(t: Social)
    ensures IsNone(t) <==> Ordinal(t) == 0
  {
  }

  /** `fromOrdinal`: a search of `values()` for the constant with the given
      ordinal, falling back to NONE. */
  method FromOrdinal(ordinal: int) returns (r: Social)
    ensures 0 <= ordinal < |Values()| ==> r == Values()[ordinal] && Ordinal(r) == ordinal
    ensures !(0 <= ordinal < |Values()|) ==> r == NONE
  {
    var values := Values();
    var i := 0;
    while i < |values|
      invariant 0 <= i <= |values|
      invariant forall j :: 0 <= j < i ==> Ordinal(values[j]) != ordinal
    {
      OrdinalIndexesValues(i);
      if Ordinal(values[i]) == ordinal {
        return values[i];
      }
      i := i + 1;
    }
    return NONE;
  }

  /** `values()` lists the constants by ordinal. */
  lemma OrdinalIndexesValues(i: nat)
    requires i < |Values()|
    ensures Ordinal(Values()[i]) == i
  {
    assert Values()[i] == OfOrdinal(i);
  }
}
