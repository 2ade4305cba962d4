/** Personality generation: the intelligence threshold table, trait rolls per
    table, the ordered list of trait descriptions, the description assembled
    from it, the quirk re-roll loop and the regenerate-until-described rule.

    Random draws, the description texts and the pronoun are inputs.  The
    Aggression, Ambition and PersonalityQuirk enums are represented by their
    ordinals, with ordinal 0 standing for NONE. */
module Personality {
  import opened Wrappers
  import SocialTrait
  import GreedTrait

  type Social = SocialTrait.Social
  type Greed = GreedTrait.Greed

  /** Aggression and Ambition are laid out like Social and Greed: 31 constants,
      NONE first, the six major traits last. */
  const TRAIT_CONSTANTS: nat := 31

  datatype Intelligence =
    | BRAIN_DEAD | UNINTELLIGENT | FOOLISH | SIMPLE | SLOW | UNINSPIRED | DULL
    | DIMWITTED | OBTUSE | BELOW_AVERAGE | UNDER_PERFORMING | LIMITED_INSIGHT
    | AVERAGE | ABOVE_AVERAGE | STUDIOUS | DISCERNING | SHARP | QUICK_WITTED
    | PERCEPTIVE | BRIGHT | CLEVER | INTELLECTUAL | BRILLIANT | EXCEPTIONAL | GENIUS

  /** The position of a level in the threshold chain, from BRAIN_DEAD (0) to GENIUS (24). */
  function Rank(i: Intelligence): nat
  {
    match i
    case BRAIN_DEAD => 0 case UNINTELLIGENT => 1 case FOOLISH => 2 case SIMPLE => 3
    case SLOW => 4 case UNINSPIRED => 5 case DULL => 6 case DIMWITTED => 7
    case OBTUSE => 8 case BELOW_AVERAGE => 9 case UNDER_PERFORMING => 10
    case LIMITED_INSIGHT => 11 case AVERAGE => 12 case ABOVE_AVERAGE => 13
    case STUDIOUS => 14 case DISCERNING => 15 case SHARP => 16 case QUICK_WITTED => 17
    case PERCEPTIVE => 18 case BRIGHT => 19 case CLEVER => 20 case INTELLECTUAL => 21
    case BRILLIANT => 22 case EXCEPTIONAL => 23 case GENIUS => 24
  }

  /** The exclusive upper roll bound of the k-th level. */
  function Upper(k: nat): int
    requires k < 25
  {
    match k
    case 0 => 1 case 1 => 2 case 2 => 4 case 3 => 8 case 4 => 16 case 5 => 29
    case 6 => 52 case 7 => 92 case 8 => 162 case 9 => 285 case 10 => 501
    case 11 => 878 case 12 => 7028 case 13 => 7594 case 14 => 7917 case 15 => 8102
    case 16 => 8208 case 17 => 8268 case 18 => 8302 case 19 => 8322 case 20 => 8333
    case 21 => 8339 case 22 => 8343 case 23 => 8345 case _ => 8346
  }

  /** `generateIntelligence`: the first level whose bound exceeds the roll; a
      roll of 8346 or more is an IllegalStateException.  A roll lies in the band
      of the level it yields: at or above the previous level's bound and below
      its own. */
  function GenerateIntelligence(roll: int): (r: Result<Intelligence>)
    ensures r.Ok? <==> roll < 8346
    ensures r.Err? ==> r.error == IllegalState
  {
    if roll < 1 then Ok(BRAIN_DEAD)
    else if roll < 2 then Ok(UNINTELLIGENT)
    else if roll < 4 then Ok(FOOLISH)
    else if roll < 8 then Ok(SIMPLE)
    else if roll < 16 then Ok(SLOW)
    else if roll < 29 then Ok(UNINSPIRED)
    else if roll < 52 then Ok(DULL)
    else if roll < 92 then Ok(DIMWITTED)
    else if roll < 162 then Ok(OBTUSE)
    else if roll < 285 then Ok(BELOW_AVERAGE)
    else if roll < 501 then Ok(UNDER_PERFORMING)
    else if roll < 878 then Ok(LIMITED_INSIGHT)
    else if roll < 7028 then Ok(AVERAGE)
    else if roll < 7594 then Ok(ABOVE_AVERAGE)
    else if roll < 7917 then Ok(STUDIOUS)
    else if roll < 8102 then Ok(DISCERNING)
    else if roll < 8208 then Ok(SHARP)
    else if roll < 8268 then Ok(QUICK_WITTED)
    else if roll < 8302 then Ok(PERCEPTIVE)
    else if roll < 8322 then Ok(BRIGHT)
    else if roll < 8333 then Ok(CLEVER)
    else if roll < 8339 then Ok(INTELLECTUAL)
    else if roll < 8343 then Ok(BRILLIANT)
    else if roll < 8345 then Ok(EXCEPTIONAL)
    else if roll < 8346 then Ok(GENIUS)
    else Err(IllegalState)
  }

  /** A roll lies in the band of the level it yields: at or above the previous
      level's bound and below its own. */
  lemma IntelligenceBand(roll: int)
    requires roll < 8346
    ensures var k := Rank(GenerateIntelligence(roll).value);
      k < 25 && roll < Upper(k) && (k > 0 ==> Upper(k - 1) <= roll)
  {
  }

  lemma UpperStep(k: nat)
    requires k + 1 < 25
    ensures Upper(k) < Upper(k + 1)
  {
  }

  /** The bounds strictly increase, so the bands do not overlap. */
  lemma {:induction false} UpperIncreasing(i: nat, j: nat)
    requires i < j < 25
    ensures Upper(i) < Upper(j)
    decreases j - i
  {
    UpperStep(i);
    if i + 1 < j {
      UpperIncreasing(i + 1, j);
    }
  }

  /** The 25 bands partition [0, 8346): every roll there falls in exactly one
      band, and that band's level is what the roll yields. */
  lemma {:induction false} IntelligenceBandsPartition(roll: int, k: nat)
    requires 0 <= roll < 8346 && k < 25
    ensures Upper(0) == 1 && Upper(24) == 8346
    ensures (roll < Upper(k) && (k == 0 || Upper(k - 1) <= roll))
            <==> (GenerateIntelligence(roll).Ok? && Rank(GenerateIntelligence(roll).value) == k)
  {
    var r := GenerateIntelligence(roll);
    var j := Rank(r.value);
    IntelligenceBand(roll);
    if roll < Upper(k) && (k == 0 || Upper(k - 1) <= roll) {
      if j < k {
        UpperIncreasing(j, k - 1);
      } else if k < j {
        UpperIncreasing(k, j - 1);
      }
    }
  }

  /** A higher roll never yields a lower level. */
  lemma {:induction false} IntelligenceMonotone(roll1: int, roll2: int)
    requires roll1 <= roll2 < 8346
    ensures Rank(GenerateIntelligence(roll1).value) <= Rank(GenerateIntelligence(roll2).value)
  {
    var a := Rank(GenerateIntelligence(roll1).value);
    var b := Rank(GenerateIntelligence(roll2).value);
    IntelligenceBand(roll1);
    IntelligenceBand(roll2);
    if b < a {
      UpperIncreasing(b, a - 1);
    }
  }

  /** Only the rolls 878..7027 give an average intellect, the one level that
      adds no description. */
  lemma AverageBand(roll: int)
    ensures GenerateIntelligence(roll) == Ok(AVERAGE) <==> 878 <= roll < 7028
  {
  }

  // ----- trait values -----

  /** A person's personality traits; Aggression, Ambition and quirk by ordinal. */
  datatype Traits = Traits(
    aggression: nat, ambition: nat, greed: Greed, social: Social,
    quirk: nat, intelligence: Intelligence)

  /** `fromOrdinal` of the Social and Greed enums, as a value. */
  function SocialOf(o: int): (s: Social)
    ensures 0 <= o < 31 ==> SocialTrait.Ordinal(s) == o
    ensures !(0 <= o < 31) ==> s == SocialTrait.NONE
  {
    if 0 <= o < 31 then SocialTrait.OrdinalIndexesValues(o); SocialTrait.Values()[o]
    else SocialTrait.NONE
  }

  function GreedOf(o: int): (g: Greed)
    ensures 0 <= o < 31 ==> GreedTrait.Ordinal(g) == o
    ensures !(0 <= o < 31) ==> g == GreedTrait.NONE
  {
    if 0 <= o < 31 then GreedTrait.OrdinalIndexesValues(o); GreedTrait.Values()[o]
    else GreedTrait.NONE
  }

  /** `fromOrdinal` of the Aggression and Ambition enums: the ordinal when in
      range, NONE otherwise. */
  function OrdinalOrNone(o: int): nat
  {
    if 0 <= o < TRAIT_CONSTANTS then o else 0
  }

  /** The trait roll after the major-trait bump: a roll of 25 becomes 25..30. */
  function BumpedRoll(traitRoll: int, d6: int): int
  {
    if traitRoll == 25 then traitRoll + d6 - 1 else traitRoll
  }

  /** The traits after setting table `table` (0 aggression, 1 ambition,
      2 greed, 3 social) from the ordinal `o`. */
  function WithTrait(t: Traits, table: int, o: int): Traits
    requires 0 <= table < 4
  {
    match table
    case 0 => t.(aggression := OrdinalOrNone(o))
    case 1 => t.(ambition := OrdinalOrNone(o))
    case 2 => t.(greed := GreedOf(o))
    case _ => t.(social := SocialOf(o))
  }

  /** A trait roll of 1..25 lands in 1..30 after the bump, so the trait set is
      never NONE, and only the chosen table changes. */
  lemma RolledTraitNeverNone(t: Traits, table: int, traitRoll: int, d6: int)
    requires 0 <= table < 4 && 1 <= traitRoll <= 25 && 1 <= d6 <= 6
    ensures 1 <= BumpedRoll(traitRoll, d6) <= 30
    ensures (traitRoll == 25) == (BumpedRoll(traitRoll, d6) >= 25)
    ensures var u := WithTrait(t, table, BumpedRoll(traitRoll, d6));
      match table
      case 0 => u.aggression != 0 && u == t.(aggression := u.aggression)
      case 1 => u.ambition != 0 && u == t.(ambition := u.ambition)
      case 2 => u.greed != GreedTrait.NONE && u == t.(greed := u.greed)
      case _ => u.social != SocialTrait.NONE && u == t.(social := u.social)
  {
  }

  /** Whether the traits yield any description at all. */
  predicate HasTrait(t: Traits)
  {
    t.aggression != 0 || t.ambition != 0 || t.greed != GreedTrait.NONE
    || t.social != SocialTrait.NONE || t.intelligence != AVERAGE || t.quirk != 0
  }

  // ----- descriptions -----

  /** A description template: literal text with the two format arguments, the
      forward name and the plural suffix. */
  datatype Piece = Text(s: string) | Forward | Plural
  type Template = seq<Piece>

  /** The description texts of every trait value. */
  datatype Texts = Texts(
    aggression: nat -> Template, ambition: nat -> Template,
    greed: Greed -> Template, social: Social -> Template,
    intelligence: Intelligence -> Template, quirk: nat -> Template)

  /** `getTraitDescriptions`: aggression, ambition, greed, social, then a
      non-average intelligence, then the quirk, each only when not NONE. */
  function TraitDescriptions(t: Traits, texts: Texts): (d: seq<Template>)
    ensures |d| == 0 <==> !HasTrait(t)
    ensures |d| <= 6
  {
    (if t.aggression != 0 then [texts.aggression(t.aggression)] else [])
    + (if t.ambition != 0 then [texts.ambition(t.ambition)] else [])
    + (if t.greed != GreedTrait.NONE then [texts.greed(t.greed)] else [])
    + (if t.social != SocialTrait.NONE then [texts.social(t.social)] else [])
    + (if t.intelligence != AVERAGE then [texts.intelligence(t.intelligence)] else [])
    + (if t.quirk != 0 then [texts.quirk(t.quirk)] else [])
  }

  /** `String.format` of a template with the forward name and plural suffix. */
  function Format(t: Template, forward: string, plural: string): string
  {
    if t == [] then ""
    else
      var head := match t[0]
        case Text(s) => s
        case Forward => forward
        case Plural => plural;
      head + Format(t[1..], forward, plural)
  }

  /** The text appended for the entry at `index`: a space, then the template
      with the first name and "s" at even indices, the pronoun and "" at odd. */
  function Entry(t: Template, index: nat, firstName: string, pronoun: string): (e: string)
    ensures |e| > 0 && e[0] == ' '
  {
    var forward := if index % 2 == 0 then firstName else pronoun;
    var plural := if index % 2 == 0 then "s" else "";
    " " + Format(t, forward, plural)
  }

  /** The first n entries, appended in order. */
  function Assemble(entries: seq<Template>, n: nat, firstName: string, pronoun: string): string
    requires n <= |entries|
  {
    if n == 0 then ""
    else Assemble(entries, n - 1, firstName, pronoun) + Entry(entries[n - 1], n - 1, firstName, pronoun)
  }

  /** Each entry adds at least one character. */
  lemma {:induction false} AssembleLength(entries: seq<Template>, n: nat, firstName: string, pronoun: string)
    requires n <= |entries|
    ensures |Assemble(entries, n, firstName, pronoun)| >= n
  {
    if n > 0 {
      AssembleLength(entries, n - 1, firstName, pronoun);
    }
  }

  /** The description grows entry by entry: what was assembled after m
      entries is a prefix of what is assembled after n, and the character
      that follows it is the space that opens entry m. */
  lemma {:induction false} AssembleShape(entries: seq<Template>, m: nat, n: nat, firstName: string, pronoun: string)
    requires m < n <= |entries|
    ensures var whole := Assemble(entries, n, firstName, pronoun);
      var before := Assemble(entries, m, firstName, pronoun);
      |before| < |whole| && whole[..|before|] == before && whole[|before|] == ' '
    decreases n - m
  {
    var prev := Assemble(entries, n - 1, firstName, pronoun);
    var whole := Assemble(entries, n, firstName, pronoun);
    assert whole == prev + Entry(entries[n - 1], n - 1, firstName, pronoun);
    if m < n - 1 {
      AssembleShape(entries, m, n - 1, firstName, pronoun);
      var before := Assemble(entries, m, firstName, pronoun);
      assert whole[..|before|] == prev[..|before|];
    } else {
      assert whole[..|prev|] == prev;
    }
  }

  /** An empty description means exactly that there were no entries. */
  lemma AssembleEmptyIff(entries: seq<Template>, firstName: string, pronoun: string)
    ensures Assemble(entries, |entries|, firstName, pronoun) == "" <==> |entries| == 0
  {
    if |entries| > 0 {
      AssembleShape(entries, 0, |entries|, firstName, pronoun);
    }
  }

  /** A random reordering of a description list (`Collections.shuffle`). */
  type Shuffle = seq<Template> -> seq<Template>

  ghost predicate IsShuffle(shuffle: Shuffle)
  {
    forall l: seq<Template> :: multiset(shuffle(l)) == multiset(l)
  }

  /** The description a person with traits t gets under a given shuffle. */
  function Description(t: Traits, texts: Texts, shuffle: Shuffle, firstName: string, pronoun: string): string
  {
    var entries := shuffle(TraitDescriptions(t, texts));
    Assemble(entries, |entries|, firstName, pronoun)
  }

  /** A person's description is empty exactly when they have no trait. */
  lemma DescriptionEmptyIff(t: Traits, texts: Texts, shuffle: Shuffle, firstName: string, pronoun: string)
    requires IsShuffle(shuffle)
    ensures Description(t, texts, shuffle, firstName, pronoun) == "" <==> !HasTrait(t)
  {
    var list := TraitDescriptions(t, texts);
    var entries := shuffle(list);
    assert |multiset(entries)| == |multiset(list)|;
    AssembleEmptyIff(entries, firstName, pronoun);
  }

  // ----- the person and the controller -----

  class Person {
    var aggression: nat
    var ambition: nat
    var greed: Greed
    var social: Social
    var quirk: nat
    var intelligence: Intelligence
    var description: string
    const firstName: string

    constructor (firstName: string)
      ensures this.firstName == firstName
      ensures CurrentTraits() == Traits(0, 0, GreedTrait.NONE, SocialTrait.NONE, 0, AVERAGE)
      ensures description == ""
    {
      this.firstName := firstName;
      aggression, ambition, greed, social := 0, 0, GreedTrait.NONE, SocialTrait.NONE;
      quirk, intelligence, description := 0, AVERAGE, "";
    }

    function CurrentTraits(): Traits
      reads this
    {
      Traits(aggression, ambition, greed, social, quirk, intelligence)
    }
  }

  /** `setPersonalityTrait`: bumps a roll of 25 by a d6 and sets the trait of
      the chosen table from the resulting ordinal; a table outside 0..3 is an
      IllegalStateException that changes nothing. */
  method SetPersonalityTrait(p: Person, tableRoll: int, traitRoll: int, d6: int) returns (r: Result<int>)
    requires 1 <= d6 <= 6
    modifies p
    ensures !(0 <= tableRoll < 4) ==> r == Err(IllegalState)
    ensures 0 <= tableRoll < 4 ==> r == Ok(BumpedRoll(traitRoll, d6))
    ensures p.CurrentTraits() == (if 0 <= tableRoll < 4 then WithTrait(old(p.CurrentTraits()), tableRoll, BumpedRoll(traitRoll, d6))
                           else old(p.CurrentTraits()))
    ensures p.description == old(p.description)
  {
    var roll := traitRoll;
    if roll == 25 {
      roll := roll + d6 - 1;
    }
    if tableRoll == 0 {
      p.aggression := OrdinalOrNone(roll);
    } else if tableRoll == 1 {
      p.ambition := OrdinalOrNone(roll);
    } else if tableRoll == 2 {
      var g := GreedTrait.FromOrdinal(roll);
      p.greed := g;
    } else if tableRoll == 3 {
      var s := SocialTrait.FromOrdinal(roll);
      p.social := s;
    } else {
      return Err(IllegalState);
    }
    return Ok(roll);
  }

  /** The draw index at which the quirk re-roll loop stops: the first draw
      that is not NONE. */
  function FirstQuirk(draws: seq<nat>): (i: nat)
    requires exists i :: 0 <= i < |draws| && draws[i] != 0
    ensures i < |draws| && draws[i] != 0
    ensures forall j :: 0 <= j < i ==> draws[j] == 0
  {
    if draws[0] != 0 then 0 else 1 + FirstQuirk(draws[1..])
  }

  /** `generatePersonalityQuirk`: draws quirk ordinals until one is not NONE. */
  method GeneratePersonalityQuirk(draws: seq<nat>, quirkCount: nat) returns (q: nat)
    requires forall i :: 0 <= i < |draws| ==> draws[i] < quirkCount
    requires exists i :: 0 <= i < |draws| && draws[i] != 0
    ensures q != 0 && q < quirkCount
    ensures q == draws[FirstQuirk(draws)]
  {
    q := 0;
    var i := 0;
    while q == 0
      invariant 0 <= i <= FirstQuirk(draws) + 1
      invariant q == 0 ==> i <= FirstQuirk(draws)
      invariant q != 0 ==> q == draws[FirstQuirk(draws)] && i == FirstQuirk(draws) + 1
      decreases FirstQuirk(draws) + 1 - i
    {
      q := draws[i];
      i := i + 1;
    }
  }

  /** `writeDescription`: the shuffled trait descriptions appended one by one,
      each after a space. */
  method WriteDescription(p: Person, texts: Texts, shuffle: Shuffle, pronoun: string)
    modifies p`description
    ensures p.description == Description(p.CurrentTraits(), texts, shuffle, p.firstName, pronoun)
  {
    var entries := shuffle(TraitDescriptions(p.CurrentTraits(), texts));
    var sb := "";
    for index := 0 to |entries|
      invariant sb == Assemble(entries, index, p.firstName, pronoun)
    {
      var forward := if index % 2 == 0 then p.firstName else pronoun;
      var plural := if index % 2 == 0 then "s" else "";
      sb := sb + " ";
      sb := sb + Format(entries[index], forward, plural);
    }
    p.description := sb;
  }

  /** The random draws of one pass of `generatePersonality`. */
  datatype Attempt = Attempt(
    tableDraws: seq<int>,      // randomInt(6) per table; 0 means roll on it
    traitDraws: seq<int>,      // randomInt(25) per table
    d6s: seq<int>,             // the bump die per table
    quirkGate: int,            // randomInt(10); 0 means a quirk
    quirkDraws: seq<nat>,      // the quirk re-roll draws
    intelligenceDraw: int,     // randomInt(8346)
    shuffle: Shuffle)

  ghost predicate ValidAttempt(a: Attempt, quirkCount: nat)
  {
    |a.tableDraws| == 4 && |a.traitDraws| == 4 && |a.d6s| == 4
    && (forall i :: 0 <= i < 4 ==> 0 <= a.traitDraws[i] < 25 && 1 <= a.d6s[i] <= 6)
    && (forall i :: 0 <= i < |a.quirkDraws| ==> a.quirkDraws[i] < quirkCount)
    && (exists i :: 0 <= i < |a.quirkDraws| && a.quirkDraws[i] != 0)
    && 0 <= a.intelligenceDraw < 8346
    && IsShuffle(a.shuffle)
  }

  /** The traits after the table rolls of tables 0..n-1, starting from no traits. */
  function TableRolls(a: Attempt, n: nat): Traits
    requires n <= 4 && |a.tableDraws| == 4 && |a.traitDraws| == 4 && |a.d6s| == 4
  {
    if n == 0 then Traits(0, 0, GreedTrait.NONE, SocialTrait.NONE, 0, AVERAGE)
    else
      var t := TableRolls(a, n - 1);
      if a.tableDraws[n - 1] == 0 then WithTrait(t, n - 1, BumpedRoll(a.traitDraws[n - 1] + 1, a.d6s[n - 1]))
      else t
  }

  /** The traits one pass produces. */
  function Outcome(a: Attempt, quirkCount: nat): Traits
    requires ValidAttempt(a, quirkCount)
  {
    var t := TableRolls(a, 4);
    var q := if a.quirkGate == 0 then a.quirkDraws[FirstQuirk(a.quirkDraws)] else 0;
    t.(quirk := q, intelligence := GenerateIntelligence(a.intelligenceDraw).value)
  }

  /** Every trait one pass sets from a table is a real (non-NONE) trait, and the
      quirk, when rolled, is one too. */
  lemma {:induction false} OutcomeTraitsInRange(a: Attempt, quirkCount: nat, n: nat)
    requires ValidAttempt(a, quirkCount) && n <= 4
    ensures var t := TableRolls(a, n);
      (t.aggression != 0 <==> n > 0 && a.tableDraws[0] == 0)
      && (t.ambition != 0 <==> n > 1 && a.tableDraws[1] == 0)
      && (t.greed != GreedTrait.NONE <==> n > 2 && a.tableDraws[2] == 0)
      && (t.social != SocialTrait.NONE <==> n > 3 && a.tableDraws[3] == 0)
      && t.aggression <= 30 && t.ambition <= 30
    ensures n == 4 ==> (Outcome(a, quirkCount).quirk != 0 <==> a.quirkGate == 0)
  {
    if n > 0 {
      OutcomeTraitsInRange(a, quirkCount, n - 1);
      var t := TableRolls(a, n - 1);
      if a.tableDraws[n - 1] == 0 {
        RolledTraitNeverNone(t, n - 1, a.traitDraws[n - 1] + 1, a.d6s[n - 1]);
      }
    }
  }

  /** The pass whose result stays: the first that describes anything, or the
      last one when none does. */
  function Chosen(attempts: seq<Attempt>, quirkCount: nat): (k: nat)
    requires |attempts| > 0 && forall i :: 0 <= i < |attempts| ==> ValidAttempt(attempts[i], quirkCount)
    ensures k < |attempts|
    ensures forall j :: 0 <= j < k ==> !HasTrait(Outcome(attempts[j], quirkCount))
    ensures HasTrait(Outcome(attempts[k], quirkCount)) || k == |attempts| - 1
  {
    if HasTrait(Outcome(attempts[0], quirkCount)) || |attempts| == 1 then 0
    else 1 + Chosen(attempts[1..], quirkCount)
  }

  /** `generatePersonality`: clears every trait, rolls each table with a 1 in 6
      chance, a quirk with a 1 in 10 chance and the intelligence, writes the
      description, and starts over while the description is empty.  The passes
      are supplied as a finite sequence; after the last one the loop stops. */
  method GeneratePersonality(p: Person, attempts: seq<Attempt>, quirkCount: nat, texts: Texts, pronoun: string)
    requires |attempts| > 0 && forall i :: 0 <= i < |attempts| ==> ValidAttempt(attempts[i], quirkCount)
    modifies p
    ensures p.CurrentTraits() == Outcome(attempts[Chosen(attempts, quirkCount)], quirkCount)
    ensures p.description == Description(p.CurrentTraits(), texts, attempts[Chosen(attempts, quirkCount)].shuffle, p.firstName, pronoun)
    ensures p.description == "" <==> !HasTrait(p.CurrentTraits())
    ensures (exists i :: 0 <= i < |attempts| && HasTrait(Outcome(attempts[i], quirkCount))) ==> p.description != ""
    decreases |attempts|
  {
    GeneratePass(p, attempts[0], quirkCount, texts, pronoun);
    if p.description == "" && |attempts| > 1 {
      GeneratePersonality(p, attempts[1..], quirkCount, texts, pronoun);
    }
  }

  /** One pass of `generatePersonality`, up to the emptiness test. */
  method GeneratePass(p: Person, a: Attempt, quirkCount: nat, texts: Texts, pronoun: string)
    requires ValidAttempt(a, quirkCount)
    modifies p
    ensures p.CurrentTraits() == Outcome(a, quirkCount)
    ensures p.description == Description(p.CurrentTraits(), texts, a.shuffle, p.firstName, pronoun)
    ensures p.description == "" <==> !HasTrait(p.CurrentTraits())
  {
    RollTraits(p, a, quirkCount);
    WriteDescription(p, texts, a.shuffle, pronoun);
    DescriptionEmptyIff(p.CurrentTraits(), texts, a.shuffle, p.firstName, pronoun);
  }

  /** The traits of one pass: cleared, rolled on the tables, then the quirk
      and the intelligence. */
  method RollTraits(p: Person, a: Attempt, quirkCount: nat)
    requires ValidAttempt(a, quirkCount)
    modifies p
    ensures p.CurrentTraits() == Outcome(a, quirkCount)
    ensures p.description == old(p.description)
  {
    p.aggression, p.ambition := 0, 0;
    p.greed, p.social := GreedTrait.NONE, SocialTrait.NONE;
    p.quirk := 0;
    RollTables(p, a);
    if a.quirkGate == 0 {
      var q := GeneratePersonalityQuirk(a.quirkDraws, quirkCount);
      p.quirk := q;
    }
    var intelligence := GenerateIntelligence(a.intelligenceDraw);
    p.intelligence := intelligence.value;
  }

  /** The four table rolls of one pass, on a person whose table traits are clear. */
  method RollTables(p: Person, a: Attempt)
    requires |a.tableDraws| == 4 && |a.traitDraws| == 4 && |a.d6s| == 4
    requires forall i :: 0 <= i < 4 ==> 1 <= a.d6s[i] <= 6
    requires p.aggression == 0 && p.ambition == 0 && p.greed == GreedTrait.NONE && p.social == SocialTrait.NONE
    modifies p
    ensures p.CurrentTraits() == TableRolls(a, 4).(quirk := old(p.quirk), intelligence := old(p.intelligence))
    ensures p.description == old(p.description)
  {
    for table := 0 to 4
      invariant p.CurrentTraits() == TableRolls(a, table).(quirk := old(p.quirk), intelligence := old(p.intelligence))
      invariant p.description == old(p.description)
    {
      if a.tableDraws[table] == 0 {
        var _ := SetPersonalityTrait(p, table, a.traitDraws[table] + 1, a.d6s[table]);
      }
    }
  }
}
