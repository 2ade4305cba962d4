/** The injury types of the advanced medical system: their recovery times,
    severities, levels, valid locations and skill modifiers, the stress effects
    each type generates, how those effects change an injury and its person, and
    the one-time registration of the types.

    Die rolls and the healing time of a newly created injury are inputs.  What
    a type does not override is the behaviour of the InjuryType base class,
    which is not part of this model; the functions below return None there. */
module InjuryTypes {
  import opened Wrappers

  datatype BodyLocation =
    | HEAD | CHEST | ABDOMEN | INTERNAL | GENERIC
    | LEFT_ARM | LEFT_HAND | RIGHT_ARM | RIGHT_HAND
    | LEFT_LEG | LEFT_FOOT | RIGHT_LEG | RIGHT_FOOT

  /** Arms and hands. */
  predicate IsArmSide(loc: BodyLocation)
  {
    loc == LEFT_ARM || loc == LEFT_HAND || loc == RIGHT_ARM || loc == RIGHT_HAND
  }

  /** Legs and feet. */
  predicate IsLegSide(loc: BodyLocation)
  {
    loc == LEFT_LEG || loc == LEFT_FOOT || loc == RIGHT_LEG || loc == RIGHT_FOOT
  }

  predicate IsLimb(loc: BodyLocation)
  {
    IsArmSide(loc) || IsLegSide(loc)
  }

  datatype InjuryLevel = CHRONIC | MINOR | MAJOR | DEADLY

  datatype InjuryKind =
    | CUT | BRUISE | LACERATION | SPRAIN | CONCUSSION | BROKEN_RIB | BRUISED_KIDNEY
    | BROKEN_LIMB | BROKEN_COLLAR_BONE | INTERNAL_BLEEDING | LOST_LIMB
    | REPLACEMENT_LIMB_RECOVERY | CEREBRAL_CONTUSION | PUNCTURED_LUNG | CTE
    | BROKEN_BACK | SEVERED_SPINE

  datatype ModifierValue = GUNNERY | PILOTING
  datatype Modifier = Modifier(value: ModifierValue, amount: int)

  /** Java's Integer.MAX_VALUE, the modifier that rules a skill out. */
  const INTEGER_MAX: int := 0x7fff_ffff

  // ----- per-type tables -----

  /** The `recoveryTime` a type sets; None when it keeps the inherited one. */
  function BaseRecoveryTime(k: InjuryKind): Option<int>
  {
    match k
    case SEVERED_SPINE => Some(180)
    case BROKEN_BACK => Some(150)
    case CTE => Some(180)
    case PUNCTURED_LUNG => Some(20)
    case CEREBRAL_CONTUSION => Some(90)
    case LOST_LIMB => Some(28)
    case REPLACEMENT_LIMB_RECOVERY => Some(42)
    case INTERNAL_BLEEDING => Some(20)
    case BROKEN_COLLAR_BONE => Some(22)
    case BROKEN_LIMB => Some(30)
    case BRUISED_KIDNEY => Some(10)
    case BROKEN_RIB => Some(20)
    case CONCUSSION => Some(14)
    case SPRAIN => Some(12)
    case LACERATION => None
    case BRUISE => None
    case CUT => None
  }

  /** `getRecoveryTime(severity)`: internal bleeding and concussion scale with
      severity; the other types return their `recoveryTime`. */
  function RecoveryTime(k: InjuryKind, severity: int): (r: Option<int>)
    ensures r.None? <==> k == LACERATION || k == BRUISE || k == CUT
    ensures r.Some? && severity >= 0 ==> r.value >= 0
  {
    match k
    case INTERNAL_BLEEDING => Some(20 * severity)
    case CONCUSSION => Some(if severity >= 2 then 42 else 14)
    case _ => BaseRecoveryTime(k)
  }

  /** The `maxSeverity` a type sets; None when it keeps the inherited one. */
  function MaxSeverity(k: InjuryKind): Option<int>
  {
    match k
    case INTERNAL_BLEEDING => Some(3)
    case CONCUSSION => Some(2)
    case _ => None
  }

  /** `permanent`: set by severed spine, CTE and lost limb; cleared by
      replacement-limb recovery; the inherited value elsewhere. */
  function Permanent(k: InjuryKind): Option<bool>
  {
    match k
    case SEVERED_SPINE => Some(true)
    case CTE => Some(true)
    case LOST_LIMB => Some(true)
    case REPLACEMENT_LIMB_RECOVERY => Some(false)
    case _ => None
  }

  /** `getLevel(injury)`: internal bleeding is deadly above two hits, a
      concussion major above one; the other types have a fixed level. */
  function Level(k: InjuryKind, hits: int): (r: InjuryLevel)
    ensures r == DEADLY <==> k == CTE || (k == INTERNAL_BLEEDING && hits > 2)
    ensures r == CHRONIC <==> k == SEVERED_SPINE || ImpliesMissingLocation(k)
  {
    match k
    case INTERNAL_BLEEDING => if hits > 2 then DEADLY else MAJOR
    case CONCUSSION => if hits > 1 then MAJOR else MINOR
    case SEVERED_SPINE => CHRONIC
    case LOST_LIMB => CHRONIC
    case REPLACEMENT_LIMB_RECOVERY => CHRONIC
    case CTE => DEADLY
    case BROKEN_BACK => MAJOR
    case PUNCTURED_LUNG => MAJOR
    case CEREBRAL_CONTUSION => MAJOR
    case BROKEN_COLLAR_BONE => MAJOR
    case BROKEN_LIMB => MAJOR
    case BROKEN_RIB => MAJOR
    case BRUISED_KIDNEY => MINOR
    case SPRAIN => MINOR
    case LACERATION => MINOR
    case BRUISE => MINOR
    case CUT => MINOR
  }

  /** `isValidInLocation`: limb types accept exactly the limbs, bruises and cuts
      the limbs, chest and abdomen, and the rest their allowed locations. */
  function IsValidInLocation(k: InjuryKind, loc: BodyLocation): (r: bool)
    ensures ImpliesMissingLocation(k) ==> (r <==> IsLimb(loc))
    ensures r && loc == INTERNAL ==> k == INTERNAL_BLEEDING
    ensures r && loc == HEAD ==> k in {CTE, CEREBRAL_CONTUSION, CONCUSSION, LACERATION}
  {
    match k
    case LOST_LIMB => IsLimb(loc)
    case REPLACEMENT_LIMB_RECOVERY => IsLimb(loc)
    case BROKEN_LIMB => IsLimb(loc)
    case SPRAIN => IsLimb(loc)
    case BRUISE => IsLimb(loc) || loc == CHEST || loc == ABDOMEN
    case CUT => IsLimb(loc) || loc == CHEST || loc == ABDOMEN
    case SEVERED_SPINE => loc == CHEST || loc == ABDOMEN
    case BROKEN_BACK => loc == CHEST
    case CTE => loc == HEAD
    case PUNCTURED_LUNG => loc == CHEST
    case CEREBRAL_CONTUSION => loc == HEAD
    case INTERNAL_BLEEDING => loc == ABDOMEN || loc == INTERNAL
    case BROKEN_COLLAR_BONE => loc == CHEST
    case BRUISED_KIDNEY => loc == ABDOMEN
    case BROKEN_RIB => loc == CHEST
    case CONCUSSION => loc == HEAD
    case LACERATION => loc == HEAD
  }

  /** `impliesMissingLocation`: only a lost limb and a replacement limb still
      recovering mean the location is gone. */
  function ImpliesMissingLocation(k: InjuryKind): bool
  {
    k == LOST_LIMB || k == REPLACEMENT_LIMB_RECOVERY
  }

  /** The modifier of a limb injury: `arm` on the arm side, `leg` on the leg side. */
  function LimbModifier(loc: BodyLocation, arm: int, leg: int): seq<Modifier>
  {
    if IsArmSide(loc) then [Modifier(GUNNERY, arm)]
    else if IsLegSide(loc) then [Modifier(PILOTING, leg)]
    else []
  }

  /** `getModifiers(injury)` of the types that override it; None for those
      that keep the inherited list. */
  function Modifiers(k: InjuryKind, loc: BodyLocation, permanent: bool): (r: Option<seq<Modifier>>)
    ensures r.Some? ==> |r.value| <= 2 && forall m :: m in r.value ==> m.amount > 0
    ensures r.Some? && ImpliesMissingLocation(k) && IsLimb(loc) ==> |r.value| == 1
  {
    match k
    case SEVERED_SPINE => Some([Modifier(PILOTING, INTEGER_MAX)])
    case BROKEN_BACK => Some([Modifier(GUNNERY, 3), Modifier(PILOTING, 3)])
    case CTE => Some([Modifier(PILOTING, INTEGER_MAX)])
    case CEREBRAL_CONTUSION => Some([Modifier(PILOTING, 2)])
    case LOST_LIMB => Some(LimbModifier(loc, 3, 3))
    case REPLACEMENT_LIMB_RECOVERY => Some(LimbModifier(loc, 6, 6))
    case BROKEN_LIMB => var m := if permanent then 1 else 2; Some(LimbModifier(loc, m, m))
    case CONCUSSION => Some([Modifier(PILOTING, 1)])
    case SPRAIN => Some(LimbModifier(loc, 1, 1))
    case _ => None
  }

  // ----- properties of the tables -----

  /** Internal bleeding heals in 20 days per severity level, up to severity 3;
      a concussion of severity 2 or more takes three times as long as a mild one. */
  lemma RecoveryTimes(severity: int)
    ensures MaxSeverity(INTERNAL_BLEEDING) == Some(3) && MaxSeverity(CONCUSSION) == Some(2)
    ensures 1 <= severity <= 3 ==>
      (RecoveryTime(INTERNAL_BLEEDING, severity) == Some(20 * severity)
       && 20 <= RecoveryTime(INTERNAL_BLEEDING, severity).value <= 60)
    ensures RecoveryTime(CONCUSSION, severity) == Some(if severity >= 2 then 42 else 14)
    ensures RecoveryTime(CONCUSSION, 2).value == 3 * RecoveryTime(CONCUSSION, 1).value
  {
  }

  function LevelRank(l: InjuryLevel): nat
  {
    match l
    case CHRONIC => 0
    case MINOR => 1
    case MAJOR => 2
    case DEADLY => 3
  }

  /** Internal bleeding is deadly exactly above two hits and major otherwise; a
      concussion is major exactly above one hit and minor otherwise; for every
      type, more hits never lower the level. */
  lemma LevelThresholds(k: InjuryKind, hits: int, more: int)
    requires hits <= more
    ensures Level(INTERNAL_BLEEDING, hits) == DEADLY <==> hits > 2
    ensures Level(INTERNAL_BLEEDING, hits) != DEADLY ==> Level(INTERNAL_BLEEDING, hits) == MAJOR
    ensures Level(CONCUSSION, hits) == MAJOR <==> hits > 1
    ensures Level(CONCUSSION, hits) != MAJOR ==> Level(CONCUSSION, hits) == MINOR
    ensures LevelRank(Level(k, hits)) <= LevelRank(Level(k, more))
  {
  }

  /** Limb injuries modify gunnery on the arm side and piloting on the leg side,
      and nothing elsewhere; a broken limb costs 1 when permanent and 2 otherwise. */
  lemma LimbModifiersFollowTheLimb(k: InjuryKind, loc: BodyLocation, permanent: bool)
    requires k in {LOST_LIMB, REPLACEMENT_LIMB_RECOVERY, BROKEN_LIMB, SPRAIN}
    ensures Modifiers(k, loc, permanent).Some?
    ensures var mods := Modifiers(k, loc, permanent).value;
      (mods == [] <==> !IsLimb(loc))
      && (IsArmSide(loc) ==> |mods| == 1 && mods[0].value == GUNNERY)
      && (IsLegSide(loc) ==> |mods| == 1 && mods[0].value == PILOTING)
      && (forall m :: m in mods ==> m.amount > 0)
    ensures k == BROKEN_LIMB && IsLimb(loc) ==>
      Modifiers(k, loc, permanent).value[0].amount == (if permanent then 1 else 2)
  {
  }

  /** The types that imply a missing location are exactly the two that are
      valid in a limb and nowhere else among the permanent-or-chronic ones:
      each is valid in a location iff it is a limb. */
  lemma MissingLocationTypesAreLimbOnly(k: InjuryKind, loc: BodyLocation)
    requires ImpliesMissingLocation(k)
    ensures IsValidInLocation(k, loc) <==> IsLimb(loc)
    ensures Level(k, 1) == CHRONIC
  {
  }

  // ----- stress effects -----

  /** Java's `Math.round` of a / b for positive b: the nearest integer, halves up. */
  function RoundDiv(a: int, b: int): int
    requires b > 0
  {
    (2 * a + b) / (2 * b)
  }

  /** The chance, in percent, printed in the effect text for a stress of
      `hits`: `Math.max(Math.round((1 + hits) * 100.0 / 6.0), 100)`. */
  function ShownChance(hits: int): (r: int)
    ensures r >= 100
  {
    var p := RoundDiv((1 + hits) * 100, 6);
    if p > 100 then p else 100
  }

  /** The percentage the d6 test `roll + hits >= 5` actually passes with, over
      the six rolls 0..5, rounded as the text rounds. */
  function ActualChance(hits: int): int
  {
    var passing := if hits >= 5 then 6 else if hits < 0 then 0 else hits + 1;
    RoundDiv(passing * 100, 6)
  }

  /** The evidently intended text value, `Math.min` in place of `Math.max`. */
  function IntendedChance(hits: int): (r: int)
    ensures r <= 100
    ensures hits >= 0 ==> r > 0
  {
    var p := RoundDiv((1 + hits) * 100, 6);
    if p < 100 then p else 100
  }

  /** The number the effect texts print is always at least 100, so for every
      stress of 0..4 hits the text says "100% chance" although the die test
      passes only (1 + hits) times in 6; the `Math.min` reading gives the real
      figure. */
  lemma {:induction false} ShownChanceIsAlwaysHundred(hits: int)
    requires 0 <= hits <= 4
    ensures ShownChance(hits) == 100
    ensures IntendedChance(hits) == ActualChance(hits) < 100
  {
    assert (1 + hits) * 100 <= 500;
  }

  /** Concrete instance: a stress of 0 hits is printed as a certain event but
      passes on one roll in six. */
  lemma ShownChanceExample()
    ensures ShownChance(0) == 100 && ActualChance(0) == 17 && IntendedChance(0) == 17
  {
  }

  /** One game effect of a stress roll; the d6 effects carry the chance their
      text shows, None when the stress is 5 hits or more and no chance is
      shown. */
  datatype Effect =
    | ResetRecoveryTime
    | CertainDeath
    | SpineSeverChance
    | DeathOnD6(hits: int, shown: Option<int>)
    | CteOnD6(hits: int, shown: Option<int>)
    | BleedingOnD6(hits: int, shown: Option<int>)
    | KidneyBleedChance
    | RibPunctureChance
    | ConcussionOnD6(hits: int, shown: Option<int>)

  /** The chance shown for the second effect of a worsening injury. */
  function ChanceIfBelowFive(hits: int): Option<int>
  {
    if hits < 5 then Some(ShownChance(hits)) else None
  }

  /** `genStressEffect(c, p, injury, hits)` of the types that override it:
      the effects a stress of `hits` produces on an injury with `injuryHits`. */
  function StressEffects(k: InjuryKind, injuryHits: int, hits: int): (r: Option<seq<Effect>>)
    ensures r.Some? ==> 1 <= |r.value| <= 2
    ensures r.Some? && |r.value| == 2 ==> r.value[0] == ResetRecoveryTime
    ensures r.Some? ==> forall e :: e in r.value && ShownChanceOf(e).Some? ==> ShownChanceOf(e).value >= 100
  {
    match k
    case BROKEN_BACK => Some([SpineSeverChance])
    case CTE =>
      if hits > 4 then Some([CertainDeath])
      else Some([ResetRecoveryTime, DeathOnD6(hits, Some(ShownChance(hits)))])
    case PUNCTURED_LUNG => Some([ResetRecoveryTime])
    case CEREBRAL_CONTUSION => Some([ResetRecoveryTime, CteOnD6(hits, ChanceIfBelowFive(hits))])
    case INTERNAL_BLEEDING =>
      if hits >= 5 && injuryHits >= 3 then Some([CertainDeath])
      else Some([ResetRecoveryTime, BleedingOnD6(hits, ChanceIfBelowFive(hits))])
    case BROKEN_COLLAR_BONE => Some([ResetRecoveryTime])
    case BROKEN_LIMB => Some([ResetRecoveryTime])
    case BRUISED_KIDNEY => Some([KidneyBleedChance])
    case BROKEN_RIB => Some([RibPunctureChance])
    case CONCUSSION => Some([ResetRecoveryTime, ConcussionOnD6(hits, ChanceIfBelowFive(hits))])
    case _ => None
  }

  /** A hopeless stress yields a single certain death: internal bleeding at
      three or more hits under a stress of five or more, CTE above four; every
      other stress on those types resets the recovery time first. */
  lemma CertainDeathCases(injuryHits: int, hits: int)
    ensures StressEffects(INTERNAL_BLEEDING, injuryHits, hits) == Some([CertainDeath])
            <==> hits >= 5 && injuryHits >= 3
    ensures StressEffects(CTE, injuryHits, hits) == Some([CertainDeath]) <==> hits > 4
    ensures var e := StressEffects(INTERNAL_BLEEDING, injuryHits, hits).value;
      e != [CertainDeath] ==> |e| == 2 && e[0] == ResetRecoveryTime
    ensures var e := StressEffects(CTE, injuryHits, hits).value;
      e != [CertainDeath] ==> |e| == 2 && e[0] == ResetRecoveryTime
  {
  }

  /** As written, every chance an effect text shows is at least 100, so a
      stress of 0..4 hits is announced as certain although its die test may
      fail. */
  lemma StressChancesShownAsCertain(k: InjuryKind, injuryHits: int, hits: int)
    requires StressEffects(k, injuryHits, hits).Some?
    ensures forall e :: e in StressEffects(k, injuryHits, hits).value && ShownChanceOf(e).Some? ==>
      ShownChanceOf(e).value >= 100
    ensures 0 <= hits <= 4 ==> ActualChance(hits) < 100
  {
    if 0 <= hits <= 4 {
      ShownChanceIsAlwaysHundred(hits);
    }
  }

  /** The effect with the `Math.min` figure in place of the printed one. */
  function Corrected(e: Effect): (c: Effect)
    ensures ShownChanceOf(c).Some? <==> ShownChanceOf(e).Some?
    ensures ShownChanceOf(e).None? ==> c == e
    ensures ShownChanceOf(e).Some? ==> c == e.(shown := Some(IntendedChance(e.hits)))
  {
    match e
    case DeathOnD6(h, shown) => DeathOnD6(h, if shown.Some? then Some(IntendedChance(h)) else None)
    case CteOnD6(h, shown) => CteOnD6(h, if shown.Some? then Some(IntendedChance(h)) else None)
    case BleedingOnD6(h, shown) => BleedingOnD6(h, if shown.Some? then Some(IntendedChance(h)) else None)
    case ConcussionOnD6(h, shown) => ConcussionOnD6(h, if shown.Some? then Some(IntendedChance(h)) else None)
    case _ => e
  }

  /** With the corrected figure, every chance an effect text shows is the
      chance its die test really passes with. */
  lemma StressChancesAreAccurate(k: InjuryKind, injuryHits: int, hits: int)
    requires 0 <= hits
    requires StressEffects(k, injuryHits, hits).Some?
    ensures forall e :: e in StressEffects(k, injuryHits, hits).value && ShownChanceOf(e).Some? ==>
      ShownChanceOf(Corrected(e)).value == ActualChance(hits) && ActualChance(hits) <= 100
  {
    if hits <= 4 {
      ShownChanceIsAlwaysHundred(hits);
    }
  }

  /** The chance an effect's text shows, if it shows one. */
  function ShownChanceOf(e: Effect): Option<int>
  {
    match e
    case DeathOnD6(_, shown) => shown
    case CteOnD6(_, shown) => shown
    case BleedingOnD6(_, shown) => shown
    case ConcussionOnD6(_, shown) => shown
    case _ => None
  }

  /** Whether a d6 effect fires: the roll (0..5) plus the stress reaches 5. */
  predicate D6Fires(roll: int, hits: int)
  {
    roll + hits >= 5
  }

  // ----- injuries and persons -----

  datatype PersonnelStatus = ACTIVE | WOUNDS

  class Injury {
    const kind: InjuryKind
    const location: BodyLocation
    var hits: int
    var time: int
    var originalTime: int

    /** `newInjury(c, p, loc, severity)`: an injury with the given severity as
        its hit count and the (randomised) healing time as both its original
        and its remaining time. */
    constructor (kind: InjuryKind, location: BodyLocation, severity: int, healingTime: int)
      ensures this.kind == kind && this.location == location && hits == severity
      ensures time == healingTime && originalTime == healingTime
    {
      this.kind := kind;
      this.location := location;
      hits := severity;
      time := healingTime;
      originalTime := healingTime;
    }
  }

  /** The list with every occurrence of x taken out. */
  function Without(s: seq<Injury>, x: Injury): (r: seq<Injury>)
    ensures x !in r
    ensures forall y :: y in s && y != x ==> y in r
    ensures forall y :: y in r ==> y in s
  {
    if s == [] then []
    else if s[0] == x then Without(s[1..], x)
    else [s[0]] + Without(s[1..], x)
  }

  class Person {
    var status: PersonnelStatus
    var injuries: seq<Injury>

    constructor ()
      ensures status == ACTIVE && injuries == []
    {
      status := ACTIVE;
      injuries := [];
    }

    method AddInjury(i: Injury)
      modifies this`injuries
      ensures injuries == old(injuries) + [i]
    {
      injuries := injuries + [i];
    }

    method RemoveInjury(i: Injury)
      modifies this`injuries
      ensures injuries == Without(old(injuries), i)
    {
      injuries := Without(injuries, i);
    }
  }

  /** Applies one effect to injury `i` of person `p`.  `roll` is the die the
      effect rolls (0..5 for a d6 test, 0..99 for a percentage) and
      `healingTime` the healing time of any injury the effect creates, which
      is returned. */
  method ApplyEffect(p: Person, i: Injury, e: Effect, roll: int, healingTime: int) returns (created: Option<Injury>)
    modifies p, i
    ensures i.originalTime == old(i.originalTime)
    ensures created.Some? ==>
      (fresh(created.value) && created.value.hits == 1
       && created.value.time == healingTime && created.value.originalTime == healingTime)
    ensures e == ResetRecoveryTime ==>
      i.time == old(i.originalTime) && i.hits == old(i.hits) && p.status == old(p.status)
      && p.injuries == old(p.injuries) && created.None?
    ensures e == CertainDeath ==>
      p.status == WOUNDS && i.hits == old(i.hits) && p.injuries == old(p.injuries) && created.None?
    ensures e == SpineSeverChance ==>
      i.hits == old(i.hits) && p.status == old(p.status)
      && (roll < 20 ==> created.Some? && created.value.kind == SEVERED_SPINE && created.value.location == CHEST
                        && p.injuries == old(p.injuries) + [created.value])
      && (roll >= 20 ==> created.None? && p.injuries == old(p.injuries))
    ensures e.DeathOnD6? ==>
      i.hits == old(i.hits) && p.injuries == old(p.injuries) && created.None?
      && p.status == (if D6Fires(roll, e.hits) then WOUNDS else old(p.status))
    ensures e.CteOnD6? ==>
      i.hits == old(i.hits) && p.status == old(p.status)
      && (D6Fires(roll, e.hits) ==>
            (created.Some? && created.value.kind == CTE && created.value.location == HEAD
             && p.injuries == Without(old(p.injuries), i) + [created.value]))
      && (!D6Fires(roll, e.hits) ==> created.None? && p.injuries == old(p.injuries))
    ensures e.BleedingOnD6? ==>
      p.injuries == old(p.injuries) && created.None?
      && (D6Fires(roll, e.hits) && old(i.hits) < 3 ==> i.hits == old(i.hits) + 1 && p.status == old(p.status))
      && (D6Fires(roll, e.hits) && old(i.hits) >= 3 ==> i.hits == old(i.hits) && p.status == WOUNDS)
      && (!D6Fires(roll, e.hits) ==> i.hits == old(i.hits) && p.status == old(p.status))
    ensures e == KidneyBleedChance ==>
      i.hits == old(i.hits) && p.status == old(p.status)
      && (roll < 10 ==> created.Some? && created.value.kind == INTERNAL_BLEEDING && created.value.location == ABDOMEN
                        && p.injuries == old(p.injuries) + [created.value])
      && (roll >= 10 ==> created.None? && p.injuries == old(p.injuries))
    ensures e == RibPunctureChance ==>
      i.hits == old(i.hits)
      && (roll < 1 ==> p.status == WOUNDS && p.injuries == old(p.injuries) && created.None?)
      && (1 <= roll < 10 ==> p.status == old(p.status) && created.Some? && created.value.kind == PUNCTURED_LUNG
                             && created.value.location == CHEST && p.injuries == old(p.injuries) + [created.value])
      && (roll >= 10 ==> p.status == old(p.status) && p.injuries == old(p.injuries) && created.None?)
    ensures e.ConcussionOnD6? ==>
      p.status == old(p.status)
      && (D6Fires(roll, e.hits) && old(i.hits) == 1 ==> i.hits == 2 && p.injuries == old(p.injuries) && created.None?)
      && (D6Fires(roll, e.hits) && old(i.hits) != 1 ==>
            i.hits == old(i.hits) && created.Some? && created.value.kind == CEREBRAL_CONTUSION
            && created.value.location == HEAD && p.injuries == Without(old(p.injuries), i) + [created.value])
      && (!D6Fires(roll, e.hits) ==> i.hits == old(i.hits) && p.injuries == old(p.injuries) && created.None?)
    ensures e != ResetRecoveryTime ==> i.time == old(i.time)
  {
    created := None;
    match e
    case ResetRecoveryTime =>
      i.time := i.originalTime;
    case CertainDeath =>
      p.status := WOUNDS;
    case SpineSeverChance =>
      if roll < 20 {
        var spine := new Injury(SEVERED_SPINE, CHEST, 1, healingTime);
        p.AddInjury(spine);
        created := Some(spine);
      }
    case DeathOnD6(hits, _) =>
      if roll + hits >= 5 {
        p.status := WOUNDS;
      }
    case CteOnD6(hits, _) =>
      if roll + hits >= 5 {
        var cte := new Injury(CTE, HEAD, 1, healingTime);
        p.AddInjury(cte);
        p.RemoveInjury(i);
        created := Some(cte);
        assert cte != i;
        WithoutAppended(old(p.injuries), i, cte);
      }
    case BleedingOnD6(hits, _) =>
      if roll + hits >= 5 {
        if i.hits < 3 {
          i.hits := i.hits + 1;
        } else {
          p.status := WOUNDS;
        }
      }
    case KidneyBleedChance =>
      if roll < 10 {
        var bleeding := new Injury(INTERNAL_BLEEDING, ABDOMEN, 1, healingTime);
        p.AddInjury(bleeding);
        created := Some(bleeding);
      }
    case RibPunctureChance =>
      var rib := roll;
      if rib < 1 {
        p.status := WOUNDS;
      } else if rib < 10 {
        var lung := new Injury(PUNCTURED_LUNG, CHEST, 1, healingTime);
        p.AddInjury(lung);
        created := Some(lung);
      }
    case ConcussionOnD6(hits, _) =>
      if roll + hits >= 5 {
        if i.hits == 1 {
          i.hits := 2;
        } else {
          var contusion := new Injury(CEREBRAL_CONTUSION, HEAD, 1, healingTime);
          p.AddInjury(contusion);
          p.RemoveInjury(i);
          created := Some(contusion);
          assert contusion != i;
          WithoutAppended(old(p.injuries), i, contusion);
        }
      }
  }

  /** Removing x after appending y (y distinct from x) is appending y after removing x. */
  lemma {:induction false} WithoutAppended(s: seq<Injury>, x: Injury, y: Injury)
    requires x != y
    ensures Without(s + [y], x) == Without(s, x) + [y]
    decreases |s|
  {
    if s == [] {
      assert Without([y], x) == [y] + Without([], x);
    } else {
      assert (s + [y])[1..] == s[1..] + [y];
      WithoutAppended(s[1..], x, y);
    }
  }

  /** Internal bleeding never worsens past three hits: applying any of the
      effects its stress produces keeps hits at most 3. */
  method StressInternalBleeding(p: Person, i: Injury, hits: int, roll: int, healingTime: int)
    requires i.kind == INTERNAL_BLEEDING && 1 <= i.hits <= 3
    modifies p, i
    ensures 1 <= i.hits <= 3
    ensures i.hits == old(i.hits) + 1 || i.hits == old(i.hits)
    ensures p.status == WOUNDS <==>
      (old(p.status) == WOUNDS || (hits >= 5 && old(i.hits) >= 3) || (D6Fires(roll, hits) && old(i.hits) >= 3))
    ensures p.injuries == old(p.injuries)
  {
    var effects := StressEffects(INTERNAL_BLEEDING, i.hits, hits).value;
    for n := 0 to |effects|
      invariant 1 <= i.hits <= 3
      invariant i.hits == old(i.hits) + 1 || i.hits == old(i.hits)
      invariant p.injuries == old(p.injuries)
      invariant effects == StressEffects(INTERNAL_BLEEDING, old(i.hits), hits).value
      invariant p.status == WOUNDS <==>
        (old(p.status) == WOUNDS || (n > 0 && hits >= 5 && old(i.hits) >= 3)
         || (n > 1 && D6Fires(roll, hits) && old(i.hits) >= 3))
      invariant n <= 1 ==> i.hits == old(i.hits)
    {
      var _ := ApplyEffect(p, i, effects[n], roll, healingTime);
    }
  }

  // ----- registration -----

  /** One entry of the InjuryType registry: a numeric id when it has one, its
      key and its type. */
  datatype Registration = Registration(id: Option<int>, key: string, kind: InjuryKind)

  /** The types `registerAll` registers, in order: ids 0..14 with their keys,
      then severed spine and replacement-limb recovery by key only. */
  function AmRegistrations(): seq<Registration>
  {
    [ Registration(Some(0), "am:cut", CUT),
      Registration(Some(1), "am:bruise", BRUISE),
      Registration(Some(2), "am:laceration", LACERATION),
      Registration(Some(3), "am:sprain", SPRAIN),
      Registration(Some(4), "am:concussion", CONCUSSION),
      Registration(Some(5), "am:broken_rib", BROKEN_RIB),
      Registration(Some(6), "am:bruised_kidney", BRUISED_KIDNEY),
      Registration(Some(7), "am:broken_limb", BROKEN_LIMB),
      Registration(Some(8), "am:broken_collar_bone", BROKEN_COLLAR_BONE),
      Registration(Some(9), "am:internal_bleeding", INTERNAL_BLEEDING),
      Registration(Some(10), "am:lost_limb", LOST_LIMB),
      Registration(Some(11), "am:cerebral_contusion", CEREBRAL_CONTUSION),
      Registration(Some(12), "am:punctured_lung", PUNCTURED_LUNG),
      Registration(Some(13), "am:cte", CTE),
      Registration(Some(14), "am:broken_back", BROKEN_BACK),
      Registration(None, "am:severed_spine", SEVERED_SPINE),
      Registration(None, "am:replacement_limb_recovery", REPLACEMENT_LIMB_RECOVERY) ]
  }

  /** Numbered types take the ids 0..14 in order; the last two have no id. */
  lemma RegistrationIds(n: nat)
    requires n < |AmRegistrations()|
    ensures |AmRegistrations()| == 17
    ensures n < 15 ==> AmRegistrations()[n].id == Some(n)
    ensures n >= 15 ==> AmRegistrations()[n].id.None?
  {
  }

  class Registry {
    var registered: bool
    var entries: seq<Registration>

    constructor ()
      ensures !registered && entries == []
    {
      registered := false;
      entries := [];
    }

    /** `registerAll`: the first call registers every type and sets the flag;
        later calls change nothing. */
    method RegisterAll()
      modifies this
      ensures registered
      ensures entries == if old(registered) then old(entries) else old(entries) + AmRegistrations()
    {
      if !registered {
        entries := entries + AmRegistrations();
        registered := true;
      }
    }
  }

  /** Registering twice leaves the registry as registering once. */
  method RegisterTwice(r: Registry)
    modifies r
    ensures r.registered
    ensures r.entries == if old(r.registered) then old(r.entries) else old(r.entries) + AmRegistrations()
  {
    r.RegisterAll();
    ghost var once := r.entries;
    r.RegisterAll();
    assert r.entries == once;
  }
}
