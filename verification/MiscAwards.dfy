/** Miscellaneous automatic awards: after a mission, each award whose range
    names one of the miscellaneous kinds is checked against the person and
    the mission; the awards that pass are collected in their original order.

    Whether an award can go to the person, and whether two factions are at
    war on the current date, are campaign lookups: they are parameters. */
module MiscAwards {

  import opened Wrappers

  /** A faction as the awards see it. */
  datatype Faction = Faction(name: string, isISMajorOrSuperPower: bool, isPeriphery: bool)

  datatype MissionKind = AtBContract(enemy: Faction) | OtherMission

  /** A completed mission and the factions of the system it took place in. */
  datatype Mission = Mission(kind: MissionKind, systemFactions: seq<Faction>)

  datatype Award = Award(name: string, range: string)

  // ----- the range string -----

  /** The characters Java's regular-expression class \s matches. */
  predicate IsWhitespace(c: char)
  {
    c == ' ' || c == '\t' || c == '\n' || c == '\U{B}' || c == '\U{C}' || c == '\r'
  }

  /** The range with every whitespace character removed and every letter in
      lower case. */
  function Normalize(s: string): (r: string)
    ensures |r| <= |s|
    ensures forall i :: 0 <= i < |r| ==> !IsWhitespace(r[i]) && !IsUpper(r[i])
  {
    if |s| == 0 then ""
    else if IsWhitespace(s[0]) then Normalize(s[1..])
    else [ToLower(s[0])] + Normalize(s[1..])
  }

  /** Normalising distributes over concatenation: where the whitespace sits
      and how the range is split into words does not matter. */
  lemma {:induction false} NormalizeAppend(a: string, b: string)
    ensures Normalize(a + b) == Normalize(a) + Normalize(b)
  {
    if |a| > 0 {
      assert (a + b)[1..] == a[1..] + b;
      NormalizeAppend(a[1..], b);
    } else {
      assert a + b == b;
    }
  }

  /** A normalised range is its own normal form. */
  lemma {:induction false} NormalizeIdempotent(s: string)
    ensures Normalize(Normalize(s)) == Normalize(s)
  {
    if |s| > 0 {
      NormalizeIdempotent(s[1..]);
      if !IsWhitespace(s[0]) {
        var t := Normalize(s);
        assert t[1..] == Normalize(s[1..]);
        assert !IsWhitespace(t[0]) && !IsUpper(t[0]);
      }
    }
  }

  /** The award ranges the processor knows. */
  datatype RangeKind = MissionAccomplished | HouseWorldNoWar | HouseWorldYesWar | PeripheryRange | Unrecognised

  function RangeKindOf(range: string): (r: RangeKind)
    ensures r == MissionAccomplished <==> Normalize(range) == "missionaccomplished"
    ensures r == HouseWorldNoWar <==> Normalize(range) == "houseworldnowar"
    ensures r == HouseWorldYesWar <==> Normalize(range) == "houseworldyeswar"
    ensures r == PeripheryRange <==> Normalize(range) == "periphery"
  {
    match Normalize(range)
    case "missionaccomplished" => MissionAccomplished
    case "houseworldnowar" => HouseWorldNoWar
    case "houseworldyeswar" => HouseWorldYesWar
    case "periphery" => PeripheryRange
    case _ => Unrecognised
  }

  /** Whitespace anywhere in a range is ignored. */
  lemma WhitespaceIgnored(a: string, w: string, b: string)
    requires forall i :: 0 <= i < |w| ==> IsWhitespace(w[i])
    ensures Normalize(a + w + b) == Normalize(a + b)
  {
    NormalizeAppend(a + w, b);
    NormalizeAppend(a, w);
    NormalizeAppend(a, b);
    OnlyWhitespace(w);
  }

  lemma {:induction false} OnlyWhitespace(w: string)
    requires forall i :: 0 <= i < |w| ==> IsWhitespace(w[i])
    ensures Normalize(w) == ""
  {
    if |w| > 0 {
      OnlyWhitespace(w[1..]);
    }
  }

  // ----- the individual checks -----

  function MissionAccomplishedAward(award: Award, canBeAwarded: Award -> bool): (r: bool)
    ensures r <==> canBeAwarded(award)
  {
    canBeAwarded(award)
  }

  /** Walks the system's factions in order and stops at the first major or
      super power whose war status with the enemy is the one the award asks
      for. */
  function FirstMatchingPower(factions: seq<Faction>, enemy: Faction, atWar: (Faction, Faction) -> bool, isYesWar: bool): (r: bool)
    ensures r ==> exists i :: 0 <= i < |factions| && factions[i].isISMajorOrSuperPower && atWar(enemy, factions[i]) == isYesWar
  {
    if |factions| == 0 then false
    else if factions[0].isISMajorOrSuperPower && atWar(enemy, factions[0]) == isYesWar then true
    else FirstMatchingPower(factions[1..], enemy, atWar, isYesWar)
  }

  /** The walk finds a power exactly when one exists. */
  lemma {:induction false} FirstMatchingPowerIff(factions: seq<Faction>, enemy: Faction, atWar: (Faction, Faction) -> bool, isYesWar: bool)
    ensures FirstMatchingPower(factions, enemy, atWar, isYesWar) <==>
      exists f :: f in factions && f.isISMajorOrSuperPower && atWar(enemy, f) == isYesWar
  {
    if |factions| > 0 {
      FirstMatchingPowerIff(factions[1..], enemy, atWar, isYesWar);
      assert forall f :: f in factions <==> f == factions[0] || f in factions[1..];
    }
  }

  function HouseWorldWar(mission: Option<Mission>, award: Award, canBeAwarded: Award -> bool,
                         atWar: (Faction, Faction) -> bool, isYesWar: bool): (r: bool)
    ensures r <==> (canBeAwarded(award) && mission.Some? && mission.value.kind.AtBContract? &&
      exists f :: f in mission.value.systemFactions && f.isISMajorOrSuperPower && atWar(mission.value.kind.enemy, f) == isYesWar)
  {
    if canBeAwarded(award) && mission.Some? && mission.value.kind.AtBContract? then
      FirstMatchingPowerIff(mission.value.systemFactions, mission.value.kind.enemy, atWar, isYesWar);
      FirstMatchingPower(mission.value.systemFactions, mission.value.kind.enemy, atWar, isYesWar)
    else false
  }

  /** In an AtB contract's system that holds a major power, a person who can
      receive both house-world awards receives at least one of them; a system
      with no major power gives neither. */
  lemma HouseWorldAwardsCoverMajorPowers(mission: Mission, noWar: Award, yesWar: Award,
                                         canBeAwarded: Award -> bool, atWar: (Faction, Faction) -> bool)
    requires mission.kind.AtBContract? && canBeAwarded(noWar) && canBeAwarded(yesWar)
    ensures (HouseWorldWar(Some(mission), noWar, canBeAwarded, atWar, false) ||
             HouseWorldWar(Some(mission), yesWar, canBeAwarded, atWar, true))
        <==> exists f :: f in mission.systemFactions && f.isISMajorOrSuperPower
  {
    if f :| f in mission.systemFactions && f.isISMajorOrSuperPower {
      if atWar(mission.kind.enemy, f) {
        assert HouseWorldWar(Some(mission), yesWar, canBeAwarded, atWar, true);
      } else {
        assert HouseWorldWar(Some(mission), noWar, canBeAwarded, atWar, false);
      }
    }
  }

  predicate Periphery(mission: Option<Mission>, award: Award, canBeAwarded: Award -> bool)
    ensures Periphery(mission, award, canBeAwarded) ==> canBeAwarded(award) && mission.Some?
    ensures mission.Some? && (forall f :: f in mission.value.systemFactions ==> !f.isPeriphery) ==>
      !Periphery(mission, award, canBeAwarded)
  {
    canBeAwarded(award) && mission.Some? &&
      exists f :: f in mission.value.systemFactions && f.isPeriphery
  }

  // ----- the processor -----

  /** Whether one award goes to the person, by the kind its range names. */
  function Eligible(award: Award, mission: Option<Mission>, missionWasSuccessful: bool,
                    canBeAwarded: Award -> bool, atWar: (Faction, Faction) -> bool): (r: bool)
    ensures RangeKindOf(award.range) == Unrecognised ==> !r
    ensures r ==> canBeAwarded(award)
    ensures RangeKindOf(award.range) == MissionAccomplished ==> (r <==> missionWasSuccessful && canBeAwarded(award))
    ensures RangeKindOf(award.range) == PeripheryRange ==>
      (r <==> canBeAwarded(award) && mission.Some? && exists f :: f in mission.value.systemFactions && f.isPeriphery)
    ensures mission.None? ==> (r <==> RangeKindOf(award.range) == MissionAccomplished && missionWasSuccessful && canBeAwarded(award))
    ensures mission.Some? && mission.value.kind.OtherMission? && RangeKindOf(award.range) != PeripheryRange ==>
      (r <==> RangeKindOf(award.range) == MissionAccomplished && missionWasSuccessful && canBeAwarded(award))
  {
    match RangeKindOf(award.range)
    case MissionAccomplished => missionWasSuccessful && MissionAccomplishedAward(award, canBeAwarded)
    case HouseWorldNoWar => HouseWorldWar(mission, award, canBeAwarded, atWar, false)
    case HouseWorldYesWar => HouseWorldWar(mission, award, canBeAwarded, atWar, true)
    case PeripheryRange => Periphery(mission, award, canBeAwarded)
    case Unrecognised => false
  }

  /** The elements of `s` that `keep` accepts, in order. */
  function Filter<T>(s: seq<T>, keep: T -> bool): seq<T>
  {
    if |s| == 0 then []
    else Filter(s[..|s| - 1], keep) + (if keep(s[|s| - 1]) then [s[|s| - 1]] else [])
  }

  /** `a` is `b` with some elements dropped and the rest in order. */
  predicate IsSublist<T(==)>(a: seq<T>, b: seq<T>)
    decreases |b|
  {
    |a| == 0 ||
    (|b| > 0 &&
     ((a[|a| - 1] == b[|b| - 1] && IsSublist(a[..|a| - 1], b[..|b| - 1])) || IsSublist(a, b[..|b| - 1])))
  }

  lemma {:induction false} FilterIsSublist<T>(s: seq<T>, keep: T -> bool)
    ensures IsSublist(Filter(s, keep), s)
  {
    if |s| > 0 {
      var r := Filter(s, keep);
      FilterIsSublist(s[..|s| - 1], keep);
      if keep(s[|s| - 1]) {
        assert r[..|r| - 1] == Filter(s[..|s| - 1], keep);
      } else {
        assert r == Filter(s[..|s| - 1], keep);
      }
    }
  }

  lemma {:induction false} FilterMembership<T>(s: seq<T>, keep: T -> bool)
    ensures forall x :: x in Filter(s, keep) <==> x in s && keep(x)
  {
    if |s| > 0 {
      FilterMembership(s[..|s| - 1], keep);
      assert s == s[..|s| - 1] + [s[|s| - 1]];
    }
  }

  /** The eligible awards of a list, in list order. */
  function EligibleAwards(awards: seq<Award>, mission: Option<Mission>, missionWasSuccessful: bool,
                          canBeAwarded: Award -> bool, atWar: (Faction, Faction) -> bool): (r: seq<Award>)
    ensures IsSublist(r, awards)
    ensures forall a :: a in r <==> a in awards && Eligible(a, mission, missionWasSuccessful, canBeAwarded, atWar)
  {
    var keep := a => Eligible(a, mission, missionWasSuccessful, canBeAwarded, atWar);
    FilterIsSublist(awards, keep);
    FilterMembership(awards, keep);
    Filter(awards, keep)
  }

  /** Checks every award and collects the eligible ones. */
  method MiscAwardsProcessor(mission: Option<Mission>, awards: seq<Award>, missionWasSuccessful: bool,
                             canBeAwarded: Award -> bool, atWar: (Faction, Faction) -> bool)
    returns (eligibleAwards: seq<Award>)
    ensures eligibleAwards == EligibleAwards(awards, mission, missionWasSuccessful, canBeAwarded, atWar)
    ensures IsSublist(eligibleAwards, awards)
  {
    eligibleAwards := [];
    for i := 0 to |awards|
      invariant eligibleAwards == Filter(awards[..i], a => Eligible(a, mission, missionWasSuccessful, canBeAwarded, atWar))
    {
      var award := awards[i];
      assert awards[..i + 1][..i] == awards[..i];
      match RangeKindOf(award.range)
      case MissionAccomplished =>
        if missionWasSuccessful {
          if MissionAccomplishedAward(award, canBeAwarded) {
            eligibleAwards := eligibleAwards + [award];
          }
        }
      case HouseWorldNoWar =>
        if HouseWorldWar(mission, award, canBeAwarded, atWar, false) {
          eligibleAwards := eligibleAwards + [award];
        }
      case HouseWorldYesWar =>
        if HouseWorldWar(mission, award, canBeAwarded, atWar, true) {
          eligibleAwards := eligibleAwards + [award];
        }
      case PeripheryRange =>
        if Periphery(mission, award, canBeAwarded) {
          eligibleAwards := eligibleAwards + [award];
        }
      case Unrecognised =>
    }
    assert awards[..|awards|] == awards;
  }
}
