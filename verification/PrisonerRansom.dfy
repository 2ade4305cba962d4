/** The prisoner ransom event: the opposing force offers to ransom some of
    the unit's captured personnel (friendly POWs), or to buy back some of the
    enemy prisoners the unit holds.  One prisoner in ten, rounded up and at
    least one, is part of the deal; the enemy asks for its most experienced
    people first, while friendly POWs come in a random order.

    Money amounts are exact reals.  The shuffle of the friendly POWs and the
    player's choice in the dialog are inputs. */
module PrisonerRansom {

  const RANSOM_COST_DIVIDER: real := 10.0
  const RANSOM_COST_MULTIPLIER: real := 10.0
  /** The dialog choice that accepts the ransom. */
  const ACCEPTED := 1

  datatype PersonnelStatus = ACTIVE | POW | OTHER

  /** What the event reads of a person: the experience level it sorts enemy
      prisoners by and the ransom the person is worth. */
  datatype Person = Person(id: nat, experience: int, ransomValue: real, status: PersonnelStatus)

  // ----- how many prisoners are ransomed -----

  /** One prisoner in ten, rounded up, and at least one. */
  function RansomCount(prisonerCount: nat): (r: nat)
    ensures r >= 1
    ensures prisonerCount <= 10 * r
    ensures r == 1 || 10 * (r - 1) < prisonerCount
    ensures prisonerCount >= 1 ==> r <= prisonerCount
  {
    var tenth := (prisonerCount + 9) / 10;
    if tenth > 1 then tenth else 1
  }

  // ----- the enemy's order: most experienced first -----

  /** Inserts `p` before the first prisoner who is not more experienced, so
      that prisoners of equal experience keep their order. */
  function InsertByExperience(p: Person, s: seq<Person>): (r: seq<Person>)
    ensures multiset(r) == multiset(s) + multiset{p}
    ensures |r| == |s| + 1
  {
    if |s| == 0 || s[0].experience <= p.experience then [p] + s
    else
      assert s == [s[0]] + s[1..];
      [s[0]] + InsertByExperience(p, s[1..])
  }

  /** The list sorted by experience, highest first; the sort is stable. */
  function SortByExperience(s: seq<Person>): (r: seq<Person>)
    ensures multiset(r) == multiset(s)
    ensures |r| == |s|
  {
    if |s| == 0 then []
    else
      assert s == [s[0]] + s[1..];
      InsertByExperience(s[0], SortByExperience(s[1..]))
  }

  predicate MostExperiencedFirst(s: seq<Person>)
  {
    forall i, j :: 0 <= i < j < |s| ==> s[i].experience >= s[j].experience
  }

  lemma {:induction false} InsertKeepsOrder(p: Person, s: seq<Person>)
    requires MostExperiencedFirst(s)
    ensures MostExperiencedFirst(InsertByExperience(p, s))
  {
    if |s| == 0 || s[0].experience <= p.experience {
    } else {
      InsertKeepsOrder(p, s[1..]);
      var t := InsertByExperience(p, s[1..]);
      assert forall q :: q in t ==> q == p || q in s[1..] by {
        forall q | q in t ensures q == p || q in s[1..] {
          assert q in multiset(t);
        }
      }
      forall j | 0 <= j < |t| ensures s[0].experience >= t[j].experience {
        assert t[j] in t;
      }
    }
  }

  /** The enemy's list is ordered, most experienced first, and holds exactly
      the prisoners it was given. */
  lemma {:induction false} SortByExperienceIsOrdered(s: seq<Person>)
    ensures MostExperiencedFirst(SortByExperience(s))
    ensures multiset(SortByExperience(s)) == multiset(s)
  {
    if |s| > 0 {
      SortByExperienceIsOrdered(s[1..]);
      InsertKeepsOrder(s[0], SortByExperience(s[1..]));
    }
  }

  // ----- the ransom list and its price -----

  /** The prisoners the deal covers: a prefix of the enemy's ordering of the
      enemy prisoners, or of the shuffled friendly POWs. */
  function RansomList(prisoners: seq<Person>, isFriendlyPOWs: bool, shuffled: seq<Person>): (r: seq<Person>)
    requires |prisoners| > 0
    requires isFriendlyPOWs ==> multiset(shuffled) == multiset(prisoners)
    ensures |r| == RansomCount(|prisoners|) && |r| <= |prisoners|
    ensures multiset(r) <= multiset(prisoners)
  {
    var ordered := if isFriendlyPOWs then shuffled else SortByExperience(prisoners);
    assert |ordered| == |multiset(ordered)| == |prisoners|;
    assert ordered == ordered[..RansomCount(|prisoners|)] + ordered[RansomCount(|prisoners|)..];
    ordered[..RansomCount(|prisoners|)]
  }

  /** The enemy asks for its best: no enemy prisoner left out of the deal is
      more experienced than one in it. */
  lemma EnemyRansomsItsBest(prisoners: seq<Person>, shuffled: seq<Person>, chosen: Person, left: Person)
    requires |prisoners| > 0
    requires chosen in RansomList(prisoners, false, shuffled)
    requires left in multiset(prisoners) - multiset(RansomList(prisoners, false, shuffled))
    ensures chosen.experience >= left.experience
  {
    var sorted := SortByExperience(prisoners);
    var k := RansomCount(|prisoners|);
    SortByExperienceIsOrdered(prisoners);
    OutsidePrefix(sorted, k, left);
    var i :| 0 <= i < k && sorted[i] == chosen;
    var j :| k <= j < |sorted| && sorted[j] == left;
  }

  /** What a list holds beyond its first `k` elements lies after them. */
  lemma OutsidePrefix(s: seq<Person>, k: nat, x: Person)
    requires k <= |s|
    requires x in multiset(s) - multiset(s[..k])
    ensures exists j :: k <= j < |s| && s[j] == x
  {
    assert s == s[..k] + s[k..];
    assert multiset(s) == multiset(s[..k]) + multiset(s[k..]);
    assert x in s[k..];
    var j :| 0 <= j < |s| - k && s[k..][j] == x;
    assert s[k + j] == x;
  }

  /** The ransom values of a list, added in list order. */
  function RansomSum(s: seq<Person>): real
  {
    if |s| == 0 then 0.0 else RansomSum(s[..|s| - 1]) + s[|s| - 1].ransomValue
  }

  /** The sum over a concatenation is the sum of the sums. */
  lemma {:induction false} RansomSumAppend(a: seq<Person>, b: seq<Person>)
    ensures RansomSum(a + b) == RansomSum(a) + RansomSum(b)
    decreases |b|
  {
    if |b| > 0 {
      assert (a + b)[..|a + b| - 1] == a + b[..|b| - 1];
      RansomSumAppend(a, b[..|b| - 1]);
    } else {
      assert a + b == a;
    }
  }

  /** Nobody worth a negative ransom makes a negative total, and every
      person's ransom is part of it. */
  lemma {:induction false} RansomSumBounds(s: seq<Person>)
    requires forall p :: p in s ==> p.ransomValue >= 0.0
    ensures RansomSum(s) >= 0.0
    ensures forall p :: p in s ==> p.ransomValue <= RansomSum(s)
  {
    if |s| > 0 {
      var init := s[..|s| - 1];
      assert forall p :: p in init ==> p in s;
      RansomSumBounds(init);
      forall p | p in s ensures p.ransomValue <= RansomSum(s) {
        if p != s[|s| - 1] {
          assert p in init;
        }
      }
    }
  }

  /** The price of the deal: ten times the ransom values for friendly POWs,
      a tenth of them for enemy prisoners. */
  function TotalRansom(ransomList: seq<Person>, isFriendlyPOWs: bool): (r: real)
    ensures (forall p :: p in ransomList ==> p.ransomValue >= 0.0) ==> r >= 0.0
  {
    var sum := RansomSum(ransomList);
    assert (forall p :: p in ransomList ==> p.ransomValue >= 0.0) ==> sum >= 0.0 by {
      if forall p :: p in ransomList ==> p.ransomValue >= 0.0 {
        RansomSumBounds(ransomList);
      }
    }
    if isFriendlyPOWs then sum * RANSOM_COST_MULTIPLIER
    else sum / RANSOM_COST_DIVIDER
  }

  /** Adds up the ransom values, then applies the multiplier or divider. */
  method CalculateTotalRansom(ransomList: seq<Person>, isFriendlyPOWs: bool) returns (total: real)
    ensures total == TotalRansom(ransomList, isFriendlyPOWs)
    ensures isFriendlyPOWs ==> total == 100.0 * TotalRansom(ransomList, false)
  {
    var ransom := 0.0;
    for i := 0 to |ransomList|
      invariant ransom == RansomSum(ransomList[..i])
    {
      assert ransomList[..i + 1][..i] == ransomList[..i];
      ransom := ransom + ransomList[i].ransomValue;
    }
    assert ransomList[..|ransomList|] == ransomList;
    total := if isFriendlyPOWs then ransom * RANSOM_COST_MULTIPLIER else ransom / RANSOM_COST_DIVIDER;
  }

  /** The unit can pay when its balance is not below the ransom. */
  function CanAffordRansom(balance: real, ransom: real): (r: bool)
    ensures r <==> ransom <= balance
  {
    !(balance < ransom)
  }

  // ----- the event -----

  /** How an event ended. */
  datatype Outcome = NoPrisoners | CannotAfford | Declined | Ransomed(ransomList: seq<Person>, total: real)

  /** The ids of a list of people. */
  function Ids(s: seq<Person>): (r: set<nat>)
    ensures forall p :: p in s ==> p.id in r
    ensures forall id :: id in r ==> exists p :: p in s && p.id == id
  {
    set p | p in s :: p.id
  }

  /** The personnel after the ransomed POWs return to active duty. */
  function Released(personnel: map<nat, Person>, ids: set<nat>): (r: map<nat, Person>)
    ensures r.Keys == personnel.Keys
    ensures forall id :: id in personnel ==> r[id].status == (if id in ids then ACTIVE else personnel[id].status)
    ensures forall id :: id in personnel ==> r[id].(status := personnel[id].status) == personnel[id]
  {
    map id | id in personnel :: if id in ids then personnel[id].(status := ACTIVE) else personnel[id]
  }

  /** The campaign state the event reads and changes. */
  class Campaign {
    var balance: real
    var personnel: map<nat, Person>

    constructor (balance: real, personnel: map<nat, Person>)
      ensures this.balance == balance && this.personnel == personnel
    {
      this.balance := balance;
      this.personnel := personnel;
    }

    /** Runs one ransom event.  `prisoners` are the campaign's friendly POWs
        or its current prisoners; `shuffled` is the POWs after the shuffle;
        `choice` is the player's answer in the dialog. */
    method PrisonerRansomEvent(isFriendlyPOWs: bool, prisoners: seq<Person>, shuffled: seq<Person>, choice: int)
      returns (outcome: Outcome)
      requires isFriendlyPOWs ==> multiset(shuffled) == multiset(prisoners)
      requires isFriendlyPOWs ==> forall p :: p in prisoners ==> p.id in personnel
      modifies this
      ensures |prisoners| == 0 ==> outcome == NoPrisoners
      ensures |prisoners| > 0 ==>
        var ransomList := RansomList(prisoners, isFriendlyPOWs, shuffled);
        var total := TotalRansom(ransomList, isFriendlyPOWs);
        outcome == (if isFriendlyPOWs && !CanAffordRansom(old(balance), total) then CannotAfford
                    else if choice != ACCEPTED then Declined
                    else Ransomed(ransomList, total))
      ensures !outcome.Ransomed? ==> balance == old(balance) && personnel == old(personnel)
      ensures outcome.Ransomed? && isFriendlyPOWs ==>
        balance == old(balance) - outcome.total && personnel == Released(old(personnel), Ids(outcome.ransomList))
      ensures outcome.Ransomed? && !isFriendlyPOWs ==>
        balance == old(balance) + outcome.total && personnel == old(personnel) - Ids(outcome.ransomList)
    {
      if |prisoners| == 0 {
        return NoPrisoners;
      }
      var ransomList := RansomList(prisoners, isFriendlyPOWs, shuffled);
      var totalRansom := CalculateTotalRansom(ransomList, isFriendlyPOWs);
      if isFriendlyPOWs && !CanAffordRansom(balance, totalRansom) {
        return CannotAfford;
      }
      if choice != ACCEPTED {
        return Declined;
      }
      forall p | p in ransomList ensures p in prisoners {
        assert p in multiset(prisoners);
      }
      HandleRansomOutcome(ransomList, totalRansom, isFriendlyPOWs);
      outcome := Ransomed(ransomList, totalRansom);
    }

    /** Pays for the POWs and returns them to active duty, or takes the money
        for the enemy prisoners and removes them from the campaign. */
    method HandleRansomOutcome(ransomList: seq<Person>, ransom: real, isFriendlyPOWs: bool)
      requires isFriendlyPOWs ==> forall p :: p in ransomList ==> p.id in personnel
      modifies this
      ensures isFriendlyPOWs ==> balance == old(balance) - ransom && personnel == Released(old(personnel), Ids(ransomList))
      ensures !isFriendlyPOWs ==> balance == old(balance) + ransom && personnel == old(personnel) - Ids(ransomList)
    {
      if isFriendlyPOWs {
        balance := balance - ransom;
        ReleaseAll(ransomList);
      } else {
        balance := balance + ransom;
        RemoveAll(ransomList);
      }
    }

    /** Changes the status of every ransomed POW to active. */
    method ReleaseAll(ransomList: seq<Person>)
      requires forall p :: p in ransomList ==> p.id in personnel
      modifies this`personnel
      ensures personnel == Released(old(personnel), Ids(ransomList))
    {
      ghost var before := personnel;
      for i := 0 to |ransomList|
        invariant personnel == Released(before, Ids(ransomList[..i]))
      {
        var id := ransomList[i].id;
        assert ransomList[i] in ransomList;
        IdsStep(ransomList, i);
        ReleasedStep(before, Ids(ransomList[..i]), id);
        personnel := personnel[id := personnel[id].(status := ACTIVE)];
      }
      assert ransomList[..|ransomList|] == ransomList;
    }

    /** Removes every ransomed prisoner from the campaign. */
    method RemoveAll(ransomList: seq<Person>)
      modifies this`personnel
      ensures personnel == old(personnel) - Ids(ransomList)
    {
      ghost var before := personnel;
      for i := 0 to |ransomList|
        invariant personnel == before - Ids(ransomList[..i])
      {
        IdsStep(ransomList, i);
        personnel := personnel - {ransomList[i].id};
      }
      assert ransomList[..|ransomList|] == ransomList;
    }
  }

  lemma IdsStep(s: seq<Person>, i: nat)
    requires i < |s|
    ensures Ids(s[..i + 1]) == Ids(s[..i]) + {s[i].id}
  {
    assert s[..i + 1] == s[..i] + [s[i]];
  }

  lemma ReleasedStep(personnel: map<nat, Person>, ids: set<nat>, id: nat)
    requires id in personnel
    ensures Released(personnel, ids + {id}) == Released(personnel, ids)[id := Released(personnel, ids)[id].(status := ACTIVE)]
  {
  }
}
