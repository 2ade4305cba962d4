/** The bookkeeping of the Against-the-Bot monthly contract market: how many
    offers a month brings, the bounded retries of contract generation, the
    terms a subcontract inherits, follow-up contracts and the per-clause
    negotiation modifiers.  Dice, faction lookups, star-map searches and jump
    paths are outside the model: their outcomes are parameters. */
module ContractMarket {
  import opened Wrappers

  // ----- contracts -----

  /** AtB contract types, in declaration order (the order selects the row of
      the mission-modifier table). */
  datatype ContractType =
    | GARRISON_DUTY | CADRE_DUTY | SECURITY_DUTY | RIOT_DUTY
    | PLANETARY_ASSAULT | RELIEF_DUTY | GUERRILLA_WARFARE | PIRATE_HUNTING
    | DIVERSIONARY_RAID | OBJECTIVE_RAID | RECON_RAID | EXTRACTION_RAID

  /** Command rights, from most to least control by the employer. */
  datatype CommandRights = INTEGRATED | HOUSE | LIAISON | INDEPENDENT

  function RightsOrdinal(c: CommandRights): (o: nat)
    ensures o < 4
  {
    match c
    case INTEGRATED => 0
    case HOUSE => 1
    case LIAISON => 2
    case INDEPENDENT => 3
  }

  /** `ContractCommandRights.values()[o]`. */
  function RightsOfOrdinal(o: nat): (c: CommandRights)
    requires o < 4
    ensures RightsOrdinal(c) == o
  {
    if o == 0 then INTEGRATED else if o == 1 then HOUSE else if o == 2 then LIAISON else INDEPENDENT
  }

  /** The faction attributes the market consults. */
  datatype Faction = Faction(code: string, mercenary: bool, pirate: bool, rebel: bool,
                             majorOrSuperPower: bool, clan: bool, periphery: bool,
                             minorPower: bool)   // `AtBContract.isMinorPower` of its code

  /** The negotiated clauses of a contract. */
  datatype Terms = Terms(commandRights: CommandRights, salvageExchange: bool, salvagePct: int,
                         straightSupport: int, battleLossComp: int, transportComp: int)

  /** An offered contract; employer and enemy are faction codes. */
  datatype Contract = Contract(id: int, employer: string, enemy: string, contractType: ContractType,
                               parent: Option<int>, systemId: string, mercSubcontract: bool, terms: Terms)

  /** What the id map holds: a finished contract, or the draft of a generation
      attempt that gave up before the contract was complete. */
  datatype Entry = Draft | Offered(contract: Contract)

  // ----- how many offers a month brings -----

  /** The count after the Gray Monday loop, which resumes at position `i`: each
      roll of 2 or less removes one offer, and the loop's bound shrinks with it. */
  function GrayMondayCount(n: int, i: nat, rolls: nat -> int): (r: int)
    ensures r <= n
    decreases n - i
  {
    if i >= n then n else GrayMondayCount(if rolls(i) <= 2 then n - 1 else n, i + 1, rolls)
  }

  /** Gray Monday never makes a non-negative count negative and keeps at least
      about half of it; with no low roll nothing is removed. */
  lemma {:induction false} GrayMondayBounds(n: int, i: nat, rolls: nat -> int)
    requires 0 <= n && i <= n + 1
    ensures 0 <= GrayMondayCount(n, i, rolls) <= n
    ensures n + i <= 2 * GrayMondayCount(n, i, rolls) + 1
    ensures (forall j :: i <= j < n ==> rolls(j) > 2) ==> GrayMondayCount(n, i, rolls) == n
    decreases n - i
  {
    if i < n {
      GrayMondayBounds(if rolls(i) <= 2 then n - 1 else n, i + 1, rolls);
    }
  }

  /** No faction of the system is a major Inner Sphere power, a superpower or a Clan. */
  predicate InMinorFactionSystem(factions: seq<Faction>)
    ensures |factions| == 0 ==> InMinorFactionSystem(factions)
  {
    forall f :: f in factions ==> !f.majorOrSuperPower && !f.clan
  }

  /** A backwater: several factions, all of them periphery; or one faction that
      is periphery or has no other faction within 30 light years (`nearby`
      lists the factions of each nearby system); or no faction at all. */
  predicate InBackwater(factions: seq<Faction>, nearby: seq<seq<Faction>>)
    ensures |factions| == 0 ==> InBackwater(factions, nearby)
    ensures (forall f :: f in factions ==> f.periphery) ==> InBackwater(factions, nearby)
  {
    if |factions| > 1 then forall f :: f in factions ==> f.periphery
    else if |factions| == 1 then
      factions[0].periphery || forall s, f :: s in nearby && f in s ==> f == factions[0]
    else true
  }

  /** The change to the rolled count from where the unit is and who it works for. */
  function SystemModifier(minorSystem: bool, backwater: bool, mercOrPirate: bool, hiringHall: bool): (r: int)
    ensures -2 <= r <= 1
    ensures mercOrPirate && hiringHall ==> r == (if minorSystem then 0 else 1)
    ensures mercOrPirate && !hiringHall ==> r <= 0
    ensures !mercOrPirate ==> r == (if minorSystem then 0 else 1) - (if backwater then 1 else 0)
  {
    var minor := if minorSystem then -1 else 0;
    var remote := if backwater then -1 else 0;
    var employer :=
      if mercOrPirate then (if hiringHall then 1 + (if backwater then 1 else 0) else 0)
      else 1;
    minor + remote + employer
  }

  /** The number of generation attempts for a rolled count that is not zero. */
  function AdjustedOfferCount(n: int, minorSystem: bool, backwater: bool, mercOrPirate: bool,
                              hiringHall: bool, newCampaign: bool): (r: int)
    ensures newCampaign ==> r >= 2
    ensures r >= n + SystemModifier(minorSystem, backwater, mercOrPirate, hiringHall)
    ensures !newCampaign || n + SystemModifier(minorSystem, backwater, mercOrPirate, hiringHall) >= 2 ==>
      r == n + SystemModifier(minorSystem, backwater, mercOrPirate, hiringHall)
  {
    var m := n + SystemModifier(minorSystem, backwater, mercOrPirate, hiringHall);
    if newCampaign && m < 2 then 2 else m
  }

  /** The offers kept from the first `k` generation results: those that are not null. */
  function Kept(generated: nat -> Option<Contract>, k: nat): (s: seq<Contract>)
    ensures |s| <= k
    ensures forall c :: c in s ==> exists j :: 0 <= j < k && generated(j) == Some(c)
    ensures (forall j :: 0 <= j < k ==> generated(j).Some?) ==> |s| == k
  {
    if k == 0 then []
    else Kept(generated, k - 1) + (if generated(k - 1).Some? then [generated(k - 1).value] else [])
  }

  function OptionList(o: Option<Contract>): (s: seq<Contract>)
    ensures |s| <= 1
  {
    if o.Some? then [o.value] else []
  }

  /** The offer list of a regenerated month, given the rolled count (d6 − 4 +
      unit rating modifier), the Gray Monday rolls, the system, the offer for
      the capital's faction and the results of the successive generations. */
  function MonthlyOffers(rolled: int, grayMonday: bool, grayRolls: nat -> int,
                         factions: seq<Faction>, nearby: seq<seq<Faction>>, mercOrPirate: bool,
                         hiringHall: bool, newCampaign: bool, capitalOffer: Option<Contract>,
                         generated: nat -> Option<Contract>): (r: seq<Contract>)
    ensures (if grayMonday then GrayMondayCount(rolled, 0, grayRolls) else rolled) == 0 ==> r == []
    ensures r != [] && capitalOffer.Some? ==> r[0] == capitalOffer.value
    ensures forall c :: c in r ==> Some(c) == capitalOffer || exists j :: 0 <= j && generated(j) == Some(c)
  {
    var n := if grayMonday then GrayMondayCount(rolled, 0, grayRolls) else rolled;
    if n == 0 then []
    else
      var count := AdjustedOfferCount(n, InMinorFactionSystem(factions), InBackwater(factions, nearby),
                                      mercOrPirate, hiringHall, newCampaign);
      OptionList(capitalOffer) + Kept(generated, if count < 0 then 0 else count)
  }

  /** A rolled count of exactly 0 ends the month with no offer, even for a new
      campaign, while a rolled count of −1 gives a new campaign two attempts. */
  lemma {:induction false} ZeroRollSkipsNewCampaignMinimum(grayRolls: nat -> int, factions: seq<Faction>,
      nearby: seq<seq<Faction>>, mercOrPirate: bool, hiringHall: bool, capitalOffer: Option<Contract>,
      generated: nat -> Option<Contract>)
    ensures MonthlyOffers(0, false, grayRolls, factions, nearby, mercOrPirate, hiringHall, true, capitalOffer, generated) == []
    ensures generated(0).Some? && generated(1).Some? ==>
      |MonthlyOffers(-1, false, grayRolls, factions, nearby, mercOrPirate, hiringHall, true, capitalOffer, generated)| >= 2
  {
    if generated(0).Some? && generated(1).Some? {
      var count := AdjustedOfferCount(-1, InMinorFactionSystem(factions), InBackwater(factions, nearby),
                                      mercOrPirate, hiringHall, true);
      assert count >= 2;
      KeptGrows(generated, 2, count);
    }
  }

  /** More generation attempts never lose an offer. */
  lemma {:induction false} KeptGrows(generated: nat -> Option<Contract>, j: nat, k: nat)
    requires j <= k
    ensures |Kept(generated, j)| <= |Kept(generated, k)|
    decreases k
  {
    if j < k {
      KeptGrows(generated, j, k - 1);
    }
  }

  /** When every roll and lookup succeeds, a new campaign's month brings at
      least two offers whenever the rolled count is not zero. */
  lemma {:induction false} NewCampaignGetsTwoOffers(rolled: int, grayMonday: bool, grayRolls: nat -> int,
      factions: seq<Faction>, nearby: seq<seq<Faction>>, mercOrPirate: bool, hiringHall: bool,
      capitalOffer: Option<Contract>, generated: nat -> Option<Contract>)
    requires (if grayMonday then GrayMondayCount(rolled, 0, grayRolls) else rolled) != 0
    requires forall j :: 0 <= j ==> generated(j).Some?
    ensures |MonthlyOffers(rolled, grayMonday, grayRolls, factions, nearby, mercOrPirate, hiringHall, true,
                           capitalOffer, generated)| >= 2
  {
    var n := if grayMonday then GrayMondayCount(rolled, 0, grayRolls) else rolled;
    var count := AdjustedOfferCount(n, InMinorFactionSystem(factions), InBackwater(factions, nearby),
                                    mercOrPirate, hiringHall, true);
    assert |Kept(generated, count)| == count;
  }

  /** The Gray Monday loop: offers are struck on low rolls while the loop runs. */
  method GrayMonday(n: int, rolls: nat -> int) returns (count: int)
    ensures count == GrayMondayCount(n, 0, rolls)
    ensures n >= 0 ==> 0 <= count <= n && n <= 2 * count + 1
  {
    if n >= 0 {
      GrayMondayBounds(n, 0, rolls);
    }
    count := n;
    var i: nat := 0;
    while i < count
      invariant GrayMondayCount(count, i, rolls) == GrayMondayCount(n, 0, rolls)
      decreases count - i
    {
      if rolls(i) <= 2 {
        count := count - 1;
      }
      i := i + 1;
    }
  }

  // ----- subcontracts and follow-ups -----

  /** The clauses of a subcontract, each derived from its parent's and never
      better for the subcontractor. */
  function SubcontractTerms(parent: Terms): (t: Terms)
    ensures RightsOrdinal(t.commandRights) <= RightsOrdinal(parent.commandRights)
    ensures RightsOrdinal(parent.commandRights) > 0 ==>
      RightsOrdinal(t.commandRights) == RightsOrdinal(parent.commandRights) - 1
    ensures t.salvageExchange == parent.salvageExchange
    ensures t.salvagePct >= 0 && (parent.salvagePct >= 10 ==> t.salvagePct == parent.salvagePct - 10)
    ensures parent.salvagePct <= 10 ==> t.salvagePct == 0
    ensures t.straightSupport >= 0 && (parent.straightSupport >= 20 ==> t.straightSupport == parent.straightSupport - 20)
    ensures parent.straightSupport <= 20 ==> t.straightSupport == 0
    ensures 0 <= t.battleLossComp && (parent.battleLossComp >= 0 ==> t.battleLossComp <= parent.battleLossComp)
    ensures parent.battleLossComp <= 10 ==> t.battleLossComp == 0
    ensures 10 < parent.battleLossComp <= 20 ==> t.battleLossComp == 10
    ensures parent.battleLossComp > 20 ==> t.battleLossComp == parent.battleLossComp - 20
    ensures t.transportComp == 100
  {
    var rights := RightsOrdinal(parent.commandRights);
    Terms(RightsOfOrdinal(if rights - 1 > 0 then rights - 1 else 0),
          parent.salvageExchange,
          if parent.salvagePct - 10 > 0 then parent.salvagePct - 10 else 0,
          if parent.straightSupport - 20 > 0 then parent.straightSupport - 20 else 0,
          if parent.battleLossComp <= 10 then 0
          else if parent.battleLossComp <= 20 then 10
          else parent.battleLossComp - 20,
          100)
  }

  /** Battle-loss compensation of a subcontract is not monotone in the
      parent's: 20% gives 10%, while 21% gives 1%. */
  lemma BattleLossCompDropsAbove20(t: Terms)
    ensures SubcontractTerms(t.(battleLossComp := 20)).battleLossComp == 10
    ensures SubcontractTerms(t.(battleLossComp := 21)).battleLossComp == 1
  {
  }

  /** The enemy a subcontract is rolled against: pirates for pirate hunting,
      rebels for riot duty, otherwise the random pick. */
  function SubcontractEnemy(t: ContractType, randomEnemy: string): (e: string)
    ensures t != PIRATE_HUNTING && t != RIOT_DUTY ==> e == randomEnemy
  {
    if t == PIRATE_HUNTING then "PIR" else if t == RIOT_DUTY then "REB" else randomEnemy
  }

  /** The type of the follow-up offered after a contract, if that type has one. */
  function FollowupType(t: ContractType): (r: Option<ContractType>)
    ensures r.Some? <==> t == DIVERSIONARY_RAID || t == RECON_RAID || t == RIOT_DUTY
    ensures r.Some? ==> r.value !in {DIVERSIONARY_RAID, RECON_RAID, RIOT_DUTY}
  {
    match t
    case DIVERSIONARY_RAID => Some(OBJECTIVE_RAID)
    case RECON_RAID => Some(PLANETARY_ASSAULT)
    case RIOT_DUTY => Some(GARRISON_DUTY)
    case _ => None
  }

  /** The follow-up of `contract` under `id`: same employer, enemy and system,
      the mapped type (or `initialType`, the type a new contract starts with). */
  function Followup(contract: Contract, id: int, initialType: ContractType, terms: Terms): (f: Contract)
    ensures f.id == id && f.employer == contract.employer && f.enemy == contract.enemy
    ensures f.systemId == contract.systemId && f.parent.None?
  {
    var t := FollowupType(contract.contractType);
    Contract(id, contract.employer, contract.enemy, if t.Some? then t.value else initialType,
             None, contract.systemId, false, terms)
  }

  /** A neutral employer that is not at war with the enemy swaps assault for
      garrison duty and relief for security duty. */
  function NeutralAdjusted(t: ContractType, neutralAtPeace: bool): (r: ContractType)
    ensures r != t ==> neutralAtPeace && (t, r) in {(PLANETARY_ASSAULT, GARRISON_DUTY), (RELIEF_DUTY, SECURITY_DUTY)}
    ensures neutralAtPeace ==> r != PLANETARY_ASSAULT && r != RELIEF_DUTY
  {
    if neutralAtPeace && t == PLANETARY_ASSAULT then GARRISON_DUTY
    else if neutralAtPeace && t == RELIEF_DUTY then SECURITY_DUTY
    else t
  }

  // ----- clause modifiers -----

  /** Index of each clause in the modifier array. */
  const CLAUSE_COMMAND := 0
  const CLAUSE_SALVAGE := 1
  const CLAUSE_SUPPORT := 2
  const CLAUSE_TRANSPORT := 3

  /** Experience levels and unit ratings the modifiers compare against. */
  const EXP_ULTRA_GREEN := 0
  const EXP_REGULAR := 2
  const DRAGOON_F := 0
  const DRAGOON_C := 2
  const DRAGOON_B := 3
  const DRAGOON_A := 4

  type ClauseIndex = i: int | 0 <= i < 4

  /** One modifier per clause. */
  datatype Mods = Mods(command: int, salvage: int, support: int, transport: int)

  /** The modifier array read as one value per clause (indices 0 to 3 are
      CLAUSE_COMMAND to CLAUSE_TRANSPORT). */
  function ModsOf(s: seq<int>): Mods
    requires |s| == 4
  {
    Mods(s[0], s[1], s[2], s[3])
  }

  datatype SkillLevel = NONE | ULTRA_GREEN | GREEN | REGULAR | VETERAN | ELITE | HEROIC | LEGENDARY

  predicate IsVeteranOrGreater(s: SkillLevel) { s.VETERAN? || s.ELITE? || s.HEROIC? || s.LEGENDARY? }

  predicate IsEliteOrGreater(s: SkillLevel) { s.ELITE? || s.HEROIC? || s.LEGENDARY? }

  /** What the modifiers depend on.  Each administrator's experience is None
      when nobody holds that role. */
  datatype ClauseInputs = ClauseInputs(
    governmentOrRetainer: bool,    // not a mercenary or pirate unit, or under a retainer
    sizeLimitedMerc: bool,         // a mercenary unit with the size-limit option on
    unitRatingMod: int,
    effectiveUnits: int,
    commandAdmin: Option<int>,
    logisticsAdmin: Option<int>,
    transportAdmin: Option<int>,
    enemyClan: bool,
    employerClan: bool,
    enemySkill: SkillLevel,
    contractType: ContractType,
    employerMajor: bool,
    employerMinor: bool,
    employerMercenary: bool,
    employerIndependent: bool)     // the employer's code is "IND"

  function Add(a: Mods, b: Mods): Mods
  {
    Mods(a.command + b.command, a.salvage + b.salvage, a.support + b.support, a.transport + b.transport)
  }

  /** `d` added to the clause at index `k`. */
  function Bump(a: Mods, k: ClauseIndex, d: int): Mods
  {
    Mods(a.command + (if k == 0 then d else 0), a.salvage + (if k == 1 then d else 0),
         a.support + (if k == 2 then d else 0), a.transport + (if k == 3 then d else 0))
  }

  const NoMods := Mods(0, 0, 0, 0)

  function AdminExperience(admin: Option<int>): int
  {
    if admin.None? then EXP_ULTRA_GREEN else admin.value
  }

  /** +1 to every clause for a government unit or one under a retainer. */
  function GovernmentMods(governmentOrRetainer: bool): Mods
  {
    var d := if governmentOrRetainer then 1 else 0;
    Mods(d, d, d, d)
  }

  /** How many random clauses the size limit of a mercenary unit penalises:
      one per two effective units above twelve per rating step. */
  function SizeDraws(sizeLimitedMerc: bool, effectiveUnits: int, unitRatingMod: int): (n: nat)
    ensures n > 0 ==> sizeLimitedMerc
  {
    if sizeLimitedMerc then
      var numMods := JavaDiv(effectiveUnits - (unitRatingMod + 1) * 12, 2);
      if numMods > 0 then numMods else 0
    else 0
  }

  /** How many of the first `n` draws picked clause `k`. */
  function Picked(pick: nat -> ClauseIndex, n: nat, k: ClauseIndex): (r: int)
    ensures 0 <= r <= n
  {
    if n == 0 then 0 else Picked(pick, n - 1, k) + (if pick(n - 1) == k then 1 else 0)
  }

  /** −1 on a clause for each of the first `n` draws that picked it. */
  function Penalties(pick: nat -> ClauseIndex, n: nat): Mods
  {
    Mods(-Picked(pick, n, 0), -Picked(pick, n, 1), -Picked(pick, n, 2), -Picked(pick, n, 3))
  }

  /** The administrators' experience relative to regular: the logistics
      administrator's counts for both salvage and support. */
  function AdminMods(command: Option<int>, logistics: Option<int>, transport: Option<int>): Mods
  {
    Mods(AdminExperience(command) - EXP_REGULAR, AdminExperience(logistics) - EXP_REGULAR,
         AdminExperience(logistics) - EXP_REGULAR, AdminExperience(transport) - EXP_REGULAR)
  }

  function RatingDraws(unitRatingMod: int): nat
  {
    if unitRatingMod >= DRAGOON_A || unitRatingMod == DRAGOON_B then 2
    else if unitRatingMod == DRAGOON_C || unitRatingMod <= DRAGOON_F then 1
    else 0
  }

  /** The unit rating's bonus (or, at F, penalty) on randomly picked clauses,
      using the draws from position `from` on. */
  function RatingMods(unitRatingMod: int, pick: nat -> ClauseIndex, from: nat): Mods
  {
    if unitRatingMod >= DRAGOON_A then Bump(Bump(NoMods, pick(from), 2), pick(from + 1), 2)
    else if unitRatingMod == DRAGOON_B then Bump(Bump(NoMods, pick(from), 1), pick(from + 1), 1)
    else if unitRatingMod == DRAGOON_C then Bump(NoMods, pick(from), 1)
    else if unitRatingMod <= DRAGOON_F then Bump(NoMods, pick(from), -1)
    else NoMods
  }


  /** The fixed modifiers against a Clan enemy of a non-Clan employer. */
  const ClanEnemyMods := Mods(1, -2, 1, 1)

  /** The enemy's modifiers: the fixed vector against a Clan enemy, otherwise a
      random +1 for a veteran enemy and another for an elite one. */
  function EnemyMods(enemyClan: bool, employerClan: bool, enemySkill: SkillLevel, pick: nat -> ClauseIndex, from: nat): Mods
  {
    if enemyClan && !employerClan then ClanEnemyMods
    else
      var veteran := if IsVeteranOrGreater(enemySkill) then 1 else 0;
      var elite := if IsEliteOrGreater(enemySkill) then 1 else 0;
      Bump(Bump(NoMods, pick(from), veteran), pick(from + veteran), elite)
  }

  /** The row of the mission-modifier table for a contract type. */
  function MissionMods(t: ContractType): Mods
  {
    match t
    case GARRISON_DUTY => Mods(1, 0, 1, 0)
    case CADRE_DUTY => Mods(0, 1, -1, -3)
    case SECURITY_DUTY => Mods(-3, 0, 2, 1)
    case RIOT_DUTY => Mods(-2, 1, -1, -1)
    case PLANETARY_ASSAULT => Mods(-2, 0, 2, 3)
    case RELIEF_DUTY => Mods(-1, 1, 1, 1)
    case GUERRILLA_WARFARE => Mods(-2, 3, -2, -1)
    case PIRATE_HUNTING => Mods(2, 2, -1, -1)
    case DIVERSIONARY_RAID => Mods(0, 2, 2, 1)
    case OBJECTIVE_RAID => Mods(-1, 0, 1, 2)
    case RECON_RAID => Mods(-1, -2, 1, -1)
    case EXTRACTION_RAID => Mods(-1, -1, 2, 1)
  }

  /** The employer's modifiers: major power, minor power, mercenary, independent. */
  function EmployerMods(major: bool, minor: bool, mercenary: bool, independent: bool): Mods
  {
    var majorPower, minorPower := if major then 1 else 0, if minor then 1 else 0;
    var merc, ind := if mercenary then 1 else 0, if independent then 1 else 0;
    Mods(-merc, -majorPower - 2 * minorPower + 2 * merc - ind, merc - ind, majorPower + merc)
  }

  /** The draws the size limit uses; the unit rating's come after them. */
  function SizeDrawsOf(c: ClauseInputs): nat
  {
    SizeDraws(c.sizeLimitedMerc, c.effectiveUnits, c.unitRatingMod)
  }

  /** `base` plus the five modifiers every computation shares: experience,
      rating, enemy, mission and employer. */
  function Combine(base: Mods, admin: Mods, rating: Mods, enemy: Mods, mission: Mods, employer: Mods): Mods
  {
    Mods(base.command + admin.command + rating.command + enemy.command + mission.command + employer.command,
         base.salvage + admin.salvage + rating.salvage + enemy.salvage + mission.salvage + employer.salvage,
         base.support + admin.support + rating.support + enemy.support + mission.support + employer.support,
         base.transport + admin.transport + rating.transport + enemy.transport + mission.transport + employer.transport)
  }

  /** The shared modifiers of `c` on top of `base`. */
  function ClauseModsFrom(base: Mods, c: ClauseInputs, pick: nat -> ClauseIndex): Mods
  {
    var afterSize := SizeDrawsOf(c);
    Combine(base,
            AdminMods(c.commandAdmin, c.logisticsAdmin, c.transportAdmin),
            RatingMods(c.unitRatingMod, pick, afterSize),
            EnemyMods(c.enemyClan, c.employerClan, c.enemySkill, pick, afterSize + RatingDraws(c.unitRatingMod)),
            MissionMods(c.contractType),
            EmployerMods(c.employerMajor, c.employerMinor, c.employerMercenary, c.employerIndependent))
  }

  /** The modifiers as the source computes them: the administrators'
      experience is ASSIGNED to the four clauses, so whatever the government
      bonus and the size penalties put there before is lost. */
  function ClauseModsAsWritten(c: ClauseInputs, pick: nat -> ClauseIndex): (r: Mods)
    ensures r == ClauseModsFrom(NoMods, c.(governmentOrRetainer := !c.governmentOrRetainer), pick)
  {
    ClauseModsFrom(NoMods, c, pick)
  }

  /** The modifiers with the administrators' experience added like every
      other modifier, on top of the government bonus and the size penalties. */
  function ClauseMods(c: ClauseInputs, pick: nat -> ClauseIndex): (r: Mods)
    ensures r == Add(Add(GovernmentMods(c.governmentOrRetainer), Penalties(pick, SizeDrawsOf(c))),
                     ClauseModsAsWritten(c, pick))
  {
    ClauseModsFrom(Add(GovernmentMods(c.governmentOrRetainer), Penalties(pick, SizeDrawsOf(c))), c, pick)
  }

  function Total(m: Mods): int { m.command + m.salvage + m.support + m.transport }

  lemma {:induction false} PenaltiesTotal(pick: nat -> ClauseIndex, n: nat)
    ensures Total(Penalties(pick, n)) + n == 0
  {
    if n > 0 {
      PenaltiesTotal(pick, n - 1);
    }
  }

  /** As written, the government bonus changes nothing. */
  lemma GovernmentBonusIsLost(c: ClauseInputs, pick: nat -> ClauseIndex)
    ensures ClauseModsAsWritten(c.(governmentOrRetainer := true), pick)
         == ClauseModsAsWritten(c.(governmentOrRetainer := false), pick)
  {
  }

  /** As written, the size limit only shifts which draws pick the later clauses:
      its own penalties are lost. */
  lemma SizePenaltyIsLost(c: ClauseInputs, pick: nat -> ClauseIndex)
    ensures ClauseModsAsWritten(c, pick)
         == ClauseModsAsWritten(c.(sizeLimitedMerc := false), (k: nat) => pick(k + SizeDrawsOf(c)))
  {
    SizeDrawsShift(c, pick);
  }

  /** The shared modifiers of a size-limited unit are those of an unlimited one
      whose draws start after the size penalties' draws. */
  lemma SizeDrawsShift(c: ClauseInputs, pick: nat -> ClauseIndex)
    ensures ClauseModsFrom(NoMods, c, pick)
         == ClauseModsFrom(NoMods, c.(sizeLimitedMerc := false), (k: nat) => pick(k + SizeDrawsOf(c)))
  {
    var c2 := c.(sizeLimitedMerc := false);
    var n := SizeDrawsOf(c);
    var shifted := (k: nat) => pick(k + n);
    var r := RatingDraws(c.unitRatingMod);
    assert SizeDrawsOf(c2) == 0;
    assert pick(n) == shifted(0) && pick(n + 1) == shifted(1);
    assert pick(n + r) == shifted(r) && pick(n + r + 1) == shifted(r + 1);
    RatingModsReadTwoDraws(c.unitRatingMod, pick, shifted, n, 0);
    EnemyModsReadTwoDraws(c.enemyClan, c.employerClan, c.enemySkill, pick, shifted, n + r, r);
  }

  /** The rating modifiers read only the two draws from where they start. */
  lemma RatingModsReadTwoDraws(u: int, p: nat -> ClauseIndex, q: nat -> ClauseIndex, from: nat, to: nat)
    requires p(from) == q(to) && p(from + 1) == q(to + 1)
    ensures RatingMods(u, p, from) == RatingMods(u, q, to)
  {
  }

  /** The enemy modifiers read only the two draws from where they start. */
  lemma EnemyModsReadTwoDraws(clan: bool, employerClan: bool, skill: SkillLevel,
                              p: nat -> ClauseIndex, q: nat -> ClauseIndex, from: nat, to: nat)
    requires p(from) == q(to) && p(from + 1) == q(to + 1)
    ensures EnemyMods(clan, employerClan, skill, p, from) == EnemyMods(clan, employerClan, skill, q, to)
  {
  }

  /** A unit under a retainer with 28 effective units rated D, regular
      administrators and a regular enemy, on garrison duty for a plain
      employer: as written the modifiers total 2, missing the +1 per clause
      for the retainer and the two −1s for the unit's size. */
  lemma ClauseModsExample(pick: nat -> ClauseIndex)
    ensures var c := ClauseInputs(true, true, 1, 28, Some(2), Some(2), Some(2), false, false, REGULAR,
                                  GARRISON_DUTY, false, false, false, false);
            Total(ClauseModsAsWritten(c, pick)) == 2 && Total(ClauseMods(c, pick)) == 4
  {
    var c := ClauseInputs(true, true, 1, 28, Some(2), Some(2), Some(2), false, false, REGULAR,
                          GARRISON_DUTY, false, false, false, false);
    assert SizeDrawsOf(c) == 2;
    assert AdminMods(c.commandAdmin, c.logisticsAdmin, c.transportAdmin) == NoMods;
    assert RatingMods(c.unitRatingMod, pick, 2) == NoMods;
    assert EnemyMods(false, false, REGULAR, pick, 2) == NoMods;
    assert EmployerMods(false, false, false, false) == NoMods;
    assert ClauseModsFrom(NoMods, c, pick) == Combine(NoMods, NoMods, NoMods, NoMods, Mods(1, 0, 1, 0), NoMods);
    ClauseModsKeepEarlierMods(c, pick);
  }

  /** With the experience added, the government bonus is +1 on every clause
      and the size limit costs exactly one point per penalty. */
  lemma {:induction false} ClauseModsKeepEarlierMods(c: ClauseInputs, pick: nat -> ClauseIndex)
    ensures ClauseMods(c, pick)
         == Add(Add(GovernmentMods(c.governmentOrRetainer), Penalties(pick, SizeDrawsOf(c))), ClauseModsAsWritten(c, pick))
    ensures Total(ClauseMods(c, pick))
         == Total(ClauseModsAsWritten(c, pick)) + (if c.governmentOrRetainer then 4 else 0) - SizeDrawsOf(c)
  {
    PenaltiesTotal(pick, SizeDrawsOf(c));
  }

  /** Against a Clan enemy of a non-Clan employer, salvage is 2 lower and every
      other clause 1 higher than against a regular non-Clan enemy. */
  lemma {:induction false} ClanEnemyShift(c: ClauseInputs, pick: nat -> ClauseIndex)
    requires c.enemyClan && !c.employerClan
    ensures ClauseModsAsWritten(c, pick)
         == Add(ClauseModsAsWritten(c.(enemyClan := false, enemySkill := REGULAR), pick), Mods(1, -2, 1, 1))
  {
    var c2 := c.(enemyClan := false, enemySkill := REGULAR);
    var n := SizeDrawsOf(c);
    var base := NoMods;
    var admin := AdminMods(c.commandAdmin, c.logisticsAdmin, c.transportAdmin);
    var rating := RatingMods(c.unitRatingMod, pick, n);
    var mission := MissionMods(c.contractType);
    var employer := EmployerMods(c.employerMajor, c.employerMinor, c.employerMercenary, c.employerIndependent);
    assert EnemyMods(c2.enemyClan, c2.employerClan, c2.enemySkill, pick, n + RatingDraws(c.unitRatingMod)) == NoMods;
    assert ClauseModsAsWritten(c, pick) == Combine(base, admin, rating, ClanEnemyMods, mission, employer);
    assert ClauseModsAsWritten(c2, pick) == Combine(base, admin, rating, NoMods, mission, employer);
    CombineAddsEnemy(base, admin, rating, ClanEnemyMods, mission, employer);
  }

  /** The enemy's modifiers add to the rest. */
  lemma CombineAddsEnemy(base: Mods, admin: Mods, rating: Mods, enemy: Mods, mission: Mods, employer: Mods)
    ensures Combine(base, admin, rating, enemy, mission, employer)
         == Add(Combine(base, admin, rating, NoMods, mission, employer), enemy)
  {
  }

  /** The clause inputs for contract `c`: the campaign's side (`base`) with
      the contract's type and the faction attributes of its employer and
      enemy. */
  function ClauseInputsOf(base: ClauseInputs, c: Contract, factionOf: string -> Faction): (r: ClauseInputs)
    ensures r.contractType == c.contractType
    ensures r.enemyClan == factionOf(c.enemy).clan && r.employerClan == factionOf(c.employer).clan
    ensures r.employerMercenary == factionOf(c.employer).mercenary
    ensures r.employerMajor == factionOf(c.employer).majorOrSuperPower
    ensures r.employerIndependent <==> c.employer == "IND"
    ensures r.governmentOrRetainer == base.governmentOrRetainer && r.sizeLimitedMerc == base.sizeLimitedMerc
    ensures r.unitRatingMod == base.unitRatingMod && r.effectiveUnits == base.effectiveUnits
    ensures r.commandAdmin == base.commandAdmin && r.logisticsAdmin == base.logisticsAdmin
    ensures r.transportAdmin == base.transportAdmin
    ensures r.employerMinor == factionOf(c.employer).minorPower
    ensures r.enemySkill == base.enemySkill
  {
    base.(contractType := c.contractType, enemyClan := factionOf(c.enemy).clan,
          employerClan := factionOf(c.employer).clan, employerMajor := factionOf(c.employer).majorOrSuperPower,
          employerMinor := factionOf(c.employer).minorPower,
          employerMercenary := factionOf(c.employer).mercenary, employerIndependent := c.employer == "IND")
  }

  /** The modifiers filed for contract `c` generated by attempt `a`. */
  function ModsFor(c: Contract, a: Attempt, factionOf: string -> Faction): Mods
  {
    ClauseModsAsWritten(ClauseInputsOf(a.clauses, c, factionOf), a.clausePicks)
  }

  /** The modifier map after a generation: unchanged without a contract,
      otherwise with the contract's modifiers filed under its id. */
  predicate FiledFor(c: Option<Contract>, before: map<int, Mods>, after: map<int, Mods>,
                     outcome: int -> Attempt, factionOf: string -> Faction)
  {
    if c.None? then after == before
    else after == before[c.value.id := ModsFor(c.value, outcome(c.value.id), factionOf)]
  }

  // ----- the market -----

  class AtbMonthlyContractMarket {
    var contracts: seq<Contract>
    var lastId: int
    var contractIds: map<int, Entry>
    var followupContracts: map<int, int>   // follow-up id to the id of the contract it follows
    var clauseMods: map<int, Mods>
    /** How many times a contract is attempted before giving up. */
    const maximumGenerationRetries: nat
    /** How many employers are drawn to replace a mercenary one. */
    const maximumEmployerAttempts: nat

    /** Every id in use was handed out by the counter. */
    predicate Valid()
      reads this
    {
      (forall k :: k in contractIds ==> k <= lastId)
      && (forall k :: k in followupContracts ==> k <= lastId)
    }

    constructor (generationRetries: nat, employerAttempts: nat)
      ensures Valid()
      ensures contracts == [] && lastId == 0 && contractIds == map[] && followupContracts == map[] && clauseMods == map[]
      ensures maximumGenerationRetries == generationRetries && maximumEmployerAttempts == employerAttempts
    {
      contracts := [];
      lastId := 0;
      contractIds := map[];
      followupContracts := map[];
      clauseMods := map[];
      maximumGenerationRetries := generationRetries;
      maximumEmployerAttempts := employerAttempts;
    }

    /** Regenerates the offers on the first day of a month or for a new
        campaign; on any other day nothing changes. */
    method GenerateContractOffers(firstOfMonth: bool, newCampaign: bool, rolled: int,
                                  grayMonday: bool, grayRolls: nat -> int,
                                  factions: seq<Faction>, nearby: seq<seq<Faction>>,
                                  mercOrPirate: bool, hiringHall: bool,
                                  capitalOffer: Option<Contract>, generated: nat -> Option<Contract>)
      modifies this`contracts
      ensures !firstOfMonth && !newCampaign ==> contracts == old(contracts)
      ensures firstOfMonth || newCampaign ==>
        contracts == MonthlyOffers(rolled, grayMonday, grayRolls, factions, nearby, mercOrPirate,
                                   hiringHall, newCampaign, capitalOffer, generated)
    {
      if !firstOfMonth && !newCampaign {
        return;
      }
      contracts := [];
      var numContracts := rolled;
      if grayMonday {
        numContracts := GrayMonday(numContracts, grayRolls);
      }
      if numContracts == 0 {
        return;
      }
      numContracts := AdjustCount(numContracts, InMinorFactionSystem(factions), InBackwater(factions, nearby),
                                  mercOrPirate, hiringHall, newCampaign);
      contracts := CollectOffers(numContracts, capitalOffer, generated);
    }

    /** The offer for the capital's faction, if any, then the results of
        `numContracts` generations that are not null. */
    static method CollectOffers(numContracts: int, capitalOffer: Option<Contract>, generated: nat -> Option<Contract>)
      returns (offers: seq<Contract>)
      ensures offers == OptionList(capitalOffer) + Kept(generated, if numContracts < 0 then 0 else numContracts)
    {
      offers := [];
      if capitalOffer.Some? {
        offers := offers + [capitalOffer.value];
      }
      var kept := Generate(numContracts, generated);
      offers := offers + kept;
    }

    /** The system and employer modifiers on the rolled count, then the
        new-campaign minimum of two. */
    static method AdjustCount(rolled: int, minorSystem: bool, backwater: bool, mercOrPirate: bool,
                              hiringHall: bool, newCampaign: bool) returns (numContracts: int)
      ensures numContracts == AdjustedOfferCount(rolled, minorSystem, backwater, mercOrPirate, hiringHall, newCampaign)
    {
      numContracts := rolled;
      if minorSystem {
        numContracts := numContracts - 1;
      }
      if backwater {
        numContracts := numContracts - 1;
      }
      if mercOrPirate {
        if hiringHall {
          numContracts := numContracts + 1;
          if backwater {
            numContracts := numContracts + 1;
          }
        }
      } else {
        numContracts := numContracts + 1;
      }
      if newCampaign {
        numContracts := if numContracts > 2 then numContracts else 2;
      }
    }

    /** Runs `numContracts` generations and keeps the results that are not null. */
    static method Generate(numContracts: int, generated: nat -> Option<Contract>) returns (offers: seq<Contract>)
      ensures offers == Kept(generated, if numContracts < 0 then 0 else numContracts)
    {
      offers := [];
      var i := 0;
      while i < numContracts
        invariant 0 <= i <= (if numContracts < 0 then 0 else numContracts)
        invariant offers == Kept(generated, i)
      {
        var c := generated(i);
        if c.Some? {
          offers := offers + [c.value];
        }
        i := i + 1;
      }
    }

    /** Draws up to `attempts` employers for a mercenary one and keeps the first
        that is neither null nor mercenary; otherwise the last draw. */
    static method FindNonMercEmployer(employer: string, draws: nat -> Option<string>, attempts: nat,
                                      factionOf: string -> Faction) returns (e: Option<string>)
      requires factionOf(employer).mercenary
      ensures (e.Some? && !factionOf(e.value).mercenary)
          <==> exists j :: 0 <= j < attempts && draws(j).Some? && !factionOf(draws(j).value).mercenary
      ensures e.Some? && !factionOf(e.value).mercenary ==>
        exists j :: 0 <= j < attempts && e == draws(j)
          && forall k :: 0 <= k < j ==> !(draws(k).Some? && !factionOf(draws(k).value).mercenary)
    {
      e := Some(employer);
      var i := 0;
      while i < attempts
        invariant 0 <= i <= attempts
        invariant forall k :: 0 <= k < i ==> !(draws(k).Some? && !factionOf(draws(k).value).mercenary)
        invariant !(e.Some? && !factionOf(e.value).mercenary)
      {
        e := draws(i);
        if e.Some? && !factionOf(e.value).mercenary {
          return;
        }
        i := i + 1;
      }
    }

    /** One contract attempt with `retries` tries left.  Every attempt takes the
        next id and files a draft under it; a missing location or jump path
        retries with one try fewer.  `outcome(id)` holds what the lookups of
        the attempt with that id return. */
    method GenerateAtBContract(employer: Option<string>, retries: int, outcome: int -> Attempt,
                               factionOf: string -> Faction) returns (c: Option<Contract>)
      requires Valid()
      modifies this`lastId, this`contractIds, this`clauseMods
      decreases retries
      ensures Valid()
      ensures FiledFor(c, old(clauseMods), clauseMods, outcome, factionOf)
      ensures employer.None? || retries <= 0 ==> c.None? && lastId == old(lastId) && contractIds == old(contractIds)
      ensures old(lastId) <= lastId <= old(lastId) + (if retries < 0 then 0 else retries)
      ensures employer.Some? && retries > 0 ==> lastId > old(lastId)
      ensures forall k :: k in contractIds <==> k in old(contractIds) || old(lastId) < k <= lastId
      ensures forall k :: k in old(contractIds) ==> contractIds[k] == old(contractIds)[k]
      ensures c.Some? ==> c.value.id == lastId && lastId in contractIds && contractIds[lastId] == Offered(c.value)
      ensures c.Some? ==> !factionOf(c.value.employer).mercenary
      ensures c.Some? && c.value.mercSubcontract ==> factionOf(employer.value).mercenary
    {
      if employer.None? || retries <= 0 {
        return None;
      }
      lastId := lastId + 1;
      var id := lastId;
      contractIds := contractIds[id := Draft];
      var attempt := outcome(id);
      var emp := employer.value;
      var mercSubcontract := false;
      if factionOf(emp).mercenary {
        mercSubcontract := true;
        var found := FindNonMercEmployer(emp, attempt.employerDraws, maximumEmployerAttempts, factionOf);
        if found.None? || factionOf(found.value).mercenary {
          return None;
        }
        emp := found.value;
      }
      var t := NeutralAdjusted(attempt.missionType, attempt.neutralAtPeace);
      if !attempt.locationFound || !attempt.jumpPathFound {
        c := GenerateAtBContract(Some(emp), retries - 1, outcome, factionOf);
        return;
      }
      var contract := Contract(id, emp, attempt.enemy, t, None, attempt.systemId, mercSubcontract, attempt.terms);
      var filed := SetContractClauses(id, ClauseInputsOf(attempt.clauses, contract, factionOf), attempt.clausePicks);
      contractIds := contractIds[id := Offered(contract)];
      c := Some(contract);
    }

    /** One offer for the campaign: a mercenary without a retainer draws a new
        employer for each of its tries; otherwise the retainer's employer or the
        campaign's own faction gets all the tries. */
    method GenerateOffer(campaignFaction: string, retainer: Option<string>, employerDraws: nat -> Option<string>,
                         outcome: int -> Attempt, factionOf: string -> Faction) returns (c: Option<Contract>)
      requires Valid()
      modifies this`lastId, this`contractIds, this`clauseMods
      ensures Valid()
      ensures FiledFor(c, old(clauseMods), clauseMods, outcome, factionOf)
      ensures old(lastId) <= lastId <= old(lastId) + maximumGenerationRetries
      ensures forall k :: k in contractIds <==> k in old(contractIds) || old(lastId) < k <= lastId
      ensures forall k :: k in old(contractIds) ==> contractIds[k] == old(contractIds)[k]
      ensures c.Some? ==> c.value.id == lastId && lastId in contractIds && contractIds[lastId] == Offered(c.value)
      ensures c.Some? ==> !factionOf(c.value.employer).mercenary
    {
      if factionOf(campaignFaction).mercenary {
        if retainer.None? {
          var retries := maximumGenerationRetries;
          c := None;
          while retries > 0 && c.None?
            invariant 0 <= retries <= maximumGenerationRetries
            invariant Valid()
            invariant FiledFor(c, old(clauseMods), clauseMods, outcome, factionOf)
            invariant old(lastId) <= lastId <= old(lastId) + (maximumGenerationRetries - retries)
            invariant forall k :: k in contractIds <==> k in old(contractIds) || old(lastId) < k <= lastId
            invariant forall k :: k in old(contractIds) ==> contractIds[k] == old(contractIds)[k]
            invariant c.Some? ==> c.value.id == lastId && lastId in contractIds && contractIds[lastId] == Offered(c.value)
            invariant c.Some? ==> !factionOf(c.value.employer).mercenary
          {
            c := GenerateAtBContract(employerDraws(maximumGenerationRetries - retries), 1, outcome, factionOf);
            retries := retries - 1;
          }
        } else {
          c := GenerateAtBContract(retainer, maximumGenerationRetries, outcome, factionOf);
        }
      } else {
        c := GenerateAtBContract(Some(campaignFaction), maximumGenerationRetries, outcome, factionOf);
      }
    }

    /** Generates one offer and, when there is one, lists it. */
    method AddAtBContract(campaignFaction: string, retainer: Option<string>, employerDraws: nat -> Option<string>,
                          outcome: int -> Attempt, factionOf: string -> Faction) returns (c: Option<Contract>)
      requires Valid()
      modifies this`lastId, this`contractIds, this`contracts, this`clauseMods
      ensures Valid()
      ensures FiledFor(c, old(clauseMods), clauseMods, outcome, factionOf)
      ensures contracts == old(contracts) + OptionList(c)
      ensures old(lastId) <= lastId <= old(lastId) + maximumGenerationRetries
      ensures c.Some? ==> c.value.id in contractIds && contractIds[c.value.id] == Offered(c.value)
    {
      c := GenerateOffer(campaignFaction, retainer, employerDraws, outcome, factionOf);
      contracts := contracts + OptionList(c);
    }

    /** A subcontract of `parent`: the parent's employer and system, the enemy
        rolled for the mission type (kept only if rebel, pirate or present
        within 30 light years, else the parent's), and clauses derived from the
        parent's. */
    method GenerateAtBSubcontract(parent: Contract, missionType: ContractType, randomEnemy: string,
                                  enemyNearby: bool, factionOf: string -> Faction) returns (sub: Contract)
      requires Valid()
      modifies this`lastId, this`contractIds
      ensures Valid()
      ensures lastId == old(lastId) + 1 && sub.id == lastId
      ensures contractIds == old(contractIds)[lastId := Offered(sub)]
      ensures sub.parent == Some(parent.id) && sub.employer == parent.employer && sub.systemId == parent.systemId
      ensures sub.terms == SubcontractTerms(parent.terms)
      ensures var e := factionOf(SubcontractEnemy(missionType, randomEnemy));
        sub.enemy == (if !e.rebel && !e.pirate && !enemyNearby then parent.enemy
                      else SubcontractEnemy(missionType, randomEnemy))
        && sub.contractType == (if missionType == GARRISON_DUTY && e.rebel then RIOT_DUTY else missionType)
    {
      var enemy := SubcontractEnemy(missionType, randomEnemy);
      var t := missionType;
      if t == GARRISON_DUTY && factionOf(enemy).rebel {
        t := RIOT_DUTY;
      }
      lastId := lastId + 1;
      if !factionOf(enemy).rebel && !factionOf(enemy).pirate && !enemyNearby {
        enemy := parent.enemy;
      }
      sub := Contract(lastId, parent.employer, enemy, t, Some(parent.id), parent.systemId, false,
                      SubcontractTerms(parent.terms));
      contractIds := contractIds[lastId := Offered(sub)];
    }

    /** Offers a follow-up to `contract` unless one was offered already.  The
        follow-up's clause modifiers are computed and filed before it is
        given its id, so they are filed under `unassignedId`, the id a new
        contract holds until one is set. */
    method AddFollowup(contract: Contract, initialType: ContractType, terms: Terms,
                       unassignedId: int, clauses: ClauseInputs, pick: nat -> ClauseIndex,
                       factionOf: string -> Faction)
      requires Valid()
      modifies this`lastId, this`contractIds, this`contracts, this`followupContracts, this`clauseMods
      ensures Valid()
      ensures contract.id in old(followupContracts).Values ==> unchanged(this)
      ensures contract.id !in old(followupContracts).Values ==>
        var f := Followup(contract, lastId, initialType, terms);
        lastId == old(lastId) + 1
        && contracts == old(contracts) + [f]
        && contractIds == old(contractIds)[lastId := Offered(f)]
        && followupContracts == old(followupContracts)[lastId := contract.id]
        && clauseMods == old(clauseMods)[unassignedId := ClauseModsAsWritten(ClauseInputsOf(clauses, f, factionOf), pick)]
      ensures contract.id !in old(followupContracts).Values && lastId != unassignedId ==>
        (lastId in clauseMods <==> lastId in old(clauseMods))
      ensures contract.id in followupContracts.Values
    {
      if contract.id in followupContracts.Values {
        return;
      }
      var draft := Followup(contract, lastId + 1, initialType, terms);
      var filed := SetContractClauses(unassignedId, ClauseInputsOf(clauses, draft, factionOf), pick);
      lastId := lastId + 1;
      var f := Followup(contract, lastId, initialType, terms);
      contractIds := contractIds[lastId := Offered(f)];
      contracts := contracts + [f];
      followupContracts := followupContracts[lastId := contract.id];
      assert followupContracts[lastId] == contract.id;
    }

    /** After a diversionary raid, recon raid or riot duty, a roll of 6 offers
        a follow-up. */
    method CheckForFollowup(contract: Contract, roll: int, initialType: ContractType, terms: Terms,
                            unassignedId: int, clauses: ClauseInputs, pick: nat -> ClauseIndex,
                            factionOf: string -> Faction)
      requires Valid()
      modifies this`lastId, this`contractIds, this`contracts, this`followupContracts, this`clauseMods
      ensures Valid()
      ensures FollowupType(contract.contractType).None? || roll != 6 ==> unchanged(this)
      ensures FollowupType(contract.contractType).Some? && roll == 6 && contract.id in old(followupContracts).Values ==>
        unchanged(this)
      ensures FollowupType(contract.contractType).Some? && roll == 6 && contract.id !in old(followupContracts).Values ==>
        var f := Followup(contract, lastId, initialType, terms);
        lastId == old(lastId) + 1
        && contracts == old(contracts) + [f]
        && contractIds == old(contractIds)[lastId := Offered(f)]
        && followupContracts == old(followupContracts)[lastId := contract.id]
        && clauseMods == old(clauseMods)[unassignedId := ClauseModsAsWritten(ClauseInputsOf(clauses, f, factionOf), pick)]
        && f.contractType == FollowupType(contract.contractType).value
    {
      var t := contract.contractType;
      if t == DIVERSIONARY_RAID || t == RECON_RAID || t == RIOT_DUTY {
        if roll == 6 {
          AddFollowup(contract, initialType, terms, unassignedId, clauses, pick, factionOf);
        }
      }
    }

    /** Computes the clause modifiers of contract `id` into a fresh array and
        files them; `pick(k)` is the k-th random clause drawn. */
    method SetContractClauses(id: int, c: ClauseInputs, pick: nat -> ClauseIndex) returns (mods: array<int>)
      modifies this`clauseMods
      ensures fresh(mods) && mods.Length == 4
      ensures ModsOf(mods[..]) == ClauseModsAsWritten(c, pick)
      ensures clauseMods == old(clauseMods)[id := ModsOf(mods[..])]
    {
      var drawn;
      mods, drawn := StartClauses(c.governmentOrRetainer, c.sizeLimitedMerc, c.effectiveUnits, c.unitRatingMod, pick);
      AddShared(mods, c, pick, drawn);
      clauseMods := clauseMods[id := ModsOf(mods[..])];
    }

    /** A fresh modifier array holding the government bonus and the size
        penalties; returns the number of draws the penalties used. */
    static method StartClauses(governmentOrRetainer: bool, sizeLimitedMerc: bool, effectiveUnits: int, unitRatingMod: int,
                               pick: nat -> ClauseIndex) returns (mods: array<int>, drawn: nat)
      ensures fresh(mods) && mods.Length == 4
      ensures drawn == SizeDraws(sizeLimitedMerc, effectiveUnits, unitRatingMod)
      ensures ModsOf(mods[..]) == Add(GovernmentMods(governmentOrRetainer), Penalties(pick, drawn))
    {
      mods := NewClauseMods(governmentOrRetainer);
      drawn := AddPenalties(mods, sizeLimitedMerc, effectiveUnits, unitRatingMod, pick);
    }

    /** Sets the four clauses to the administrators' experience, then adds the
        rating, enemy, mission and employer modifiers, drawing random clauses
        after the size penalties' `drawn` draws.  What the array held before
        is overwritten. */
    static method AddShared(mods: array<int>, c: ClauseInputs, pick: nat -> ClauseIndex, drawn: nat)
      requires mods.Length == 4 && drawn == SizeDrawsOf(c)
      modifies mods
      ensures ModsOf(mods[..]) == ClauseModsAsWritten(c, pick)
    {
      AddAdmin(mods, c.commandAdmin, c.logisticsAdmin, c.transportAdmin);
      ghost var experienced := ModsOf(mods[..]);
      var next := AddRating(mods, c.unitRatingMod, pick, drawn);
      ghost var rated := ModsOf(mods[..]);
      AddEnemy(mods, c.enemyClan, c.employerClan, c.enemySkill, pick, next);
      ghost var opposed := ModsOf(mods[..]);
      AddMission(mods, c.contractType);
      ghost var tasked := ModsOf(mods[..]);
      AddEmployer(mods, c.employerMajor, c.employerMinor, c.employerMercenary, c.employerIndependent);
      AddsCombine(NoMods, experienced, rated, opposed, tasked, ModsOf(mods[..]),
                  AdminMods(c.commandAdmin, c.logisticsAdmin, c.transportAdmin),
                  RatingMods(c.unitRatingMod, pick, drawn),
                  EnemyMods(c.enemyClan, c.employerClan, c.enemySkill, pick, next),
                  MissionMods(c.contractType),
                  EmployerMods(c.employerMajor, c.employerMinor, c.employerMercenary, c.employerIndependent));
    }

    /** `d` added to the clause at index `k`. */
    static method BumpAt(mods: array<int>, k: ClauseIndex, d: int)
      requires mods.Length == 4
      modifies mods
      ensures ModsOf(mods[..]) == Bump(ModsOf(old(mods[..])), k, d)
    {
      mods[k] := mods[k] + d;
    }

    /** A fresh, zeroed modifier array with +1 on every clause for a
        government unit or one under a retainer. */
    static method NewClauseMods(governmentOrRetainer: bool) returns (mods: array<int>)
      ensures fresh(mods) && mods.Length == 4
      ensures ModsOf(mods[..]) == GovernmentMods(governmentOrRetainer)
    {
      mods := new int[4](_ => 0);
      if governmentOrRetainer {
        for i := 0 to 4
          invariant forall k :: 0 <= k < 4 ==> mods[k] == (if k < i then 1 else 0)
        {
          mods[i] := mods[i] + 1;
        }
      }
    }

    /** −1 on a random clause for each pair of effective units above what the
        unit rating allows a mercenary unit; returns the number of draws used. */
    static method AddPenalties(mods: array<int>, sizeLimitedMerc: bool, effectiveUnits: int, unitRatingMod: int,
                               pick: nat -> ClauseIndex) returns (drawn: nat)
      requires mods.Length == 4
      modifies mods
      ensures drawn == SizeDraws(sizeLimitedMerc, effectiveUnits, unitRatingMod)
      ensures ModsOf(mods[..]) == Add(ModsOf(old(mods[..])), Penalties(pick, drawn))
    {
      drawn := 0;
      ghost var base := ModsOf(mods[..]);
      if sizeLimitedMerc {
        var max := (unitRatingMod + 1) * 12;
        var numMods := JavaDiv(effectiveUnits - max, 2);
        while numMods > 0
          invariant drawn + (if numMods > 0 then numMods else 0) == SizeDraws(sizeLimitedMerc, effectiveUnits, unitRatingMod)
          invariant ModsOf(mods[..]) == Add(base, Penalties(pick, drawn))
        {
          BumpAt(mods, pick(drawn), -1);
          PenaltyStep(base, pick, drawn);
          drawn := drawn + 1;
          numMods := numMods - 1;
        }
      }
    }

    /** Adds the row of the mission table for the contract type. */
    static method AddMission(mods: array<int>, t: ContractType)
      requires mods.Length == 4
      modifies mods
      ensures ModsOf(mods[..]) == Add(ModsOf(old(mods[..])), MissionMods(t))
    {
      var m := MissionMods(t);
      var row := [m.command, m.salvage, m.support, m.transport];
      for i := 0 to 4
        invariant forall k :: 0 <= k < 4 ==> mods[k] == old(mods[k]) + (if k < i then row[k] else 0)
      {
        mods[i] := mods[i] + row[i];
      }
    }

    /** Sets every clause to the experience of its administrator relative to
        regular, whatever it held before. */
    static method AddAdmin(mods: array<int>, command: Option<int>, logistics: Option<int>, transport: Option<int>)
      requires mods.Length == 4
      modifies mods
      ensures ModsOf(mods[..]) == AdminMods(command, logistics, transport)
    {
      mods[CLAUSE_COMMAND] := AdminExperience(command) - EXP_REGULAR;
      mods[CLAUSE_SALVAGE] := AdminExperience(logistics) - EXP_REGULAR;
      mods[CLAUSE_TRANSPORT] := AdminExperience(transport) - EXP_REGULAR;
      mods[CLAUSE_SUPPORT] := AdminExperience(logistics) - EXP_REGULAR;
    }

    /** Adds the unit rating's modifiers on random clauses from draw `drawn` on. */
    static method AddRating(mods: array<int>, unitRatingMod: int, pick: nat -> ClauseIndex, drawn: nat) returns (next: nat)
      requires mods.Length == 4
      modifies mods
      ensures next == drawn + RatingDraws(unitRatingMod)
      ensures ModsOf(mods[..]) == Add(ModsOf(old(mods[..])), RatingMods(unitRatingMod, pick, drawn))
    {
      ghost var base := ModsOf(mods[..]);
      next := drawn;
      if unitRatingMod >= DRAGOON_A || unitRatingMod == DRAGOON_B {
        var bonus := if unitRatingMod >= DRAGOON_A then 2 else 1;
        BumpAt(mods, pick(next), bonus);
        BumpAt(mods, pick(next + 1), bonus);
        BumpTwiceAfterAdd(base, pick(next), pick(next + 1), bonus);
        next := next + 2;
      } else if unitRatingMod == DRAGOON_C || unitRatingMod <= DRAGOON_F {
        var bonus := if unitRatingMod == DRAGOON_C then 1 else -1;
        BumpAt(mods, pick(next), bonus);
        BumpAfterAdd(base, NoMods, pick(next), bonus);
        next := next + 1;
      }
    }

    /** Adds the enemy's modifiers, drawing random clauses from `drawn` on. */
    static method AddEnemy(mods: array<int>, enemyClan: bool, employerClan: bool, enemySkill: SkillLevel, pick: nat -> ClauseIndex, drawn: nat)
      requires mods.Length == 4
      modifies mods
      ensures ModsOf(mods[..]) == Add(ModsOf(old(mods[..])), EnemyMods(enemyClan, employerClan, enemySkill, pick, drawn))
    {
      if enemyClan && !employerClan {
        for i := 0 to 4
          invariant forall k :: 0 <= k < 4 ==>
            mods[k] == old(mods[k]) + (if k < i then (if k == CLAUSE_SALVAGE then -2 else 1) else 0)
        {
          if i == CLAUSE_SALVAGE {
            mods[i] := mods[i] - 2;
          } else {
            mods[i] := mods[i] + 1;
          }
        }
      } else {
        var next := drawn;
        if IsVeteranOrGreater(enemySkill) {
          BumpAt(mods, pick(next), 1);
          next := next + 1;
        }
        if IsEliteOrGreater(enemySkill) {
          BumpAt(mods, pick(next), 1);
        }
      }
    }

    /** Adds the employer's modifiers. */
    static method AddEmployer(mods: array<int>, major: bool, minor: bool, mercenary: bool, independent: bool)
      requires mods.Length == 4
      modifies mods
      ensures ModsOf(mods[..]) == Add(ModsOf(old(mods[..])), EmployerMods(major, minor, mercenary, independent))
    {
      ghost var base := ModsOf(mods[..]);
      if major {
        mods[CLAUSE_SALVAGE] := mods[CLAUSE_SALVAGE] - 1;
        mods[CLAUSE_TRANSPORT] := mods[CLAUSE_TRANSPORT] + 1;
      }
      if minor {
        mods[CLAUSE_SALVAGE] := mods[CLAUSE_SALVAGE] - 2;
      }
      if mercenary {
        mods[CLAUSE_COMMAND] := mods[CLAUSE_COMMAND] - 1;
        mods[CLAUSE_SALVAGE] := mods[CLAUSE_SALVAGE] + 2;
        mods[CLAUSE_SUPPORT] := mods[CLAUSE_SUPPORT] + 1;
        mods[CLAUSE_TRANSPORT] := mods[CLAUSE_TRANSPORT] + 1;
      }
      if independent {
        mods[CLAUSE_SALVAGE] := mods[CLAUSE_SALVAGE] - 1;
        mods[CLAUSE_SUPPORT] := mods[CLAUSE_SUPPORT] - 1;
      }
    }
  }

  /** Five additions in a row are their combination. */
  lemma AddsCombine(base: Mods, m1: Mods, m2: Mods, m3: Mods, m4: Mods, m5: Mods,
                    admin: Mods, rating: Mods, enemy: Mods, mission: Mods, employer: Mods)
    requires m1 == Add(base, admin) && m2 == Add(m1, rating) && m3 == Add(m2, enemy)
    requires m4 == Add(m3, mission) && m5 == Add(m4, employer)
    ensures m5 == Combine(base, admin, rating, enemy, mission, employer)
  {
  }

  /** One more draw puts one more −1 on the clause it picks. */
  lemma PenaltyStep(base: Mods, pick: nat -> ClauseIndex, n: nat)
    ensures Bump(Add(base, Penalties(pick, n)), pick(n), -1) == Add(base, Penalties(pick, n + 1))
  {
  }

  /** Bumping after adding is adding the bumped value. */
  lemma BumpAfterAdd(a: Mods, b: Mods, k: ClauseIndex, d: int)
    ensures Bump(Add(a, b), k, d) == Add(a, Bump(b, k, d))
  {
  }

  /** Two bumps of `d` after an addition, as the unit rating makes them. */
  lemma BumpTwiceAfterAdd(a: Mods, k1: ClauseIndex, k2: ClauseIndex, d: int)
    ensures Bump(Bump(a, k1, d), k2, d) == Add(a, Bump(Bump(NoMods, k1, d), k2, d))
  {
    BumpAfterAdd(a, NoMods, k1, d);
    BumpAfterAdd(a, Bump(NoMods, k1, d), k2, d);
  }

  /** What the lookups of one generation attempt return: the employers drawn
      to replace a mercenary one, the mission type (after the riot-duty
      check), the enemy, whether a neutral employer is at peace with it, and
      whether a location and a jump path to it were found; then the
      campaign's side of the clause computation (administrators, unit
      rating, size, enemy skill) and the clauses its random draws pick. */
  datatype Attempt = Attempt(employerDraws: nat -> Option<string>, missionType: ContractType, enemy: string,
                             neutralAtPeace: bool, locationFound: bool, systemId: string,
                             jumpPathFound: bool, terms: Terms,
                             clauses: ClauseInputs, clausePicks: nat -> ClauseIndex)
}
