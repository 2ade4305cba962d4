/** The rules behind the briefing tab: the experience a completed mission
    earns and who receives it, the guards on completing a mission, the
    ".mul" suffix of a saved unit file, the generic battle value of the
    chosen forces, and which scenario buttons are enabled for the selected
    scenario.  Dialog answers, campaign options and the state of scenarios
    and contracts are inputs. */
module BriefingTab {

  import opened Wrappers

  datatype MissionStatus = ACTIVE | SUCCESS | FAILED | BREACH | PARTIAL

  /** An AtB contract, another kind of contract, or a mission that is not a
      contract at all. */
  datatype MissionKind = AtBContract(victoryPoints: int) | OtherContract | PlainMission

  datatype Mission = Mission(id: int, kind: MissionKind, hasPendingScenarios: bool)

  /** The campaign options the tab reads. */
  datatype Options = Options(
    useAtB: bool,
    useStratCon: bool,
    useGenericBattleValue: bool,
    missionXpFail: int,
    missionXpSuccess: int,
    missionXpOutstandingSuccess: int)

  // ----- mission experience -----

  predicate IsSuccessful(status: MissionStatus)
  {
    status == SUCCESS || status == PARTIAL
  }

  /** A StratCon AtB contract won with at least three victory points. */
  predicate OutstandingSuccess(options: Options, mission: Mission)
  {
    options.useStratCon && mission.kind.AtBContract? && mission.kind.victoryPoints >= 3
  }

  function GetMissionXpAward(status: MissionStatus, mission: Mission, options: Options): (r: int)
    ensures status == ACTIVE ==> r == 0
    ensures status == FAILED || status == BREACH ==> r == options.missionXpFail
    ensures IsSuccessful(status) && OutstandingSuccess(options, mission) ==> r == options.missionXpOutstandingSuccess
    ensures IsSuccessful(status) && !OutstandingSuccess(options, mission) ==> r == options.missionXpSuccess
  {
    match status
    case FAILED | BREACH => options.missionXpFail
    case SUCCESS | PARTIAL =>
      if options.useStratCon && mission.kind.AtBContract? && mission.kind.victoryPoints >= 3
      then options.missionXpOutstandingSuccess
      else options.missionXpSuccess
    case ACTIVE => 0
  }

  /** Without StratCon, or outside an AtB contract, the victory points are
      never looked at: every success earns the plain success award. */
  lemma VictoryPointsNeedStratConAtB(status: MissionStatus, mission: Mission, options: Options, victoryPoints: int)
    requires IsSuccessful(status)
    requires !options.useStratCon || !mission.kind.AtBContract?
    ensures GetMissionXpAward(status, mission, options) == options.missionXpSuccess
    ensures mission.kind.AtBContract? ==>
      GetMissionXpAward(status, mission.(kind := AtBContract(victoryPoints)), options) == options.missionXpSuccess
  {
  }

  /** A person as the experience award sees them. */
  datatype Person = Person(active: bool, isChild: bool, isDependent: bool, xp: int)

  /** Active personnel who are neither children nor dependents. */
  predicate ReceivesMissionXp(p: Person)
  {
    p.active && !p.isChild && !p.isDependent
  }

  /** The personnel after a mission awarded `xpAward`: each recipient gains
      the award when it is positive; nobody else changes. */
  function AwardedXp(personnel: seq<Person>, xpAward: int): (r: seq<Person>)
    ensures |r| == |personnel|
    ensures forall i :: 0 <= i < |r| ==> r[i].(xp := personnel[i].xp) == personnel[i]
    ensures forall i :: 0 <= i < |r| ==>
      r[i].xp == personnel[i].xp + (if xpAward > 0 && ReceivesMissionXp(personnel[i]) then xpAward else 0)
  {
    seq(|personnel|, i requires 0 <= i < |personnel| =>
      if xpAward > 0 && ReceivesMissionXp(personnel[i]) then personnel[i].(xp := personnel[i].xp + xpAward)
      else personnel[i])
  }

  function TotalXp(personnel: seq<Person>): int
  {
    if |personnel| == 0 then 0 else TotalXp(personnel[..|personnel| - 1]) + personnel[|personnel| - 1].xp
  }

  function Recipients(personnel: seq<Person>): nat
  {
    if |personnel| == 0 then 0
    else Recipients(personnel[..|personnel| - 1]) + (if ReceivesMissionXp(personnel[|personnel| - 1]) then 1 else 0)
  }

  /** A positive award adds exactly the award once per recipient to the
      unit's experience; any other award adds nothing. */
  lemma {:induction false} AwardedXpTotal(personnel: seq<Person>, xpAward: int)
    ensures TotalXp(AwardedXp(personnel, xpAward)) ==
      TotalXp(personnel) + (if xpAward > 0 then xpAward * Recipients(personnel) else 0)
  {
    if |personnel| > 0 {
      var n := |personnel| - 1;
      var r := AwardedXp(personnel, xpAward);
      assert r[..n] == AwardedXp(personnel[..n], xpAward);
      AwardedXpTotal(personnel[..n], xpAward);
    }
  }

  // ----- completing a mission -----

  datatype Completion =
    | NoMission
    | PendingScenarios
    | DialogCancelled
    | StillActive
    | DefectorsCancelled
    | ContractExtended
    | Threw(error: Exception)
    | Completed(xpAward: int)

  /** The answers and campaign lookups completing a mission depends on. */
  datatype CompletionInputs = CompletionInputs(
    confirmed: bool,
    status: MissionStatus,
    hasPrisonerDefectors: bool,
    defectorChoice: int,
    contractExtended: bool)

  /** The prisoner event at the end of a mission, as written: it is built for
      every contract, casting the mission to an AtB contract. */
  function PrisonerEventAsWritten(kind: MissionKind): (r: Result<bool>)
    ensures r == Ok(true) <==> kind.AtBContract?
    ensures r.Err? <==> kind == OtherContract
  {
    match kind
    case AtBContract(_) => Ok(true)
    case OtherContract => Err(ClassCast)
    case PlainMission => Ok(false)
  }

  /** Completing a contract that is not an AtB contract throws before the
      mission is recorded as complete. */
  lemma PlainContractCompletionThrows()
    ensures PrisonerEventAsWritten(OtherContract) == Err(ClassCast)
  {
  }

  /** The prisoner event as intended: only AtB contracts have one, and no
      mission throws.  It agrees with the written code on every mission that
      does not throw there. */
  function HasPrisonerEvent(kind: MissionKind): (r: bool)
    ensures r <==> PrisonerEventAsWritten(kind) == Ok(true)
    ensures PrisonerEventAsWritten(kind).Ok? ==> PrisonerEventAsWritten(kind) == Ok(r)
  {
    kind.AtBContract?
  }

  class Campaign {
    var personnel: seq<Person>
    var missionStatus: map<int, MissionStatus>

    constructor (personnel: seq<Person>)
      ensures this.personnel == personnel && missionStatus == map[]
    {
      this.personnel := personnel;
      missionStatus := map[];
    }

    /** Gives every active person who is neither a child nor a dependent the
        mission's experience. */
    method ApplyMissionXp(xpAward: int)
      modifies this`personnel
      ensures personnel == AwardedXp(old(personnel), xpAward)
    {
      if xpAward > 0 {
        ghost var before := personnel;
        for i := 0 to |personnel|
          invariant |personnel| == |before|
          invariant personnel[..i] == AwardedXp(before, xpAward)[..i]
          invariant personnel[i..] == before[i..]
        {
          assert personnel[i] == before[i] by {
            assert personnel[i..][0] == before[i..][0];
          }
          if !personnel[i].active || personnel[i].isChild || personnel[i].isDependent {
            continue;
          }
          personnel := personnel[i := personnel[i].(xp := personnel[i].xp + xpAward)];
        }
      }
    }

    /** Completes the selected mission unless a guard stops it or the
        prisoner event throws; a completed mission records its status and
        hands out its experience. */
    method CompleteMission(mission: Option<Mission>, inputs: CompletionInputs, options: Options)
      returns (outcome: Completion)
      modifies this
      ensures mission.None? ==> outcome == NoMission
      ensures mission.Some? && mission.value.hasPendingScenarios ==> outcome == PendingScenarios
      ensures mission.Some? && !mission.value.hasPendingScenarios && !inputs.confirmed ==> outcome == DialogCancelled
      ensures outcome.Threw? <==>
        (mission.Some? && !mission.value.hasPendingScenarios && inputs.confirmed && inputs.status != ACTIVE &&
         mission.value.kind == OtherContract)
      ensures outcome.Threw? ==> outcome.error == ClassCast
      ensures outcome.Completed? <==>
        (mission.Some? && !mission.value.hasPendingScenarios && inputs.confirmed && inputs.status != ACTIVE &&
         mission.value.kind != OtherContract &&
         !(mission.value.kind.AtBContract? && inputs.hasPrisonerDefectors && inputs.defectorChoice == 0) &&
         !(options.useAtB && mission.value.kind.AtBContract? && inputs.contractExtended))
      ensures !outcome.Completed? ==> personnel == old(personnel) && missionStatus == old(missionStatus)
      ensures outcome.Completed? ==>
        outcome.xpAward == GetMissionXpAward(inputs.status, mission.value, options) &&
        missionStatus == old(missionStatus)[mission.value.id := inputs.status] &&
        personnel == AwardedXp(old(personnel), outcome.xpAward)
    {
      if mission.None? {
        return NoMission;
      } else if mission.value.hasPendingScenarios {
        return PendingScenarios;
      }
      if !inputs.confirmed {
        return DialogCancelled;
      }
      if inputs.status == ACTIVE {
        return StillActive;
      }
      var prisoners := PrisonerEventAsWritten(mission.value.kind);
      if prisoners.Err? {
        return Threw(prisoners.error);
      }
      if prisoners.value {
        if inputs.hasPrisonerDefectors && inputs.defectorChoice == 0 {
          return DefectorsCancelled;
        }
      }
      if options.useAtB && mission.value.kind.AtBContract? {
        if inputs.contractExtended {
          return ContractExtended;
        }
      }
      missionStatus := missionStatus[mission.value.id := inputs.status];
      var xpAward := GetMissionXpAward(inputs.status, mission.value, options);
      ApplyMissionXp(xpAward);
      outcome := Completed(xpAward);
    }
  }

  // ----- the unit file -----

  /** Whether a file name ends in ".mul", ignoring case. */
  predicate EndsWithMul(name: string)
    ensures EndsWithMul(name) ==> |name| >= 4
  {
    var lower := LowerCase(name);
    |lower| >= 4 && lower[|lower| - 4..] == ".mul"
  }

  /** The file chosen in the save dialog, and its canonical path (None when
      resolving it fails). */
  datatype ChosenFile = ChosenFile(path: string, canonicalPath: Option<string>)

  /** The file the units are saved to: the chosen file when its name already
      ends in ".mul", otherwise its canonical path with ".mul" appended;
      nothing when the dialog is cancelled or the path cannot be resolved. */
  function DetermineMulFilePath(chosen: Option<ChosenFile>): (r: Option<string>)
    ensures chosen.None? ==> r.None?
    ensures r.Some? ==> EndsWithMul(r.value)
    ensures chosen.Some? && EndsWithMul(chosen.value.path) ==> r == Some(chosen.value.path)
    ensures chosen.Some? && !EndsWithMul(chosen.value.path) ==>
      r == (if chosen.value.canonicalPath.Some? then Some(chosen.value.canonicalPath.value + ".mul") else None)
  {
    if chosen.None? then None
    else if EndsWithMul(chosen.value.path) then Some(chosen.value.path)
    else match chosen.value.canonicalPath
      case None => None
      case Some(canonical) =>
        MulSuffixAdded(canonical);
        Some(canonical + ".mul")
  }

  lemma MulSuffixAdded(path: string)
    ensures EndsWithMul(path + ".mul")
  {
    var lower := LowerCase(path + ".mul");
    assert lower[|lower| - 4..] == ".mul";
  }

  /** Saving to the file already chosen keeps it: the rule is idempotent. */
  lemma DetermineMulFilePathIdempotent(chosen: ChosenFile, canonical: Option<string>)
    requires DetermineMulFilePath(Some(chosen)).Some?
    ensures DetermineMulFilePath(Some(ChosenFile(DetermineMulFilePath(Some(chosen)).value, canonical)))
         == DetermineMulFilePath(Some(chosen))
  {
  }

  // ----- generic battle value -----

  function BattleValueSum(chosen: seq<int>): int
  {
    if |chosen| == 0 then 0 else BattleValueSum(chosen[..|chosen| - 1]) + chosen[|chosen| - 1]
  }

  /** The generic battle values of the chosen entities, or 0 when the option
      is off. */
  function CalculateGenericBattleValue(chosen: seq<int>, options: Options): (r: int)
    ensures !options.useGenericBattleValue ==> r == 0
    ensures options.useGenericBattleValue && (forall i :: 0 <= i < |chosen| ==> chosen[i] >= 0) ==> r >= 0
  {
    if options.useGenericBattleValue then
      BattleValueSumNonNegative(chosen);
      BattleValueSum(chosen)
    else 0
  }

  lemma {:induction false} BattleValueSumNonNegative(chosen: seq<int>)
    ensures (forall i :: 0 <= i < |chosen| ==> chosen[i] >= 0) ==> BattleValueSum(chosen) >= 0
  {
    if |chosen| > 0 {
      BattleValueSumNonNegative(chosen[..|chosen| - 1]);
    }
  }

  /** The value of two groups of entities is the sum of their values. */
  lemma {:induction false} GenericBattleValueSplits(a: seq<int>, b: seq<int>, options: Options)
    ensures CalculateGenericBattleValue(a + b, options) ==
      CalculateGenericBattleValue(a, options) + CalculateGenericBattleValue(b, options)
  {
    BattleValueSumAppend(a, b);
  }

  lemma {:induction false} BattleValueSumAppend(a: seq<int>, b: seq<int>)
    ensures BattleValueSum(a + b) == BattleValueSum(a) + BattleValueSum(b)
    decreases |b|
  {
    if |b| == 0 {
      assert a + b == a;
    } else {
      assert (a + b)[..|a + b| - 1] == a + b[..|b| - 1];
      BattleValueSumAppend(a, b[..|b| - 1]);
    }
  }

  // ----- the scenario buttons -----

  /** A scenario as the buttons see it: whether it is linked to another, can
      start now, has a StratCon track, and is an AtB scenario. */
  datatype Scenario = Scenario(id: nat, linked: bool, canStartScenario: bool, hasTrack: bool, isAtBScenario: bool)

  /** The auto-resolve button as written: set only for AtB scenarios, so for
      any other scenario it keeps the state the previous selection left. */
  function AutoResolveAsWritten(previous: bool, scenario: Scenario, canStartGame: bool): (r: bool)
    ensures scenario.isAtBScenario ==> r == canStartGame
    ensures !scenario.isAtBScenario ==> r == previous
  {
    if scenario.isAtBScenario then canStartGame else previous
  }

  /** After an AtB scenario that could start, selecting a scenario that
      cannot start leaves auto-resolve enabled. */
  lemma AutoResolveStaysEnabled()
    ensures var previous := AutoResolveAsWritten(false, Scenario(0, false, true, false, true), true);
            AutoResolveAsWritten(previous, Scenario(1, false, false, false, false), false)
  {
  }

  /** The auto-resolve button as intended: enabled only for an AtB scenario
      that can start. */
  function AutoResolveEnabled(scenario: Scenario, canStartGame: bool): (r: bool)
    ensures r ==> canStartGame
    ensures scenario.isAtBScenario ==> r == AutoResolveAsWritten(false, scenario, canStartGame)
    ensures !scenario.isAtBScenario ==> !r
  {
    scenario.isAtBScenario && canStartGame
  }

  class ScenarioButtons {
    var startGame: bool
    var joinGame: bool
    var loadGame: bool
    var getMul: bool
    var clearAssignedUnits: bool
    var resolveScenario: bool
    var autoResolveScenario: bool
    var printRS: bool
    var selectedScenario: int

    /** No button is enabled without a selected scenario; the game buttons
        move together, and clearing units needs the game to be startable.
        Auto-resolve is not tied to the game buttons: a scenario that is not
        an AtB scenario leaves it as it was. */
    predicate Valid()
      reads this
    {
      startGame == joinGame == loadGame == getMul == resolveScenario == printRS &&
      (clearAssignedUnits ==> startGame) &&
      (selectedScenario == -1 ==> !startGame && !clearAssignedUnits && !autoResolveScenario)
    }

    constructor ()
      ensures Valid() && selectedScenario == -1 && !startGame
    {
      startGame, joinGame, loadGame, getMul := false, false, false, false;
      clearAssignedUnits, resolveScenario, autoResolveScenario, printRS := false, false, false, false;
      selectedScenario := -1;
    }

    /** Updates the buttons for the selected table row; `scenario` is the
        scenario of that row (None when the row has none). */
    method RefreshScenarioView(row: int, scenario: Option<Scenario>, isGM: bool)
      requires Valid()
      modifies this
      ensures Valid()
      ensures row < 0 ==>
        selectedScenario == -1 && !startGame && !joinGame && !loadGame && !getMul &&
        !clearAssignedUnits && !resolveScenario && !autoResolveScenario && !printRS
      ensures row >= 0 && scenario.None? ==>
        selectedScenario == old(selectedScenario) && startGame == old(startGame) &&
        clearAssignedUnits == old(clearAssignedUnits) && autoResolveScenario == old(autoResolveScenario)
      ensures row >= 0 && scenario.Some? ==>
        var s := scenario.value;
        var canStartGame := !s.linked && s.canStartScenario;
        selectedScenario == s.id && startGame == canStartGame &&
        clearAssignedUnits == (if s.hasTrack then canStartGame && isGM else canStartGame) &&
        autoResolveScenario == AutoResolveAsWritten(old(autoResolveScenario), s, canStartGame)
    {
      if row < 0 {
        startGame, joinGame, loadGame, getMul := false, false, false, false;
        clearAssignedUnits, resolveScenario, autoResolveScenario, printRS := false, false, false, false;
        selectedScenario := -1;
        return;
      }
      if scenario.None? {
        return;
      }
      var s := scenario.value;
      selectedScenario := s.id;
      var canStartGame := !s.linked && s.canStartScenario;
      startGame, joinGame, loadGame, getMul := canStartGame, canStartGame, canStartGame, canStartGame;
      if s.hasTrack {
        clearAssignedUnits := canStartGame && isGM;
      } else {
        clearAssignedUnits := canStartGame;
      }
      resolveScenario := canStartGame;
      autoResolveScenario := AutoResolveAsWritten(autoResolveScenario, s, canStartGame);
      printRS := canStartGame;
    }
  }
}
