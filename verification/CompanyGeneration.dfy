/** The rules of the company-generation options panel: the recommended
    maximum number of support personnel, the validation that runs before
    the options are used, and the support-personnel counts the options
    carry.  The panel's spinners and combo boxes are read as values; the
    answers to its two confirmation dialogs are inputs. */
module CompanyGeneration {

  import opened Wrappers

  datatype PersonnelRole = PersonnelRole(name: string)

  /** One support-personnel spinner and its value. */
  datatype SpinnerEntry = SpinnerEntry(role: PersonnelRole, value: int)

  /** What the rules read from the panel. */
  datatype Panel = Panel(
    generateCommandLance: bool,
    companyCount: int,
    individualLanceCount: int,
    lancesPerCompany: int,
    lanceSize: int,
    centralSystem: Option<string>,
    centralPlanet: Option<string>,
    supportPersonnel: seq<SpinnerEntry>)

  /** The ranges the panel's spinners allow. */
  predicate WithinSpinnerBounds(p: Panel)
  {
    0 <= p.companyCount <= 5 && 0 <= p.individualLanceCount <= 2 &&
    2 <= p.lancesPerCompany <= 6 && 3 <= p.lanceSize <= 6
  }

  /** One support person per combat unit member: the command lance (when
      generated), the companies' lances and the individual lances, times the
      lance size. */
  function MaximumSupportPersonnel(p: Panel): (r: int)
    ensures p.companyCount >= 0 && p.lancesPerCompany >= 0 && p.individualLanceCount >= 0 && p.lanceSize >= 0 ==>
      r >= 0
    ensures !p.generateCommandLance && p.companyCount == 0 && p.individualLanceCount == 0 ==> r == 0
  {
    var companyLances := p.companyCount * p.lancesPerCompany;
    var lances := (if p.generateCommandLance then 1 else 0) + companyLances + p.individualLanceCount;
    assert p.companyCount >= 0 && p.lancesPerCompany >= 0 && p.individualLanceCount >= 0 && p.lanceSize >= 0 ==>
      lances * p.lanceSize >= 0;
    lances * p.lanceSize
  }

  /** Within the spinner bounds the recommendation lies in 0..198, and it is
      at least one lance's worth whenever a company or lance is generated. */
  lemma MaximumSupportPersonnelBounds(p: Panel)
    requires WithinSpinnerBounds(p)
    ensures 0 <= MaximumSupportPersonnel(p) <= 198
    ensures p.companyCount > 0 || p.individualLanceCount > 0 || p.generateCommandLance ==>
      MaximumSupportPersonnel(p) >= p.lanceSize
  {
    var lances := (if p.generateCommandLance then 1 else 0) + p.companyCount * p.lancesPerCompany + p.individualLanceCount;
    assert p.companyCount * p.lancesPerCompany <= 5 * 6 by {
      assert p.companyCount * p.lancesPerCompany <= 5 * p.lancesPerCompany;
    }
    assert 0 <= lances <= 33;
    assert lances * p.lanceSize <= 33 * p.lanceSize;
    if p.companyCount > 0 {
      assert p.companyCount * p.lancesPerCompany >= 1;
    }
  }

  /** 198 is reached: a command lance, five companies of six lances and two
      individual lances of six. */
  lemma MaximumSupportPersonnelAttained()
    ensures MaximumSupportPersonnel(Panel(true, 5, 2, 6, 6, None, None, [])) == 198
  {
  }

  /** Every spinner value added up, including those at zero or below. */
  function SupportPersonnelCount(entries: seq<SpinnerEntry>): (r: int)
    ensures (forall i :: 0 <= i < |entries| ==> entries[i].value >= 0) ==>
      r >= 0 && forall i :: 0 <= i < |entries| ==> entries[i].value <= r
  {
    if |entries| == 0 then 0
    else SupportPersonnelCount(entries[..|entries| - 1]) + entries[|entries| - 1].value
  }

  /** The two confirmation dialogs of the support-personnel warnings. */
  datatype Answers = Answers(acceptOverMaximum: bool, acceptUnderHalf: bool)

  datatype Validation =
    | Valid
    | InvalidGenerationSize
    | InvalidCentralPlanet
    | DeclinedOverMaximum
    | DeclinedUnderHalf

  /** The checks in order: a company or an individual lance must be asked
      for (the command lance does not count); a central system and planet
      must be chosen; then a support count above the recommendation, or
      below half of it, must be confirmed. */
  function ValidateOptions(p: Panel, answers: Answers): (r: Validation)
    ensures r == InvalidGenerationSize <==> p.companyCount <= 0 && p.individualLanceCount <= 0
    ensures r == InvalidCentralPlanet <==>
      (!(p.companyCount <= 0 && p.individualLanceCount <= 0) && (p.centralSystem.None? || p.centralPlanet.None?))
    ensures r == Valid <==>
      ((p.companyCount > 0 || p.individualLanceCount > 0) && p.centralSystem.Some? && p.centralPlanet.Some? &&
       (SupportPersonnelCount(p.supportPersonnel) > MaximumSupportPersonnel(p) ==> answers.acceptOverMaximum) &&
       (2 * SupportPersonnelCount(p.supportPersonnel) < MaximumSupportPersonnel(p) ==> answers.acceptUnderHalf))
  {
    var maximum := MaximumSupportPersonnel(p);
    var current := SupportPersonnelCount(p.supportPersonnel);
    if p.companyCount <= 0 && p.individualLanceCount <= 0 then InvalidGenerationSize
    else if p.centralSystem.None? || p.centralPlanet.None? then InvalidCentralPlanet
    else if maximum < current && !answers.acceptOverMaximum then DeclinedOverMaximum
    else if (current as real) < (maximum as real) / 2.0 && !answers.acceptUnderHalf then DeclinedUnderHalf
    else Valid
  }

  /** A support count between half the recommendation and the recommendation
      raises no warning, whatever the answers would have been. */
  lemma RecommendedSupportNeedsNoConfirmation(p: Panel, answers: Answers)
    requires p.companyCount > 0 || p.individualLanceCount > 0
    requires p.centralSystem.Some? && p.centralPlanet.Some?
    requires MaximumSupportPersonnel(p) <= 2 * SupportPersonnelCount(p.supportPersonnel)
    requires SupportPersonnelCount(p.supportPersonnel) <= MaximumSupportPersonnel(p)
    ensures ValidateOptions(p, answers) == Valid
  {
  }

  // ----- the support personnel the options carry -----

  /** The counts the options end up with: each spinner with a positive value
      is put into the map, later spinners overwriting earlier ones. */
  function PositiveSupport(entries: seq<SpinnerEntry>): (r: map<PersonnelRole, int>)
    ensures forall role :: role in r ==> r[role] > 0
    ensures forall role :: role in r <==> exists i :: 0 <= i < |entries| && entries[i].role == role && entries[i].value > 0
  {
    if |entries| == 0 then map[]
    else
      var init := entries[..|entries| - 1];
      var last := entries[|entries| - 1];
      var rest := PositiveSupport(init);
      assert forall i :: 0 <= i < |init| ==> init[i] == entries[i];
      if last.value <= 0 then rest else rest[last.role := last.value]
  }

  /** When every role has one spinner, each positive spinner's value is the
      count its role carries. */
  lemma {:induction false} PositiveSupportKeepsValues(entries: seq<SpinnerEntry>)
    requires forall i, j :: 0 <= i < j < |entries| ==> entries[i].role != entries[j].role
    ensures forall i :: 0 <= i < |entries| && entries[i].value > 0 ==> PositiveSupport(entries)[entries[i].role] == entries[i].value
  {
    if |entries| > 0 {
      var init := entries[..|entries| - 1];
      PositiveSupportKeepsValues(init);
      forall i | 0 <= i < |entries| && entries[i].value > 0
        ensures PositiveSupport(entries)[entries[i].role] == entries[i].value
      {
        if i < |init| {
          assert init[i] == entries[i];
        }
      }
    }
  }

  /** Copies the positive spinner values into a fresh map. */
  method CreateSupportPersonnel(entries: seq<SpinnerEntry>) returns (supportPersonnel: map<PersonnelRole, int>)
    ensures supportPersonnel == PositiveSupport(entries)
  {
    supportPersonnel := map[];
    for i := 0 to |entries|
      invariant supportPersonnel == PositiveSupport(entries[..i])
    {
      assert entries[..i + 1][..i] == entries[..i];
      var value := entries[i].value;
      if value <= 0 {
        continue;
      }
      supportPersonnel := supportPersonnel[entries[i].role := value];
    }
    assert entries[..|entries|] == entries;
  }
}
