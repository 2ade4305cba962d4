/** One step of a refit: the comparison of a part on the unit before the refit
    with the part in the same place after it.  The constructor's decision tree
    becomes the function Classify, which yields the step's fields as a record
    (or the exception the constructor throws); the RefitStep class holds those
    fields and its methods `omnify` and `setRefitClassToHarder` update them in
    place.

    The part classes of the campaign are one datatype with a variant per class
    the decision tree tests; `instanceof` follows the Java subclassing (a heat
    sink and an ammo bin are equipment parts, a turret is a tank location, every
    Missing... class is a missing part).  What a part's own methods compute
    (`isSamePartType`, the armor base time for the unit, the name of an aero
    heat sink) is carried as a field of the part. */
module Refit {
  import opened Wrappers

  // ----- step types and refit classes -----

  /** The step types the classifier and `omnify` produce.  The omni-pod
      variants are the ones `omnify` may turn a step into; the enum's own
      `omnify` mapping and `isOmniType` test are inputs of Omnify. */
  datatype StepType =
    | META | ERROR | LEAVE
    | ADD | REMOVE | MOVE | CHANGE | CHANGE_FACING
    | ADD_ARMOR | REMOVE_ARMOR | CHANGE_ARMOR_TYPE
    | CHANGE_STRUCTURE_TYPE | ADD_TURRET | REMOVE_TURRET
    | ADD_CASE | REMOVE_CASE
    | ADD_UNTRACKED_SINKS | REMOVE_UNTRACKED_SINKS | CHANGE_UNTRACKED_SINKS
    | ADD_SCCS_SINKS | REMOVE_SCCS_SINKS | CHANGE_SCCS_SINKS
    | LOAD | UNLOAD | MOVE_AMMO
    | ADD_OMNIPOD | REMOVE_OMNIPOD | MOVE_OMNIPOD | MOVE_AMMOPOD

  datatype RefitClass =
    | NO_CHANGE | OMNI_RECONFIG
    | CLASS_A | CLASS_B | CLASS_C | CLASS_D | CLASS_E | CLASS_F
    | PLEASE_REPAIR

  // ----- units and parts -----

  /** What the classifier asks of the unit being refit: the kind of its entity
      and whether its armor is capital scale. */
  datatype EntityKind = MekEntity | TankEntity | OtherEntity
  datatype UnitInfo = UnitInfo(entity: EntityKind, capitalScale: bool)

  /** An equipment type, with the three misc-type flags that make an
      equipment part count as a heat sink. */
  datatype EquipmentType = EquipmentType(
    id: int, laserHeatSink: bool, compactHeatSink: bool, doubleHeatSinkPrototype: bool)

  datatype Actuator = SHOULDER | UPPER_ARM | LOWER_ARM | HAND | HIP | UPPER_LEG | LOWER_LEG | FOOT

  /** The five core Mek components the classifier compares one to one. */
  datatype CoreComponent = ENGINE | GYRO | COCKPIT | SENSOR | LIFE_SUPPORT

  /** The classes below EquipmentPart and MissingEquipmentPart that the
      classifier tells apart. */
  datatype EquipmentClass = PlainEquipment | HeatSinkPart | AmmoBinPart(currentShots: int, fullShots: int)
  datatype MissingEquipmentClass = PlainMissingEquipment | MissingHeatSinkPart | MissingAmmoBinPart

  /** A part's class and the class-specific state the classifier reads.  For
      the core components `variant` stands for what `isSamePartType` and
      `isAcceptableReplacement` compare. */
  datatype Kind =
    | Armor(armorType: int, amount: int, totalAmount: int, rear: bool, timePerPoint: int)
    | AeroHeatSink(sinkType: int)
    | MekLocation(tsm: bool, structure: int)
    | MissingMekLocation(tsm: bool, structure: int)
    | TankLocation(isTurret: bool)
    | MissingRotor
    | MissingTurret
    | Case
    | MekActuator(actuator: Actuator)
    | MissingMekActuator(actuator: Actuator)
    | Core(component: CoreComponent, variant: int)
    | MissingCore(component: CoreComponent, variant: int)
    | CoolingSystem(totalSinks: int, sinkType: int, sinkName: string)
    | TransportBay(capacity: int, cargo: bool)
    | Cubicle
    | MissingCubicle
    | BayDoor
    | MissingBayDoor
    | Equipment(eqClass: EquipmentClass, eqType: EquipmentType, rearFacing: bool)
    | MissingEquipment(missingClass: MissingEquipmentClass, eqType: EquipmentType)
    | OtherPart
    | OtherMissingPart

  /** A part as the classifier sees it.  `missingBaseTime` is the base time of
      the part's missing counterpart (`getMissingPart().getBaseTime()`), or a
      missing part's own base time. */
  datatype Part = Part(
    loc: int, locName: string, name: string, quantity: int, omniPodded: bool,
    missingBaseTime: int, kind: Kind)

  /** What a step needs or gives back: a copy of a part (possibly with a new
      amount or quantity), a new ammo storage, or a new batch of aero heat
      sinks. */
  datatype Supply =
    | PartCopy(part: Part)
    | AmmoStorage(ammoType: EquipmentType, shots: int)
    | AeroSinks(sinkType: int, count: int)

  /** The fields of a refit step. */
  datatype Step = Step(
    neededPart: Option<Supply>, returnsPart: Option<Supply>,
    oldLoc: int, newLoc: int, oldLocName: string, newLocName: string,
    oldPartName: string, newPartName: string, oldQuantity: int, newQuantity: int,
    stepType: StepType, notes: string, refitClass: RefitClass,
    isFixedEquipmentChange: bool, isArmorDamageOnly: bool, baseTime: int)

  /** The blank step every constructor starts from. */
  function BlankStep(): (s: Step)
    ensures s.baseTime == 0 && s.refitClass == NO_CHANGE && s.stepType == ERROR
    ensures s.neededPart.None? && s.returnsPart.None?
    ensures !s.isFixedEquipmentChange && !s.isArmorDamageOnly
    ensures s.oldLocName == s.newLocName == s.oldPartName == s.newPartName == s.notes == ""
  {
    Step(None, None, 0, 0, "", "", "", "", 0, 0, ERROR, "", NO_CHANGE, false, false, 0)
  }

  // ----- instanceof tests on a possibly null part -----

  predicate IsArmor(p: Option<Part>) { p.Some? && p.value.kind.Armor? }
  predicate IsAeroHeatSink(p: Option<Part>) { p.Some? && p.value.kind.AeroHeatSink? }
  predicate IsMekLocation(p: Option<Part>) { p.Some? && p.value.kind.MekLocation? }
  predicate IsMissingMekLocation(p: Option<Part>) { p.Some? && p.value.kind.MissingMekLocation? }
  predicate IsTankLocation(p: Option<Part>) { p.Some? && p.value.kind.TankLocation? }
  predicate IsTurret(p: Option<Part>) { IsTankLocation(p) && p.value.kind.isTurret }
  predicate IsMissingRotor(p: Option<Part>) { p.Some? && p.value.kind.MissingRotor? }
  predicate IsMissingTurret(p: Option<Part>) { p.Some? && p.value.kind.MissingTurret? }
  predicate IsCase(p: Option<Part>) { p.Some? && p.value.kind.Case? }
  predicate IsMekActuator(p: Option<Part>) { p.Some? && p.value.kind.MekActuator? }
  predicate IsMissingMekActuator(p: Option<Part>) { p.Some? && p.value.kind.MissingMekActuator? }
  predicate IsCooling(p: Option<Part>) { p.Some? && p.value.kind.CoolingSystem? }
  predicate IsTransportBay(p: Option<Part>) { p.Some? && p.value.kind.TransportBay? }
  predicate IsCubicle(p: Option<Part>) { p.Some? && p.value.kind.Cubicle? }
  predicate IsMissingCubicle(p: Option<Part>) { p.Some? && p.value.kind.MissingCubicle? }
  predicate IsBayDoor(p: Option<Part>) { p.Some? && p.value.kind.BayDoor? }
  predicate IsMissingBayDoor(p: Option<Part>) { p.Some? && p.value.kind.MissingBayDoor? }
  predicate IsEquipmentPart(p: Option<Part>) { p.Some? && p.value.kind.Equipment? }
  predicate IsMissingEquipmentPart(p: Option<Part>) { p.Some? && p.value.kind.MissingEquipment? }

  predicate IsAmmoBin(p: Option<Part>)
  {
    IsEquipmentPart(p) && p.value.kind.eqClass.AmmoBinPart?
  }

  predicate IsMissingAmmoBin(p: Option<Part>)
  {
    IsMissingEquipmentPart(p) && p.value.kind.missingClass == MissingAmmoBinPart
  }

  predicate IsCoreOf(p: Option<Part>, c: CoreComponent)
  {
    p.Some? && p.value.kind.Core? && p.value.kind.component == c
  }

  /** A core component or its missing counterpart. */
  predicate IsCoreOrMissing(p: Option<Part>)
  {
    p.Some? && (p.value.kind.Core? || p.value.kind.MissingCore?)
  }

  /** `instanceof MissingPart`. */
  predicate IsMissingPart(p: Option<Part>)
  {
    p.Some? &&
    match p.value.kind
    case MissingMekLocation(_, _) => true
    case MissingRotor => true
    case MissingTurret => true
    case MissingMekActuator(_) => true
    case MissingCore(_, _) => true
    case MissingCubicle => true
    case MissingBayDoor => true
    case MissingEquipment(_, _) => true
    case OtherMissingPart => true
    case _ => false
  }

  predicate IsHeatSinkType(t: EquipmentType)
  {
    t.laserHeatSink || t.compactHeatSink || t.doubleHeatSinkPrototype
  }

  /** `tempIsHeatSink`: a HeatSink, or an equipment part whose type carries
      one of the heat-sink flags. */
  predicate TempIsHeatSink(p: Option<Part>)
  {
    IsEquipmentPart(p) && (p.value.kind.eqClass == HeatSinkPart || IsHeatSinkType(p.value.kind.eqType))
  }

  /** `tempIsMissingHeatSink`: the same test on missing parts. */
  predicate TempIsMissingHeatSink(p: Option<Part>)
  {
    IsMissingEquipmentPart(p)
    && (p.value.kind.missingClass == MissingHeatSinkPart || IsHeatSinkType(p.value.kind.eqType))
  }

  /** `isEquipmentSubtype`: an equipment part whose type is in the class. */
  predicate IsEquipmentSubtype(p: Option<Part>, inClass: EquipmentType -> bool)
  {
    IsEquipmentPart(p) && inClass(p.value.kind.eqType)
  }

  /** `isEquipmentOrMissingSubtype`. */
  predicate IsEquipmentOrMissingSubtype(p: Option<Part>, inClass: EquipmentType -> bool)
  {
    var isRegular := IsEquipmentPart(p) && inClass(p.value.kind.eqType);
    var isMissing := IsMissingEquipmentPart(p) && inClass(p.value.kind.eqType);
    isRegular || isMissing
  }

  /** The two heat-sink tests never both hold, and a heat sink is never a
      missing part; the subtype test on equipment or missing equipment is the
      subtype test on equipment widened to missing equipment parts. */
  lemma HeatSinkTests(p: Option<Part>, inClass: EquipmentType -> bool)
    ensures !(TempIsHeatSink(p) && TempIsMissingHeatSink(p))
    ensures TempIsHeatSink(p) ==> !IsMissingPart(p)
    ensures TempIsMissingHeatSink(p) ==> IsMissingPart(p)
    ensures IsEquipmentOrMissingSubtype(p, inClass)
        <==> IsEquipmentSubtype(p, inClass) || (IsMissingEquipmentPart(p) && inClass(p.value.kind.eqType))
  {
  }

  // ----- the classifier -----

  function LocOf(p: Option<Part>): int
  {
    if p.None? then -1 else p.value.loc
  }

  /** The quantity a step records: an armor's amount, any other part's
      quantity, 0 for no part. */
  function QuantityOf(p: Option<Part>): int
  {
    if p.None? then 0
    else if p.value.kind.Armor? then p.value.kind.amount
    else p.value.quantity
  }

  /** The blank step with the locations, names and quantities of both parts
      kept. */
  function Kept(oldPart: Option<Part>, newPart: Option<Part>): Step
  {
    BlankStep().(
      oldLoc := LocOf(oldPart),
      oldLocName := if oldPart.None? then "" else oldPart.value.locName,
      oldPartName := if oldPart.None? then "" else oldPart.value.name,
      newLoc := LocOf(newPart),
      newLocName := if newPart.None? then "" else newPart.value.locName,
      newPartName := if newPart.None? then "" else newPart.value.name,
      oldQuantity := QuantityOf(oldPart),
      newQuantity := QuantityOf(newPart))
  }

  function Copy(p: Option<Part>): Option<Supply>
  {
    if p.None? then None else Some(PartCopy(p.value))
  }

  /** The base time of moving `sinks` heat sinks of a spacecraft cooling
      system: `Math.ceil(sinks / 50) * 60`, where the division is an int
      division done before the ceiling. */
  function SccsTime(sinks: int): int
  {
    JavaDiv(sinks, 50) * 60
  }

  /** CASE takes 120 on a Mek, 90 on a tank and 60 on anything else. */
  function CaseTime(unit: UnitInfo): int
  {
    match unit.entity
    case MekEntity => 120
    case TankEntity => 90
    case OtherEntity => 60
  }

  /** The constructor `RefitStep(oldUnit, oldPart, newPart, untracked)`. */
  function Classify(unit: UnitInfo, oldPart: Option<Part>, newPart: Option<Part>, untracked: bool)
    : (r: Result<Step>)
    ensures oldPart.None? && newPart.None? ==> r == Err(IllegalArgument)
    ensures r.Ok? ==> r.value.oldLoc == LocOf(oldPart) && r.value.newLoc == LocOf(newPart)
    ensures r.Ok? && r.value.stepType == LEAVE ==> Free(r.value)
  {
    if oldPart.None? && newPart.None? then Err(IllegalArgument)
    else if untracked then Ok(Untracked(unit, oldPart, newPart))
    else Tracked(unit, oldPart, newPart)
  }

  /** The classification with the aero heat sinks compared old against new,
      as evidently intended; every other pair of parts is classified as the
      constructor does. */
  function ClassifyCorrected(unit: UnitInfo, oldPart: Option<Part>, newPart: Option<Part>, untracked: bool)
    : (r: Result<Step>)
    ensures !(untracked && IsAeroHeatSink(oldPart) && IsAeroHeatSink(newPart)) ==>
      r == Classify(unit, oldPart, newPart, untracked)
    ensures Recorded(r, oldPart, newPart)
  {
    if untracked && IsAeroHeatSink(oldPart) && IsAeroHeatSink(newPart) then
      Ok(UntrackedAero(oldPart.value, newPart.value, Kept(oldPart, newPart)))
    else Classify(unit, oldPart, newPart, untracked)
  }

  /** The untracked aero heat-sink step between the sinks read as the old
      and as the new side: leave, add or remove the difference, or swap the
      type. */
  function UntrackedAero(oldAHS: Part, newAHS: Part, s: Step): (r: Step)
    requires oldAHS.kind.AeroHeatSink? && newAHS.kind.AeroHeatSink?
    ensures r.stepType == LEAVE <==>
      oldAHS.kind.sinkType == newAHS.kind.sinkType && oldAHS.quantity == newAHS.quantity
    ensures r.stepType != LEAVE ==> r.refitClass == CLASS_B && r.isFixedEquipmentChange
    ensures r.oldLoc == s.oldLoc && r.newLoc == s.newLoc
  {
    var s := s.(refitClass := CLASS_B, isFixedEquipmentChange := true);
    if oldAHS.kind.sinkType == newAHS.kind.sinkType then
      if oldAHS.quantity == newAHS.quantity then
        s.(refitClass := NO_CHANGE, stepType := LEAVE, isFixedEquipmentChange := false)
      else if oldAHS.quantity > newAHS.quantity then
        var delta := oldAHS.quantity - newAHS.quantity;
        s.(stepType := REMOVE_UNTRACKED_SINKS, returnsPart := Some(PartCopy(oldAHS.(quantity := delta))),
           baseTime := delta * 20)
      else
        var delta := newAHS.quantity - oldAHS.quantity;
        s.(stepType := ADD_UNTRACKED_SINKS, neededPart := Some(PartCopy(oldAHS.(quantity := delta))),
           baseTime := delta * 20)
    else
      s.(stepType := CHANGE_UNTRACKED_SINKS, returnsPart := Some(PartCopy(oldAHS)),
         neededPart := Some(PartCopy(newAHS)), baseTime := oldAHS.quantity * 20 + newAHS.quantity * 20)
  }

  /** The aero branch as written: both sides are read from the old part. */
  function UntrackedAeroAsWritten(oldAHS: Part, newAHS: Part, s: Step): (r: Step)
    requires oldAHS.kind.AeroHeatSink? && newAHS.kind.AeroHeatSink?
    ensures r.stepType == LEAVE && r.refitClass == NO_CHANGE && !r.isFixedEquipmentChange
    ensures r.baseTime == s.baseTime && r.neededPart == s.neededPart && r.returnsPart == s.returnsPart
  {
    UntrackedAero(oldAHS, oldAHS, s)
  }

  /** The untracked branch: aero heat sinks, then engine heat sinks.  As
      written, the aero sinks are both read from the old part. */
  function Untracked(unit: UnitInfo, oldPart: Option<Part>, newPart: Option<Part>): (s: Step)
    ensures Recorded(Ok(s), oldPart, newPart)
  {
    var s := Kept(oldPart, newPart);
    if IsAeroHeatSink(oldPart) && IsAeroHeatSink(newPart) then
      UntrackedAeroAsWritten(oldPart.value, newPart.value, s)
    else if TempIsHeatSink(oldPart) && TempIsHeatSink(newPart) then
      var oldHS := oldPart.value;
      var newHS := newPart.value;
      var mek := unit.entity == MekEntity;
      var s := s.(refitClass := CLASS_B, isFixedEquipmentChange := true);
      if oldHS.kind.eqType == newHS.kind.eqType then
        if oldHS.quantity == newHS.quantity then
          s.(refitClass := NO_CHANGE, stepType := LEAVE, isFixedEquipmentChange := false)
        else if oldHS.quantity > newHS.quantity then
          var delta := oldHS.quantity - newHS.quantity;
          s.(stepType := REMOVE_UNTRACKED_SINKS, returnsPart := Some(PartCopy(oldHS.(quantity := delta))),
             baseTime := if mek then 90 else 20 * delta)
        else
          var delta := newHS.quantity - oldHS.quantity;
          s.(stepType := ADD_UNTRACKED_SINKS, neededPart := Some(PartCopy(oldHS.(quantity := delta))),
             baseTime := if mek then 90 else 20 * delta)
      else
        s.(stepType := CHANGE_UNTRACKED_SINKS, returnsPart := Some(PartCopy(oldHS)),
           neededPart := Some(PartCopy(newHS)),
           baseTime := if mek then 180 else 20 * oldHS.quantity + 20 * newHS.quantity)
    else
      s.(stepType := ERROR, refitClass := PLEASE_REPAIR)
  }

  /** Two armors: same location and facing required; then leave, add or
      remove the difference, or swap the type. */
  function ArmorPair(unit: UnitInfo, oldArmor: Part, newArmor: Part, s: Step): Result<Step>
    requires oldArmor.kind.Armor? && newArmor.kind.Armor?
  {
    if oldArmor.loc != newArmor.loc || oldArmor.kind.rear != newArmor.kind.rear then
      Err(IllegalArgument)
    else
      var m := if unit.capitalScale then 10 else 1;
      var s := s.(refitClass := CLASS_A, isFixedEquipmentChange := true);
      var oldAmount := oldArmor.kind.amount;
      var newAmount := newArmor.kind.amount;
      if oldArmor.kind.armorType == newArmor.kind.armorType then
        if oldAmount == newAmount then
          Ok(s.(refitClass := NO_CHANGE, stepType := LEAVE, isFixedEquipmentChange := false))
        else if oldAmount > newAmount then
          var delta := oldAmount - newAmount;
          var deltaArmor := oldArmor.(kind := oldArmor.kind.(amount := delta * m));
          Ok(s.(stepType := REMOVE_ARMOR, returnsPart := Some(PartCopy(deltaArmor)),
                baseTime := oldArmor.kind.timePerPoint * delta))
        else
          var delta := newAmount - oldAmount;
          var deltaArmor := oldArmor.(kind := oldArmor.kind.(amount := delta * m));
          var damageOnly := oldArmor.kind.totalAmount == newAmount;
          Ok(s.(stepType := ADD_ARMOR, neededPart := Some(PartCopy(deltaArmor)),
                isArmorDamageOnly := damageOnly, isFixedEquipmentChange := !damageOnly,
                baseTime := oldArmor.kind.timePerPoint * delta))
      else
        Ok(s.(stepType := CHANGE_ARMOR_TYPE,
              returnsPart := Some(PartCopy(oldArmor.(kind := oldArmor.kind.(amount := oldAmount * m)))),
              neededPart := Some(PartCopy(newArmor.(kind := newArmor.kind.(amount := newAmount * m)))),
              baseTime := oldArmor.kind.timePerPoint * oldAmount + newArmor.kind.timePerPoint * newAmount))
  }

  /** A Mek location, present or missing, against a Mek location. */
  function MekLocationPair(oldPart: Option<Part>, newPart: Part, s: Step): Step
    requires IsMekLocation(oldPart) || IsMissingMekLocation(oldPart)
    requires newPart.kind.MekLocation?
  {
    var oldTsm := oldPart.value.kind.tsm;
    var oldStructure := oldPart.value.kind.structure;
    if oldTsm == newPart.kind.tsm && oldStructure == newPart.kind.structure then
      s.(refitClass := NO_CHANGE, stepType := LEAVE)
    else
      s.(refitClass := CLASS_F, stepType := CHANGE_STRUCTURE_TYPE,
         baseTime := (if oldTsm != newPart.kind.tsm then 360 else 0)
                   + (if oldStructure != newPart.kind.structure then 360 else 0),
         neededPart := Some(PartCopy(newPart)),
         returnsPart := if IsMekLocation(oldPart) then Copy(oldPart) else None)
  }

  /** A core component, present or missing, against the same component. */
  function CorePair(oldPart: Option<Part>, newPart: Part, s: Step): Result<Step>
    requires IsCoreOrMissing(oldPart) && newPart.kind.Core?
    requires newPart.kind.component == oldPart.value.kind.component
  {
    var c := newPart.kind.component;
    if c == LIFE_SUPPORT && oldPart.value.kind.MissingCore? then
      // The missing life support is cast to a missing sensor.
      Err(ClassCast)
    else if oldPart.value.kind.variant == newPart.kind.variant then
      Ok(s.(refitClass := NO_CHANGE, stepType := LEAVE, baseTime := 0))
    else
      var returned := if oldPart.value.kind.Core? then Copy(oldPart) else None;
      var s := s.(returnsPart := returned, neededPart := Some(PartCopy(newPart)));
      match c
      case ENGINE => Ok(s.(refitClass := CLASS_E, stepType := CHANGE, baseTime := 360))
      case GYRO => Ok(s.(refitClass := CLASS_D, stepType := CHANGE, baseTime := 360))
      case COCKPIT => Ok(s.(refitClass := CLASS_E, stepType := CHANGE, baseTime := 300))
      case SENSOR => Ok(s.(refitClass := NO_CHANGE, stepType := ERROR, baseTime := 260))
      case LIFE_SUPPORT => Ok(s.(refitClass := NO_CHANGE, stepType := ERROR, baseTime := 180))
  }

  /** Two spacecraft cooling systems: compared by sink type and total sinks. */
  function CoolingPair(oldSCCS: Part, newSCCS: Part, s: Step): Step
    requires oldSCCS.kind.CoolingSystem? && newSCCS.kind.CoolingSystem?
  {
    var oldQuantity := oldSCCS.kind.totalSinks;
    var newQuantity := newSCCS.kind.totalSinks;
    var oldType := oldSCCS.kind.sinkType;
    var newType := newSCCS.kind.sinkType;
    var s := s.(oldQuantity := oldQuantity, newQuantity := newQuantity,
                oldPartName := oldSCCS.kind.sinkName, newPartName := newSCCS.kind.sinkName,
                refitClass := CLASS_C, isFixedEquipmentChange := true);
    if oldType == newType then
      if oldQuantity == newQuantity then
        s.(refitClass := NO_CHANGE, stepType := LEAVE, isFixedEquipmentChange := false)
      else if oldQuantity > newQuantity then
        var delta := oldQuantity - newQuantity;
        s.(returnsPart := Some(AeroSinks(oldType, delta)), stepType := REMOVE_SCCS_SINKS,
           baseTime := SccsTime(delta))
      else
        var delta := newQuantity - oldQuantity;
        s.(neededPart := Some(AeroSinks(oldType, delta)), stepType := ADD_SCCS_SINKS,
           baseTime := SccsTime(delta))
    else
      s.(stepType := CHANGE_SCCS_SINKS, returnsPart := Some(AeroSinks(oldType, oldQuantity)),
         neededPart := Some(AeroSinks(newType, newQuantity)), baseTime := SccsTime(oldQuantity + newQuantity))
  }

  /** Neither side can be moved by a refit: a move throws. */
  function FixedPair(s: Step): Result<Step>
  {
    if s.oldLoc != s.newLoc then Err(IllegalArgument)
    else Ok(s.(refitClass := NO_CHANGE, stepType := LEAVE, isFixedEquipmentChange := false))
  }

  function Leave(s: Step): Step
  {
    s.(refitClass := NO_CHANGE, stepType := LEAVE, isFixedEquipmentChange := false)
  }

  /** Both parts pod-mounted. */
  predicate BothPodded(oldPart: Option<Part>, newPart: Option<Part>)
  {
    oldPart.Some? && newPart.Some? && oldPart.value.omniPodded && newPart.value.omniPodded
  }

  /** A step that needs, returns and costs nothing and is no fixed-equipment
      change. */
  predicate Free(s: Step)
  {
    s.refitClass == NO_CHANGE && s.baseTime == 0 && s.neededPart.None? && s.returnsPart.None?
    && !s.isFixedEquipmentChange && !s.isArmorDamageOnly
  }

  /** A classified step records where the two parts were, and a LEAVE step
      is free. */
  predicate Recorded(r: Result<Step>, oldPart: Option<Part>, newPart: Option<Part>)
  {
    r.Ok? ==>
      r.value.oldLoc == LocOf(oldPart) && r.value.newLoc == LocOf(newPart)
      && (r.value.stepType == LEAVE ==> Free(r.value))
  }

  /** The tracked branches, in the order the constructor tests them: armor
      and locations here, the rest in the functions that follow. */
  function Tracked(unit: UnitInfo, oldPart: Option<Part>, newPart: Option<Part>): (r: Result<Step>)
    requires oldPart.Some? || newPart.Some?
    ensures Recorded(r, oldPart, newPart)
  {
    var s := Kept(oldPart, newPart);
    var mek := unit.entity == MekEntity;
    if IsArmor(oldPart) && IsArmor(newPart) then
      ArmorPair(unit, oldPart.value, newPart.value, s)
    else if IsArmor(oldPart) then
      Ok(s.(refitClass := CLASS_A, stepType := REMOVE_ARMOR, isFixedEquipmentChange := true,
            returnsPart := Copy(oldPart),
            baseTime := oldPart.value.kind.timePerPoint * oldPart.value.kind.amount))
    else if IsArmor(newPart) then
      Ok(s.(refitClass := CLASS_A, stepType := ADD_ARMOR, isFixedEquipmentChange := true,
            neededPart := Copy(newPart),
            baseTime := newPart.value.kind.timePerPoint * newPart.value.kind.amount))
    // locations
    else if (IsMekLocation(oldPart) || IsMissingMekLocation(oldPart)) && IsMekLocation(newPart) then
      Ok(MekLocationPair(oldPart, newPart.value, s))
    else if (IsMissingRotor(oldPart) || IsMissingTurret(oldPart)) && newPart.Some? then
      Ok(s.(refitClass := NO_CHANGE, stepType := LEAVE, baseTime := 0))
    else if (IsTurret(oldPart) || IsMissingTurret(oldPart)) && newPart.None? then
      Ok(s.(refitClass := CLASS_D, stepType := REMOVE_TURRET, isFixedEquipmentChange := true,
            returnsPart := if IsTurret(oldPart) then Copy(oldPart) else None, baseTime := 160))
    else if oldPart.None? && IsTurret(newPart) then
      Ok(s.(refitClass := CLASS_F, stepType := ADD_TURRET, isFixedEquipmentChange := true,
            neededPart := Copy(newPart), baseTime := 160))
    else if IsTankLocation(oldPart) && IsTankLocation(newPart) then
      Ok(s.(refitClass := NO_CHANGE, stepType := LEAVE, baseTime := 0))
    else TrackedFittings(unit, oldPart, newPart)
  }

  /** The tracked branches for CASE, actuators, core components and cooling
      systems. */
  function TrackedFittings(unit: UnitInfo, oldPart: Option<Part>, newPart: Option<Part>): (r: Result<Step>)
    requires oldPart.Some? || newPart.Some?
    ensures Recorded(r, oldPart, newPart)
  {
    var s := Kept(oldPart, newPart);
    var mek := unit.entity == MekEntity;
    if IsCase(oldPart) && IsCase(newPart) then
      Ok(s.(refitClass := NO_CHANGE, stepType := LEAVE, baseTime := 0))
    else if IsCase(oldPart) then
      Ok(s.(refitClass := CLASS_A, stepType := REMOVE_CASE, baseTime := CaseTime(unit),
            isFixedEquipmentChange := false))
    else if IsCase(newPart) then
      Ok(s.(refitClass := CLASS_D, stepType := ADD_CASE, baseTime := CaseTime(unit),
            isFixedEquipmentChange := false))
    // actuators
    else if (IsMekActuator(oldPart) || IsMissingMekActuator(oldPart)) && IsMekActuator(newPart) then
      Ok(Leave(s))
    else if IsMekActuator(oldPart) || IsMissingMekActuator(oldPart) then
      var a := oldPart.value.kind.actuator;
      Ok(s.(returnsPart := if IsMekActuator(oldPart) then Copy(oldPart) else None,
            refitClass := CLASS_A, stepType := REMOVE, baseTime := 90,
            isFixedEquipmentChange := !(a == HAND || a == LOWER_ARM)))
    else if IsMekActuator(newPart) then
      var a := newPart.value.kind.actuator;
      Ok(s.(neededPart := Copy(newPart), refitClass := CLASS_B, stepType := ADD, baseTime := 90,
            isFixedEquipmentChange := !(a == HAND || a == LOWER_ARM)))
    // core equipment
    else if IsCoreOrMissing(oldPart) && IsCoreOf(newPart, oldPart.value.kind.component) then
      CorePair(oldPart, newPart.value, s)
    else if IsCooling(oldPart) && IsCooling(newPart) then
      Ok(CoolingPair(oldPart.value, newPart.value, s))
    else TrackedAmmoAndSinks(unit, oldPart, newPart)
  }

  /** The tracked branches for ammo bins and heat sinks. */
  function TrackedAmmoAndSinks(unit: UnitInfo, oldPart: Option<Part>, newPart: Option<Part>): (r: Result<Step>)
    requires oldPart.Some? || newPart.Some?
    ensures Recorded(r, oldPart, newPart)
  {
    var s := Kept(oldPart, newPart);
    var mek := unit.entity == MekEntity;
    if (IsAmmoBin(oldPart) || IsMissingAmmoBin(oldPart)) && IsAmmoBin(newPart) then
      var s := s.(oldQuantity := if IsAmmoBin(oldPart) then oldPart.value.kind.eqClass.currentShots else 0,
                  newQuantity := newPart.value.kind.eqClass.fullShots);
      if s.oldLoc == s.newLoc then Ok(Leave(s))
      else
        Ok(s.(refitClass := CLASS_C, stepType := MOVE_AMMO,
              isFixedEquipmentChange := !BothPodded(oldPart, newPart), baseTime := 240))
    else if IsAmmoBin(oldPart) || IsMissingAmmoBin(oldPart) then
      if IsMissingAmmoBin(oldPart) then
        // A missing ammo bin is cast to an ammo bin.
        Err(ClassCast)
      else
        var shots := oldPart.value.kind.eqClass.currentShots;
        Ok(s.(oldQuantity := shots, returnsPart := Some(AmmoStorage(oldPart.value.kind.eqType, shots)),
              refitClass := CLASS_A, stepType := UNLOAD,
              isFixedEquipmentChange := !oldPart.value.omniPodded, baseTime := 120))
    else if IsAmmoBin(newPart) then
      var shots := newPart.value.kind.eqClass.fullShots;
      Ok(s.(newQuantity := shots, neededPart := Some(AmmoStorage(newPart.value.kind.eqType, shots)),
            refitClass := CLASS_B, stepType := LOAD,
            isFixedEquipmentChange := !newPart.value.omniPodded, baseTime := 120))
    // tracked heat sinks
    else if (TempIsHeatSink(oldPart) || TempIsMissingHeatSink(oldPart)) && TempIsHeatSink(newPart) then
      if s.oldLoc == s.newLoc then Ok(Leave(s))
      else
        Ok(s.(refitClass := CLASS_C, stepType := MOVE,
              isFixedEquipmentChange := !BothPodded(oldPart, newPart),
              baseTime := if mek then 180 else 40))
    else if TempIsHeatSink(oldPart) || TempIsMissingHeatSink(oldPart) then
      Ok(s.(returnsPart := if IsMissingPart(oldPart) then None else Copy(oldPart),
            refitClass := CLASS_A, stepType := REMOVE,
            isFixedEquipmentChange := !oldPart.value.omniPodded, baseTime := if mek then 90 else 20))
    else if TempIsHeatSink(newPart) then
      Ok(s.(neededPart := Copy(newPart), refitClass := CLASS_B, stepType := ADD,
            isFixedEquipmentChange := !newPart.value.omniPodded, baseTime := if mek then 90 else 20))
    else TrackedBays(unit, oldPart, newPart)
  }

  /** The tracked branches for transport bays, cubicles and bay doors. */
  function TrackedBays(unit: UnitInfo, oldPart: Option<Part>, newPart: Option<Part>): (r: Result<Step>)
    requires oldPart.Some? || newPart.Some?
    ensures Recorded(r, oldPart, newPart)
  {
    var s := Kept(oldPart, newPart);
    var mek := unit.entity == MekEntity;
    if IsTransportBay(oldPart) && IsTransportBay(newPart) then
      FixedPair(s.(oldQuantity := oldPart.value.kind.capacity, newQuantity := newPart.value.kind.capacity))
    else if IsTransportBay(oldPart) then
      Ok(s.(oldQuantity := oldPart.value.kind.capacity, returnsPart := Copy(oldPart),
            refitClass := CLASS_A, stepType := REMOVE, isFixedEquipmentChange := true,
            baseTime := if oldPart.value.kind.cargo then 480 * 30 else 0))
    else if IsTransportBay(newPart) then
      // The added bay is recorded as a returned part, as in the source.
      Ok(s.(newQuantity := newPart.value.kind.capacity, returnsPart := Copy(newPart),
            refitClass := CLASS_C, stepType := ADD, isFixedEquipmentChange := true,
            baseTime := if newPart.value.kind.cargo then 480 * 30 else 0))
    else if (IsCubicle(oldPart) || IsMissingCubicle(oldPart)) && IsCubicle(newPart) then
      FixedPair(s)
    else if IsCubicle(oldPart) || IsMissingCubicle(oldPart) then
      Ok(s.(returnsPart := if IsCubicle(oldPart) then Copy(oldPart) else None,
            refitClass := CLASS_A, stepType := REMOVE, isFixedEquipmentChange := true, baseTime := 480 * 7))
    else if IsCubicle(newPart) then
      Ok(s.(neededPart := Copy(newPart),
            refitClass := CLASS_C, stepType := ADD, isFixedEquipmentChange := true, baseTime := 480 * 7))
    else if (IsBayDoor(oldPart) || IsMissingBayDoor(oldPart)) && IsBayDoor(newPart) then
      FixedPair(s)
    else if IsBayDoor(oldPart) || IsMissingBayDoor(oldPart) then
      Ok(s.(returnsPart := if IsBayDoor(oldPart) then Copy(oldPart) else None,
            refitClass := CLASS_A, stepType := REMOVE, isFixedEquipmentChange := true, baseTime := 60 * 10))
    else if IsBayDoor(newPart) then
      Ok(s.(neededPart := Copy(newPart),
            refitClass := CLASS_C, stepType := ADD, isFixedEquipmentChange := true, baseTime := 60 * 10))
    else TrackedEquipment(unit, oldPart, newPart)
  }

  /** The tracked branches for equipment parts and every other part. */
  function TrackedEquipment(unit: UnitInfo, oldPart: Option<Part>, newPart: Option<Part>): (r: Result<Step>)
    requires oldPart.Some? || newPart.Some?
    ensures Recorded(r, oldPart, newPart)
  {
    var s := Kept(oldPart, newPart);
    var mek := unit.entity == MekEntity;
    if (IsEquipmentPart(oldPart) || IsMissingEquipmentPart(oldPart)) && IsEquipmentPart(newPart) then
      if s.oldLoc == s.newLoc then
        if IsMissingEquipmentPart(oldPart) then
          // A missing equipment part is cast to an equipment part.
          Err(ClassCast)
        else if oldPart.value.kind.rearFacing == newPart.value.kind.rearFacing then
          Ok(Leave(s))
        else
          Ok(s.(refitClass := CLASS_B, stepType := CHANGE_FACING,
                isFixedEquipmentChange := !BothPodded(oldPart, newPart), baseTime := 240))
      else
        Ok(s.(refitClass := CLASS_C, stepType := MOVE,
              isFixedEquipmentChange := !BothPodded(oldPart, newPart), baseTime := 240))
    else if IsEquipmentPart(oldPart) || IsMissingEquipmentPart(oldPart) then
      Ok(s.(returnsPart := if IsEquipmentPart(oldPart) then Copy(oldPart) else None,
            refitClass := CLASS_A, stepType := REMOVE,
            isFixedEquipmentChange := !oldPart.value.omniPodded, baseTime := 120))
    else if IsEquipmentPart(newPart) then
      Ok(s.(neededPart := Copy(newPart), refitClass := CLASS_B, stepType := ADD,
            isFixedEquipmentChange := !newPart.value.omniPodded, baseTime := 120))
    // everything else
    else if (oldPart.Some? || IsMissingPart(newPart)) && newPart.Some? then
      if s.oldLoc == s.newLoc then Ok(Leave(s))
      else if oldPart.None? then
        // A missing new part with no old part dereferences the null old part.
        Err(NullPointer)
      else
        Ok(s.(refitClass := CLASS_C, stepType := MOVE, baseTime := oldPart.value.missingBaseTime * 2,
              isFixedEquipmentChange := !BothPodded(oldPart, newPart)))
    else if oldPart.Some? || IsMissingPart(newPart) then
      Ok(s.(returnsPart := if IsMissingPart(oldPart) then None else Copy(oldPart),
            refitClass := CLASS_A, stepType := REMOVE, baseTime := oldPart.value.missingBaseTime,
            isFixedEquipmentChange := !oldPart.value.omniPodded))
    else
      Ok(s.(neededPart := Copy(newPart), refitClass := CLASS_B, stepType := ADD,
            baseTime := newPart.value.missingBaseTime, isFixedEquipmentChange := !newPart.value.omniPodded))
  }

  // ----- properties of the classifier -----

  /** The only exceptions: both parts null, armor moved between locations or
      facings, a transport bay, cubicle or bay door moved; a cast of a missing
      ammo bin, missing life support or missing equipment part to the wrong
      class; and a missing new part with no old part. */
  lemma ErrorCases(unit: UnitInfo, oldPart: Option<Part>, newPart: Option<Part>, untracked: bool)
    requires Classify(unit, oldPart, newPart, untracked).Err?
    ensures var e := Classify(unit, oldPart, newPart, untracked).error;
      (e == IllegalArgument
       && ((oldPart.None? && newPart.None?)
           || (!untracked && LocOf(oldPart) != LocOf(newPart)
               && ((IsArmor(oldPart) && IsArmor(newPart))
                   || (IsTransportBay(oldPart) && IsTransportBay(newPart))
                   || ((IsCubicle(oldPart) || IsMissingCubicle(oldPart)) && IsCubicle(newPart))
                   || ((IsBayDoor(oldPart) || IsMissingBayDoor(oldPart)) && IsBayDoor(newPart))))
           || (!untracked && IsArmor(oldPart) && IsArmor(newPart)
               && oldPart.value.kind.rear != newPart.value.kind.rear)))
      || (e == ClassCast && !untracked
          && (IsMissingAmmoBin(oldPart)
              || (IsCoreOf(newPart, LIFE_SUPPORT) && oldPart.Some? && oldPart.value.kind.MissingCore?)
              || (IsMissingEquipmentPart(oldPart) && IsEquipmentPart(newPart))))
      || (e == NullPointer && !untracked && oldPart.None? && IsMissingPart(newPart))
  {
  }

  /** Armor moved to another location or facing is rejected. */
  lemma ArmorMustStayInPlace(unit: UnitInfo, oldArmor: Part, newArmor: Part)
    requires oldArmor.kind.Armor? && newArmor.kind.Armor?
    requires oldArmor.loc != newArmor.loc || oldArmor.kind.rear != newArmor.kind.rear
    ensures Classify(unit, Some(oldArmor), Some(newArmor), false) == Err(IllegalArgument)
  {
  }

  /** Armor of the same type and amount is left alone. */
  lemma SameArmorIsLeft(unit: UnitInfo, oldArmor: Part, newArmor: Part)
    requires oldArmor.kind.Armor? && newArmor.kind.Armor?
    requires oldArmor.loc == newArmor.loc && oldArmor.kind.rear == newArmor.kind.rear
    requires oldArmor.kind.armorType == newArmor.kind.armorType
    requires oldArmor.kind.amount == newArmor.kind.amount
    ensures var r := Classify(unit, Some(oldArmor), Some(newArmor), false);
      r.Ok? && r.value.stepType == LEAVE && r.value.refitClass == NO_CHANGE
      && !r.value.isFixedEquipmentChange
  {
  }

  /** The armor amount a supply carries, 0 for anything else. */
  function ArmorAmount(o: Option<Supply>): int
  {
    if o.Some? && o.value.PartCopy? && o.value.part.kind.Armor? then o.value.part.kind.amount else 0
  }

  function Abs(x: int): nat
  {
    if x < 0 then -x else x
  }

  /** Same-type armor with a different amount: exactly one of a needed and a
      returned part, carrying the difference times the capital-scale
      multiplier, so that the old amount minus what is returned plus what is
      needed is the new amount (in points); the time is the per-point time of
      the old armor times the difference; the step is damage-only exactly
      when armor is added up to the old armor's total amount, and only then
      is it not a fixed-equipment change. */
  lemma ArmorDelta(unit: UnitInfo, oldArmor: Part, newArmor: Part)
    requires oldArmor.kind.Armor? && newArmor.kind.Armor?
    requires oldArmor.loc == newArmor.loc && oldArmor.kind.rear == newArmor.kind.rear
    requires oldArmor.kind.armorType == newArmor.kind.armorType
    requires oldArmor.kind.amount != newArmor.kind.amount
    ensures var r := Classify(unit, Some(oldArmor), Some(newArmor), false);
      var m := if unit.capitalScale then 10 else 1;
      var oldAmount := oldArmor.kind.amount;
      var newAmount := newArmor.kind.amount;
      r.Ok? && r.value.refitClass == CLASS_A
      && r.value.neededPart.Some? != r.value.returnsPart.Some?
      && (r.value.returnsPart.Some? <==> oldAmount > newAmount)
      && (r.value.stepType == (if oldAmount > newAmount then REMOVE_ARMOR else ADD_ARMOR))
      && ArmorAmount(r.value.returnsPart) >= 0 && ArmorAmount(r.value.neededPart) >= 0
      && oldAmount * m - ArmorAmount(r.value.returnsPart) + ArmorAmount(r.value.neededPart) == newAmount * m
      && r.value.baseTime == oldArmor.kind.timePerPoint * Abs(oldAmount - newAmount)
      && (r.value.isArmorDamageOnly <==> (r.value.stepType == ADD_ARMOR && oldArmor.kind.totalAmount == newAmount))
      && r.value.isFixedEquipmentChange == !r.value.isArmorDamageOnly
  {
    var r := Classify(unit, Some(oldArmor), Some(newArmor), false);
    assert r == ArmorPair(unit, oldArmor, newArmor, Kept(Some(oldArmor), Some(newArmor)));
    var m := if unit.capitalScale then 10 else 1;
    var oldAmount, newAmount := oldArmor.kind.amount, newArmor.kind.amount;
    if oldAmount > newAmount {
      assert ArmorAmount(r.value.returnsPart) == (oldAmount - newAmount) * m;
    } else {
      assert ArmorAmount(r.value.neededPart) == (newAmount - oldAmount) * m;
    }
  }

  /** Armor of another type: all of the old armor is returned and all of the
      new armor is needed (in points), each taking its own per-point time. */
  lemma ArmorTypeChange(unit: UnitInfo, oldArmor: Part, newArmor: Part)
    requires oldArmor.kind.Armor? && newArmor.kind.Armor?
    requires oldArmor.loc == newArmor.loc && oldArmor.kind.rear == newArmor.kind.rear
    requires oldArmor.kind.armorType != newArmor.kind.armorType
    ensures var r := Classify(unit, Some(oldArmor), Some(newArmor), false);
      var m := if unit.capitalScale then 10 else 1;
      r.Ok? && r.value.stepType == CHANGE_ARMOR_TYPE && r.value.refitClass == CLASS_A
      && r.value.isFixedEquipmentChange
      && ArmorAmount(r.value.returnsPart) == oldArmor.kind.amount * m
      && ArmorAmount(r.value.neededPart) == newArmor.kind.amount * m
      && r.value.baseTime == oldArmor.kind.timePerPoint * oldArmor.kind.amount
                             + newArmor.kind.timePerPoint * newArmor.kind.amount
  {
  }

  /** A Mek location is left alone when TSM and structure type agree;
      otherwise the structure change is CLASS_F and takes 360 per attribute
      that differs, and only a present old location is returned. */
  lemma MekLocationChange(unit: UnitInfo, oldPart: Option<Part>, newPart: Part)
    requires IsMekLocation(oldPart) || IsMissingMekLocation(oldPart)
    requires newPart.kind.MekLocation?
    ensures var r := Classify(unit, oldPart, Some(newPart), false);
      var diffs := (if oldPart.value.kind.tsm != newPart.kind.tsm then 1 else 0)
                 + (if oldPart.value.kind.structure != newPart.kind.structure then 1 else 0);
      r.Ok? && r.value.baseTime == 360 * diffs
      && (diffs == 0 <==> r.value.stepType == LEAVE)
      && (diffs > 0 ==>
            r.value.refitClass == CLASS_F && r.value.stepType == CHANGE_STRUCTURE_TYPE
            && r.value.neededPart == Some(PartCopy(newPart))
            && (r.value.returnsPart.Some? <==> IsMekLocation(oldPart)))
  {
  }

  /** Turrets: removing one is CLASS_D and adding one CLASS_F, both 160 and
      fixed-equipment changes; only a present turret is returned. */
  lemma TurretSteps(unit: UnitInfo, turret: Part)
    requires turret.kind.TankLocation? && turret.kind.isTurret
    ensures var r := Classify(unit, Some(turret), None, false);
      r.Ok? && r.value.stepType == REMOVE_TURRET && r.value.refitClass == CLASS_D
      && r.value.baseTime == 160 && r.value.isFixedEquipmentChange
      && r.value.returnsPart == Some(PartCopy(turret))
    ensures var r := Classify(unit, None, Some(turret), false);
      r.Ok? && r.value.stepType == ADD_TURRET && r.value.refitClass == CLASS_F
      && r.value.baseTime == 160 && r.value.isFixedEquipmentChange
      && r.value.neededPart == Some(PartCopy(turret))
    ensures var r := Classify(unit, Some(turret.(kind := MissingTurret)), None, false);
      r.Ok? && r.value.stepType == REMOVE_TURRET && r.value.returnsPart.None?
  {
  }

  /** Removing or adding an actuator takes 90; it is a fixed-equipment change
      unless the actuator is a hand or lower arm. */
  lemma ActuatorSteps(unit: UnitInfo, actuator: Part)
    requires actuator.kind.MekActuator? || actuator.kind.MissingMekActuator?
    ensures var r := Classify(unit, Some(actuator), None, false);
      var a := actuator.kind.actuator;
      r.Ok? && r.value.stepType == REMOVE && r.value.refitClass == CLASS_A && r.value.baseTime == 90
      && (r.value.isFixedEquipmentChange <==> a != HAND && a != LOWER_ARM)
      && (r.value.returnsPart.Some? <==> actuator.kind.MekActuator?)
    ensures actuator.kind.MekActuator? ==>
      var r := Classify(unit, None, Some(actuator), false);
      var a := actuator.kind.actuator;
      r.Ok? && r.value.stepType == ADD && r.value.refitClass == CLASS_B && r.value.baseTime == 90
      && (r.value.isFixedEquipmentChange <==> a != HAND && a != LOWER_ARM)
  {
  }

  /** As written, the untracked aero heat-sink branch reads both sides from
      the old part, so the step is LEAVE whatever the new part's type or
      quantity. */
  lemma AeroUntrackedSinksAlwaysLeave(unit: UnitInfo, oldSinks: Part, newSinks: Part)
    requires oldSinks.kind.AeroHeatSink? && newSinks.kind.AeroHeatSink?
    ensures var r := Classify(unit, Some(oldSinks), Some(newSinks), true);
      r.Ok? && r.value.stepType == LEAVE && Free(r.value)
      && r.value.oldQuantity == oldSinks.quantity && r.value.newQuantity == newSinks.quantity
  {
  }

  /** Untracked aero heat sinks of one type in different quantities: exactly
      one of a needed and a returned batch of the difference, 20 minutes per
      sink. */
  lemma AeroUntrackedSinkDelta(unit: UnitInfo, oldSinks: Part, newSinks: Part)
    requires oldSinks.kind.AeroHeatSink? && newSinks.kind.AeroHeatSink?
    requires oldSinks.kind.sinkType == newSinks.kind.sinkType && oldSinks.quantity != newSinks.quantity
    ensures var r := ClassifyCorrected(unit, Some(oldSinks), Some(newSinks), true);
      var delta := Abs(oldSinks.quantity - newSinks.quantity);
      r.Ok? && r.value.stepType != LEAVE && r.value.refitClass == CLASS_B && r.value.isFixedEquipmentChange
      && r.value.neededPart.Some? != r.value.returnsPart.Some?
      && (r.value.returnsPart.Some? <==> oldSinks.quantity > newSinks.quantity)
      && oldSinks.quantity - SupplyQuantity(r.value.returnsPart) + SupplyQuantity(r.value.neededPart)
         == newSinks.quantity
      && r.value.baseTime == 20 * delta
  {
  }

  /** Untracked aero heat sinks of different types: all the old sinks are
      returned and all the new ones needed. */
  lemma AeroUntrackedSinkTypeChange(unit: UnitInfo, oldSinks: Part, newSinks: Part)
    requires oldSinks.kind.AeroHeatSink? && newSinks.kind.AeroHeatSink?
    requires oldSinks.kind.sinkType != newSinks.kind.sinkType
    ensures var r := ClassifyCorrected(unit, Some(oldSinks), Some(newSinks), true);
      r.Ok? && r.value.stepType == CHANGE_UNTRACKED_SINKS && r.value.refitClass == CLASS_B
      && r.value.returnsPart == Some(PartCopy(oldSinks)) && r.value.neededPart == Some(PartCopy(newSinks))
      && r.value.baseTime == 20 * oldSinks.quantity + 20 * newSinks.quantity
  {
  }

  /** The quantity a supply carries. */
  function SupplyQuantity(o: Option<Supply>): int
  {
    if o.None? then 0
    else match o.value
      case PartCopy(p) => p.quantity
      case AmmoStorage(_, shots) => shots
      case AeroSinks(_, count) => count
  }

  /** Untracked equipment heat sinks of one type in different quantities:
      exactly one of a needed and a returned batch of the difference, taking
      90 on a Mek and 20 per sink elsewhere. */
  lemma UntrackedHeatSinkDelta(unit: UnitInfo, oldSinks: Part, newSinks: Part)
    requires TempIsHeatSink(Some(oldSinks)) && TempIsHeatSink(Some(newSinks))
    requires oldSinks.kind.eqType == newSinks.kind.eqType && oldSinks.quantity != newSinks.quantity
    ensures var r := Classify(unit, Some(oldSinks), Some(newSinks), true);
      var delta := Abs(oldSinks.quantity - newSinks.quantity);
      r.Ok? && r.value.refitClass == CLASS_B && r.value.isFixedEquipmentChange
      && r.value.neededPart.Some? != r.value.returnsPart.Some?
      && (r.value.returnsPart.Some? <==> oldSinks.quantity > newSinks.quantity)
      && SupplyQuantity(r.value.neededPart) + SupplyQuantity(r.value.returnsPart) == delta
      && oldSinks.quantity - SupplyQuantity(r.value.returnsPart) + SupplyQuantity(r.value.neededPart)
         == newSinks.quantity
      && r.value.baseTime == (if unit.entity == MekEntity then 90 else 20 * delta)
  {
  }

  /** Cooling systems with the same sink type and different totals: the
      difference is needed or returned as aero heat sinks, and the time is
      60 per full 50 sinks of the difference. */
  lemma CoolingSinkDelta(unit: UnitInfo, oldSCCS: Part, newSCCS: Part)
    requires oldSCCS.kind.CoolingSystem? && newSCCS.kind.CoolingSystem?
    requires oldSCCS.kind.sinkType == newSCCS.kind.sinkType
    requires oldSCCS.kind.totalSinks != newSCCS.kind.totalSinks
    ensures var r := Classify(unit, Some(oldSCCS), Some(newSCCS), false);
      var delta := Abs(oldSCCS.kind.totalSinks - newSCCS.kind.totalSinks);
      r.Ok? && r.value.refitClass == CLASS_C && r.value.isFixedEquipmentChange
      && r.value.oldQuantity == oldSCCS.kind.totalSinks && r.value.newQuantity == newSCCS.kind.totalSinks
      && (if oldSCCS.kind.totalSinks > newSCCS.kind.totalSinks
          then r.value.stepType == REMOVE_SCCS_SINKS && r.value.neededPart.None?
               && r.value.returnsPart == Some(AeroSinks(oldSCCS.kind.sinkType, delta))
          else r.value.stepType == ADD_SCCS_SINKS && r.value.returnsPart.None?
               && r.value.neededPart == Some(AeroSinks(oldSCCS.kind.sinkType, delta)))
      && r.value.baseTime == (delta / 50) * 60
  {
  }

  /** The SCCS time counts only full batches of 50 sinks: the remainder is
      free, so 49 sinks take no time at all. */
  lemma {:induction false} SccsTimeCountsFullBatches(n: nat)
    ensures SccsTime(n) % 60 == 0
    ensures (SccsTime(n) / 60) * 50 <= n < (SccsTime(n) / 60 + 1) * 50
    ensures SccsTime(49) == 0 && SccsTime(50) == 60
  {
    assert JavaDiv(n, 50) == n / 50;
    assert JavaDiv(49, 50) == 0;
    assert JavaDiv(50, 50) == 1;
  }

  /** A transport bay added by a refit is recorded as a returned part, not a
      needed one. */
  lemma AddedBayIsReturned(unit: UnitInfo, bay: Part)
    requires bay.kind.TransportBay?
    ensures var r := Classify(unit, None, Some(bay), false);
      r.Ok? && r.value.stepType == ADD && r.value.refitClass == CLASS_C
      && r.value.returnsPart == Some(PartCopy(bay)) && r.value.neededPart.None?
      && r.value.newQuantity == bay.kind.capacity
      && r.value.baseTime == (if bay.kind.cargo then 14400 else 0)
  {
  }

  /** A missing ammo bin that is not paired with a new ammo bin (nor caught
      as armor, CASE or an actuator first) is cast to an ammo bin and fails. */
  lemma MissingAmmoBinFails(unit: UnitInfo, bin: Part, newPart: Option<Part>)
    requires bin.kind.MissingEquipment? && bin.kind.missingClass == MissingAmmoBinPart
    requires !IsArmor(newPart) && !IsCase(newPart) && !IsMekActuator(newPart) && !IsAmmoBin(newPart)
    ensures Classify(unit, Some(bin), newPart, false) == Err(ClassCast)
  {
  }

  /** Ammo bins in the same place are left; moved ones are MOVE_AMMO taking
      240, recording the old shots (0 for a missing bin) and the new bin's
      full shots. */
  lemma AmmoBinPair(unit: UnitInfo, oldBin: Part, newBin: Part)
    requires (oldBin.kind.Equipment? && oldBin.kind.eqClass.AmmoBinPart?)
          || (oldBin.kind.MissingEquipment? && oldBin.kind.missingClass == MissingAmmoBinPart)
    requires newBin.kind.Equipment? && newBin.kind.eqClass.AmmoBinPart?
    ensures var r := Classify(unit, Some(oldBin), Some(newBin), false);
      r.Ok?
      && r.value.oldQuantity == (if oldBin.kind.Equipment? then oldBin.kind.eqClass.currentShots else 0)
      && r.value.newQuantity == newBin.kind.eqClass.fullShots
      && (r.value.stepType == LEAVE <==> oldBin.loc == newBin.loc)
      && (oldBin.loc != newBin.loc ==>
            r.value.stepType == MOVE_AMMO && r.value.baseTime == 240 && r.value.refitClass == CLASS_C
            && (r.value.isFixedEquipmentChange <==> !(oldBin.omniPodded && newBin.omniPodded)))
  {
  }

  /** Transport bays cannot move: a pair in different locations is
      rejected and a pair in one location is left, recording both
      capacities. */
  lemma BaysCannotMove(unit: UnitInfo, oldBay: Part, newBay: Part)
    requires oldBay.kind.TransportBay? && newBay.kind.TransportBay?
    ensures var r := Classify(unit, Some(oldBay), Some(newBay), false);
      (oldBay.loc != newBay.loc <==> r == Err(IllegalArgument))
      && (oldBay.loc == newBay.loc <==>
            r.Ok? && r.value.stepType == LEAVE && r.value.oldQuantity == oldBay.kind.capacity
            && r.value.newQuantity == newBay.kind.capacity)
  {
  }

  /** Cubicles and bay doors cannot move either. */
  lemma CubiclesAndDoorsCannotMove(unit: UnitInfo, oldPart: Part, newPart: Part)
    requires ((oldPart.kind.Cubicle? || oldPart.kind.MissingCubicle?) && newPart.kind.Cubicle?)
          || ((oldPart.kind.BayDoor? || oldPart.kind.MissingBayDoor?) && newPart.kind.BayDoor?)
    ensures var r := Classify(unit, Some(oldPart), Some(newPart), false);
      (oldPart.loc != newPart.loc <==> r == Err(IllegalArgument))
      && (oldPart.loc == newPart.loc <==> r.Ok? && r.value.stepType == LEAVE)
  {
    var o, n := Some(oldPart), Some(newPart);
    assert Tracked(unit, o, n) == TrackedFittings(unit, o, n);
    assert TrackedFittings(unit, o, n) == TrackedAmmoAndSinks(unit, o, n);
    assert TrackedAmmoAndSinks(unit, o, n) == TrackedBays(unit, o, n);
  }

  /** A missing new part with no old part outside location -1 dereferences
      the absent old part. */
  lemma MissingNewPartWithoutOldFails(unit: UnitInfo, newPart: Part)
    requires newPart.kind.OtherMissingPart? && newPart.loc != -1
    ensures Classify(unit, None, Some(newPart), false) == Err(NullPointer)
  {
    var n := Some(newPart);
    assert Tracked(unit, None, n) == TrackedFittings(unit, None, n);
    assert TrackedFittings(unit, None, n) == TrackedAmmoAndSinks(unit, None, n);
    assert TrackedAmmoAndSinks(unit, None, n) == TrackedBays(unit, None, n);
    assert TrackedBays(unit, None, n) == TrackedEquipment(unit, None, n);
  }

  // ----- the step object -----

  class RefitStep {
    var neededPart: Option<Supply>
    var returnsPart: Option<Supply>
    var oldLoc: int
    var newLoc: int
    var oldLocName: string
    var newLocName: string
    var oldPartName: string
    var newPartName: string
    var oldQuantity: int
    var newQuantity: int
    var stepType: StepType
    var notes: string
    var refitClass: RefitClass
    var isFixedEquipmentChange: bool
    var isArmorDamageOnly: bool
    var baseTime: int

    /** The step's fields as a record. */
    function Snapshot(): Step
      reads this
    {
      Step(neededPart, returnsPart, oldLoc, newLoc, oldLocName, newLocName, oldPartName, newPartName,
           oldQuantity, newQuantity, stepType, notes, refitClass, isFixedEquipmentChange,
           isArmorDamageOnly, baseTime)
    }

    /** A step holding the given fields. */
    constructor (s: Step)
      ensures Snapshot() == s
    {
      neededPart := s.neededPart;
      returnsPart := s.returnsPart;
      oldLoc := s.oldLoc;
      newLoc := s.newLoc;
      oldLocName := s.oldLocName;
      newLocName := s.newLocName;
      oldPartName := s.oldPartName;
      newPartName := s.newPartName;
      oldQuantity := s.oldQuantity;
      newQuantity := s.newQuantity;
      stepType := s.stepType;
      notes := s.notes;
      refitClass := s.refitClass;
      isFixedEquipmentChange := s.isFixedEquipmentChange;
      isArmorDamageOnly := s.isArmorDamageOnly;
      baseTime := s.baseTime;
    }

    /** `spcialOmniFixedRefit`: the META step for the whole unit, whose note
        is the localized text passed in. */
    static method SpecialOmniFixedRefit(omniFixedText: string) returns (step: RefitStep)
      ensures fresh(step)
      ensures step.Snapshot() == BlankStep().(oldLocName := "Whole Unit", newLocName := "Whole Unit",
                                              stepType := META, refitClass := CLASS_F, notes := omniFixedText)
    {
      step := new RefitStep(BlankStep().(oldLocName := "Whole Unit", newLocName := "Whole Unit",
                                         stepType := META, refitClass := CLASS_F, notes := omniFixedText));
    }

    /** The constructor `RefitStep(oldUnit, oldPart, newPart, untracked)`:
        the classified step, or the exception the classification throws. */
    static method Create(unit: UnitInfo, oldPart: Option<Part>, newPart: Option<Part>, untracked: bool)
      returns (r: Result<RefitStep>)
      ensures r.Err? ==> Classify(unit, oldPart, newPart, untracked) == Err(r.error)
      ensures r.Ok? ==> Classify(unit, oldPart, newPart, untracked).Ok? && fresh(r.value)
      ensures r.Ok? ==> r.value.Snapshot() == Classify(unit, oldPart, newPart, untracked).value
    {
      var c := Classify(unit, oldPart, newPart, untracked);
      if c.Err? {
        return Err(c.error);
      }
      var step := new RefitStep(c.value);
      r := Ok(step);
    }

    /** `omnify`: the step type becomes its omni counterpart; an omni step is
        an OMNI_RECONFIG taking 60 for pod moves and 30 otherwise, and a
        damage-only armor addition becomes a free LEAVE with nothing needed.
        Nothing else changes. */
    method Omnify(omnify: StepType -> StepType, isOmniType: StepType -> bool)
      modifies this`stepType, this`refitClass, this`baseTime, this`neededPart
      ensures var t := omnify(old(stepType));
        isOmniType(t) ==>
          stepType == t && refitClass == OMNI_RECONFIG
          && baseTime == (if t == MOVE_AMMOPOD || t == MOVE_OMNIPOD then 60 else 30)
      ensures var t := omnify(old(stepType));
        !isOmniType(t) && t == ADD_ARMOR && old(isArmorDamageOnly) ==>
          stepType == LEAVE && refitClass == NO_CHANGE && baseTime == 0 && neededPart.None?
      ensures var t := omnify(old(stepType));
        !isOmniType(t) && !(t == ADD_ARMOR && old(isArmorDamageOnly)) ==>
          stepType == t && refitClass == old(refitClass) && baseTime == old(baseTime)
      ensures var t := omnify(old(stepType));
        !(!isOmniType(t) && t == ADD_ARMOR && old(isArmorDamageOnly)) ==> neededPart == old(neededPart)
    {
      stepType := omnify(stepType);
      if isOmniType(stepType) {
        refitClass := OMNI_RECONFIG;
        if stepType == MOVE_AMMOPOD || stepType == MOVE_OMNIPOD {
          baseTime := 60;
        } else {
          baseTime := 30;
        }
      } else if stepType == ADD_ARMOR && isArmorDamageOnly {
        stepType := LEAVE;
        refitClass := NO_CHANGE;
        baseTime := 0;
        neededPart := None;
      }
    }

    /** `setRefitClassToHarder`: the refit class becomes the harder of the
        current one and the given one, as the enum's `keepHardest` decides. */
    method SetRefitClassToHarder(c: RefitClass, keepHardest: (RefitClass, RefitClass) -> RefitClass)
      modifies this`refitClass
      ensures refitClass == keepHardest(old(refitClass), c)
    {
      refitClass := keepHardest(refitClass, c);
    }
  }
}
