# MekHQ campaign rules, modelled and proved in Dafny

MekHQ is a campaign manager for BattleTech. It keeps a mercenary or house
unit's personnel, parts, contracts and missions. This project models these
parts of it:

- **Refit steps** (`Refit`, RefitStep.dfy). A step pairs a part on the old
  unit with its counterpart on the new one. From the pair it works out the
  step type, the refit class, the base time, and the parts needed or
  returned.
- **Hiring-hall override** (`HiringHall`). Holds a level and tells whether a
  date falls between the override's start and end.
- **Former-spouse reason** (`FormerSpouse`). Parses the reason from a
  constant name or a numeric code.
- **Social and greed traits** (`SocialTrait`, `GreedTrait`). Two
  personality enumerations with their ordinals, parse codes and major or
  minor flags.
- **Personality controller** (`Personality`). Rolls intelligence, the four
  personality traits and a quirk, then writes the personality description.
- **Alternate Medical injury types** (`InjuryTypes`). Recovery times,
  levels, valid locations, skill modifiers, the effects of stress on an
  injury, and the registration of the injury types.
- **AtB monthly contract market** (`ContractMarket`). Covers:
  - the number of monthly offers, including Gray Monday;
  - contract, subcontract and follow-up generation with their ids;
  - the contract clause modifiers.
- **Prisoner ransom event** (`PrisonerRansom`). Chooses which prisoners are
  ransomed and what the ransom costs, then either releases our people or
  sells the enemy's.
- **Miscellaneous awards** (`MiscAwards`). Decides which "misc" awards a
  mission earns.
- **Company-generation options panel** (`CompanyGeneration`). Covers the
  recommended maximum of support personnel, option validation, and the
  support counts the options carry.
- **Briefing tab** (`BriefingTab`). Covers:
  - completing a mission and awarding mission experience;
  - the `.mul` file path and the generic battle value;
  - which scenario buttons are enabled.

Code that changes objects in place is modelled as classes whose methods
state their new state:

- `AtbMonthlyContractMarket`;
- `RefitStep`;
- `HiringHallOverride`;
- the injured `Person` and the injury `Registry`;
- the personality `Person`;
- the prisoner and briefing `Campaign`s;
- `ScenarioButtons`.

Code that only computes a value is modelled as functions over datatypes.
Loops in the source are methods with loop invariants, proved against
specification functions. Dice, shuffles, dialog answers and lookups of
campaign state are parameters.

## Model

| member | source | states |
|---|---|---|
| Refit.BlankStep | MekHQ/src/mekhq/campaign/parts/RefitStep.java:71-84 | a new step is an error step of class NO_CHANGE with no time, no parts and empty names |
| Refit.RefitStep.SpecialOmniFixedRefit | MekHQ/src/mekhq/campaign/parts/RefitStep.java:86-94 | the omni fixed-refit step is a META step of class F on the whole unit carrying the given notes |
| Refit.Classify | MekHQ/src/mekhq/campaign/parts/RefitStep.java:115-158 | two absent parts are an illegal argument; a successful step records both parts' locations; a LEAVE step needs nothing, returns nothing, takes no time and is class NO_CHANGE; as written, an untracked pair of aero heat sinks is always such a LEAVE step (see Refit.AeroUntrackedSinksAlwaysLeave) |
| Refit.RefitStep.Create | MekHQ/src/mekhq/campaign/parts/RefitStep.java:115-951 | the constructor fails exactly with the exception the as-written classification gives, and otherwise holds the classified step |
| Refit.RefitStep.constructor | MekHQ/src/mekhq/campaign/parts/RefitStep.java:71-84 | the object holds the given step |
| Refit.Untracked | MekHQ/src/mekhq/campaign/parts/RefitStep.java:159-253 | an untracked pair yields a recorded step (locations kept, LEAVE steps free); as written, both aero heat-sink sides are read from the old part, so that branch always leaves the sinks |
| Refit.UntrackedAeroAsWritten | MekHQ/src/mekhq/campaign/parts/RefitStep.java:158-170 | the aero heat-sink branch as written: with both sides taken from the old part it is always LEAVE, class NO_CHANGE, not a fixed-equipment change, with no time or parts |
| Refit.UntrackedAero | MekHQ/src/mekhq/campaign/parts/RefitStep.java:158-197 | the aero heat-sink branch with the new sinks read from the new part: LEAVE exactly when type and quantity agree; any other step is a class-B fixed-equipment change |
| Refit.ClassifyCorrected | MekHQ/src/mekhq/campaign/parts/RefitStep.java:158-197 | the classification with the corrected aero branch: it agrees with Refit.Classify on every other pair and still yields recorded steps |
| Refit.Tracked | MekHQ/src/mekhq/campaign/parts/RefitStep.java:258-397 | armor, Mek-location and tank-location branches yield recorded steps or errors |
| Refit.TrackedFittings | MekHQ/src/mekhq/campaign/parts/RefitStep.java:401-653 | CASE, actuator, core-component and cooling-system branches yield recorded steps or errors |
| Refit.TrackedAmmoAndSinks | MekHQ/src/mekhq/campaign/parts/RefitStep.java:659-741 | ammo-bin and heat-sink branches yield recorded steps or errors |
| Refit.TrackedBays | MekHQ/src/mekhq/campaign/parts/RefitStep.java:746-848 | bay, cubicle and door branches yield recorded steps or errors |
| Refit.TrackedEquipment | MekHQ/src/mekhq/campaign/parts/RefitStep.java:855-946 | equipment and generic-part branches yield recorded steps; the ERROR / PLEASE_REPAIR fall-through at lines 948-951 cannot be reached, because every earlier branch returns, and is not modelled |
| Refit.ErrorCases | MekHQ/src/mekhq/campaign/parts/RefitStep.java:115-951 | every failure is one of: both parts absent; armor, bay, cubicle or door moved; armor changing facing; the casts to AmmoBin, life support or EquipmentPart; or a missing new part without an old one |
| Refit.ArmorMustStayInPlace | MekHQ/src/mekhq/campaign/parts/RefitStep.java:258-267 | armor paired across locations or facings is an illegal argument |
| Refit.SameArmorIsLeft | MekHQ/src/mekhq/campaign/parts/RefitStep.java:273-278 | same armor type and amount in the same place is left alone at no cost |
| Refit.ArmorDelta | MekHQ/src/mekhq/campaign/parts/RefitStep.java:279-301 | a change of amount adds or removes exactly the difference (times ten at capital scale); the time is per point changed; "damage only" exactly when it refills to the total |
| Refit.ArmorTypeChange | MekHQ/src/mekhq/campaign/parts/RefitStep.java:303-316 | a type change returns all the old armor, needs all the new armor and takes the time of both |
| Refit.MekLocationChange | MekHQ/src/mekhq/campaign/parts/RefitStep.java:335-366 | 360 minutes per changed TSM or structure attribute; a change is class F, needs the new location, and returns the old one only if it was present |
| Refit.TurretSteps | MekHQ/src/mekhq/campaign/parts/RefitStep.java:368-397 | removing a turret is class D and returns it; adding one is class F and needs it; both take 160 minutes; a missing turret returns nothing |
| Refit.ActuatorSteps | MekHQ/src/mekhq/campaign/parts/RefitStep.java:437-472 | actuator removal is class A and addition class B, both 90 minutes, fixed except for hands and lower arms; missing actuators are not returned |
| Refit.AeroUntrackedSinksAlwaysLeave | MekHQ/src/mekhq/campaign/parts/RefitStep.java:158-170 | as written, Refit.Classify makes every untracked aero heat-sink pair a free LEAVE step of class NO_CHANGE, whatever the new sinks' type and quantity |
| Refit.AeroUntrackedSinkDelta | MekHQ/src/mekhq/campaign/parts/RefitStep.java:158-188 | for Refit.ClassifyCorrected (as written the pair is LEAVE): aero heat sinks of one type in different quantities need or return exactly the difference, in class B, 20 minutes per sink |
| Refit.AeroUntrackedSinkTypeChange | MekHQ/src/mekhq/campaign/parts/RefitStep.java:189-197 | for Refit.ClassifyCorrected (as written the pair is LEAVE): aero heat sinks of different types return all the old sinks and need all the new ones |
| Refit.UntrackedHeatSinkDelta | MekHQ/src/mekhq/campaign/parts/RefitStep.java:199-245 | untracked heat sinks of one type add or remove exactly the difference in count, in class B |
| Refit.CoolingSinkDelta | MekHQ/src/mekhq/campaign/parts/RefitStep.java:602-653 | a spacecraft cooling change needs or returns the difference in sinks, in class C, for one hour per full 50 |
| Refit.SccsTimeCountsFullBatches | MekHQ/src/mekhq/campaign/parts/RefitStep.java:643-651 | the cooling time is 60 minutes per complete batch of 50 sinks, by integer division |
| Refit.AddedBayIsReturned | MekHQ/src/mekhq/campaign/parts/RefitStep.java:772-782 | an added transport bay is put in the returned part, not the needed part; cargo bays take 14400 minutes |
| Refit.MissingAmmoBinFails | MekHQ/src/mekhq/campaign/parts/RefitStep.java:683-694 | an old missing ammo bin without a new bin throws ClassCastException |
| Refit.AmmoBinPair | MekHQ/src/mekhq/campaign/parts/RefitStep.java:659-682 | an ammo bin pair records current and full shots; it stays put exactly when the location is the same; a move is MOVE_AMMO, class C, 240 minutes |
| Refit.BaysCannotMove | MekHQ/src/mekhq/campaign/parts/RefitStep.java:746-759 | paired bays in different locations are an illegal argument, otherwise they are left alone with their capacities |
| Refit.CubiclesAndDoorsCannotMove | MekHQ/src/mekhq/campaign/parts/RefitStep.java:785-848 | paired cubicles or doors in different locations are an illegal argument, otherwise they are left alone |
| Refit.MissingNewPartWithoutOldFails | MekHQ/src/mekhq/campaign/parts/RefitStep.java:936-944 | outside location -1, a missing new part with no old part throws NullPointerException (at location -1 the pair is left alone before the dereference is reached) |
| Refit.HeatSinkTests | MekHQ/src/mekhq/campaign/parts/RefitStep.java:987-1030 | no part is both a heat sink and a missing heat sink; the subtype test for equipment or missing equipment is the union of the two |
| Refit.RefitStep.Omnify | MekHQ/src/mekhq/campaign/parts/RefitStep.java:959-978 | omni steps become OMNI_RECONFIG with 30 or 60 minutes; damage-only armor refills become free LEAVE steps; other steps keep class and time |
| Refit.RefitStep.SetRefitClassToHarder | MekHQ/src/mekhq/campaign/parts/RefitStep.java:1098-1100 | the class becomes the harder of the current and the given class |
| HiringHall.HiringHallOverride.constructor | MekHQ/src/mekhq/campaign/universe/HiringHallOverride.java:40-44 | no start, no end, level NONE |
| HiringHall.HiringHallOverride.GetLevel | MekHQ/src/mekhq/campaign/universe/HiringHallOverride.java:51-53 | returns the stored level |
| HiringHall.HiringHallOverride.SetLevel | MekHQ/src/mekhq/campaign/universe/HiringHallOverride.java:60-62 | the level read back is the level set |
| HiringHall.HiringHallOverride.IsActive | MekHQ/src/mekhq/campaign/universe/HiringHallOverride.java:71-82 | inactive without a start; active with a start and no end; otherwise active exactly strictly between start and end |
| HiringHall.InactiveOnBoundaryDates | MekHQ/src/mekhq/campaign/universe/HiringHallOverride.java:71-82 | a bounded override is inactive on its start and end dates themselves |
| FormerSpouse.ParseInt | MekHQ/src/mekhq/campaign/personnel/enums/FormerSpouseReason.java:69 | text parses only if it is non-empty and the value fits a 32-bit int; a non-negative result never comes from text starting with "-" unless it is 0 |
| FormerSpouse.ParseDecimal | MekHQ/src/mekhq/campaign/personnel/enums/FormerSpouseReason.java:69 | every 32-bit int parses back from its decimal spelling, with "-" for negatives |
| FormerSpouse.ParseIntOne | MekHQ/src/mekhq/campaign/personnel/enums/FormerSpouseReason.java:69-71 | text parses as 1 exactly when it is an optional "+", any number of zeros and one "1" |
| FormerSpouse.ParseFromString | MekHQ/src/mekhq/campaign/personnel/enums/FormerSpouseReason.java:61-84 | constant names map to their reason; any other text is DIVORCE exactly when it is an optional "+", zeros and a "1", and WIDOWED otherwise |
| FormerSpouse.ParseConstantName | MekHQ/src/mekhq/campaign/personnel/enums/FormerSpouseReason.java:61-66 | parsing a reason's constant name gives that reason back |
| FormerSpouse.ExactlyOneReason | MekHQ/src/mekhq/campaign/personnel/enums/FormerSpouseReason.java:51-57 | exactly one of isWidowed and isDivorce holds |
| FormerSpouse.ParseNumericCodes | MekHQ/src/mekhq/campaign/personnel/enums/FormerSpouseReason.java:68-83 | "0", "-0", "2", "-1", "divorce" and "" give WIDOWED; "1", "+1" and "01" give DIVORCE |
| SocialTrait.Values | MekHQ/src/mekhq/campaign/personnel/randomEvents/enums/personalities/Social.java:28-58 | 31 constants in declaration order |
| SocialTrait.ByCode | MekHQ/src/mekhq/campaign/personnel/randomEvents/enums/personalities/Social.java:121-155 | the parse cases, 31 of them, in source order |
| SocialTrait.ParseFromString | MekHQ/src/mekhq/campaign/personnel/randomEvents/enums/personalities/Social.java:121-161 | success only on a constant's numeric code or display name; anything else is IllegalStateException |
| SocialTrait.ParseCases | MekHQ/src/mekhq/campaign/personnel/randomEvents/enums/personalities/Social.java:122-159 | the switch from case k on matches only codes k and above, by numeral or name |
| SocialTrait.CodeIndexesCases | MekHQ/src/mekhq/campaign/personnel/randomEvents/enums/personalities/Social.java:122-155 | case k carries code k |
| SocialTrait.CasesCoverCodes | MekHQ/src/mekhq/campaign/personnel/randomEvents/enums/personalities/Social.java:122-155 | every constant has a case, at the index of its code |
| SocialTrait.ParseLabels | MekHQ/src/mekhq/campaign/personnel/randomEvents/enums/personalities/Social.java:122-155 | every constant parses back from its code and from its name |
| SocialTrait.CodesAreBijective | MekHQ/src/mekhq/campaign/personnel/randomEvents/enums/personalities/Social.java:122-155 | codes 0..30 each parse to the constant with that code, and no two constants share a code |
| SocialTrait.NamesAreDistinct | MekHQ/src/mekhq/campaign/personnel/randomEvents/enums/personalities/Social.java:122-155 | no two constants share a display name |
| SocialTrait.UnknownTextRejected | MekHQ/src/mekhq/campaign/personnel/randomEvents/enums/personalities/Social.java:156-159 | text that is no code and no name is rejected |
| SocialTrait.MajorIffHighCode | MekHQ/src/mekhq/campaign/personnel/randomEvents/enums/personalities/Social.java:28-58 | the major traits are exactly those with codes 25 and above |
| SocialTrait.CodesAreNotOrdinals | MekHQ/src/mekhq/campaign/personnel/randomEvents/enums/personalities/Social.java:121-155 | the parse code of APATHETIC is 1 while its ordinal is 2 |
| SocialTrait.IsNoneOnlyOfNone | MekHQ/src/mekhq/campaign/personnel/randomEvents/enums/personalities/Social.java:105-107 | isNone holds exactly at ordinal 0 |
| SocialTrait.FromOrdinal | MekHQ/src/mekhq/campaign/personnel/randomEvents/enums/personalities/Social.java:170-181 | an ordinal in range gives the constant with that ordinal; any other gives NONE |
| SocialTrait.OrdinalIndexesValues | MekHQ/src/mekhq/campaign/personnel/randomEvents/enums/personalities/Social.java:171-173 | the ordinal of the i-th value is i |
| SocialTrait.KeyIdentifiesName | MekHQ/src/mekhq/campaign/personnel/randomEvents/enums/personalities/Social.java:122-155 | every display name has at least four characters, starts with a capital letter, and its first four characters identify the constant |
| GreedTrait.Values | MekHQ/src/mekhq/campaign/personnel/randomEvents/enums/personalities/Greed.java:28-58 | 31 constants in declaration order |
| GreedTrait.ByCode | MekHQ/src/mekhq/campaign/personnel/randomEvents/enums/personalities/Greed.java:121-155 | the parse cases, 31 of them, in source order |
| GreedTrait.ParseFromString | MekHQ/src/mekhq/campaign/personnel/randomEvents/enums/personalities/Greed.java:121-161 | success only on a constant's numeric code or display name; anything else is IllegalStateException |
| GreedTrait.ParseCases | MekHQ/src/mekhq/campaign/personnel/randomEvents/enums/personalities/Greed.java:122-159 | the switch from case k on matches only codes k and above, by numeral or name |
| GreedTrait.CodeIndexesCases | MekHQ/src/mekhq/campaign/personnel/randomEvents/enums/personalities/Greed.java:122-155 | case k carries code k |
| GreedTrait.CasesCoverCodes | MekHQ/src/mekhq/campaign/personnel/randomEvents/enums/personalities/Greed.java:122-155 | every constant has a case, at the index of its code |
| GreedTrait.ParseLabels | MekHQ/src/mekhq/campaign/personnel/randomEvents/enums/personalities/Greed.java:122-155 | every constant parses back from its code and from its name |
| GreedTrait.CodesAreBijective | MekHQ/src/mekhq/campaign/personnel/randomEvents/enums/personalities/Greed.java:122-155 | codes 0..30 each parse to the constant with that code, and no two constants share a code |
| GreedTrait.NamesAreDistinct | MekHQ/src/mekhq/campaign/personnel/randomEvents/enums/personalities/Greed.java:122-155 | no two constants share a display name |
| GreedTrait.UnknownTextRejected | MekHQ/src/mekhq/campaign/personnel/randomEvents/enums/personalities/Greed.java:156-159 | text that is no code and no name is rejected |
| GreedTrait.MajorIffHighCode | MekHQ/src/mekhq/campaign/personnel/randomEvents/enums/personalities/Greed.java:28-58 | the major traits are exactly those with codes 25 and above |
| GreedTrait.CodesAreNotOrdinals | MekHQ/src/mekhq/campaign/personnel/randomEvents/enums/personalities/Greed.java:121-155 | the parse code of DYNAMIC is 4 while its ordinal is 5 |
| GreedTrait.IsNoneOnlyOfNone | MekHQ/src/mekhq/campaign/personnel/randomEvents/enums/personalities/Greed.java:105-107 | isNone holds exactly at ordinal 0 |
| GreedTrait.FromOrdinal | MekHQ/src/mekhq/campaign/personnel/randomEvents/enums/personalities/Greed.java:170-181 | an ordinal in range gives the constant with that ordinal; any other gives NONE |
| GreedTrait.OrdinalIndexesValues | MekHQ/src/mekhq/campaign/personnel/randomEvents/enums/personalities/Greed.java:171-173 | the ordinal of the i-th value is i |
| GreedTrait.KeyIdentifiesName | MekHQ/src/mekhq/campaign/personnel/randomEvents/enums/personalities/Greed.java:122-155 | every display name has at least four characters, starts with a capital letter, and its first four characters identify the constant |
| Personality.GenerateIntelligence | MekHQ/src/mekhq/campaign/personnel/randomEvents/PersonalityController.java:199-255 | a roll below 8346 gives an intelligence; any other throws IllegalStateException |
| Personality.IntelligenceBand | MekHQ/src/mekhq/campaign/personnel/randomEvents/PersonalityController.java:199-249 | the result is the first band whose upper bound exceeds the roll |
| Personality.UpperIncreasing | MekHQ/src/mekhq/campaign/personnel/randomEvents/PersonalityController.java:199-249 | the band bounds strictly increase |
| Personality.IntelligenceBandsPartition | MekHQ/src/mekhq/campaign/personnel/randomEvents/PersonalityController.java:199-249 | the 25 bands partition 0..8345: a roll lands in band k exactly when it lies between bounds k-1 and k |
| Personality.IntelligenceMonotone | MekHQ/src/mekhq/campaign/personnel/randomEvents/PersonalityController.java:199-249 | a higher roll never gives a lower intelligence |
| Personality.AverageBand | MekHQ/src/mekhq/campaign/personnel/randomEvents/PersonalityController.java:222-225 | AVERAGE exactly for rolls 878 to 7027 |
| Personality.SocialOf | MekHQ/src/mekhq/campaign/personnel/randomEvents/PersonalityController.java:93-94 | an ordinal in range gives the social trait with that ordinal, else NONE |
| Personality.GreedOf | MekHQ/src/mekhq/campaign/personnel/randomEvents/PersonalityController.java:93-94 | an ordinal in range gives the greed trait with that ordinal, else NONE |
| Personality.RolledTraitNeverNone | MekHQ/src/mekhq/campaign/personnel/randomEvents/PersonalityController.java:83-99 | a d25 roll (bumped by d6 on 25) lies in 1..30, is 25 or more only after a 25, and sets exactly the trait of the table rolled, never to none |
| Personality.SetPersonalityTrait | MekHQ/src/mekhq/campaign/personnel/randomEvents/PersonalityController.java:83-99 | tables 0..3 set their one trait from the bumped roll; any other table throws IllegalStateException and changes nothing |
| Personality.TraitDescriptions | MekHQ/src/mekhq/campaign/personnel/randomEvents/PersonalityController.java:145-173 | at most six entries; none exactly when the person has no trait |
| Personality.Entry | MekHQ/src/mekhq/campaign/personnel/randomEvents/PersonalityController.java:127-133 | each entry is non-empty and starts with a space |
| Personality.AssembleLength | MekHQ/src/mekhq/campaign/personnel/randomEvents/PersonalityController.java:120-134 | n entries give at least n characters |
| Personality.AssembleShape | MekHQ/src/mekhq/campaign/personnel/randomEvents/PersonalityController.java:120-134 | each prefix of entries is a prefix of the description, followed by a space |
| Personality.AssembleEmptyIff | MekHQ/src/mekhq/campaign/personnel/randomEvents/PersonalityController.java:120-136 | the assembled text is empty exactly when there are no entries |
| Personality.DescriptionEmptyIff | MekHQ/src/mekhq/campaign/personnel/randomEvents/PersonalityController.java:107-136 | the description is empty exactly when the person has no trait, whatever the shuffle |
| Personality.WriteDescription | MekHQ/src/mekhq/campaign/personnel/randomEvents/PersonalityController.java:107-137 | the stored description is the one the traits and shuffle determine |
| Personality.FirstQuirk | MekHQ/src/mekhq/campaign/personnel/randomEvents/PersonalityController.java:185-187 | the first draw that is not NONE, with every earlier draw NONE |
| Personality.GeneratePersonalityQuirk | MekHQ/src/mekhq/campaign/personnel/randomEvents/PersonalityController.java:178-190 | redraws until the quirk is not NONE and returns that first such draw |
| Personality.OutcomeTraitsInRange | MekHQ/src/mekhq/campaign/personnel/randomEvents/PersonalityController.java:43-55 | a trait is set exactly when its 1-in-6 table roll fires; rolled values stay within 30; a quirk exactly when its gate fires |
| Personality.Chosen | MekHQ/src/mekhq/campaign/personnel/randomEvents/PersonalityController.java:62-69 | the kept attempt is the first with a trait, or the last |
| Personality.GeneratePersonality | MekHQ/src/mekhq/campaign/personnel/randomEvents/PersonalityController.java:33-70 | the person ends with the chosen attempt's traits and the description they determine, empty exactly when no trait was rolled; whenever some supplied pass rolls a trait, the description is not empty |
| Personality.GeneratePass | MekHQ/src/mekhq/campaign/personnel/randomEvents/PersonalityController.java:35-60 | one pass leaves the attempt's traits and their description |
| Personality.RollTraits | MekHQ/src/mekhq/campaign/personnel/randomEvents/PersonalityController.java:35-57 | the traits become the attempt's outcome; the description is untouched |
| Personality.RollTables | MekHQ/src/mekhq/campaign/personnel/randomEvents/PersonalityController.java:43-49 | the four table rolls set the traits they fire for; quirk and intelligence unchanged |
| Personality.Person.constructor | MekHQ/src/mekhq/campaign/personnel/randomEvents/PersonalityController.java:33-47 | a person starts with no traits, average intelligence and an empty description |
| InjuryTypes.RegistrationIds | MekHQ/src/mekhq/campaign/mod/am/InjuryTypes.java:86-102 | 17 types are registered; the first 15 carry ids 0..14 and the last two none |
| InjuryTypes.Registry.RegisterAll | MekHQ/src/mekhq/campaign/mod/am/InjuryTypes.java:78-105 | the first call appends all registrations; later calls change nothing |
| InjuryTypes.RegisterTwice | MekHQ/src/mekhq/campaign/mod/am/InjuryTypes.java:78-105 | registering twice is the same as registering once |
| InjuryTypes.Registry.constructor | MekHQ/src/mekhq/campaign/mod/am/InjuryTypes.java:78 | nothing is registered yet |
| InjuryTypes.RecoveryTimes | MekHQ/src/mekhq/campaign/mod/am/InjuryTypes.java:371-390 | internal bleeding heals in 20 days per severity (up to 3), a concussion in 14 days or 42 from severity 2 (up to 2) |
| InjuryTypes.LevelThresholds | MekHQ/src/mekhq/campaign/mod/am/InjuryTypes.java:371-591 | internal bleeding is deadly above 2 hits and major below; a concussion is major above 1 hit and minor below; more hits never lower the level |
| InjuryTypes.LimbModifiersFollowTheLimb | MekHQ/src/mekhq/campaign/mod/am/InjuryTypes.java:287-660 | limb injuries penalise gunnery on an arm and piloting on a leg, positively, and nothing elsewhere; a broken limb costs 1 when permanent and 2 otherwise |
| InjuryTypes.MissingLocationTypesAreLimbOnly | MekHQ/src/mekhq/campaign/mod/am/InjuryTypes.java:287-343 | injuries that mean a missing location are valid exactly on limbs and are chronic |
| InjuryTypes.ShownChanceIsAlwaysHundred | MekHQ/src/mekhq/campaign/mod/am/InjuryTypes.java:194 | as written the shown chance is 100% for 0..4 hits, while the real chance is below 100 |
| InjuryTypes.ShownChanceExample | MekHQ/src/mekhq/campaign/mod/am/InjuryTypes.java:254 | with no hits the text says 100% while the d6 fires 17% of the time |
| InjuryTypes.StressChancesAreAccurate | MekHQ/src/mekhq/campaign/mod/am/InjuryTypes.java:419-449 | after InjuryTypes.Corrected replaces each shown chance with the intended rounding, every shown chance is the actual d6 chance, at most 100 |
| InjuryTypes.StressChancesShownAsCertain | MekHQ/src/mekhq/campaign/mod/am/InjuryTypes.java:193-211 | as written, every chance a stress effect shows is at least 100%, while for 0..4 hits the d6 fires less often than that |
| InjuryTypes.Corrected | MekHQ/src/mekhq/campaign/mod/am/InjuryTypes.java:194 | an effect that shows a chance gets the intended rounded chance for its hits in its place, and keeps its kind and hits; any other effect is unchanged |
| InjuryTypes.StressEffects | MekHQ/src/mekhq/campaign/mod/am/InjuryTypes.java:160-622 | a type that reacts to stress gives one or two effects, the first of two being a recovery-time reset; as written, every chance shown is at least 100 |
| InjuryTypes.ShownChance | MekHQ/src/mekhq/campaign/mod/am/InjuryTypes.java:194 | as written, max(rounded chance, 100) is never below 100 |
| InjuryTypes.IntendedChance | MekHQ/src/mekhq/campaign/mod/am/InjuryTypes.java:194 | the rounded chance capped at 100: at most 100, and positive for any non-negative number of hits |
| InjuryTypes.RecoveryTime | MekHQ/src/mekhq/campaign/mod/am/InjuryTypes.java:371-390 | lacerations, bruises and cuts have no fixed recovery time and every other type has one; a non-negative severity never gives a negative time |
| InjuryTypes.Level | MekHQ/src/mekhq/campaign/mod/am/InjuryTypes.java:390-596 | deadly exactly for CTE and for internal bleeding above 2 hits; chronic exactly for a severed spine and the missing-location types |
| InjuryTypes.IsValidInLocation | MekHQ/src/mekhq/campaign/mod/am/InjuryTypes.java:287-745 | missing-location types are valid exactly on limbs; only internal bleeding is valid internally; only CTE, cerebral contusions, concussions and lacerations on the head |
| InjuryTypes.Modifiers | MekHQ/src/mekhq/campaign/mod/am/InjuryTypes.java:144-660 | at most two skill modifiers, each a positive penalty; a missing-location type on a limb gives exactly one |
| InjuryTypes.CertainDeathCases | MekHQ/src/mekhq/campaign/mod/am/InjuryTypes.java:193-211 | internal bleeding kills for certain at 5 or more hits and 3 or more injury hits, CTE at more than 4 hits; otherwise both reset recovery and roll a second effect |
| InjuryTypes.ApplyEffect | MekHQ/src/mekhq/campaign/mod/am/InjuryTypes.java:160-622 | each stress effect's outcome: the injuries added or replaced, the hits raised, the status set to WOUNDS, or nothing, by roll; the injury's original healing time never changes |
| InjuryTypes.StressInternalBleeding | MekHQ/src/mekhq/campaign/mod/am/InjuryTypes.java:419-449 | bleeding stays within 1..3 hits, worsens by at most one, and kills exactly at 3 hits under 5 or more hits of stress or a fired d6 |
| InjuryTypes.Without | MekHQ/src/mekhq/campaign/mod/am/InjuryTypes.java:264-265 | removing an injury drops it and keeps every other injury |
| InjuryTypes.WithoutAppended | MekHQ/src/mekhq/campaign/mod/am/InjuryTypes.java:621-622 | removing one injury commutes with appending another |
| InjuryTypes.Person.AddInjury | MekHQ/src/mekhq/campaign/mod/am/InjuryTypes.java:264-265 | the injury is appended |
| InjuryTypes.Person.RemoveInjury | MekHQ/src/mekhq/campaign/mod/am/InjuryTypes.java:621-622 | the injury is removed, the others kept |
| ContractMarket.RightsOfOrdinal | MekHQ/src/mekhq/campaign/market/contractMarket/AtbMonthlyContractMarket.java:399 | command rights and their ordinals correspond one to one |
| ContractMarket.GrayMondayBounds | MekHQ/src/mekhq/campaign/market/contractMarket/AtbMonthlyContractMarket.java:87-93 | on Gray Monday the shrinking loop leaves between half and all of the offers, all if no die shows 2 or less |
| ContractMarket.GrayMonday | MekHQ/src/mekhq/campaign/market/contractMarket/AtbMonthlyContractMarket.java:87-93 | the loop computes the Gray Monday count, within those bounds |
| ContractMarket.GrayMondayCount | MekHQ/src/mekhq/campaign/market/contractMarket/AtbMonthlyContractMarket.java:87-93 | the Gray Monday loop never raises the count |
| ContractMarket.InMinorFactionSystem | MekHQ/src/mekhq/campaign/market/contractMarket/AtbMonthlyContractMarket.java:99-104 | a system with no factions counts as a minor-faction system |
| ContractMarket.InBackwater | MekHQ/src/mekhq/campaign/market/contractMarket/AtbMonthlyContractMarket.java:106-138 | no faction at all, or only periphery factions, make a backwater |
| ContractMarket.MonthlyOffers | MekHQ/src/mekhq/campaign/market/contractMarket/AtbMonthlyContractMarket.java:72-190 | a count of zero after Gray Monday gives no offers; the capital faction's offer comes first; every offer is the capital offer or a successful generation |
| ContractMarket.SystemModifier | MekHQ/src/mekhq/campaign/market/contractMarket/AtbMonthlyContractMarket.java:99-157 | minor-faction, backwater and hiring-hall adjustments lie in -2..1; a hiring hall cancels the backwater penalty for mercenaries and pirates |
| ContractMarket.AdjustedOfferCount | MekHQ/src/mekhq/campaign/market/contractMarket/AtbMonthlyContractMarket.java:99-180 | a new campaign gets at least two offers; otherwise the count is the roll plus the system modifier |
| ContractMarket.AtbMonthlyContractMarket.AdjustCount | MekHQ/src/mekhq/campaign/market/contractMarket/AtbMonthlyContractMarket.java:99-180 | computes the adjusted offer count |
| ContractMarket.Kept | MekHQ/src/mekhq/campaign/market/contractMarket/AtbMonthlyContractMarket.java:182-187 | at most k offers, each from a generation that succeeded; exactly k when all succeed |
| ContractMarket.KeptGrows | MekHQ/src/mekhq/campaign/market/contractMarket/AtbMonthlyContractMarket.java:182-187 | more generations never keep fewer offers |
| ContractMarket.AtbMonthlyContractMarket.Generate | MekHQ/src/mekhq/campaign/market/contractMarket/AtbMonthlyContractMarket.java:182-187 | the loop keeps exactly the successful generations in order |
| ContractMarket.AtbMonthlyContractMarket.CollectOffers | MekHQ/src/mekhq/campaign/market/contractMarket/AtbMonthlyContractMarket.java:163-187 | the capital faction's offer, if any, comes first, then the kept generations |
| ContractMarket.ZeroRollSkipsNewCampaignMinimum | MekHQ/src/mekhq/campaign/market/contractMarket/AtbMonthlyContractMarket.java:95-97 | a count of exactly zero returns before the new-campaign minimum, so even a new campaign gets no offers |
| ContractMarket.NewCampaignGetsTwoOffers | MekHQ/src/mekhq/campaign/market/contractMarket/AtbMonthlyContractMarket.java:178-180 | with a non-zero count and generations that succeed, a new campaign gets at least two offers |
| ContractMarket.AtbMonthlyContractMarket.GenerateContractOffers | MekHQ/src/mekhq/campaign/market/contractMarket/AtbMonthlyContractMarket.java:72-190 | on the first of the month or for a new campaign, the offers are replaced by the monthly offers; on other days they are unchanged |
| ContractMarket.AtbMonthlyContractMarket.constructor | MekHQ/src/mekhq/campaign/market/contractMarket/AtbMonthlyContractMarket.java:63-69 | an empty market with ids starting at 0 |
| ContractMarket.AtbMonthlyContractMarket.FindNonMercEmployer | MekHQ/src/mekhq/campaign/market/contractMarket/AtbMonthlyContractMarket.java:254-267 | a non-mercenary employer is found exactly when one of the draws gives one, and it is the first such draw |
| ContractMarket.NeutralAdjusted | MekHQ/src/mekhq/campaign/market/contractMarket/AtbMonthlyContractMarket.java:280-288 | only at peace does planetary assault become garrison duty and relief duty become security duty |
| ContractMarket.AtbMonthlyContractMarket.GenerateAtBContract | MekHQ/src/mekhq/campaign/market/contractMarket/AtbMonthlyContractMarket.java:240-333 | no employer or no retries gives null and uses no id; each try takes a fresh id and files its draft; at most `retries` ids; a result has the last id and a non-mercenary employer, and its as-written clause modifiers are filed under that id (line 317), the map otherwise unchanged |
| ContractMarket.AtbMonthlyContractMarket.GenerateOffer | MekHQ/src/mekhq/campaign/market/contractMarket/AtbMonthlyContractMarket.java:216-234 | the same id and clause-modifier bookkeeping within the market's retry limit, and a non-mercenary employer |
| ContractMarket.AtbMonthlyContractMarket.AddAtBContract | MekHQ/src/mekhq/campaign/market/contractMarket/AtbMonthlyContractMarket.java:63-69 | a generated contract is appended to the offers and filed under its id, with its clause modifiers |
| ContractMarket.SubcontractEnemy | MekHQ/src/mekhq/campaign/market/contractMarket/AtbMonthlyContractMarket.java:342-352 | only pirate hunting and riot duty replace the random enemy |
| ContractMarket.SubcontractTerms | MekHQ/src/mekhq/campaign/market/contractMarket/AtbMonthlyContractMarket.java:399-411 | a subcontract has no more command rights, 10 less salvage and 20 less support (not below 0), the same salvage exchange, full transport, and battle-loss compensation 0 up to 10%, 10 from 11% to 20%, and 20 points less above 20% |
| ContractMarket.BattleLossCompDropsAbove20 | MekHQ/src/mekhq/campaign/market/contractMarket/AtbMonthlyContractMarket.java:404-410 | battle-loss compensation 20 becomes 10, but 21 becomes 1 |
| ContractMarket.AtbMonthlyContractMarket.GenerateAtBSubcontract | MekHQ/src/mekhq/campaign/market/contractMarket/AtbMonthlyContractMarket.java:335-424 | the subcontract takes the next id, points to its parent, keeps its employer and system, and has the reduced terms |
| ContractMarket.FollowupType | MekHQ/src/mekhq/campaign/market/contractMarket/AtbMonthlyContractMarket.java:435-447 | only diversionary raids, recon raids and riot duty have follow-ups, which are never of those types |
| ContractMarket.Followup | MekHQ/src/mekhq/campaign/market/contractMarket/AtbMonthlyContractMarket.java:426-468 | a follow-up keeps the employer, enemy and system, with the given id and no parent |
| ContractMarket.AtbMonthlyContractMarket.AddFollowup | MekHQ/src/mekhq/campaign/market/contractMarket/AtbMonthlyContractMarket.java:426-468 | one follow-up per contract: the first call files its as-written clause modifiers under the id the follow-up has before line 463 assigns one, then adds it under the next id and records the link; later calls change nothing |
| ContractMarket.AtbMonthlyContractMarket.CheckForFollowup | MekHQ/src/mekhq/campaign/market/contractMarket/AtbMonthlyContractMarket.java:426-541 | a 6 after a follow-up type does what AddFollowup does: for a contract not yet followed up, the earlier offers are kept and the follow-up, of the matching type, is appended under the next id, recorded in the id map and the follow-up map, and its clause modifiers are filed; for one already followed up, and for any other roll or type, nothing changes |
| ContractMarket.SizeDraws | MekHQ/src/mekhq/campaign/market/contractMarket/AtbMonthlyContractMarket.java:570-578 | only a size-limited mercenary unit draws size penalties |
| ContractMarket.Picked | MekHQ/src/mekhq/campaign/market/contractMarket/AtbMonthlyContractMarket.java:570-578 | a clause is picked between 0 and n times in n draws |
| ContractMarket.PenaltiesTotal | MekHQ/src/mekhq/campaign/market/contractMarket/AtbMonthlyContractMarket.java:570-578 | n penalty draws take n points in total |
| ContractMarket.GovernmentBonusIsLost | MekHQ/src/mekhq/campaign/market/contractMarket/AtbMonthlyContractMarket.java:580-583 | as written, the government or retainer bonus has no effect |
| ContractMarket.SizePenaltyIsLost | MekHQ/src/mekhq/campaign/market/contractMarket/AtbMonthlyContractMarket.java:580-583 | as written, the size penalties only shift later draws and are themselves lost |
| ContractMarket.ClauseModsExample | MekHQ/src/mekhq/campaign/market/contractMarket/AtbMonthlyContractMarket.java:543-653 | a concrete retainer unit whose modifiers total 2 as written and 4 corrected |
| ContractMarket.ClauseModsKeepEarlierMods | MekHQ/src/mekhq/campaign/market/contractMarket/AtbMonthlyContractMarket.java:563-583 | corrected, the government bonus adds 1 per clause and each size penalty costs 1 point on top of the as-written result |
| ContractMarket.ClanEnemyShift | MekHQ/src/mekhq/campaign/market/contractMarket/AtbMonthlyContractMarket.java:596-605 | in the as-written modifiers, a Clan enemy of a non-Clan employer gives -2 salvage and +1 to every other clause compared with a regular non-Clan enemy |
| ContractMarket.ClauseModsAsWritten | MekHQ/src/mekhq/campaign/market/contractMarket/AtbMonthlyContractMarket.java:563-642 | as written, the modifiers do not depend on the government or retainer flag |
| ContractMarket.ClauseMods | MekHQ/src/mekhq/campaign/market/contractMarket/AtbMonthlyContractMarket.java:563-642 | corrected: the government bonus and the size penalties added to the as-written modifiers |
| ContractMarket.ClauseInputsOf | MekHQ/src/mekhq/campaign/market/contractMarket/AtbMonthlyContractMarket.java:545-642 | the contract's own type, the Clan flags of its enemy and employer, the employer's major-power, minor-power and mercenary flags and the "IND" test feed the clause rules; the unit's inputs (government or retainer, size limit, rating, effective units, administrators) and the enemy skill are kept |
| ContractMarket.CombineAddsEnemy | MekHQ/src/mekhq/campaign/market/contractMarket/AtbMonthlyContractMarket.java:596-612 | the enemy modifiers add to the others |
| ContractMarket.AtbMonthlyContractMarket.SetContractClauses | MekHQ/src/mekhq/campaign/market/contractMarket/AtbMonthlyContractMarket.java:543-653 | the four clause modifiers computed in a fresh array are the as-written modifiers (the administrators' experience overwrites the government bonus and the size penalties), filed under the contract id |
| ContractMarket.AtbMonthlyContractMarket.NewClauseMods | MekHQ/src/mekhq/campaign/market/contractMarket/AtbMonthlyContractMarket.java:563-568 | a fresh array holding the government bonus |
| ContractMarket.AtbMonthlyContractMarket.AddPenalties | MekHQ/src/mekhq/campaign/market/contractMarket/AtbMonthlyContractMarket.java:570-578 | adds the size penalties and reports how many were drawn |
| ContractMarket.AtbMonthlyContractMarket.StartClauses | MekHQ/src/mekhq/campaign/market/contractMarket/AtbMonthlyContractMarket.java:563-578 | the government bonus plus the size penalties |
| ContractMarket.AtbMonthlyContractMarket.AddShared | MekHQ/src/mekhq/campaign/market/contractMarket/AtbMonthlyContractMarket.java:580-642 | assigns the administrator modifiers, then adds the rating, enemy, mission and employer modifiers: the result is the as-written clause modifiers, whatever the array held |
| ContractMarket.AtbMonthlyContractMarket.AddAdmin | MekHQ/src/mekhq/campaign/market/contractMarket/AtbMonthlyContractMarket.java:580-583 | assigns the administrators' experience modifiers, discarding what the four clauses held |
| ContractMarket.AtbMonthlyContractMarket.AddRating | MekHQ/src/mekhq/campaign/market/contractMarket/AtbMonthlyContractMarket.java:584-594 | adds the unit-rating modifiers and advances the draw count by the rating's draws |
| ContractMarket.AtbMonthlyContractMarket.AddEnemy | MekHQ/src/mekhq/campaign/market/contractMarket/AtbMonthlyContractMarket.java:596-612 | adds the Clan and enemy-skill modifiers |
| ContractMarket.AtbMonthlyContractMarket.AddMission | MekHQ/src/mekhq/campaign/market/contractMarket/AtbMonthlyContractMarket.java:615-622 | adds the mission-type modifiers |
| ContractMarket.AtbMonthlyContractMarket.AddEmployer | MekHQ/src/mekhq/campaign/market/contractMarket/AtbMonthlyContractMarket.java:624-642 | adds the employer modifiers |
| ContractMarket.AtbMonthlyContractMarket.BumpAt | MekHQ/src/mekhq/campaign/market/contractMarket/AtbMonthlyContractMarket.java:570-578 | changes one clause's modifier by d |
| PrisonerRansom.RansomCount | MekHQ/src/mekhq/campaign/randomEvents/prisoners/PrisonerRansomEvent.java:83-85 | at least one prisoner is ransomed; ten percent rounded up; never more than there are |
| PrisonerRansom.SortByExperienceIsOrdered | MekHQ/src/mekhq/campaign/randomEvents/prisoners/PrisonerRansomEvent.java:54-58 | the sorted prisoners are a permutation, most experienced first |
| PrisonerRansom.InsertKeepsOrder | MekHQ/src/mekhq/campaign/randomEvents/prisoners/PrisonerRansomEvent.java:54-58 | inserting into an ordered list keeps it ordered |
| PrisonerRansom.SortByExperience | MekHQ/src/mekhq/campaign/randomEvents/prisoners/PrisonerRansomEvent.java:54-58 | the sort keeps the same prisoners |
| PrisonerRansom.RansomList | MekHQ/src/mekhq/campaign/randomEvents/prisoners/PrisonerRansomEvent.java:54-64 | the ransom list holds exactly the ransom count of the prisoners, drawn from them |
| PrisonerRansom.EnemyRansomsItsBest | MekHQ/src/mekhq/campaign/randomEvents/prisoners/PrisonerRansomEvent.java:54-64 | when we sell enemy prisoners, nobody left behind is more experienced than anyone ransomed |
| PrisonerRansom.RansomSumBounds | MekHQ/src/mekhq/campaign/randomEvents/prisoners/PrisonerRansomEvent.java:87-97 | the sum of non-negative ransom values is at least each one of them |
| PrisonerRansom.RansomSumAppend | MekHQ/src/mekhq/campaign/randomEvents/prisoners/PrisonerRansomEvent.java:87-97 | the ransom sum is additive over concatenation |
| PrisonerRansom.TotalRansom | MekHQ/src/mekhq/campaign/randomEvents/prisoners/PrisonerRansomEvent.java:87-97 | non-negative ransom values give a non-negative total |
| PrisonerRansom.CalculateTotalRansom | MekHQ/src/mekhq/campaign/randomEvents/prisoners/PrisonerRansomEvent.java:87-97 | the loop sums the ransom values; our own people cost 100 times what the enemy pays for theirs |
| PrisonerRansom.CanAffordRansom | MekHQ/src/mekhq/campaign/randomEvents/prisoners/PrisonerRansomEvent.java:99-102 | affordable exactly when the ransom does not exceed the balance |
| PrisonerRansom.Ids | MekHQ/src/mekhq/campaign/randomEvents/prisoners/PrisonerRansomEvent.java:104-117 | exactly the ids of the listed people |
| PrisonerRansom.Released | MekHQ/src/mekhq/campaign/randomEvents/prisoners/PrisonerRansomEvent.java:110 | the listed people become ACTIVE; nobody else and nothing else changes |
| PrisonerRansom.Campaign.constructor | MekHQ/src/mekhq/campaign/randomEvents/prisoners/PrisonerRansomEvent.java:43-47 | holds the given balance and personnel |
| PrisonerRansom.Campaign.PrisonerRansomEvent | MekHQ/src/mekhq/campaign/randomEvents/prisoners/PrisonerRansomEvent.java:43-81 | no prisoners, an unaffordable ransom or a refusal change nothing; otherwise the ransom is paid and our people released, or received and the enemy's removed |
| PrisonerRansom.Campaign.HandleRansomOutcome | MekHQ/src/mekhq/campaign/randomEvents/prisoners/PrisonerRansomEvent.java:104-117 | pays and releases, or receives and removes |
| PrisonerRansom.Campaign.ReleaseAll | MekHQ/src/mekhq/campaign/randomEvents/prisoners/PrisonerRansomEvent.java:110 | the loop sets every listed person ACTIVE |
| PrisonerRansom.Campaign.RemoveAll | MekHQ/src/mekhq/campaign/randomEvents/prisoners/PrisonerRansomEvent.java:115 | the loop removes every listed person |
| MiscAwards.Normalize | MekHQ/src/mekhq/campaign/personnel/autoAwards/MiscAwards.java:34 | the normalised range holds no whitespace and no capitals and is no longer than the input |
| MiscAwards.NormalizeAppend | MekHQ/src/mekhq/campaign/personnel/autoAwards/MiscAwards.java:34 | normalising distributes over concatenation |
| MiscAwards.NormalizeIdempotent | MekHQ/src/mekhq/campaign/personnel/autoAwards/MiscAwards.java:34 | normalising twice is normalising once |
| MiscAwards.WhitespaceIgnored | MekHQ/src/mekhq/campaign/personnel/autoAwards/MiscAwards.java:34 | inserted whitespace does not change the normalised range |
| MiscAwards.OnlyWhitespace | MekHQ/src/mekhq/campaign/personnel/autoAwards/MiscAwards.java:34 | whitespace alone normalises to the empty string |
| MiscAwards.RangeKindOf | MekHQ/src/mekhq/campaign/personnel/autoAwards/MiscAwards.java:34-57 | each recognised range is exactly its normalised keyword |
| MiscAwards.FirstMatchingPowerIff | MekHQ/src/mekhq/campaign/personnel/autoAwards/MiscAwards.java:92-104 | the loop over system factions finds a match exactly when some major or super power has the asked war state with the enemy |
| MiscAwards.FirstMatchingPower | MekHQ/src/mekhq/campaign/personnel/autoAwards/MiscAwards.java:92-104 | a match is a major or super power of the system whose war state with the enemy is the one asked for |
| MiscAwards.MissionAccomplishedAward | MekHQ/src/mekhq/campaign/personnel/autoAwards/MiscAwards.java:71-73 | awarded exactly when the award can be given to the person |
| MiscAwards.Periphery | MekHQ/src/mekhq/campaign/personnel/autoAwards/MiscAwards.java:119-129 | needs a mission and an award that can be given; a mission in a system with no periphery faction never qualifies |
| MiscAwards.HouseWorldWar | MekHQ/src/mekhq/campaign/personnel/autoAwards/MiscAwards.java:84-108 | awarded exactly for an AtB contract on a world of a major or super power at war (or at peace) with the enemy |
| MiscAwards.HouseWorldAwardsCoverMajorPowers | MekHQ/src/mekhq/campaign/personnel/autoAwards/MiscAwards.java:84-108 | on an AtB contract one of the two house-world awards applies exactly when the system has a major or super power |
| MiscAwards.Eligible | MekHQ/src/mekhq/campaign/personnel/autoAwards/MiscAwards.java:30-62 | an unrecognised range never qualifies; every award qualifies only when it can be awarded; "mission accomplished" needs success; "periphery" a periphery faction; without an AtB mission only "mission accomplished" can apply |
| MiscAwards.FilterIsSublist | MekHQ/src/mekhq/campaign/personnel/autoAwards/MiscAwards.java:30-62 | a filter keeps its input's order |
| MiscAwards.FilterMembership | MekHQ/src/mekhq/campaign/personnel/autoAwards/MiscAwards.java:30-62 | an element is kept exactly when it is in the input and passes |
| MiscAwards.EligibleAwards | MekHQ/src/mekhq/campaign/personnel/autoAwards/MiscAwards.java:30-62 | the eligible awards in their original order, exactly the ones that qualify |
| MiscAwards.MiscAwardsProcessor | MekHQ/src/mekhq/campaign/personnel/autoAwards/MiscAwards.java:30-62 | the loop collects exactly the eligible awards, in order |
| CompanyGeneration.MaximumSupportPersonnelBounds | MekHQ/src/mekhq/gui/panels/CompanyGenerationOptionsPanel.java:683-687 | within the spinner bounds the recommendation lies in 0..198, and is at least one lance when anything is generated |
| CompanyGeneration.MaximumSupportPersonnelAttained | MekHQ/src/mekhq/gui/panels/CompanyGenerationOptionsPanel.java:683-687 | 198 is reached |
| CompanyGeneration.MaximumSupportPersonnel | MekHQ/src/mekhq/gui/panels/CompanyGenerationOptionsPanel.java:683-687 | non-negative for non-negative spinner values; zero when no command lance, company or individual lance is generated |
| CompanyGeneration.SupportPersonnelCount | MekHQ/src/mekhq/gui/panels/CompanyGenerationOptionsPanel.java:1985-1987 | for non-negative spinners the total is non-negative and at least each spinner's value |
| CompanyGeneration.ValidateOptions | MekHQ/src/mekhq/gui/panels/CompanyGenerationOptionsPanel.java:1961-2000 | invalid without a company or lance; then invalid without a system and planet; otherwise valid exactly when any over-maximum or under-half count was confirmed |
| CompanyGeneration.RecommendedSupportNeedsNoConfirmation | MekHQ/src/mekhq/gui/panels/CompanyGenerationOptionsPanel.java:1985-2000 | a count between half the recommendation and the recommendation is valid whatever the answers |
| CompanyGeneration.PositiveSupport | MekHQ/src/mekhq/gui/panels/CompanyGenerationOptionsPanel.java:1873-1880 | a role is present exactly when one of its spinners is positive, and every stored count is positive |
| CompanyGeneration.PositiveSupportKeepsValues | MekHQ/src/mekhq/gui/panels/CompanyGenerationOptionsPanel.java:1873-1880 | with one spinner per role, each positive spinner's value is stored unchanged |
| CompanyGeneration.CreateSupportPersonnel | MekHQ/src/mekhq/gui/panels/CompanyGenerationOptionsPanel.java:1873-1880 | the loop builds exactly the positive support counts |
| BriefingTab.GetMissionXpAward | MekHQ/src/mekhq/gui/BriefingTab.java:565-579 | no XP while active, the failure XP on failure or breach, the outstanding XP for a StratCon AtB success with 3 or more victory points, the success XP otherwise |
| BriefingTab.VictoryPointsNeedStratConAtB | MekHQ/src/mekhq/gui/BriefingTab.java:568-576 | without StratCon or an AtB contract, victory points never change the award |
| BriefingTab.AwardedXp | MekHQ/src/mekhq/gui/BriefingTab.java:434-446 | a positive award goes to exactly the active adults who are not dependents; nothing else about anyone changes |
| BriefingTab.AwardedXpTotal | MekHQ/src/mekhq/gui/BriefingTab.java:434-446 | total XP grows by the award times the number of recipients |
| BriefingTab.Campaign.ApplyMissionXp | MekHQ/src/mekhq/gui/BriefingTab.java:434-446 | the loop awards the XP to each recipient |
| BriefingTab.Campaign.constructor | MekHQ/src/mekhq/gui/BriefingTab.java:389-393 | holds the given personnel and no mission statuses |
| BriefingTab.Campaign.CompleteMission | MekHQ/src/mekhq/gui/BriefingTab.java:389-446 | any guard that stops it changes nothing; as written, a confirmed completion of a contract that is not an AtB contract throws ClassCastException at line 415 and changes nothing; otherwise it completes exactly when every guard passes, then records the status and awards the XP |
| BriefingTab.PrisonerEventAsWritten | MekHQ/src/mekhq/gui/BriefingTab.java:413-415 | as written, a contract that is not an AtB contract throws ClassCastException |
| BriefingTab.PlainContractCompletionThrows | MekHQ/src/mekhq/gui/BriefingTab.java:413-415 | completing a plain contract fails as written |
| BriefingTab.HasPrisonerEvent | MekHQ/src/mekhq/gui/BriefingTab.java:413-420 | corrected, the prisoner event runs exactly for AtB contracts, where the as-written code succeeds |
| Wrappers.LowerCase | MekHQ/src/mekhq/gui/BriefingTab.java:1238 | lower-casing keeps the length and leaves no capital letter |
| BriefingTab.DetermineMulFilePath | MekHQ/src/mekhq/gui/BriefingTab.java:1231-1247 | no file chosen gives null; a name ending ".mul" in any case is kept; otherwise the canonical path plus ".mul", or null when that fails |
| BriefingTab.MulSuffixAdded | MekHQ/src/mekhq/gui/BriefingTab.java:1238-1241 | appending ".mul" gives a name that ends with it |
| BriefingTab.EndsWithMul | MekHQ/src/mekhq/gui/BriefingTab.java:1238 | a name ending in ".mul" has at least four characters |
| BriefingTab.DetermineMulFilePathIdempotent | MekHQ/src/mekhq/gui/BriefingTab.java:1231-1247 | choosing the resulting path again gives the same path |
| BriefingTab.CalculateGenericBattleValue | MekHQ/src/mekhq/gui/BriefingTab.java:1223-1229 | 0 when the option is off; non-negative for non-negative unit values |
| BriefingTab.BattleValueSumNonNegative | MekHQ/src/mekhq/gui/BriefingTab.java:1223-1229 | the sum of non-negative values is non-negative |
| BriefingTab.GenericBattleValueSplits | MekHQ/src/mekhq/gui/BriefingTab.java:1223-1229 | the generic battle value of two forces together is the sum of theirs |
| BriefingTab.BattleValueSumAppend | MekHQ/src/mekhq/gui/BriefingTab.java:1223-1229 | the sum is additive over concatenation |
| BriefingTab.AutoResolveAsWritten | MekHQ/src/mekhq/gui/BriefingTab.java:1315-1317 | as written, the button follows canStartGame for AtB scenarios and keeps its previous state otherwise |
| BriefingTab.AutoResolveStaysEnabled | MekHQ/src/mekhq/gui/BriefingTab.java:1315-1317 | after a startable AtB scenario, selecting a non-AtB scenario that cannot start leaves auto-resolve enabled |
| BriefingTab.AutoResolveEnabled | MekHQ/src/mekhq/gui/BriefingTab.java:1314-1317 | corrected, enabled only for AtB scenarios that can start |
| BriefingTab.ScenarioButtons.constructor | MekHQ/src/mekhq/gui/BriefingTab.java:291-314 | no scenario is selected, so no game button, unit clearing or auto-resolve is enabled |
| BriefingTab.ScenarioButtons.RefreshScenarioView | MekHQ/src/mekhq/gui/BriefingTab.java:1267-1319 | no row disables all buttons and clears the selection; a missing scenario changes nothing; otherwise the buttons follow canStartGame, clearing units needs GM rights on tracks, and auto-resolve is set as written: to canStartGame for an AtB scenario, unchanged for any other |

## Left out

- Swing: panels, dialogs, tables, listeners, resource bundles, localisation and report text. Dialog answers are inputs. The text of a personality description is modelled as templates filled in with the first name and a pronoun.
- Randomness is passed in as parameters:
  - dice and d6 results;
  - shuffles;
  - the random employer, enemy and clause draws;
  - the retry outcomes of contract generation.
- Campaign lookups are parameters or fields:
  - faction sets and the war state between factions;
  - starting planets and jump paths;
  - active personnel, prisoners and prisoner defectors;
  - `AtBContract.isMinorPower`, held as a flag of the faction the code names;
  - the unit rating, and `canBeAwarded`.
- Faction sets are modelled as sequences.
- Files: the save dialog and `File.getCanonicalPath` are inputs. Lower-casing is ASCII only.
- Floating point: several values are not modelled.
  - `calculatePaymentMultiplier` and the contract payment, including the follow-up multiplier.
  - `modifyInjuryTime`.
  - Money is modelled as exact reals.
  - Ransom values are read from the person, not computed.
- PrisonerRansom.RansomCount: this is the exact ceiling of a tenth of the prisoners. The source computes `Math.ceil(count * 0.1)` in doubles, which agrees for every realistic count.
- Java `int` overflow is not modelled: counts, times, experience and ids are unbounded.
- Constants defined in files that are not part of this model are declared with the values the rules need:
  - the clause indices;
  - the unit-rating and experience levels;
  - the order of the contract types and command rights;
  - the maximum retry counts, which are fields of the market.
- ContractMarket.AtbMonthlyContractMarket.GenerateContractOffers: the generations are inputs, so the bookkeeping each `generateAtBContract` call at lines 167 and 183 does is not replayed: the `lastId` increment, the `contractIds` entries and the clause modifiers filed. The removal of the old offers at line 77 is modelled only as the replacement of the offer list; whatever else `removeContract` clears is not part of this model.
- `checkForSubcontracts`, the `roll*Clause` methods and `updateReport` are not part of this model. Neither are the dates, length, allies and enemy forces of a generated contract.
- ContractMarket.AtbMonthlyContractMarket.SetContractClauses: the clause modifiers are a value filed per contract id. The source shares one `ClauseMods` object between the map and the generation code, and that sharing is not modelled.
- ContractMarket.AtbMonthlyContractMarket.AddFollowup: the id a new `AtBContract` holds before line 463 assigns one is not part of this model, so it is an input (`unassignedId`). The follow-up's clause modifiers are filed under that id, as the source does, and not under the follow-up's final id. Lines 455-456 recompute the parent contract's required combat teams and payment multiplier; neither is modelled.
- FormerSpouse.ParseInt: only the ASCII digits 0-9 are read. `Integer.parseInt` also accepts the decimal digits of other scripts (for example "١", Arabic-Indic one), so such text gives DIVORCE in the source and WIDOWED here.
- `prepareAwardData` and the award dialogs are not part of this model. MiscAwards returns the eligible awards in order, not a map keyed by position.
- Prisoner handling after a mission (`handlePrisoners`, defectors) is not part of this model, nor is retirement and turnover after completion, nor the work BriefingTab.java does after a mission completes: the follow-up check of lines 497-499 and the auto-awards ceremony of lines 502-509. Whether the contract was extended is an input.
- InjuryTypes: these are not modelled:
  - injury descriptions, icons and the injury type classes' lookup tables;
  - `Person` beyond its status and injury list.

  Stress effects are modelled for the injury types that define them, each with its d6 or percentile roll as an input.
- RefitStep: these are not modelled:
  - part names, location names and the `toString` text;
  - the part classes themselves, which are one datatype with a variant per class.

  `RefitStepType.omnify`/`isOmniType` and `RefitClass` ordering are parameters.
- Personality.GeneratePersonality: the source starts over until the description is not empty (PersonalityController.java:66-68), without bound. The model runs a finite sequence of supplied passes and stops after the last one, so when none of them rolls a trait it ends with an empty description, which the source never returns. Its contract promises a non-empty description only when some supplied pass rolls a trait.
- Personality: the Aggression, Ambition and PersonalityQuirk enumerations are represented by their ordinals, with 0 standing for NONE. Their description texts, like those of every trait, are inputs, and the quirk table is represented by its size.

## Findings

The operations of the model follow each of these as written. The corrected behaviour is a separate member, and the lemmas in the last column are stated over it.

| source | as written | input that shows it | evidently intended | confidence | as-written member | corrected member |
|---|---|---|---|---|---|---|
| MekHQ/src/mekhq/campaign/parts/RefitStep.java:161 | In the untracked branch, the new aero heat sinks are cast from `oldPart`, so both sides are the old sinks. | Untracked aero heat sinks going from 10 to 14 of one type: the step is LEAVE and no sinks are needed. | `newAHS` is read from `newPart`, giving ADD_UNTRACKED_SINKS of the 4 extra sinks. | high, not executed | Refit.AeroUntrackedSinksAlwaysLeave | Refit.AeroUntrackedSinkDelta |
| MekHQ/src/mekhq/campaign/market/contractMarket/AtbMonthlyContractMarket.java:580-583 | The administrators' experience is assigned into each clause modifier. This discards the government or retainer bonus and the size penalties added just before. | A retainer unit of 28 effective units, rated D, with regular administrators, on garrison duty. The modifiers total 2 instead of 4. | The experience is added to the earlier modifiers, like every later modifier. | high, not executed | ContractMarket.GovernmentBonusIsLost | ContractMarket.ClauseModsKeepEarlierMods |
| MekHQ/src/mekhq/campaign/mod/am/InjuryTypes.java:194 | The death chance shown is `Math.max(round((1 + hits) * 100 / 6), 100)`. That is always at least 100. | 0 hits: the text says 100% while the d6 fires one time in six. | `Math.min`: the d6 chance, capped at 100. | high, not executed | InjuryTypes.StressChancesShownAsCertain | InjuryTypes.StressChancesAreAccurate |
| MekHQ/src/mekhq/gui/BriefingTab.java:413-415 | Every `Contract` is cast to `AtBContract` for the prisoner event. | Completing a plain `Contract` that is not an AtB contract throws ClassCastException. | Only AtB contracts run the prisoner event. | medium, not executed | BriefingTab.PlainContractCompletionThrows | BriefingTab.HasPrisonerEvent |
| MekHQ/src/mekhq/gui/BriefingTab.java:1315-1317 | The auto-resolve button is updated only for AtB scenarios. | A startable AtB scenario is selected, then a non-AtB scenario that cannot start. Auto-resolve stays enabled. | Disable auto-resolve for any other scenario. | medium, not executed | BriefingTab.AutoResolveStaysEnabled | BriefingTab.AutoResolveEnabled |
