/**
 * The onboarding flow: five steps (welcome, conditions, cycle set-up, medications,
 * safety plan), the records the answers become, and the final save of profile,
 * medications and safety plan through the sync coordinator.
 */
module Onboarding {
  import opened Wrappers
  import opened Dates
  import opened Types
  import opened RemoteSchema
  import opened CloudStorage

  const CycleLengthDefault: int := 28

  /** The step indices of the flow. */
  const WelcomeStep: int := 0
  const SafetyPlanStep: int := 4

  datatype CyclePreference = Auto | Manual

  /** The cycle settings the set-up step's answers become. */
  function CycleFromSetup(preference: CyclePreference, irregular: bool, lastPeriodDate: Option<Date>): (c: CycleTracking)
    ensures c.isAutomatic <==> preference == Auto
    ensures c.isIrregular == irregular
    ensures c.averageCycleLength == CycleLengthDefault
    ensures c.lastPeriodDate.Some? <==> Truthy(lastPeriodDate)
    ensures c.lastPeriodDate.Some? ==> c.lastPeriodDate == lastPeriodDate
  {
    CycleTracking(preference == Auto, irregular, if Truthy(lastPeriodDate) then lastPeriodDate else None, CycleLengthDefault)
  }

  /** Manual, regular, 28 days: the settings of a flow whose cycle step left nothing. */
  const DefaultCycle := CycleTracking(false, false, None, CycleLengthDefault)

  /** The saved profile: always onboarded, diagnosis `other` and the default cycle when unanswered. */
  function BuildProfile(diagnosis: Option<Diagnosis>, cycle: Option<CycleTracking>, id: Id, createdAt: string): (p: UserProfile)
    ensures p.onboardingComplete
    ensures p.diagnosis == if diagnosis.Some? then diagnosis.value else Other
    ensures p.cycleTracking == if cycle.Some? then cycle.value else DefaultCycle
    ensures p.diagnosisOther == None
  {
    UserProfile(id, diagnosis.GetOr(Other), None, true, cycle.GetOr(DefaultCycle), createdAt)
  }

  // ------------------------------------------------ splitting the contact string

  /** `s.split(sep)`: the maximal separator-free pieces, one more than there are separators. */
  function Split(s: string, sep: char): (parts: seq<string>)
    ensures |parts| >= 1
    ensures forall k :: 0 <= k < |parts| ==> sep !in parts[k]
  {
    if s == [] then [""]
    else
      var rest := Split(s[1..], sep);
      if s[0] == sep then [""] + rest
      else [[s[0]] + rest[0]] + rest[1..]
  }

  function Join(parts: seq<string>, sep: char): string
    requires |parts| >= 1
  {
    if |parts| == 1 then parts[0] else parts[0] + [sep] + Join(parts[1..], sep)
  }

  /** Joining the pieces of a split gives back the string. */
  lemma {:induction false} JoinSplit(s: string, sep: char)
    ensures Join(Split(s, sep), sep) == s
  {
    if s != [] {
      var rest := Split(s[1..], sep);
      JoinSplit(s[1..], sep);
      if s[0] != sep {
        if |rest| > 1 {
          assert ([[s[0]] + rest[0]] + rest[1..])[1..] == rest[1..];
        }
        assert s == [s[0]] + s[1..];
      } else {
        assert ([""] + rest)[1..] == rest;
        assert s == [s[0]] + s[1..];
      }
    }
  }

  /** Splitting joined separator-free pieces gives back the pieces. */
  lemma {:induction false} SplitJoin(parts: seq<string>, sep: char)
    requires |parts| >= 1
    requires forall k :: 0 <= k < |parts| ==> sep !in parts[k]
    ensures Split(Join(parts, sep), sep) == parts
    decreases |parts|, |parts[0]|
  {
    var p := parts[0];
    if p == [] {
      if |parts| > 1 {
        SplitJoin(parts[1..], sep);
        var j := Join(parts, sep);
        assert j == [sep] + Join(parts[1..], sep);
        assert j[1..] == Join(parts[1..], sep);
        assert parts == [""] + parts[1..];
      }
    } else {
      var tail := [p[1..]] + parts[1..];
      assert sep !in p[1..] by { assert forall c :: c in p[1..] ==> c in p; }
      SplitJoin(tail, sep);
      var j := Join(parts, sep);
      assert j == [p[0]] + Join(tail, sep) by {
        if |parts| > 1 {
          assert tail[1..] == parts[1..];
          assert Join(tail, sep) == p[1..] + [sep] + Join(parts[1..], sep);
        }
      }
      assert j[0] == p[0] && j[1..] == Join(tail, sep);
      assert p[0] != sep by { assert p[0] in p; }
      assert [p[0]] + tail[0] == p;
      assert tail[1..] == parts[1..];
      assert parts == [[p[0]] + tail[0]] + tail[1..];
    }
  }

  /** `parts[k] || ''`: a missing piece reads as empty. */
  function Piece(parts: seq<string>, k: nat): string {
    if k < |parts| then parts[k] else ""
  }

  /**
   * The emergency contact typed as `name,phone`: absent for no or empty input,
   * otherwise the first piece as name and the second (or empty) as phone.
   */
  function Contact(input: Option<string>): (c: Option<EmergencyContact>)
    ensures c.Some? <==> Truthy(input)
    ensures c.Some? ==> ',' !in c.value.name && ',' !in c.value.phone
  {
    if Truthy(input)
    then var parts := Split(input.value, ','); Some(EmergencyContact(Piece(parts, 0), Piece(parts, 1)))
    else None
  }

  /** Of comma-free pieces joined by commas, the first is the name and the second the phone. */
  lemma ContactOfJoin(parts: seq<string>)
    requires |parts| >= 2
    requires forall k :: 0 <= k < |parts| ==> ',' !in parts[k]
    ensures Contact(Some(Join(parts, ','))) == Some(EmergencyContact(parts[0], parts[1]))
  {
    SplitJoin(parts, ',');
    var j := Join(parts, ',');
    assert j == parts[0] + [','] + Join(parts[1..], ',');
    assert j[|parts[0]|] == ',';
  }

  /** Comma-free name and phone are recovered, and any pieces after the phone are dropped. */
  lemma ContactSplitsNameAndPhone(name: string, phone: string, more: seq<string>)
    requires ',' !in name && ',' !in phone
    requires forall k :: 0 <= k < |more| ==> ',' !in more[k]
    ensures Contact(Some(Join([name, phone] + more, ','))) == Some(EmergencyContact(name, phone))
  {
    var parts := [name, phone] + more;
    forall k | 0 <= k < |parts| ensures ',' !in parts[k] {
      if k >= 2 { assert parts[k] == more[k - 2]; }
    }
    ContactOfJoin(parts);
  }

  /** A contact without a comma is all name and no phone. */
  lemma ContactWithoutComma(name: string)
    requires name != "" && ',' !in name
    ensures Contact(Some(name)) == Some(EmergencyContact(name, ""))
  {
    SplitJoin([name], ',');
  }

  // ----------------------------------------------------------- the safety plan

  /** What the safety-plan step hands over; each part may be null. */
  datatype PlanInput = PlanInput(text: Option<string>, image: Option<string>, contact: Option<string>)

  predicate PlanProvided(i: PlanInput) {
    Truthy(i.text) || Truthy(i.image)
  }

  /** The saved plan: an image plan when an image was picked, a text plan otherwise. */
  function BuildSafetyPlan(i: PlanInput, updatedAt: string): (p: SafetyPlan)
    ensures p.format == Image <==> Truthy(i.image)
    ensures p.format == Text <==> !Truthy(i.image)
    ensures p.content == (if Truthy(i.text) then i.text.value else "")
    ensures p.fileUri.Some? <==> Truthy(i.image)
    ensures p.emergencyContact == Contact(i.contact)
  {
    SafetyPlan(OrEmpty(i.text), if Truthy(i.image) then Image else Text,
               if Truthy(i.image) then i.image else None, Contact(i.contact), updatedAt)
  }

  /** Which of the three saves of the last step reject. */
  datatype SaveFaults = SaveFaults(profile: bool, medications: bool, plan: bool)

  class OnboardingFlow {
    var currentStep: int
    var diagnosis: Option<Diagnosis>
    var cycleTracking: Option<CycleTracking>
    var medications: seq<Medication>

    ghost predicate Valid()
      reads this
    {
      WelcomeStep <= currentStep <= SafetyPlanStep
    }

    constructor ()
      ensures Valid() && currentStep == WelcomeStep
      ensures diagnosis == None && cycleTracking == None && medications == []
    {
      currentStep, diagnosis, cycleTracking, medications := WelcomeStep, None, None, [];
    }

    method WelcomeNext()
      modifies this`currentStep
      ensures Valid() && currentStep == 1
    {
      currentStep := 1;
    }

    method ConditionsNext(d: Diagnosis)
      modifies this`currentStep, this`diagnosis
      ensures Valid() && currentStep == 2 && diagnosis == Some(d)
    {
      diagnosis := Some(d);
      currentStep := 2;
    }

    method CycleSetupNext(preference: CyclePreference, irregular: bool, lastPeriodDate: Option<Date>)
      modifies this`currentStep, this`cycleTracking
      ensures Valid() && currentStep == 3
      ensures cycleTracking == Some(CycleFromSetup(preference, irregular, lastPeriodDate))
    {
      cycleTracking := Some(CycleFromSetup(preference, irregular, lastPeriodDate));
      currentStep := 3;
    }

    method MedicationsNext(ms: seq<Medication>)
      modifies this`currentStep, this`medications
      ensures Valid() && currentStep == SafetyPlanStep && medications == ms
    {
      medications := ms;
      currentStep := SafetyPlanStep;
    }

    /** The back button of steps 1 to 4 returns to the step before. */
    method Back()
      requires WelcomeStep < currentStep <= SafetyPlanStep
      modifies this`currentStep
      ensures Valid() && currentStep == old(currentStep) - 1
    {
      currentStep := currentStep - 1;
    }

    /**
     * The last step: saves the profile, then the medications if there are any, then
     * the safety plan if one was given, and completes the flow (`completed`) unless a
     * save rejected, which stops the remaining saves. `stamp` is the clock reading
     * that names the profile, `profileNow` the one that dates it, and `planNow` the
     * later one, taken after the profile and medication saves, that dates the plan.
     */
    method SafetyPlanComplete(sync: SyncCoordinator, user: Option<Id>, input: PlanInput,
                              stamp: string, profileNow: string, planNow: string, faults: SaveFaults)
      returns (completed: bool)
      requires sync.Valid()
      modifies sync`calls, sync.local`profile, sync.local`medications, sync.local`safetyPlan
      ensures sync.Valid()
      ensures var profileSaved := !faults.profile;
              var medsSaved := profileSaved && (|medications| == 0 || !faults.medications);
              var planSaved := medsSaved && (!PlanProvided(input) || !faults.plan);
              && completed == planSaved
              && sync.local.profile == (if profileSaved then Some(BuildProfile(diagnosis, cycleTracking, ProfileId(user, stamp), profileNow))
                                       else old(sync.local.profile))
              && sync.local.medications == (if profileSaved && |medications| > 0 && medsSaved then medications
                                           else old(sync.local.medications))
              && sync.local.safetyPlan == (if medsSaved && PlanProvided(input) && planSaved
                                          then Some(BuildSafetyPlan(input, planNow)) else old(sync.local.safetyPlan))
      ensures user.None? ==> sync.calls == old(sync.calls)
      ensures user.Some? ==>
                var uid := user.value;
                var profileSaved := !faults.profile;
                var medsSaved := profileSaved && (|medications| == 0 || !faults.medications);
                var planSaved := medsSaved && (!PlanProvided(input) || !faults.plan);
                sync.calls == old(sync.calls)
                  + (if profileSaved then [UpsertProfile(ProfileToRow(BuildProfile(diagnosis, cycleTracking, stamp, profileNow), uid))]
                     else [])
                  + (if profileSaved && |medications| > 0 && medsSaved
                     then [DeleteMedications(uid), InsertMedications(MedsToRows(medications, uid))] else [])
                  + (if medsSaved && PlanProvided(input) && planSaved
                     then [UpsertPlan(PlanToRow(BuildSafetyPlan(input, planNow), uid))] else [])
    {
      var profile := BuildProfile(diagnosis, cycleTracking, stamp, profileNow);
      assert profile.(id := ProfileId(user, stamp)) == BuildProfile(diagnosis, cycleTracking, ProfileId(user, stamp), profileNow);
      var st := sync.SyncUserProfile(profile, user, stamp, faults.profile);
      if st == Failed { return false; }
      completed := SaveMedicationsAndPlan(sync, user, input, planNow, faults);
    }

    /**
     * The saves after the profile's: the medications if there are any, then the plan if
     * one was given, dated `planNow`.
     */
    method SaveMedicationsAndPlan(sync: SyncCoordinator, user: Option<Id>, input: PlanInput,
                                  planNow: string, faults: SaveFaults)
      returns (completed: bool)
      requires sync.Valid()
      modifies sync`calls, sync.local`medications, sync.local`safetyPlan
      ensures sync.Valid()
      ensures var medsSaved := |medications| == 0 || !faults.medications;
              var planSaved := medsSaved && (!PlanProvided(input) || !faults.plan);
              && completed == planSaved
              && sync.local.medications == (if |medications| > 0 && medsSaved then medications
                                           else old(sync.local.medications))
              && sync.local.safetyPlan == (if medsSaved && PlanProvided(input) && planSaved
                                          then Some(BuildSafetyPlan(input, planNow)) else old(sync.local.safetyPlan))
              && sync.calls == old(sync.calls)
                   + (if user.Some? && |medications| > 0 && medsSaved
                      then [DeleteMedications(user.value), InsertMedications(MedsToRows(medications, user.value))] else [])
                   + (if user.Some? && medsSaved && PlanProvided(input) && planSaved
                      then [UpsertPlan(PlanToRow(BuildSafetyPlan(input, planNow), user.value))] else [])
    {
      var st: Status;
      if |medications| > 0 {
        st := sync.SyncMedications(medications, user, faults.medications);
        if st == Failed { return false; }
      }
      if PlanProvided(input) {
        st := sync.SyncSafetyPlan(BuildSafetyPlan(input, planNow), user, faults.plan);
        if st == Failed { return false; }
      }
      return true;
    }
  }
}
