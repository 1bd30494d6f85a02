/**
 * The rows of the remote database tables and the mappings between them and the
 * application's records, as the sync coordinator writes and reads them. Column
 * names are the record fields in snake case; values a column may hold as null
 * are `Option`s.
 */
module RemoteSchema {
  import opened Wrappers
  import opened Dates
  import opened Types
  import opened MoodData

  // ---------------------------------------------------------------- profiles

  /** A row of `profiles` as the coordinator upserts it. */
  datatype ProfileRow = ProfileRow(
    id: Id,
    diagnosis: Diagnosis,
    diagnosisOther: Option<string>,
    cycleTrackingAutomatic: bool,
    cycleTrackingIrregular: bool,
    lastPeriodDate: Option<Date>,
    averageCycleLength: int)

  /** A `profiles` row as read back: the database adds `created_at`. */
  datatype StoredProfile = StoredProfile(row: ProfileRow, createdAt: string)

  /** The upserted row: keyed by the signed-in user, never by the profile's own id. */
  function ProfileToRow(p: UserProfile, uid: Id): (r: ProfileRow)
    ensures r.id == uid
    ensures r.diagnosis == p.diagnosis && r.diagnosisOther == p.diagnosisOther
    ensures r.cycleTrackingAutomatic == p.cycleTracking.isAutomatic
    ensures r.cycleTrackingIrregular == p.cycleTracking.isIrregular
    ensures r.lastPeriodDate == p.cycleTracking.lastPeriodDate
    ensures r.averageCycleLength == p.cycleTracking.averageCycleLength
  {
    ProfileRow(uid, p.diagnosis, p.diagnosisOther,
               p.cycleTracking.isAutomatic, p.cycleTracking.isIrregular,
               p.cycleTracking.lastPeriodDate, p.cycleTracking.averageCycleLength)
  }

  /** The profile read from a row: whoever has a remote profile has finished onboarding. */
  function ProfileFromRow(s: StoredProfile): (p: UserProfile)
    ensures p.onboardingComplete
    ensures p.id == s.row.id && p.createdAt == s.createdAt
  {
    UserProfile(s.row.id, s.row.diagnosis, s.row.diagnosisOther, true,
                CycleTracking(s.row.cycleTrackingAutomatic, s.row.cycleTrackingIrregular,
                              s.row.lastPeriodDate, s.row.averageCycleLength),
                s.createdAt)
  }

  /**
   * Writing a profile and reading it back keeps every field the user chose and
   * replaces only the id (by the user's id), the onboarding flag (by true) and the
   * creation time (by the database's).
   */
  lemma ProfileRoundTrip(p: UserProfile, uid: Id, createdAt: string)
    ensures ProfileFromRow(StoredProfile(ProfileToRow(p, uid), createdAt))
         == p.(id := uid, onboardingComplete := true, createdAt := createdAt)
  {
  }

  // ------------------------------------------------------------ mood entries

  /** A row of `mood_entries`. The local `medicationsTaken` map has no column. */
  datatype MoodRow = MoodRow(
    id: Id,
    userId: Id,
    entryDate: Date,
    timestamp: int,
    sectionA: seq<bool>,
    sectionB: seq<bool>,
    sectionC: seq<bool>,
    sectionD: bool,
    maniaScore: int,
    depressionScore: int,
    mixedScore: int,
    moodState: MoodState,
    cyclePhase: Option<CyclePhase>,
    sleepHours: Option<real>,
    sleepQuality: Option<SleepQuality>)

  /** `entry.sleep?.hours` and `entry.sleep?.quality`. */
  function SleepHoursOf(s: Option<Sleep>): Option<real> {
    if s.Some? then Some(s.value.hours) else None
  }

  function SleepQualityOf(s: Option<Sleep>): Option<SleepQuality> {
    if s.Some? then s.value.quality else None
  }

  function MoodToRow(e: MoodEntry, uid: Id): (r: MoodRow)
    ensures r.id == e.id && r.userId == uid && r.entryDate == e.date
  {
    MoodRow(e.id, uid, e.date, e.timestamp, e.sectionA, e.sectionB, e.sectionC, e.sectionD,
            e.scores.mania, e.scores.depression, e.scores.mixed, e.moodState, e.cyclePhase,
            SleepHoursOf(e.sleep), SleepQualityOf(e.sleep))
  }

  /** JavaScript truthiness of a nullable number: present and not zero. */
  predicate TruthyNumber(n: Option<real>) {
    n.Some? && n.value != 0.0
  }

  /** The entry a row maps to: a sleep record only when the hours are truthy. */
  function MoodFromRow(r: MoodRow): (e: MoodEntry)
    ensures e.id == r.id && e.date == r.entryDate
    ensures e.sleep.Some? <==> TruthyNumber(r.sleepHours)
    ensures e.medicationsTaken == None
  {
    MoodEntry(r.id, r.entryDate, r.timestamp, r.sectionA, r.sectionB, r.sectionC, r.sectionD,
              Scores(r.maniaScore, r.depressionScore, r.mixedScore), r.moodState, r.cyclePhase,
              if TruthyNumber(r.sleepHours) then Some(Sleep(r.sleepHours.value, r.sleepQuality)) else None,
              None)
  }

  /** What survives a trip through the remote table: all but zero-hour sleep and the medications map. */
  function Transported(e: MoodEntry): MoodEntry {
    e.(sleep := if e.sleep.Some? && e.sleep.value.hours != 0.0 then e.sleep else None,
       medicationsTaken := None)
  }

  /**
   * Writing an entry and reading it back gives the entry with its sleep record
   * dropped when it had zero hours and its medications map dropped.
   */
  lemma MoodRoundTrip(e: MoodEntry, uid: Id)
    ensures MoodFromRow(MoodToRow(e, uid)) == Transported(e)
  {
  }

  /** An entry with a zero-hour, good-quality night loses its sleep record on the way back. */
  lemma ZeroHourSleepIsLost(e: MoodEntry, uid: Id)
    requires e.sleep == Some(Sleep(0.0, Some(Good)))
    ensures MoodFromRow(MoodToRow(e, uid)).sleep == None
    ensures MoodFromRow(MoodToRow(e, uid)) != e
  {
  }

  /** The trip keeps the checklists, scores and state, so a consistent entry stays consistent. */
  lemma RoundTripKeepsConsistency(e: MoodEntry, uid: Id)
    requires Consistent(e)
    ensures Consistent(MoodFromRow(MoodToRow(e, uid)))
  {
  }

  /** The mapping of every row of a reply, in reply order. */
  function MoodsFromRows(rows: seq<MoodRow>): (es: seq<MoodEntry>)
    ensures |es| == |rows|
    ensures forall i :: 0 <= i < |rows| ==> es[i] == MoodFromRow(rows[i])
  {
    if rows == [] then [] else [MoodFromRow(rows[0])] + MoodsFromRows(rows[1..])
  }

  // ------------------------------------------------------------- medications

  datatype MedicationRow = MedicationRow(
    id: Id,
    userId: Id,
    name: string,
    dose: string,
    times: seq<string>,
    remindersEnabled: bool,
    isPRN: bool)

  /** The inserted row of one medication: its own id, owned by the user. */
  function MedToRow(m: Medication, uid: Id): (r: MedicationRow)
    ensures r.id == m.id && r.userId == uid
    ensures MedFromRow(r) == m
  {
    MedicationRow(m.id, uid, m.name, m.dose, m.times, m.remindersEnabled, m.isPRN)
  }

  /** The medication a row maps to; only the owner column is dropped. */
  function MedFromRow(r: MedicationRow): (m: Medication)
    ensures m.id == r.id && m.name == r.name && m.dose == r.dose
  {
    Medication(r.id, r.name, r.dose, r.times, r.remindersEnabled, r.isPRN)
  }

  /** A row read back and written again for its owner is the same row. */
  lemma MedRowRoundTrip(r: MedicationRow)
    ensures MedToRow(MedFromRow(r), r.userId) == r
  {
  }

  /** The inserted rows: one per medication, in list order, all owned by the user. */
  function MedsToRows(ms: seq<Medication>, uid: Id): (rows: seq<MedicationRow>)
    ensures |rows| == |ms|
    ensures forall i :: 0 <= i < |rows| ==> rows[i].userId == uid && rows[i].id == ms[i].id
  {
    if ms == [] then [] else [MedToRow(ms[0], uid)] + MedsToRows(ms[1..], uid)
  }

  /** The mapping of every row of a reply, in reply order. */
  function MedsFromRows(rows: seq<MedicationRow>): (ms: seq<Medication>)
    ensures |ms| == |rows|
    ensures forall i :: 0 <= i < |rows| ==> ms[i] == MedFromRow(rows[i])
  {
    if rows == [] then [] else [MedFromRow(rows[0])] + MedsFromRows(rows[1..])
  }

  /** Mapping a medication list to its insert rows and the rows back gives the same list. */
  lemma {:induction false} MedsRoundTrip(ms: seq<Medication>, uid: Id)
    ensures MedsFromRows(MedsToRows(ms, uid)) == ms
  {
    if ms != [] {
      MedsRoundTrip(ms[1..], uid);
      assert MedsToRows(ms, uid)[1..] == MedsToRows(ms[1..], uid);
      assert ms == [ms[0]] + ms[1..];
    }
  }

  // ------------------------------------------------------------ safety plans

  /** A row of `safety_plans`; every column but the owner may be null. */
  datatype SafetyPlanRow = SafetyPlanRow(
    userId: Id,
    content: Option<string>,
    format: Option<PlanFormat>,
    fileUri: Option<string>,
    contactName: Option<string>,
    contactPhone: Option<string>)

  /** A `safety_plans` row as read back: the database adds `updated_at`. */
  datatype StoredPlan = StoredPlan(row: SafetyPlanRow, updatedAt: string)

  function PlanToRow(p: SafetyPlan, uid: Id): (r: SafetyPlanRow)
    ensures r.userId == uid
    ensures r.contactName.Some? <==> p.emergencyContact.Some?
  {
    SafetyPlanRow(uid, Some(p.content), Some(p.format), p.fileUri,
                  if p.emergencyContact.Some? then Some(p.emergencyContact.value.name) else None,
                  if p.emergencyContact.Some? then Some(p.emergencyContact.value.phone) else None)
  }

  /**
   * The plan a row maps to: empty content and the text format when those columns
   * are null, and a contact only when the contact name is truthy, with an empty
   * phone when the phone is null.
   */
  function PlanFromRow(s: StoredPlan): (p: SafetyPlan)
    ensures p.content == (if Truthy(s.row.content) then s.row.content.value else "")
    ensures p.format == (if s.row.format.Some? then s.row.format.value else Text)
    ensures p.emergencyContact.Some? <==> Truthy(s.row.contactName)
    ensures p.emergencyContact.Some? ==> p.emergencyContact.value.name == s.row.contactName.value
    ensures p.emergencyContact.Some? ==>
              p.emergencyContact.value.phone == (if Truthy(s.row.contactPhone) then s.row.contactPhone.value else "")
    ensures p.fileUri == s.row.fileUri && p.updatedAt == s.updatedAt
  {
    SafetyPlan(OrEmpty(s.row.content), s.row.format.GetOr(Text), s.row.fileUri,
               if Truthy(s.row.contactName)
               then Some(EmergencyContact(s.row.contactName.value, OrEmpty(s.row.contactPhone)))
               else None,
               s.updatedAt)
  }

  /**
   * Writing a plan and reading it back keeps it, except that the database's
   * update time replaces the plan's and a contact with an empty name is dropped.
   */
  lemma PlanRoundTrip(p: SafetyPlan, uid: Id, updatedAt: string)
    ensures PlanFromRow(StoredPlan(PlanToRow(p, uid), updatedAt))
         == p.(updatedAt := updatedAt,
               emergencyContact := if p.emergencyContact.Some? && p.emergencyContact.value.name != ""
                                   then p.emergencyContact else None)
  {
  }
}
