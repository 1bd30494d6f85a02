/** The records the application stores and derives. */
module Types {
  import opened Wrappers
  import opened Dates

  type Id = string

  datatype Diagnosis = Bipolar1 | Bipolar2 | Cyclothymia | Other

  datatype CycleTracking = CycleTracking(
    isAutomatic: bool,
    isIrregular: bool,
    lastPeriodDate: Option<Date>,
    averageCycleLength: int)

  datatype UserProfile = UserProfile(
    id: Id,
    diagnosis: Diagnosis,
    diagnosisOther: Option<string>,
    onboardingComplete: bool,
    cycleTracking: CycleTracking,
    createdAt: string)

  /** `times` holds `HH:MM` strings; it is empty for an as-needed (PRN) medication. */
  datatype Medication = Medication(
    id: Id,
    name: string,
    dose: string,
    times: seq<string>,
    remindersEnabled: bool,
    isPRN: bool)

  datatype CyclePhase = Follicular | Ovulation | Luteal | Menstruation

  datatype MoodState = Elevated | Depressed | Mixed | Baseline | SafetyAlert

  datatype Scores = Scores(mania: int, depression: int, mixed: int)

  datatype SleepQuality = Good | Medium | Bad

  /**
   * The declared type makes `quality` mandatory, but a remote row with hours and no
   * quality is mapped to a sleep record whose quality is null, so it is optional here.
   * The hours are a JavaScript number and may be fractional.
   */
  datatype Sleep = Sleep(hours: real, quality: Option<SleepQuality>)

  /**
   * One day's check-in. `date` is the natural key; `sectionA`..`sectionC` are the
   * mania, depression and mixed checklists and `sectionD` the safety item.
   */
  datatype MoodEntry = MoodEntry(
    id: Id,
    date: Date,
    timestamp: int,
    sectionA: seq<bool>,
    sectionB: seq<bool>,
    sectionC: seq<bool>,
    sectionD: bool,
    scores: Scores,
    moodState: MoodState,
    cyclePhase: Option<CyclePhase>,
    sleep: Option<Sleep>,
    medicationsTaken: Option<map<Id, bool>>)

  datatype PatternType = CycleMood | SleepMood | MedicationMood | Custom

  datatype Confidence = High | Moderate | Low

  datatype Pattern = Pattern(
    id: string,
    kind: PatternType,
    description: string,
    confidence: Confidence,
    frequency: nat,
    totalOccurrences: nat,
    examples: seq<Date>,
    detectedAt: string)

  datatype PlanFormat = Text | Pdf | Image

  datatype EmergencyContact = EmergencyContact(name: string, phone: string)

  datatype SafetyPlan = SafetyPlan(
    content: string,
    format: PlanFormat,
    fileUri: Option<string>,
    emergencyContact: Option<EmergencyContact>,
    updatedAt: string)

  /** The five mood states, each once. */
  function AllMoodStates(): (r: seq<MoodState>)
    ensures |r| == 5
    ensures forall i, j :: 0 <= i < j < |r| ==> r[i] != r[j]
  {
    [Elevated, Depressed, Mixed, Baseline, SafetyAlert]
  }

  /** The four cycle phases, each once. */
  function AllCyclePhases(): (r: seq<CyclePhase>)
    ensures |r| == 4
    ensures forall i, j :: 0 <= i < j < |r| ==> r[i] != r[j]
  {
    [Follicular, Ovulation, Luteal, Menstruation]
  }

  /** The three safety-plan formats, each once. */
  function AllPlanFormats(): (r: seq<PlanFormat>)
    ensures |r| == 3
    ensures forall i, j :: 0 <= i < j < |r| ==> r[i] != r[j]
  {
    [Text, Pdf, Image]
  }

  /** The three confidence tiers, each once. */
  function AllConfidences(): (r: seq<Confidence>)
    ensures |r| == 3
    ensures forall i, j :: 0 <= i < j < |r| ==> r[i] != r[j]
  {
    [High, Moderate, Low]
  }

  /** The enumerations are closed: every value is one of those listed. */
  lemma {:induction false} EnumerationsAreComplete(s: MoodState, p: CyclePhase, f: PlanFormat, c: Confidence)
    ensures s in AllMoodStates() && p in AllCyclePhases()
    ensures f in AllPlanFormats() && c in AllConfidences()
  {
    match s {
      case Elevated => assert AllMoodStates()[0] == s;
      case Depressed => assert AllMoodStates()[1] == s;
      case Mixed => assert AllMoodStates()[2] == s;
      case Baseline => assert AllMoodStates()[3] == s;
      case SafetyAlert => assert AllMoodStates()[4] == s;
    }
    match p {
      case Follicular => assert AllCyclePhases()[0] == p;
      case Ovulation => assert AllCyclePhases()[1] == p;
      case Luteal => assert AllCyclePhases()[2] == p;
      case Menstruation => assert AllCyclePhases()[3] == p;
    }
    match f {
      case Text => assert AllPlanFormats()[0] == f;
      case Pdf => assert AllPlanFormats()[1] == f;
      case Image => assert AllPlanFormats()[2] == f;
    }
    match c {
      case High => assert AllConfidences()[0] == c;
      case Moderate => assert AllConfidences()[1] == c;
      case Low => assert AllConfidences()[2] == c;
    }
  }

  /** The string a mood state is stored and sent under. */
  function MoodStateKey(s: MoodState): string {
    match s
    case Elevated => "elevated"
    case Depressed => "depressed"
    case Mixed => "mixed"
    case Baseline => "baseline"
    case SafetyAlert => "safety-alert"
  }
}
