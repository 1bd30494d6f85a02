# Lunaria core, modelled in Dafny

Lunaria is a mood tracker for people with bipolar-spectrum conditions. Each day the
user fills in a four-section check-in: mania items, depression items, mixed-feature
items and a single safety item. The app then:

- derives three scores and a mood state from the answers;
- keeps the entries, medications, profile and safety plan in an offline-first store:
  every write goes to the device first and is then mirrored to the remote database
  when someone is signed in;
- looks for simple cycle-phase/mood patterns.

This project models that core in Dafny and proves what the code promises about it.

| file | module | models |
|---|---|---|
| `wrappers.dfy` | `Wrappers` | `Option`; the outcome of a call that may throw; JavaScript truthiness of an optional string |
| `dates.dfy` | `Dates` | `YYYY-MM-DD` dates and their order, proved to be a strict total order |
| `types.dfy` | `Types` | the records and enumerations of `src/types/index.ts` |
| `mood_data.dfy` | `MoodData` | questionnaire sizes, score counting, `classifyMoodState` |
| `entry_order.dfy` | `EntryOrder` | sorting entries by date (a stable sort, newest or oldest first) and `findIndex` by date |
| `storage.dfy` | `Storage` | the device store: four buckets as fields of `LocalStore` |
| `remote_schema.dfy` | `RemoteSchema` | the remote rows and the mappings between rows and records |
| `cloud_storage.dfy` | `CloudStorage` | the sync coordinator (`SyncCoordinator`) over the device store and a log of remote requests |
| `insights.dfy` | `Insights` | pattern detection, the mood distribution, the data gate, the chart window |
| `mood_check_in.dfy` | `MoodCheckIn` | the check-in screen's section machine, toggles and submission |
| `onboarding.dfy` | `Onboarding` | the onboarding steps, the records they build and the final save |
| `medications_screen.dfy` | `MedicationsScreen` | adding and removing medications, reminder requests |
| `history.dfy` | `History` | the calendar grid, the entry of a day, month navigation |
| `signup.dfy` | `Signup` | the sign-up form's ordered validation and its request |
| `app_navigator.dfy` | `AppNavigator` | which top-level view is shown, the sign-in and onboarding status |

## How the environment is modelled

- **Device storage.** Each bucket is a field of `Storage.LocalStore`. Every device call
  takes a `fault` flag. When it is set, the call rejects: the exception propagates
  and the bucket is unchanged. `clearAllData` takes two flags, one for the plain
  store's removal and one for the secure store's delete, because they are two calls
  in sequence.
- **The mood-read loop.** The cache refresh in the coordinator's mood read takes
  `failAt`. The device calls are numbered from 0, and the one with that number
  rejects.
- **The session.** The signed-in user (`supabase.auth.getUser()`) is a parameter
  `user: Option<Id>`.
- **The remote database.**
  - The coordinator keeps `calls`: every remote request it issued, in order.
  - Each remote read takes its reply as a parameter, `Rows(data)` or `NoRows`. `NoRows`
    stands for an error or for missing data.
  - The code only logs the answers to remote writes, so the model takes none.
- **Clock readings are parameters.** These are the id stamps, today's date, `now` and
  the current month. Where the code reads the clock twice, the model takes two
  readings: the last onboarding step dates the profile with `profileNow` and the
  safety plan with `planNow`, read after the profile and medication saves.
- **Dates.** Dates are `YYYY-MM-DD` strings, for which lexicographic order is
  chronological order. The model orders dates lexicographically as strings and does
  not require the `YYYY-MM-DD` shape. The `new Date(...)` comparisons of the range
  filter and of the sort are taken at day granularity.
- **Sleep hours** are real numbers, because the remote column may hold a fraction.
- **Sorting.** `Array.prototype.sort` with the date comparator becomes
  `EntryOrder.Sort`, a stable insertion sort. The device store sorts newest first
  and the insights screen oldest first.

What the code does, where one might expect otherwise:

- The full pull after sign-in (`syncAllData`, `src/services/cloudStorage.ts:298-311`)
  runs its four reads in one `try` block. A read that throws therefore skips the
  later reads. The pulls of the four kinds are not isolated from one another.
- The 14-entry gate (`src/screens/insights/InsightsScreen.tsx:140`) does not suppress
  pattern detection. It only chooses between the "early data" card and the "no
  patterns" card. Detected patterns are shown with fewer than 14 entries.
- Remote mood rows are upserted by entry id, not by date. The device cache still
  keeps one entry per date, because every pulled row goes through the date-keyed
  save (`CloudStorage.SameDateRowsKeepTheLater`).

## Model

| member | source | states |
|---|---|---|
| Dates.BeforeIsStrictTotalOrder | src/types/index.ts:35 | the order on date strings is irreflexive, transitive and total, so entries can be kept sorted by it |
| Types.AllMoodStates | src/types/index.ts:30 | there are exactly five mood states, all distinct |
| Types.AllCyclePhases | src/types/index.ts:27 | there are exactly four cycle phases, all distinct |
| Types.AllPlanFormats | src/types/index.ts:77 | a safety plan has one of exactly three formats |
| Types.AllConfidences | src/types/index.ts:67 | a pattern has one of exactly three confidence tiers |
| Types.EnumerationsAreComplete | src/types/index.ts:27-30 | every state, phase, format and confidence value appears in its list |
| MoodData.CountTrue | src/screens/mood/MoodCheckInScreen.tsx:92-94 | a checklist's score is at most its length; it is 0 exactly when nothing is checked and equals the length exactly when everything is |
| MoodData.CountTrueFlip | src/screens/mood/MoodCheckInScreen.tsx:48-64 | flipping one item moves the score by exactly one, down if the item was checked and up otherwise |
| MoodData.Classify | src/constants/moodData.ts:72-105 | safety-alert iff the safety item is checked; elevated iff it is not and mania >= 5 with depression <= 3; depressed iff neither earlier rule fires and depression >= 5 with mania <= 3; mixed iff none of those fires and either mania and depression are both >= 4 or mixed >= 2; baseline iff no earlier rule fires |
| MoodData.ElevatedAndDepressedDisjoint | src/constants/moodData.ts:84-91 | the elevated and depressed rules never both hold |
| MoodData.SafetyOverridesMaximalScores | src/constants/moodData.ts:79-81 | maximal scores 9/8/4 with the safety item give safety-alert |
| MoodData.DefaultBranchExample | src/constants/moodData.ts:99-104 | scores 3/3/1 without safety fit no rule, not even near-baseline, and give baseline through the default branch |
| MoodData.BuildEntry | src/screens/mood/MoodCheckInScreen.tsx:89-112 | the entry records the checklists, and with full-length checklists it is consistent: its scores are the counts and its state is the classification of those counts |
| EntryOrder.Sort | src/services/storage.ts:34 | the sorted list is in date order and is a permutation of the input |
| EntryOrder.SortOfSorted | src/services/storage.ts:34 | sorting a list that is already in order leaves it unchanged |
| EntryOrder.InsertSorted | src/services/storage.ts:34 | inserting into an ordered list keeps it ordered |
| EntryOrder.IndexOfDate | src/services/storage.ts:25 | the index of the first entry with the date, or -1 exactly when no entry has it |
| Storage.NewestFirstIsSorted | src/services/storage.ts:33-34 | the store's invariant (dates strictly descending) means the list is sorted newest first |
| Storage.OnlyEntryForDate | src/services/storage.ts:24-31 | in a store that keeps its invariant, a stored entry is the only one with its date |
| Storage.Upsert | src/services/storage.ts:24-31 | the list holds the entry; the entries of every other date are unchanged and in order; the length is the same if the date was present and one more otherwise |
| Storage.AfterSave | src/services/storage.ts:24-34 | the saved list is sorted newest first, holds the entry and exactly the entries of the upsert, with the upsert's length |
| Storage.SortAppendNewDate | src/services/storage.ts:29-34 | pushing an entry with a new date and sorting places it at its date's position among the others |
| Storage.SaveSpec | src/services/storage.ts:23-37 | after a save the store keeps its invariant and holds the entry; the entries of every other date are unchanged; the length is the same if the date was present and one more otherwise |
| Storage.SaveHoldsOnlyThatEntry | src/services/storage.ts:24-31 | after a save, the stored entries are exactly the new entry plus the old entries of other dates |
| Storage.SaveIdempotent | src/services/storage.ts:23-37 | saving the same entry twice leaves what saving it once leaves |
| Storage.SaveAllSpec | src/services/cloudStorage.ts:153-155 | saving a list one entry at a time keeps the invariant, keeps the last entry given for each date, keeps old entries of untouched dates and adds nothing else |
| Storage.SaveAllStep | src/services/cloudStorage.ts:153-155 | one more iteration of the save loop is one more save |
| Storage.InRange | src/services/storage.ts:39-56 | the range read returns exactly the stored entries with start <= date <= end; with no bounds it returns the whole list, and an empty store gives [] |
| Storage.InRangeKeepsOrder | src/services/storage.ts:46-53 | the filtered list keeps the stored newest-first order |
| Storage.LocalStore.constructor | src/services/storage.ts:17-20 | a store with nothing saved reads null, [], [] and null |
| Storage.LocalStore.SaveUserProfile | src/services/storage.ts:13-15 | the profile bucket becomes the profile, unless the device call rejects |
| Storage.LocalStore.GetUserProfile | src/services/storage.ts:17-20 | returns the profile bucket, or throws |
| Storage.LocalStore.SaveMoodEntry | src/services/storage.ts:23-37 | the entries become the upsert-then-sort of the old ones, the invariant is kept, and a rejected write changes nothing |
| Storage.LocalStore.GetMoodEntries | src/services/storage.ts:39-56 | returns the range read of the stored entries, or throws |
| Storage.LocalStore.SaveMedications | src/services/storage.ts:59-61 | the medications bucket is replaced wholesale |
| Storage.LocalStore.GetMedications | src/services/storage.ts:63-66 | returns the medications bucket, or throws |
| Storage.LocalStore.SaveSafetyPlan | src/services/storage.ts:69-71 | the secure bucket becomes the plan |
| Storage.LocalStore.GetSafetyPlan | src/services/storage.ts:73-76 | returns the secure bucket, or throws |
| Storage.LocalStore.ClearAllData | src/services/storage.ts:79-86 | empties the three plain buckets and then the secure one; a rejection of the first call leaves all four, a rejection of the second leaves only the safety plan |
| Storage.MedicationsRoundTrip | src/services/storage.ts:59-66 | saving medications and reading them back gives the same list |
| Storage.ClearThenRead | src/services/storage.ts:79-86 | after clearing, every getter returns null or [] |
| RemoteSchema.ProfileFromRow | src/services/cloudStorage.ts:52-64 | a profile read from the remote is always onboarded, with the row's id and creation time |
| RemoteSchema.ProfileToRow | src/services/cloudStorage.ts:21-31 | the upserted row is keyed by the signed-in user's id, not the profile's own id, and carries the diagnosis and the cycle settings |
| RemoteSchema.ProfileRoundTrip | src/services/cloudStorage.ts:21-31 | writing a profile and reading it back gives the profile with the user's id, onboarded, and the stored creation time |
| RemoteSchema.MoodToRow | src/services/cloudStorage.ts:85-101 | the row carries the entry's id, the user's id and the entry's date |
| RemoteSchema.MoodFromRow | src/services/cloudStorage.ts:131-150 | the sleep record is present exactly when the hours are truthy; the medications taken are not carried |
| RemoteSchema.MoodsFromRows | src/services/cloudStorage.ts:131 | the rows are mapped one for one, in order |
| RemoteSchema.MoodRoundTrip | src/services/cloudStorage.ts:85-150 | an entry read back from its row is itself, except that zero-hour sleep and the medications taken are dropped |
| RemoteSchema.ZeroHourSleepIsLost | src/services/cloudStorage.ts:146-149 | a sleep record of 0 hours is dropped when the entry is read back from its row |
| RemoteSchema.RoundTripKeepsConsistency | src/services/cloudStorage.ts:85-150 | an entry read back from its row is still consistent |
| RemoteSchema.MedsToRows | src/services/cloudStorage.ts:188-196 | one row per medication, with the user's id and the medication's id |
| RemoteSchema.MedToRow | src/services/cloudStorage.ts:188-196 | the row of one medication keeps its id, is owned by the user, and maps back to the same medication |
| RemoteSchema.MedFromRow | src/services/cloudStorage.ts:214-221 | the medication read from a row keeps its id, name and dose |
| RemoteSchema.MedRowRoundTrip | src/services/cloudStorage.ts:188-221 | a row read back and written again for its owner is the same row |
| RemoteSchema.MedsFromRows | src/services/cloudStorage.ts:214-221 | the rows are mapped one for one, in order |
| RemoteSchema.MedsRoundTrip | src/services/cloudStorage.ts:188-221 | mapping a medication list to insert rows and the rows back gives the same list |
| RemoteSchema.PlanToRow | src/services/cloudStorage.ts:247-254 | the row carries the user's id, and a contact name exactly when the plan has a contact |
| RemoteSchema.PlanFromRow | src/services/cloudStorage.ts:273-282 | content defaults to '', format to text; a contact is present exactly when the name is truthy, and its phone defaults to '' |
| RemoteSchema.PlanRoundTrip | src/services/cloudStorage.ts:247-282 | a plan read back is the plan with the stored update time, and with a contact whose name is '' dropped |
| CloudStorage.ProfileId | src/services/cloudStorage.ts:13 | the profile id is the user's id when there is a user with a non-empty id, and `temp-` plus the stamp without a user or with an empty id |
| CloudStorage.SameDateRowsKeepTheLater | src/services/cloudStorage.ts:84-87 | two pulled rows with one date leave only the later row's entry for that date in the cache |
| CloudStorage.PullsStarted | src/services/cloudStorage.ts:302-310 | a full pull starts between one and four reads, and all four exactly when none of the first three throws |
| CloudStorage.MoodsAfterPull | src/services/cloudStorage.ts:302-310 | after a pull the cached entries are refreshed from the mood reply unless the profile read threw, and are otherwise unchanged |
| CloudStorage.MedsAfterPull | src/services/cloudStorage.ts:302-310 | after a pull the cached medications are refreshed exactly when neither the profile read nor the mood read threw |
| CloudStorage.PlanAfterPull | src/services/cloudStorage.ts:302-310 | after a pull the cached safety plan is refreshed exactly when none of the three earlier reads threw |
| CloudStorage.SyncCoordinator.SyncUserProfile | src/services/cloudStorage.ts:9-38 | saves the profile with its id on the device; the remote upsert happens only with a user and only after the device save succeeds; a device rejection propagates |
| CloudStorage.SyncCoordinator.GetUserProfile | src/services/cloudStorage.ts:40-69 | with a user and a row, caches and returns the row's profile; otherwise returns the cached profile and leaves it as it was |
| CloudStorage.SyncCoordinator.SyncMoodEntry | src/services/cloudStorage.ts:75-104 | saves on the device first; without a user there is no remote call; the upsert is by entry id; a remote error does not fail the write |
| CloudStorage.SyncCoordinator.GetMoodEntries | src/services/cloudStorage.ts:106-163 | with a user and rows, saves every mapped row into the cache in order and returns the mapped list; otherwise returns the device range read and leaves the cache as it was |
| CloudStorage.SyncCoordinator.RefreshCache | src/services/cloudStorage.ts:153-155 | the loop's cache is the saves of the entries before the first rejected one, and it throws exactly when a save rejects |
| CloudStorage.SyncCoordinator.SyncMedications | src/services/cloudStorage.ts:169-201 | saves on the device first; with a user, deletes the user's remote rows and inserts only a non-empty list |
| CloudStorage.SyncCoordinator.GetMedications | src/services/cloudStorage.ts:203-231 | with a user and rows, replaces the cache with the mapped list and returns it; otherwise reads the cache |
| CloudStorage.SyncCoordinator.SyncSafetyPlan | src/services/cloudStorage.ts:237-257 | saves on the device first; the remote upsert happens only with a user |
| CloudStorage.SyncCoordinator.GetSafetyPlan | src/services/cloudStorage.ts:259-292 | with a user and a row, caches and returns the mapped plan; otherwise reads the cache |
| CloudStorage.SyncCoordinator.SyncAllData | src/services/cloudStorage.ts:298-311 | without a user it does nothing; otherwise it reads profile, entries, medications and plan in that order, and the first read that throws ends the pull without further effect |
| CloudStorage.SyncCoordinator.PullAll | src/services/cloudStorage.ts:302-310 | for a signed-in user, the first reads up to the first that throws are issued in order, and each bucket is updated exactly when its read was started |
| CloudStorage.SyncCoordinator.PullAfterProfile | src/services/cloudStorage.ts:305-307 | after a profile read that did not throw: the entries, then the medications and plan only if no earlier read threw |
| CloudStorage.SyncCoordinator.PullMedsAndPlan | src/services/cloudStorage.ts:306-307 | after entries read without a throw: the medications, then the plan only if the medications read did not throw |
| Insights.Count | src/screens/insights/InsightsScreen.tsx:34-35 | a filter's length is at most the list's length |
| Insights.CountPermutation | src/screens/insights/InsightsScreen.tsx:34-48 | the counts do not depend on the order of the entries |
| Insights.CountNarrows | src/screens/insights/InsightsScreen.tsx:35 | the entries of a phase in a state are no more than the entries of the phase |
| Insights.RatioThreshold | src/screens/insights/InsightsScreen.tsx:36 | the ratio test k / n > 0.5 is the integer test 2k > n |
| Insights.EmitsInIntegers | src/screens/insights/InsightsScreen.tsx:36 | a pattern is emitted exactly when its phase has at least 3 entries and twice the matching count exceeds them |
| Insights.DetectPatterns | src/screens/insights/InsightsScreen.tsx:30-60 | at most two patterns; id '1' exactly when elevated entries are more than half of at least three ovulation entries; id '2' likewise for depressed luteal entries; '1' before '2'; both of medium confidence and of the cycle-mood kind |
| Insights.FindPatterns | src/screens/insights/InsightsScreen.tsx:30-60 | the pushing detector gives the patterns described by `Insights.DetectPatterns` |
| Insights.DetectPatternsIgnoresOrder | src/screens/insights/InsightsScreen.tsx:22-27 | detection on the sorted list equals detection on the loaded list |
| Insights.PhaselessEntryIsIgnored | src/screens/insights/InsightsScreen.tsx:34-35 | an entry without a cycle phase changes no pattern |
| Insights.LutealThreshold | src/screens/insights/InsightsScreen.tsx:47-57 | three depressed luteal entries emit the luteal pattern; two do not |
| Insights.StatesPartition | src/screens/insights/InsightsScreen.tsx:62-76 | the five counts of the distribution add up to the number of entries |
| Insights.MoodDistribution | src/screens/insights/InsightsScreen.tsx:62-76 | the counting loop gives, for each state, the number of entries in it, and the counts sum to the number of entries |
| Insights.ShownCards | src/screens/insights/InsightsScreen.tsx:139-140 | the early-data card shows iff there are fewer than 14 entries; the patterns card iff some pattern was detected; the no-patterns card iff none was and there are at least 14 entries |
| Insights.PatternsShowBeforeEnoughData | src/screens/insights/InsightsScreen.tsx:321 | with three entries a detected pattern is shown next to the early-data card |
| Insights.ChartWindow | src/screens/insights/InsightsScreen.tsx:95 | the chart takes the last 30 entries, or all of them if fewer, as a suffix |
| Insights.InsightsScreen.constructor | src/screens/insights/InsightsScreen.tsx:13-14 | the screen starts with no entries and no patterns |
| Insights.InsightsScreen.LoadData | src/screens/insights/InsightsScreen.tsx:20-28 | the entries are the loaded ones sorted oldest first, as a permutation; the patterns are those of the loaded entries |
| MoodCheckIn.Unchecked | src/screens/mood/MoodCheckInScreen.tsx:16-18 | a fresh checklist has the given length and no item checked |
| MoodCheckIn.CheckInScreen.constructor | src/screens/mood/MoodCheckInScreen.tsx:15-20 | the screen starts at section 0 with unchecked lists of 9, 8 and 4 items, no safety item and no alert |
| MoodCheckIn.CheckInScreen.ToggleA | src/screens/mood/MoodCheckInScreen.tsx:48-52 | flips exactly item i of section A, and the mania score moves by one |
| MoodCheckIn.CheckInScreen.ToggleB | src/screens/mood/MoodCheckInScreen.tsx:54-58 | flips exactly item i of section B, and the depression score moves by one |
| MoodCheckIn.CheckInScreen.ToggleC | src/screens/mood/MoodCheckInScreen.tsx:60-64 | flips exactly item i of section C, and the mixed score moves by one |
| MoodCheckIn.CheckInScreen.ToggleD | src/screens/mood/MoodCheckInScreen.tsx:66-71 | checking the safety item raises the alert; unchecking leaves the alert as it was |
| MoodCheckIn.CheckInScreen.Next | src/screens/mood/MoodCheckInScreen.tsx:73-79 | moves forward below section 3 and submits at 3; the section stays in 0..3 |
| MoodCheckIn.CheckInScreen.Back | src/screens/mood/MoodCheckInScreen.tsx:81-87 | moves back above section 0 and exits at 0; the section stays in 0..3 |
| MoodCheckIn.CheckInScreen.Submit | src/screens/mood/MoodCheckInScreen.tsx:89-125 | the saved entry's scores are the checklist counts and its state is their classification; it is saved through the coordinator; success is reported exactly when the device save succeeds |
| MoodCheckIn.CheckInScreen.LoadToday | src/screens/mood/MoodCheckInScreen.tsx:35-46 | the checklists come from the first loaded entry dated today, and stay as they were when there is none |
| MoodCheckIn.FreshSubmissionIsConsistent | src/screens/mood/MoodCheckInScreen.tsx:91-112 | an entry built from full-length checklists is consistent, with its scores in range |
| Onboarding.CycleFromSetup | src/screens/onboarding/OnboardingFlow.tsx:29-44 | automatic iff the preference is auto; the cycle length is always 28; an empty last-period date becomes absent |
| Onboarding.BuildProfile | src/screens/onboarding/OnboardingFlow.tsx:58-68 | the profile is onboarded; the diagnosis defaults to other; missing cycle tracking defaults to manual, regular, 28 days |
| Onboarding.Split | src/screens/onboarding/OnboardingFlow.tsx:84-85 | a split has at least one piece and no piece contains the separator |
| Onboarding.JoinSplit | src/screens/onboarding/OnboardingFlow.tsx:84-85 | joining the pieces of a split gives back the string |
| Onboarding.SplitJoin | src/screens/onboarding/OnboardingFlow.tsx:84-85 | splitting joined separator-free pieces gives back the pieces |
| Onboarding.Contact | src/screens/onboarding/OnboardingFlow.tsx:83-86 | a contact is present exactly when the input is truthy, and neither its name nor its phone contains a comma |
| Onboarding.ContactSplitsNameAndPhone | src/screens/onboarding/OnboardingFlow.tsx:83-86 | `name,phone,…` gives that name and phone, and the later pieces are dropped |
| Onboarding.ContactWithoutComma | src/screens/onboarding/OnboardingFlow.tsx:84-85 | a contact without a comma is all name, with phone '' |
| Onboarding.BuildSafetyPlan | src/screens/onboarding/OnboardingFlow.tsx:79-88 | format image iff an image was given, text otherwise; content defaults to ''; the contact is split as above |
| Onboarding.OnboardingFlow.constructor | src/screens/onboarding/OnboardingFlow.tsx:16-18 | the flow starts at the welcome step with no diagnosis, no cycle settings and no medications |
| Onboarding.OnboardingFlow.WelcomeNext | src/screens/onboarding/OnboardingFlow.tsx:20-22 | step 0 moves to 1 |
| Onboarding.OnboardingFlow.ConditionsNext | src/screens/onboarding/OnboardingFlow.tsx:24-27 | records the diagnosis and moves to step 2 |
| Onboarding.OnboardingFlow.CycleSetupNext | src/screens/onboarding/OnboardingFlow.tsx:29-44 | records the mapped cycle settings and moves to step 3 |
| Onboarding.OnboardingFlow.MedicationsNext | src/screens/onboarding/OnboardingFlow.tsx:46-49 | records the medications and moves to step 4 |
| Onboarding.OnboardingFlow.Back | src/screens/onboarding/OnboardingFlow.tsx:105-123 | each step's back button returns to the step before |
| Onboarding.OnboardingFlow.SafetyPlanComplete | src/screens/onboarding/OnboardingFlow.tsx:51-97 | saves the profile, then the medications only if there are any, then the plan only if text or an image was given; the first rejected save stops the rest and the flow does not complete; for a signed-in user the remote requests are, in order, the profile upsert, the medications' delete and insert, and the plan upsert, each only when its device save ran and succeeded; the profile and the plan are dated by two separate clock readings |
| Onboarding.OnboardingFlow.SaveMedicationsAndPlan | src/screens/onboarding/OnboardingFlow.tsx:72-91 | the saves after the profile: medications only if there are any, the plan only if given, a rejection stopping the rest; the remote requests follow the device saves that succeeded, in that order |
| MedicationsScreen.NewMedication | src/screens/onboarding/MedicationsScreen.tsx:44-56 | a PRN medication has no times and no reminders; any other has the form's time and its reminder choice; a reminder is requested exactly when the form is not PRN and has reminders on |
| MedicationsScreen.WithoutId | src/screens/onboarding/MedicationsScreen.tsx:63-65 | removal keeps exactly the medications with another id |
| MedicationsScreen.WithoutIdAppend | src/screens/onboarding/MedicationsScreen.tsx:63-65 | removal works piece by piece, so the order of the rest is kept |
| MedicationsScreen.WithoutAbsentId | src/screens/onboarding/MedicationsScreen.tsx:63-65 | removing an id no medication has changes nothing |
| MedicationsScreen.AddThenRemove | src/screens/onboarding/MedicationsScreen.tsx:58-65 | adding a medication and removing its id leaves the list with that id removed |
| MedicationsScreen.MedicationList.constructor | src/screens/onboarding/MedicationsScreen.tsx:15-22 | the list starts empty with the blank form (time 08:00, not PRN, reminders on) |
| MedicationsScreen.MedicationList.EditDraft | src/screens/onboarding/MedicationsScreen.tsx:82-98 | typing into the form replaces the draft and nothing else |
| MedicationsScreen.MedicationList.AddMedication | src/screens/onboarding/MedicationsScreen.tsx:42-61 | does nothing unless name and dose are filled in; otherwise appends the new medication, resets the form and requests a reminder when the rule says so |
| MedicationsScreen.MedicationList.RemoveMedication | src/screens/onboarding/MedicationsScreen.tsx:63-65 | the list loses every medication with the id |
| History.MonthDays | src/screens/history/HistoryScreen.tsx:24-45 | the grid has startPadding + daysInMonth cells: startPadding blanks, then days 1..daysInMonth in order |
| History.EntryForDate | src/screens/history/HistoryScreen.tsx:47-51 | none for a blank cell; otherwise the first entry with the cell's date, and none exactly when no entry has it |
| History.MoodLabel | src/screens/history/HistoryScreen.tsx:67-76 | the label is 'Unknown' exactly when the string is none of the five stored state keys |
| History.MoodLabelsAreDistinct | src/screens/history/HistoryScreen.tsx:67-76 | the five states have five distinct labels, none of them 'Unknown' |
| History.HistoryScreen.constructor | src/screens/history/HistoryScreen.tsx:10-13 | the screen starts with no entries, at the present month, with nothing selected and the detail closed |
| History.HistoryScreen.LoadEntries | src/screens/history/HistoryScreen.tsx:19-22 | the screen shows the loaded entries |
| History.HistoryScreen.PrevMonth | src/screens/history/HistoryScreen.tsx:78-80 | always goes to the previous month |
| History.HistoryScreen.NextMonth | src/screens/history/HistoryScreen.tsx:82-88 | goes to the next month only if it has begun, so it never moves past the present month |
| History.HistoryScreen.Today | src/screens/history/HistoryScreen.tsx:90-92 | goes to the present month |
| History.HistoryScreen.DayClick | src/screens/history/HistoryScreen.tsx:94-100 | opens the detail of the day's entry only when there is one, and changes nothing otherwise |
| Signup.ValidationError | src/screens/auth/SignupScreen.tsx:32-45 | 'Please fill in all fields' iff a field is empty; 'Passwords do not match' iff all are filled and the passwords differ; the length message iff they match but are shorter than 6; no error otherwise |
| Signup.FirstFailureWins | src/screens/auth/SignupScreen.tsx:32-45 | the checks run in order: an empty field is reported even when the passwords also differ |
| Signup.Trim | src/screens/auth/SignupScreen.tsx:50 | the trimmed email is a slice of the input with only white space cut from its two ends, and starts and ends with no white space |
| Signup.TrimIdempotent | src/screens/auth/SignupScreen.tsx:50 | trimming twice is trimming once |
| Signup.SignupForm.constructor | src/screens/auth/SignupScreen.tsx:25-29 | the form starts with empty fields, not loading, no error and no request sent |
| Signup.SignupForm.HandleSignup | src/screens/auth/SignupScreen.tsx:31-64 | an invalid form shows its first message and sends nothing; a valid one clears the error and sends the trimmed email and the untouched password while loading; loading ends; an auth error shows its message, and otherwise the screen moves on |
| Signup.SignupForm.SetFields | src/screens/auth/SignupScreen.tsx:124-151 | typing sets the three fields and nothing else |
| AppNavigator.Display | src/navigation/AppNavigator.tsx:87-138 | loading iff the sign-in status is unknown, or the user is signed in and the onboarding status is unknown; the sign-in flow iff signed out; onboarding iff signed in and not onboarded; otherwise the current main screen, with the bottom bar exactly off the check-in, privacy and about screens |
| AppNavigator.SignedOutShowsAuthFlow | src/navigation/AppNavigator.tsx:96-102 | signed out, the sign-in flow shows whatever the onboarding status |
| AppNavigator.OnboardingStatus | src/navigation/AppNavigator.tsx:55-63 | false when the profile read throws; true for a remote profile; the cached profile's flag otherwise, and false with no profile |
| AppNavigator.FailedStatusReadShowsOnboarding | src/navigation/AppNavigator.tsx:59-62 | a signed-in user whose profile read throws is shown onboarding |
| AppNavigator.Navigator.constructor | src/navigation/AppNavigator.tsx:23-25 | both statuses start unknown and the screen at Home, so the loading view shows at mount |
| AppNavigator.Navigator.CheckOnboardingStatus | src/navigation/AppNavigator.tsx:55-63 | the onboarding status becomes the profile's flag, or false on a throw; only the cached profile changes in the device cache |
| AppNavigator.Navigator.SignedIn | src/navigation/AppNavigator.tsx:36 | the full pull, then the onboarding check, in that order; the call log, the onboarding status and every device bucket are stated |
| AppNavigator.Navigator.AuthStateChanged | src/navigation/AppNavigator.tsx:32-41 | signed in iff there is a session; a session runs the pull and the check, with the call log and every device bucket stated as for SignedIn; no session resets the onboarding status to unknown and leaves the call log and the device cache unchanged |
| AppNavigator.Navigator.CheckAuthStatus | src/navigation/AppNavigator.tsx:46-53 | signed in iff there is a user, and then the pull and the check run, with the call log and every device bucket stated as for SignedIn; with no user the call log and the device cache are unchanged |
| AppNavigator.Navigator.AuthComplete | src/navigation/AppNavigator.tsx:65-69 | signed in, the pull and the check run, with the call log and every device bucket stated as for SignedIn, and the view is onboarding or the main app |
| AppNavigator.Navigator.OnboardingComplete | src/navigation/AppNavigator.tsx:71-73 | onboarded, so a signed-in user sees the main app |
| AppNavigator.Navigator.Navigate | src/navigation/AppNavigator.tsx:75-77 | the current screen becomes the one asked for |
| AppNavigator.Navigator.Logout | src/navigation/AppNavigator.tsx:79-84 | signed out, onboarding unknown, screen Home, and the sign-in flow shows |

## Left out

- Floating point: the rounded percentage inside pattern descriptions, `getAverageScores` with `toFixed`, and the thinning of chart labels (`src/screens/insights/InsightsScreen.tsx:78-92, 118`). The ratio test of the detector is modelled over the reals and proved equal to its integer form.
- Sleep hours are real numbers, so a `NaN` in the remote column is not modelled. `NaN` is falsy in JavaScript and would drop the sleep record like 0 does.
- The description text of a detected pattern is not modelled, because it embeds a floating-point percentage.
- Time zones and `toISOString`. A calendar cell's key, today's date and the month index are inputs, and so is the weekday behind `startPadding`.
- Notification scheduling (expo-notifications). The medications screen records which medications a reminder was requested for. Scheduling catches its own errors, so it cannot fail an add.
- A failing `getUser` call and the Supabase client itself. The session is an input, and every remote read's answer is an input.
- Async interleaving between cache refreshes and user writes. Every operation is modelled as running to completion in sequence, as the awaits in the code do.
- In `onAuthStateChange` the pull and the onboarding check are chained with `.then` and not awaited. The model runs them to completion before the next event.
- MoodCheckIn.CheckInScreen.ToggleA: requires the index to be inside the list. In JavaScript an index past the end extends the array, and no caller passes one. The same holds for ToggleB and ToggleC.
- Signup.ValidationError: the password length counts characters, where JavaScript counts UTF-16 code units. The two differ for characters outside the Basic Multilingual Plane.
- Signup.SignupForm.HandleSignup: a `signUp` call that throws instead of returning an error is not modelled. Such a call leaves `loading` set in the code.
- History.MoodLabel: keys inherited from `Object.prototype`, such as `toString`, find a function in the label table instead of 'Unknown'. The model treats every unknown string as 'Unknown'.
- Google sign-in, the login screen, the auth flow wrapper and `signOut`'s remote effect. These are calls into the auth service with no logic of their own.
- Presentation: styles, the theme, components, charts, static screens, and static content (the about and privacy texts).
- Screens whose logic is a label lookup or a single condition: home, profile, welcome, conditions, cycle set-up and the safety-plan document picker.
- Protection against stale refreshes, per-kind isolation of the full pull, and timeouts: the code has none of them, so the model has none either.
- RemoteSchema.MedsRoundTrip: states that mapping a list to rows and back gives the same list. It does not promise that a read after the insert returns the rows in insertion order: the select in `getMedications` has no `order`, and the database's row order is not modelled. The answers to the delete and the insert are not modelled either, because the code only logs them.
