/**
 * The daily check-in screen: four questionnaire sections shown one at a time,
 * the checklist toggles, and the submission that derives the scores and the mood
 * state from the checklists and saves the entry through the sync coordinator.
 */
module MoodCheckIn {
  import opened Wrappers
  import opened Dates
  import opened Types
  import opened MoodData
  import opened EntryOrder
  import opened Storage
  import opened CloudStorage

  /** The index of the last section, the safety section. */
  const LastSection: int := 3

  /** A checklist of `n` unchecked items. */
  function Unchecked(n: nat): (s: seq<bool>)
    ensures |s| == n && CountTrue(s) == 0
  {
    seq(n, _ => false)
  }

  class CheckInScreen {
    var currentSection: int
    var sectionA: seq<bool>
    var sectionB: seq<bool>
    var sectionC: seq<bool>
    var sectionD: bool
    var showSafetyAlert: bool

    ghost predicate Valid()
      reads this
    {
      0 <= currentSection <= LastSection
    }

    constructor ()
      ensures Valid() && currentSection == 0
      ensures sectionA == Unchecked(ManiaItemCount) && sectionB == Unchecked(DepressionItemCount)
      ensures sectionC == Unchecked(MixedItemCount) && !sectionD && !showSafetyAlert
    {
      currentSection := 0;
      sectionA, sectionB, sectionC := Unchecked(ManiaItemCount), Unchecked(DepressionItemCount), Unchecked(MixedItemCount);
      sectionD, showSafetyAlert := false, false;
    }

    /** The scores the checklists give right now. */
    function CurrentScores(): Scores
      reads this
    {
      ScoresOf(sectionA, sectionB, sectionC)
    }

    method ToggleA(i: nat)
      requires i < |sectionA|
      modifies this`sectionA
      ensures sectionA == old(sectionA)[i := !old(sectionA)[i]]
      ensures CurrentScores().mania == if old(sectionA)[i] then old(CurrentScores()).mania - 1 else old(CurrentScores()).mania + 1
    {
      CountTrueFlip(sectionA, i);
      sectionA := sectionA[i := !sectionA[i]];
    }

    method ToggleB(i: nat)
      requires i < |sectionB|
      modifies this`sectionB
      ensures sectionB == old(sectionB)[i := !old(sectionB)[i]]
      ensures CurrentScores().depression == if old(sectionB)[i] then old(CurrentScores()).depression - 1 else old(CurrentScores()).depression + 1
    {
      CountTrueFlip(sectionB, i);
      sectionB := sectionB[i := !sectionB[i]];
    }

    method ToggleC(i: nat)
      requires i < |sectionC|
      modifies this`sectionC
      ensures sectionC == old(sectionC)[i := !old(sectionC)[i]]
      ensures CurrentScores().mixed == if old(sectionC)[i] then old(CurrentScores()).mixed - 1 else old(CurrentScores()).mixed + 1
    {
      CountTrueFlip(sectionC, i);
      sectionC := sectionC[i := !sectionC[i]];
    }

    /** Checking the safety item raises the alert; unchecking it leaves the alert as it was. */
    method ToggleD(checked: bool)
      modifies this`sectionD, this`showSafetyAlert
      ensures sectionD == checked
      ensures showSafetyAlert == (old(showSafetyAlert) || checked)
    {
      sectionD := checked;
      if checked {
        showSafetyAlert := true;
      }
    }

    /** Moves to the next section, or reports that the last one is done and the check-in submits. */
    method Next() returns (submit: bool)
      requires Valid()
      modifies this`currentSection
      ensures Valid()
      ensures submit <==> old(currentSection) == LastSection
      ensures currentSection == if submit then old(currentSection) else old(currentSection) + 1
    {
      if currentSection < LastSection {
        currentSection := currentSection + 1;
        return false;
      }
      return true;
    }

    /** Moves to the previous section, or reports that the first one is left and the screen closes. */
    method Back() returns (exit: bool)
      requires Valid()
      modifies this`currentSection
      ensures Valid()
      ensures exit <==> old(currentSection) == 0
      ensures currentSection == if exit then 0 else old(currentSection) - 1
    {
      if currentSection > 0 {
        currentSection := currentSection - 1;
        return false;
      }
      return true;
    }

    /** The entry a submission now would save; `id`, `date` and `timestamp` come from the clock. */
    function Submission(id: Id, date: Date, timestamp: int): MoodEntry
      reads this
    {
      BuildEntry(id, date, timestamp, sectionA, sectionB, sectionC, sectionD)
    }

    /**
     * Saves the check-in through the sync coordinator. `saved` says whether the
     * success alert is shown; a rejected device save shows the error alert instead.
     */
    method Submit(sync: SyncCoordinator, user: Option<Id>, id: Id, date: Date, timestamp: int, fault: bool)
      returns (saved: bool)
      requires sync.Valid()
      modifies sync`calls, sync.local`moodEntries
      ensures sync.Valid()
      ensures saved <==> !fault
      ensures var e := Submission(id, date, timestamp);
              && e.scores == CurrentScores()
              && e.moodState == Classify(CurrentScores(), sectionD)
              && sync.local.moodEntries == (if fault then old(sync.local.moodEntries) else AfterSave(old(sync.local.moodEntries), e))
              && sync.calls == old(sync.calls) + if !fault && user.Some? then [UpsertMood(RemoteSchema.MoodToRow(e, user.value))] else []
    {
      var entry := BuildEntry(id, date, timestamp, sectionA, sectionB, sectionC, sectionD);
      var st := sync.SyncMoodEntry(entry, user, fault);
      saved := st == Completed;
    }

    /** Prefills the checklists from the loaded entry dated `today`, if there is one. */
    method LoadToday(entries: seq<MoodEntry>, today: Date)
      modifies this`sectionA, this`sectionB, this`sectionC, this`sectionD
      ensures var i := IndexOfDate(entries, today);
              if 0 <= i
              then sectionA == entries[i].sectionA && sectionB == entries[i].sectionB
                   && sectionC == entries[i].sectionC && sectionD == entries[i].sectionD
              else sectionA == old(sectionA) && sectionB == old(sectionB)
                   && sectionC == old(sectionC) && sectionD == old(sectionD)
    {
      var i := IndexOfDate(entries, today);
      if 0 <= i {
        var e := entries[i];
        sectionA, sectionB, sectionC, sectionD := e.sectionA, e.sectionB, e.sectionC, e.sectionD;
      }
    }
  }

  /** A check-in filled in from a fresh screen is consistent: its stored state can be recomputed. */
  lemma {:induction false} FreshSubmissionIsConsistent(a: seq<bool>, b: seq<bool>, c: seq<bool>, d: bool,
                                                       id: Id, date: Date, timestamp: int)
    requires |a| == ManiaItemCount && |b| == DepressionItemCount && |c| == MixedItemCount
    ensures Consistent(BuildEntry(id, date, timestamp, a, b, c, d))
    ensures var e := BuildEntry(id, date, timestamp, a, b, c, d);
            0 <= e.scores.mania <= 9 && 0 <= e.scores.depression <= 8 && 0 <= e.scores.mixed <= 4
  {
  }
}
