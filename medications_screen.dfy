/**
 * The medications step of onboarding: a form (the draft), the list being built,
 * and the daily reminders the screen asks the notification service to schedule.
 * Scheduling catches its own errors, so a request never fails the add.
 */
module MedicationsScreen {
  import opened Types

  /** The form's fields. */
  datatype Draft = Draft(name: string, dose: string, time: string, isPRN: bool, remindersEnabled: bool)

  /** The form as it starts and as every successful add leaves it. */
  const BlankDraft := Draft("", "", "08:00", false, true)

  /**
   * The medication a filled-in form becomes. An as-needed (PRN) medication has no
   * times and no reminders; any other has the form's one time and its reminder choice.
   */
  function NewMedication(d: Draft, id: Id): (m: Medication)
    ensures m.id == id && m.name == d.name && m.dose == d.dose && m.isPRN == d.isPRN
    ensures d.isPRN ==> m.times == [] && !m.remindersEnabled
    ensures !d.isPRN ==> m.times == [d.time] && m.remindersEnabled == d.remindersEnabled
    ensures WantsReminder(m) <==> !d.isPRN && d.remindersEnabled
  {
    Medication(id, d.name, d.dose, if d.isPRN then [] else [d.time],
               if d.isPRN then false else d.remindersEnabled, d.isPRN)
  }

  /** Whether adding `m` asks for a reminder. */
  predicate WantsReminder(m: Medication) {
    m.remindersEnabled && !m.isPRN
  }

  /** The list without the medications that have id `id`, in the same order. */
  function WithoutId(ms: seq<Medication>, id: Id): (r: seq<Medication>)
    ensures forall m :: m in r <==> m in ms && m.id != id
    ensures |r| <= |ms|
  {
    if ms == [] then []
    else (if ms[0].id == id then [] else [ms[0]]) + WithoutId(ms[1..], id)
  }

  /** Removal works piece by piece, so it keeps the order of what stays. */
  lemma {:induction false} WithoutIdAppend(a: seq<Medication>, b: seq<Medication>, id: Id)
    ensures WithoutId(a + b, id) == WithoutId(a, id) + WithoutId(b, id)
  {
    if a == [] {
      assert a + b == b;
    } else {
      assert (a + b)[0] == a[0];
      assert (a + b)[1..] == a[1..] + b;
      WithoutIdAppend(a[1..], b, id);
    }
  }

  /** Removing an id no medication has changes nothing. */
  lemma {:induction false} WithoutAbsentId(ms: seq<Medication>, id: Id)
    requires forall k :: 0 <= k < |ms| ==> ms[k].id != id
    ensures WithoutId(ms, id) == ms
  {
    if ms != [] {
      WithoutAbsentId(ms[1..], id);
      assert ms == [ms[0]] + ms[1..];
    }
  }

  /** Adding a medication and removing it again gives the list with that id removed. */
  lemma AddThenRemove(ms: seq<Medication>, d: Draft, id: Id)
    ensures WithoutId(ms + [NewMedication(d, id)], id) == WithoutId(ms, id)
  {
    WithoutIdAppend(ms, [NewMedication(d, id)], id);
    assert [NewMedication(d, id)][1..] == [];
  }

  class MedicationList {
    var medications: seq<Medication>
    var draft: Draft
    /** The medications a reminder was requested for, in request order. */
    var reminders: seq<Medication>

    constructor ()
      ensures medications == [] && draft == BlankDraft && reminders == []
    {
      medications, draft, reminders := [], BlankDraft, [];
    }

    /** Typing into the form. */
    method EditDraft(d: Draft)
      modifies this`draft
      ensures draft == d
    {
      draft := d;
    }

    /**
     * Adds the drafted medication when both name and dose are filled in; otherwise
     * nothing changes. `id` is the clock reading that names it.
     */
    method AddMedication(id: Id) returns (added: bool)
      modifies this
      ensures added <==> old(draft).name != "" && old(draft).dose != ""
      ensures !added ==> medications == old(medications) && draft == old(draft) && reminders == old(reminders)
      ensures added ==> var m := NewMedication(old(draft), id);
                        && medications == old(medications) + [m]
                        && draft == BlankDraft
                        && reminders == old(reminders) + if WantsReminder(m) then [m] else []
    {
      if draft.name != "" && draft.dose != "" {
        var m := NewMedication(draft, id);
        if m.remindersEnabled && !m.isPRN {
          reminders := reminders + [m];
        }
        medications := medications + [m];
        draft := BlankDraft;
        return true;
      }
      return false;
    }

    method RemoveMedication(id: Id)
      modifies this`medications
      ensures medications == WithoutId(old(medications), id)
    {
      medications := WithoutId(medications, id);
    }
  }
}
