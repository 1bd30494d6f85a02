/**
 * The device-local store: four buckets (profile, mood entries, medications and the
 * safety plan, the last one in the device's secure store). Mood entries are upserted
 * by date and kept sorted newest first.
 */
module Storage {
  import opened Wrappers
  import opened Dates
  import opened Types
  import opened EntryOrder

  /** Strictly newest first: dates strictly decrease, so no date occurs twice. */
  predicate NewestFirst(s: seq<MoodEntry>) {
    forall i, j :: 0 <= i < j < |s| ==> Before(s[j].date, s[i].date)
  }

  lemma NewestFirstIsSorted(s: seq<MoodEntry>)
    requires NewestFirst(s)
    ensures Sorted(s, true)
  {
    forall i, j | 0 <= i < j < |s| ensures InOrder(s[i], s[j], true) {
      BeforeAsymmetric(s[i].date, s[j].date);
    }
  }

  /** A newest-first list holds at most one entry per date: the one that has it. */
  lemma OnlyEntryForDate(r: seq<MoodEntry>, e: MoodEntry)
    requires NewestFirst(r) && e in r
    ensures forall x :: x in r && x.date == e.date ==> x == e
  {
    forall x | x in r && x.date == e.date ensures x == e {
      var i :| 0 <= i < |r| && r[i] == x;
      var j :| 0 <= j < |r| && r[j] == e;
      if i < j { BeforeIrreflexive(e.date); }
      if j < i { BeforeIrreflexive(e.date); }
    }
  }

  /** The entries whose date is not `d`, in their order. */
  function Without(s: seq<MoodEntry>, d: Date): (r: seq<MoodEntry>)
    ensures forall x :: x in r <==> x in s && x.date != d
  {
    if s == [] then []
    else (if s[0].date == d then [] else [s[0]]) + Without(s[1..], d)
  }

  /**
   * The read-modify-write of a save: replace the entry with the same date, or append.
   * Either way the list holds `e`, and the entries of every other date stay as they were.
   */
  function Upsert(s: seq<MoodEntry>, e: MoodEntry): (r: seq<MoodEntry>)
    ensures e in r
    ensures Without(r, e.date) == Without(s, e.date)
    ensures |r| == if IndexOfDate(s, e.date) >= 0 then |s| else |s| + 1
  {
    var i := IndexOfDate(s, e.date);
    if 0 <= i then
      WithoutReplace(s, i, e);
      assert s[i := e][i] == e;
      s[i := e]
    else
      WithoutAppendSameDate(s, e);
      assert (s + [e])[|s|] == e;
      s + [e]
  }

  /** The stored list after saving `e`: the entries of the upsert, sorted newest first. */
  function AfterSave(s: seq<MoodEntry>, e: MoodEntry): (r: seq<MoodEntry>)
    ensures Sorted(r, true) && e in r
    ensures forall x :: x in r <==> x in Upsert(s, e)
    ensures |r| == if IndexOfDate(s, e.date) >= 0 then |s| else |s| + 1
  {
    var u := Upsert(s, e);
    var r := Sort(u, true);
    assert forall x :: x in r <==> x in multiset(r);
    assert forall x :: x in u <==> x in multiset(u);
    r
  }

  /** Appending an entry of date `e.date` does not change what is left without that date. */
  lemma {:induction false} WithoutAppendSameDate(s: seq<MoodEntry>, e: MoodEntry)
    ensures Without(s + [e], e.date) == Without(s, e.date)
  {
    if s == [] {
      assert [e][1..] == [];
    } else {
      assert (s + [e])[1..] == s[1..] + [e];
      WithoutAppendSameDate(s[1..], e);
    }
  }

  lemma {:induction false} WithoutReplace(s: seq<MoodEntry>, i: nat, e: MoodEntry)
    requires i < |s| && s[i].date == e.date
    ensures Without(s[i := e], e.date) == Without(s, e.date)
  {
    if i == 0 {
      assert s[i := e][1..] == s[1..];
    } else {
      assert s[i := e][1..] == s[1..][i - 1 := e];
      WithoutReplace(s[1..], i - 1, e);
    }
  }

  /** An entry strictly newer than everything in a newest-first list can go in front of it. */
  lemma PrependNewest(y: MoodEntry, r: seq<MoodEntry>)
    requires NewestFirst(r)
    requires forall x :: x in r ==> Before(x.date, y.date)
    ensures NewestFirst([y] + r)
  {
    var q := [y] + r;
    forall i, j | 0 <= i < j < |q| ensures Before(q[j].date, q[i].date) {
      if i == 0 { assert q[j] == r[j - 1]; assert q[j] in r; }
      else { assert q[i] == r[i - 1] && q[j] == r[j - 1]; }
    }
  }

  /** In a newest-first list the head is newer than everything after it. */
  lemma HeadIsNewest(s: seq<MoodEntry>)
    requires NewestFirst(s) && s != []
    ensures NewestFirst(s[1..])
    ensures forall x :: x in s[1..] ==> Before(x.date, s[0].date)
  {
    forall x | x in s[1..] ensures Before(x.date, s[0].date) {
      var j :| 0 <= j < |s[1..]| && s[1..][j] == x;
      assert s[1 + j] == x;
    }
  }

  /** Insertion adds `x` and nothing else. */
  lemma InsertMembers(x: MoodEntry, t: seq<MoodEntry>, newestFirst: bool)
    ensures forall y :: y in Insert(x, t, newestFirst) <==> y == x || y in t
  {
    var r := Insert(x, t, newestFirst);
    forall y ensures y in r <==> y == x || y in t {
      assert y in r <==> y in multiset(r);
      assert y in t <==> y in multiset(t);
    }
  }

  /** Inserting a new date into a newest-first list keeps it newest first and touches no other date. */
  lemma {:induction false} InsertNewDate(e: MoodEntry, s: seq<MoodEntry>)
    requires NewestFirst(s)
    requires forall x :: x in s ==> x.date != e.date
    ensures NewestFirst(Insert(e, s, true))
    ensures Without(Insert(e, s, true), e.date) == Without(s, e.date)
  {
    if s != [] {
      HeadIsNewest(s);
      BeforeIsStrictTotalOrder(e.date, s[0].date);
      if InOrder(e, s[0], true) {
        forall x | x in s ensures Before(x.date, e.date) {
          if x != s[0] { BeforeTransitive(x.date, s[0].date, e.date); }
        }
        PrependNewest(e, s);
        assert ([e] + s)[1..] == s;
      } else {
        var rest := Insert(e, s[1..], true);
        InsertNewDate(e, s[1..]);
        InsertMembers(e, s[1..], true);
        PrependNewest(s[0], rest);
        assert ([s[0]] + rest)[1..] == rest;
      }
    }
  }

  /** Inserting behind a head that must stay in front. */
  lemma InsertBehindHead(x: MoodEntry, t: seq<MoodEntry>)
    requires t != [] && !InOrder(x, t[0], true)
    ensures Insert(x, t, true) == [t[0]] + Insert(x, t[1..], true)
  {
  }

  /** A new date newer than the head of a newest-first list goes in front of it. */
  lemma InsertNewerThanHead(s: seq<MoodEntry>, e: MoodEntry)
    requires NewestFirst(s) && s != [] && Before(s[0].date, e.date)
    ensures Insert(s[0], Insert(e, s[1..], true), true) == Insert(e, s, true)
  {
    BeforeAsymmetric(s[0].date, e.date);
    InsertAtFront(e, s, true);
    if |s| > 1 {
      BeforeTransitive(s[1].date, s[0].date, e.date);
      BeforeAsymmetric(e.date, s[1].date);
      BeforeAsymmetric(s[0].date, s[1].date);
      assert s[1..][0] == s[1];
    }
    InsertAtFront(e, s[1..], true);
    var mid := [e] + s[1..];
    InsertBehindHead(s[0], mid);
    assert mid[1..] == s[1..];
    InsertAtFront(s[0], s[1..], true);
    assert [s[0]] + s[1..] == s;
  }

  /** A new date older than the head of a newest-first list goes behind it. */
  lemma InsertOlderThanHead(s: seq<MoodEntry>, e: MoodEntry)
    requires NewestFirst(s) && s != [] && Before(e.date, s[0].date)
    ensures Insert(s[0], Insert(e, s[1..], true), true) == Insert(e, s, true)
  {
    HeadIsNewest(s);
    BeforeAsymmetric(e.date, s[0].date);
    InsertBehindHead(e, s);
    var mid := Insert(e, s[1..], true);
    InsertMembers(e, s[1..], true);
    assert mid[0] in mid;
    BeforeAsymmetric(s[0].date, mid[0].date);
    InsertAtFront(s[0], mid, true);
  }

  /** Sorting a newest-first list with a new date appended is inserting that date. */
  lemma {:induction false} SortAppendNewDate(s: seq<MoodEntry>, e: MoodEntry)
    requires NewestFirst(s)
    requires forall x :: x in s ==> x.date != e.date
    ensures Sort(s + [e], true) == Insert(e, s, true)
  {
    if s == [] {
      assert s + [e] == [e];
      SortStep([e], true);
    } else {
      var q := s + [e];
      assert q[0] == s[0] && q[1..] == s[1..] + [e];
      HeadIsNewest(s);
      SortAppendNewDate(s[1..], e);
      SortStep(q, true);
      BeforeIsStrictTotalOrder(e.date, s[0].date);
      if Before(s[0].date, e.date) {
        InsertNewerThanHead(s, e);
      } else {
        InsertOlderThanHead(s, e);
      }
    }
  }

  /**
   * Saving `e` into a newest-first list: the result is newest first, holds `e`,
   * grows by one exactly when the date was new, and keeps the entries of every other
   * date unchanged and in order.
   */
  lemma SaveSpec(s: seq<MoodEntry>, e: MoodEntry)
    requires NewestFirst(s)
    ensures NewestFirst(AfterSave(s, e))
    ensures e in AfterSave(s, e)
    ensures Without(AfterSave(s, e), e.date) == Without(s, e.date)
    ensures |AfterSave(s, e)| == if IndexOfDate(s, e.date) >= 0 then |s| else |s| + 1
  {
    var i := IndexOfDate(s, e.date);
    if 0 <= i {
      SaveReplacing(s, e, i);
    } else {
      SaveAppending(s, e);
    }
  }

  /** `SaveSpec` when the date is present at `i`: the entry is replaced in place. */
  lemma SaveReplacing(s: seq<MoodEntry>, e: MoodEntry, i: nat)
    requires NewestFirst(s) && i == IndexOfDate(s, e.date)
    ensures AfterSave(s, e) == s[i := e]
    ensures NewestFirst(s[i := e]) && e in s[i := e]
    ensures Without(s[i := e], e.date) == Without(s, e.date)
  {
    var u := s[i := e];
    ReplaceSameDate(s, i, e);
    NewestFirstIsSorted(u);
    SortOfSorted(u, true);
    assert Upsert(s, e) == u;
    WithoutReplace(s, i, e);
    assert u[i] == e;
  }

  /** Replacing an entry by one with the same date keeps the order. */
  lemma ReplaceSameDate(s: seq<MoodEntry>, i: nat, e: MoodEntry)
    requires NewestFirst(s) && i < |s| && s[i].date == e.date
    ensures NewestFirst(s[i := e])
  {
    var u := s[i := e];
    forall a, b | 0 <= a < b < |u| ensures Before(u[b].date, u[a].date) {
      assert u[a].date == s[a].date && u[b].date == s[b].date;
    }
  }

  /** `SaveSpec` when the date is new: the entry goes where the date order puts it. */
  lemma SaveAppending(s: seq<MoodEntry>, e: MoodEntry)
    requires NewestFirst(s) && IndexOfDate(s, e.date) < 0
    ensures NewestFirst(AfterSave(s, e)) && e in AfterSave(s, e)
    ensures Without(AfterSave(s, e), e.date) == Without(s, e.date)
    ensures |AfterSave(s, e)| == |s| + 1
  {
    assert forall x :: x in s ==> x.date != e.date;
    SortAppendNewDate(s, e);
    InsertNewDate(e, s);
    assert e in multiset(Insert(e, s, true));
  }

  /** After a save the store holds exactly one entry for the saved date, and it is the saved entry. */
  lemma SaveHoldsOnlyThatEntry(s: seq<MoodEntry>, e: MoodEntry)
    requires NewestFirst(s)
    ensures forall x :: x in AfterSave(s, e) <==> x == e || (x in s && x.date != e.date)
  {
    SaveSpec(s, e);
    OnlyEntryForDate(AfterSave(s, e), e);
  }

  /** Saving the same entry twice stores the same list as saving it once. */
  lemma SaveIdempotent(s: seq<MoodEntry>, e: MoodEntry)
    requires NewestFirst(s)
    ensures AfterSave(AfterSave(s, e), e) == AfterSave(s, e)
  {
    var r := AfterSave(s, e);
    SaveSpec(s, e);
    UpsertPresent(r, e);
    NewestFirstIsSorted(r);
    SortOfSorted(r, true);
  }

  /** Upserting an entry the list already holds changes nothing. */
  lemma UpsertPresent(r: seq<MoodEntry>, e: MoodEntry)
    requires NewestFirst(r) && e in r
    ensures Upsert(r, e) == r
  {
    OnlyEntryForDate(r, e);
    var i := IndexOfDate(r, e.date);
    var j :| 0 <= j < |r| && r[j] == e;
    assert 0 <= i;
    assert r[i] in r;
    assert r[i := e] == r;
  }

  /** Saving entries one after another, as the cache refresh does. */
  function SaveAll(s: seq<MoodEntry>, es: seq<MoodEntry>): seq<MoodEntry>
    decreases |es|
  {
    if es == [] then s else AfterSave(SaveAll(s, es[..|es| - 1]), es[|es| - 1])
  }

  /** One more save extends the batch by its next entry. */
  lemma SaveAllStep(s: seq<MoodEntry>, es: seq<MoodEntry>, i: nat)
    requires i < |es|
    ensures SaveAll(s, es[..i + 1]) == AfterSave(SaveAll(s, es[..i]), es[i])
  {
    assert es[..i + 1][..i] == es[..i];
  }

  /** No later element of `es` has the date of `es[i]`. */
  predicate LastForItsDate(es: seq<MoodEntry>, i: nat)
    requires i < |es|
  {
    forall j :: i < j < |es| ==> es[j].date != es[i].date
  }

  /** One save `r` of `l` after `t`: the last entry of each date of `p + [l]` is still stored. */
  lemma KeepsLastStep(p: seq<MoodEntry>, l: MoodEntry, t: seq<MoodEntry>, r: seq<MoodEntry>)
    requires forall x :: x in r <==> x == l || (x in t && x.date != l.date)
    requires forall i :: 0 <= i < |p| && LastForItsDate(p, i) ==> p[i] in t
    ensures forall i :: 0 <= i < |p + [l]| && LastForItsDate(p + [l], i) ==> (p + [l])[i] in r
  {
    var es := p + [l];
    forall i | 0 <= i < |es| && LastForItsDate(es, i) ensures es[i] in r {
      if i < |p| {
        assert es[i] == p[i] && es[|p|] == l;
        assert LastForItsDate(p, i) by {
          forall j | i < j < |p| ensures p[j].date != p[i].date { assert es[j] == p[j]; }
        }
      }
    }
  }

  /** One save `r` of `l` after `t`: entries of dates not in `p + [l]` stay. */
  lemma UntouchedStep(s: seq<MoodEntry>, p: seq<MoodEntry>, l: MoodEntry, t: seq<MoodEntry>, r: seq<MoodEntry>)
    requires forall x :: x in r <==> x == l || (x in t && x.date != l.date)
    requires forall x :: x in s && (forall j :: 0 <= j < |p| ==> p[j].date != x.date) ==> x in t
    ensures forall x :: x in s && (forall j :: 0 <= j < |p + [l]| ==> (p + [l])[j].date != x.date) ==> x in r
  {
    var es := p + [l];
    forall x | x in s && (forall j :: 0 <= j < |es| ==> es[j].date != x.date) ensures x in r {
      assert es[|p|] == l;
      forall j | 0 <= j < |p| ensures p[j].date != x.date { assert es[j] == p[j]; }
    }
  }

  /** One save `r` of `l` after `t`: every stored entry came from `s` or from `p + [l]`. */
  lemma OriginsStep(s: seq<MoodEntry>, p: seq<MoodEntry>, l: MoodEntry, t: seq<MoodEntry>, r: seq<MoodEntry>)
    requires forall x :: x in r <==> x == l || (x in t && x.date != l.date)
    requires forall x :: x in t ==> x in s || x in p
    ensures forall x :: x in r ==> x in s || x in p + [l]
  {
  }

  /**
   * A batch of saves keeps the list newest first; for every date in the batch the
   * last entry with that date is stored, and stored entries of other dates stay.
   */
  lemma {:induction false} SaveAllSpec(s: seq<MoodEntry>, es: seq<MoodEntry>)
    requires NewestFirst(s)
    ensures NewestFirst(SaveAll(s, es))
    ensures forall i :: 0 <= i < |es| && LastForItsDate(es, i) ==> es[i] in SaveAll(s, es)
    ensures forall x :: x in s && (forall j :: 0 <= j < |es| ==> es[j].date != x.date) ==> x in SaveAll(s, es)
    ensures forall x :: x in SaveAll(s, es) ==> x in s || x in es
    decreases |es|
  {
    if es != [] {
      var p := es[..|es| - 1];
      var l := es[|es| - 1];
      assert es == p + [l];
      var t := SaveAll(s, p);
      SaveAllSpec(s, p);
      SaveHoldsOnlyThatEntry(t, l);
      SaveSpec(t, l);
      KeepsLastStep(p, l, t, SaveAll(s, es));
      UntouchedStep(s, p, l, t, SaveAll(s, es));
      OriginsStep(s, p, l, t, SaveAll(s, es));
    }
  }

  /** Whether a date lies within the optional inclusive bounds. */
  predicate Within(d: Date, start: Option<Date>, end: Option<Date>) {
    (start.None? || !Before(d, start.value)) && (end.None? || !Before(end.value, d))
  }

  function FilterWithin(s: seq<MoodEntry>, start: Option<Date>, end: Option<Date>): (r: seq<MoodEntry>)
    ensures forall x :: x in r <==> x in s && Within(x.date, start, end)
    ensures |r| <= |s|
  {
    if s == [] then []
    else (if Within(s[0].date, start, end) then [s[0]] else []) + FilterWithin(s[1..], start, end)
  }

  /** The range read: the whole list without bounds, otherwise the entries within them. */
  function InRange(s: seq<MoodEntry>, start: Option<Date>, end: Option<Date>): (r: seq<MoodEntry>)
    ensures forall x :: x in r <==> x in s && Within(x.date, start, end)
    ensures start.None? && end.None? ==> r == s
    ensures s == [] ==> r == []
  {
    if start.None? && end.None? then s else FilterWithin(s, start, end)
  }

  /** The range read keeps the stored newest-first order. */
  lemma {:induction false} FilterKeepsOrder(s: seq<MoodEntry>, start: Option<Date>, end: Option<Date>)
    requires NewestFirst(s)
    ensures NewestFirst(FilterWithin(s, start, end))
  {
    if s != [] {
      HeadIsNewest(s);
      FilterKeepsOrder(s[1..], start, end);
      var rest := FilterWithin(s[1..], start, end);
      if Within(s[0].date, start, end) {
        PrependNewest(s[0], rest);
      } else {
        assert FilterWithin(s, start, end) == rest;
      }
    }
  }

  lemma InRangeKeepsOrder(s: seq<MoodEntry>, start: Option<Date>, end: Option<Date>)
    requires NewestFirst(s)
    ensures NewestFirst(InRange(s, start, end))
  {
    if start.Some? || end.Some? { FilterKeepsOrder(s, start, end); }
  }

  class LocalStore {
    var profile: Option<UserProfile>
    var moodEntries: seq<MoodEntry>
    var medications: seq<Medication>
    /** Held in the device's secure store. */
    var safetyPlan: Option<SafetyPlan>

    ghost predicate Valid()
      reads this
    {
      NewestFirst(moodEntries)
    }

    /** An empty device: every getter returns null or []. */
    constructor ()
      ensures Valid()
      ensures profile == None && moodEntries == [] && medications == [] && safetyPlan == None
    {
      profile, moodEntries, medications, safetyPlan := None, [], [], None;
    }

    // In every operation `fault` means the device storage call rejects: the
    // operation throws and the bucket keeps its value.

    method SaveUserProfile(p: UserProfile, fault: bool) returns (st: Status)
      modifies this`profile
      ensures st == if fault then Failed else Completed
      ensures profile == if fault then old(profile) else Some(p)
    {
      if fault { return Failed; }
      profile := Some(p);
      return Completed;
    }

    method GetUserProfile(fault: bool) returns (r: Outcome<Option<UserProfile>>)
      ensures r == if fault then Threw else Done(profile)
    {
      if fault { return Threw; }
      return Done(profile);
    }

    method SaveMoodEntry(e: MoodEntry, fault: bool) returns (st: Status)
      requires Valid()
      modifies this`moodEntries
      ensures Valid()
      ensures st == if fault then Failed else Completed
      ensures moodEntries == if fault then old(moodEntries) else AfterSave(old(moodEntries), e)
    {
      if fault { return Failed; }
      var entries := moodEntries;
      var existingIndex := IndexOfDate(entries, e.date);
      if existingIndex >= 0 {
        entries := entries[existingIndex := e];
      } else {
        entries := entries + [e];
      }
      entries := Sort(entries, true);
      SaveSpec(moodEntries, e);
      moodEntries := entries;
      return Completed;
    }

    method GetMoodEntries(start: Option<Date>, end: Option<Date>, fault: bool)
      returns (r: Outcome<seq<MoodEntry>>)
      ensures r == if fault then Threw else Done(InRange(moodEntries, start, end))
    {
      if fault { return Threw; }
      var entries := moodEntries;
      if start.Some? || end.Some? {
        entries := FilterWithin(entries, start, end);
      }
      return Done(entries);
    }

    method SaveMedications(ms: seq<Medication>, fault: bool) returns (st: Status)
      modifies this`medications
      ensures st == if fault then Failed else Completed
      ensures medications == if fault then old(medications) else ms
    {
      if fault { return Failed; }
      medications := ms;
      return Completed;
    }

    method GetMedications(fault: bool) returns (r: Outcome<seq<Medication>>)
      ensures r == if fault then Threw else Done(medications)
    {
      if fault { return Threw; }
      return Done(medications);
    }

    method SaveSafetyPlan(p: SafetyPlan, fault: bool) returns (st: Status)
      modifies this`safetyPlan
      ensures st == if fault then Failed else Completed
      ensures safetyPlan == if fault then old(safetyPlan) else Some(p)
    {
      if fault { return Failed; }
      safetyPlan := Some(p);
      return Completed;
    }

    method GetSafetyPlan(fault: bool) returns (r: Outcome<Option<SafetyPlan>>)
      ensures r == if fault then Threw else Done(safetyPlan)
    {
      if fault { return Threw; }
      return Done(safetyPlan);
    }

    /**
     * Account deletion: first the three ordinary buckets in one call, then the
     * secure safety-plan bucket. A rejection of the first call leaves everything;
     * a rejection of the second leaves only the safety plan.
     */
    method ClearAllData(plainFault: bool, secureFault: bool) returns (st: Status)
      requires Valid()
      modifies this
      ensures Valid()
      ensures st == if plainFault || secureFault then Failed else Completed
      ensures plainFault ==> profile == old(profile) && moodEntries == old(moodEntries) && medications == old(medications)
      ensures !plainFault ==> profile == None && moodEntries == [] && medications == []
      ensures safetyPlan == if plainFault || secureFault then old(safetyPlan) else None
    {
      if plainFault { return Failed; }
      profile, moodEntries, medications := None, [], [];
      if secureFault { return Failed; }
      safetyPlan := None;
      return Completed;
    }
  }

  /** Saving medications and reading them back returns the saved list. */
  method MedicationsRoundTrip(store: LocalStore, ms: seq<Medication>) returns (r: Outcome<seq<Medication>>)
    modifies store`medications
    ensures r == Done(ms)
  {
    var _ := store.SaveMedications(ms, false);
    r := store.GetMedications(false);
  }

  /** After a successful clear every getter returns null or []. */
  method ClearThenRead(store: LocalStore)
    returns (p: Outcome<Option<UserProfile>>, es: Outcome<seq<MoodEntry>>,
             ms: Outcome<seq<Medication>>, plan: Outcome<Option<SafetyPlan>>)
    requires store.Valid()
    modifies store
    ensures p == Done(None) && es == Done([]) && ms == Done([]) && plan == Done(None)
  {
    var _ := store.ClearAllData(false, false);
    p := store.GetUserProfile(false);
    es := store.GetMoodEntries(None, None, false);
    ms := store.GetMedications(false);
    plan := store.GetSafetyPlan(false);
  }
}
