/**
 * The offline-first sync coordinator. Every write goes to the device store first
 * and then, when someone is signed in, to the remote database; every read asks
 * the remote first when someone is signed in, caches what it gets in the device
 * store and returns it, and otherwise falls back to the device store.
 *
 * The session is a parameter `user` (the signed-in user's id, if any). The remote
 * is represented by the log `calls` of the requests the coordinator issues and by
 * reply parameters for the reads: `Rows(data)` is a successful reply with data,
 * `NoRows` an error or a reply without data. Write replies are only logged by the
 * application, so the model takes none. In every operation a `fault` says that the
 * device store call the operation makes rejects; the rejection is not caught.
 */
module CloudStorage {
  import opened Wrappers
  import opened Dates
  import opened Types
  import opened EntryOrder
  import opened Storage
  import opened RemoteSchema

  datatype RemoteCall =
    | UpsertProfile(profile: ProfileRow)
    | SelectProfile(uid: Id)
    | UpsertMood(mood: MoodRow)
    | SelectMoods(uid: Id, from: Option<Date>, to: Option<Date>)
    | DeleteMedications(uid: Id)
    | InsertMedications(medications: seq<MedicationRow>)
    | SelectMedications(uid: Id)
    | UpsertPlan(plan: SafetyPlanRow)
    | SelectPlan(uid: Id)

  datatype Reply<T> = Rows(data: T) | NoRows

  /** The id a synced profile gets: the user's, or a temporary one made from a time stamp. */
  function ProfileId(user: Option<Id>, stamp: string): (id: Id)
    ensures user.Some? && user.value != "" ==> id == user.value
    ensures user.None? || user.value == "" ==> id == "temp-" + stamp
  {
    if user.Some? && user.value != "" then user.value else "temp-" + stamp
  }

  // Effect of each remote read on the cached bucket, when someone is signed in.

  function ProfilePulled(cached: Option<UserProfile>, reply: Reply<StoredProfile>, fault: bool): Option<UserProfile> {
    if reply.Rows? && !fault then Some(ProfileFromRow(reply.data)) else cached
  }

  /** The entries of a mood reply, and how many of them the cache refresh saves before a fault. */
  function PulledMoods(reply: Reply<seq<MoodRow>>): seq<MoodEntry> {
    if reply.Rows? then MoodsFromRows(reply.data) else []
  }

  function Saved(reply: Reply<seq<MoodRow>>, failAt: nat): (k: nat)
    ensures k <= |PulledMoods(reply)|
  {
    if failAt < |PulledMoods(reply)| then failAt else |PulledMoods(reply)|
  }

  function MoodsPulled(cached: seq<MoodEntry>, reply: Reply<seq<MoodRow>>, failAt: nat): seq<MoodEntry> {
    SaveAll(cached, PulledMoods(reply)[..Saved(reply, failAt)])
  }

  /** Whether the mood read throws: a cache save faults, or the fallback read does. */
  predicate MoodPullThrows(reply: Reply<seq<MoodRow>>, failAt: nat) {
    if reply.Rows? then failAt < |PulledMoods(reply)| else failAt == 0
  }

  function MedsPulled(cached: seq<Medication>, reply: Reply<seq<MedicationRow>>, fault: bool): seq<Medication> {
    if reply.Rows? && !fault then MedsFromRows(reply.data) else cached
  }

  function PlanPulled(cached: Option<SafetyPlan>, reply: Reply<StoredPlan>, fault: bool): Option<SafetyPlan> {
    if reply.Rows? && !fault then Some(PlanFromRow(reply.data)) else cached
  }

  /**
   * Remote rows are keyed by id, the device cache by date: when a reply holds two
   * rows for one date, the cache keeps only the entry of the later row.
   */
  lemma SameDateRowsKeepTheLater(cached: seq<MoodEntry>, r1: MoodRow, r2: MoodRow)
    requires NewestFirst(cached) && r1.entryDate == r2.entryDate
    ensures MoodFromRow(r2) in MoodsPulled(cached, Rows([r1, r2]), 2)
    ensures forall x :: x in MoodsPulled(cached, Rows([r1, r2]), 2) && x.date == r2.entryDate ==> x == MoodFromRow(r2)
  {
    var es := PulledMoods(Rows([r1, r2]));
    assert es == [MoodFromRow(r1), MoodFromRow(r2)];
    assert es[..Saved(Rows([r1, r2]), 2)] == es;
    SaveAllSpec(cached, es);
    assert LastForItsDate(es, 1);
    OnlyEntryForDate(SaveAll(cached, es), MoodFromRow(r2));
  }

  /** The `k`th read of a full pull, counting from 0. */
  function PullRead(uid: Id, k: nat): RemoteCall
    requires k < 4
  {
    if k == 0 then SelectProfile(uid)
    else if k == 1 then SelectMoods(uid, None, None)
    else if k == 2 then SelectMedications(uid)
    else SelectPlan(uid)
  }

  /** The first `n` reads of a full pull, in the order they are made. */
  function PullPrefix(uid: Id, n: nat): (r: seq<RemoteCall>)
    requires n <= 4
    ensures |r| == n
    ensures forall k :: 0 <= k < n ==> r[k] == PullRead(uid, k)
  {
    if n == 0 then [] else PullPrefix(uid, n - 1) + [PullRead(uid, n - 1)]
  }

  /** Issuing the next read of the pull extends the prefix by one. */
  lemma PullCallsStep(c: seq<RemoteCall>, uid: Id, k: nat)
    requires k < 4
    ensures c + PullPrefix(uid, k) + [PullRead(uid, k)] == c + PullPrefix(uid, k + 1)
  {
  }

  /** The replies and device faults a full pull meets. */
  datatype PullEnv = PullEnv(
    profileReply: Reply<StoredProfile>, profileFault: bool,
    moodReply: Reply<seq<MoodRow>>, moodFailAt: nat,
    medsReply: Reply<seq<MedicationRow>>, medsFault: bool,
    planReply: Reply<StoredPlan>, planFault: bool)

  /** How many of the four reads a full pull starts before one of them throws. */
  function PullsStarted(env: PullEnv): (n: nat)
    ensures 1 <= n <= 4
    ensures n == 4 <==> !env.profileFault && !MoodPullThrows(env.moodReply, env.moodFailAt) && !env.medsFault
  {
    if env.profileFault then 1
    else if MoodPullThrows(env.moodReply, env.moodFailAt) then 2
    else if env.medsFault then 3
    else 4
  }

  /** The cached entries once the pull is over: refreshed only when the mood read was started. */
  function MoodsAfterPull(cached: seq<MoodEntry>, env: PullEnv): (r: seq<MoodEntry>)
    ensures env.profileFault ==> r == cached
    ensures !env.profileFault ==> r == MoodsPulled(cached, env.moodReply, env.moodFailAt)
  {
    if PullsStarted(env) >= 2 then MoodsPulled(cached, env.moodReply, env.moodFailAt) else cached
  }

  /** The cached medications once the pull is over: refreshed only when their read was started. */
  function MedsAfterPull(cached: seq<Medication>, env: PullEnv): (r: seq<Medication>)
    ensures env.profileFault || MoodPullThrows(env.moodReply, env.moodFailAt) ==> r == cached
    ensures !env.profileFault && !MoodPullThrows(env.moodReply, env.moodFailAt) ==>
              r == MedsPulled(cached, env.medsReply, env.medsFault)
  {
    if PullsStarted(env) >= 3 then MedsPulled(cached, env.medsReply, env.medsFault) else cached
  }

  /** The cached safety plan once the pull is over: refreshed only when every earlier read succeeded. */
  function PlanAfterPull(cached: Option<SafetyPlan>, env: PullEnv): (r: Option<SafetyPlan>)
    ensures env.profileFault || MoodPullThrows(env.moodReply, env.moodFailAt) || env.medsFault ==> r == cached
    ensures !env.profileFault && !MoodPullThrows(env.moodReply, env.moodFailAt) && !env.medsFault ==>
              r == PlanPulled(cached, env.planReply, env.planFault)
  {
    if PullsStarted(env) >= 4 then PlanPulled(cached, env.planReply, env.planFault) else cached
  }

  class SyncCoordinator {
    const local: LocalStore
    /** Every remote request issued so far, oldest first. */
    var calls: seq<RemoteCall>

    ghost predicate Valid()
      reads this, local
    {
      local.Valid()
    }

    constructor (store: LocalStore)
      requires store.Valid()
      ensures Valid() && local == store && calls == []
    {
      local := store;
      calls := [];
    }

    method SyncUserProfile(p: UserProfile, user: Option<Id>, stamp: string, fault: bool) returns (st: Status)
      requires Valid()
      modifies this`calls, local`profile
      ensures Valid()
      ensures st == if fault then Failed else Completed
      ensures local.profile == if fault then old(local.profile) else Some(p.(id := ProfileId(user, stamp)))
      ensures calls == old(calls) + if !fault && user.Some? then [UpsertProfile(ProfileToRow(p, user.value))] else []
    {
      var userId := ProfileId(user, stamp);
      st := local.SaveUserProfile(p.(id := userId), fault);
      if st == Failed { return; }
      if user.Some? {
        calls := calls + [UpsertProfile(ProfileToRow(p, user.value))];
      }
    }

    method GetUserProfile(user: Option<Id>, reply: Reply<StoredProfile>, fault: bool)
      returns (r: Outcome<Option<UserProfile>>)
      requires Valid()
      modifies this`calls, local`profile
      ensures Valid()
      ensures calls == old(calls) + if user.Some? then [SelectProfile(user.value)] else []
      ensures local.profile == if user.Some? then ProfilePulled(old(local.profile), reply, fault) else old(local.profile)
      ensures r == if fault then Threw
                   else if user.Some? && reply.Rows? then Done(Some(ProfileFromRow(reply.data)))
                   else Done(old(local.profile))
      ensures r.Threw? <==> fault
    {
      if user.Some? {
        calls := calls + [SelectProfile(user.value)];
        if reply.Rows? {
          var profile := ProfileFromRow(reply.data);
          var st := local.SaveUserProfile(profile, fault);
          if st == Failed { return Threw; }
          return Done(Some(profile));
        }
      }
      r := local.GetUserProfile(fault);
    }

    method SyncMoodEntry(e: MoodEntry, user: Option<Id>, fault: bool) returns (st: Status)
      requires Valid()
      modifies this`calls, local`moodEntries
      ensures Valid()
      ensures st == if fault then Failed else Completed
      ensures local.moodEntries == if fault then old(local.moodEntries) else AfterSave(old(local.moodEntries), e)
      ensures calls == old(calls) + if !fault && user.Some? then [UpsertMood(MoodToRow(e, user.value))] else []
    {
      st := local.SaveMoodEntry(e, fault);
      if st == Failed { return; }
      if user.None? { return; }
      calls := calls + [UpsertMood(MoodToRow(e, user.value))];
    }

    /**
     * `failAt` numbers the device store calls of this operation from 0: the call with
     * that number rejects (a number past the last call means none does).
     */
    method GetMoodEntries(user: Option<Id>, start: Option<Date>, end: Option<Date>,
                          reply: Reply<seq<MoodRow>>, failAt: nat)
      returns (r: Outcome<seq<MoodEntry>>)
      requires Valid()
      modifies this`calls, local`moodEntries
      ensures Valid()
      ensures calls == old(calls) + if user.Some? then [SelectMoods(user.value, start, end)] else []
      ensures user.Some? && reply.Rows? ==>
                && local.moodEntries == MoodsPulled(old(local.moodEntries), reply, failAt)
                && r == if MoodPullThrows(reply, failAt) then Threw else Done(PulledMoods(reply))
      ensures !(user.Some? && reply.Rows?) ==>
                && local.moodEntries == old(local.moodEntries)
                && r == if failAt == 0 then Threw else Done(InRange(old(local.moodEntries), start, end))
      ensures user.Some? ==> local.moodEntries == MoodsPulled(old(local.moodEntries), reply, failAt)
      ensures user.Some? ==> (r.Threw? <==> MoodPullThrows(reply, failAt))
    {
      if user.Some? {
        calls := calls + [SelectMoods(user.value, start, end)];
        if reply.Rows? {
          var entries := MoodsFromRows(reply.data);
          var threw := RefreshCache(entries, failAt);
          if threw { return Threw; }
          return Done(entries);
        }
      }
      r := local.GetMoodEntries(start, end, failAt == 0);
    }

    /** Saves `entries` into the device store one by one; the save numbered `failAt` rejects. */
    method RefreshCache(entries: seq<MoodEntry>, failAt: nat) returns (threw: bool)
      requires Valid()
      modifies local`moodEntries
      ensures Valid()
      ensures threw <==> failAt < |entries|
      ensures local.moodEntries == SaveAll(old(local.moodEntries), entries[..if threw then failAt else |entries|])
    {
      var i := 0;
      while i < |entries|
        invariant 0 <= i <= |entries| && i <= failAt
        invariant local.Valid()
        invariant local.moodEntries == SaveAll(old(local.moodEntries), entries[..i])
      {
        var st := local.SaveMoodEntry(entries[i], i == failAt);
        if st == Failed { return true; }
        SaveAllStep(old(local.moodEntries), entries, i);
        i := i + 1;
      }
      return false;
    }

    method SyncMedications(ms: seq<Medication>, user: Option<Id>, fault: bool) returns (st: Status)
      requires Valid()
      modifies this`calls, local`medications
      ensures Valid()
      ensures st == if fault then Failed else Completed
      ensures local.medications == if fault then old(local.medications) else ms
      ensures calls == old(calls) +
                if fault || user.None? then []
                else [DeleteMedications(user.value)] +
                     if |ms| > 0 then [InsertMedications(MedsToRows(ms, user.value))] else []
    {
      st := local.SaveMedications(ms, fault);
      if st == Failed { return; }
      if user.None? { return; }
      calls := calls + [DeleteMedications(user.value)];
      if |ms| > 0 {
        calls := calls + [InsertMedications(MedsToRows(ms, user.value))];
      }
    }

    method GetMedications(user: Option<Id>, reply: Reply<seq<MedicationRow>>, fault: bool)
      returns (r: Outcome<seq<Medication>>)
      requires Valid()
      modifies this`calls, local`medications
      ensures Valid()
      ensures calls == old(calls) + if user.Some? then [SelectMedications(user.value)] else []
      ensures local.medications == if user.Some? then MedsPulled(old(local.medications), reply, fault) else old(local.medications)
      ensures r == if fault then Threw
                   else if user.Some? && reply.Rows? then Done(MedsFromRows(reply.data))
                   else Done(old(local.medications))
    {
      if user.Some? {
        calls := calls + [SelectMedications(user.value)];
        if reply.Rows? {
          var medications := MedsFromRows(reply.data);
          var st := local.SaveMedications(medications, fault);
          if st == Failed { return Threw; }
          return Done(medications);
        }
      }
      r := local.GetMedications(fault);
    }

    method SyncSafetyPlan(plan: SafetyPlan, user: Option<Id>, fault: bool) returns (st: Status)
      requires Valid()
      modifies this`calls, local`safetyPlan
      ensures Valid()
      ensures st == if fault then Failed else Completed
      ensures local.safetyPlan == if fault then old(local.safetyPlan) else Some(plan)
      ensures calls == old(calls) + if !fault && user.Some? then [UpsertPlan(PlanToRow(plan, user.value))] else []
    {
      st := local.SaveSafetyPlan(plan, fault);
      if st == Failed { return; }
      if user.None? { return; }
      calls := calls + [UpsertPlan(PlanToRow(plan, user.value))];
    }

    method GetSafetyPlan(user: Option<Id>, reply: Reply<StoredPlan>, fault: bool)
      returns (r: Outcome<Option<SafetyPlan>>)
      requires Valid()
      modifies this`calls, local`safetyPlan
      ensures Valid()
      ensures calls == old(calls) + if user.Some? then [SelectPlan(user.value)] else []
      ensures local.safetyPlan == if user.Some? then PlanPulled(old(local.safetyPlan), reply, fault) else old(local.safetyPlan)
      ensures r == if fault then Threw
                   else if user.Some? && reply.Rows? then Done(Some(PlanFromRow(reply.data)))
                   else Done(old(local.safetyPlan))
    {
      if user.Some? {
        calls := calls + [SelectPlan(user.value)];
        if reply.Rows? {
          var plan := PlanFromRow(reply.data);
          var st := local.SaveSafetyPlan(plan, fault);
          if st == Failed { return Threw; }
          return Done(Some(plan));
        }
      }
      r := local.GetSafetyPlan(fault);
    }

    /** The pull's last two reads, once profile and entries were read without a throw. */
    method PullMedsAndPlan(uid: Id, env: PullEnv, ghost c0: seq<RemoteCall>) returns (started: nat)
      requires Valid() && calls == c0 + PullPrefix(uid, 2)
      modifies this`calls, local`medications, local`safetyPlan
      ensures Valid()
      ensures started == if env.medsFault then 3 else 4
      ensures calls == c0 + PullPrefix(uid, started)
      ensures local.medications == MedsPulled(old(local.medications), env.medsReply, env.medsFault)
      ensures local.safetyPlan == if started >= 4 then PlanPulled(old(local.safetyPlan), env.planReply, env.planFault)
                                  else old(local.safetyPlan)
    {
      var ms := GetMedications(Some(uid), env.medsReply, env.medsFault);
      PullCallsStep(c0, uid, 2);
      if ms.Threw? { return 3; }
      var plan := GetSafetyPlan(Some(uid), env.planReply, env.planFault);
      PullCallsStep(c0, uid, 3);
      return 4;
    }

    /** The pull's last three reads, once the profile was read without a throw. */
    method PullAfterProfile(uid: Id, env: PullEnv, ghost c0: seq<RemoteCall>) returns (started: nat)
      requires Valid() && !env.profileFault && calls == c0 + PullPrefix(uid, 1)
      modifies this`calls, local`moodEntries, local`medications, local`safetyPlan
      ensures Valid()
      ensures started == PullsStarted(env) && started >= 2
      ensures calls == c0 + PullPrefix(uid, started)
      ensures local.moodEntries == MoodsPulled(old(local.moodEntries), env.moodReply, env.moodFailAt)
      ensures local.medications == if started >= 3 then MedsPulled(old(local.medications), env.medsReply, env.medsFault)
                                   else old(local.medications)
      ensures local.safetyPlan == if started >= 4 then PlanPulled(old(local.safetyPlan), env.planReply, env.planFault)
                                  else old(local.safetyPlan)
    {
      var es := GetMoodEntries(Some(uid), None, None, env.moodReply, env.moodFailAt);
      PullCallsStep(c0, uid, 1);
      if es.Threw? { return 2; }
      started := PullMedsAndPlan(uid, env, c0);
    }

    /** The four reads of the pull for a signed-in `uid`, stopping at the first that throws. */
    method PullAll(uid: Id, env: PullEnv) returns (started: nat)
      requires Valid()
      modifies this`calls, local`profile, local`moodEntries, local`medications, local`safetyPlan
      ensures Valid()
      ensures started == PullsStarted(env)
      ensures calls == old(calls) + PullPrefix(uid, started)
      ensures local.profile == ProfilePulled(old(local.profile), env.profileReply, env.profileFault)
      ensures local.moodEntries == MoodsAfterPull(old(local.moodEntries), env)
      ensures local.medications == MedsAfterPull(old(local.medications), env)
      ensures local.safetyPlan == PlanAfterPull(old(local.safetyPlan), env)
    {
      ghost var c0 := calls;
      var p := GetUserProfile(Some(uid), env.profileReply, env.profileFault);
      PullCallsStep(c0, uid, 0);
      if p.Threw? { return 1; }
      started := PullAfterProfile(uid, env, c0);
    }

    /**
     * The pull after sign-in: profile, entries, medications and safety plan in that
     * order inside one try block, so a read that throws skips the later ones and the
     * error goes no further. Returns how many reads were started.
     */
    method SyncAllData(user: Option<Id>, env: PullEnv) returns (started: nat)
      requires Valid()
      modifies this`calls, local`profile, local`moodEntries, local`medications, local`safetyPlan
      ensures Valid()
      ensures started == if user.Some? then PullsStarted(env) else 0
      ensures user.Some? ==> calls == old(calls) + PullPrefix(user.value, started)
      ensures user.None? ==> calls == old(calls)
      ensures local.profile == if started >= 1 then ProfilePulled(old(local.profile), env.profileReply, env.profileFault)
                               else old(local.profile)
      ensures local.moodEntries == if started >= 2 then MoodsPulled(old(local.moodEntries), env.moodReply, env.moodFailAt)
                                   else old(local.moodEntries)
      ensures local.medications == if started >= 3 then MedsPulled(old(local.medications), env.medsReply, env.medsFault)
                                   else old(local.medications)
      ensures local.safetyPlan == if started >= 4 then PlanPulled(old(local.safetyPlan), env.planReply, env.planFault)
                                  else old(local.safetyPlan)
    {
      if user.None? { return 0; }
      started := PullAll(user.value, env);
    }
  }
}
