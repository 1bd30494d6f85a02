/**
 * The mood questionnaire's shape and the classification of one day's scores into a
 * mood state.
 */
module MoodData {
  import opened Wrappers
  import opened Types

  /** Items per questionnaire section: mania, depression, mixed/anxiety and safety. */
  const ManiaItemCount: nat := 9
  const DepressionItemCount: nat := 8
  const MixedItemCount: nat := 4
  const SafetyItemCount: nat := 1

  /** Number of checked items in a checklist. */
  function CountTrue(s: seq<bool>): (n: nat)
    ensures n <= |s|
    ensures n == 0 <==> forall i :: 0 <= i < |s| ==> !s[i]
    ensures n == |s| <==> forall i :: 0 <= i < |s| ==> s[i]
  {
    if s == [] then 0 else (if s[0] then 1 else 0) + CountTrue(s[1..])
  }

  /** Flipping one item changes the count by exactly one, in the direction of the flip. */
  lemma {:induction false} CountTrueFlip(s: seq<bool>, i: nat)
    requires i < |s|
    ensures CountTrue(s[i := !s[i]]) == if s[i] then CountTrue(s) - 1 else CountTrue(s) + 1
  {
    if i > 0 {
      assert s[i := !s[i]][1..] == s[1..][i - 1 := !s[i]];
      CountTrueFlip(s[1..], i - 1);
    }
  }

  /** The scores of a set of checklists: the number of checked items per section. */
  function ScoresOf(a: seq<bool>, b: seq<bool>, c: seq<bool>): Scores {
    Scores(CountTrue(a), CountTrue(b), CountTrue(c))
  }

  // The four classification guards, in the order they are tried.
  predicate ElevatedRule(s: Scores) { s.mania >= 5 && s.depression <= 3 }
  predicate DepressedRule(s: Scores) { s.depression >= 5 && s.mania <= 3 }
  predicate MixedRule(s: Scores) { (s.mania >= 4 && s.depression >= 4) || s.mixed >= 2 }
  predicate NearBaselineRule(s: Scores) { s.mania <= 2 && s.depression <= 2 && s.mixed <= 1 }

  /**
   * Ordered first-match classification. Each state is characterised without
   * reference to the guard order where the guards are disjoint: the elevated and
   * depressed guards never overlap, so neither needs to exclude the other.
   */
  function Classify(s: Scores, safety: bool): (r: MoodState)
    ensures r == SafetyAlert <==> safety
    ensures r == Elevated <==> !safety && ElevatedRule(s)
    ensures r == Depressed <==> !safety && DepressedRule(s)
    ensures r == Mixed <==> !safety && !ElevatedRule(s) && !DepressedRule(s) && MixedRule(s)
    ensures r == Baseline <==> !safety && !ElevatedRule(s) && !DepressedRule(s) && !MixedRule(s)
  {
    if safety then SafetyAlert
    else if ElevatedRule(s) then Elevated
    else if DepressedRule(s) then Depressed
    else if MixedRule(s) then Mixed
    else if NearBaselineRule(s) then Baseline
    else Baseline
  }

  /** The elevated and depressed guards cannot both hold. */
  lemma ElevatedAndDepressedDisjoint(s: Scores)
    ensures !(ElevatedRule(s) && DepressedRule(s))
  {
  }

  /** Safety overrides every score combination, the maximal one included. */
  lemma SafetyOverridesMaximalScores()
    ensures Classify(Scores(9, 8, 4), true) == SafetyAlert
  {
  }

  /** 3/3/1 satisfies no rule, not even the near-baseline one, and still yields baseline. */
  lemma DefaultBranchExample()
    ensures !ElevatedRule(Scores(3, 3, 1)) && !DepressedRule(Scores(3, 3, 1))
    ensures !MixedRule(Scores(3, 3, 1)) && !NearBaselineRule(Scores(3, 3, 1))
    ensures Classify(Scores(3, 3, 1), false) == Baseline
  {
  }

  /**
   * A check-in is consistent when its checklists have the questionnaire's lengths,
   * its scores are the checklist counts and its state is the classification of
   * those scores with the safety item.
   */
  predicate Consistent(e: MoodEntry) {
    && |e.sectionA| == ManiaItemCount
    && |e.sectionB| == DepressionItemCount
    && |e.sectionC| == MixedItemCount
    && e.scores == ScoresOf(e.sectionA, e.sectionB, e.sectionC)
    && e.moodState == Classify(e.scores, e.sectionD)
  }

  /** The entry a check-in submits: scores and state derived from the checklists. */
  function BuildEntry(id: Id, date: string, timestamp: int,
                      a: seq<bool>, b: seq<bool>, c: seq<bool>, d: bool): (e: MoodEntry)
    ensures e.date == date && e.sectionA == a && e.sectionB == b && e.sectionC == c && e.sectionD == d
    ensures |a| == ManiaItemCount && |b| == DepressionItemCount && |c| == MixedItemCount ==> Consistent(e)
    ensures e.cyclePhase.None? && e.sleep.None? && e.medicationsTaken.None?
  {
    var scores := ScoresOf(a, b, c);
    MoodEntry(id, date, timestamp, a, b, c, d, scores, Classify(scores, d), None, None, None)
  }
}
