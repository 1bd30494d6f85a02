/**
 * The insights screen: the cycle/mood pattern detector, the mood distribution,
 * the cards the screen shows and the chart window. The entries come from the
 * sync coordinator's mood read and are sorted oldest first in place before any
 * of them is computed.
 */
module Insights {
  import opened Wrappers
  import opened Types
  import opened EntryOrder

  /** The test of one of the screen's filters. */
  datatype Criterion = InPhase(p: CyclePhase) | InState(s: MoodState) | InPhaseAndState(p: CyclePhase, s: MoodState)

  predicate Meets(e: MoodEntry, c: Criterion) {
    match c
    case InPhase(p) => e.cyclePhase == Some(p)
    case InState(s) => e.moodState == s
    case InPhaseAndState(p, s) => e.cyclePhase == Some(p) && e.moodState == s
  }

  /** The length of the list filtered by `c`. */
  function Count(es: seq<MoodEntry>, c: Criterion): (n: nat)
    ensures n <= |es|
  {
    if es == [] then 0 else (if Meets(es[0], c) then 1 else 0) + Count(es[1..], c)
  }

  /** Nothing is counted exactly when no entry meets the criterion. */
  lemma {:induction false} CountZero(es: seq<MoodEntry>, c: Criterion)
    ensures Count(es, c) == 0 <==> forall i :: 0 <= i < |es| ==> !Meets(es[i], c)
  {
    if es != [] {
      CountZero(es[1..], c);
      assert forall i :: 0 < i < |es| ==> es[1..][i - 1] == es[i];
    }
  }

  lemma {:induction false} CountAppend(a: seq<MoodEntry>, b: seq<MoodEntry>, c: Criterion)
    ensures Count(a + b, c) == Count(a, c) + Count(b, c)
  {
    if a != [] {
      assert (a + b)[0] == a[0];
      assert (a + b)[1..] == a[1..] + b;
      CountAppend(a[1..], b, c);
    } else {
      assert a + b == b;
    }
  }

  /** Counting with one element taken out. */
  lemma CountRemove(b: seq<MoodEntry>, i: nat, c: Criterion)
    requires i < |b|
    ensures Count(b, c) == Count(b[..i] + b[i + 1..], c) + Count([b[i]], c)
  {
    assert b == b[..i] + [b[i]] + b[i + 1..];
    CountAppend(b[..i] + [b[i]], b[i + 1..], c);
    CountAppend(b[..i], [b[i]], c);
    CountAppend(b[..i], b[i + 1..], c);
  }

  lemma MultisetRemove(a: seq<MoodEntry>, b: seq<MoodEntry>, i: nat)
    requires multiset(a) == multiset(b) && a != [] && i < |b| && b[i] == a[0]
    ensures multiset(a[1..]) == multiset(b[..i] + b[i + 1..])
  {
    assert b == b[..i] + [b[i]] + b[i + 1..];
    assert multiset(b) == multiset(b[..i]) + multiset{b[i]} + multiset(b[i + 1..]);
    assert a == [a[0]] + a[1..];
    assert multiset(a) == multiset{a[0]} + multiset(a[1..]);
    assert multiset(b[..i] + b[i + 1..]) == multiset(b[..i]) + multiset(b[i + 1..]);
    assert multiset(a[1..]) == multiset(a) - multiset{a[0]};
  }

  /** A count depends only on which entries there are, not on their order. */
  lemma {:induction false} CountPermutation(a: seq<MoodEntry>, b: seq<MoodEntry>, c: Criterion)
    requires multiset(a) == multiset(b)
    ensures Count(a, c) == Count(b, c)
    decreases |a|
  {
    if a != [] {
      assert a[0] in multiset(b);
      var i :| 0 <= i < |b| && b[i] == a[0];
      MultisetRemove(a, b, i);
      CountPermutation(a[1..], b[..i] + b[i + 1..], c);
      CountRemove(b, i, c);
      assert [b[i]][1..] == [];
    } else {
      assert |multiset(b)| == 0;
    }
  }

  /** The count of a sub-filter is no larger than the count of the filter it narrows. */
  lemma {:induction false} CountNarrows(es: seq<MoodEntry>, p: CyclePhase, s: MoodState)
    ensures Count(es, InPhaseAndState(p, s)) <= Count(es, InPhase(p))
    ensures Count(es, InPhaseAndState(p, s)) <= Count(es, InState(s))
  {
    if es != [] { CountNarrows(es[1..], p, s); }
  }

  /**
   * The detector's rule for a phase and a state: at least three entries in the
   * phase, and more than half of them in the state.
   */
  predicate Emits(es: seq<MoodEntry>, p: CyclePhase, s: MoodState) {
    var n := Count(es, InPhase(p));
    n >= 3 && MoreThanHalf(Count(es, InPhaseAndState(p, s)), n)
  }

  /** The floating-point test `k / n > 0.5`, taken over the reals. */
  predicate MoreThanHalf(k: nat, n: nat) {
    n > 0 && (k as real) / (n as real) > 0.5
  }

  lemma MulMonotone(a: real, b: real, c: real)
    requires c > 0.0 && a <= b
    ensures a * c <= b * c
  {
  }

  /** The ratio test `k / n > 0.5` is the integer test `2k > n`. */
  lemma RatioThreshold(k: nat, n: nat)
    requires n > 0
    ensures MoreThanHalf(k, n) <==> 2 * k > n
  {
    var q := (k as real) / (n as real);
    assert q * (n as real) == k as real;
    if 2 * k > n {
      assert (k as real) > 0.5 * (n as real);
      if q <= 0.5 { MulMonotone(q, 0.5, n as real); }
    } else {
      assert (k as real) <= 0.5 * (n as real);
      if q > 0.5 { MulMonotone(0.5, q, n as real); }
    }
  }

  lemma EmitsInIntegers(es: seq<MoodEntry>, p: CyclePhase, s: MoodState)
    ensures Emits(es, p, s) <==>
            Count(es, InPhase(p)) >= 3 && 2 * Count(es, InPhaseAndState(p, s)) > Count(es, InPhase(p))
  {
    if Count(es, InPhase(p)) > 0 { RatioThreshold(Count(es, InPhaseAndState(p, s)), Count(es, InPhase(p))); }
  }

  /** A pattern as the screen builds it; its description's percentage is not modelled. */
  datatype DetectedPattern = DetectedPattern(id: string, title: string, confidence: Confidence, kind: PatternType)

  const OvulationPattern := DetectedPattern("1", "Elevated Mood During Ovulation", Moderate, CycleMood)
  const LutealPattern := DetectedPattern("2", "Depressed Mood in Luteal Phase", Moderate, CycleMood)

  predicate HasId(ps: seq<DetectedPattern>, id: string) {
    exists i :: 0 <= i < |ps| && ps[i].id == id
  }

  lemma HasIdAppend(a: seq<DetectedPattern>, b: seq<DetectedPattern>, id: string)
    ensures HasId(a + b, id) <==> HasId(a, id) || HasId(b, id)
  {
    if HasId(a + b, id) {
      var i :| 0 <= i < |a + b| && (a + b)[i].id == id;
      if i >= |a| { assert b[i - |a|].id == id; }
    }
    if HasId(a, id) {
      var i :| 0 <= i < |a| && a[i].id == id;
      assert (a + b)[i].id == id;
    }
    if HasId(b, id) {
      var i :| 0 <= i < |b| && b[i].id == id;
      assert (a + b)[|a| + i].id == id;
    }
  }

  /**
   * The detector: the ovulation pattern exactly when elevated entries are more than
   * half of at least three ovulation entries, the luteal pattern likewise for
   * depressed entries in the luteal phase; at most two, in that order, both of
   * medium confidence and of the cycle/mood kind.
   */
  function DetectPatterns(es: seq<MoodEntry>): (ps: seq<DetectedPattern>)
    ensures |ps| <= 2
    ensures HasId(ps, "1") <==> Emits(es, Ovulation, Elevated)
    ensures HasId(ps, "2") <==> Emits(es, Luteal, Depressed)
    ensures |ps| == 2 ==> ps[0].id == "1" && ps[1].id == "2"
    ensures forall i :: 0 <= i < |ps| ==> ps[i].confidence == Moderate && ps[i].kind == CycleMood
  {
    var first := if Emits(es, Ovulation, Elevated) then [OvulationPattern] else [];
    var second := if Emits(es, Luteal, Depressed) then [LutealPattern] else [];
    assert !HasId(second, "1") && !HasId(first, "2");
    assert first != [] ==> first[0].id == "1";
    assert second != [] ==> second[0].id == "2";
    HasIdAppend(first, second, "1");
    HasIdAppend(first, second, "2");
    first + second
  }

  /**
   * The screen's detector as written: count each phase and the matching state,
   * push the pattern when the threshold holds.
   */
  method FindPatterns(es: seq<MoodEntry>) returns (ps: seq<DetectedPattern>)
    ensures ps == DetectPatterns(es)
  {
    ps := [];
    var ovulation := Count(es, InPhase(Ovulation));
    var elevated := Count(es, InPhaseAndState(Ovulation, Elevated));
    if ovulation >= 3 && MoreThanHalf(elevated, ovulation) {
      ps := ps + [OvulationPattern];
    }
    var luteal := Count(es, InPhase(Luteal));
    var depressed := Count(es, InPhaseAndState(Luteal, Depressed));
    if luteal >= 3 && MoreThanHalf(depressed, luteal) {
      ps := ps + [LutealPattern];
    }
  }

  /** The detector sees the same patterns whatever the order of the entries. */
  lemma DetectPatternsIgnoresOrder(a: seq<MoodEntry>, b: seq<MoodEntry>)
    requires multiset(a) == multiset(b)
    ensures DetectPatterns(a) == DetectPatterns(b)
  {
    CountPermutation(a, b, InPhase(Ovulation));
    CountPermutation(a, b, InPhaseAndState(Ovulation, Elevated));
    CountPermutation(a, b, InPhase(Luteal));
    CountPermutation(a, b, InPhaseAndState(Luteal, Depressed));
  }

  /** An entry without a cycle phase changes no pattern. */
  lemma PhaselessEntryIsIgnored(es: seq<MoodEntry>, e: MoodEntry)
    requires e.cyclePhase == None
    ensures DetectPatterns(es + [e]) == DetectPatterns(es)
  {
    CountAppend(es, [e], InPhase(Ovulation));
    CountAppend(es, [e], InPhaseAndState(Ovulation, Elevated));
    CountAppend(es, [e], InPhase(Luteal));
    CountAppend(es, [e], InPhaseAndState(Luteal, Depressed));
    assert [e][1..] == [];
    assert Emits(es + [e], Ovulation, Elevated) == Emits(es, Ovulation, Elevated);
    assert Emits(es + [e], Luteal, Depressed) == Emits(es, Luteal, Depressed);
  }

  function Example(phase: CyclePhase, state: MoodState): MoodEntry {
    MoodEntry("x", "2024-01-01", 0, [], [], [], false, Scores(0, 0, 0), state, Some(phase), None, None)
  }

  /** Three depressed luteal entries show the luteal pattern; two do not. */
  lemma LutealThreshold()
    ensures var e := Example(Luteal, Depressed); DetectPatterns([e, e, e]) == [LutealPattern]
    ensures var e := Example(Luteal, Depressed); DetectPatterns([e, e]) == []
  {
    var e := Example(Luteal, Depressed);
    assert [e, e, e][1..] == [e, e] && [e, e][1..] == [e] && [e][1..] == [];
    assert Meets(e, InPhase(Luteal)) && Meets(e, InPhaseAndState(Luteal, Depressed));
    assert !Meets(e, InPhase(Ovulation));
    assert Count([e], InPhase(Luteal)) == 1 && Count([e], InPhaseAndState(Luteal, Depressed)) == 1;
    assert Count([e, e], InPhase(Luteal)) == 2 && Count([e, e], InPhaseAndState(Luteal, Depressed)) == 2;
    assert Count([e, e, e], InPhase(Luteal)) == 3;
    assert Count([e, e, e], InPhaseAndState(Luteal, Depressed)) == 3;
    RatioThreshold(3, 3);
    assert Count([e], InPhase(Ovulation)) == 0;
    assert Count([e, e], InPhase(Ovulation)) == 0;
    assert Count([e, e, e], InPhase(Ovulation)) == 0;
  }

  /** Mood-state counts of the distribution chart. */
  datatype Distribution = Distribution(elevated: nat, depressed: nat, mixed: nat, baseline: nat, safetyAlert: nat) {
    function Total(): nat {
      elevated + depressed + mixed + baseline + safetyAlert
    }

    /** `distribution[state]++`. */
    function Bump(s: MoodState): Distribution {
      match s
      case Elevated => this.(elevated := elevated + 1)
      case Depressed => this.(depressed := depressed + 1)
      case Mixed => this.(mixed := mixed + 1)
      case Baseline => this.(baseline := baseline + 1)
      case SafetyAlert => this.(safetyAlert := safetyAlert + 1)
    }
  }

  /** The reference distribution: for each state, how many entries are in it. */
  function DistributionOf(es: seq<MoodEntry>): Distribution {
    Distribution(Count(es, InState(Elevated)), Count(es, InState(Depressed)), Count(es, InState(Mixed)),
                 Count(es, InState(Baseline)), Count(es, InState(SafetyAlert)))
  }

  /** Every entry falls in exactly one state, so the counts sum to the number of entries. */
  lemma {:induction false} StatesPartition(es: seq<MoodEntry>)
    ensures DistributionOf(es).Total() == |es|
  {
    if es != [] { StatesPartition(es[1..]); }
  }

  lemma DistributionStep(es: seq<MoodEntry>, i: nat)
    requires i < |es|
    ensures DistributionOf(es[..i + 1]) == DistributionOf(es[..i]).Bump(es[i].moodState)
  {
    CountStep(es, i, InState(Elevated));
    CountStep(es, i, InState(Depressed));
    CountStep(es, i, InState(Mixed));
    CountStep(es, i, InState(Baseline));
    CountStep(es, i, InState(SafetyAlert));
  }

  /** The distribution: each state's count is the number of entries in it, and they sum to the total. */
  method MoodDistribution(entries: seq<MoodEntry>) returns (d: Distribution)
    ensures d == DistributionOf(entries)
    ensures d.Total() == |entries|
  {
    d := Distribution(0, 0, 0, 0, 0);
    for i := 0 to |entries|
      invariant d == DistributionOf(entries[..i])
    {
      DistributionStep(entries, i);
      d := d.Bump(entries[i].moodState);
    }
    assert entries[..|entries|] == entries;
    StatesPartition(entries);
  }

  lemma CountStep(es: seq<MoodEntry>, i: nat, c: Criterion)
    requires i < |es|
    ensures Count(es[..i + 1], c) == Count(es[..i], c) + if Meets(es[i], c) then 1 else 0
  {
    assert es[..i + 1] == es[..i] + [es[i]];
    CountAppend(es[..i], [es[i]], c);
  }

  /** The number of entries from which the screen counts its data as enough. */
  const EnoughDataEntries: nat := 14

  /** Which of the optional cards the screen shows. */
  datatype Cards = Cards(earlyData: bool, detected: bool, noPatterns: bool)

  /**
   * The early-data card shows below fourteen entries and the "no clear patterns"
   * card only from fourteen on when nothing was detected; detected patterns show
   * whenever there are some, below fourteen entries too.
   */
  function ShownCards(es: seq<MoodEntry>, ps: seq<DetectedPattern>): (c: Cards)
    ensures c.earlyData <==> |es| < 14
    ensures c.detected <==> ps != []
    ensures c.noPatterns <==> ps == [] && |es| >= 14
    ensures !(c.detected && c.noPatterns)
  {
    var enough := |es| >= EnoughDataEntries;
    Cards(!enough, |ps| > 0, |ps| == 0 && enough)
  }

  /** Detection is not held back by the fourteen-entry gate: three entries can show a pattern. */
  lemma PatternsShowBeforeEnoughData()
    ensures var e := Example(Luteal, Depressed); var c := ShownCards([e, e, e], DetectPatterns([e, e, e]));
            c.earlyData && c.detected
  {
    LutealThreshold();
  }

  /** `slice(-30)`: the last thirty entries, or all of them. */
  function ChartWindow(es: seq<MoodEntry>): (w: seq<MoodEntry>)
    ensures |w| == if |es| < 30 then |es| else 30
    ensures es == es[..|es| - |w|] + w
  {
    if |es| <= 30 then es else es[|es| - 30..]
  }

  class InsightsScreen {
    var entries: seq<MoodEntry>
    var patterns: seq<DetectedPattern>

    constructor ()
      ensures entries == [] && patterns == []
    {
      entries, patterns := [], [];
    }

    /**
     * `loaded` is what the mood read returned. It is sorted oldest first in place and
     * the detector runs on the same, now sorted, array.
     */
    method LoadData(loaded: seq<MoodEntry>)
      modifies this
      ensures entries == Sort(loaded, false)
      ensures Sorted(entries, false) && multiset(entries) == multiset(loaded)
      ensures patterns == DetectPatterns(entries) && patterns == DetectPatterns(loaded)
    {
      var sorted := Sort(loaded, false);
      entries := sorted;
      patterns := FindPatterns(sorted);
      DetectPatternsIgnoresOrder(sorted, loaded);
    }
  }
}
