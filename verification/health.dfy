// The degradation detector: pkg/health/health.go.
module Detector {
  import opened Common
  import Median

  const BASELINE_SAMPLES := 3
  const WINDOW_SIZE := 10
  const DEGRADATION_FACTOR := 5.0
  const DEGRADATION_QUORUM := 0.5
  const MIN_SAMPLES := 3

  // Milliseconds, oldest first; 0 is a slot not filled by a measurement.
  type Slots = w: seq<nat> | |w| == WINDOW_SIZE witness [0, 0, 0, 0, 0, 0, 0, 0, 0, 0]

  const EMPTY: Slots := [0, 0, 0, 0, 0, 0, 0, 0, 0, 0]

  // How many entries exceed a bound.
  function Count(s: seq<nat>, bound: nat): (n: nat)
    ensures n <= |s|
  {
    if s == [] then 0
    else Count(s[..|s| - 1], bound) + if s[|s| - 1] > bound then 1 else 0
  }

  // The meaning of the ratio test, without fractions.
  predicate Degraded(baseline: nat, w: seq<nat>) {
    baseline != 0
    && Count(w, 0) >= MIN_SAMPLES
    && 2 * Count(w, 5 * baseline) > Count(w, 0)
  }

  function Push(w: Slots, ms: nat): Slots {
    w[1..] + [ms]
  }

  function PushAll(w: Slots, ms: seq<nat>): Slots {
    if ms == [] then w else Push(PushAll(w, ms[..|ms| - 1]), ms[|ms| - 1])
  }

  // The last ten entries of ten zeros followed by a history.
  function LastTen(history: seq<nat>): Slots {
    (EMPTY + history)[|history|..]
  }

  // The samples that came back, in order.
  function Successes(results: seq<Option<nat>>): (s: seq<int>)
    ensures forall i :: 0 <= i < |s| ==> 0 <= s[i]
  {
    if results == [] then []
    else
      var last := results[|results| - 1];
      Successes(results[..|results| - 1]) + if last.Some? then [last.value] else []
  }

  function BaselineOf(results: seq<Option<nat>>): nat {
    Median.MedianOf(Successes(results))
  }

  // The checker as a value, and what one round of its loop makes of it: a winner
  // announced and its baseline probes, or a periodic probe and its verdict.
  datatype Checker = Checker(baseline: nat, window: Slots)

  datatype Turn = LinkedUp(results: seq<Option<nat>>) | Probed(probe: Option<nat>)

  function Recorded(probe: Option<nat>): nat {
    if probe.Some? then probe.value else 0
  }

  function AfterTurn(c: Checker, turn: Turn): Checker {
    match turn
    case LinkedUp(results) => Checker(BaselineOf(results), EMPTY)
    case Probed(probe) => c.(window := Push(c.window, Recorded(probe)))
  }

  function VerdictOf(c: Checker, probe: Option<nat>): bool {
    probe.Some? && !Degraded(c.baseline, Push(c.window, Recorded(probe)))
  }

  function AfterTurns(c: Checker, turns: seq<Turn>): Checker {
    if turns == [] then c else AfterTurn(AfterTurns(c, turns[..|turns| - 1]), turns[|turns| - 1])
  }

  // The verdicts sent, in order.
  function VerdictsSent(c: Checker, turns: seq<Turn>): seq<bool> {
    if turns == [] then []
    else
      var front, last := turns[..|turns| - 1], turns[|turns| - 1];
      VerdictsSent(c, front) + if last.Probed? then [VerdictOf(AfterTurns(c, front), last.probe)] else []
  }

  class Health {
    var baseline: nat
    var lastTen: Slots
    // What was recorded since the last link-up.
    ghost var history: seq<nat>

    ghost predicate Valid()
      reads this
    {
      lastTen == LastTen(history)
    }

    function View(): Checker
      reads this
    {
      Checker(baseline, lastTen)
    }

    constructor ()
      ensures Valid() && baseline == 0 && history == []
    {
      baseline := 0;
      lastTen := EMPTY;
      history := [];
    }

    method UpdateLastTen(ms: nat)
      requires Valid()
      modifies this`lastTen, this`history
      ensures Valid() && history == old(history) + [ms]
      ensures lastTen == Push(old(lastTen), ms)
    {
      lastTen := lastTen[1..] + [ms];
      history := history + [ms];
    }

    method HealthDegraded() returns (degraded: bool)
      ensures degraded <==> Degraded(baseline, lastTen)
      ensures degraded <==>
        && baseline != 0
        && |set i | 0 <= i < WINDOW_SIZE && lastTen[i] > 0| >= 3
        && |set i | 0 <= i < WINDOW_SIZE && lastTen[i] > 5 * baseline|
             > |set i | 0 <= i < WINDOW_SIZE && 0 < lastTen[i] <= 5 * baseline|
    {
      DegradedMeans(baseline, lastTen);
      if baseline == 0 {
        return false;
      }
      var threshold := baseline as real * DEGRADATION_FACTOR;
      var exceeded, valid := 0, 0;
      for i := 0 to WINDOW_SIZE
        invariant exceeded == Count(lastTen[..i], 5 * baseline)
        invariant valid == Count(lastTen[..i], 0)
      {
        assert lastTen[..i + 1][..i] == lastTen[..i];
        var ms := lastTen[i];
        if ms == 0 {
          continue;
        }
        valid := valid + 1;
        if ms as real > threshold {
          exceeded := exceeded + 1;
        }
      }
      assert lastTen[..WINDOW_SIZE] == lastTen;
      if valid < MIN_SAMPLES {
        return false;
      }
      RatioTest(exceeded, valid);
      return exceeded as real / valid as real > DEGRADATION_QUORUM;
    }

    // The loop over the baseline probes: those that fail are skipped.
    method Collect(results: seq<Option<nat>>) returns (samples: seq<int>)
      ensures samples == Successes(results)
    {
      samples := [];
      for i := 0 to |results|
        invariant samples == Successes(results[..i])
      {
        assert results[..i + 1][..i] == results[..i];
        match results[i]
        case None =>
        case Some(latency) => samples := samples + [latency];
      }
      assert results[..|results|] == results;
    }

    // A winner was announced: forget the old connection and take a new baseline.
    method LinkUp(results: seq<Option<nat>>)
      requires |results| == BASELINE_SAMPLES
      modifies this
      ensures Valid() && history == []
      ensures baseline == BaselineOf(results) && View() == AfterTurn(old(View()), LinkedUp(results))
    {
      baseline := 0;
      lastTen := EMPTY;
      history := [];
      var samples := Collect(results);
      if |samples| == 0 {
        return;
      }
      var slice := Median.NewSlice(samples);
      var m := Median.Compute(slice);
      baseline := m;
    }

    // One periodic probe and the verdict it sends to the monitor.
    method Check(probe: Option<nat>) returns (healthy: bool)
      requires Valid()
      modifies this`lastTen, this`history
      ensures Valid() && history == old(history) + [if probe.Some? then probe.value else 0]
      ensures healthy <==> probe.Some? && !Degraded(baseline, LastTen(history))
      ensures View() == AfterTurn(old(View()), Probed(probe)) && healthy == VerdictOf(old(View()), probe)
    {
      match probe
      case None =>
        UpdateLastTen(0);
        return false;
      case Some(latency) =>
        UpdateLastTen(latency);
        var degraded := HealthDegraded();
        return !degraded;
    }

    // The loop, over any sequence of what its select may find. The verdicts sent
    // are returned.
    method Start(turns: seq<Turn>) returns (sent: seq<bool>)
      requires Valid()
      requires forall i :: 0 <= i < |turns| && turns[i].LinkedUp? ==> |turns[i].results| == BASELINE_SAMPLES
      modifies this
      ensures Valid() && View() == AfterTurns(old(View()), turns)
      ensures sent == VerdictsSent(old(View()), turns)
    {
      hide AfterTurn, VerdictOf;
      sent := [];
      for i := 0 to |turns|
        invariant Valid() && View() == AfterTurns(old(View()), turns[..i])
        invariant sent == VerdictsSent(old(View()), turns[..i])
      {
        assert turns[..i + 1][..i] == turns[..i];
        match turns[i]
        case LinkedUp(results) => LinkUp(results);
        case Probed(probe) =>
          var healthy := Check(probe);
          sent := sent + [healthy];
      }
      assert turns[..|turns|] == turns;
    }
  }

  lemma {:induction false} CountIsCard(s: seq<nat>, bound: nat)
    ensures Count(s, bound) == |set i | 0 <= i < |s| && s[i] > bound|
  {
    if s != [] {
      var n := |s| - 1;
      CountIsCard(s[..n], bound);
      var before, after := (set i | 0 <= i < n && s[..n][i] > bound), (set i | 0 <= i < |s| && s[i] > bound);
      assert after == if s[n] > bound then before + {n} else before;
    }
  }

  lemma WindowCard(w: Slots, bound: nat)
    ensures Count(w, bound) == |set i | 0 <= i < WINDOW_SIZE && w[i] > bound|
  {
    hide Count;
    CountIsCard(w, bound);
    assert (set i | 0 <= i < |w| && w[i] > bound) == set i | 0 <= i < WINDOW_SIZE && w[i] > bound;
  }

  lemma MeasuredSplit(w: Slots, bound: nat)
    ensures |set i | 0 <= i < WINDOW_SIZE && w[i] > 0|
         == |set i | 0 <= i < WINDOW_SIZE && w[i] > bound| + |set i | 0 <= i < WINDOW_SIZE && 0 < w[i] <= bound|
  {
    var slow := set i | 0 <= i < WINDOW_SIZE && w[i] > bound;
    var quick := set i | 0 <= i < WINDOW_SIZE && 0 < w[i] <= bound;
    assert (set i | 0 <= i < WINDOW_SIZE && w[i] > 0) == slow + quick && slow !! quick;
    assert |slow + quick| == |slow| + |quick|;
  }

  // Degraded, as a majority: with a baseline and at least three measured slots,
  // those above five times the baseline outnumber the other measured ones.
  lemma DegradedMeans(baseline: nat, w: Slots)
    ensures Degraded(baseline, w) <==>
      && baseline != 0
      && |set i | 0 <= i < WINDOW_SIZE && w[i] > 0| >= 3
      && |set i | 0 <= i < WINDOW_SIZE && w[i] > 5 * baseline|
           > |set i | 0 <= i < WINDOW_SIZE && 0 < w[i] <= 5 * baseline|
  {
    hide Count;
    WindowCard(w, 0);
    WindowCard(w, 5 * baseline);
    MeasuredSplit(w, 5 * baseline);
  }

  lemma SuccessesOfThree(a: Option<nat>, b: Option<nat>, c: Option<nat>)
    ensures Successes([a, b, c]) ==
            (if a.Some? then [a.value] else []) + (if b.Some? then [b.value] else [])
              + (if c.Some? then [c.value] else [])
  {
    assert [a, b, c][..2] == [a, b] && [a, b][..1] == [a] && [a][..0] == [];
    assert Successes([a]) == if a.Some? then [a.value] else [];
    assert Successes([a, b]) == Successes([a]) + if b.Some? then [b.value] else [];
  }

  // The baseline, by which of the three probes came back: none, the one, the
  // midpoint of two, the middle one of three.
  lemma BaselineCases(a: Option<nat>, b: Option<nat>, c: Option<nat>)
    ensures var m := BaselineOf([a, b, c]);
            match (a, b, c)
            case (None, None, None) => m == 0
            case (Some(x), None, None) => m == x
            case (None, Some(x), None) => m == x
            case (None, None, Some(x)) => m == x
            case (Some(x), Some(y), None) => 2 * m <= x + y <= 2 * m + 1
            case (Some(x), None, Some(y)) => 2 * m <= x + y <= 2 * m + 1
            case (None, Some(x), Some(y)) => 2 * m <= x + y <= 2 * m + 1
            case (Some(x), Some(y), Some(z)) =>
              (x <= y <= z || z <= y <= x ==> m == y) && (y <= x <= z || z <= x <= y ==> m == x)
              && (x <= z <= y || y <= z <= x ==> m == z)
  {
    hide Median.MedianOf, Successes;
    SuccessesOfThree(a, b, c);
    match (a, b, c)
    case (None, None, None) => Median.FewSamples(0, 0);
    case (Some(x), None, None) => assert Successes([a, b, c]) == [x]; Median.FewSamples(x, x);
    case (None, Some(x), None) => assert Successes([a, b, c]) == [x]; Median.FewSamples(x, x);
    case (None, None, Some(x)) => assert Successes([a, b, c]) == [x]; Median.FewSamples(x, x);
    case (Some(x), Some(y), None) => assert Successes([a, b, c]) == [x, y]; Median.FewSamples(x, y);
    case (Some(x), None, Some(y)) => assert Successes([a, b, c]) == [x, y]; Median.FewSamples(x, y);
    case (None, Some(x), Some(y)) => assert Successes([a, b, c]) == [x, y]; Median.FewSamples(x, y);
    case (Some(x), Some(y), Some(z)) =>
      assert Successes([a, b, c]) == [x, y, z];
      MiddleOfThree(x, y, z);
  }

  lemma MiddleOfThree(x: int, y: int, z: int)
    ensures var m := Median.MedianOf([x, y, z]);
            (x <= y <= z || z <= y <= x ==> m == y) && (y <= x <= z || z <= x <= y ==> m == x)
            && (x <= z <= y || y <= z <= x ==> m == z)
  {
    hide Median.MedianOf;
    var lo, hi := if x <= y then x else y, if x <= y then y else x;
    var mid := if z <= lo then lo else if z <= hi then z else hi;
    SwapFirst(x, y, z);
    SwapLast(lo, hi, z);
    SwapFirst(lo, z, hi);
    if z <= lo {
      MiddleIs([z, lo, hi], z, lo, hi);
    } else if z <= hi {
      MiddleIs([lo, z, hi], lo, z, hi);
    } else {
      MiddleIs([lo, hi, z], lo, hi, z);
    }
    assert Median.MedianOf([x, y, z]) == mid;
  }

  lemma SwapFirst(x: int, y: int, z: int)
    ensures Median.MedianOf([x, y, z]) == Median.MedianOf([y, x, z])
  {
    hide Median.MedianOf;
    assert multiset([x, y, z]) == multiset([y, x, z]);
    Median.PermutationInvariant([x, y, z], [y, x, z]);
  }

  lemma SwapLast(x: int, y: int, z: int)
    ensures Median.MedianOf([x, y, z]) == Median.MedianOf([x, z, y])
  {
    hide Median.MedianOf;
    assert multiset([x, y, z]) == multiset([x, z, y]);
    Median.PermutationInvariant([x, y, z], [x, z, y]);
  }

  lemma MiddleIs(s: seq<int>, lo: int, mid: int, hi: int)
    requires lo <= mid <= hi && multiset(s) == multiset{lo, mid, hi}
    ensures Median.MedianOf(s) == mid
  {
    hide Median.MedianOf, Median.SortSeq;
    var t := [lo, mid, hi];
    assert multiset(t) == multiset{lo, mid, hi};
    assert |s| == |multiset(s)| == 3;
    Median.MidpointOfMiddle(s, t);
  }

  lemma RatioTest(exceeded: nat, valid: nat)
    requires valid > 0
    ensures exceeded as real / valid as real > DEGRADATION_QUORUM <==> 2 * exceeded > valid
  {
    var q := exceeded as real / valid as real;
    assert q * valid as real == exceeded as real;
    if q > 0.5 {
      assert q * valid as real > 0.5 * valid as real;
    } else {
      assert q * valid as real <= 0.5 * valid as real;
    }
  }

  lemma {:induction false} CountConcat(a: seq<nat>, b: seq<nat>, bound: nat)
    ensures Count(a + b, bound) == Count(a, bound) + Count(b, bound)
  {
    if b == [] {
      assert a + b == a;
    } else {
      assert (a + b)[..|a + b| - 1] == a + b[..|b| - 1];
      CountConcat(a, b[..|b| - 1], bound);
    }
  }

  lemma {:induction false} CountAll(s: seq<nat>, bound: nat)
    requires forall i :: 0 <= i < |s| ==> s[i] > bound
    ensures Count(s, bound) == |s|
  {
    if s != [] {
      CountAll(s[..|s| - 1], bound);
    }
  }

  lemma {:induction false} CountNone(s: seq<nat>, bound: nat)
    requires forall i :: 0 <= i < |s| ==> s[i] <= bound
    ensures Count(s, bound) == 0
  {
    if s != [] {
      CountNone(s[..|s| - 1], bound);
    }
  }

  lemma {:induction false} CountMonotone(s: seq<nat>, low: nat, high: nat)
    requires low <= high
    ensures Count(s, high) <= Count(s, low)
  {
    if s != [] {
      CountMonotone(s[..|s| - 1], low, high);
    }
  }

  lemma {:induction false} PushAllIsSuffix(w: Slots, ms: seq<nat>)
    ensures PushAll(w, ms) == (w + ms)[|ms|..]
  {
    if ms != [] {
      var front := ms[..|ms| - 1];
      PushAllIsSuffix(w, front);
      assert w + ms == (w + front) + [ms[|ms| - 1]];
    }
  }

  // Pushing measurements one by one onto the empty window yields the last ten.
  lemma WindowIsLastTen(ms: seq<nat>)
    ensures PushAll(EMPTY, ms) == LastTen(ms)
  {
    PushAllIsSuffix(EMPTY, ms);
  }

  // The surviving old slots and the new ones, counted apart.
  lemma {:induction false} SplitCount(w: Slots, ms: seq<nat>, bound: nat)
    requires |ms| <= WINDOW_SIZE
    ensures Count(PushAll(w, ms), bound) == Count(w[|ms|..], bound) + Count(ms, bound)
  {
    PushAllIsSuffix(w, ms);
    assert (w + ms)[|ms|..] == w[|ms|..] + ms;
    CountConcat(w[|ms|..], ms, bound);
  }

  // Six or more slow probes in a row degrade any window.
  lemma SixSlowDegrade(baseline: nat, w: Slots, ms: seq<nat>)
    requires baseline > 0
    requires 6 <= |ms|
    requires forall i :: 0 <= i < |ms| ==> ms[i] > 5 * baseline
    ensures Degraded(baseline, PushAll(w, ms))
  {
    var k := if |ms| < WINDOW_SIZE then |ms| else WINDOW_SIZE;
    var r := PushAll(w, ms);
    PushAllIsSuffix(w, ms);
    var newest := ms[|ms| - k..];
    var older := r[..WINDOW_SIZE - k];
    assert r == older + newest;
    CountConcat(older, newest, 5 * baseline);
    CountAll(newest, 5 * baseline);
    CountMonotone(r, 0, 5 * baseline);
  }

  // Five do not: ten quick slots before them outvote them.
  lemma FiveSlowMayNot(baseline: nat, ms: seq<nat>) returns (w: Slots)
    requires baseline > 0 && |ms| <= 5
    ensures w == seq(WINDOW_SIZE, _ => 1)
    ensures !Degraded(baseline, PushAll(w, ms))
  {
    w := seq(WINDOW_SIZE, _ => 1);
    SplitCount(w, ms, 5 * baseline);
    SplitCount(w, ms, 0);
    CountNone(w[|ms|..], 5 * baseline);
    CountAll(w[|ms|..], 0);
    CountMonotone(ms, 0, 5 * baseline);
  }

  // Five quick measurements in a row clear any window.
  lemma FiveQuickClear(baseline: nat, w: Slots, ms: seq<nat>)
    requires 5 <= |ms|
    requires forall i :: 0 <= i < |ms| ==> 0 < ms[i] <= 5 * baseline
    ensures !Degraded(baseline, PushAll(w, ms))
  {
    var k := if |ms| < WINDOW_SIZE then |ms| else WINDOW_SIZE;
    var r := PushAll(w, ms);
    PushAllIsSuffix(w, ms);
    var newest := ms[|ms| - k..];
    var older := r[..WINDOW_SIZE - k];
    assert r == older + newest;
    CountConcat(older, newest, 5 * baseline);
    CountConcat(older, newest, 0);
    CountNone(newest, 5 * baseline);
    CountAll(newest, 0);
    CountMonotone(older, 0, 5 * baseline);
  }

  // Four do not: six slow slots before them stay a majority.
  lemma FourQuickMayNot(baseline: nat, ms: seq<nat>) returns (w: Slots)
    requires baseline > 0 && |ms| <= 4
    requires forall i :: 0 <= i < |ms| ==> 0 < ms[i] <= 5 * baseline
    ensures Degraded(baseline, PushAll(w, ms))
  {
    w := seq(WINDOW_SIZE, _ => 5 * baseline + 1);
    SplitCount(w, ms, 5 * baseline);
    SplitCount(w, ms, 0);
    CountAll(w[|ms|..], 5 * baseline);
    CountAll(w[|ms|..], 0);
    CountAll(ms, 0);
  }

  // A single spike never counts as degradation, whatever its height; two slow
  // slots do as soon as they are two of three.
  lemma SpikeIgnored(baseline: nat, w: Slots)
    ensures Count(w, 5 * baseline) < 2 ==> !Degraded(baseline, w)
    ensures Count(w, 5 * baseline) == 2 && baseline > 0
            ==> (Degraded(baseline, w) <==> Count(w, 0) == 3)
  {
    CountMonotone(w, 0, 5 * baseline);
  }

  // Probes that all came back.
  function Delivered(s: seq<nat>): seq<Option<nat>> {
    seq(|s|, i requires 0 <= i < |s| => Some(s[i]))
  }

  lemma {:induction false} AllDelivered(s: seq<nat>)
    ensures Successes(Delivered(s)) == s
  {
    if s != [] {
      assert Delivered(s)[..|s| - 1] == Delivered(s[..|s| - 1]);
      AllDelivered(s[..|s| - 1]);
    }
  }

  // Whatever one of the three baseline probes measured, the baseline stays in
  // the range of the other two, hence the threshold below five times the
  // larger of them.
  lemma BaselineRobust(s: seq<nat>, i: nat, outlier: nat, lo: nat, hi: nat)
    requires |s| == BASELINE_SAMPLES && i < |s|
    requires forall j :: 0 <= j < |s| && j != i ==> lo <= s[j] <= hi
    ensures lo <= BaselineOf(Delivered(s[i := outlier])) <= hi
  {
    AllDelivered(s[i := outlier]);
    var samples: seq<int> := s;
    Median.OutlierRobust(samples, i, outlier, lo, hi);
  }
}
