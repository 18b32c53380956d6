// The failure counter of pkg/vpn/pia/monitor.go, on its own: what a sequence of
// health verdicts does to failedCount while a winner is set and the tunnel is up.
module Failures {

  function ReduceByOne(i: int): int {
    if i > 0 then i - 1 else 0
  }

  // The -fails flag is not validated: anything below one acts as one.
  function Threshold(maxFailed: int): nat {
    if maxFailed < 1 then 1 else maxFailed
  }

  // A verdict's effect on the control state: the counter afterwards, and whether
  // discoverAndConnect is called. restored: the tunnel is up or was brought up.
  function Conclude(failedCount: nat, hasWinner: bool, healthy: bool, restored: bool, maxFailed: int): (nat, bool) {
    if !healthy then
      if failedCount + 1 >= maxFailed then (0, true) else (failedCount + 1, false)
    else if !hasWinner then (0, true)
    else (ReduceByOne(failedCount), !restored)
  }

  datatype Tally = Tally(failedCount: nat, reconnects: nat)

  // One verdict, as the loop counts it.
  function Observe(t: Tally, healthy: bool, maxFailed: int): Tally {
    if healthy then Tally(ReduceByOne(t.failedCount), t.reconnects)
    else if t.failedCount + 1 >= maxFailed then Tally(0, t.reconnects + 1)
    else Tally(t.failedCount + 1, t.reconnects)
  }

  function ObserveAll(vs: seq<bool>, maxFailed: int): Tally {
    if vs == [] then Tally(0, 0)
    else Observe(ObserveAll(vs[..|vs| - 1], maxFailed), vs[|vs| - 1], maxFailed)
  }

  function Failed(vs: seq<bool>): nat {
    if vs == [] then 0
    else Failed(vs[..|vs| - 1]) + if vs[|vs| - 1] then 0 else 1
  }

  // Failures minus successes.
  function Excess(vs: seq<bool>): int {
    2 * Failed(vs) - |vs|
  }

  // Some block of adjacent verdicts holds n more failures than successes.
  ghost predicate HasBadBlock(vs: seq<bool>, n: int) {
    exists i, j :: 0 <= i <= j <= |vs| && Excess(vs[i..j]) >= n
  }

  // Some block of n adjacent verdicts are all failures.
  ghost predicate HasConsecutiveFailures(vs: seq<bool>, n: nat) {
    exists i: nat :: FailuresAt(vs, i, n)
  }

  predicate FailuresAt(vs: seq<bool>, i: nat, n: nat) {
    i + n <= |vs| && forall j :: i <= j < i + n ==> !vs[j]
  }

  // m is the largest excess of any suffix of vs, the empty one included.
  ghost predicate IsMaxSuffixExcess(m: int, vs: seq<bool>) {
    && (exists i :: 0 <= i <= |vs| && Excess(vs[i..]) == m)
    && (forall i :: 0 <= i <= |vs| ==> Excess(vs[i..]) <= m)
  }

  lemma ExcessPush(vs: seq<bool>, i: nat)
    requires i < |vs|
    ensures Excess(vs[i..]) == Excess(vs[..|vs| - 1][i..]) + if vs[|vs| - 1] then -1 else 1
  {
    assert vs[i..][..|vs[i..]| - 1] == vs[..|vs| - 1][i..];
  }

  // Until the first reconnect, failedCount is the largest surplus of failures
  // over successes of any suffix: a walk reflected at zero.
  lemma {:induction false} CountIsReflectedWalk(vs: seq<bool>, maxFailed: int)
    requires ObserveAll(vs, maxFailed).reconnects == 0
    ensures IsMaxSuffixExcess(ObserveAll(vs, maxFailed).failedCount, vs)
  {
    if vs == [] {
      assert Excess(vs[0..]) == 0;
    } else {
      var front, healthy := vs[..|vs| - 1], vs[|vs| - 1];
      var before, after := ObserveAll(front, maxFailed).failedCount, ObserveAll(vs, maxFailed).failedCount;
      CountIsReflectedWalk(front, maxFailed);
      forall i | 0 <= i <= |vs| ensures Excess(vs[i..]) <= after {
        if i < |vs| {
          ExcessPush(vs, i);
        }
      }
      if healthy && before == 0 {
        assert Excess(vs[|vs|..]) == after;
      } else {
        var i :| 0 <= i <= |front| && Excess(front[i..]) == before;
        ExcessPush(vs, i);
        assert Excess(vs[i..]) == after;
      }
    }
  }

  // The loop reconnects at the first verdict that completes a block with
  // Threshold(maxFailed) more failures than successes, and not before.
  lemma {:induction false} ReconnectIff(vs: seq<bool>, maxFailed: int)
    ensures ObserveAll(vs, maxFailed).reconnects > 0 <==> HasBadBlock(vs, Threshold(maxFailed))
  {
    var n := Threshold(maxFailed);
    if vs == [] {
      assert forall i, j :: 0 <= i <= j <= |vs| ==> vs[i..j] == [];
    } else {
      var front := vs[..|vs| - 1];
      ReconnectIff(front, maxFailed);
      if HasBadBlock(front, n) {
        var i, j :| 0 <= i <= j <= |front| && Excess(front[i..j]) >= n;
        assert front[i..j] == vs[i..j];
      } else if ObserveAll(vs, maxFailed).reconnects == 0 {
        NoReconnectNoBadBlock(vs, maxFailed);
      } else {
        CountIsReflectedWalk(front, maxFailed);
        CountBelowThreshold(front, maxFailed);
        var before := ObserveAll(front, maxFailed).failedCount;
        var i :| 0 <= i <= |front| && Excess(front[i..]) == before;
        ExcessPush(vs, i);
        assert vs[i..|vs|] == vs[i..];
      }
    }
  }

  lemma NoReconnectNoBadBlock(vs: seq<bool>, maxFailed: int)
    requires ObserveAll(vs, maxFailed).reconnects == 0
    ensures !HasBadBlock(vs, Threshold(maxFailed))
  {
    forall i, j | 0 <= i <= j <= |vs| ensures Excess(vs[i..j]) < Threshold(maxFailed) {
      var prefix := vs[..j];
      NeverEarlier(vs, j, maxFailed);
      CountIsReflectedWalk(prefix, maxFailed);
      CountBelowThreshold(prefix, maxFailed);
      assert vs[i..j] == prefix[i..];
    }
  }

  lemma {:induction false} NeverEarlier(vs: seq<bool>, j: nat, maxFailed: int)
    requires j <= |vs| && ObserveAll(vs, maxFailed).reconnects == 0
    ensures ObserveAll(vs[..j], maxFailed).reconnects == 0
  {
    if j == |vs| {
      assert vs[..j] == vs;
    } else {
      NeverEarlier(vs[..|vs| - 1], j, maxFailed);
      assert vs[..|vs| - 1][..j] == vs[..j];
    }
  }

  lemma {:induction false} CountBelowThreshold(vs: seq<bool>, maxFailed: int)
    ensures ObserveAll(vs, maxFailed).failedCount < Threshold(maxFailed)
  {
    if vs != [] {
      CountBelowThreshold(vs[..|vs| - 1], maxFailed);
    }
  }

  // Every reconnect is paid for by Threshold(maxFailed) failures of its own.
  lemma {:induction false} ReconnectBudget(vs: seq<bool>, maxFailed: int)
    ensures var t := ObserveAll(vs, maxFailed);
            Threshold(maxFailed) * t.reconnects + t.failedCount <= Failed(vs)
  {
    if vs != [] {
      var front := vs[..|vs| - 1];
      var n, t := Threshold(maxFailed), ObserveAll(front, maxFailed);
      ReconnectBudget(front, maxFailed);
      CountBelowThreshold(front, maxFailed);
      assert n * (t.reconnects + 1) == n * t.reconnects + n;
    }
  }

  lemma {:induction false} AllFailed(vs: seq<bool>)
    requires forall i :: 0 <= i < |vs| ==> !vs[i]
    ensures Excess(vs) == |vs|
  {
    if vs != [] {
      AllFailed(vs[..|vs| - 1]);
    }
  }

  // Enough consecutive failures do reconnect...
  lemma ConsecutiveFailuresReconnect(vs: seq<bool>, maxFailed: int)
    requires HasConsecutiveFailures(vs, Threshold(maxFailed))
    ensures ObserveAll(vs, maxFailed).reconnects > 0
  {
    var n := Threshold(maxFailed);
    var i: nat :| FailuresAt(vs, i, n);
    AllFailed(vs[i..i + n]);
    ReconnectIff(vs, maxFailed);
  }

  // ...but the documented "consecutive" is not what the counter counts: with
  // the default of three, one success between two pairs of failures does not
  // clear it.
  lemma ReconnectWithoutThreeInARow()
    ensures var vs := [false, false, true, false, false];
            !HasConsecutiveFailures(vs, 3) && ObserveAll(vs, 3).reconnects == 1
  {
    var vs := [false, false, true, false, false];
    assert vs[2];
    assert forall i: nat :: !FailuresAt(vs, i, 3);
    assert vs[..4] == [false, false, true, false];
    assert vs[..4][..3] == [false, false, true];
    assert vs[..4][..3][..2] == [false, false];
    assert vs[..4][..3][..2][..1] == [false];
    assert ObserveAll([false], 3) == Tally(1, 0);
    assert ObserveAll([false, false], 3) == Tally(2, 0);
    assert ObserveAll([false, false, true], 3) == Tally(1, 0);
    assert ObserveAll(vs[..4], 3) == Tally(2, 0);
  }
}
