// Latency measurement: pkg/vpn/pia/measure.go, Measure. One goroutine per
// region dials that region's servers in turn.
module Measurement {
  import opened Common

  // The best latency over a region's dials so far; None is a failed dial, and 0
  // means no measurement yet.
  function BestOf(dials: seq<Option<nat>>): nat {
    if dials == [] then 0
    else Better(BestOf(dials[..|dials| - 1]), dials[|dials| - 1])
  }

  function Better(best: nat, dial: Option<nat>): nat {
    match dial
    case None => best
    case Some(total) => if best == 0 || total < best then total else best
  }

  // The region's latency afterwards: an unreachable region keeps its old one.
  function Measured(latency: nat, dials: seq<Option<nat>>): nat {
    if BestOf(dials) > 0 then BestOf(dials) else latency
  }

  // The declarative meaning, for dials that take any time at all: the least
  // latency of the servers reached.
  lemma {:induction false} BestIsLeast(dials: seq<Option<nat>>)
    requires Some(0) !in dials
    ensures BestOf(dials) == 0 <==> forall i :: 0 <= i < |dials| ==> dials[i].None?
    ensures BestOf(dials) > 0 ==> Some(BestOf(dials)) in dials
    ensures forall i :: 0 <= i < |dials| && dials[i].Some? ==> 0 < BestOf(dials) <= dials[i].value
  {
    if dials != [] {
      var front, last := dials[..|dials| - 1], dials[|dials| - 1];
      assert dials == front + [last];
      BestIsLeast(front);
      assert forall i :: 0 <= i < |dials| ==> dials[i] == if i < |front| then front[i] else last;
    }
  }

  // A dial of duration zero would make the region forget the earlier ones.
  lemma {:induction false} ZeroDialForgets(before: seq<Option<nat>>, after: seq<Option<nat>>)
    ensures BestOf(before + [Some(0)] + after) == BestOf(after)
  {
    var all := before + [Some(0)] + after;
    if after == [] {
      assert all[..|all| - 1] == before;
    } else {
      assert all[..|all| - 1] == before + [Some(0)] + after[..|after| - 1];
      ZeroDialForgets(before, after[..|after| - 1]);
    }
  }

  // --- The goroutines ------------------------------------------------------

  // Where one region's goroutine stands: servers dialled, best so far, and
  // whether it has written its result.
  datatype Worker = Worker(dialled: nat, best: nat, done: bool)

  datatype Fleet = Fleet(workers: map<string, Worker>, latency: map<string, nat>)

  // One step of the goroutine of a region: its next dial, or its final write.
  function Step(f: Fleet, dials: string -> seq<Option<nat>>, id: string): Fleet {
    if id !in f.workers then f
    else
      var w := f.workers[id];
      if w.dialled < |dials(id)| then
        f.(workers := f.workers[id := Worker(w.dialled + 1, Better(w.best, dials(id)[w.dialled]), w.done)])
      else if !w.done then
        Fleet(f.workers[id := w.(done := true)],
              if w.best > 0 then f.latency[id := w.best] else f.latency)
      else f
  }

  // Any interleaving is a sequence of region IDs.
  function Interleave(f: Fleet, dials: string -> seq<Option<nat>>, schedule: seq<string>): Fleet {
    if schedule == [] then f
    else Step(Interleave(f, dials, schedule[..|schedule| - 1]), dials, schedule[|schedule| - 1])
  }

  function Start(latency: map<string, nat>): Fleet {
    Fleet(map id | id in latency :: Worker(0, 0, false), latency)
  }

  // Whatever the others did, a region's goroutine has computed the best of what
  // it dialled, and its latency is the old or the final one.
  ghost predicate Local(f: Fleet, dials: string -> seq<Option<nat>>, latency: map<string, nat>, id: string)
    requires id in latency
  {
    && id in f.workers && id in f.latency
    && f.workers[id].dialled <= |dials(id)|
    && f.workers[id].best == BestOf(dials(id)[..f.workers[id].dialled])
    && (f.workers[id].done ==> f.workers[id].dialled == |dials(id)|)
    && f.latency[id] == if f.workers[id].done then Measured(latency[id], dials(id)) else latency[id]
  }

  lemma {:induction false} EveryInterleaving(
    latency: map<string, nat>, dials: string -> seq<Option<nat>>, schedule: seq<string>)
    ensures var f := Interleave(Start(latency), dials, schedule);
            && f.workers.Keys == f.latency.Keys == latency.Keys
            && forall id :: id in latency ==> Local(f, dials, latency, id)
  {
    if schedule == [] {
      assert forall id: string :: dials(id)[..0] == [];
    } else {
      EveryInterleaving(latency, dials, schedule[..|schedule| - 1]);
      var f := Interleave(Start(latency), dials, schedule[..|schedule| - 1]);
      var id := schedule[|schedule| - 1];
      if id in latency {
        assert Local(f, dials, latency, id);
        StepLocal(f, dials, latency, id);
        var f' := Step(f, dials, id);
        forall other | other in latency ensures Local(f', dials, latency, other) {
          assert Local(f, dials, latency, other);
        }
      }
    }
  }

  lemma StepLocal(f: Fleet, dials: string -> seq<Option<nat>>, latency: map<string, nat>, id: string)
    requires id in latency && Local(f, dials, latency, id)
    ensures Local(Step(f, dials, id), dials, latency, id)
  {
    var w := f.workers[id];
    var ds := dials(id);
    if w.dialled < |ds| {
      assert ds[..w.dialled + 1][..w.dialled] == ds[..w.dialled];
    } else {
      assert ds[..w.dialled] == ds;
    }
  }

  // Confluence: once every goroutine has finished, the latencies are those of
  // measuring one region after the other.
  lemma Confluent(latency: map<string, nat>, dials: string -> seq<Option<nat>>, schedule: seq<string>)
    requires var f := Interleave(Start(latency), dials, schedule);
             forall id :: id in f.workers ==> f.workers[id].done
    ensures Interleave(Start(latency), dials, schedule).latency
         == map id | id in latency :: Measured(latency[id], dials(id))
  {
    EveryInterleaving(latency, dials, schedule);
    var f := Interleave(Start(latency), dials, schedule);
    assert f.latency.Keys == latency.Keys;
    forall id | id in latency ensures f.latency[id] == Measured(latency[id], dials(id)) {
      assert Local(f, dials, latency, id);
    }
  }
}
