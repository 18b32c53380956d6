// The election of pkg/vpn/pia/measure.go, bestHeadend, as a choice among
// measured regions.
module Election {
  import opened Common

  const SECOND := 1_000_000_000
  const CONNECT_FAILURE_COOLDOWN := 300 * SECOND

  // What an election looks at: the latencies of the known headends by ID (0 for
  // unmeasured), when a connection to a region last failed, and its parameters.
  datatype Ballot = Ballot(
    latency: map<string, nat>, failedAt: map<string, int>,
    prefer: string, maxLatency: nat, exclude: string, now: int)

  predicate CoolingDown(b: Ballot, id: string) {
    id in b.failedAt && b.now - b.failedAt[id] < CONNECT_FAILURE_COOLDOWN
  }

  predicate Eligible(b: Ballot, id: string) {
    id in b.latency && !(b.exclude != "" && id == b.exclude) && !CoolingDown(b, id)
  }

  predicate PreferredEligible(b: Ballot) {
    b.prefer != "" && Eligible(b, b.prefer)
  }

  // Eligible and measured within bounds.
  predicate Candidate(b: Ballot, id: string) {
    Eligible(b, id) && 0 < b.latency[id] < b.maxLatency
  }

  // Whom an election may pick: the preferred region if it is eligible, whatever
  // its latency; else any candidate that no candidate beats.
  ghost predicate Elects(b: Ballot, id: string) {
    if PreferredEligible(b) then id == b.prefer
    else Candidate(b, id) && forall other :: Candidate(b, other) ==> b.latency[id] <= b.latency[other]
  }

  // Whether it reports anybody: the code tells "nobody" by the best latency
  // still being the maximum.
  predicate Finds(b: Ballot) {
    if PreferredEligible(b) then b.latency[b.prefer] != b.maxLatency
    else exists id :: id in b.latency.Keys && Candidate(b, id)
  }

  // An election reports exactly when there is somebody to pick - unless the
  // eligible preferred region was measured at the very maximum, when nobody is
  // reported, candidates or not.
  lemma FindsIff(b: Ballot)
    ensures Finds(b) <==> (exists id :: Elects(b, id)) && !(PreferredEligible(b) && b.latency[b.prefer] == b.maxLatency)
  {
    if PreferredEligible(b) {
      assert Elects(b, b.prefer);
    } else if Finds(b) {
      var id :| id in b.latency.Keys && Candidate(b, id);
      var best := LeastOf(b, b.latency.Keys, id);
      assert Elects(b, best);
    }
  }

  lemma LeastOf(b: Ballot, ids: set<string>, id: string) returns (best: string)
    requires id in ids && ids <= b.latency.Keys && Candidate(b, id)
    ensures best in ids && Candidate(b, best)
    ensures forall other :: other in ids && Candidate(b, other) ==> b.latency[best] <= b.latency[other]
    decreases b.latency[id]
  {
    if other :| other in ids && Candidate(b, other) && b.latency[other] < b.latency[id] {
      best := LeastOf(b, ids, other);
    } else {
      best := id;
    }
  }

  // The outcome in the terms of the measurements, five minutes being 300 s. The
  // region elected is free: not the excluded one, and without a connect failure
  // in the last five minutes. It is the preferred one or the fastest free region
  // measured below the maximum, the preferred one not being free.
  lemma ElectedIsFastestFree(b: Ballot, id: string)
    requires Finds(b) && Elects(b, id)
    ensures id in b.latency && (b.exclude != "" ==> id != b.exclude)
    ensures id in b.failedAt ==> b.now - b.failedAt[id] >= 300_000_000_000
    ensures b.prefer != "" && id == b.prefer ==> b.latency[id] != b.maxLatency
    ensures !(b.prefer != "" && id == b.prefer) ==>
      && 0 < b.latency[id] < b.maxLatency
      && (b.prefer != "" && b.prefer in b.latency ==>
            (b.exclude != "" && b.prefer == b.exclude)
            || (b.prefer in b.failedAt && b.now - b.failedAt[b.prefer] < 300_000_000_000))
      && (forall other :: other in b.latency && 0 < b.latency[other] < b.latency[id] ==>
            (b.exclude != "" && other == b.exclude)
            || (other in b.failedAt && b.now - b.failedAt[other] < 300_000_000_000))
  {
    forall other | other in b.latency && 0 < b.latency[other] < b.latency[id] && !Eligible(b, other)
      ensures (b.exclude != "" && other == b.exclude)
              || (other in b.failedAt && b.now - b.failedAt[other] < 300_000_000_000)
    {
    }
    if !(b.prefer != "" && id == b.prefer) {
      assert forall other :: Candidate(b, other) ==> b.latency[id] <= b.latency[other];
    }
  }

  // Nobody is reported only if every region measured below the maximum is
  // excluded or had a connect failure in the last five minutes, or a preferred
  // region sits at the very maximum.
  lemma NobodyFree(b: Ballot, id: string)
    requires !Finds(b) && id in b.latency && 0 < b.latency[id] < b.maxLatency
    requires b.prefer == "" || b.prefer !in b.latency || b.latency[b.prefer] != b.maxLatency
    ensures (b.exclude != "" && id == b.exclude)
            || (id in b.failedAt && b.now - b.failedAt[id] < 300_000_000_000)
  {
    assert id in b.latency.Keys && !Candidate(b, id);
  }

  // An exclusion holds as long as the excluded region has an ID at all.
  lemma ElectedIsNew(b: Ballot, id: string)
    requires Finds(b) && Elects(b, id)
    ensures id in b.latency && !CoolingDown(b, id)
    ensures b.exclude != "" ==> id != b.exclude
    ensures !PreferredEligible(b) ==> 0 < b.latency[id] < b.maxLatency
  {
  }

  // So a re-election is sure to find another region exactly if the current one
  // has an ID: a listing without one can be elected again.
  lemma ExclusionHoldsIff(exclude: string)
    ensures (forall b: Ballot, id :: b.exclude == exclude && Finds(b) && Elects(b, id) ==> id != exclude)
            <==> exclude != ""
  {
    if exclude == "" {
      var b := EmptyIDElected();
      assert b.exclude == exclude && Finds(b) && Elects(b, "");
    } else {
      forall b: Ballot, id | b.exclude == exclude && Finds(b) && Elects(b, id) ensures id != exclude {
        ElectedIsNew(b, id);
      }
    }
  }

  lemma EmptyIDElected() returns (b: Ballot)
    ensures b == Ballot(map["" := 3], map[], "", 10, "", 0)
    ensures Finds(b) && Elects(b, b.exclude)
  {
    b := Ballot(map["" := 3], map[], "", 10, "", 0);
    assert "" in b.latency.Keys && Candidate(b, "");
  }

  // A region whose connection failed at t is not elected before t plus the
  // cooldown.
  lemma CooldownRespected(b: Ballot, id: string, t: int)
    requires Finds(b) && Elects(b, id)
    requires id in b.failedAt && b.failedAt[id] == t
    ensures b.now >= t + CONNECT_FAILURE_COOLDOWN
  {
  }

  // Unless measured at the very maximum, an eligible preferred region is the
  // one elected, even if it is slow or was never reached.
  lemma PreferredWins(b: Ballot, id: string)
    requires PreferredEligible(b) && b.latency[b.prefer] != b.maxLatency
    ensures Finds(b) && (Elects(b, id) <==> id == b.prefer)
  {
  }

  // The preferred region, measured at the maximum, hides every candidate.
  lemma PreferredAtMaximum() returns (b: Ballot)
    ensures Candidate(b, "b") && !Finds(b)
  {
    b := Ballot(map["a" := 10, "b" := 3], map[], "a", 10, "", 0);
  }

  // What the loop over the headends knows once it has passed over `seen`
  // without meeting an eligible preferred region.
  ghost predicate BestSoFar(b: Ballot, seen: set<string>, bestLatency: nat, elected: Option<string>) {
    && (b.prefer in seen ==> !PreferredEligible(b))
    && (forall other :: other in seen && Candidate(b, other) ==> bestLatency <= b.latency[other])
    && match elected
       case None => bestLatency == b.maxLatency
       case Some(id) => id in seen && Candidate(b, id) && bestLatency == b.latency[id]
  }

  lemma NoneSeen(b: Ballot)
    ensures BestSoFar(b, {}, b.maxLatency, None)
  {
  }

  lemma PreferredSeen(b: Ballot)
    requires PreferredEligible(b)
    ensures Elects(b, b.prefer) && (Finds(b) <==> b.latency[b.prefer] != b.maxLatency)
  {
  }

  lemma OneMoreRegion(b: Ballot, seen: set<string>, bestLatency: nat, elected: Option<string>, id: string)
    requires BestSoFar(b, seen, bestLatency, elected) && id in b.latency
    ensures !Eligible(b, id) ==> BestSoFar(b, seen + {id}, bestLatency, elected)
    ensures Eligible(b, id) && !(b.prefer != "" && id == b.prefer) ==>
      if 0 < b.latency[id] < bestLatency then BestSoFar(b, seen + {id}, b.latency[id], Some(id))
      else BestSoFar(b, seen + {id}, bestLatency, elected)
  {
  }

  lemma AllSeen(b: Ballot, bestLatency: nat, elected: Option<string>)
    requires BestSoFar(b, b.latency.Keys, bestLatency, elected)
    ensures !PreferredEligible(b)
    ensures bestLatency == b.maxLatency <==> !Finds(b)
    ensures bestLatency != b.maxLatency ==> elected.Some? && Elects(b, elected.value)
  {
  }
}
