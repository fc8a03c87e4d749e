/**
 The planners that pick which validators to stop or remove (pkg/fuzz/scenarios.go): both search the
 live validators in order of power for a boundary of the two-thirds quorum.
 */
module QuorumPlans {
  import opened Sums
  import opened Ordering
  import opened ValidatorModel
  import opened SimulatedNetworks

  datatype Sample = Sample(id: NodeID, power: int)

  function LiveSamples(s: Snapshot): seq<Sample> {
    if s == [] then []
    else
      var rest := LiveSamples(s[..|s| - 1]);
      var node := s[|s| - 1];
      if node.live && node.power > 0 then rest + [Sample(node.id, node.power)] else rest
  }

  /** By power, then by id. */
  predicate SampleLeq(x: Sample, y: Sample) {
    x.power < y.power || (x.power == y.power && !Before(y.id, x.id))
  }

  lemma SampleLeqIsTotal()
    ensures TotalPreorder(SampleLeq)
  {
    forall x: Sample, y: Sample ensures SampleLeq(x, y) || SampleLeq(y, x) {
      if Before(y.id, x.id) {
        BeforeAsymmetric(y.id, x.id);
      }
    }
    forall x: Sample, y: Sample, z: Sample | SampleLeq(x, y) && SampleLeq(y, z) ensures SampleLeq(x, z) {
      if x.power == z.power && Before(z.id, x.id) {
        BeforeTotal(x.id, y.id);
        BeforeTotal(y.id, z.id);
        if x.id != y.id {
          BeforeTransitive(z.id, x.id, y.id);
        }
      }
    }
  }

  function SampleSum(s: seq<Sample>): int {
    if s == [] then 0 else s[0].power + SampleSum(s[1..])
  }

  function SampleIDs(s: seq<Sample>): seq<NodeID> {
    seq(|s|, i requires 0 <= i < |s| => s[i].id)
  }

  lemma {:induction false} SampleSumConcat(a: seq<Sample>, b: seq<Sample>)
    ensures SampleSum(a + b) == SampleSum(a) + SampleSum(b)
    decreases |a|
  {
    if a == [] {
      assert a + b == b;
    } else {
      assert (a + b)[1..] == a[1..] + b;
      SampleSumConcat(a[1..], b);
    }
  }

  lemma PrefixSum(s: seq<Sample>, k: nat)
    requires k < |s|
    ensures SampleSum(s[..k + 1]) == SampleSum(s[..k]) + s[k].power
  {
    assert s[..k + 1] == s[..k] + [s[k]];
    SampleSumConcat(s[..k], [s[k]]);
    assert SampleSum([s[k]]) == s[k].power + SampleSum([]);
  }

  lemma {:induction false} InsertKeepsSum(x: Sample, s: seq<Sample>)
    ensures SampleSum(Insert(x, s, SampleLeq)) == x.power + SampleSum(s)
    decreases |s|
  {
    if s == [] || SampleLeq(x, s[0]) {
      assert ([x] + s)[1..] == s;
    } else {
      var rest := Insert(x, s[1..], SampleLeq);
      assert ([s[0]] + rest)[1..] == rest;
      InsertKeepsSum(x, s[1..]);
    }
  }

  lemma {:induction false} SortKeepsSum(s: seq<Sample>)
    ensures SampleSum(Sort(s, SampleLeq)) == SampleSum(s)
    decreases |s|
  {
    if s != [] {
      SortKeepsSum(s[1..]);
      InsertKeepsSum(s[0], Sort(s[1..], SampleLeq));
    }
  }

  /** What liveValidatorPowers promises: the live power, positive powers, in order, ids as distinct as given. */
  ghost predicate IsLiveList(s: Snapshot, live: seq<Sample>) {
    && Sorted(live, SampleLeq)
    && multiset(live) == multiset(LiveSamples(s))
    && SampleSum(live) == SeqSum(LiveOf(s))
    && (forall i :: 0 <= i < |live| ==> live[i].power > 0)
    && (DistinctIDs(s) ==> Distinct(SampleIDs(live)))
  }

  ghost predicate DistinctIDs(s: Snapshot) {
    forall i, j :: 0 <= i < j < |s| ==> s[i].id != s[j].id
  }

  lemma {:induction false} LiveSamplesAdd(s: Snapshot)
    ensures SampleSum(LiveSamples(s)) == SeqSum(LiveOf(s))
    decreases |s|
  {
    if s != [] {
      var n := |s| - 1;
      LiveSamplesAdd(s[..n]);
      assert LiveOf(s)[..n] == LiveOf(s[..n]);
      if s[n].live && s[n].power > 0 {
        var last := [Sample(s[n].id, s[n].power)];
        SampleSumConcat(LiveSamples(s[..n]), last);
        assert SampleSum(last) == s[n].power + SampleSum([]);
      }
    }
  }

  lemma {:induction false} LiveSamplesFromSnapshot(s: Snapshot)
    ensures forall x :: x in LiveSamples(s) ==>
              x.power > 0 && exists i :: 0 <= i < |s| && s[i].id == x.id && s[i].power == x.power && s[i].live
    decreases |s|
  {
    if s != [] {
      var n := |s| - 1;
      LiveSamplesFromSnapshot(s[..n]);
      forall x | x in LiveSamples(s)
        ensures x.power > 0 && exists i :: 0 <= i < |s| && s[i].id == x.id && s[i].power == x.power && s[i].live
      {
        if x in LiveSamples(s[..n]) {
          var i :| 0 <= i < n && s[..n][i].id == x.id && s[..n][i].power == x.power && s[..n][i].live;
          assert s[i].id == x.id;
        } else {
          assert s[n].id == x.id;
        }
      }
    }
  }

  lemma {:induction false} LiveSamplesDistinct(s: Snapshot)
    requires DistinctIDs(s)
    ensures Distinct(SampleIDs(LiveSamples(s)))
    decreases |s|
  {
    if s != [] {
      var n := |s| - 1;
      LiveSamplesDistinct(s[..n]);
      LiveSamplesFromSnapshot(s[..n]);
      var rest := LiveSamples(s[..n]);
      forall i | 0 <= i < |rest| ensures rest[i].id != s[n].id {
        assert rest[i] in rest;
      }
      var all := LiveSamples(s);
      forall i, j | 0 <= i < j < |all| ensures all[i].id != all[j].id {
        if j < |rest| {
          assert SampleIDs(rest)[i] != SampleIDs(rest)[j];
        }
      }
    }
  }

  /** Equal contents have equally distinct ids. */
  lemma DistinctIDsKept(a: seq<Sample>, b: seq<Sample>)
    requires multiset(a) == multiset(b) && Distinct(SampleIDs(a))
    ensures Distinct(SampleIDs(b))
  {
    assert Distinct(a) by {
      forall i, j | 0 <= i < j < |a| ensures a[i] != a[j] {
        assert SampleIDs(a)[i] != SampleIDs(a)[j];
      }
    }
    DistinctPermutation(a, b);
    SameElements(a, b);
    forall i, j | 0 <= i < j < |b| ensures b[i].id != b[j].id {
      assert b[i] in a && b[j] in a;
      var i', j' :| 0 <= i' < |a| && 0 <= j' < |a| && a[i'] == b[i] && a[j'] == b[j];
      assert i' != j';
      assert SampleIDs(a)[i'] != SampleIDs(a)[j'];
    }
  }

  lemma SortedLiveList(s: Snapshot)
    ensures IsLiveList(s, Sort(LiveSamples(s), SampleLeq))
  {
    SampleLeqIsTotal();
    var live := Sort(LiveSamples(s), SampleLeq);
    SortSorts(LiveSamples(s), SampleLeq);
    SortKeepsSum(LiveSamples(s));
    LiveSamplesAdd(s);
    LiveSamplesFromSnapshot(s);
    SameElements(live, LiveSamples(s));
    forall i | 0 <= i < |live| ensures live[i].power > 0 {
      assert live[i] in LiveSamples(s);
    }
    if DistinctIDs(s) {
      LiveSamplesDistinct(s);
      DistinctIDsKept(LiveSamples(s), live);
    }
  }

  method LiveValidatorPowers(s: Snapshot) returns (live: seq<Sample>)
    ensures IsLiveList(s, live)
  {
    var out: seq<Sample> := [];
    for i := 0 to |s|
      invariant out == LiveSamples(s[..i])
    {
      assert s[..i + 1][..i] == s[..i];
      if !s[i].live || s[i].power <= 0 {
        continue;
      }
      out := out + [Sample(s[i].id, s[i].power)];
    }
    assert s[..|s|] == s;
    live := Sort(out, SampleLeq);
    SortedLiveList(s);
  }

  // ---------------------------------------------------------------- the boundary plan

  datatype PlanError = NoPower | LacksQuorum | TooFewLive | NoBoundary

  datatype Result<T> = Ok(value: T) | Err(error: PlanError)

  datatype BoundaryPlan = BoundaryPlan(
    preserve: seq<NodeID>, breaker: NodeID,
    totalPower: int, livePowerBefore: int, livePowerAfter: int, livePowerBreakage: int)

  predicate Keeps(total: int, live: int) { live * 3 > total * 2 }

  /** The first k of the live list can be stopped; after that no single further one can. */
  ghost predicate Boundary(live: seq<Sample>, total: int, k: nat) {
    && k < |live|
    && var after := SampleSum(live) - SampleSum(live[..k]);
       && Keeps(total, after)
       && (forall j :: k <= j < |live| ==> !Keeps(total, after - live[j].power))
  }

  ghost predicate IsBoundaryPlan(plan: BoundaryPlan, live: seq<Sample>, total: int) {
    var k := |plan.preserve|;
    && Boundary(live, total, k)
    && plan.preserve == SampleIDs(live[..k])
    && plan.breaker == live[k].id
    && plan.totalPower == total
    && plan.livePowerBefore == SampleSum(live)
    && plan.livePowerAfter == SampleSum(live) - SampleSum(live[..k])
    && plan.livePowerBreakage == plan.livePowerAfter - live[k].power
  }

  /** The greedy pass: it stops validators as long as the quorum stands, and that is a prefix. */
  method GreedyPreserve(live: seq<Sample>, total: int, livePower: int) returns (preserve: seq<NodeID>, after: int)
    requires Sorted(live, SampleLeq) && livePower == SampleSum(live) && total > 0 && Keeps(total, livePower)
    ensures Boundary(live, total, |preserve|)
    ensures preserve == SampleIDs(live[..|preserve|])
    ensures after == livePower - SampleSum(live[..|preserve|])
  {
    preserve, after := [], livePower;
    for i := 0 to |live|
      invariant |preserve| <= i
      invariant preserve == SampleIDs(live[..|preserve|])
      invariant after == livePower - SampleSum(live[..|preserve|]) && Keeps(total, after)
      invariant forall j :: |preserve| <= j < i ==> !Keeps(total, after - live[j].power)
    {
      var next := after - live[i].power;
      assert |preserve| < i ==> SampleLeq(live[|preserve|], live[i]);
      if Keeps(total, next) {
        PrefixSum(live, i);
        preserve := preserve + [live[i].id];
        after := next;
      }
    }
    assert live[..|live|] == live;
  }

  method QuorumBoundaryPlan(s: Snapshot) returns (r: Result<BoundaryPlan>)
    ensures var total, live := SeqSum(VotingOf(s)), SeqSum(LiveOf(s));
            && (total <= 0 ==> r == Err(NoPower))
            && (total > 0 && !Keeps(total, live) ==> r == Err(LacksQuorum))
            && (SnapshotQuorum(s) && DistinctIDs(s) ==>
                  r.Ok? && exists samples :: IsLiveList(s, samples) && IsBoundaryPlan(r.value, samples, total))
  {
    var total, livePower := ValidatorPower(s);
    if total <= 0 {
      return Err(NoPower);
    }
    if livePower * 3 <= total * 2 {
      return Err(LacksQuorum);
    }
    // Live power is positive here, so the list is not empty and the source's test for that cannot fire.
    var live := LiveValidatorPowers(s);
    var preserve, after := GreedyPreserve(live, total, livePower);
    var preserved := set id | id in preserve;
    for i := 0 to |live|
      invariant DistinctIDs(s) ==> i <= |preserve|
    {
      assert i < |preserve| ==> preserve[i] == live[i].id;
      if live[i].id in preserved {
        var j :| 0 <= j < |preserve| && preserve[j] == live[i].id;
        assert SampleIDs(live)[j] == SampleIDs(live)[i];
        continue;
      }
      var next := after - live[i].power;
      if next * 3 <= total * 2 {
        r := Ok(BoundaryPlan(preserve, live[i].id, total, livePower, after, next));
        assert DistinctIDs(s) ==> IsBoundaryPlan(r.value, live, total);
        return;
      }
    }
    r := Err(NoBoundary);
  }

  // ---------------------------------------------------------------- the boundary plan is the best one

  /** The power lost by stopping a set of live validators. */
  function StopPower(live: seq<Sample>, stop: set<NodeID>): int {
    if live == [] then 0
    else
      var n := |live| - 1;
      StopPower(live[..n], stop) + (if live[n].id in stop then live[n].power else 0)
  }

  ghost predicate StopsLive(live: seq<Sample>, stop: set<NodeID>) {
    forall id :: id in stop ==> exists i :: 0 <= i < |live| && live[i].id == id
  }

  lemma {:induction false} StopPowerIgnoresOthers(live: seq<Sample>, stop: set<NodeID>, id: NodeID)
    requires forall i :: 0 <= i < |live| ==> live[i].id != id
    ensures StopPower(live, stop) == StopPower(live, stop - {id})
    decreases |live|
  {
    if live != [] {
      StopPowerIgnoresOthers(live[..|live| - 1], stop, id);
    }
  }

  lemma {:induction false} StopSetSize(live: seq<Sample>, stop: set<NodeID>)
    requires StopsLive(live, stop)
    ensures |stop| <= |live|
    decreases |live|
  {
    if live == [] {
      assert stop == {};
    } else {
      var n := |live| - 1;
      var rest := stop - {live[n].id};
      assert StopsLive(live[..n], rest) by {
        forall id | id in rest ensures exists i :: 0 <= i < n && live[..n][i].id == id {
          var i :| 0 <= i < |live| && live[i].id == id;
          assert live[..n][i].id == id;
        }
      }
      StopSetSize(live[..n], rest);
      assert |stop| <= |rest| + 1;
    }
  }

  lemma StopsLiveWithoutLast(live: seq<Sample>, stop: set<NodeID>)
    requires live != [] && StopsLive(live, stop)
    ensures StopsLive(live[..|live| - 1], stop - {live[|live| - 1].id})
  {
    var n := |live| - 1;
    forall id | id in stop - {live[n].id} ensures exists i :: 0 <= i < n && live[..n][i].id == id {
      var i :| 0 <= i < |live| && live[i].id == id;
      assert live[..n][i].id == id;
    }
  }

  lemma DistinctInit(live: seq<Sample>)
    requires live != [] && Distinct(SampleIDs(live))
    ensures Distinct(SampleIDs(live[..|live| - 1]))
    ensures forall i :: 0 <= i < |live| - 1 ==> live[i].id != live[|live| - 1].id
  {
    var n := |live| - 1;
    assert forall i :: 0 <= i < n ==> SampleIDs(live[..n])[i] == SampleIDs(live)[i];
    forall i | 0 <= i < n ensures live[i].id != live[n].id {
      assert SampleIDs(live)[i] != SampleIDs(live)[n];
    }
  }

  lemma PrefixBelow(live: seq<Sample>, m: nat)
    requires Sorted(live, SampleLeq) && 1 <= m <= |live|
    ensures SampleSum(live[..m]) <= SampleSum(live[..m - 1]) + live[|live| - 1].power
  {
    PrefixSum(live, m - 1);
    assert m < |live| ==> SampleLeq(live[m - 1], live[|live| - 1]);
  }

  lemma {:induction false} WeakestStep(live: seq<Sample>, stop: set<NodeID>)
    requires live != [] && Sorted(live, SampleLeq) && Distinct(SampleIDs(live)) && |stop| <= |live|
    requires var init, rest := live[..|live| - 1], stop - {live[|live| - 1].id};
             |rest| <= |init| && StopPower(init, rest) >= SampleSum(init[..|rest|])
    ensures StopPower(live, stop) >= SampleSum(live[..|stop|])
  {
    var init, last := live[..|live| - 1], live[|live| - 1];
    var rest := stop - {last.id};
    DistinctInit(live);
    StopPowerIgnoresOthers(init, stop, last.id);
    assert init[..|rest|] == live[..|rest|];
    if last.id in stop {
      PrefixBelow(live, |stop|);
    } else {
      assert rest == stop;
    }
  }

  /** Any m live validators together carry at least the power of the m weakest. */
  lemma {:induction false} WeakestFirst(live: seq<Sample>, stop: set<NodeID>)
    requires Sorted(live, SampleLeq) && Distinct(SampleIDs(live)) && StopsLive(live, stop)
    ensures |stop| <= |live| && StopPower(live, stop) >= SampleSum(live[..|stop|])
    decreases |live|
  {
    StopSetSize(live, stop);
    if live != [] {
      var n := |live| - 1;
      DistinctInit(live);
      StopsLiveWithoutLast(live, stop);
      WeakestFirst(live[..n], stop - {live[n].id});
      WeakestStep(live, stop);
    }
  }

  lemma {:induction false} PrefixSumGrows(live: seq<Sample>, k: nat, m: nat)
    requires k <= m <= |live| && forall i :: 0 <= i < |live| ==> live[i].power > 0
    ensures SampleSum(live[..k]) <= SampleSum(live[..m])
    decreases m
  {
    if k < m {
      PrefixSumGrows(live, k, m - 1);
      PrefixSum(live, m - 1);
    }
  }

  /** No set of live validators larger than the plan's can be stopped without losing the quorum. */
  lemma BoundaryIsMaximal(s: Snapshot, live: seq<Sample>, total: int, k: nat, stop: set<NodeID>)
    requires IsLiveList(s, live) && DistinctIDs(s) && Boundary(live, total, k) && StopsLive(live, stop)
    requires Keeps(total, SampleSum(live) - StopPower(live, stop))
    ensures |stop| <= k
  {
    WeakestFirst(live, stop);
    PrefixSum(live, k);
    assert !Keeps(total, SampleSum(live) - SampleSum(live[..k]) - live[k].power);
    if |stop| > k {
      PrefixSumGrows(live, k + 1, |stop|);
    }
  }

  function PrefixIDs(live: seq<Sample>, k: nat): set<NodeID>
    requires k <= |live|
  {
    set i | 0 <= i < k :: live[i].id
  }

  lemma LaterNotInPrefix(live: seq<Sample>, k: nat, n: nat)
    requires k <= n < |live| && Distinct(SampleIDs(live))
    ensures live[n].id !in PrefixIDs(live, k)
  {
    forall i | 0 <= i < k ensures live[i].id != live[n].id {
      assert SampleIDs(live)[i] != SampleIDs(live)[n];
    }
  }

  lemma {:induction false} PrefixStopPower(live: seq<Sample>, k: nat, n: nat)
    requires k <= n <= |live| && Distinct(SampleIDs(live))
    ensures StopPower(live[..n], PrefixIDs(live, k)) == SampleSum(live[..k])
    decreases n
  {
    if n > 0 {
      var init := live[..n - 1];
      assert live[..n][..n - 1] == init;
      if k < n {
        PrefixStopPower(live, k, n - 1);
        LaterNotInPrefix(live, k, n - 1);
      } else {
        PrefixStopPower(live, k - 1, n - 1);
        PrefixSum(live, k - 1);
        var last := live[n - 1].id;
        forall i | 0 <= i < |init| ensures init[i].id != last {
          assert SampleIDs(live)[i] != SampleIDs(live)[n - 1];
        }
        StopPowerIgnoresOthers(init, PrefixIDs(live, k), last);
        LaterNotInPrefix(live, k - 1, n - 1);
        assert PrefixIDs(live, k) == PrefixIDs(live, k - 1) + {last};
        assert PrefixIDs(live, k) - {last} == PrefixIDs(live, k - 1);
      }
    }
  }

  /** The plan's own stop set is one of the sets BoundaryIsMaximal bounds: it keeps the quorum. */
  lemma BoundaryIsAttained(s: Snapshot, live: seq<Sample>, total: int, k: nat)
    requires IsLiveList(s, live) && DistinctIDs(s) && Boundary(live, total, k)
    ensures var stop := PrefixIDs(live, k);
            StopsLive(live, stop) && Keeps(total, SampleSum(live) - StopPower(live, stop))
  {
    PrefixStopPower(live, k, |live|);
    assert live[..|live|] == live;
  }

  // ---------------------------------------------------------------- the mixed removal-and-stop plan

  datatype MixedPlan = MixedPlan(
    remove: seq<NodeID>, stop: seq<NodeID>, totalPower: int, removedPower: int, stoppedPower: int)

  /**
   Removing the r weakest and then stopping the next s: progress after the removal, a stall after the
   stop, progress again once the removed ones are back.
   */
  ghost predicate Works(live: seq<Sample>, total: int, r: nat, s: nat) {
    && 1 <= r && 1 <= s && r + s <= |live|
    && var removed, stopped, livePower := SampleSum(live[..r]), SampleSum(live[r..r + s]), SampleSum(live);
       && total - removed > 0
       && Keeps(total - removed, livePower - removed)
       && !Keeps(total - removed, livePower - removed - stopped)
       && Keeps(total, livePower - stopped)
  }

  ghost predicate IsMixedPlan(plan: MixedPlan, live: seq<Sample>, total: int, r: nat, s: nat) {
    && Works(live, total, r, s)
    && plan.remove == SampleIDs(live[..r])
    && plan.stop == SampleIDs(live[r..r + s])
    && plan.totalPower == total
    && plan.removedPower == SampleSum(live[..r])
    && plan.stoppedPower == SampleSum(live[r..r + s])
  }

  ghost predicate NoPair(live: seq<Sample>, total: int, r: nat) {
    forall s: nat :: !Works(live, total, r, s)
  }

  /** No pair with fewer removals works, nor one with as many removals and fewer stops. */
  ghost predicate IsFirstMixedPlan(plan: MixedPlan, live: seq<Sample>, total: int, r: nat, s: nat) {
    && IsMixedPlan(plan, live, total, r, s)
    && (forall r': nat :: r' < r ==> NoPair(live, total, r'))
    && (forall s': nat :: s' < s ==> !Works(live, total, r, s'))
  }

  lemma SegmentSum(live: seq<Sample>, r: nat, s: nat)
    requires r + s < |live|
    ensures SampleSum(live[r..r + s + 1]) == SampleSum(live[r..r + s]) + live[r + s].power
  {
    assert live[r..][..s] == live[r..r + s] && live[r..][..s + 1] == live[r..r + s + 1];
    PrefixSum(live[r..], s);
  }

  /** The inner search: the first segment after the removed prefix that works, if any does. */
  method FindStop(live: seq<Sample>, total: int, livePower: int, r: nat) returns (s: nat)
    requires 1 <= r < |live| && livePower == SampleSum(live)
    ensures s == 0 ==> NoPair(live, total, r)
    ensures s > 0 ==> Works(live, total, r, s) && forall s': nat :: s' < s ==> !Works(live, total, r, s')
  {
    var removed := SampleSum(live[..r]);
    var totalAfter, liveAfter := total - removed, livePower - removed;
    if totalAfter <= 0 || liveAfter * 3 <= totalAfter * 2 {
      return 0;
    }
    var stopped := 0;
    assert live[r..r + 0] == [];
    for i := 0 to |live| - r
      invariant stopped == SampleSum(live[r..r + i])
      invariant forall s': nat :: s' <= i ==> !Works(live, total, r, s')
    {
      SegmentSum(live, r, i);
      stopped := stopped + live[r + i].power;
      if (liveAfter - stopped) * 3 > totalAfter * 2 {
        continue;
      }
      if (livePower - stopped) * 3 <= total * 2 {
        continue;
      }
      return i + 1;
    }
    s := 0;
  }

  /**
   Soundness and completeness of the search: a returned plan is the first pair that works (fewest
   removals, then fewest stops), and "no boundary" means no pair works at all.
   */
  method MixedLifecycleQuorumPlan(s: Snapshot) returns (res: Result<MixedPlan>, live: seq<Sample>)
    ensures var total, power := SeqSum(VotingOf(s)), SeqSum(LiveOf(s));
            && (total <= 0 ==> res == Err(NoPower))
            && (total > 0 && !Keeps(total, power) ==> res == Err(LacksQuorum))
            && (SnapshotQuorum(s) ==>
                  && IsLiveList(s, live)
                  && (|live| < 4 ==> res == Err(TooFewLive))
                  && (|live| >= 4 && res.Err? ==> res == Err(NoBoundary) && forall r: nat :: NoPair(live, total, r))
                  && (res.Ok? ==> exists r: nat, n: nat :: IsFirstMixedPlan(res.value, live, total, r, n)))
  {
    live := [];
    var total, livePower := ValidatorPower(s);
    if total <= 0 {
      return Err(NoPower), live;
    }
    if livePower * 3 <= total * 2 {
      return Err(LacksQuorum), live;
    }
    live := LiveValidatorPowers(s);
    if |live| < 4 {
      return Err(TooFewLive), live;
    }
    for r := 1 to |live|
      invariant forall r': nat :: r' < r ==> NoPair(live, total, r')
    {
      var n := FindStop(live, total, livePower, r);
      if n > 0 {
        var plan := MixedPlan(SampleIDs(live[..r]), SampleIDs(live[r..r + n]), total,
                              SampleSum(live[..r]), SampleSum(live[r..r + n]));
        assert IsFirstMixedPlan(plan, live, total, r, n);
        return Ok(plan), live;
      }
    }
    res := Err(NoBoundary);
  }

  // ---------------------------------------------------------------- when a mixed plan exists

  lemma {:induction false} EqualPowersSum(live: seq<Sample>, w: int)
    requires forall i :: 0 <= i < |live| ==> live[i].power == w
    ensures SampleSum(live) == |live| * w
    decreases |live|
  {
    if live != [] {
      EqualPowersSum(live[1..], w);
    }
  }

  lemma {:induction false} PositiveSum(s: seq<Sample>, w: int)
    requires s != [] && w > 0 && forall i :: 0 <= i < |s| ==> s[i].power >= w
    ensures SampleSum(s) >= w
    decreases |s|
  {
    if |s| > 1 {
      PositiveSum(s[1..], w);
    }
  }

  /** How much online power, tripled, exceeds the two thirds. */
  ghost function Slack(live: seq<Sample>, total: int): int { 3 * SampleSum(live) - 2 * total }

  /** A pair works when the removal alone and the stop alone stay inside the slack, but not both together. */
  lemma WorksBySlack(live: seq<Sample>, total: int, w: int, r: nat, s: nat)
    requires w > 0 && 1 <= r && 1 <= s && r + s <= |live|
    requires (forall i :: 0 <= i < |live| ==> live[i].power >= w) && total >= SampleSum(live)
    ensures var removed, stopped := SampleSum(live[..r]), SampleSum(live[r..r + s]);
            Works(live, total, r, s) <==>
            removed < Slack(live, total) && 3 * stopped < Slack(live, total) <= removed + 3 * stopped
  {
    assert live == live[..r] + live[r..];
    SampleSumConcat(live[..r], live[r..]);
    PositiveSum(live[r..], w);
  }

  /** Division with the remainder kept above zero. */
  lemma CeilDivision(x: int, w: int) returns (q: int)
    requires x > 0 && w > 0
    ensures q >= 0 && q * w < x <= q * w + w
  {
    q := (x - 1) / w;
    assert x - 1 == w * q + (x - 1) % w;
    assert w * q == q * w;
  }

  lemma SmallMultiple(q: int, n: int, w: int)
    requires w > 0 && q * w < n * w
    ensures q < n
  {
    assert (n - q) * w > 0;
  }

  lemma RemovalCount(slack: int, n: nat, w: int) returns (r: nat)
    requires w > 0 && slack > 3 * w && slack <= n * w
    ensures 1 <= r && r + 1 <= n
    ensures r * w < slack <= r * w + 3 * w
  {
    var q := CeilDivision(slack - 3 * w, w);
    r := q + 1;
    assert r * w == q * w + w;
    assert (n - 3) * w == n * w - 3 * w;
    SmallMultiple(q, n - 3, w);
  }

  /** The slack is more than three shares: remove enough to bring it down to at most three. */
  lemma EnoughSlack(live: seq<Sample>, total: int, w: int) returns (r: nat)
    requires w > 0 && (forall i :: 0 <= i < |live| ==> live[i].power == w)
    requires total >= SampleSum(live) && Slack(live, total) > 3 * w
    ensures Works(live, total, r, 1)
  {
    EqualPowersSum(live, w);
    r := RemovalCount(Slack(live, total), |live|, w);
    EqualPowersSum(live[..r], w);
    EqualPowersSum(live[r..r + 1], w);
    WorksBySlack(live, total, w, r, 1);
  }

  lemma NeedsSlack(live: seq<Sample>, total: int, w: int, r: nat, s: nat)
    requires w > 0 && (forall i :: 0 <= i < |live| ==> live[i].power == w)
    requires total >= SampleSum(live) && Works(live, total, r, s)
    ensures Slack(live, total) > 3 * w
  {
    WorksBySlack(live, total, w, r, s);
    PositiveSum(live[r..r + s], w);
  }

  /**
   With live validators of equal power a mixed plan exists if and only if the quorum survives the loss
   of any one of them. Validators that hold power but are not live can make that fail, so four live
   validators alone are not enough.
   */
  lemma EqualPowersPlanExists(live: seq<Sample>, total: int, w: int)
    requires w > 0 && (forall i :: 0 <= i < |live| ==> live[i].power == w)
    requires total >= SampleSum(live)
    ensures (exists r: nat, s: nat :: Works(live, total, r, s)) <==> Keeps(total, SampleSum(live) - w)
  {
    if r: nat, s: nat :| Works(live, total, r, s) {
      NeedsSlack(live, total, w, r, s);
    } else if Slack(live, total) > 3 * w {
      var r := EnoughSlack(live, total, w);
    }
  }

  lemma MoreThanThreeShares(n: nat, w: int)
    requires n >= 4 && w > 0
    ensures n * w > 3 * w
  {
    assert n * w == (n - 4) * w + 4 * w;
  }

  /** In particular a plan exists when at least four validators are live and they hold all the power. */
  lemma AllLivePlanExists(live: seq<Sample>, w: int)
    requires |live| >= 4 && w > 0 && (forall i :: 0 <= i < |live| ==> live[i].power == w)
    ensures exists r: nat, s: nat :: Works(live, SampleSum(live), r, s)
  {
    EqualPowersSum(live, w);
    MoreThanThreeShares(|live|, w);
    var r := EnoughSlack(live, SampleSum(live), w);
  }

  lemma {:induction false} LiveWithinTotal(s: Snapshot)
    ensures SeqSum(LiveOf(s)) <= SeqSum(VotingOf(s))
    decreases |s|
  {
    if s != [] {
      var n := |s| - 1;
      LiveWithinTotal(s[..n]);
      assert LiveOf(s)[..n] == LiveOf(s[..n]) && VotingOf(s)[..n] == VotingOf(s[..n]);
    }
  }

  /** The same for a snapshot: equal live powers leave a plan to find exactly when one live loss is affordable. */
  lemma SnapshotPlanExists(s: Snapshot, live: seq<Sample>, w: int)
    requires IsLiveList(s, live) && w > 0 && forall i :: 0 <= i < |live| ==> live[i].power == w
    ensures (exists r: nat, n: nat :: Works(live, SeqSum(VotingOf(s)), r, n)) <==>
            Keeps(SeqSum(VotingOf(s)), SeqSum(LiveOf(s)) - w)
  {
    LiveWithinTotal(s);
    EqualPowersPlanExists(live, SeqSum(VotingOf(s)), w);
  }

  /** Five validators of power ten, the last of them down. */
  function FourOfFive(): Snapshot {
    seq(5, i requires 0 <= i < 5 => NodeStatus("abcde"[i..i + 1], "", true, true, i < 4, true, 1, "", "", 10))
  }

  lemma FiveSum(s: seq<int>)
    requires |s| == 5
    ensures SeqSum(s) == s[0] + s[1] + s[2] + s[3] + s[4]
  {
    assert s[..4][..3] == s[..3] && s[..3][..2] == s[..2] && s[..2][..1] == s[..1] && s[..1][..0] == [];
    assert SeqSum(s[..1]) == SeqSum([]) + s[0];
    assert SeqSum(s[..2]) == SeqSum(s[..1]) + s[1];
    assert SeqSum(s[..3]) == SeqSum(s[..2]) + s[2];
    assert SeqSum(s[..4]) == SeqSum(s[..3]) + s[3];
  }

  lemma FourOfFiveSums()
    ensures SeqSum(VotingOf(FourOfFive())) == 50 && SeqSum(LiveOf(FourOfFive())) == 40
  {
    FiveSum(VotingOf(FourOfFive()));
    FiveSum(LiveOf(FourOfFive()));
  }

  lemma FourOfFiveDistinct()
    ensures DistinctIDs(FourOfFive())
  {
    var s := FourOfFive();
    forall i, j | 0 <= i < j < |s| ensures s[i].id != s[j].id {
      assert s[i].id[0] == "abcde"[i] && s[j].id[0] == "abcde"[j];
    }
  }

  /** Four live validators of five equal ones have a quorum, and yet the planner has no plan for them. */
  lemma FourOfFiveHasNoPlan(live: seq<Sample>)
    requires IsLiveList(FourOfFive(), live)
    ensures DistinctIDs(FourOfFive()) && |live| == 4 && SnapshotQuorum(FourOfFive())
    ensures !exists r: nat, n: nat :: Works(live, SeqSum(VotingOf(FourOfFive())), r, n)
  {
    var s := FourOfFive();
    FourOfFiveSums();
    FourOfFiveDistinct();
    LiveSamplesFromSnapshot(s);
    SameElements(live, LiveSamples(s));
    forall i | 0 <= i < |live| ensures live[i].power == 10 {
      assert live[i] in LiveSamples(s);
    }
    EqualPowersSum(live, 10);
    SnapshotPlanExists(s, live, 10);
  }

  // ---------------------------------------------------------------- cohort sizes

  function MinimumQuorumNodes(nodes: int): int {
    if nodes <= 0 then 0 else nodes * 2 / 3 + 1
  }

  function QuorumLossCohort<T>(ids: seq<T>): (r: seq<T>)
    ensures r <= ids
    ensures ids != [] ==> |ids| - |r| < MinimumQuorumNodes(|ids|) <= |ids| - |r| + 1
  {
    if ids == [] then []
    else
      var size := |ids| - |ids| * 2 / 3;
      ids[..if size < 1 then 1 else if size > |ids| then |ids| else size]
  }

  function QuorumPreservingCohort<T>(ids: seq<T>): (r: seq<T>)
    ensures r <= ids
    ensures ids != [] ==> MinimumQuorumNodes(|ids|) == |ids| - |r|
  {
    var size := |ids| - MinimumQuorumNodes(|ids|);
    if size <= 0 then [] else ids[..size]
  }

  /** Equal votes: the loss cohort is the smallest that breaks the quorum, the preserving one the largest that does not. */
  lemma CohortsMeetAtTheBoundary<T>(ids: seq<T>)
    requires ids != []
    ensures var n := |ids|;
            && !Quorum(n, n - |QuorumLossCohort(ids)|)
            && Quorum(n, n - |QuorumPreservingCohort(ids)|)
            && |QuorumLossCohort(ids)| == |QuorumPreservingCohort(ids)| + 1
  {
  }
}
