/**
 Carrying out a mixed removal-and-stop plan on the lifecycle model (pkg/fuzz/scenarios.go, the
 deregister/jail, stop, register/unjail and start steps around the plan).
 */
module MixedPlanExecution {
  import opened Sums
  import opened Ordering
  import opened ValidatorModel
  import opened SimulatedNetworks
  import opened QuorumPlans

  /** The two ways the scenarios take validators out of the set and bring them back. */
  datatype Removal = ByRegistration | ByJailing

  function RemoveKind(v: Removal): ActionKind { if v.ByRegistration? then Deregister else Jail }
  function RestoreKind(v: Removal): ActionKind { if v.ByRegistration? then Register else Unjail }

  function Each(kind: ActionKind, ids: seq<NodeID>): seq<Action> {
    seq(|ids|, i requires 0 <= i < |ids| => Action(kind, ids[i]))
  }

  function IdSet(ids: seq<NodeID>): set<NodeID> { set id | id in ids }

  /** The nodes after one action of the given kind on every node of a set. */
  function Advanced(nodes: map<NodeID, Node>, ids: set<NodeID>, kind: ActionKind): map<NodeID, Node> {
    map id | id in nodes :: if id in ids then NextNode(Current, kind, nodes[id]) else nodes[id]
  }

  // ---------------------------------------------------------------- runs in phases

  lemma {:induction false} NodesAfterConcat(nodes: map<NodeID, Node>, a: seq<Action>, b: seq<Action>)
    ensures NodesAfter(nodes, a + b) == NodesAfter(NodesAfter(nodes, a), b)
    ensures QuorumTicks(nodes, a + b) == QuorumTicks(nodes, a) + QuorumTicks(NodesAfter(nodes, a), b)
    decreases |b|
  {
    if b == [] {
      assert a + b == a;
    } else {
      var n := |b| - 1;
      assert (a + b)[..|a + b| - 1] == a + b[..n];
      NodesAfterConcat(nodes, a, b[..n]);
    }
  }

  lemma IdSetAppend(ids: seq<NodeID>, id: NodeID)
    ensures IdSet(ids + [id]) == IdSet(ids) + {id}
  {
  }

  /** Acting on one more node extends the set acted on. */
  lemma AdvancedExtend(nodes: map<NodeID, Node>, ids: set<NodeID>, id: NodeID, kind: ActionKind)
    requires id in nodes && id !in ids
    ensures var m := Advanced(nodes, ids, kind);
            m[id := NextNode(Current, kind, m[id])] == Advanced(nodes, ids + {id}, kind)
  {
  }

  lemma {:induction false} EachEffect(nodes: map<NodeID, Node>, kind: ActionKind, ids: seq<NodeID>)
    requires Distinct(ids) && kind != Tick && forall i :: 0 <= i < |ids| ==> ids[i] in nodes
    ensures NodesAfter(nodes, Each(kind, ids)) == Advanced(nodes, IdSet(ids), kind)
    ensures QuorumTicks(nodes, Each(kind, ids)) == 0
    decreases |ids|
  {
    if ids == [] {
      assert Advanced(nodes, IdSet(ids), kind) == nodes;
    } else {
      var n := |ids| - 1;
      var init, last := ids[..n], ids[n];
      assert last !in IdSet(init);
      assert Each(kind, ids) == Each(kind, init) + [Action(kind, last)];
      assert ids == init + [last];
      EachEffect(nodes, kind, init);
      EachLast(nodes, kind, init, last);
    }
  }

  lemma EachLast(nodes: map<NodeID, Node>, kind: ActionKind, init: seq<NodeID>, last: NodeID)
    requires kind != Tick && last in nodes && last !in IdSet(init)
    requires NodesAfter(nodes, Each(kind, init)) == Advanced(nodes, IdSet(init), kind)
    requires QuorumTicks(nodes, Each(kind, init)) == 0
    ensures var acts := Each(kind, init) + [Action(kind, last)];
            NodesAfter(nodes, acts) == Advanced(nodes, IdSet(init + [last]), kind) && QuorumTicks(nodes, acts) == 0
  {
    NodesAfterAppend(nodes, Each(kind, init), Action(kind, last));
    AdvancedExtend(nodes, IdSet(init), last, kind);
    IdSetAppend(init, last);
  }

  lemma TickEffect(nodes: map<NodeID, Node>)
    ensures NodesAfter(nodes, [Action(Tick, "")]) == nodes
    ensures QuorumTicks(nodes, [Action(Tick, "")]) == if HasOnlineQuorum(nodes) then 1 else 0
  {
    var a := Action(Tick, "");
    assert [a] == [] + [a];
    NodesAfterAppend(nodes, [], a);
  }

  /** One phase: the given actions, then a tick. */
  function Phase(kind: ActionKind, ids: seq<NodeID>): seq<Action> {
    Each(kind, ids) + [Action(Tick, "")]
  }

  lemma PhaseEffect(nodes: map<NodeID, Node>, kind: ActionKind, ids: seq<NodeID>)
    requires Distinct(ids) && kind != Tick && forall i :: 0 <= i < |ids| ==> ids[i] in nodes
    ensures NodesAfter(nodes, Phase(kind, ids)) == Advanced(nodes, IdSet(ids), kind)
    ensures QuorumTicks(nodes, Phase(kind, ids)) ==
            if HasOnlineQuorum(Advanced(nodes, IdSet(ids), kind)) then 1 else 0
  {
    EachEffect(nodes, kind, ids);
    NodesAfterConcat(nodes, Each(kind, ids), [Action(Tick, "")]);
    TickEffect(Advanced(nodes, IdSet(ids), kind));
  }

  // ---------------------------------------------------------------- powers of a set of samples

  /** The weights of a set of nodes. */
  function Within(w: map<NodeID, int>, ids: set<NodeID>): map<NodeID, int> {
    map id | id in w && id in ids :: w[id]
  }

  lemma WithinExtend(w: map<NodeID, int>, ids: set<NodeID>, id: NodeID)
    requires id in w && id !in ids
    ensures Total(Within(w, ids + {id})) == Total(Within(w, ids)) + w[id]
  {
    var part := Within(w, ids + {id});
    assert part - {id} == Within(w, ids);
    TotalSplit(part, id);
  }

  /** Every sample names a weight and carries its value. */
  ghost predicate Weighs(samples: seq<Sample>, w: map<NodeID, int>) {
    forall i :: 0 <= i < |samples| ==> samples[i].id in w && w[samples[i].id] == samples[i].power
  }

  lemma InitWithoutLast(ids: seq<NodeID>, id: NodeID)
    requires Distinct(ids + [id])
    ensures Distinct(ids) && id !in IdSet(ids)
  {
    var all := ids + [id];
    assert forall i :: 0 <= i < |ids| ==> all[i] == ids[i];
    assert all[|ids|] == id;
  }

  lemma {:induction false} SamplesTotal(samples: seq<Sample>, w: map<NodeID, int>)
    requires Distinct(SampleIDs(samples)) && Weighs(samples, w)
    ensures Total(Within(w, IdSet(SampleIDs(samples)))) == SampleSum(samples)
    decreases |samples|
  {
    if samples == [] {
      assert Within(w, IdSet(SampleIDs(samples))) == map[];
    } else {
      var n := |samples| - 1;
      var init, last := samples[..n], samples[n];
      assert SampleIDs(samples) == SampleIDs(init) + [last.id];
      assert samples == init + [last];
      SampleSumConcat(init, [last]);
      InitWithoutLast(SampleIDs(init), last.id);
      SamplesTotal(init, w);
      IdSetAppend(SampleIDs(init), last.id);
      WithinExtend(w, IdSet(SampleIDs(init)), last.id);
    }
  }

  /** Taking the samples out of the weights takes out exactly their power. */
  lemma WithoutSamples(samples: seq<Sample>, w: map<NodeID, int>)
    requires Distinct(SampleIDs(samples)) && Weighs(samples, w)
    ensures Total(w - IdSet(SampleIDs(samples))) == Total(w) - SampleSum(samples)
  {
    SamplesTotal(samples, w);
    TotalPartition(w, IdSet(SampleIDs(samples)));
    assert Within(w, IdSet(SampleIDs(samples))) == map id | id in w && id in IdSet(SampleIDs(samples)) :: w[id];
  }

  /** The samples are live validators of the model with the power they carry there. */
  ghost predicate LiveIn(nodes: map<NodeID, Node>, samples: seq<Sample>) {
    forall i :: 0 <= i < |samples| ==>
      && samples[i].id in nodes
      && nodes[samples[i].id].inComet && nodes[samples[i].id].online
      && nodes[samples[i].id].power == samples[i].power
  }

  lemma SnapshotSamplesAreLive(s: Sim, live: seq<Sample>)
    requires SimValid(s) && Consistent(s.model.nodes) && IsLiveList(View(s), live)
    ensures LiveIn(s.model.nodes, live) && Distinct(SampleIDs(live))
  {
    LiveSamplesFromSnapshot(View(s));
    SameElements(live, LiveSamples(View(s)));
    forall i | 0 <= i < |live|
      ensures && live[i].id in s.model.nodes
              && s.model.nodes[live[i].id].inComet && s.model.nodes[live[i].id].online
              && s.model.nodes[live[i].id].power == live[i].power
    {
      assert live[i] in LiveSamples(View(s));
      var j :| 0 <= j < |View(s)| && View(s)[j].id == live[i].id && View(s)[j].power == live[i].power && View(s)[j].live;
      assert s.order[j] in s.model.nodes;
      assert NodeConsistent(s.model.nodes[s.order[j]]);
    }
    assert DistinctIDs(View(s));
  }

  // ---------------------------------------------------------------- the four phases on node level

  lemma AfterRemoval(nodes: map<NodeID, Node>, v: Removal, removed: set<NodeID>)
    requires Consistent(nodes)
    ensures var n1 := Advanced(nodes, removed, RemoveKind(v));
            && VotingPowers(n1) == VotingPowers(nodes) - removed
            && OnlinePowers(n1) == OnlinePowers(nodes) - removed
  {
    forall id | id in nodes ensures !NextNode(Current, RemoveKind(v), nodes[id]).inComet {
      assert NodeConsistent(nodes[id]);
    }
  }

  lemma AfterStop(nodes: map<NodeID, Node>, stopped: set<NodeID>)
    ensures var n2 := Advanced(nodes, stopped, Stop);
            VotingPowers(n2) == VotingPowers(nodes) && OnlinePowers(n2) == OnlinePowers(nodes) - stopped
  {
  }

  /** Stopping one set and taking another out and back in leaves only the stop behind. */
  lemma AfterRestore(nodes: map<NodeID, Node>, v: Removal, removed: set<NodeID>, stopped: set<NodeID>)
    requires Consistent(nodes) && removed !! stopped
    requires forall id :: id in removed ==> id in nodes && nodes[id].inComet && nodes[id].online
    ensures var n3 := Advanced(Advanced(Advanced(nodes, removed, RemoveKind(v)), stopped, Stop), removed, RestoreKind(v));
            VotingPowers(n3) == VotingPowers(nodes) && OnlinePowers(n3) == OnlinePowers(nodes) - stopped
  {
    var n3 := Advanced(Advanced(Advanced(nodes, removed, RemoveKind(v)), stopped, Stop), removed, RestoreKind(v));
    forall id | id in nodes
      ensures n3[id].inComet == nodes[id].inComet && n3[id].power == nodes[id].power
      ensures n3[id].online == (nodes[id].online && id !in stopped)
    {
      assert NodeConsistent(nodes[id]);
    }
  }

  lemma AfterStart(nodes: map<NodeID, Node>, v: Removal, removed: set<NodeID>, stopped: set<NodeID>)
    requires Consistent(nodes) && removed !! stopped
    requires forall id :: id in removed + stopped ==> id in nodes && nodes[id].inComet && nodes[id].online
    ensures var n3 := Advanced(Advanced(Advanced(nodes, removed, RemoveKind(v)), stopped, Stop), removed, RestoreKind(v));
            var n4 := Advanced(n3, stopped, Start);
            VotingPowers(n4) == VotingPowers(nodes) && OnlinePowers(n4) == OnlinePowers(nodes)
  {
    var n3 := Advanced(Advanced(Advanced(nodes, removed, RemoveKind(v)), stopped, Stop), removed, RestoreKind(v));
    var n4 := Advanced(n3, stopped, Start);
    forall id | id in nodes
      ensures n4[id].inComet == nodes[id].inComet && n4[id].power == nodes[id].power && n4[id].online == nodes[id].online
    {
      assert NodeConsistent(nodes[id]);
    }
  }

  /** The nodes after each of the four phases. */
  datatype Stages = Stages(
    removed: map<NodeID, Node>, stopped: map<NodeID, Node>, restored: map<NodeID, Node>, started: map<NodeID, Node>)

  function StagesOf(nodes: map<NodeID, Node>, v: Removal, remove: set<NodeID>, stop: set<NodeID>): Stages {
    var n1 := Advanced(nodes, remove, RemoveKind(v));
    var n2 := Advanced(n1, stop, Stop);
    var n3 := Advanced(n2, remove, RestoreKind(v));
    Stages(n1, n2, n3, Advanced(n3, stop, Start))
  }

  /** Progress, stall, progress, and the power of the beginning. */
  ghost predicate PlaysOut(nodes: map<NodeID, Node>, st: Stages) {
    && HasOnlineQuorum(st.removed)
    && !HasOnlineQuorum(st.stopped)
    && HasOnlineQuorum(st.restored)
    && TotalPower(st.started) == TotalPower(nodes)
    && OnlinePower(st.started) == OnlinePower(nodes)
  }

  /** The removed prefix and the stopped segment, as sets of validators. */
  ghost predicate Parts(nodes: map<NodeID, Node>, live: seq<Sample>, r: nat, n: nat) {
    && r + n <= |live|
    && LiveIn(nodes, live[..r]) && LiveIn(nodes, live[r..r + n])
    && Distinct(SampleIDs(live[..r])) && Distinct(SampleIDs(live[r..r + n]))
    && IdSet(SampleIDs(live[..r])) !! IdSet(SampleIDs(live[r..r + n]))
  }

  lemma PlanParts(nodes: map<NodeID, Node>, live: seq<Sample>, r: nat, n: nat)
    requires r + n <= |live| && LiveIn(nodes, live) && Distinct(SampleIDs(live))
    ensures Parts(nodes, live, r, n)
  {
    var a, b := live[..r], live[r..r + n];
    assert forall i :: 0 <= i < |a| ==> SampleIDs(a)[i] == SampleIDs(live)[i];
    assert forall i :: 0 <= i < |b| ==> SampleIDs(b)[i] == SampleIDs(live)[r + i];
    forall i, j | 0 <= i < |a| && 0 <= j < |b| ensures SampleIDs(a)[i] != SampleIDs(b)[j] {
      assert SampleIDs(live)[i] != SampleIDs(live)[r + j];
    }
  }

  lemma LiveWeights(nodes: map<NodeID, Node>, samples: seq<Sample>)
    requires LiveIn(nodes, samples)
    ensures Weighs(samples, VotingPowers(nodes)) && Weighs(samples, OnlinePowers(nodes))
  {
  }

  lemma PartPowers(nodes: map<NodeID, Node>, live: seq<Sample>, r: nat, n: nat)
    requires Parts(nodes, live, r, n)
    ensures var remove, stop := IdSet(SampleIDs(live[..r])), IdSet(SampleIDs(live[r..r + n]));
            && Total(VotingPowers(nodes) - remove) == TotalPower(nodes) - SampleSum(live[..r])
            && Total(OnlinePowers(nodes) - remove) == OnlinePower(nodes) - SampleSum(live[..r])
            && Total(OnlinePowers(nodes) - stop) == OnlinePower(nodes) - SampleSum(live[r..r + n])
            && Total(OnlinePowers(nodes) - remove - stop) ==
               OnlinePower(nodes) - SampleSum(live[..r]) - SampleSum(live[r..r + n])
  {
    var a, b := live[..r], live[r..r + n];
    LiveWeights(nodes, a);
    LiveWeights(nodes, b);
    WithoutSamples(a, VotingPowers(nodes));
    WithoutSamples(a, OnlinePowers(nodes));
    WithoutSamples(b, OnlinePowers(nodes));
    forall i | 0 <= i < |b| ensures b[i].id !in IdSet(SampleIDs(a)) {
      assert b[i].id == SampleIDs(b)[i];
      assert b[i].id in IdSet(SampleIDs(b));
    }
    WithoutSamples(b, OnlinePowers(nodes) - IdSet(SampleIDs(a)));
  }

  lemma RemovedAreLive(nodes: map<NodeID, Node>, samples: seq<Sample>)
    requires LiveIn(nodes, samples)
    ensures forall id :: id in IdSet(SampleIDs(samples)) ==> id in nodes && nodes[id].inComet && nodes[id].online
  {
    forall id | id in IdSet(SampleIDs(samples)) ensures id in nodes && nodes[id].inComet && nodes[id].online {
      var i :| 0 <= i < |samples| && SampleIDs(samples)[i] == id;
      assert samples[i].id in nodes;
    }
  }

  lemma QuorumIsKeeps(nodes: map<NodeID, Node>, total: int, online: int)
    requires TotalPower(nodes) == total && OnlinePower(nodes) == online
    ensures HasOnlineQuorum(nodes) <==> total > 0 && Keeps(total, online)
  {
  }

  lemma StagePowers(nodes: map<NodeID, Node>, v: Removal, live: seq<Sample>, r: nat, n: nat)
    requires Consistent(nodes) && Parts(nodes, live, r, n)
    ensures var remove, stop := IdSet(SampleIDs(live[..r])), IdSet(SampleIDs(live[r..r + n]));
            var st := StagesOf(nodes, v, remove, stop);
            && VotingPowers(st.removed) == VotingPowers(st.stopped) == VotingPowers(nodes) - remove
            && OnlinePowers(st.removed) == OnlinePowers(nodes) - remove
            && OnlinePowers(st.stopped) == OnlinePowers(nodes) - remove - stop
            && VotingPowers(st.restored) == VotingPowers(nodes)
            && OnlinePowers(st.restored) == OnlinePowers(nodes) - stop
            && VotingPowers(st.started) == VotingPowers(nodes)
            && OnlinePowers(st.started) == OnlinePowers(nodes)
  {
    var remove, stop := IdSet(SampleIDs(live[..r])), IdSet(SampleIDs(live[r..r + n]));
    RemovedAreLive(nodes, live[..r]);
    RemovedAreLive(nodes, live[r..r + n]);
    AfterRemoval(nodes, v, remove);
    AfterStop(Advanced(nodes, remove, RemoveKind(v)), stop);
    AfterRestore(nodes, v, remove, stop);
    AfterStart(nodes, v, remove, stop);
  }

  /** Any pair the planner may return plays out as planned on the nodes. */
  lemma PlanPlaysOut(nodes: map<NodeID, Node>, v: Removal, live: seq<Sample>, r: nat, n: nat)
    requires Consistent(nodes) && PositivePowers(nodes) && Parts(nodes, live, r, n)
    requires Works(live, TotalPower(nodes), r, n) && OnlinePower(nodes) == SampleSum(live)
    ensures PlaysOut(nodes, StagesOf(nodes, v, IdSet(SampleIDs(live[..r])), IdSet(SampleIDs(live[r..r + n]))))
  {
    var remove, stop := IdSet(SampleIDs(live[..r])), IdSet(SampleIDs(live[r..r + n]));
    var st := StagesOf(nodes, v, remove, stop);
    StagePowers(nodes, v, live, r, n);
    PartPowers(nodes, live, r, n);
    var total, online := TotalPower(nodes), OnlinePower(nodes);
    var p, q := SampleSum(live[..r]), SampleSum(live[r..r + n]);
    QuorumIsKeeps(st.removed, total - p, online - p);
    QuorumIsKeeps(st.stopped, total - p, online - p - q);
    PositiveSum(live[..r], 1) by {
      assert forall i :: 0 <= i < r ==> live[..r][i].power > 0;
    }
    QuorumIsKeeps(st.restored, total, online - q);
  }

  // ---------------------------------------------------------------- the run

  /** Remove, tick, stop, tick, restore, tick, start. */
  function Script(v: Removal, remove: seq<NodeID>, stop: seq<NodeID>): seq<Action> {
    Phase(RemoveKind(v), remove) + Phase(Stop, stop) + Phase(RestoreKind(v), remove) + Each(Start, stop)
  }

  lemma ScriptEffect(nodes: map<NodeID, Node>, v: Removal, remove: seq<NodeID>, stop: seq<NodeID>)
    requires Distinct(remove) && Distinct(stop)
    requires forall i :: 0 <= i < |remove| ==> remove[i] in nodes
    requires forall i :: 0 <= i < |stop| ==> stop[i] in nodes
    ensures var st := StagesOf(nodes, v, IdSet(remove), IdSet(stop));
            && NodesAfter(nodes, Script(v, remove, stop)) == st.started
            && QuorumTicks(nodes, Script(v, remove, stop)) ==
                 (if HasOnlineQuorum(st.removed) then 1 else 0) +
                 (if HasOnlineQuorum(st.stopped) then 1 else 0) +
                 (if HasOnlineQuorum(st.restored) then 1 else 0)
  {
    var st := StagesOf(nodes, v, IdSet(remove), IdSet(stop));
    var p1, p2, p3 := Phase(RemoveKind(v), remove), Phase(Stop, stop), Phase(RestoreKind(v), remove);
    PhaseEffect(nodes, RemoveKind(v), remove);
    PhaseEffect(st.removed, Stop, stop);
    PhaseEffect(st.stopped, RestoreKind(v), remove);
    EachEffect(st.restored, Start, stop);
    NodesAfterConcat(nodes, p1, p2);
    NodesAfterConcat(nodes, p1 + p2, p3);
    NodesAfterConcat(nodes, p1 + p2 + p3, Each(Start, stop));
  }

  lemma ScriptKnown(nodes: map<NodeID, Node>, v: Removal, remove: seq<NodeID>, stop: seq<NodeID>)
    requires forall i :: 0 <= i < |remove| ==> remove[i] in nodes
    requires forall i :: 0 <= i < |stop| ==> stop[i] in nodes
    ensures Known(nodes, Script(v, remove, stop))
  {
  }

  /**
   Any plan found on a snapshot of the simulated network, carried out on its lifecycle model with
   either kind of removal: the chain advances after the removal, stalls after the stop, advances again
   once the removed validators are back (three ticks, two blocks), nothing reports an error, and after
   the restart total and online power are what they were.
   */
  lemma MixedPlanPlaysOut(s: Sim, v: Removal, plan: MixedPlan, live: seq<Sample>, r: nat, n: nat)
    requires SimValid(s) && Consistent(s.model.nodes) && PositivePowers(s.model.nodes)
    requires IsLiveList(View(s), live)
    requires IsMixedPlan(plan, live, SeqSum(VotingOf(View(s))), r, n)
    ensures var st := StagesOf(s.model.nodes, v, IdSet(plan.remove), IdSet(plan.stop));
            var run := Run(Current, s.model, s.step, Script(v, plan.remove, plan.stop));
            && PlaysOut(s.model.nodes, st)
            && run.1 == Done
            && run.0.nodes == st.started
            && run.0.height == s.model.height + 2
  {
    var nodes := s.model.nodes;
    ViewPowers(s);
    SnapshotSamplesAreLive(s, live);
    PlanParts(nodes, live, r, n);
    PlanPlaysOut(nodes, v, live, r, n);
    LiveAreKnown(nodes, live[..r]);
    LiveAreKnown(nodes, live[r..r + n]);
    ScriptRun(s, v, plan);
  }

  lemma LiveAreKnown(nodes: map<NodeID, Node>, samples: seq<Sample>)
    requires LiveIn(nodes, samples)
    ensures forall i :: 0 <= i < |SampleIDs(samples)| ==> SampleIDs(samples)[i] in nodes
  {
  }

  lemma ScriptRun(s: Sim, v: Removal, plan: MixedPlan)
    requires Consistent(s.model.nodes) && Distinct(plan.remove) && Distinct(plan.stop)
    requires forall i :: 0 <= i < |plan.remove| ==> plan.remove[i] in s.model.nodes
    requires forall i :: 0 <= i < |plan.stop| ==> plan.stop[i] in s.model.nodes
    requires PlaysOut(s.model.nodes, StagesOf(s.model.nodes, v, IdSet(plan.remove), IdSet(plan.stop)))
    ensures var run := Run(Current, s.model, s.step, Script(v, plan.remove, plan.stop));
            && run.1 == Done
            && run.0.nodes == StagesOf(s.model.nodes, v, IdSet(plan.remove), IdSet(plan.stop)).started
            && run.0.height == s.model.height + 2
  {
    ScriptEffect(s.model.nodes, v, plan.remove, plan.stop);
    ScriptKnown(s.model.nodes, v, plan.remove, plan.stop);
    CurrentRun(s.model, s.step, Script(v, plan.remove, plan.stop));
  }
}
