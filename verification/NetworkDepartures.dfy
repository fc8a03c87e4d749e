/**
 A departure can be seen: once the armed incompatibility has made the version-skew network depart from
 the simulated one, some further calls get different replies from the two. Every mode but the forking
 ones shows in the next snapshot; a fork shows once there is a block to look at.
 */
module NetworkDepartures {
  import opened Sums
  import opened ValidatorModel
  import opened SimulatedNetworks
  import opened VersionSkewNetworks
  import opened NetworkEquivalence

  // ---------------------------------------------------------------- what a snapshot shows of a node

  predicate Live(k: SkewNode) { k.state == Active && k.online }

  /** The statuses of two node records differ. */
  predicate Shows(k: SkewNode, e: string, l: SkewNode, f: string) {
    || e != f
    || (k.state == Active) != (l.state == Active)
    || Live(k) != Live(l)
    || (Live(k) && k.honest) != (Live(l) && l.honest)
  }

  /** t shows another status than s at some node, with the same power. */
  ghost predicate ShowsAt(s: Skew, t: Skew, id: NodeID) {
    && id in s.nodes && id in t.nodes && id in s.current && id in t.current
    && s.nodes[id].power == t.nodes[id].power
    && Shows(s.nodes[id], s.current[id], t.nodes[id], t.current[id])
  }

  /** The node's status as agreed, and as it is now, whatever the heights. */
  lemma StatusesDiffer(sim: Sim, s: Skew, t: Skew, i: nat, height: int, skewHeight: int)
    requires Agree(sim, s) && SkewValid(t) && t.original == s.original && i < |sim.order| && ShowsAt(s, t, sim.order[i])
    ensures sim.order[i] in sim.model.nodes && sim.order[i] in sim.current
    ensures var id := sim.order[i];
            Normalize(sim.original, StatusOf(sim.model.nodes[id], id, sim.current[id], height)) !=
            Normalize(t.original, SkewStatus(t.(height := skewHeight), id))
  {
    var id := sim.order[i];
    assert id in sim.model.nodes && sim.model.nodes[id].power > 0;
    assert NodeConsistent(sim.model.nodes[id]) && NodesAgree(sim.model.nodes[id], s.nodes[id]);
    assert EndpointsAgree(sim.original[id], sim.current[id], s.original[id], s.current[id]);
  }

  /** A snapshot taken now gets different replies. */
  ghost predicate TellsApart(sim: Sim, s: Skew) {
    SimReply(SimStep(Current, sim, TakeSnapshot).0, SimStep(Current, sim, TakeSnapshot).1, TakeSnapshot) !=
    SkewReply(SkewStep(s, TakeSnapshot).0, SkewStep(s, TakeSnapshot).1, TakeSnapshot)
  }

  lemma ViewsDiffer(r: Sim, k: Skew, i: nat)
    requires SimValid(r) && SkewValid(k) && i < |r.order| == |k.order|
    requires Normalize(r.original, View(r)[i]) != Normalize(k.original, SkewView(k)[i])
    ensures SimReply(r, Done, TakeSnapshot) != SkewReply(k, Done, TakeSnapshot)
  {
    assert NormalizeAll(r.original, View(r))[i] != NormalizeAll(k.original, SkewView(k))[i];
  }

  lemma PolledViewsDiffer(sim: Sim, r: Sim, s: Skew, t: Skew, k: Skew, id: NodeID)
    requires Agree(sim, s) && SameShape(s, t) && ShowsAt(s, t, id)
    requires Polled(sim, r) && k == t.(height := k.height)
    ensures SimReply(r, Done, TakeSnapshot) != SkewReply(k, Done, TakeSnapshot)
  {
    assert id in sim.model.nodes;
    var i :| 0 <= i < |sim.order| && sim.order[i] == id;
    StatusesDiffer(sim, s, t, i, r.model.height, k.height);
    ViewsDiffer(r, k, i);
  }

  /** Networks that show different statuses are told apart. */
  lemma SnapshotTells(sim: Sim, s: Skew, t: Skew, id: NodeID)
    requires Agree(sim, s) && SameShape(s, t) && ShowsAt(s, t, id)
    ensures TellsApart(sim, t)
  {
    CurrentSnapshot(sim);
    PollOnlyMovesHeight(t);
    PolledViewsDiffer(sim, SimStep(Current, sim, TakeSnapshot).0, s, t, PollMeaning(t), id);
  }

  // ---------------------------------------------------------------- every mode but the forking ones

  /** What a special mode makes of the node shows. */
  ghost predicate SpecialVisible(s: Skew, a: NetAction)
    requires !a.TakeSnapshot? && a.id in s.nodes && a.id in s.current
  {
    var own, k, e := OriginalOf(s.original, a.id), s.nodes[a.id], s.current[a.id];
    && Shows(SkewEffect(a, k, own), EndpointEffect(a, e, own), SpecialNode(s.mode, a, k, own), SpecialEndpoint(s.mode, a, e, own))
    && SkewEffect(a, k, own).power == SpecialNode(s.mode, a, k, own).power
  }

  lemma SpecialStartShows(s: Skew, a: NetAction)
    requires SkewValid(s) && OnlineAreActive(s) && Special(s.mode) && Departs(s, a) && a.StartNode?
    ensures SpecialVisible(s, a)
  {
  }

  lemma SpecialRestartShows(s: Skew, a: NetAction)
    requires SkewValid(s) && OnlineAreActive(s) && Special(s.mode) && Departs(s, a) && a.RestartNode?
    ensures SpecialVisible(s, a)
  {
  }

  lemma SpecialRegisterShows(s: Skew, a: NetAction)
    requires SkewValid(s) && OnlineAreActive(s) && Special(s.mode) && Departs(s, a) && a.RegisterNode?
    ensures SpecialVisible(s, a)
  {
  }

  lemma SpecialUnjailShows(s: Skew, a: NetAction)
    requires SkewValid(s) && OnlineAreActive(s) && Special(s.mode) && Departs(s, a) && a.UnjailNode?
    ensures SpecialVisible(s, a)
  {
  }

  lemma SpecialEndpointShows(s: Skew, a: NetAction)
    requires SkewValid(s) && OnlineAreActive(s) && Special(s.mode) && Departs(s, a) && a.SetNodeEndpoint?
    ensures SpecialVisible(s, a)
  {
  }

  lemma SpecialShows(s: Skew, a: NetAction)
    requires SkewValid(s) && OnlineAreActive(s) && Special(s.mode) && Departs(s, a)
    ensures SpecialVisible(s, a)
  {
    match a {
      case StartNode(_) => SpecialStartShows(s, a);
      case RestartNode(_) => SpecialRestartShows(s, a);
      case RegisterNode(_) => SpecialRegisterShows(s, a);
      case UnjailNode(_) => SpecialUnjailShows(s, a);
      case SetNodeEndpoint(_, _) => SpecialEndpointShows(s, a);
    }
  }

  lemma SpecialIsSeen(s: Skew, a: NetAction)
    requires SkewValid(s) && OnlineAreActive(s) && Special(s.mode) && Departs(s, a)
    ensures ShowsAt(Plain(s, a), SkewStep(s, a).0, a.id)
  {
    SpecialCall(s, a);
    SpecialShows(s, a);
  }

  /** A node left halted was to be up. */
  lemma HaltIsSeenAt(s: Skew, a: NetAction, id: NodeID)
    requires SkewValid(s) && OnlineAreActive(s) && !a.TakeSnapshot? && a.id in s.nodes && !a.StopNode? && id in s.nodes
    requires a.JailNode? || a.DeregisterNode? ==> s.nodes[a.id].state != Active
    requires LeftHalted(s, a, id)
    ensures ShowsAt(Plain(s, a), Plain(s.(nodes := HaltActive(s.nodes, s.legacy)), a), id)
  {
    PlainAt(s, a, id);
    PlainAt(s.(nodes := HaltActive(s.nodes, s.legacy)), a, id);
  }

  lemma SomebodyLeftHalted(s: Skew, a: NetAction) returns (id: NodeID)
    requires !a.TakeSnapshot? && a.id in s.nodes && !NobodyLeftHalted(s, a)
    ensures id in s.nodes && LeftHalted(s, a, id)
  {
    id :| id in s.nodes && LeftHalted(s, a, id);
  }

  lemma HaltIsSeen(s: Skew, a: NetAction) returns (id: NodeID)
    requires SkewValid(s) && OnlineAreActive(s) && s.mode.HaltLegacy? && Departs(s, a)
    ensures ShowsAt(Plain(s, a), SkewStep(s, a).0, id)
  {
    TriggeredCall(s, a, s.mode.on);
    id := SomebodyLeftHalted(s, a);
    HaltIsSeenAt(s, a, id);
  }

  /** The next snapshot tells the networks apart. */
  lemma NextSnapshotTells(sim: Sim, skew: Skew, a: NetAction)
    requires Agree(sim, skew) && Unambiguous(sim, skew, a) && Departs(skew, a) && !skew.mode.ForkLegacy?
    ensures TellsApart(SimStep(Current, sim, a).0, SkewStep(skew, a).0)
  {
    var s, t := SimStep(Current, sim, a).0, SkewStep(skew, a).0;
    CurrentCall(sim, a);
    StepsAgree(sim, s, skew, Plain(skew, a), a);
    AgreeingAreActive(sim, skew);
    FiringCall(skew, a);
    var id := a.id;
    if Special(skew.mode) {
      SpecialIsSeen(skew, a);
    } else {
      id := HaltIsSeen(skew, a);
    }
    SnapshotTells(s, Plain(skew, a), t, id);
  }

  // ---------------------------------------------------------------- forks

  /** Only the history differs. */
  ghost predicate Forked(sim: Sim, s: Skew) {
    s.mode.ForkLegacy? && s.diverged && Agree(sim, s.(diverged := false))
  }

  lemma ForkingCall(sim: Sim, skew: Skew, a: NetAction)
    requires Agree(sim, skew) && Unambiguous(sim, skew, a) && Departs(skew, a) && skew.mode.ForkLegacy?
    ensures Forked(SimStep(Current, sim, a).0, SkewStep(skew, a).0)
    ensures SkewStep(skew, a).0.order == skew.order && SkewStep(skew, a).0.legacy == skew.legacy
    ensures SkewStep(skew, a).0.height == skew.height
  {
    CurrentCall(sim, a);
    StepsAgree(sim, SimStep(Current, sim, a).0, skew, Plain(skew, a), a);
    TriggeredCall(skew, a, skew.mode.on);
    assert Plain(skew.(diverged := true), a).(diverged := false) == Plain(skew, a);
  }

  lemma ForkedPlain(sim: Sim, sim': Sim, s: Skew, a: NetAction)
    requires Forked(sim, s) && !a.TakeSnapshot? && a.id in s.nodes && Unambiguous(sim, s, a) && IntendedStep(sim, sim', a)
    ensures Forked(sim', Plain(s, a))
  {
    var u := s.(diverged := false);
    StepsAgree(sim, sim', u, Plain(u, a), a);
    assert Plain(s, a).(diverged := false) == Plain(u, a);
  }

  lemma RegisterIsPlain(s: Skew, id: NodeID)
    requires s.mode.ForkLegacy? && s.diverged && id in s.nodes && id in s.current
    ensures RegisterMeaning(s, id) == Plain(s, RegisterNode(id))
  {
    assert Trigger(s, RegisterEvent(s.nodes[id].state)) == s;
  }

  /** Registering a node brings it up on both networks. */
  lemma ForkedRegister(sim: Sim, s: Skew, id: NodeID)
    requires Forked(sim, s) && id in s.nodes
    ensures Forked(SimStep(Current, sim, RegisterNode(id)).0, SkewStep(s, RegisterNode(id)).0)
    ensures SkewStep(s, RegisterNode(id)).0 == Plain(s, RegisterNode(id))
  {
    CurrentCall(sim, RegisterNode(id));
    ForkedPlain(sim, SimStep(Current, sim, RegisterNode(id)).0, s, RegisterNode(id));
    RegisterIsPlain(s, id);
  }

  ghost predicate UpTo(s: Skew, i: nat)
    requires i <= |s.order|
  {
    forall j :: 0 <= j < i ==> s.order[j] in s.nodes && Live(s.nodes[s.order[j]])
  }

  lemma UpOneMore(s: Skew, i: nat)
    requires SkewValid(s) && i < |s.order| && UpTo(s, i)
    ensures s.order[i] in s.nodes && UpTo(Plain(s, RegisterNode(s.order[i])), i + 1)
  {
  }

  lemma RunOneMore(sim: Sim, skew: Skew, acts: seq<NetAction>, last: NetAction)
    ensures SimRun(sim, acts + [last]).0 == SimStep(Current, SimRun(sim, acts).0, last).0
    ensures SkewRun(skew, acts + [last]).0 == SkewStep(SkewRun(skew, acts).0, last).0
  {
    assert (acts + [last])[..|acts|] == acts;
  }

  /** Forked, with the first i nodes up, and otherwise set up as s. */
  ghost predicate UpAndForked(sim: Sim, s: Skew, t: Skew, i: nat) {
    && Forked(sim, t) && t.order == s.order && t.legacy == s.legacy && t.height == s.height
    && i <= |t.order| && UpTo(t, i)
  }

  lemma RegisterNext(sim: Sim, s: Skew, t: Skew, i: nat)
    requires UpAndForked(sim, s, t, i) && i < |t.order|
    ensures var id := t.order[i];
            UpAndForked(SimStep(Current, sim, RegisterNode(id)).0, s, SkewStep(t, RegisterNode(id)).0, i + 1)
  {
    UpOneMore(t, i);
    ForkedRegister(sim, t, t.order[i]);
  }

  /** The same of the states some calls lead to. */
  ghost predicate RunUp(sim: Sim, skew: Skew, acts: seq<NetAction>, s: Skew, i: nat) {
    UpAndForked(SimRun(sim, acts).0, s, SkewRun(skew, acts).0, i)
  }

  lemma RunNext(sim: Sim, skew: Skew, acts: seq<NetAction>, s: Skew, i: nat)
    requires RunUp(sim, skew, acts, s, i) && i < |s.order|
    ensures RunUp(sim, skew, acts + [RegisterNode(s.order[i])], s, i + 1)
  {
    RegisterNext(SimRun(sim, acts).0, s, SkewRun(skew, acts).0, i);
    RunOneMore(sim, skew, acts, RegisterNode(s.order[i]));
  }

  lemma OneCallMore(sim: Sim, skew: Skew, acts: seq<NetAction>, a: NetAction)
    requires Unmistakable(sim, skew, acts) && !a.SetNodeEndpoint?
    ensures Unmistakable(sim, skew, acts + [a])
  {
  }

  /** Registering the nodes that are left, in order, leaves the networks forked and everyone up. */
  lemma {:induction false} RegisterAll(sim: Sim, skew: Skew, acts: seq<NetAction>, s: Skew, i: nat) returns (calls: seq<NetAction>)
    requires RunUp(sim, skew, acts, s, i) && i <= |s.order| && Unmistakable(sim, skew, acts)
    ensures acts <= calls && RunUp(sim, skew, calls, s, |s.order|) && Unmistakable(sim, skew, calls)
    decreases |s.order| - i
  {
    calls := acts;
    if i < |s.order| {
      RunNext(sim, skew, acts, s, i);
      OneCallMore(sim, skew, acts, RegisterNode(s.order[i]));
      calls := RegisterAll(sim, skew, acts + [RegisterNode(s.order[i])], s, i + 1);
    }
  }

  lemma EveryoneUpIsQuorum(s: Skew, sim: Sim)
    requires Agree(sim, s) && s.order != [] && UpTo(s, |s.order|)
    ensures LiveQuorum(s.nodes)
  {
    forall id | id in s.nodes ensures Live(s.nodes[id]) && s.nodes[id].power > 0 {
      var j :| 0 <= j < |s.order| && s.order[j] == id;
      assert NodesAgree(sim.model.nodes[id], s.nodes[id]) && sim.model.nodes[id].power > 0;
    }
    assert SkewVoting(s.nodes) == SkewLive(s.nodes);
    assert s.order[0] in SkewVoting(s.nodes) && SkewVoting(s.nodes)[s.order[0]] > 0;
    TotalNonNegative(SkewVoting(s.nodes));
  }

  lemma HistoriesDiffer(r: Sim, k: Skew, id: NodeID)
    requires Forked(r, k) && k.height > 0 && id in k.legacy && id in k.nodes
    ensures SimReply(r, Done, TakeSnapshot) != SkewReply(k, Done, TakeSnapshot)
  {
    var i :| 0 <= i < |k.order| && k.order[i] == id;
    assert |SkewBlockHash(k, id)| == |"legacy-"| + |BlockHash(k.height)|;
    assert View(r)[i].blockHash == BlockHash(k.height) && SkewView(k)[i].blockHash == SkewBlockHash(k, id);
    ViewsDiffer(r, k, i);
  }

  lemma QuorumPoll(s: Skew)
    requires LiveQuorum(s.nodes)
    ensures PollMeaning(s) == s.(height := s.height + 1)
  {
  }

  lemma ForkedPoll(sim: Sim, sim': Sim, s: Skew)
    requires Forked(sim, s) && Polled(sim, sim') && LiveQuorum(s.nodes)
    ensures Forked(sim', PollMeaning(s)) && PollMeaning(s) == s.(height := s.height + 1)
  {
    var u := s.(diverged := false);
    QuorumPoll(s);
    QuorumPoll(u);
    PollsAgree(sim, sim', u);
  }

  /** With everyone up a forked network shows two histories. */
  lemma ForkTells(sim: Sim, s: Skew, id: NodeID)
    requires Forked(sim, s) && UpTo(s, |s.order|) && s.height >= 0 && id in s.legacy && id in s.nodes
    ensures TellsApart(sim, s)
  {
    CurrentSnapshot(sim);
    EveryoneUpIsQuorum(s.(diverged := false), sim);
    ForkedPoll(sim, SimStep(Current, sim, TakeSnapshot).0, s);
    HistoriesDiffer(SimStep(Current, sim, TakeSnapshot).0, PollMeaning(s), id);
  }

  // ---------------------------------------------------------------- the theorem

  /** Some legacy node exists, as in every network that can be built, and heights start at zero or above. */
  ghost predicate Armed(s: Skew) {
    s.height >= 0 && exists id :: id in s.legacy && id in s.nodes
  }

  lemma NewIsArmed(s: Skew, nodeCount: int, legacyIDs: set<NodeID>, mode: Mode, powers: map<NodeID, int>)
    requires IsNew(s, nodeCount, legacyIDs, mode, powers) && s.legacy <= s.nodes.Keys
    ensures Armed(s)
  {
    assert s.legacy != {};
    var id :| id in s.legacy;
  }

  lemma {:induction false} OneReplyEach(sim: Sim, skew: Skew, acts: seq<NetAction>)
    ensures |SimRun(sim, acts).1| == |SkewRun(skew, acts).1| == |acts|
    decreases |acts|
  {
    if acts != [] {
      OneReplyEach(sim, skew, acts[..|acts| - 1]);
    }
  }

  /** The two networks tell the calls apart by their last reply. */
  lemma LastReplyTells(sim: Sim, skew: Skew, acts: seq<NetAction>)
    requires TellsApart(SimRun(sim, acts).0, SkewRun(skew, acts).0)
    ensures SimRun(sim, acts + [TakeSnapshot]).1 != SkewRun(skew, acts + [TakeSnapshot]).1
  {
    var n := |acts|;
    OneReplyEach(sim, skew, acts);
    assert (acts + [TakeSnapshot])[..n] == acts;
    assert SimRun(sim, acts + [TakeSnapshot]).1[n] != SkewRun(skew, acts + [TakeSnapshot]).1[n];
  }

  ghost predicate Told(sim: Sim, skew: Skew, acts: seq<NetAction>) {
    Unmistakable(sim, skew, acts) && SimRun(sim, acts).1 != SkewRun(skew, acts).1
  }

  lemma UpTells(sim: Sim, skew: Skew, acts: seq<NetAction>, s: Skew)
    requires SkewValid(s) && Armed(s) && RunUp(sim, skew, acts, s, |s.order|)
    ensures TellsApart(SimRun(sim, acts).0, SkewRun(skew, acts).0)
  {
    var id :| id in s.legacy && id in s.nodes;
    ForkTells(SimRun(sim, acts).0, SkewRun(skew, acts).0, id);
  }

  lemma ToldBySnapshot(sim: Sim, skew: Skew, acts: seq<NetAction>)
    requires TellsApart(SimRun(sim, acts).0, SkewRun(skew, acts).0) && Unmistakable(sim, skew, acts)
    ensures Told(sim, skew, acts + [TakeSnapshot])
  {
    LastReplyTells(sim, skew, acts);
    OneCallMore(sim, skew, acts, TakeSnapshot);
  }

  lemma TellFork(sim: Sim, skew: Skew, acts: seq<NetAction>, s: Skew) returns (calls: seq<NetAction>)
    requires RunUp(sim, skew, acts, s, 0) && SkewValid(s) && Armed(s) && Unmistakable(sim, skew, acts)
    ensures acts <= calls && Told(sim, skew, calls)
  {
    var up := RegisterAll(sim, skew, acts, s, 0);
    UpTells(sim, skew, up, s);
    ToldBySnapshot(sim, skew, up);
    calls := up + [TakeSnapshot];
  }

  lemma ForkIsUp(sim: Sim, skew: Skew, acts: seq<NetAction>, last: NetAction, s: Sim, t: Skew)
    requires s == SimRun(sim, acts).0 && t == SkewRun(skew, acts).0 && Agree(s, t) && Armed(t) && t.mode.ForkLegacy?
    requires Unambiguous(s, t, last) && Departs(t, last)
    ensures var k := SkewStep(t, last).0; RunUp(sim, skew, acts + [last], k, 0) && SkewValid(k) && Armed(k)
  {
    ForkingCall(s, t, last);
    RunOneMore(sim, skew, acts, last);
    var id :| id in t.legacy && id in t.nodes;
    assert id in SkewStep(t, last).0.nodes;
  }

  lemma OtherTells(sim: Sim, skew: Skew, acts: seq<NetAction>, last: NetAction, s: Sim, t: Skew)
    requires s == SimRun(sim, acts).0 && t == SkewRun(skew, acts).0 && Agree(s, t) && !t.mode.ForkLegacy?
    requires Unambiguous(s, t, last) && Departs(t, last)
    ensures TellsApart(SimRun(sim, acts + [last]).0, SkewRun(skew, acts + [last]).0)
  {
    NextSnapshotTells(s, t, last);
    RunOneMore(sim, skew, acts, last);
  }

  /** A departing call and what it takes to see it. */
  lemma TellDeparture(sim: Sim, skew: Skew, acts: seq<NetAction>, last: NetAction, s: Sim, t: Skew) returns (calls: seq<NetAction>)
    requires s == SimRun(sim, acts).0 && t == SkewRun(skew, acts).0 && Agree(s, t) && Armed(t)
    requires Unmistakable(sim, skew, acts + [last]) && Unambiguous(s, t, last) && Departs(t, last)
    ensures acts + [last] <= calls && Told(sim, skew, calls)
  {
    if t.mode.ForkLegacy? {
      ForkIsUp(sim, skew, acts, last, s, t);
      calls := TellFork(sim, skew, acts + [last], SkewStep(t, last).0);
    } else {
      OtherTells(sim, skew, acts, last, s, t);
      ToldBySnapshot(sim, skew, acts + [last]);
      calls := acts + [last] + [TakeSnapshot];
    }
  }

  lemma UnmistakablePrefix(sim: Sim, skew: Skew, acts: seq<NetAction>, last: NetAction)
    requires Unmistakable(sim, skew, acts + [last])
    ensures Unmistakable(sim, skew, acts) && Unambiguous(sim, skew, last)
  {
    forall i | 0 <= i < |acts| ensures Unambiguous(sim, skew, acts[i]) {
      assert (acts + [last])[i] == acts[i];
    }
    assert (acts + [last])[|acts|] == last;
  }

  lemma StaysArmed(sim: Sim, s: Skew, t: Skew)
    requires Armed(s) && SameSetup(s, t) && Agree(sim, t) && SkewValid(s)
    ensures Armed(t)
  {
    var id :| id in s.legacy && id in s.nodes;
    assert id in t.legacy && id in t.nodes;
  }

  /** After a run without departures, a departing call can be told: some continuation gets different replies. */
  lemma DepartureCanBeSeen(sim: Sim, skew: Skew, acts: seq<NetAction>, last: NetAction)
    requires Agree(sim, skew) && Armed(skew) && Unmistakable(sim, skew, acts + [last]) && QuietRun(skew, acts)
    requires Departs(SkewRun(skew, acts).0, last)
    ensures exists calls :: acts + [last] <= calls && Told(sim, skew, calls)
  {
    UnmistakablePrefix(sim, skew, acts, last);
    QuietRunsAgree(sim, skew, acts);
    var s, t := SimRun(sim, acts).0, SkewRun(skew, acts).0;
    StaysArmed(s, skew, t);
    var calls := TellDeparture(sim, skew, acts, last, s, t);
  }

  ghost predicate CanDepart(sim: Sim, skew: Skew, acts: seq<NetAction>) {
    Unmistakable(sim, skew, acts) && !QuietRun(skew, acts)
  }

  lemma QuietExtend(skew: Skew, init: seq<NetAction>, last: NetAction)
    requires QuietRun(skew, init) && !Departs(SkewRun(skew, init).0, last)
    ensures QuietRun(skew, init + [last])
  {
    var acts := init + [last];
    assert acts[..|init|] == init;
    forall i | 0 <= i < |acts| ensures !DepartsAt(skew, acts, i) {
      if i < |init| {
        assert acts[..i] == init[..i] && acts[i] == init[i];
        assert !DepartsAt(skew, init, i);
      }
    }
  }

  /** The first departing call of a run, and the calls before it. */
  lemma {:induction false} FirstDeparture(skew: Skew, acts: seq<NetAction>) returns (init: seq<NetAction>, last: NetAction)
    requires !QuietRun(skew, acts)
    ensures init + [last] <= acts && QuietRun(skew, init) && Departs(SkewRun(skew, init).0, last)
    decreases |acts|
  {
    init, last := acts[..|acts| - 1], acts[|acts| - 1];
    assert acts == init + [last];
    if !QuietRun(skew, init) {
      init, last := FirstDeparture(skew, init);
    } else if !Departs(SkewRun(skew, init).0, last) {
      QuietExtend(skew, init, last);
    }
  }

  lemma ToldDeparts(sim: Sim, skew: Skew, acts: seq<NetAction>)
    requires Agree(sim, skew) && Told(sim, skew, acts)
    ensures CanDepart(sim, skew, acts)
  {
    if QuietRun(skew, acts) {
      QuietRunsAgree(sim, skew, acts);
    }
  }

  lemma UnmistakableTake(sim: Sim, skew: Skew, acts: seq<NetAction>, init: seq<NetAction>)
    requires Unmistakable(sim, skew, acts) && init <= acts
    ensures Unmistakable(sim, skew, init)
  {
  }

  lemma DepartsTold(sim: Sim, skew: Skew, acts: seq<NetAction>)
    requires Agree(sim, skew) && Armed(skew) && CanDepart(sim, skew, acts)
    ensures exists calls :: Told(sim, skew, calls)
  {
    var init, last := FirstDeparture(skew, acts);
    UnmistakableTake(sim, skew, acts, init + [last]);
    DepartureCanBeSeen(sim, skew, init, last);
  }

  /** The replies of the two networks can be told apart by some calls if and only if some calls depart. */
  lemma ToldExactlyIfDeparts(sim: Sim, skew: Skew)
    requires Agree(sim, skew) && Armed(skew)
    ensures (exists acts :: Told(sim, skew, acts)) <==> (exists acts :: CanDepart(sim, skew, acts))
  {
    if acts :| Told(sim, skew, acts) {
      ToldDeparts(sim, skew, acts);
    }
    if acts :| CanDepart(sim, skew, acts) {
      DepartsTold(sim, skew, acts);
    }
  }
}
