/**
 Snapshots of a network (pkg/fuzz/types.go) and the simulated network
 (pkg/fuzz/simulated_network.go): the lifecycle model plus the endpoints its nodes advertise.
 */
module SimulatedNetworks {
  import opened Sums
  import opened ValidatorModel

  datatype NodeStatus = NodeStatus(
    id: NodeID, endpoint: string, reachable: bool, ready: bool, live: bool, synced: bool,
    height: int, blockHash: string, version: string, power: int)

  type Snapshot = seq<NodeStatus>

  /** What a caller passes to SetNodeEndpoint: nothing, the node's own address, or some other one. */
  datatype EndpointArg = Clear | Own | Literal(url: string)

  datatype NetAction =
    | StartNode(id: NodeID)
    | StopNode(id: NodeID)
    | RestartNode(id: NodeID)
    | RegisterNode(id: NodeID)
    | DeregisterNode(id: NodeID)
    | SetNodeEndpoint(id: NodeID, endpoint: EndpointArg)
    | JailNode(id: NodeID)
    | UnjailNode(id: NodeID)
    | TakeSnapshot

  function OriginalOf(original: map<NodeID, string>, id: NodeID): string {
    if id in original then original[id] else ""
  }

  function Resolve(original: map<NodeID, string>, id: NodeID, e: EndpointArg): string {
    match e
    case Clear => ""
    case Own => OriginalOf(original, id)
    case Literal(url) => url
  }

  function Zeros(n: nat): string { if n == 0 then "" else Zeros(n - 1) + "0" }

  function BlockHash(height: int): string {
    if height <= 0 then ""
    else
      var digits := Decimal(height);
      "simulated-block-" + (if |digits| < 12 then Zeros(12 - |digits|) else "") + digits
  }

  // ---------------------------------------------------------------- snapshot arithmetic

  function VotingOf(s: Snapshot): seq<int> {
    seq(|s|, i requires 0 <= i < |s| => if s[i].power > 0 then s[i].power else 0)
  }

  function LiveOf(s: Snapshot): seq<int> {
    seq(|s|, i requires 0 <= i < |s| => if s[i].power > 0 && s[i].live then s[i].power else 0)
  }

  method ValidatorPower(s: Snapshot) returns (total: int, live: int)
    ensures total == SeqSum(VotingOf(s)) && live == SeqSum(LiveOf(s))
  {
    total, live := 0, 0;
    for i := 0 to |s|
      invariant total == SeqSum(VotingOf(s)[..i]) && live == SeqSum(LiveOf(s)[..i])
    {
      assert VotingOf(s)[..i + 1][..i] == VotingOf(s)[..i];
      assert LiveOf(s)[..i + 1][..i] == LiveOf(s)[..i];
      if s[i].power <= 0 {
        continue;
      }
      total := total + s[i].power;
      if s[i].live {
        live := live + s[i].power;
      }
    }
    assert VotingOf(s)[..|s|] == VotingOf(s) && LiveOf(s)[..|s|] == LiveOf(s);
  }

  ghost predicate SnapshotQuorum(s: Snapshot) {
    Quorum(SeqSum(VotingOf(s)), SeqSum(LiveOf(s)))
  }

  // ---------------------------------------------------------------- the network's meaning

  datatype Sim = Sim(
    model: Model, order: seq<NodeID>, original: map<NodeID, string>, current: map<NodeID, string>,
    step: int, tickOnSnapshot: bool)

  ghost predicate SimValid(s: Sim) {
    && (forall i, j :: 0 <= i < j < |s.order| ==> s.order[i] != s.order[j])
    && s.model.nodes.Keys == (set i | 0 <= i < |s.order| :: s.order[i])
    && s.original.Keys == s.model.nodes.Keys
    && s.current.Keys == s.model.nodes.Keys
  }

  ghost function Lifecycle(b: Behavior, s: Sim, kind: ActionKind, id: NodeID): (Sim, Outcome) {
    var r := Apply(b, s.model, NthStep(s.step, 1), Action(kind, id));
    (s.(model := r.0, step := NthStep(s.step, 1)), r.1)
  }

  ghost function LifecycleThen(b: Behavior, s: Sim, kind: ActionKind, id: NodeID, endpoint: string): (Sim, Outcome) {
    var r := Lifecycle(b, s, kind, id);
    if r.1.Done? then (r.0.(current := r.0.current[id := endpoint]), Done) else r
  }

  ghost function SetEndpointMeaning(b: Behavior, s: Sim, id: NodeID, endpoint: string): (Sim, Outcome) {
    var own := OriginalOf(s.original, id);
    if endpoint == "" || endpoint == own then LifecycleThen(b, s, RepairEndpoint, id, own)
    else LifecycleThen(b, s, LieEndpoint, id, endpoint)
  }

  ghost function RestartMeaning(b: Behavior, s: Sim, id: NodeID): (Sim, Outcome) {
    var stopped := Lifecycle(b, s, Stop, id);
    if stopped.1.Done? then Lifecycle(b, stopped.0, Start, id) else stopped
  }

  function StatusOf(n: Node, id: NodeID, endpoint: string, height: int): NodeStatus {
    var live := n.state == Active && n.online;
    var reachable := live && n.honest;
    NodeStatus(id, endpoint, reachable, reachable, live, live, height, BlockHash(height), "",
               if n.inComet then n.power else 0)
  }

  ghost function View(s: Sim): (r: Snapshot)
    requires SimValid(s)
    ensures |r| == |s.order|
  {
    seq(|s.order|, i requires 0 <= i < |s.order| =>
      StatusOf(s.model.nodes[s.order[i]], s.order[i], s.current[s.order[i]], s.model.height))
  }

  ghost function SnapshotMeaning(b: Behavior, s: Sim): (Sim, Outcome) {
    if s.tickOnSnapshot then Lifecycle(b, s, Tick, "") else (s, Done)
  }

  /** Every call of the network interface, with what the caller sees. */
  ghost function SimStep(b: Behavior, s: Sim, a: NetAction): (Sim, Outcome) {
    match a
    case StartNode(id) => Lifecycle(b, s, Start, id)
    case StopNode(id) => Lifecycle(b, s, Stop, id)
    case RestartNode(id) => RestartMeaning(b, s, id)
    case RegisterNode(id) => LifecycleThen(b, s, Register, id, OriginalOf(s.original, id))
    case DeregisterNode(id) => Lifecycle(b, s, Deregister, id)
    case SetNodeEndpoint(id, e) => SetEndpointMeaning(b, s, id, Resolve(s.original, id, e))
    case JailNode(id) => Lifecycle(b, s, Jail, id)
    case UnjailNode(id) => Lifecycle(b, s, Unjail, id)
    case TakeSnapshot => SnapshotMeaning(b, s)
  }

  // ---------------------------------------------------------------- the intended network on values

  /** Node and endpoint effect of one intended call on a known node. */
  function NodeEffect(a: NetAction, n: Node, own: string): Node
    requires !a.TakeSnapshot?
  {
    match a
    case StartNode(_) => NextNode(Current, Start, n)
    case StopNode(_) => NextNode(Current, Stop, n)
    case RestartNode(_) => NextNode(Current, Start, NextNode(Current, Stop, n))
    case RegisterNode(_) => NextNode(Current, Register, n)
    case DeregisterNode(_) => NextNode(Current, Deregister, n)
    case SetNodeEndpoint(_, e) =>
      NextNode(Current, if Honest(e, own) then RepairEndpoint else LieEndpoint, n)
    case JailNode(_) => NextNode(Current, Jail, n)
    case UnjailNode(_) => NextNode(Current, Unjail, n)
  }

  predicate Honest(e: EndpointArg, own: string) {
    e.Clear? || e.Own? || e.url == "" || e.url == own
  }

  function EndpointEffect(a: NetAction, endpoint: string, own: string): string
    requires !a.TakeSnapshot?
  {
    match a
    case RegisterNode(_) => own
    case SetNodeEndpoint(_, e) => if Honest(e, own) then own else e.url
    case _ => endpoint
  }

  lemma CurrentLifecycle(s: Sim, kind: ActionKind, id: NodeID)
    requires Consistent(s.model.nodes) && id in s.model.nodes && kind != Tick
    ensures var r := Lifecycle(Current, s, kind, id);
            && r.1 == Done
            && r.0.model.nodes == s.model.nodes[id := NextNode(Current, kind, s.model.nodes[id])]
            && r.0.model.height == s.model.height
            && Consistent(r.0.model.nodes)
            && r.0 == s.(model := r.0.model, step := r.0.step)
  {
    CurrentStep(s.model, NthStep(s.step, 1), Action(kind, id));
  }

  /** What an intended call does: the node, its endpoint and nothing else. */
  ghost predicate IntendedStep(s: Sim, s': Sim, a: NetAction)
    requires !a.TakeSnapshot? && a.id in s.model.nodes && a.id in s.current
  {
    var own := OriginalOf(s.original, a.id);
    && s'.model.nodes == s.model.nodes[a.id := NodeEffect(a, s.model.nodes[a.id], own)]
    && s'.current == s.current[a.id := EndpointEffect(a, s.current[a.id], own)]
    && s'.model.height == s.model.height
    && Consistent(s'.model.nodes)
    && s'.original == s.original && s'.order == s.order && s'.tickOnSnapshot == s.tickOnSnapshot
  }

  lemma TwiceUpdated<T>(m: map<NodeID, T>, id: NodeID, x: T, y: T)
    ensures m[id := x][id := y] == m[id := y]
  {
  }

  lemma CurrentRestart(s: Sim, id: NodeID)
    requires Consistent(s.model.nodes) && id in s.model.nodes && id in s.current
    ensures var r := SimStep(Current, s, RestartNode(id));
            r.1 == Done && IntendedStep(s, r.0, RestartNode(id))
  {
    CurrentLifecycle(s, Stop, id);
    var mid := Lifecycle(Current, s, Stop, id).0;
    CurrentLifecycle(mid, Start, id);
    var down := NextNode(Current, Stop, s.model.nodes[id]);
    TwiceUpdated(s.model.nodes, id, down, NextNode(Current, Start, down));
    assert s.current[id := s.current[id]] == s.current;
  }

  lemma HonestByUrl(s: Sim, id: NodeID, e: EndpointArg)
    ensures var own, url := OriginalOf(s.original, id), Resolve(s.original, id, e);
            (url == "" || url == own <==> Honest(e, own)) && EndpointEffect(SetNodeEndpoint(id, e), "", own) == if Honest(e, own) then own else url
  {
  }

  lemma CurrentThen(s: Sim, kind: ActionKind, id: NodeID, endpoint: string)
    requires Consistent(s.model.nodes) && id in s.model.nodes && kind != Tick
    ensures var r := LifecycleThen(Current, s, kind, id, endpoint);
            && r.1 == Done
            && r.0.model.nodes == s.model.nodes[id := NextNode(Current, kind, s.model.nodes[id])]
            && r.0.model.height == s.model.height
            && Consistent(r.0.model.nodes)
            && r.0 == s.(model := r.0.model, step := r.0.step, current := s.current[id := endpoint])
  {
    CurrentLifecycle(s, kind, id);
  }

  lemma CurrentSetEndpoint(s: Sim, id: NodeID, e: EndpointArg)
    requires Consistent(s.model.nodes) && id in s.model.nodes && id in s.current
    ensures var r := SimStep(Current, s, SetNodeEndpoint(id, e));
            r.1 == Done && IntendedStep(s, r.0, SetNodeEndpoint(id, e))
  {
    var own, url := OriginalOf(s.original, id), Resolve(s.original, id, e);
    HonestByUrl(s, id, e);
    if url == "" || url == own {
      CurrentThen(s, RepairEndpoint, id, own);
    } else {
      CurrentThen(s, LieEndpoint, id, url);
    }
  }

  /** Every intended call on a known node succeeds and has its intended effect. */
  lemma CurrentCall(s: Sim, a: NetAction)
    requires Consistent(s.model.nodes) && !a.TakeSnapshot? && a.id in s.model.nodes && a.id in s.current
    ensures var r := SimStep(Current, s, a);
            r.1 == Done && IntendedStep(s, r.0, a)
  {
    assert s.current[a.id := s.current[a.id]] == s.current;
    match a {
      case RestartNode(id) => CurrentRestart(s, id);
      case SetNodeEndpoint(id, e) => CurrentSetEndpoint(s, id, e);
      case StartNode(id) => CurrentLifecycle(s, Start, id);
      case StopNode(id) => CurrentLifecycle(s, Stop, id);
      case RegisterNode(id) => CurrentLifecycle(s, Register, id);
      case DeregisterNode(id) => CurrentLifecycle(s, Deregister, id);
      case JailNode(id) => CurrentLifecycle(s, Jail, id);
      case UnjailNode(id) => CurrentLifecycle(s, Unjail, id);
    }
  }

  /** What an intended snapshot call does to the network: at most one block, and only with a quorum. */
  ghost predicate Polled(s: Sim, s': Sim) {
    && s'.model.nodes == s.model.nodes
    && s'.model.height == s.model.height + (if s.tickOnSnapshot && HasOnlineQuorum(s.model.nodes) then 1 else 0)
    && s' == s.(model := s'.model, step := s'.step)
  }

  lemma CurrentSnapshot(s: Sim)
    requires Consistent(s.model.nodes)
    ensures var r := SimStep(Current, s, TakeSnapshot);
            r.1 == Done && Polled(s, r.0)
  {
    CurrentTick(s.model, NthStep(s.step, 1), Action(Tick, ""));
  }

  lemma UnknownLifecycle(b: Behavior, s: Sim, kind: ActionKind, id: NodeID)
    requires kind != Tick && id !in s.model.nodes
    ensures Lifecycle(b, s, kind, id) == (s.(step := NthStep(s.step, 1)), NodeNotFound)
  {
  }

  /** Calls about an unknown node are refused and change nothing but the step counter. */
  lemma UnknownCall(b: Behavior, s: Sim, a: NetAction)
    requires !a.TakeSnapshot? && a.id !in s.model.nodes
    ensures SimStep(b, s, a) == (s.(step := NthStep(s.step, 1)), NodeNotFound)
  {
    forall kind | kind != Tick
      ensures Lifecycle(b, s, kind, a.id) == (s.(step := NthStep(s.step, 1)), NodeNotFound)
    {
      UnknownLifecycle(b, s, kind, a.id);
    }
  }

  // ---------------------------------------------------------------- what a snapshot says of the model

  function VotingWeights(nodes: map<NodeID, Node>): map<NodeID, int> {
    map id | id in nodes :: if nodes[id].inComet then nodes[id].power else 0
  }

  function OnlineWeights(nodes: map<NodeID, Node>): map<NodeID, int> {
    map id | id in nodes :: if nodes[id].inComet && nodes[id].online then nodes[id].power else 0
  }

  lemma ViewWeights(s: Sim)
    requires SimValid(s) && Consistent(s.model.nodes) && PositivePowers(s.model.nodes)
    ensures forall i :: 0 <= i < |s.order| ==>
              && s.order[i] in s.model.nodes
              && VotingOf(View(s))[i] == VotingWeights(s.model.nodes)[s.order[i]]
              && LiveOf(View(s))[i] == OnlineWeights(s.model.nodes)[s.order[i]]
  {
    forall i | 0 <= i < |s.order|
      ensures && s.order[i] in s.model.nodes
              && VotingOf(View(s))[i] == VotingWeights(s.model.nodes)[s.order[i]]
              && LiveOf(View(s))[i] == OnlineWeights(s.model.nodes)[s.order[i]]
    {
      assert s.order[i] in s.model.nodes;
      assert NodeConsistent(s.model.nodes[s.order[i]]);
    }
  }

  lemma OrderedSum(order: seq<NodeID>, w: map<NodeID, int>, ws: seq<int>)
    requires forall i, j :: 0 <= i < j < |order| ==> order[i] != order[j]
    requires w.Keys == set i | 0 <= i < |order| :: order[i]
    requires |ws| == |order| && forall i :: 0 <= i < |order| ==> order[i] in w && ws[i] == w[order[i]]
    ensures SeqSum(ws) == Total(w)
  {
    SeqSumIsTotal(order, w);
    assert ws == seq(|order|, i requires 0 <= i < |order| => w[order[i]]);
  }

  lemma ViewPowers(s: Sim)
    requires SimValid(s) && Consistent(s.model.nodes) && PositivePowers(s.model.nodes)
    ensures SeqSum(VotingOf(View(s))) == TotalPower(s.model.nodes)
    ensures SeqSum(LiveOf(View(s))) == OnlinePower(s.model.nodes)
  {
    ViewWeights(s);
    OrderedSum(s.order, VotingWeights(s.model.nodes), VotingOf(View(s)));
    OrderedSum(s.order, OnlineWeights(s.model.nodes), LiveOf(View(s)));
    ZerosDoNotCount(VotingPowers(s.model.nodes), VotingWeights(s.model.nodes));
    ZerosDoNotCount(OnlinePowers(s.model.nodes), OnlineWeights(s.model.nodes));
  }

  lemma {:induction false} ZerosDoNotCount(w: map<NodeID, int>, v: map<NodeID, int>)
    requires w.Keys <= v.Keys
    requires forall id :: id in v ==> v[id] == if id in w then w[id] else 0
    ensures Total(v) == Total(w)
    decreases |v|
  {
    if v == map[] {
      assert w == map[];
    } else {
      var id :| id in v;
      TotalSplit(v, id);
      if id in w {
        TotalSplit(w, id);
        ZerosDoNotCount(w - {id}, v - {id});
      } else {
        ZerosDoNotCount(w, v - {id});
      }
    }
  }

  /** A snapshot's quorum verdict is the model's, whatever endpoints the nodes advertise. */
  lemma SnapshotQuorumIsModelQuorum(s: Sim)
    requires SimValid(s) && Consistent(s.model.nodes) && PositivePowers(s.model.nodes)
    ensures SnapshotQuorum(View(s)) == HasOnlineQuorum(s.model.nodes)
  {
    ViewPowers(s);
  }

  // ---------------------------------------------------------------- the mutable network

  class SimulatedNetwork {
    const model: ValidatorLifecycleModel
    const originalEndpoints: map<NodeID, string>
    const tickOnSnapshot: bool
    var currentEndpoints: map<NodeID, string>
    var step: int

    ghost function Abs(): Sim
      reads this, model
    {
      Sim(model.View(), model.order, originalEndpoints, currentEndpoints, step, tickOnSnapshot)
    }

    /** All endpoints start out as the nodes' own addresses. */
    constructor (nodeCount: int, initialActive: int, behavior: Behavior, powers: map<NodeID, int>, tickOnSnapshot: bool)
      ensures fresh(model) && model.behavior == behavior && this.tickOnSnapshot == tickOnSnapshot && step == 0
      ensures SimValid(Abs()) && Consistent(model.nodes) && PositivePowers(model.nodes)
      ensures currentEndpoints == originalEndpoints && model.height == 0
      ensures |model.order| == Clamp(nodeCount, 1, DEFAULT_NODE_LIMIT)
      ensures IsInitial(model.nodes, model.order,
                        if 0 < initialActive <= |model.order| then initialActive else |model.order|, powers)
    {
      var m := new ValidatorLifecycleModel(nodeCount, initialActive, behavior, powers);
      InitialIsConsistent(m.nodes, m.order,
                          if 0 < initialActive <= |m.order| then initialActive else |m.order|, powers);
      this.model := m;
      var endpoints := map id | id in m.nodes.Keys :: "https://" + id + ".oap.simulated";
      originalEndpoints := endpoints;
      currentEndpoints := endpoints;
      this.tickOnSnapshot := tickOnSnapshot;
      step := 0;
    }

    method ApplyAction(kind: ActionKind, id: NodeID) returns (o: Outcome)
      modifies this`step, model
      ensures (Abs(), o) == Lifecycle(model.behavior, old(Abs()), kind, id)
      ensures model.order == old(model.order)
    {
      step := NthStep(step, 1);
      o := model.Perform(step, Action(kind, id));
    }

    method Restart(id: NodeID) returns (o: Outcome)
      modifies this`step, model
      ensures (Abs(), o) == SimStep(model.behavior, old(Abs()), RestartNode(id))
    {
      o := ApplyAction(Stop, id);
      if o == Done {
        o := ApplyAction(Start, id);
      }
    }

    method Register(id: NodeID) returns (o: Outcome)
      modifies this`step, this`currentEndpoints, model
      ensures (Abs(), o) == SimStep(model.behavior, old(Abs()), RegisterNode(id))
    {
      o := ApplyAction(ActionKind.Register, id);
      if o == Done {
        currentEndpoints := currentEndpoints[id := OriginalOf(originalEndpoints, id)];
      }
    }

    method SetEndpoint(id: NodeID, endpoint: string) returns (o: Outcome)
      modifies this`step, this`currentEndpoints, model
      ensures (Abs(), o) == SetEndpointMeaning(model.behavior, old(Abs()), id, endpoint)
    {
      var own := OriginalOf(originalEndpoints, id);
      if endpoint == "" || endpoint == own {
        o := ApplyAction(RepairEndpoint, id);
        if o == Done {
          currentEndpoints := currentEndpoints[id := own];
        }
        return;
      }
      o := ApplyAction(LieEndpoint, id);
      if o == Done {
        currentEndpoints := currentEndpoints[id := endpoint];
      }
    }

    method Statuses() returns (statuses: Snapshot)
      requires SimValid(Abs())
      ensures statuses == View(Abs())
    {
      statuses := [];
      for i := 0 to |model.order|
        invariant |statuses| == i
        invariant forall j :: 0 <= j < i ==> statuses[j] == View(Abs())[j]
      {
        var id := model.order[i];
        assert id in model.nodes;
        var n := model.nodes[id];
        var live := n.state == Active && n.online;
        var reachable := live && n.honest;
        statuses := statuses + [NodeStatus(id, currentEndpoints[id], reachable, reachable, live, live,
                                           model.height, BlockHash(model.height), "",
                                           if n.inComet then n.power else 0)];
      }
    }

    /** The statuses in node order, after the tick; an invariant error of the tick comes back as is. */
    method TakeSnapshot() returns (o: Outcome, statuses: Snapshot)
      requires SimValid(Abs())
      modifies this`step, model
      ensures (Abs(), o) == SimStep(model.behavior, old(Abs()), NetAction.TakeSnapshot)
      ensures SimValid(Abs())
      ensures o == Done ==> statuses == View(Abs())
    {
      statuses := [];
      o := Done;
      if tickOnSnapshot {
        o := ApplyAction(Tick, "");
        assert model.nodes == old(model.nodes);
      }
      if o == Done {
        statuses := Statuses();
      }
    }
  }
}
