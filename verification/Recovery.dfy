/**
 Recovering a network from faults (pkg/fuzz/chaos.go) and checking it against the baselines captured
 before them (pkg/fuzz/recovery.go): under the intended behaviour, and under the register that does
 nothing, which the lifecycle model's own checks never report.
 */
module Recovery {
  import opened Sums
  import opened ValidatorModel
  import opened FaultyBehaviors
  import opened SimulatedNetworks

  // ---------------------------------------------------------------- calls, seen from one node

  /** What a call can change about one node. */
  datatype Local = Local(node: Node, endpoint: string)

  ghost function At(s: Sim, id: NodeID): Local
    requires id in s.model.nodes && id in s.current
  {
    Local(s.model.nodes[id], s.current[id])
  }

  /** The behaviours the lifecycle model's checks let pass on every run. */
  predicate Unreported(b: Behavior) { b == Current || b == RegisterNoop }

  function NodeChange(b: Behavior, a: NetAction, n: Node, own: string): Node
    requires !a.TakeSnapshot?
  {
    if b == RegisterNoop && a.RegisterNode? then n else NodeEffect(a, n, own)
  }

  function LocalEffect(b: Behavior, a: NetAction, id: NodeID, l: Local, own: string): Local {
    if a.TakeSnapshot? || a.id != id then l else Local(NodeChange(b, a, l.node, own), EndpointEffect(a, l.endpoint, own))
  }

  function LocalRun(b: Behavior, calls: seq<NetAction>, id: NodeID, l: Local, own: string): Local {
    if calls == [] then l else LocalEffect(b, calls[|calls| - 1], id, LocalRun(b, calls[..|calls| - 1], id, l, own), own)
  }

  /** Calls in order, stopping at the first that fails. */
  ghost function NetRun(b: Behavior, s: Sim, calls: seq<NetAction>): (Sim, Outcome)
    decreases |calls|
  {
    if calls == [] then (s, Done)
    else
      var before := NetRun(b, s, calls[..|calls| - 1]);
      if before.1 != Done then before else SimStep(b, before.0, calls[|calls| - 1])
  }

  predicate AboutNodes(calls: seq<NetAction>, ids: set<NodeID>) {
    forall i :: 0 <= i < |calls| ==> calls[i].TakeSnapshot? || calls[i].id in ids
  }

  ghost predicate Sound(s: Sim) { SimValid(s) && Consistent(s.model.nodes) }

  /** t has the nodes of s under the same names and addresses. */
  ghost predicate SameNetwork(s: Sim, t: Sim) {
    && t.model.nodes.Keys == s.model.nodes.Keys && t.order == s.order && t.original == s.original
    && t.tickOnSnapshot == s.tickOnSnapshot
  }

  /** What one call leaves: the same sound network, changed at most at the node named. */
  ghost predicate ActsLocally(b: Behavior, s: Sim, s': Sim, a: NetAction) {
    && Sound(s) && Sound(s') && SameNetwork(s, s')
    && forall id :: id in s.model.nodes ==> At(s', id) == LocalEffect(b, a, id, At(s, id), OriginalOf(s.original, id))
  }

  lemma IntendedIsLocal(s: Sim, s': Sim, a: NetAction)
    requires Sound(s) && !a.TakeSnapshot? && a.id in s.model.nodes && a.id in s.current && IntendedStep(s, s', a)
    ensures ActsLocally(Current, s, s', a)
  {
    assert s'.model.nodes.Keys == s.model.nodes.Keys && s'.current.Keys == s.current.Keys;
    forall id | id in s.model.nodes ensures At(s', id) == LocalEffect(Current, a, id, At(s, id), OriginalOf(s.original, id)) {
    }
  }

  lemma PolledIsLocal(b: Behavior, s: Sim, s': Sim)
    requires Sound(s) && Polled(s, s')
    ensures ActsLocally(b, s, s', TakeSnapshot)
  {
  }

  /** Apart from registering, the silent register changes nothing about a lifecycle call. */
  lemma SilentLifecycle(s: Sim, kind: ActionKind, id: NodeID)
    requires Consistent(s.model.nodes) && kind != Register && (kind == Tick || id in s.model.nodes)
    ensures Lifecycle(RegisterNoop, s, kind, id) == Lifecycle(Current, s, kind, id)
  {
    UntriggeredStep(RegisterNoop, s.model, NthStep(s.step, 1), Action(kind, id));
  }

  lemma SilentRestart(s: Sim, id: NodeID)
    requires Sound(s) && id in s.model.nodes
    ensures SimStep(RegisterNoop, s, RestartNode(id)) == SimStep(Current, s, RestartNode(id))
  {
    SilentLifecycle(s, Stop, id);
    CurrentLifecycle(s, Stop, id);
    SilentLifecycle(Lifecycle(Current, s, Stop, id).0, Start, id);
  }

  lemma SilentThen(s: Sim, kind: ActionKind, id: NodeID, endpoint: string)
    requires Consistent(s.model.nodes) && kind != Register && kind != Tick && id in s.model.nodes
    ensures LifecycleThen(RegisterNoop, s, kind, id, endpoint) == LifecycleThen(Current, s, kind, id, endpoint)
  {
    SilentLifecycle(s, kind, id);
  }

  lemma SilentEndpoint(s: Sim, id: NodeID, url: string)
    requires Sound(s) && id in s.model.nodes
    ensures SetEndpointMeaning(RegisterNoop, s, id, url) == SetEndpointMeaning(Current, s, id, url)
  {
    SilentThen(s, RepairEndpoint, id, OriginalOf(s.original, id));
    SilentThen(s, LieEndpoint, id, url);
  }

  lemma SilentCall(s: Sim, a: NetAction)
    requires Sound(s) && !a.RegisterNode? && (a.TakeSnapshot? || a.id in s.model.nodes)
    ensures SimStep(RegisterNoop, s, a) == SimStep(Current, s, a)
  {
    match a {
      case StartNode(id) => SilentLifecycle(s, Start, id);
      case StopNode(id) => SilentLifecycle(s, Stop, id);
      case RestartNode(id) => SilentRestart(s, id);
      case DeregisterNode(id) => SilentLifecycle(s, Deregister, id);
      case SetNodeEndpoint(id, e) => SilentEndpoint(s, id, Resolve(s.original, id, e));
      case JailNode(id) => SilentLifecycle(s, Jail, id);
      case UnjailNode(id) => SilentLifecycle(s, Unjail, id);
      case TakeSnapshot => SilentLifecycle(s, Tick, "");
    }
  }

  /** The register that does nothing leaves the model's nodes and height alone. */
  lemma SilentRegisterLifecycle(s: Sim, id: NodeID)
    requires Consistent(s.model.nodes) && id in s.model.nodes
    ensures var r := Lifecycle(RegisterNoop, s, Register, id);
            && r.1 == Done && r.0.model.nodes == s.model.nodes
            && r.0 == s.(model := r.0.model, step := r.0.step)
  {
    assert s.model.nodes[id := s.model.nodes[id]] == s.model.nodes;
  }

  lemma ResetIsLocal(s: Sim, s': Sim, id: NodeID)
    requires Sound(s) && id in s.model.nodes && s'.model.nodes == s.model.nodes
    requires s' == s.(model := s'.model, step := s'.step, current := s.current[id := OriginalOf(s.original, id)])
    ensures ActsLocally(RegisterNoop, s, s', RegisterNode(id))
  {
  }

  lemma SilentRegister(s: Sim, id: NodeID)
    requires Sound(s) && id in s.model.nodes
    ensures SimStep(RegisterNoop, s, RegisterNode(id)).1 == Done
    ensures ActsLocally(RegisterNoop, s, SimStep(RegisterNoop, s, RegisterNode(id)).0, RegisterNode(id))
  {
    SilentRegisterLifecycle(s, id);
    ResetIsLocal(s, SimStep(RegisterNoop, s, RegisterNode(id)).0, id);
  }

  lemma OneCall(b: Behavior, s: Sim, a: NetAction)
    requires Unreported(b) && Sound(s) && (a.TakeSnapshot? || a.id in s.model.nodes)
    ensures SimStep(b, s, a).1 == Done && ActsLocally(b, s, SimStep(b, s, a).0, a)
  {
    if b == RegisterNoop && a.RegisterNode? {
      SilentRegister(s, a.id);
    } else {
      if b == RegisterNoop {
        SilentCall(s, a);
      }
      CurrentOneCall(s, a);
      SameLocally(b, s, SimStep(b, s, a).0, a);
    }
  }

  lemma CurrentOneCall(s: Sim, a: NetAction)
    requires Sound(s) && (a.TakeSnapshot? || a.id in s.model.nodes)
    ensures SimStep(Current, s, a).1 == Done && ActsLocally(Current, s, SimStep(Current, s, a).0, a)
  {
    if a.TakeSnapshot? {
      CurrentSnapshot(s);
      PolledIsLocal(Current, s, SimStep(Current, s, a).0);
    } else {
      CurrentCall(s, a);
      IntendedIsLocal(s, SimStep(Current, s, a).0, a);
    }
  }

  lemma SameLocally(b: Behavior, s: Sim, s': Sim, a: NetAction)
    requires ActsLocally(Current, s, s', a) && (b == RegisterNoop ==> !a.RegisterNode?)
    ensures ActsLocally(b, s, s', a)
  {
  }

  /** Runs of calls succeed and act on each node by itself. */
  lemma {:induction false} NetRunLocal(b: Behavior, s: Sim, calls: seq<NetAction>)
    requires Unreported(b) && Sound(s) && AboutNodes(calls, s.model.nodes.Keys)
    ensures var r := NetRun(b, s, calls);
            && r.1 == Done && Sound(r.0) && SameNetwork(s, r.0)
            && forall id :: id in s.model.nodes ==> At(r.0, id) == LocalRun(b, calls, id, At(s, id), OriginalOf(s.original, id))
    decreases |calls|
  {
    if calls != [] {
      var n := |calls| - 1;
      NetRunLocal(b, s, calls[..n]);
      OneCall(b, NetRun(b, s, calls[..n]).0, calls[n]);
    }
  }

  lemma {:induction false} LocalRunConcat(b: Behavior, x: seq<NetAction>, y: seq<NetAction>, id: NodeID, l: Local, own: string)
    ensures LocalRun(b, x + y, id, l, own) == LocalRun(b, y, id, LocalRun(b, x, id, l, own), own)
    decreases |y|
  {
    if y == [] {
      assert x + y == x;
    } else {
      var n := |y| - 1;
      assert (x + y)[..|x| + n] == x + y[..n];
      LocalRunConcat(b, x, y[..n], id, l, own);
    }
  }

  lemma EffectKeeps(b: Behavior, a: NetAction, id: NodeID, l: Local, own: string)
    ensures LocalEffect(b, a, id, l, own).node.power == l.node.power
    ensures a.TakeSnapshot? || a.id != id ==> LocalEffect(b, a, id, l, own) == l
  {
  }

  /** Calls about other nodes leave a node alone, and no call changes a node's power. */
  lemma {:induction false} LocalRunKeeps(b: Behavior, calls: seq<NetAction>, ids: set<NodeID>, id: NodeID, l: Local, own: string)
    requires AboutNodes(calls, ids)
    ensures id !in ids ==> LocalRun(b, calls, id, l, own) == l
    ensures LocalRun(b, calls, id, l, own).node.power == l.node.power
    decreases |calls|
  {
    if calls != [] {
      var n := |calls| - 1;
      LocalRunKeeps(b, calls[..n], ids, id, l, own);
      EffectKeeps(b, calls[n], id, LocalRun(b, calls[..n], id, l, own), own);
    }
  }

  // ---------------------------------------------------------------- the recovery actions

  /** Which controls the scenario has. */
  datatype Controls = Controls(endpoints: bool, jailer: bool, registrar: bool, processes: bool)

  datatype Stage = RepairAll | UnjailAll | RegisterAll | StartAll

  function StageCall(g: Stage, id: NodeID): NetAction {
    match g
    case RepairAll => SetNodeEndpoint(id, Clear)
    case UnjailAll => UnjailNode(id)
    case RegisterAll => RegisterNode(id)
    case StartAll => StartNode(id)
  }

  function StageCalls(g: Stage, ids: seq<NodeID>): seq<NetAction> {
    seq(|ids|, i requires 0 <= i < |ids| => StageCall(g, ids[i]))
  }

  function Stages(c: Controls): seq<Stage> {
    (if c.endpoints then [RepairAll] else []) + (if c.jailer then [UnjailAll] else []) +
    (if c.registrar then [RegisterAll] else []) + (if c.processes then [StartAll] else [])
  }

  function CallsOf(stages: seq<Stage>, ids: seq<NodeID>): seq<NetAction> {
    if stages == [] then [] else CallsOf(stages[..|stages| - 1], ids) + StageCalls(stages[|stages| - 1], ids)
  }

  /** Builds the list stage by stage, in the order endpoints, jail, registration, processes. */
  method ValidatorRecoveryActions(ids: seq<NodeID>, c: Controls) returns (calls: seq<NetAction>)
    ensures calls == CallsOf(Stages(c), ids)
  {
    calls := [];
    ghost var done: seq<Stage> := [];
    if c.endpoints {
      calls, done := AddStage(RepairAll, ids, calls, done);
    }
    if c.jailer {
      calls, done := AddStage(UnjailAll, ids, calls, done);
    }
    if c.registrar {
      calls, done := AddStage(RegisterAll, ids, calls, done);
    }
    if c.processes {
      calls, done := AddStage(StartAll, ids, calls, done);
    }
    assert done == Stages(c);
  }

  method AddStage(g: Stage, ids: seq<NodeID>, calls: seq<NetAction>, ghost done: seq<Stage>)
      returns (calls': seq<NetAction>, ghost done': seq<Stage>)
    requires calls == CallsOf(done, ids)
    ensures done' == done + [g] && calls' == CallsOf(done', ids)
  {
    var stage: seq<NetAction> := [];
    for i := 0 to |ids|
      invariant |stage| == i && forall k :: 0 <= k < i ==> stage[k] == StageCall(g, ids[k])
    {
      stage := stage + [StageCall(g, ids[i])];
    }
    calls', done' := calls + stage, done + [g];
    assert done'[..|done|] == done && stage == StageCalls(g, ids);
  }

  function StageEffect(b: Behavior, g: Stage, l: Local, own: string): Local {
    LocalEffect(b, StageCall(g, ""), "", l, own)
  }

  lemma StageIdempotent(b: Behavior, g: Stage, l: Local, own: string)
    ensures StageEffect(b, g, StageEffect(b, g, l, own), own) == StageEffect(b, g, l, own)
  {
  }

  lemma StageOne(b: Behavior, g: Stage, at: NodeID, id: NodeID, l: Local, own: string)
    ensures LocalEffect(b, StageCall(g, at), id, l, own) == if at == id then StageEffect(b, g, l, own) else l
  {
  }

  /** However often the list names a node, a stage acts on it once, and on nobody else. */
  lemma {:induction false} StageRun(b: Behavior, g: Stage, ids: seq<NodeID>, id: NodeID, l: Local, own: string)
    ensures LocalRun(b, StageCalls(g, ids), id, l, own) == if id in ids then StageEffect(b, g, l, own) else l
    decreases |ids|
  {
    if ids != [] {
      var n := |ids| - 1;
      assert StageCalls(g, ids)[..n] == StageCalls(g, ids[..n]);
      assert ids == ids[..n] + [ids[n]];
      StageRun(b, g, ids[..n], id, l, own);
      StageOne(b, g, ids[n], id, LocalRun(b, StageCalls(g, ids[..n]), id, l, own), own);
      StageIdempotent(b, g, l, own);
    }
  }

  function StagesEffect(b: Behavior, stages: seq<Stage>, l: Local, own: string): Local {
    if stages == [] then l else StageEffect(b, stages[|stages| - 1], StagesEffect(b, stages[..|stages| - 1], l, own), own)
  }

  lemma {:induction false} StagesRun(b: Behavior, stages: seq<Stage>, ids: seq<NodeID>, id: NodeID, l: Local, own: string)
    ensures LocalRun(b, CallsOf(stages, ids), id, l, own) == if id in ids then StagesEffect(b, stages, l, own) else l
    decreases |stages|
  {
    if stages != [] {
      var n := |stages| - 1;
      var init := CallsOf(stages[..n], ids);
      StagesRun(b, stages[..n], ids, id, l, own);
      LocalRunConcat(b, init, StageCalls(stages[n], ids), id, l, own);
      StageRun(b, stages[n], ids, id, LocalRun(b, init, id, l, own), own);
    }
  }

  // ---------------------------------------------------------------- what recovery restores

  /** Active, online and advertising its own address. */
  function Healthy(power: int, own: string): Local { Local(Node(Active, true, true, true, power), own) }

  /** A registrar that works mends everything; one that does nothing still resets the advertised address. */
  predicate Mendable(b: Behavior, c: Controls, l: Local, own: string) {
    || (b == Current && c.registrar)
    || (&& l.node.state != Absent
        && (l.node.state == Jailed ==> c.jailer)
        && (l.node.state == Active && !l.node.online ==> c.processes)
        && (!l.node.honest ==> c.endpoints)
        && (l.endpoint != own ==> c.endpoints || c.registrar))
  }

  function After(b: Behavior, on: bool, g: Stage, l: Local, own: string): Local { if on then StageEffect(b, g, l, own) else l }

  lemma RegistrarHeals(processes: bool, l: Local, own: string)
    ensures After(Current, processes, StartAll, StageEffect(Current, RegisterAll, l, own), own) == Healthy(l.node.power, own)
  {
  }

  lemma RepairEffect(b: Behavior, c: Controls, l: Local, own: string)
    ensures var x := After(b, c.endpoints, RepairAll, l, own);
            x == Local(l.node.(honest := l.node.honest || c.endpoints), if c.endpoints then own else l.endpoint)
  {
  }

  lemma UnjailEffect(b: Behavior, c: Controls, l: Local, own: string)
    requires NodeConsistent(l.node)
    ensures var x := After(b, c.jailer, UnjailAll, l, own);
            && x.endpoint == l.endpoint && NodeConsistent(x.node)
            && x.node == if l.node.state == Jailed && c.jailer then Node(Active, true, true, l.node.honest, l.node.power) else l.node
  {
  }

  /** A register stage that changes no node, and the start stage after it. */
  lemma IdleRegisterEffect(b: Behavior, c: Controls, l: Local, own: string)
    requires NodeConsistent(l.node) && (b == RegisterNoop || !c.registrar)
    ensures var x := After(b, c.processes, StartAll, After(b, c.registrar, RegisterAll, l, own), own);
            && x.endpoint == (if c.registrar then own else l.endpoint)
            && x.node == if l.node.state == Active && c.processes then l.node.(online := true) else l.node
  {
  }

  /** Exactly the mendable nodes become healthy. */
  lemma RecoveredExactly(b: Behavior, c: Controls, l: Local, own: string)
    requires Unreported(b) && NodeConsistent(l.node)
    ensures StagesEffect(b, Stages(c), l, own) == Healthy(l.node.power, own) <==> Mendable(b, c, l, own)
  {
    var x := After(b, c.endpoints, RepairAll, l, own);
    var y := After(b, c.jailer, UnjailAll, x, own);
    RepairEffect(b, c, l, own);
    UnjailEffect(b, c, x, own);
    StagesInOrder(b, c, l, own);
    if b == Current && c.registrar {
      RegistrarHeals(c.processes, y, own);
    } else {
      IdleRegisterEffect(b, c, y, own);
    }
  }

  lemma Extend(b: Behavior, stages: seq<Stage>, g: Stage, on: bool, l: Local, own: string)
    ensures StagesEffect(b, stages + (if on then [g] else []), l, own) == After(b, on, g, StagesEffect(b, stages, l, own), own)
  {
    if on {
      assert (stages + [g])[..|stages|] == stages;
    } else {
      assert stages + [] == stages;
    }
  }

  /** Two stages more. */
  lemma ExtendTwice(b: Behavior, stages: seq<Stage>, c: bool, g: Stage, d: bool, h: Stage, l: Local, own: string, before: Local)
    requires before == StagesEffect(b, stages, l, own)
    ensures StagesEffect(b, stages + (if c then [g] else []) + (if d then [h] else []), l, own)
            == After(b, d, h, After(b, c, g, before, own), own)
  {
    Extend(b, stages, g, c, l, own);
    Extend(b, stages + (if c then [g] else []), h, d, l, own);
  }

  lemma StagesInOrder(b: Behavior, c: Controls, l: Local, own: string)
    ensures var x := After(b, c.endpoints, RepairAll, l, own);
            var y := After(b, c.jailer, UnjailAll, x, own);
            var z := After(b, c.registrar, RegisterAll, y, own);
            StagesEffect(b, Stages(c), l, own) == After(b, c.processes, StartAll, z, own)
  {
    var start: seq<Stage> := [];
    var repairs := start + (if c.endpoints then [RepairAll] else []) + (if c.jailer then [UnjailAll] else []);
    ExtendTwice(b, start, c.endpoints, RepairAll, c.jailer, UnjailAll, l, own, l);
    ExtendTwice(b, repairs, c.registrar, RegisterAll, c.processes, StartAll, l, own, StagesEffect(b, repairs, l, own));
    assert start + (if c.endpoints then [RepairAll] else []) == if c.endpoints then [RepairAll] else [];
  }

  /** Every node of the list starts out healthy. */
  ghost predicate StartsHealthy(s: Sim, ids: seq<NodeID>) {
    forall id :: id in ids ==>
      id in s.model.nodes && id in s.current && At(s, id) == Healthy(s.model.nodes[id].power, OriginalOf(s.original, id))
  }

  ghost predicate Restored(s: Sim, t: Sim) {
    t.model.nodes == s.model.nodes && t.current == s.current && SameNetwork(s, t)
  }

  /** t is s but for the listed nodes, and nobody's power has changed. */
  ghost predicate DiffersAt(s: Sim, t: Sim, ids: seq<NodeID>) {
    && Sound(s) && Sound(t) && SameNetwork(s, t)
    && (forall id :: id in s.model.nodes && id !in ids ==> At(t, id) == At(s, id))
    && (forall id :: id in s.model.nodes ==> At(t, id).node.power == At(s, id).node.power)
  }

  /** The network after faults and recovery. */
  ghost function Aftermath(b: Behavior, s: Sim, faults: seq<NetAction>, ids: seq<NodeID>, c: Controls): (Sim, Outcome) {
    NetRun(b, NetRun(b, s, faults).0, CallsOf(Stages(c), ids))
  }

  /**
   From any sound network whose listed nodes start healthy: after any calls about those nodes, the
   recovery runs without error, and it returns every node and endpoint to where it was exactly when every
   listed node is mendable by the controls at hand.
   */
  lemma RecoveryRestores(b: Behavior, s: Sim, faults: seq<NetAction>, ids: seq<NodeID>, c: Controls)
    requires Unreported(b) && Sound(s) && StartsHealthy(s, ids) && AboutNodes(faults, set id | id in ids)
    ensures NetRun(b, s, faults).1 == Done && Aftermath(b, s, faults, ids, c).1 == Done
    ensures var hit, t := NetRun(b, s, faults).0, Aftermath(b, s, faults, ids, c).0;
            && Sound(hit) && SameNetwork(s, hit) && DiffersAt(s, t, ids)
            && (Restored(s, t) <==> forall id :: id in ids ==> Mendable(b, c, At(hit, id), OriginalOf(s.original, id)))
  {
    var touched := set id | id in ids;
    var calls := CallsOf(Stages(c), ids);
    NetRunLocal(b, s, faults);
    var hit := NetRun(b, s, faults).0;
    RecoveryIsAboutIds(Stages(c), ids);
    NetRunLocal(b, hit, calls);
    var t := NetRun(b, hit, calls).0;
    forall id | id in s.model.nodes
      ensures At(t, id).node.power == At(s, id).node.power
      ensures id !in ids ==> At(t, id) == At(s, id)
      ensures id in ids ==> (At(t, id) == At(s, id) <==> Mendable(b, c, At(hit, id), OriginalOf(s.original, id)))
    {
      var own := OriginalOf(s.original, id);
      LocalRunKeeps(b, faults, touched, id, At(s, id), own);
      LocalRunKeeps(b, calls, touched, id, At(hit, id), own);
      StagesRun(b, Stages(c), ids, id, At(hit, id), own);
      assert NodeConsistent(hit.model.nodes[id]);
      RecoveredExactly(b, c, At(hit, id), own);
    }
    RestoredPointwise(s, t);
  }

  lemma RestoredPointwise(s: Sim, t: Sim)
    requires SimValid(s) && SimValid(t) && SameNetwork(s, t)
    ensures Restored(s, t) <==> forall id :: id in s.model.nodes ==> At(t, id) == At(s, id)
  {
    if forall id :: id in s.model.nodes ==> At(t, id) == At(s, id) {
      forall id | id in s.model.nodes ensures t.model.nodes[id] == s.model.nodes[id] && t.current[id] == s.current[id] {
        assert At(t, id) == At(s, id);
      }
      assert t.current.Keys == s.current.Keys;
    }
  }

  lemma {:induction false} RecoveryIsAboutIds(stages: seq<Stage>, ids: seq<NodeID>)
    ensures AboutNodes(CallsOf(stages, ids), set id | id in ids)
    decreases |stages|
  {
    if stages != [] {
      RecoveryIsAboutIds(stages[..|stages| - 1], ids);
    }
  }

  // ---------------------------------------------------------------- baselines

  datatype PowerBaseline = PowerBaseline(power: int, live: bool)
  datatype ReachBaseline = ReachBaseline(endpoint: string, reachable: bool, ready: bool)

  /** Why a snapshot differs from a baseline; the source words these and sorts them. */
  datatype Mismatch = ExtraNode(id: NodeID) | Differs(id: NodeID) | MissingNode(id: NodeID)

  /** What a snapshot records per node; the last status of an id counts. */
  function Captured<B>(s: Snapshot, f: NodeStatus -> B): map<NodeID, B> {
    if s == [] then map[] else Captured(s[..|s| - 1], f)[s[|s| - 1].id := f(s[|s| - 1])]
  }

  function PowerOfStatus(n: NodeStatus): PowerBaseline { PowerBaseline(n.power, n.live) }

  function ReachOfStatus(n: NodeStatus): ReachBaseline { ReachBaseline(n.endpoint, n.reachable, n.ready) }

  method CaptureBaseline<B>(s: Snapshot, f: NodeStatus -> B) returns (want: map<NodeID, B>)
    ensures want == Captured(s, f)
  {
    want := map[];
    for i := 0 to |s|
      invariant want == Captured(s[..i], f)
    {
      assert s[..i + 1][..i] == s[..i];
      want := want[s[i].id := f(s[i])];
    }
    assert s[..|s|] == s;
  }

  /** A status that the baseline does not know counts only if it shows up: by power or liveness, or by reachability. */
  predicate Noticed(n: NodeStatus, byPower: bool) {
    if byPower then n.power > 0 || n.live else n.reachable || n.ready
  }

  ghost predicate Matches<B>(s: Snapshot, f: NodeStatus -> B, byPower: bool, want: map<NodeID, B>) {
    && (forall i :: 0 <= i < |s| ==> StatusMatches(s[i], f, byPower, want))
    && (forall id :: id in want ==> exists i :: 0 <= i < |s| && s[i].id == id)
  }

  ghost predicate StatusMatches<B>(n: NodeStatus, f: NodeStatus -> B, byPower: bool, want: map<NodeID, B>) {
    if n.id in want then f(n) == want[n.id] else !Noticed(n, byPower)
  }

  /** Both mismatch functions, which differ in what they compare and when an extra node counts. */
  method BaselineMismatches<B(==)>(s: Snapshot, f: NodeStatus -> B, byPower: bool, want: map<NodeID, B>) returns (r: seq<Mismatch>)
    ensures r == [] <==> Matches(s, f, byPower, want)
  {
    r := [];
    var seen: set<NodeID> := {};
    for i := 0 to |s|
      invariant forall id :: id in seen <==> exists k :: 0 <= k < i && s[k].id == id
      invariant r == [] <==> forall k :: 0 <= k < i ==> StatusMatches(s[k], f, byPower, want)
    {
      seen := seen + {s[i].id};
      if s[i].id !in want {
        if Noticed(s[i], byPower) {
          r := r + [ExtraNode(s[i].id)];
        }
        continue;
      }
      if f(s[i]) != want[s[i].id] {
        r := r + [Differs(s[i].id)];
      }
    }
    var rest := want.Keys;
    while rest != {}
      invariant rest <= want.Keys
      invariant r == [] <==>
                (forall k :: 0 <= k < |s| ==> StatusMatches(s[k], f, byPower, want)) &&
                (forall id :: id in want && id !in rest ==> id in seen)
      decreases |rest|
    {
      var id :| id in rest;
      if id !in seen {
        r := r + [MissingNode(id)];
      }
      rest := rest - {id};
    }
  }

  lemma {:induction false} CapturedIs<B>(s: Snapshot, f: NodeStatus -> B)
    requires forall i, j :: 0 <= i < j < |s| ==> s[i].id != s[j].id
    ensures forall id :: id in Captured(s, f) <==> exists i :: 0 <= i < |s| && s[i].id == id
    ensures forall i :: 0 <= i < |s| ==> s[i].id in Captured(s, f) && Captured(s, f)[s[i].id] == f(s[i])
    decreases |s|
  {
    if s != [] {
      var n := |s| - 1;
      var init := s[..n];
      assert forall i :: 0 <= i < n ==> init[i] == s[i];
      CapturedIs(init, f);
      forall i | 0 <= i < n ensures s[i].id in Captured(s, f) && Captured(s, f)[s[i].id] == f(s[i]) {
        assert init[i] == s[i];
      }
    }
  }

  /** The same nodes in the same order, up to height and block hash. */
  ghost predicate SameStatuses(a: Snapshot, b: Snapshot) {
    && |a| == |b|
    && forall i :: 0 <= i < |a| ==>
         a[i].id == b[i].id && PowerOfStatus(a[i]) == PowerOfStatus(b[i]) && ReachOfStatus(a[i]) == ReachOfStatus(b[i])
  }

  lemma SameStatusesMatch<B>(a: Snapshot, b: Snapshot, f: NodeStatus -> B, byPower: bool)
    requires forall i, j :: 0 <= i < j < |a| ==> a[i].id != a[j].id
    requires |a| == |b| && forall i :: 0 <= i < |a| ==> a[i].id == b[i].id && f(a[i]) == f(b[i])
    ensures Matches(b, f, byPower, Captured(a, f))
  {
    CapturedIs(a, f);
    forall i | 0 <= i < |b| ensures StatusMatches(b[i], f, byPower, Captured(a, f)) {
      assert a[i].id == b[i].id;
    }
    forall id | id in Captured(a, f) ensures exists i :: 0 <= i < |b| && b[i].id == id {
      var i :| 0 <= i < |a| && a[i].id == id;
      assert b[i].id == id;
    }
  }

  /** A restored network shows the statuses of the beginning, so neither baseline finds a mismatch. */
  lemma RestoredMatchesBaselines(s: Sim, t: Sim)
    requires SimValid(s) && SimValid(t) && Restored(s, t)
    ensures SameStatuses(View(s), View(t)) && BaselinesMatch(s, t)
  {
    SameStatusesMatch(View(s), View(t), PowerOfStatus, true);
    SameStatusesMatch(View(s), View(t), ReachOfStatus, false);
  }

  /** Neither baseline captured from s finds a mismatch in t. */
  ghost predicate BaselinesMatch(s: Sim, t: Sim)
    requires SimValid(s) && SimValid(t)
  {
    && Matches(View(t), PowerOfStatus, true, Captured(View(s), PowerOfStatus))
    && Matches(View(t), ReachOfStatus, false, Captured(View(s), ReachOfStatus))
  }

  /** Matching baselines mean matching statuses, node by node. */
  lemma MatchedStatus<B>(a: Snapshot, b: Snapshot, f: NodeStatus -> B, byPower: bool, i: nat)
    requires forall i, j :: 0 <= i < j < |a| ==> a[i].id != a[j].id
    requires i < |a| == |b| && a[i].id == b[i].id && Matches(b, f, byPower, Captured(a, f))
    ensures f(b[i]) == f(a[i])
  {
    CapturedIs(a, f);
    assert StatusMatches(b[i], f, byPower, Captured(a, f));
  }

  /** A node that shows the status of a healthy one is healthy. */
  lemma HealthyByStatus(n: Node, e: string, power: int, own: string, id: NodeID, height: int, before: int)
    requires NodeConsistent(n) && n.power == power > 0
    requires PowerOfStatus(StatusOf(n, id, e, height)) == PowerOfStatus(StatusOf(Healthy(power, own).node, id, own, before))
    requires ReachOfStatus(StatusOf(n, id, e, height)) == ReachOfStatus(StatusOf(Healthy(power, own).node, id, own, before))
    ensures Local(n, e) == Healthy(power, own)
  {
  }

  /** The baselines see everything there is to see: they match exactly when all is restored. */
  lemma BaselinesMatchExactly(s: Sim, t: Sim, ids: seq<NodeID>)
    requires DiffersAt(s, t, ids) && StartsHealthy(s, ids) && PositivePowers(s.model.nodes)
    ensures BaselinesMatch(s, t) <==> Restored(s, t)
  {
    RestoredPointwise(s, t);
    if Restored(s, t) {
      RestoredMatchesBaselines(s, t);
    }
    if BaselinesMatch(s, t) {
      forall id | id in s.model.nodes ensures At(t, id) == At(s, id) {
        if id in ids {
          MatchedNode(s, t, ids, id);
        }
      }
    }
  }

  lemma MatchedNode(s: Sim, t: Sim, ids: seq<NodeID>, id: NodeID)
    requires DiffersAt(s, t, ids) && StartsHealthy(s, ids) && PositivePowers(s.model.nodes) && BaselinesMatch(s, t) && id in ids
    ensures At(t, id) == At(s, id)
  {
    assert id in s.model.nodes;
    var i :| 0 <= i < |s.order| && s.order[i] == id;
    MatchedStatus(View(s), View(t), PowerOfStatus, true, i);
    MatchedStatus(View(s), View(t), ReachOfStatus, false, i);
    var n, own := t.model.nodes[id], OriginalOf(s.original, id);
    assert NodeConsistent(n) && At(t, id).node.power == At(s, id).node.power;
    HealthyByStatus(n, t.current[id], s.model.nodes[id].power, own, id, t.model.height, s.model.height);
  }

  /** A fresh network has a quorum: everyone in the set is online. */
  lemma InitialQuorum(s: Sim, active: nat, powers: map<NodeID, int>)
    requires IsInitial(s.model.nodes, s.order, active, powers) && 0 < active && s.order != []
    ensures HasOnlineQuorum(s.model.nodes)
  {
    var nodes := s.model.nodes;
    InitialIsConsistent(nodes, s.order, active, powers);
    assert VotingPowers(nodes) == OnlinePowers(nodes);
    var id := s.order[0];
    assert id in VotingPowers(nodes) && VotingPowers(nodes)[id] > 0;
    TotalNonNegative(VotingPowers(nodes));
  }

  /** A fresh network, and faults and recovery about initially active nodes of it. */
  ghost predicate FreshScenario(s: Sim, active: nat, powers: map<NodeID, int>, faults: seq<NetAction>, ids: seq<NodeID>) {
    && SimValid(s) && s.current == s.original && s.order != [] && 0 < active <= |s.order|
    && IsInitial(s.model.nodes, s.order, active, powers)
    && (forall id :: id in ids ==> id in s.order[..active])
    && AboutNodes(faults, set id | id in ids)
  }

  /**
   From a fresh network, whatever was called about the listed nodes: the recovery ends without error, and
   neither baseline finds a mismatch if and only if every listed node was mendable. Under the register
   that does nothing this is how it comes to light: the model's own checks report nothing.
   */
  lemma BaselinesTellExactly(b: Behavior, s: Sim, active: nat, powers: map<NodeID, int>, faults: seq<NetAction>, ids: seq<NodeID>, c: Controls)
    requires Unreported(b) && FreshScenario(s, active, powers, faults, ids)
    ensures var hit, r := NetRun(b, s, faults).0, Aftermath(b, s, faults, ids, c);
            && r.1 == Done && SimValid(r.0) && SimValid(hit) && SameNetwork(s, hit)
            && (forall id :: id in ids ==> id in hit.model.nodes)
            && (BaselinesMatch(s, r.0) <==> forall id :: id in ids ==> Mendable(b, c, At(hit, id), OriginalOf(s.original, id)))
  {
    InitialIsConsistent(s.model.nodes, s.order, active, powers);
    ActiveStartHealthy(s, active, powers, ids);
    RecoveryRestores(b, s, faults, ids, c);
    BaselinesMatchExactly(s, Aftermath(b, s, faults, ids, c).0, ids);
  }

  /**
   In particular, with the intended behaviour and a registrar, every node and endpoint ends as in the
   beginning, there is no mismatch against either baseline, and every snapshot shows a quorum.
   */
  lemma RecoveryReturnsToBaseline(s: Sim, active: nat, powers: map<NodeID, int>, faults: seq<NetAction>, ids: seq<NodeID>, c: Controls)
    requires FreshScenario(s, active, powers, faults, ids) && c.registrar
    ensures var r := Aftermath(Current, s, faults, ids, c);
            r.1 == Done && SimValid(r.0) && Restored(s, r.0) && BaselinesMatch(s, r.0) && SnapshotQuorum(View(r.0))
  {
    InitialIsConsistent(s.model.nodes, s.order, active, powers);
    ActiveStartHealthy(s, active, powers, ids);
    RecoveryRestores(Current, s, faults, ids, c);
    var t := Aftermath(Current, s, faults, ids, c).0;
    RestoredMatchesBaselines(s, t);
    InitialQuorum(s, active, powers);
    SnapshotQuorumIsModelQuorum(t);
  }

  lemma ActiveStartHealthy(s: Sim, active: nat, powers: map<NodeID, int>, ids: seq<NodeID>)
    requires SimValid(s) && s.current == s.original && active <= |s.order|
    requires IsInitial(s.model.nodes, s.order, active, powers)
    requires forall id :: id in ids ==> id in s.order[..active]
    ensures StartsHealthy(s, ids)
  {
    forall id | id in ids
      ensures id in s.model.nodes && id in s.current && At(s, id) == Healthy(s.model.nodes[id].power, OriginalOf(s.original, id))
    {
      var i :| 0 <= i < active && s.order[..active][i] == id;
      assert s.order[i] == id;
    }
  }
}
