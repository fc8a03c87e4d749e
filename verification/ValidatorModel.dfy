/**
 The validator lifecycle model (pkg/fuzz/validator_model.go): nodes that are absent, active or
 jailed, a Comet validator set, online flags, endpoint honesty, and a chain height that advances on
 ticks. One behaviour is the intended one, seven are deliberately faulty.

 The first half gives the meaning of one action and of a run as functions on values; the class at
 the end is the mutable model, each method of which is proved to compute that meaning.
 */
module ValidatorModel {
  import opened Sums

  type NodeID = string

  datatype Behavior =
    | Current
    | JailedDeregistration
    | AnyDeregistrationUpdate
    | RegisterWithoutCometUpdate
    | RegisterNoop
    | StartAbsentOnline
    | TickWithoutQuorum
    | StallWithQuorum

  datatype ValidatorState = Absent | Active | Jailed

  datatype ActionKind =
    | Register | Jail | Unjail | Deregister | DeregisterTwice
    | Stop | Start | LieEndpoint | RepairEndpoint | Tick

  datatype Action = Action(kind: ActionKind, node: NodeID)

  datatype Node = Node(state: ValidatorState, inComet: bool, online: bool, honest: bool, power: int)

  datatype Violation = NoViolation | RemovalOfMissing | InconsistentNode | AdvancedWithoutQuorum | StalledWithQuorum

  datatype Event = Event(
    step: int, action: ActionKind, node: NodeID,
    stateBefore: ValidatorState, stateAfter: ValidatorState,
    inCometBefore: bool, inCometAfter: bool,
    onlineBefore: bool, onlineAfter: bool,
    emittedUpdate: bool,
    quorumBefore: bool, quorumAfter: bool,
    totalPower: int, onlinePower: int,
    height: int, error: Violation)

  datatype Model = Model(nodes: map<NodeID, Node>, height: int, events: seq<Event>)

  datatype Outcome = Done | NodeNotFound | InvariantError(violation: Violation)

  // ---------------------------------------------------------------- powers and consistency

  function VotingPowers(nodes: map<NodeID, Node>): map<NodeID, int> {
    map id | id in nodes && nodes[id].inComet :: nodes[id].power
  }

  function OnlinePowers(nodes: map<NodeID, Node>): map<NodeID, int> {
    map id | id in nodes && nodes[id].inComet && nodes[id].online :: nodes[id].power
  }

  ghost function TotalPower(nodes: map<NodeID, Node>): int { Total(VotingPowers(nodes)) }

  ghost function OnlinePower(nodes: map<NodeID, Node>): int { Total(OnlinePowers(nodes)) }

  /** Strictly more than two thirds of the voting power is online. */
  predicate Quorum(total: int, online: int) { total > 0 && online * 3 > total * 2 }

  ghost predicate HasOnlineQuorum(nodes: map<NodeID, Node>) {
    Quorum(TotalPower(nodes), OnlinePower(nodes))
  }

  predicate NodeConsistent(n: Node) {
    && (n.state == Active <==> n.inComet)
    && (n.online ==> n.state == Active)
  }

  /** What validateState demands of every node. */
  predicate Consistent(nodes: map<NodeID, Node>) {
    forall id :: id in nodes ==> NodeConsistent(nodes[id])
  }

  predicate PositivePowers(nodes: map<NodeID, Node>) {
    forall id :: id in nodes ==> nodes[id].power > 0
  }

  function CometSet(nodes: map<NodeID, Node>): set<NodeID> {
    set id | id in nodes && nodes[id].inComet
  }

  // ---------------------------------------------------------------- one action

  /** Whether a deregistration emits a zero-power update, by behaviour. */
  predicate DeregistrationEmits(b: Behavior, state: ValidatorState) {
    match b
    case JailedDeregistration => state != Absent
    case AnyDeregistrationUpdate => true
    case _ => state == Active
  }

  predicate IsDeregistration(kind: ActionKind) { kind == Deregister || kind == DeregisterTwice }

  /** Whether the action emits a Comet update for the node. */
  predicate Emits(b: Behavior, kind: ActionKind, n: Node) {
    match kind
    case Register => b != RegisterNoop && b != RegisterWithoutCometUpdate
    case Jail => n.state == Active
    case Unjail => n.state == Jailed
    case Deregister => DeregistrationEmits(b, n.state)
    case DeregisterTwice => DeregistrationEmits(b, n.state)
    case _ => false
  }

  /** The emitted update would remove a validator that Comet does not have. */
  predicate RemovesMissing(b: Behavior, kind: ActionKind, n: Node) {
    (kind == Jail || IsDeregistration(kind)) && Emits(b, kind, n) && !n.inComet
  }

  /** The acted-on node afterwards, when the action is not refused. */
  function NextNode(b: Behavior, kind: ActionKind, n: Node): Node {
    match kind
    case Register =>
      if b == RegisterNoop then n
      else Node(Active, b != RegisterWithoutCometUpdate, true, true, n.power)
    case Jail => if n.state == Active then Node(Jailed, false, false, n.honest, n.power) else n
    case Unjail => if n.state == Jailed then Node(Active, true, true, n.honest, n.power) else n
    case Deregister => Node(Absent, false, false, true, n.power)
    case DeregisterTwice => Node(Absent, false, false, true, n.power)
    case Stop => n.(online := false)
    case Start => if n.state == Active || b == StartAbsentOnline then n.(online := true) else n
    case LieEndpoint => if n.state != Absent then n.(honest := false) else n
    case RepairEndpoint => n.(honest := true)
    case Tick => n
  }

  ghost function BeginEvent(m: Model, step: int, a: Action): Event
    requires a.node in m.nodes
  {
    var n := m.nodes[a.node];
    Event(step, a.kind, a.node, n.state, Absent, n.inComet, false, n.online, false, false,
          HasOnlineQuorum(m.nodes), false, TotalPower(m.nodes), OnlinePower(m.nodes), m.height, NoViolation)
  }

  ghost function FinishEvent(e: Event, nodes: map<NodeID, Node>, height: int): Event
    requires e.node in nodes
  {
    var n := nodes[e.node];
    e.(stateAfter := n.state, inCometAfter := n.inComet, onlineAfter := n.online,
       quorumAfter := HasOnlineQuorum(nodes), totalPower := TotalPower(nodes),
       onlinePower := OnlinePower(nodes), height := height)
  }

  function RecordInvalid(m: Model, e: Event, v: Violation): (Model, Outcome) {
    (m.(events := m.events + [e.(error := v)]), InvariantError(v))
  }

  function ValidateState(m: Model, e: Event): (Model, Outcome) {
    if Consistent(m.nodes) then (m, Done) else RecordInvalid(m, e, InconsistentNode)
  }

  /** One lifecycle action on a known node; a double deregistration is two of these. */
  ghost function ApplyOnce(b: Behavior, m: Model, step: int, a: Action): (Model, Outcome)
    requires a.node in m.nodes
  {
    var n := m.nodes[a.node];
    var e := BeginEvent(m, step, a).(emittedUpdate := Emits(b, a.kind, n));
    if RemovesMissing(b, a.kind, n) then RecordInvalid(m, e, RemovalOfMissing)
    else
      var nodes := m.nodes[a.node := NextNode(b, a.kind, n)];
      var done := FinishEvent(e, nodes, m.height);
      ValidateState(Model(nodes, m.height, m.events + [done]), done)
  }

  predicate Advances(b: Behavior, quorum: bool) {
    match b
    case TickWithoutQuorum => true
    case StallWithQuorum => false
    case _ => quorum
  }

  ghost function TickEvent(m: Model, step: int, a: Action, height: int): Event {
    Event(step, a.kind, a.node, Absent, Absent, false, false, false, false, false,
          HasOnlineQuorum(m.nodes), HasOnlineQuorum(m.nodes), TotalPower(m.nodes), OnlinePower(m.nodes),
          height, NoViolation)
  }

  ghost function ApplyTick(b: Behavior, m: Model, step: int, a: Action): (Model, Outcome) {
    var quorum := HasOnlineQuorum(m.nodes);
    var height := if Advances(b, quorum) then m.height + 1 else m.height;
    var e := TickEvent(m, step, a, height);
    var m' := Model(m.nodes, height, m.events + [e]);
    if !quorum && height > m.height then RecordInvalid(m', e, AdvancedWithoutQuorum)
    else if quorum && height == m.height then RecordInvalid(m', e, StalledWithQuorum)
    else ValidateState(m', e)
  }

  ghost function Apply(b: Behavior, m: Model, step: int, a: Action): (Model, Outcome) {
    if a.kind == Tick then ApplyTick(b, m, step, a)
    else if a.node !in m.nodes then (m, NodeNotFound)
    else
      var first := ApplyOnce(b, m, step, a);
      if a.kind == DeregisterTwice && first.1.Done? then ApplyOnce(b, first.0, step, a) else first
  }

  /** The number the i-th action of a run carries when the first one carries `first`. */
  function NthStep(first: int, i: int): int { first + i }

  /** A run: actions in order, numbered from `step`, stopping at the first one that fails. */
  ghost function Run(b: Behavior, m: Model, step: int, acts: seq<Action>): (Model, Outcome)
    decreases |acts|
  {
    if acts == [] then (m, Done)
    else
      var n := |acts| - 1;
      var r := Run(b, m, step, acts[..n]);
      if r.1.Done? then Apply(b, r.0, NthStep(step, n), acts[n]) else r
  }

  /** Every action but a tick is about a node. */
  predicate KnownAction(nodes: map<NodeID, Node>, a: Action) { a.kind == Tick || a.node in nodes }

  predicate Known(nodes: map<NodeID, Node>, acts: seq<Action>) {
    forall i :: 0 <= i < |acts| ==> KnownAction(nodes, acts[i])
  }

  // ---------------------------------------------------------------- the intended behaviour

  /** The nodes after one intended action. */
  function NodesThen(nodes: map<NodeID, Node>, a: Action): (r: map<NodeID, Node>)
    ensures r.Keys == nodes.Keys
  {
    if a.kind == Tick || a.node !in nodes then nodes else nodes[a.node := NextNode(Current, a.kind, nodes[a.node])]
  }

  /** The nodes after an intended run, with heights and events left aside. */
  function NodesAfter(nodes: map<NodeID, Node>, acts: seq<Action>): (r: map<NodeID, Node>)
    ensures r.Keys == nodes.Keys
    decreases |acts|
  {
    if acts == [] then nodes else NodesThen(NodesAfter(nodes, acts[..|acts| - 1]), acts[|acts| - 1])
  }

  lemma NextNodeConsistent(kind: ActionKind, n: Node)
    requires NodeConsistent(n)
    ensures NodeConsistent(NextNode(Current, kind, n))
    ensures NextNode(Current, kind, n).power == n.power
    ensures !RemovesMissing(Current, kind, n)
  {
  }

  /** How many of the ticks find more than two thirds of the voting power online. */
  ghost function QuorumTicks(nodes: map<NodeID, Node>, acts: seq<Action>): nat
    decreases |acts|
  {
    if acts == [] then 0
    else
      var n := |acts| - 1;
      QuorumTicks(nodes, acts[..n]) +
      (if acts[n].kind == Tick && HasOnlineQuorum(NodesAfter(nodes, acts[..n])) then 1 else 0)
  }

  /** What a consumer that applies only the emitted updates holds as its validator set. */
  function ReplayUpdates(comet: set<NodeID>, events: seq<Event>): set<NodeID> {
    if events == [] then comet
    else
      var before := ReplayUpdates(comet, events[..|events| - 1]);
      var e := events[|events| - 1];
      if !e.emittedUpdate then before
      else if e.inCometAfter then before + {e.node} else before - {e.node}
  }

  lemma ReplayStep(comet: set<NodeID>, events: seq<Event>, e: Event)
    ensures ReplayUpdates(comet, events + [e]) ==
            var before := ReplayUpdates(comet, events);
            if !e.emittedUpdate then before
            else if e.inCometAfter then before + {e.node} else before - {e.node}
  {
    assert (events + [e])[..|events|] == events;
  }

  lemma {:induction false} ReplayAppend(comet: set<NodeID>, es: seq<Event>, fs: seq<Event>)
    ensures ReplayUpdates(comet, es + fs) == ReplayUpdates(ReplayUpdates(comet, es), fs)
    decreases |fs|
  {
    if fs == [] {
      assert es + fs == es;
    } else {
      var fs' := fs[..|fs| - 1];
      assert (es + fs)[..|es + fs| - 1] == es + fs';
      ReplayAppend(comet, es, fs');
    }
  }

  /** m' is what one successful action of the intended behaviour may make of m. */
  ghost predicate GoodStep(m: Model, m': Model, nodes': map<NodeID, Node>, height': int) {
    && m'.nodes == nodes'
    && m'.height == height'
    && Consistent(nodes')
    && m.events <= m'.events
    && ReplayUpdates(CometSet(m.nodes), m'.events[|m.events|..]) == CometSet(nodes')
  }

  lemma GoodStepsCompose(m0: Model, m1: Model, m2: Model)
    requires GoodStep(m0, m1, m1.nodes, m1.height) && GoodStep(m1, m2, m2.nodes, m2.height)
    ensures GoodStep(m0, m2, m2.nodes, m2.height)
  {
    var e1, e2 := m1.events[|m0.events|..], m2.events[|m1.events|..];
    assert m2.events[|m0.events|..] == e1 + e2;
    ReplayAppend(CometSet(m0.nodes), e1, e2);
  }

  lemma GoodSingleEvent(m: Model, m': Model, e: Event)
    requires m'.events == m.events + [e] && Consistent(m'.nodes)
    requires CometSet(m'.nodes) ==
             if !e.emittedUpdate then CometSet(m.nodes)
             else if e.inCometAfter then CometSet(m.nodes) + {e.node} else CometSet(m.nodes) - {e.node}
    ensures GoodStep(m, m', m'.nodes, m'.height)
  {
    assert m'.events[|m.events|..] == [] + [e];
    ReplayStep(CometSet(m.nodes), [], e);
  }

  /** The Comet set moves exactly as the emitted update says. */
  lemma CometSetFollowsUpdate(nodes: map<NodeID, Node>, id: NodeID, kind: ActionKind)
    requires Consistent(nodes) && id in nodes
    ensures var n' := NextNode(Current, kind, nodes[id]);
            CometSet(nodes[id := n']) ==
            if !Emits(Current, kind, nodes[id]) then CometSet(nodes)
            else if n'.inComet then CometSet(nodes) + {id} else CometSet(nodes) - {id}
  {
    var n := nodes[id];
    assert NodeConsistent(n);
    var n' := NextNode(Current, kind, n);
    assert !Emits(Current, kind, n) ==> n'.inComet == n.inComet;
    forall x ensures x in CometSet(nodes[id := n']) <==> (if x == id then n'.inComet else x in CometSet(nodes)) {
    }
  }

  lemma UpdateConsistent(nodes: map<NodeID, Node>, id: NodeID, n: Node)
    requires Consistent(nodes) && NodeConsistent(n)
    ensures Consistent(nodes[id := n])
  {
  }

  /** One intended non-tick action: it succeeds, and its events replay to the new Comet set. */
  lemma CurrentOnce(m: Model, step: int, a: Action)
    requires Consistent(m.nodes) && a.node in m.nodes && a.kind != Tick
    ensures var r := ApplyOnce(Current, m, step, a);
            && r.1 == Done
            && GoodStep(m, r.0, m.nodes[a.node := NextNode(Current, a.kind, m.nodes[a.node])], m.height)
  {
    var n := m.nodes[a.node];
    NextNodeConsistent(a.kind, n);
    var nodes := m.nodes[a.node := NextNode(Current, a.kind, n)];
    UpdateConsistent(m.nodes, a.node, NextNode(Current, a.kind, n));
    var e := FinishEvent(BeginEvent(m, step, a).(emittedUpdate := Emits(Current, a.kind, n)), nodes, m.height);
    CometSetFollowsUpdate(m.nodes, a.node, a.kind);
    var m' := Model(nodes, m.height, m.events + [e]);
    GoodSingleEvent(m, m', e);
    assert ApplyOnce(Current, m, step, a) == (m', Done);
  }

  lemma CurrentTick(m: Model, step: int, a: Action)
    requires Consistent(m.nodes)
    ensures var r := ApplyTick(Current, m, step, a);
            && r.1 == Done
            && GoodStep(m, r.0, m.nodes, m.height + (if HasOnlineQuorum(m.nodes) then 1 else 0))
  {
    var r := ApplyTick(Current, m, step, a);
    GoodSingleEvent(m, r.0, TickEvent(m, step, a, r.0.height));
  }

  lemma DeregisterTwiceIsIdempotent(n: Node)
    ensures NextNode(Current, DeregisterTwice, NextNode(Current, DeregisterTwice, n)) == NextNode(Current, DeregisterTwice, n)
  {
  }

  /** One intended action of any kind. */
  lemma CurrentStep(m: Model, step: int, a: Action)
    requires Consistent(m.nodes) && KnownAction(m.nodes, a)
    ensures var r := Apply(Current, m, step, a);
            && r.1 == Done
            && GoodStep(m, r.0, NodesThen(m.nodes, a),
                        m.height + (if a.kind == Tick && HasOnlineQuorum(m.nodes) then 1 else 0))
  {
    if a.kind == Tick {
      CurrentTick(m, step, a);
    } else {
      CurrentOnce(m, step, a);
      if a.kind == DeregisterTwice {
        var nodes := NodesThen(m.nodes, a);
        var m1 := ApplyOnce(Current, m, step, a).0;
        CurrentOnce(m1, step, a);
        DeregisterTwiceIsIdempotent(m.nodes[a.node]);
        var m2 := ApplyOnce(Current, m1, step, a).0;
        assert m2.nodes == nodes[a.node := NextNode(Current, a.kind, nodes[a.node])] == nodes;
        GoodStepsCompose(m, m1, m2);
      }
    }
  }

  lemma {:induction false} NodesAfterAppend(nodes: map<NodeID, Node>, acts: seq<Action>, a: Action)
    ensures var before := NodesAfter(nodes, acts);
            && NodesAfter(nodes, acts + [a]) == NodesThen(before, a)
            && QuorumTicks(nodes, acts + [a]) ==
               QuorumTicks(nodes, acts) + (if a.kind == Tick && HasOnlineQuorum(before) then 1 else 0)
  {
    assert (acts + [a])[..|acts|] == acts;
  }

  lemma {:induction false} ExtendRun(m: Model, mid: Model, fin: Model, acts: seq<Action>, a: Action)
    requires GoodStep(m, mid, NodesAfter(m.nodes, acts), m.height + QuorumTicks(m.nodes, acts))
    requires GoodStep(mid, fin, NodesThen(mid.nodes, a),
                      mid.height + (if a.kind == Tick && HasOnlineQuorum(mid.nodes) then 1 else 0))
    ensures GoodStep(m, fin, NodesAfter(m.nodes, acts + [a]), m.height + QuorumTicks(m.nodes, acts + [a]))
  {
    NodesAfterAppend(m.nodes, acts, a);
    GoodStepsCompose(m, mid, fin);
  }

  /**
   The result r of a run from m: no error, the nodes are consistent and the ones NodesAfter gives, the
   height has grown by QuorumTicks, and the new events replay to the new Comet set.
   */
  ghost predicate GoodRun(m: Model, r: (Model, Outcome), acts: seq<Action>) {
    && r.1 == Done
    && GoodStep(m, r.0, NodesAfter(m.nodes, acts), m.height + QuorumTicks(m.nodes, acts))
  }

  lemma {:induction false} GoodRunExtend(m: Model, r: (Model, Outcome), step: int, acts: seq<Action>, a: Action)
    requires KnownAction(m.nodes, a) && GoodRun(m, r, acts)
    ensures GoodRun(m, Apply(Current, r.0, step, a), acts + [a])
  {
    CurrentStep(r.0, step, a);
    ExtendRun(m, r.0, Apply(Current, r.0, step, a).0, acts, a);
  }

  /**
   The intended behaviour, over every run on known nodes from every consistent model: no run reports
   an error; "active iff in the Comet set" and "online only if active" hold at the end; the height has
   grown by exactly the number of ticks taken with a quorum online; and the events marked as emitted
   updates, replayed on their own, give exactly the final Comet set.
   */
  lemma {:induction false} CurrentRun(m: Model, step: int, acts: seq<Action>)
    requires Consistent(m.nodes) && Known(m.nodes, acts)
    ensures GoodRun(m, Run(Current, m, step, acts), acts)
    decreases |acts|
  {
    if acts == [] {
      assert m.events[|m.events|..] == [];
    } else {
      var n := |acts| - 1;
      assert acts[..n] + [acts[n]] == acts;
      CurrentRun(m, step, acts[..n]);
      GoodRunExtend(m, Run(Current, m, step, acts[..n]), NthStep(step, n), acts[..n], acts[n]);
    }
  }

  // ---------------------------------------------------------------- initial models

  const DEFAULT_NODE_LIMIT: int := 300
  const DEFAULT_NODE_POWER: int := 10

  function Clamp(value: int, lo: int, hi: int): (r: int)
    requires lo <= hi
    ensures lo <= r <= hi
    ensures lo <= value <= hi ==> r == value
  {
    if value < lo then lo else if value > hi then hi else value
  }

  function Decimal(n: nat): string {
    if n < 10 then [('0' as int + n) as char] else Decimal(n / 10) + [('0' as int + n % 10) as char]
  }

  lemma {:induction false} DecimalInjective(m: nat, n: nat)
    requires Decimal(m) == Decimal(n)
    ensures m == n
    decreases m
  {
    assert |Decimal(m / 10)| > 0 && |Decimal(n / 10)| > 0;
    var s, t := Decimal(m), Decimal(n);
    assert s[|s| - 1] == t[|t| - 1];
    if m >= 10 && n >= 10 {
      assert s[..|s| - 1] == Decimal(m / 10) && t[..|t| - 1] == Decimal(n / 10);
      DecimalInjective(m / 10, n / 10);
    }
  }

  function NodeName(i: nat): NodeID { "node" + Decimal(i) }

  lemma NodeNameInjective(i: nat, j: nat)
    requires NodeName(i) == NodeName(j)
    ensures i == j
  {
    assert NodeName(i)[4..] == Decimal(i) && NodeName(j)[4..] == Decimal(j);
    DecimalInjective(i, j);
  }

  function PowerOf(powers: map<NodeID, int>, id: NodeID): (p: int)
    ensures p > 0
  {
    if id in powers && powers[id] > 0 then powers[id] else DEFAULT_NODE_POWER
  }

  function InitialNode(active: bool, power: int): Node {
    Node(if active then Active else Absent, active, active, true, power)
  }

  /** node1 .. nodeN in order, the first `active` of them active and online, everyone honest. */
  ghost predicate IsInitial(nodes: map<NodeID, Node>, order: seq<NodeID>, active: nat, powers: map<NodeID, int>) {
    && (forall i :: 0 <= i < |order| ==>
          && order[i] == NodeName(i + 1)
          && order[i] in nodes
          && nodes[order[i]] == InitialNode(i < active, PowerOf(powers, order[i])))
    && nodes.Keys == (set i | 0 <= i < |order| :: order[i])
  }

  lemma NextNameIsNew(nodes: map<NodeID, Node>, order: seq<NodeID>, active: nat, powers: map<NodeID, int>)
    requires IsInitial(nodes, order, active, powers)
    ensures NodeName(|order| + 1) !in nodes
  {
    var id := NodeName(|order| + 1);
    if id in nodes {
      var j :| 0 <= j < |order| && order[j] == id;
      NodeNameInjective(j + 1, |order| + 1);
    }
  }

  lemma AppendedElements<T>(s: seq<T>, x: T)
    ensures (set i | 0 <= i < |s + [x]| :: (s + [x])[i]) == (set i | 0 <= i < |s| :: s[i]) + {x}
  {
    var t := s + [x];
    assert t[|s|] == x && forall j :: 0 <= j < |s| ==> t[j] == s[j];
  }

  lemma ExtendInitial(nodes: map<NodeID, Node>, order: seq<NodeID>, active: nat, powers: map<NodeID, int>)
    requires IsInitial(nodes, order, active, powers)
    ensures var id := NodeName(|order| + 1);
            IsInitial(nodes[id := InitialNode(|order| < active, PowerOf(powers, id))], order + [id], active, powers)
  {
    NextNameIsNew(nodes, order, active, powers);
    AppendedElements(order, NodeName(|order| + 1));
  }

  /** A freshly built model is consistent, positively weighted and listed without repeats. */
  lemma InitialIsConsistent(nodes: map<NodeID, Node>, order: seq<NodeID>, active: nat, powers: map<NodeID, int>)
    requires IsInitial(nodes, order, active, powers)
    ensures Consistent(nodes) && PositivePowers(nodes)
    ensures forall i, j :: 0 <= i < j < |order| ==> order[i] != order[j]
  {
    forall id | id in nodes ensures NodeConsistent(nodes[id]) && nodes[id].power > 0 {
      var i :| 0 <= i < |order| && order[i] == id;
    }
    forall i, j | 0 <= i < j < |order| ensures order[i] != order[j] {
      if order[i] == order[j] {
        NodeNameInjective(i + 1, j + 1);
      }
    }
  }

  lemma NothingCounted(w: map<NodeID, int>, rest: set<NodeID>)
    requires w.Keys <= rest
    ensures Total(w - rest) == 0
  {
    assert w - rest == map[];
  }

  lemma EverythingCounted(w: map<NodeID, int>)
    ensures Total(w - {}) == Total(w)
  {
    assert w - {} == w;
  }

  lemma CountOne(w: map<NodeID, int>, rest: set<NodeID>, id: NodeID)
    requires id in rest
    ensures Total(w - (rest - {id})) == Total(w - rest) + (if id in w then w[id] else 0)
  {
    if id in w {
      assert w - (rest - {id}) == (w - rest)[id := w[id]];
      TotalUpdate(w - rest, id, w[id]);
    } else {
      assert w - (rest - {id}) == w - rest;
    }
  }

  /** One more node counted. */
  lemma CountNode(nodes: map<NodeID, Node>, rest: set<NodeID>, id: NodeID)
    requires id in rest && id in nodes
    ensures var n, left := nodes[id], rest - {id};
            && Total(VotingPowers(nodes) - left) == Total(VotingPowers(nodes) - rest) + (if n.inComet then n.power else 0)
            && Total(OnlinePowers(nodes) - left) == Total(OnlinePowers(nodes) - rest) + (if n.inComet && n.online then n.power else 0)
  {
    CountOne(VotingPowers(nodes), rest, id);
    CountOne(OnlinePowers(nodes), rest, id);
  }

  // ---------------------------------------------------------------- the mutable model

  class ValidatorLifecycleModel {
    const behavior: Behavior
    var nodes: map<NodeID, Node>
    var order: seq<NodeID>
    var height: int
    var events: seq<Event>

    ghost function View(): Model
      reads this
    {
      Model(nodes, height, events)
    }

    constructor (nodeCount: int, initialActive: int, behavior: Behavior, powers: map<NodeID, int>)
      ensures this.behavior == behavior && height == 0 && events == []
      ensures |order| == Clamp(nodeCount, 1, DEFAULT_NODE_LIMIT)
      ensures IsInitial(nodes, order,
                        if 0 < initialActive <= |order| then initialActive else |order|, powers)
    {
      var count := Clamp(nodeCount, 1, DEFAULT_NODE_LIMIT);
      var active := if initialActive <= 0 || initialActive > count then count else initialActive;
      var names, built := BuildNodes(count, active, powers);
      this.behavior := behavior;
      nodes, order, height, events := built, names, 0, [];
    }

    /** node1, node2, … in order, the first ones active and online. */
    static method BuildNodes(count: nat, active: nat, powers: map<NodeID, int>)
      returns (names: seq<NodeID>, built: map<NodeID, Node>)
      ensures |names| == count && IsInitial(built, names, active, powers)
    {
      names, built := [], map[];
      for i := 0 to count
        invariant |names| == i && IsInitial(built, names, active, powers)
      {
        var id := NodeName(i + 1);
        ExtendInitial(built, names, active, powers);
        built := built[id := InitialNode(i < active, PowerOf(powers, id))];
        names := names + [id];
      }
    }

    /** Sums the powers in whatever order the map is iterated. */
    method Power() returns (total: int, online: int)
      ensures total == TotalPower(nodes) && online == OnlinePower(nodes)
    {
      total, online := 0, 0;
      var rest := nodes.Keys;
      NothingCounted(VotingPowers(nodes), rest);
      NothingCounted(OnlinePowers(nodes), rest);
      while rest != {}
        invariant rest <= nodes.Keys
        invariant total == Total(VotingPowers(nodes) - rest)
        invariant online == Total(OnlinePowers(nodes) - rest)
        decreases |rest|
      {
        var id :| id in rest;
        CountNode(nodes, rest, id);
        if nodes[id].inComet {
          total := total + nodes[id].power;
          if nodes[id].online {
            online := online + nodes[id].power;
          }
        }
        rest := rest - {id};
      }
      EverythingCounted(VotingPowers(nodes));
      EverythingCounted(OnlinePowers(nodes));
    }

    method HasQuorum() returns (quorum: bool)
      ensures quorum == HasOnlineQuorum(nodes)
    {
      var total, online := Power();
      quorum := total > 0 && online * 3 > total * 2;
    }

    method Record(e: Event, v: Violation) returns (o: Outcome)
      modifies this`events
      ensures (View(), o) == RecordInvalid(old(View()), e, v)
    {
      events := events + [e.(error := v)];
      o := InvariantError(v);
    }

    method Validate(e: Event) returns (o: Outcome)
      modifies this`events
      ensures (View(), o) == ValidateState(old(View()), e)
    {
      var rest := nodes.Keys;
      while rest != {}
        invariant rest <= nodes.Keys
        invariant forall id :: id in nodes && id !in rest ==> NodeConsistent(nodes[id])
        invariant events == old(events)
        decreases |rest|
      {
        var id :| id in rest;
        var n := nodes[id];
        if (n.state == Active && !n.inComet) || (n.state != Active && n.inComet) || (n.online && n.state != Active) {
          o := Record(e, InconsistentNode);
          return;
        }
        rest := rest - {id};
      }
      o := Done;
    }

    method Observe(step: int, a: Action) returns (e: Event)
      requires a.node in nodes
      ensures e == BeginEvent(View(), step, a)
    {
      var n := nodes[a.node];
      var quorum := HasQuorum();
      var total, online := Power();
      e := Event(step, a.kind, a.node, n.state, Absent, n.inComet, false, n.online, false, false,
                 quorum, false, total, online, height, NoViolation);
    }

    method Finish(e: Event) returns (o: Outcome)
      requires e.node in nodes
      modifies this`events
      ensures var done := FinishEvent(e, nodes, height);
              (View(), o) == ValidateState(Model(nodes, height, old(events) + [done]), done)
    {
      var n := nodes[e.node];
      var quorum := HasQuorum();
      var total, online := Power();
      var done := e.(stateAfter := n.state, inCometAfter := n.inComet, onlineAfter := n.online,
                     quorumAfter := quorum, totalPower := total, onlinePower := online, height := height);
      events := events + [done];
      o := Validate(done);
    }

    /** The removal both deregistration actions share; Done leaves the event for the caller to finish. */
    method DeregisterNode(e: Event) returns (o: Outcome, e': Event)
      requires e.node in nodes
      modifies this`nodes, this`events
      ensures var n := old(nodes)[e.node];
              var emits := DeregistrationEmits(behavior, n.state);
              && e' == e.(emittedUpdate := emits)
              && if emits && !n.inComet
                 then (View(), o) == RecordInvalid(old(View()), e', RemovalOfMissing)
                 else o == Done && events == old(events) &&
                      nodes == old(nodes)[e.node := Node(Absent, false, false, true, n.power)]
    {
      var n := nodes[e.node];
      var emit := false;
      match behavior {
        case Current => emit := n.state == Active;
        case JailedDeregistration => emit := n.state == Active || n.state == Jailed;
        case AnyDeregistrationUpdate => emit := true;
        case _ => emit := n.state == Active;
      }
      e' := e.(emittedUpdate := emit);
      if emit && !n.inComet {
        o := Record(e', RemovalOfMissing);
        return;
      }
      nodes := nodes[e.node := Node(Absent, false, false, true, n.power)];
      o := Done;
    }

    method TickOnce(step: int, a: Action) returns (o: Outcome)
      modifies this`height, this`events
      ensures (View(), o) == ApplyTick(behavior, old(View()), step, a)
    {
      var quorumBefore := HasQuorum();
      var heightBefore := height;
      var total, online := Power();
      var advance := quorumBefore;
      match behavior {
        case TickWithoutQuorum => advance := true;
        case StallWithQuorum => advance := false;
        case _ =>
      }
      if advance {
        height := height + 1;
      }
      var quorumAfter := HasQuorum();
      var e := Event(step, a.kind, a.node, Absent, Absent, false, false, false, false, false,
                     quorumBefore, quorumAfter, total, online, height, NoViolation);
      events := events + [e];
      if !quorumBefore && height > heightBefore {
        o := Record(e, AdvancedWithoutQuorum);
      } else if quorumBefore && height == heightBefore {
        o := Record(e, StalledWithQuorum);
      } else {
        o := Validate(e);
      }
    }

    method PerformDeregistration(step: int, a: Action) returns (o: Outcome)
      requires a.node in nodes && IsDeregistration(a.kind)
      modifies this`nodes, this`events
      ensures (View(), o) == ApplyOnce(behavior, old(View()), step, a)
    {
      var e := Observe(step, a);
      o, e := DeregisterNode(e);
      if o == Done {
        o := Finish(e);
      }
    }

    /** The actions that are not removals by request. */
    method PerformUpdate(step: int, a: Action) returns (o: Outcome)
      requires a.node in nodes && a.kind != Tick && !IsDeregistration(a.kind)
      modifies this`nodes, this`events
      ensures (View(), o) == ApplyOnce(behavior, old(View()), step, a)
    {
      var e := Observe(step, a);
      var n, emitted, missing := UpdateNode(behavior, a.kind, nodes[a.node]);
      e := e.(emittedUpdate := emitted);
      if missing {
        o := Record(e, RemovalOfMissing);
        return;
      }
      nodes := nodes[a.node := n];
      o := Finish(e);
    }

    /** What an action other than a removal makes of a node; missing reports the removal of one not in the Comet set. */
    static method UpdateNode(behavior: Behavior, kind: ActionKind, node: Node) returns (n: Node, emitted: bool, missing: bool)
      requires kind != Tick && !IsDeregistration(kind)
      ensures missing == RemovesMissing(behavior, kind, node) && emitted == Emits(behavior, kind, node)
      ensures !missing ==> n == NextNode(behavior, kind, node)
    {
      n, emitted, missing := node, false, false;
      match kind {
        case Register =>
          if behavior != RegisterNoop {
            n := n.(state := Active, online := true, honest := true);
            if behavior == RegisterWithoutCometUpdate {
              n := n.(inComet := false);
            } else {
              n := n.(inComet := true);
              emitted := true;
            }
          }
        case Jail =>
          if n.state == Active {
            emitted := true;
            if !n.inComet {
              missing := true;
              return;
            }
            n := n.(state := Jailed, inComet := false, online := false);
          }
        case Unjail =>
          if n.state == Jailed {
            n := n.(state := Active, inComet := true, online := true);
            emitted := true;
          }
        case Stop => n := n.(online := false);
        case Start =>
          if n.state == Active || behavior == StartAbsentOnline {
            n := n.(online := true);
          }
        case LieEndpoint =>
          if n.state != Absent {
            n := n.(honest := false);
          }
        case RepairEndpoint => n := n.(honest := true);
      }
    }

    /** Applies one action, step by step as the source does; the result is the meaning given above. */
    method Perform(step: int, a: Action) returns (o: Outcome)
      modifies this`nodes, this`height, this`events
      ensures (View(), o) == Apply(behavior, old(View()), step, a)
    {
      if a.kind == Tick {
        o := TickOnce(step, a);
      } else if a.node !in nodes {
        o := NodeNotFound;
      } else if IsDeregistration(a.kind) {
        o := PerformDeregistration(step, a);
        if a.kind == DeregisterTwice && o == Done {
          o := PerformDeregistration(step, a);
        }
      } else {
        o := PerformUpdate(step, a);
      }
    }
  }
}
