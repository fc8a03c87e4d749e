/**
 The version-skew network (pkg/fuzz/version_skew_network.go): a second, independent in-memory network
 in which part of the nodes run a legacy version and one chosen incompatibility mode is armed.
 */
module VersionSkewNetworks {
  import opened Sums
  import opened ValidatorModel
  import opened SimulatedNetworks

  /** The situations the halting and forking incompatibilities are tied to. */
  datatype SkewEvent =
    | JailedDeregister | DuplicateDeregister | DuplicateJail
    | EndpointLie | EndpointRepair | EndpointNoopRepair | InactiveEndpoint
    | AbsentRegister | ActiveRegister | JailedRegister
    | JailedUnjail | ActiveUnjail | AbsentUnjail
    | ActiveStart | InactiveStart

  datatype Mode =
    | HaltLegacy(on: SkewEvent)
    | ForkLegacy(on: SkewEvent)
    | KeepBadEndpointOnRepair
    | KeepBadEndpointOnJailedRepair
    | ReactivateJailedOnInactiveEndpoint
    | ReactivateAbsentOnInactiveEndpoint
    | KeepBadEndpointOnRegister
    | BadEndpointOnRegister
    | NoopOnJailedRegister
    | NoopOnUnjail
    | BadEndpointOnUnjail
    | ReactivateAbsentOnUnjail
    | NoopOnStart
    | BadEndpointOnStart
    | ReactivateJailedOnStart
    | ReactivateAbsentOnStart

  datatype SkewNode = SkewNode(state: ValidatorState, online: bool, honest: bool, power: int)

  datatype Skew = Skew(
    nodes: map<NodeID, SkewNode>, order: seq<NodeID>, legacy: set<NodeID>,
    original: map<NodeID, string>, current: map<NodeID, string>,
    mode: Mode, height: int, diverged: bool)

  ghost predicate SkewValid(s: Skew) {
    && (forall i, j :: 0 <= i < j < |s.order| ==> s.order[i] != s.order[j])
    && s.nodes.Keys == (set i | 0 <= i < |s.order| :: s.order[i])
    && s.original.Keys == s.nodes.Keys
    && s.current.Keys == s.nodes.Keys
  }

  // ---------------------------------------------------------------- meaning of the calls

  function HaltActive(nodes: map<NodeID, SkewNode>, legacy: set<NodeID>): map<NodeID, SkewNode> {
    map id | id in nodes ::
      if id in legacy && nodes[id].state == Active then nodes[id].(online := false) else nodes[id]
  }

  lemma HaltNobody(nodes: map<NodeID, SkewNode>)
    ensures HaltActive(nodes, {}) == nodes
  {
  }

  lemma HaltOneMore(nodes: map<NodeID, SkewNode>, halted: set<NodeID>, id: NodeID)
    ensures var before := HaltActive(nodes, halted);
            HaltActive(nodes, halted + {id}) ==
            if id in before && before[id].state == Active then before[id := before[id].(online := false)] else before
  {
  }

  function Trigger(s: Skew, e: SkewEvent): Skew {
    if s.mode == ForkLegacy(e) then s.(diverged := true)
    else if s.mode == HaltLegacy(e) then s.(nodes := HaltActive(s.nodes, s.legacy))
    else s
  }

  function SetNode(s: Skew, id: NodeID, n: SkewNode): Skew { s.(nodes := s.nodes[id := n]) }

  function Activate(s: Skew, id: NodeID): Skew
    requires id in s.nodes
  {
    SetNode(s, id, s.nodes[id].(state := Active, online := true))
  }

  function WrongEndpoint(id: NodeID): string { "https://wrong-" + id + ".oap.version-skew" }

  function Poison(s: Skew, id: NodeID): Skew
    requires id in s.nodes
  {
    SetNode(s, id, s.nodes[id].(honest := false)).(current := s.current[id := WrongEndpoint(id)])
  }

  function ResetEndpoint(s: Skew, id: NodeID): Skew {
    s.(current := s.current[id := OriginalOf(s.original, id)])
  }

  predicate BadEndpoint(s: Skew, id: NodeID) {
    OriginalOf(s.current, id) != OriginalOf(s.original, id)
  }

  function StartMeaning(s: Skew, id: NodeID): Skew
    requires id in s.nodes
  {
    match s.nodes[id].state
    case Active =>
      if s.mode == NoopOnStart then s
      else
        var t := Trigger(s, ActiveStart);
        var up := SetNode(t, id, t.nodes[id].(online := true));
        if s.mode == BadEndpointOnStart then Poison(up, id) else up
    case Jailed => if s.mode == ReactivateJailedOnStart then Activate(s, id) else Trigger(s, InactiveStart)
    case Absent => if s.mode == ReactivateAbsentOnStart then Activate(s, id) else Trigger(s, InactiveStart)
  }

  function StopMeaning(s: Skew, id: NodeID): Skew
    requires id in s.nodes
  {
    SetNode(s, id, s.nodes[id].(online := false))
  }

  function RegisterEvent(state: ValidatorState): SkewEvent {
    match state
    case Absent => AbsentRegister
    case Active => ActiveRegister
    case Jailed => JailedRegister
  }

  function RegisterMeaning(s: Skew, id: NodeID): Skew
    requires id in s.nodes
  {
    var keep := s.mode == KeepBadEndpointOnRegister && BadEndpoint(s, id);
    if s.nodes[id].state == Jailed && s.mode == NoopOnJailedRegister then ResetEndpoint(s, id)
    else
      var t := Trigger(s, RegisterEvent(s.nodes[id].state));
      var up := SetNode(t, id, SkewNode(Active, true, !keep, t.nodes[id].power));
      if s.mode == BadEndpointOnRegister then Poison(up, id)
      else if keep then up else ResetEndpoint(up, id)
  }

  function DeregisterMeaning(s: Skew, id: NodeID): Skew
    requires id in s.nodes
  {
    var t := match s.nodes[id].state
      case Jailed => Trigger(s, JailedDeregister)
      case Absent => Trigger(s, DuplicateDeregister)
      case Active => s;
    SetNode(t, id, SkewNode(Absent, false, true, t.nodes[id].power))
  }

  predicate Truthful(s: Skew, id: NodeID, endpoint: string) {
    endpoint == "" || endpoint == OriginalOf(s.original, id)
  }

  function Advertise(s: Skew, id: NodeID, endpoint: string): Skew {
    if endpoint == "" then ResetEndpoint(s, id) else s.(current := s.current[id := endpoint])
  }

  predicate KeepsBadOnJailedRepair(s: Skew, id: NodeID, endpoint: string)
    requires id in s.nodes
  {
    s.nodes[id].state == Jailed && Truthful(s, id, endpoint) &&
    s.mode == KeepBadEndpointOnJailedRepair && BadEndpoint(s, id)
  }

  predicate Reactivates(s: Skew, id: NodeID)
    requires id in s.nodes
  {
    || (s.nodes[id].state == Jailed && s.mode == ReactivateJailedOnInactiveEndpoint)
    || (s.nodes[id].state == Absent && s.mode == ReactivateAbsentOnInactiveEndpoint)
  }

  function SetHonest(s: Skew, id: NodeID, honest: bool): Skew
    requires id in s.nodes
  {
    SetNode(s, id, s.nodes[id].(honest := honest))
  }

  function InactiveEndpointMeaning(s: Skew, id: NodeID, endpoint: string): Skew
    requires id in s.nodes
  {
    if KeepsBadOnJailedRepair(s, id, endpoint) then SetHonest(s, id, false)
    else
      var t := if Reactivates(s, id) then Activate(s, id) else s;
      Advertise(SetHonest(Trigger(t, InactiveEndpoint), id, Truthful(s, id, endpoint)), id, endpoint)
  }

  function ActiveEndpointMeaning(s: Skew, id: NodeID, endpoint: string): Skew
    requires id in s.nodes
  {
    if !Truthful(s, id, endpoint) then
      Advertise(SetHonest(Trigger(s, EndpointLie), id, false), id, endpoint)
    else if s.mode == KeepBadEndpointOnRepair && BadEndpoint(s, id) then SetHonest(s, id, false)
    else
      var e := if BadEndpoint(s, id) then EndpointRepair else EndpointNoopRepair;
      Advertise(SetHonest(Trigger(s, e), id, true), id, endpoint)
  }

  function EndpointMeaning(s: Skew, id: NodeID, endpoint: string): Skew
    requires id in s.nodes
  {
    if s.nodes[id].state == Active then ActiveEndpointMeaning(s, id, endpoint)
    else InactiveEndpointMeaning(s, id, endpoint)
  }

  function JailMeaning(s: Skew, id: NodeID): Skew
    requires id in s.nodes
  {
    match s.nodes[id].state
    case Active => SetNode(s, id, s.nodes[id].(state := Jailed, online := false))
    case Jailed => Trigger(s, DuplicateJail)
    case Absent => s
  }

  function UnjailMeaning(s: Skew, id: NodeID): Skew
    requires id in s.nodes
  {
    match s.nodes[id].state
    case Jailed =>
      if s.mode == NoopOnUnjail then s
      else
        var up := Activate(Trigger(s, JailedUnjail), id);
        if s.mode == BadEndpointOnUnjail then Poison(up, id) else up
    case Active => Trigger(s, ActiveUnjail)
    case Absent => if s.mode == ReactivateAbsentOnUnjail then Activate(s, id) else Trigger(s, AbsentUnjail)
  }

  function SkewVoting(nodes: map<NodeID, SkewNode>): map<NodeID, int> {
    map id | id in nodes && nodes[id].state == Active && nodes[id].power > 0 :: nodes[id].power
  }

  function SkewLive(nodes: map<NodeID, SkewNode>): map<NodeID, int> {
    map id | id in nodes && nodes[id].state == Active && nodes[id].power > 0 && nodes[id].online :: nodes[id].power
  }

  /** One more node counted. */
  lemma CountSkewNode(nodes: map<NodeID, SkewNode>, rest: set<NodeID>, id: NodeID)
    requires id in rest && id in nodes
    ensures var n, left := nodes[id], rest - {id};
            var power := if n.state == Active && n.power > 0 then n.power else 0;
            && Total(SkewVoting(nodes) - left) == Total(SkewVoting(nodes) - rest) + power
            && Total(SkewLive(nodes) - left) == Total(SkewLive(nodes) - rest) + (if n.online then power else 0)
  {
    CountOne(SkewVoting(nodes), rest, id);
    CountOne(SkewLive(nodes), rest, id);
  }

  ghost predicate LiveQuorum(nodes: map<NodeID, SkewNode>) {
    Quorum(Total(SkewVoting(nodes)), Total(SkewLive(nodes)))
  }

  ghost function PollMeaning(s: Skew): Skew {
    if LiveQuorum(s.nodes) then s.(height := s.height + 1) else s
  }

  /** Every call of the network interface. */
  ghost function SkewStep(s: Skew, a: NetAction): (Skew, Outcome) {
    if a.TakeSnapshot? then (PollMeaning(s), Done)
    else if a.id !in s.nodes then (s, NodeNotFound)
    else
      var s' := match a
        case StartNode(id) => StartMeaning(s, id)
        case StopNode(id) => StopMeaning(s, id)
        case RestartNode(id) => StartMeaning(StopMeaning(s, id), id)
        case RegisterNode(id) => RegisterMeaning(s, id)
        case DeregisterNode(id) => DeregisterMeaning(s, id)
        case SetNodeEndpoint(id, e) => EndpointMeaning(s, id, Resolve(s.original, id, e))
        case JailNode(id) => JailMeaning(s, id)
        case UnjailNode(id) => UnjailMeaning(s, id);
      (s', Done)
  }

  function SkewBlockHash(s: Skew, id: NodeID): string {
    if s.height <= 0 then ""
    else if s.diverged && id in s.legacy then "legacy-" + BlockHash(s.height)
    else BlockHash(s.height)
  }

  function SkewStatus(s: Skew, id: NodeID): NodeStatus
    requires id in s.nodes && id in s.current
  {
    var n := s.nodes[id];
    var live := n.state == Active && n.online;
    var reachable := live && n.honest;
    NodeStatus(id, s.current[id], reachable, reachable, live, live, s.height, SkewBlockHash(s, id),
               if id in s.legacy then "legacy" else "current",
               if n.state == Active then n.power else 0)
  }

  ghost function SkewView(s: Skew): (r: Snapshot)
    requires SkewValid(s)
    ensures |r| == |s.order|
  {
    seq(|s.order|, i requires 0 <= i < |s.order| => SkewStatus(s, s.order[i]))
  }

  /** A lifecycle node as this network records it. */
  function AsSkew(nodes: map<NodeID, Node>): map<NodeID, SkewNode> {
    map id | id in nodes :: SkewNode(nodes[id].state, nodes[id].online, nodes[id].honest, nodes[id].power)
  }

  lemma AsSkewInsert(nodes: map<NodeID, Node>, id: NodeID, n: Node)
    ensures AsSkew(nodes[id := n]) == AsSkew(nodes)[id := SkewNode(n.state, n.online, n.honest, n.power)]
  {
  }

  // ---------------------------------------------------------------- when the armed mode fires

  /** The situation the call meets, if any of the tied ones. */
  datatype Situation = Quiet | Meets(event: SkewEvent)

  function SituationOf(s: Skew, a: NetAction): Situation
    requires !a.TakeSnapshot? && a.id in s.nodes
  {
    var state := s.nodes[a.id].state;
    match a
    case StartNode(_) => Meets(if state == Active then ActiveStart else InactiveStart)
    case RestartNode(_) => Meets(if state == Active then ActiveStart else InactiveStart)
    case StopNode(_) => Quiet
    case RegisterNode(_) => Meets(RegisterEvent(state))
    case DeregisterNode(_) =>
      (match state
       case Jailed => Meets(JailedDeregister)
       case Absent => Meets(DuplicateDeregister)
       case Active => Quiet)
    case SetNodeEndpoint(id, e) =>
      Meets(if state != Active then InactiveEndpoint
            else if !Truthful(s, id, Resolve(s.original, id, e)) then EndpointLie
            else if BadEndpoint(s, id) then EndpointRepair else EndpointNoopRepair)
    case JailNode(_) => if state == Jailed then Meets(DuplicateJail) else Quiet
    case UnjailNode(_) =>
      Meets(match state case Jailed => JailedUnjail case Active => ActiveUnjail case Absent => AbsentUnjail)
  }

  /** The call takes the armed mode's own branch; what that branch does may still be the intended effect. */
  predicate Fires(s: Skew, a: NetAction) {
    && !a.TakeSnapshot?
    && a.id in s.nodes
    && var state := s.nodes[a.id].state;
       var met := SituationOf(s, a);
       match s.mode
       case HaltLegacy(e) => met == Meets(e)
       case ForkLegacy(e) => met == Meets(e)
       case KeepBadEndpointOnRepair => met == Meets(EndpointRepair)
       case KeepBadEndpointOnJailedRepair =>
         && a.SetNodeEndpoint? && state == Jailed && BadEndpoint(s, a.id)
         && Truthful(s, a.id, Resolve(s.original, a.id, a.endpoint))
       case ReactivateJailedOnInactiveEndpoint => a.SetNodeEndpoint? && state == Jailed
       case ReactivateAbsentOnInactiveEndpoint => a.SetNodeEndpoint? && state == Absent
       case KeepBadEndpointOnRegister => a.RegisterNode? && BadEndpoint(s, a.id)
       case BadEndpointOnRegister => a.RegisterNode?
       case NoopOnJailedRegister => met == Meets(JailedRegister)
       case NoopOnUnjail => met == Meets(JailedUnjail)
       case BadEndpointOnUnjail => met == Meets(JailedUnjail)
       case ReactivateAbsentOnUnjail => met == Meets(AbsentUnjail)
       case NoopOnStart => met == Meets(ActiveStart)
       case BadEndpointOnStart => met == Meets(ActiveStart)
       case ReactivateJailedOnStart => (a.StartNode? || a.RestartNode?) && state == Jailed
       case ReactivateAbsentOnStart => (a.StartNode? || a.RestartNode?) && state == Absent
  }

  predicate BringsUp(a: NetAction) { a.StartNode? || a.RestartNode? || a.RegisterNode? }

  /** Halting takes this node offline and the call does not bring it up again. */
  predicate LeftHalted(s: Skew, a: NetAction, id: NodeID)
    requires !a.TakeSnapshot? && id in s.nodes
  {
    id in s.legacy && s.nodes[id].state == Active && s.nodes[id].online && !(id == a.id && BringsUp(a))
  }

  predicate NobodyLeftHalted(s: Skew, a: NetAction)
    requires !a.TakeSnapshot?
  {
    forall id :: id in s.nodes ==> !LeftHalted(s, a, id)
  }

  predicate AlreadyPoisoned(s: Skew, id: NodeID) {
    id in s.nodes && id in s.current && !s.nodes[id].honest && s.current[id] == WrongEndpoint(id)
  }

  /** The armed mode's branch has the intended effect after all. */
  predicate Harmless(s: Skew, a: NetAction)
    requires !a.TakeSnapshot? && a.id in s.nodes
  {
    match s.mode
    case HaltLegacy(_) => NobodyLeftHalted(s, a)
    case NoopOnStart => a.StartNode? && s.nodes[a.id].online
    case BadEndpointOnStart => AlreadyPoisoned(s, a.id)
    case BadEndpointOnUnjail => AlreadyPoisoned(s, a.id)
    case _ => false
  }

  /** The call is one on which this network departs from the intended one. */
  predicate Departs(s: Skew, a: NetAction) { Fires(s, a) && !Harmless(s, a) }

  // ---------------------------------------------------------------- the mutable network

  /** The names a network of the given size has. */
  predicate NamesNode(nodeCount: int, id: NodeID) {
    exists i :: 1 <= i <= Clamp(nodeCount, 1, DEFAULT_NODE_LIMIT) && id == NodeName(i)
  }

  /** node1 .. nodeN, all active, online and honest at their own addresses; node1 is legacy if none is named. */
  ghost predicate IsNew(s: Skew, nodeCount: int, legacyIDs: set<NodeID>, mode: Mode, powers: map<NodeID, int>) {
    && SkewValid(s) && s.mode == mode && s.height == 0 && !s.diverged && s.current == s.original
    && |s.order| == Clamp(nodeCount, 1, DEFAULT_NODE_LIMIT)
    && s.legacy == (if legacyIDs == {} then {NodeName(1)} else legacyIDs)
    && forall i :: 0 <= i < |s.order| ==>
         && s.order[i] == NodeName(i + 1)
         && s.order[i] in s.nodes
         && s.nodes[s.order[i]] == SkewNode(Active, true, true, PowerOf(powers, s.order[i]))
  }

  /** The nodes and addresses of a network as they are built. */
  ghost predicate AreBuilt(names: seq<NodeID>, built: map<NodeID, SkewNode>, powers: map<NodeID, int>) {
    && (forall i, j :: 0 <= i < j < |names| ==> names[i] != names[j])
    && built.Keys == (set i | 0 <= i < |names| :: names[i])
    && forall i :: 0 <= i < |names| ==>
         && names[i] == NodeName(i + 1)
         && names[i] in built
         && built[names[i]] == SkewNode(Active, true, true, PowerOf(powers, names[i]))
  }

  lemma BuiltIsNew(s: Skew, nodeCount: int, legacyIDs: set<NodeID>, mode: Mode, powers: map<NodeID, int>)
    requires AreBuilt(s.order, s.nodes, powers) && |s.order| == Clamp(nodeCount, 1, DEFAULT_NODE_LIMIT)
    requires s.original.Keys == s.nodes.Keys && s.current == s.original
    requires s.mode == mode && s.height == 0 && !s.diverged
    requires s.legacy == if legacyIDs == {} then {s.order[0]} else legacyIDs
    ensures IsNew(s, nodeCount, legacyIDs, mode, powers)
  {
  }

  lemma NewNodeNames(s: Skew, nodeCount: int, legacyIDs: set<NodeID>, mode: Mode, powers: map<NodeID, int>, id: NodeID)
    requires IsNew(s, nodeCount, legacyIDs, mode, powers)
    ensures id in s.nodes <==> NamesNode(nodeCount, id)
  {
    if NamesNode(nodeCount, id) {
      var i :| 1 <= i <= |s.order| && id == NodeName(i);
      assert s.order[i - 1] == NodeName(i - 1 + 1);
    }
    if id in s.nodes {
      var i :| 0 <= i < |s.order| && s.order[i] == id;
      assert id == NodeName(i + 1);
    }
  }

  class VersionSkewNetwork {
    const order: seq<NodeID>
    const legacy: set<NodeID>
    const originalEndpoints: map<NodeID, string>
    const mode: Mode
    var nodes: map<NodeID, SkewNode>
    var currentEndpoints: map<NodeID, string>
    var height: int
    var diverged: bool

    ghost function Abs(): Skew
      reads this
    {
      Skew(nodes, order, legacy, originalEndpoints, currentEndpoints, mode, height, diverged)
    }

    static method BuildNodes(count: nat, powers: map<NodeID, int>)
      returns (names: seq<NodeID>, built: map<NodeID, SkewNode>)
      ensures |names| == count && AreBuilt(names, built, powers)
    {
      names, built := [], map[];
      ghost var initial: map<NodeID, Node> := map[];
      for i := 0 to count
        invariant |names| == i && IsInitial(initial, names, count, powers) && built == AsSkew(initial)
      {
        var id := NodeName(i + 1);
        ExtendInitial(initial, names, count, powers);
        AsSkewInsert(initial, id, InitialNode(i < count, PowerOf(powers, id)));
        initial := initial[id := InitialNode(i < count, PowerOf(powers, id))];
        built := built[id := SkewNode(Active, true, true, PowerOf(powers, id))];
        names := names + [id];
      }
      InitialIsConsistent(initial, names, count, powers);
    }

    /** Every node starts active, online and honest; without a legacy list the first node is the legacy one. */
    static method Build(nodeCount: int, legacyIDs: set<NodeID>, mode: Mode, powers: map<NodeID, int>) returns (s: Skew)
      ensures IsNew(s, nodeCount, legacyIDs, mode, powers)
    {
      var names, built := BuildNodes(Clamp(nodeCount, 1, DEFAULT_NODE_LIMIT), powers);
      var endpoints := map id | id in built.Keys :: "https://" + id + ".oap.version-skew";
      var legacyNodes := if legacyIDs == {} then {names[0]} else legacyIDs;
      s := Skew(built, names, legacyNodes, endpoints, endpoints, mode, 0, false);
      BuiltIsNew(s, nodeCount, legacyIDs, mode, powers);
    }

    constructor (nodeCount: int, legacyIDs: set<NodeID>, mode: Mode, powers: map<NodeID, int>)
      ensures IsNew(Abs(), nodeCount, legacyIDs, mode, powers)
    {
      var s := Build(nodeCount, legacyIDs, mode, powers);
      order, nodes, legacy := s.order, s.nodes, s.legacy;
      originalEndpoints, currentEndpoints := s.original, s.current;
      this.mode, height, diverged := s.mode, s.height, s.diverged;
      new;
      assert Abs() == s;
    }

    /** The trigger family: fork the legacy nodes' history, or take the active legacy nodes offline. */
    method TriggerLocked(e: SkewEvent)
      modifies this`nodes, this`diverged
      ensures Abs() == Trigger(old(Abs()), e)
    {
      if mode == ForkLegacy(e) {
        diverged := true;
      } else if mode == HaltLegacy(e) {
        HaltLocked();
      }
    }

    method HaltLocked()
      modifies this`nodes
      ensures nodes == HaltActive(old(nodes), legacy)
    {
      var rest := legacy;
      ghost var before, halted := nodes, {};
      HaltNobody(before);
      while rest != {}
        invariant halted + rest == legacy
        invariant nodes == HaltActive(before, halted)
        decreases |rest|
      {
        var id :| id in rest;
        HaltOneMore(before, halted, id);
        if id in nodes && nodes[id].state == Active {
          nodes := nodes[id := nodes[id].(online := false)];
        }
        halted := halted + {id};
        rest := rest - {id};
      }
      assert halted == legacy;
    }

    method PoisonLocked(id: NodeID)
      requires id in nodes
      modifies this`nodes, this`currentEndpoints
      ensures Abs() == Poison(old(Abs()), id)
    {
      nodes := nodes[id := nodes[id].(honest := false)];
      currentEndpoints := currentEndpoints[id := WrongEndpoint(id)];
    }

    method Start(id: NodeID) returns (o: Outcome)
      modifies this
      ensures (Abs(), o) == SkewStep(old(Abs()), StartNode(id))
    {
      if id !in nodes {
        return NodeNotFound;
      }
      o := Done;
      match nodes[id].state {
        case Active =>
          if mode == NoopOnStart {
            return;
          }
          TriggerLocked(ActiveStart);
          nodes := nodes[id := nodes[id].(online := true)];
          if mode == BadEndpointOnStart {
            PoisonLocked(id);
          }
        case Jailed =>
          if mode == ReactivateJailedOnStart {
            nodes := nodes[id := nodes[id].(state := ValidatorState.Active, online := true)];
            return;
          }
          TriggerLocked(InactiveStart);
        case Absent =>
          if mode == ReactivateAbsentOnStart {
            nodes := nodes[id := nodes[id].(state := ValidatorState.Active, online := true)];
            return;
          }
          TriggerLocked(InactiveStart);
      }
    }

    method Stop(id: NodeID) returns (o: Outcome)
      modifies this
      ensures (Abs(), o) == SkewStep(old(Abs()), StopNode(id))
    {
      if id !in nodes {
        return NodeNotFound;
      }
      nodes := nodes[id := nodes[id].(online := false)];
      o := Done;
    }

    method Restart(id: NodeID) returns (o: Outcome)
      modifies this
      ensures (Abs(), o) == SkewStep(old(Abs()), RestartNode(id))
    {
      o := Stop(id);
      if o == Done {
        o := Start(id);
      }
    }

    method Register(id: NodeID) returns (o: Outcome)
      modifies this
      ensures (Abs(), o) == SkewStep(old(Abs()), RegisterNode(id))
    {
      if id !in nodes {
        return NodeNotFound;
      }
      o := Done;
      var keep := mode == KeepBadEndpointOnRegister &&
        OriginalOf(currentEndpoints, id) != OriginalOf(originalEndpoints, id);
      if nodes[id].state == Jailed && mode == NoopOnJailedRegister {
        currentEndpoints := currentEndpoints[id := OriginalOf(originalEndpoints, id)];
        return;
      }
      match nodes[id].state {
        case Absent => TriggerLocked(AbsentRegister);
        case Active => TriggerLocked(ActiveRegister);
        case Jailed => TriggerLocked(JailedRegister);
      }
      nodes := nodes[id := SkewNode(Active, true, !keep, nodes[id].power)];
      if mode == BadEndpointOnRegister {
        keep := true;
        PoisonLocked(id);
      }
      if !keep {
        currentEndpoints := currentEndpoints[id := OriginalOf(originalEndpoints, id)];
      }
    }

    method Deregister(id: NodeID) returns (o: Outcome)
      modifies this
      ensures (Abs(), o) == SkewStep(old(Abs()), DeregisterNode(id))
    {
      if id !in nodes {
        return NodeNotFound;
      }
      o := Done;
      match nodes[id].state {
        case Jailed => TriggerLocked(JailedDeregister);
        case Absent => TriggerLocked(DuplicateDeregister);
        case Active =>
      }
      nodes := nodes[id := SkewNode(Absent, false, true, nodes[id].power)];
    }

    method MarkHonest(id: NodeID, honest: bool)
      requires id in nodes
      modifies this`nodes
      ensures Abs() == SetHonest(old(Abs()), id, honest)
    {
      nodes := nodes[id := nodes[id].(honest := honest)];
    }

    /** The modes that bring an inactive node back when its endpoint is set. */
    method Reactivate(id: NodeID)
      requires id in nodes
      modifies this`nodes
      ensures Abs() == if Reactivates(old(Abs()), id) then Activate(old(Abs()), id) else old(Abs())
    {
      if (nodes[id].state == Jailed && mode == ReactivateJailedOnInactiveEndpoint) ||
         (nodes[id].state == Absent && mode == ReactivateAbsentOnInactiveEndpoint) {
        nodes := nodes[id := nodes[id].(state := Active, online := true)];
      }
    }

    /** SetNodeEndpoint on a node that is not active; keep says whether its endpoint stays as it is. */
    method UpdateInactive(id: NodeID, endpoint: string) returns (keep: bool)
      requires id in nodes && nodes[id].state != Active
      modifies this`nodes, this`diverged
      ensures var s := InactiveEndpointMeaning(old(Abs()), id, endpoint);
              s == if keep then Abs() else Advertise(Abs(), id, endpoint)
    {
      keep := false;
      var own := OriginalOf(originalEndpoints, id);
      var honest := endpoint == "" || endpoint == own;
      if nodes[id].state == Jailed && honest && mode == KeepBadEndpointOnJailedRepair &&
         OriginalOf(currentEndpoints, id) != own {
        keep := true;
        MarkHonest(id, false);
        return;
      }
      Reactivate(id);
      TriggerLocked(InactiveEndpoint);
      MarkHonest(id, honest);
    }

    /** SetNodeEndpoint on an active node; keep as above. */
    method UpdateActive(id: NodeID, endpoint: string) returns (keep: bool)
      requires id in nodes && nodes[id].state == Active
      modifies this`nodes, this`diverged
      ensures var s := ActiveEndpointMeaning(old(Abs()), id, endpoint);
              s == if keep then Abs() else Advertise(Abs(), id, endpoint)
    {
      keep := false;
      var own := OriginalOf(originalEndpoints, id);
      var bad := OriginalOf(currentEndpoints, id) != own;
      var honest := endpoint == "" || endpoint == own;
      if !honest {
        TriggerLocked(EndpointLie);
        nodes := nodes[id := nodes[id].(honest := false)];
        return;
      }
      if mode == KeepBadEndpointOnRepair && bad {
        keep := true;
        nodes := nodes[id := nodes[id].(honest := false)];
        return;
      }
      if bad {
        TriggerLocked(EndpointRepair);
      } else {
        TriggerLocked(EndpointNoopRepair);
      }
      nodes := nodes[id := nodes[id].(honest := honest)];
    }

    method SetEndpoint(id: NodeID, endpoint: string) returns (o: Outcome)
      modifies this
      ensures id in old(nodes) ==> o == Done && Abs() == EndpointMeaning(old(Abs()), id, endpoint)
      ensures id !in old(nodes) ==> o == NodeNotFound && Abs() == old(Abs())
    {
      if id !in nodes {
        return NodeNotFound;
      }
      var keep;
      if nodes[id].state != Active {
        keep := UpdateInactive(id, endpoint);
      } else {
        keep := UpdateActive(id, endpoint);
      }
      if !keep {
        if endpoint == "" {
          currentEndpoints := currentEndpoints[id := OriginalOf(originalEndpoints, id)];
        } else {
          currentEndpoints := currentEndpoints[id := endpoint];
        }
      }
      o := Done;
    }

    method Jail(id: NodeID) returns (o: Outcome)
      modifies this
      ensures (Abs(), o) == SkewStep(old(Abs()), JailNode(id))
    {
      if id !in nodes {
        return NodeNotFound;
      }
      o := Done;
      match nodes[id].state {
        case Active => nodes := nodes[id := nodes[id].(state := Jailed, online := false)];
        case Jailed => TriggerLocked(DuplicateJail);
        case Absent =>
      }
    }

    method Unjail(id: NodeID) returns (o: Outcome)
      modifies this
      ensures (Abs(), o) == SkewStep(old(Abs()), UnjailNode(id))
    {
      if id !in nodes {
        return NodeNotFound;
      }
      o := Done;
      match nodes[id].state {
        case Jailed =>
          if mode == NoopOnUnjail {
            return;
          }
          TriggerLocked(JailedUnjail);
          nodes := nodes[id := nodes[id].(state := ValidatorState.Active, online := true)];
          if mode == BadEndpointOnUnjail {
            PoisonLocked(id);
          }
        case Active => TriggerLocked(ActiveUnjail);
        case Absent =>
          if mode == ReactivateAbsentOnUnjail {
            nodes := nodes[id := nodes[id].(state := ValidatorState.Active, online := true)];
            return;
          }
          TriggerLocked(AbsentUnjail);
      }
    }

    method ValidatorPowerLocked() returns (total: int, live: int)
      ensures total == Total(SkewVoting(nodes)) && live == Total(SkewLive(nodes))
    {
      total, live := 0, 0;
      var rest := nodes.Keys;
      NothingCounted(SkewVoting(nodes), rest);
      NothingCounted(SkewLive(nodes), rest);
      while rest != {}
        invariant rest <= nodes.Keys
        invariant total == Total(SkewVoting(nodes) - rest)
        invariant live == Total(SkewLive(nodes) - rest)
        decreases |rest|
      {
        var id :| id in rest;
        CountSkewNode(nodes, rest, id);
        var power := if nodes[id].state == Active then nodes[id].power else 0;
        if power > 0 {
          total := total + power;
          if nodes[id].online {
            live := live + power;
          }
        }
        rest := rest - {id};
      }
      EverythingCounted(SkewVoting(nodes));
      EverythingCounted(SkewLive(nodes));
    }

    method BlockHashLocked(id: NodeID) returns (hash: string)
      ensures hash == SkewBlockHash(Abs(), id)
    {
      if height <= 0 {
        return "";
      }
      hash := BlockHash(height);
      if diverged && id in legacy {
        hash := "legacy-" + hash;
      }
    }

    method StatusLocked(id: NodeID) returns (status: NodeStatus)
      requires id in nodes && id in currentEndpoints
      ensures status == SkewStatus(Abs(), id)
    {
      var n := nodes[id];
      var live := n.state == Active && n.online;
      var reachable := live && n.honest;
      var hash := BlockHashLocked(id);
      status := NodeStatus(id, currentEndpoints[id], reachable, reachable, live, live,
                           height, hash, if id in legacy then "legacy" else "current",
                           if n.state == Active then n.power else 0);
    }

    method Statuses() returns (statuses: Snapshot)
      requires SkewValid(Abs())
      ensures statuses == SkewView(Abs())
    {
      statuses := [];
      ghost var view := SkewView(Abs());
      for i := 0 to |order|
        invariant statuses == view[..i]
      {
        assert order[i] in nodes;
        var status := StatusLocked(order[i]);
        assert view[..i + 1] == view[..i] + [status];
        statuses := statuses + [status];
      }
      assert view[..|order|] == view;
    }

    method AdvanceOnQuorum()
      modifies this`height
      ensures Abs() == PollMeaning(old(Abs()))
    {
      var total, live := ValidatorPowerLocked();
      if total > 0 && live * 3 > total * 2 {
        height := height + 1;
      }
    }

    method TakeSnapshot() returns (statuses: Snapshot)
      requires SkewValid(Abs())
      modifies this`height
      ensures (Abs(), Done) == SkewStep(old(Abs()), NetAction.TakeSnapshot)
      ensures SkewValid(Abs()) && statuses == SkewView(Abs())
    {
      AdvanceOnQuorum();
      statuses := Statuses();
    }
  }

  /** Building a network fails exactly when a legacy id names no node. */
  method NewVersionSkewNetwork(nodeCount: int, legacyIDs: set<NodeID>, mode: Mode, powers: map<NodeID, int>)
    returns (net: VersionSkewNetwork?)
    ensures net == null <==> exists id :: id in legacyIDs && !NamesNode(nodeCount, id)
    ensures net != null ==> fresh(net) && IsNew(net.Abs(), nodeCount, legacyIDs, mode, powers) && net.legacy <= net.nodes.Keys
  {
    var built := new VersionSkewNetwork(nodeCount, legacyIDs, mode, powers);
    forall id ensures id in built.nodes <==> NamesNode(nodeCount, id) {
      NewNodeNames(built.Abs(), nodeCount, legacyIDs, mode, powers, id);
    }
    var rest := legacyIDs;
    while rest != {}
      invariant rest <= legacyIDs && forall id :: id in legacyIDs - rest ==> id in built.nodes
      decreases |rest|
    {
      var id :| id in rest;
      if id !in built.nodes {
        return null;
      }
      rest := rest - {id};
    }
    assert built.order[0] in built.nodes;
    net := built;
  }
}
