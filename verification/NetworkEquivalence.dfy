/**
 The two in-memory networks agree. Until the first call on which the armed incompatibility makes the
 version-skew network depart, it and the simulated network give the same observations, whatever the
 calls: the same outcomes, and the same snapshots once each node's own address is written the same way
 and the version label is left out. At that call the agreement ends.
 */
module NetworkEquivalence {
  import opened ValidatorModel
  import opened SimulatedNetworks
  import opened VersionSkewNetworks

  /** A call no network can mistake for the node's own address in only one of the two domains. */
  predicate Unambiguous(sim: Sim, skew: Skew, a: NetAction) {
    a.SetNodeEndpoint? && a.endpoint.Literal? ==>
      && a.endpoint.url != ""
      && a.endpoint.url != OriginalOf(sim.original, a.id)
      && a.endpoint.url != OriginalOf(skew.original, a.id)
  }

  predicate EndpointsAgree(own1: string, e1: string, own2: string, e2: string) {
    (e1 == own1 <==> e2 == own2) && (e1 != own1 ==> e1 == e2)
  }

  /** Node records agree; endpoint honesty need not, while the node is absent. */
  predicate NodesAgree(n: Node, k: SkewNode) {
    && n.state == k.state && n.online == k.online && n.power == k.power
    && (n.state != Absent ==> n.honest == k.honest)
  }

  predicate SameNodes(nodes: map<NodeID, Node>, skewed: map<NodeID, SkewNode>) {
    && nodes.Keys == skewed.Keys
    && (forall id :: id in nodes ==> NodesAgree(nodes[id], skewed[id]))
  }

  predicate SameEndpoints(own1: map<NodeID, string>, e1: map<NodeID, string>, own2: map<NodeID, string>, e2: map<NodeID, string>) {
    && own1.Keys == e1.Keys == own2.Keys == e2.Keys
    && (forall id :: id in own1 ==> EndpointsAgree(own1[id], e1[id], own2[id], e2[id]))
  }

  ghost predicate Agree(sim: Sim, skew: Skew) {
    && SimValid(sim) && SkewValid(skew)
    && sim.tickOnSnapshot
    && Consistent(sim.model.nodes) && PositivePowers(sim.model.nodes)
    && sim.order == skew.order
    && sim.model.height == skew.height
    && !skew.diverged
    && SameNodes(sim.model.nodes, skew.nodes)
    && SameEndpoints(sim.original, sim.current, skew.original, skew.current)
  }

  // ---------------------------------------------------------------- observations, domain and version aside

  datatype Endpoint = OwnEndpoint | Other(url: string)

  datatype Seen = Seen(
    id: NodeID, endpoint: Endpoint, reachable: bool, ready: bool, live: bool, synced: bool,
    height: int, blockHash: string, power: int)

  function Normalize(original: map<NodeID, string>, s: NodeStatus): Seen {
    Seen(s.id, if s.endpoint == OriginalOf(original, s.id) then OwnEndpoint else Other(s.endpoint),
         s.reachable, s.ready, s.live, s.synced, s.height, s.blockHash, s.power)
  }

  function NormalizeAll(original: map<NodeID, string>, s: Snapshot): seq<Seen> {
    seq(|s|, i requires 0 <= i < |s| => Normalize(original, s[i]))
  }

  lemma AgreeingNodesLookAlike(sim: Sim, skew: Skew, i: nat)
    requires Agree(sim, skew) && i < |sim.order|
    ensures Normalize(sim.original, View(sim)[i]) == Normalize(skew.original, SkewView(skew)[i])
  {
    var id := sim.order[i];
    assert id in sim.model.nodes;
    var n := sim.model.nodes[id];
    assert NodeConsistent(n) && NodesAgree(n, skew.nodes[id]);
  }

  /** Agreeing states are observed alike. */
  lemma AgreeingSnapshots(sim: Sim, skew: Skew)
    requires Agree(sim, skew)
    ensures NormalizeAll(sim.original, View(sim)) == NormalizeAll(skew.original, SkewView(skew))
  {
    forall i | 0 <= i < |sim.order|
      ensures NormalizeAll(sim.original, View(sim))[i] == NormalizeAll(skew.original, SkewView(skew))[i]
    {
      AgreeingNodesLookAlike(sim, skew, i);
    }
  }

  // ---------------------------------------------------------------- a call that does not fire

  function SkewEffect(a: NetAction, n: SkewNode, own: string): SkewNode
    requires !a.TakeSnapshot?
  {
    match a
    case StartNode(_) => if n.state == Active then n.(online := true) else n
    case StopNode(_) => n.(online := false)
    case RestartNode(_) => n.(online := n.state == Active)
    case RegisterNode(_) => SkewNode(Active, true, true, n.power)
    case DeregisterNode(_) => SkewNode(Absent, false, true, n.power)
    case SetNodeEndpoint(_, e) => n.(honest := Honest(e, own))
    case JailNode(_) => if n.state == Active then n.(state := Jailed, online := false) else n
    case UnjailNode(_) => if n.state == Jailed then n.(state := Active, online := true) else n
  }

  /** The whole effect of a call that does not fire: the node and its endpoint. */
  ghost predicate PlainStep(s: Skew, s': Skew, a: NetAction)
    requires !a.TakeSnapshot? && a.id in s.nodes && a.id in s.current
  {
    var own := OriginalOf(s.original, a.id);
    && s'.nodes == s.nodes[a.id := SkewEffect(a, s.nodes[a.id], own)]
    && s'.current == s.current[a.id := EndpointEffect(a, s.current[a.id], own)]
    && s' == s.(nodes := s'.nodes, current := s'.current)
  }

  lemma QuietTrigger(s: Skew, e: SkewEvent)
    requires s.mode != HaltLegacy(e) && s.mode != ForkLegacy(e)
    ensures Trigger(s, e) == s
  {
  }

  lemma PlainStart(s: Skew, id: NodeID)
    requires id in s.nodes && id in s.current && !Fires(s, StartNode(id))
    ensures PlainStep(s, StartMeaning(s, id), StartNode(id))
  {
    assert s.current[id := s.current[id]] == s.current;
    assert s.nodes[id := s.nodes[id]] == s.nodes;
    QuietTrigger(s, if s.nodes[id].state == Active then ActiveStart else InactiveStart);
  }

  lemma PlainRestart(s: Skew, id: NodeID)
    requires id in s.nodes && id in s.current && !Fires(s, RestartNode(id))
    ensures PlainStep(s, StartMeaning(StopMeaning(s, id), id), RestartNode(id))
  {
    var stopped := StopMeaning(s, id);
    assert !Fires(stopped, StartNode(id));
    PlainStart(stopped, id);
  }

  lemma PlainRegister(s: Skew, id: NodeID)
    requires id in s.nodes && id in s.current && !Fires(s, RegisterNode(id))
    ensures PlainStep(s, RegisterMeaning(s, id), RegisterNode(id))
  {
    QuietTrigger(s, RegisterEvent(s.nodes[id].state));
  }

  lemma PlainDeregister(s: Skew, id: NodeID)
    requires id in s.nodes && id in s.current && !Fires(s, DeregisterNode(id))
    ensures PlainStep(s, DeregisterMeaning(s, id), DeregisterNode(id))
  {
    assert s.current[id := s.current[id]] == s.current;
  }

  lemma PlainEndpoint(s: Skew, id: NodeID, e: EndpointArg)
    requires id in s.nodes && id in s.current && id in s.original && !Fires(s, SetNodeEndpoint(id, e))
    ensures PlainStep(s, EndpointMeaning(s, id, Resolve(s.original, id, e)), SetNodeEndpoint(id, e))
  {
    var url := Resolve(s.original, id, e);
    var own := OriginalOf(s.original, id);
    assert Truthful(s, id, url) == Honest(e, own);
    assert Advertise(s, id, url).current == s.current[id := EndpointEffect(SetNodeEndpoint(id, e), s.current[id], own)];
    if s.nodes[id].state != Active {
      QuietTrigger(s, InactiveEndpoint);
    } else if !Truthful(s, id, url) {
      QuietTrigger(s, EndpointLie);
    } else {
      QuietTrigger(s, if BadEndpoint(s, id) then EndpointRepair else EndpointNoopRepair);
    }
  }

  lemma PlainJail(s: Skew, id: NodeID)
    requires id in s.nodes && id in s.current && !Fires(s, JailNode(id))
    ensures PlainStep(s, JailMeaning(s, id), JailNode(id))
  {
    assert s.current[id := s.current[id]] == s.current;
    assert s.nodes[id := s.nodes[id]] == s.nodes;
  }

  lemma PlainUnjail(s: Skew, id: NodeID)
    requires id in s.nodes && id in s.current && !Fires(s, UnjailNode(id))
    ensures PlainStep(s, UnjailMeaning(s, id), UnjailNode(id))
  {
    assert s.current[id := s.current[id]] == s.current;
    assert s.nodes[id := s.nodes[id]] == s.nodes;
  }

  /** Every call that does not fire has its plain effect. */
  lemma PlainCall(s: Skew, a: NetAction)
    requires SkewValid(s) && !a.TakeSnapshot? && a.id in s.nodes && !Fires(s, a)
    ensures SkewStep(s, a).1 == Done && PlainStep(s, SkewStep(s, a).0, a)
  {
    assert s.current[a.id := s.current[a.id]] == s.current;
    match a {
      case StartNode(id) => PlainStart(s, id);
      case StopNode(id) =>
      case RestartNode(id) => PlainRestart(s, id);
      case RegisterNode(id) => PlainRegister(s, id);
      case DeregisterNode(id) => PlainDeregister(s, id);
      case SetNodeEndpoint(id, e) => PlainEndpoint(s, id, e);
      case JailNode(id) => PlainJail(s, id);
      case UnjailNode(id) => PlainUnjail(s, id);
    }
  }

  // ---------------------------------------------------------------- the simulation relation is kept

  lemma EffectsAgree(a: NetAction, n: Node, k: SkewNode, own1: string, own2: string, e1: string, e2: string)
    requires !a.TakeSnapshot? && NodeConsistent(n) && NodesAgree(n, k) && EndpointsAgree(own1, e1, own2, e2)
    requires a.SetNodeEndpoint? && a.endpoint.Literal? ==>
               a.endpoint.url != "" && a.endpoint.url != own1 && a.endpoint.url != own2
    ensures NodesAgree(NodeEffect(a, n, own1), SkewEffect(a, k, own2))
    ensures NodeEffect(a, n, own1).power == n.power
    ensures EndpointsAgree(own1, EndpointEffect(a, e1, own1), own2, EndpointEffect(a, e2, own2))
  {
  }

  lemma CallKeepsAgreement(sim: Sim, skew: Skew, a: NetAction)
    requires Agree(sim, skew) && !a.TakeSnapshot? && a.id in sim.model.nodes
    requires Unambiguous(sim, skew, a) && !Fires(skew, a)
    ensures SimStep(Current, sim, a).1 == SkewStep(skew, a).1 == Done
    ensures Agree(SimStep(Current, sim, a).0, SkewStep(skew, a).0)
  {
    CurrentCall(sim, a);
    PlainCall(skew, a);
    StepsAgree(sim, SimStep(Current, sim, a).0, skew, SkewStep(skew, a).0, a);
  }

  lemma NodeUpdateAgrees(nodes: map<NodeID, Node>, skewed: map<NodeID, SkewNode>, id: NodeID, n: Node, k: SkewNode)
    requires SameNodes(nodes, skewed) && PositivePowers(nodes) && NodesAgree(n, k) && n.power > 0
    ensures SameNodes(nodes[id := n], skewed[id := k]) && PositivePowers(nodes[id := n])
  {
  }

  lemma EndpointUpdateAgrees(own1: map<NodeID, string>, e1: map<NodeID, string>, own2: map<NodeID, string>,
                             e2: map<NodeID, string>, id: NodeID, u1: string, u2: string)
    requires SameEndpoints(own1, e1, own2, e2) && id in own1 && EndpointsAgree(own1[id], u1, own2[id], u2)
    ensures SameEndpoints(own1, e1[id := u1], own2, e2[id := u2])
  {
  }

  /** Agreement is carried over by steps that keep the shape and stay pointwise in agreement. */
  lemma CarryAgreement(sim: Sim, sim': Sim, skew: Skew, skew': Skew)
    requires Agree(sim, skew)
    requires sim'.order == sim.order && sim'.model.nodes.Keys == sim.model.nodes.Keys
    requires sim'.original == sim.original && sim'.current.Keys == sim.current.Keys
    requires sim'.tickOnSnapshot == sim.tickOnSnapshot && sim'.model.height == skew'.height
    requires skew' == skew.(nodes := skew'.nodes, current := skew'.current, height := skew'.height)
    requires Consistent(sim'.model.nodes) && PositivePowers(sim'.model.nodes)
    requires SameNodes(sim'.model.nodes, skew'.nodes)
    requires SameEndpoints(sim'.original, sim'.current, skew'.original, skew'.current)
    ensures Agree(sim', skew')
  {
  }

  lemma StepNodesAgree(sim: Sim, skew: Skew, a: NetAction)
    requires Agree(sim, skew) && !a.TakeSnapshot? && a.id in sim.model.nodes && Unambiguous(sim, skew, a)
    ensures var id := a.id;
            var n, k := NodeEffect(a, sim.model.nodes[id], sim.original[id]), SkewEffect(a, skew.nodes[id], skew.original[id]);
            && SameNodes(sim.model.nodes[id := n], skew.nodes[id := k])
            && PositivePowers(sim.model.nodes[id := n])
  {
    var id := a.id;
    var n, k := sim.model.nodes[id], skew.nodes[id];
    assert NodesAgree(n, k) && NodeConsistent(n) && n.power > 0;
    EffectsAgree(a, n, k, sim.original[id], skew.original[id], sim.current[id], skew.current[id]);
    NodeUpdateAgrees(sim.model.nodes, skew.nodes, id,
                     NodeEffect(a, n, sim.original[id]), SkewEffect(a, k, skew.original[id]));
  }

  lemma StepEndpointsAgree(sim: Sim, skew: Skew, a: NetAction)
    requires Agree(sim, skew) && !a.TakeSnapshot? && a.id in sim.model.nodes && Unambiguous(sim, skew, a)
    ensures var id := a.id;
            var u1 := EndpointEffect(a, sim.current[id], sim.original[id]);
            var u2 := EndpointEffect(a, skew.current[id], skew.original[id]);
            SameEndpoints(sim.original, sim.current[id := u1], skew.original, skew.current[id := u2])
  {
    var id := a.id;
    EffectsAgree(a, sim.model.nodes[id], skew.nodes[id], sim.original[id], skew.original[id],
                 sim.current[id], skew.current[id]);
    EndpointUpdateAgrees(sim.original, sim.current, skew.original, skew.current, id,
                         EndpointEffect(a, sim.current[id], sim.original[id]),
                         EndpointEffect(a, skew.current[id], skew.original[id]));
  }

  lemma StepsAgree(sim: Sim, sim': Sim, skew: Skew, skew': Skew, a: NetAction)
    requires Agree(sim, skew) && !a.TakeSnapshot? && a.id in sim.model.nodes && Unambiguous(sim, skew, a)
    requires IntendedStep(sim, sim', a) && PlainStep(skew, skew', a)
    ensures Agree(sim', skew')
  {
    StepNodesAgree(sim, skew, a);
    StepEndpointsAgree(sim, skew, a);
    CarryAgreement(sim, sim', skew, skew');
  }

  lemma AgreeingPowers(nodes: map<NodeID, Node>, skewed: map<NodeID, SkewNode>)
    requires SameNodes(nodes, skewed) && Consistent(nodes) && PositivePowers(nodes)
    ensures SkewVoting(skewed) == VotingPowers(nodes) && SkewLive(skewed) == OnlinePowers(nodes)
  {
    forall id | id in nodes
      ensures skewed[id].state == Active && skewed[id].power > 0 <==> nodes[id].inComet
      ensures skewed[id].power == nodes[id].power && skewed[id].online == nodes[id].online
    {
      assert NodesAgree(nodes[id], skewed[id]) && NodeConsistent(nodes[id]);
    }
  }

  lemma AgreeingQuorums(nodes: map<NodeID, Node>, skewed: map<NodeID, SkewNode>)
    requires SameNodes(nodes, skewed) && Consistent(nodes) && PositivePowers(nodes)
    ensures LiveQuorum(skewed) == HasOnlineQuorum(nodes)
  {
    AgreeingPowers(nodes, skewed);
  }

  lemma PollOnlyMovesHeight(s: Skew)
    ensures PollMeaning(s) == s.(height := PollMeaning(s).height)
    ensures PollMeaning(s).height == s.height + (if LiveQuorum(s.nodes) then 1 else 0)
  {
  }

  lemma AgreeAfterPoll(sim: Sim, sim': Sim, skew: Skew, skew': Skew)
    requires Agree(sim, skew) && Polled(sim, sim')
    requires skew' == skew.(height := sim'.model.height)
    ensures Agree(sim', skew')
  {
  }

  lemma PollsAgree(sim: Sim, sim': Sim, skew: Skew)
    requires Agree(sim, skew) && Polled(sim, sim')
    ensures Agree(sim', PollMeaning(skew))
  {
    assert PollMeaning(skew) == skew.(height := sim'.model.height) by {
      PollOnlyMovesHeight(skew);
      AgreeingQuorums(sim.model.nodes, skew.nodes);
    }
    AgreeAfterPoll(sim, sim', skew, PollMeaning(skew));
  }

  lemma SnapshotKeepsAgreement(sim: Sim, skew: Skew)
    requires Agree(sim, skew)
    ensures SimStep(Current, sim, TakeSnapshot).1 == SkewStep(skew, TakeSnapshot).1 == Done
    ensures Agree(SimStep(Current, sim, TakeSnapshot).0, SkewStep(skew, TakeSnapshot).0)
  {
    CurrentSnapshot(sim);
    PollsAgree(sim, SimStep(Current, sim, TakeSnapshot).0, skew);
  }

  // ---------------------------------------------------------------- a call that fires

  /** The state a call leaves when it has its plain effect. */
  function Plain(s: Skew, a: NetAction): Skew
    requires !a.TakeSnapshot? && a.id in s.nodes && a.id in s.current
  {
    var own := OriginalOf(s.original, a.id);
    s.(nodes := s.nodes[a.id := SkewEffect(a, s.nodes[a.id], own)],
       current := s.current[a.id := EndpointEffect(a, s.current[a.id], own)])
  }

  predicate LooksLike(k: SkewNode, l: SkewNode) {
    k.state == l.state && k.online == l.online && k.power == l.power && (k.state != Absent ==> k.honest == l.honest)
  }

  /** The same up to the honesty of absent nodes. */
  predicate Alike(s: Skew, t: Skew) {
    && s.diverged == t.diverged && s.current == t.current && s.nodes.Keys == t.nodes.Keys
    && forall id :: id in s.nodes ==> LooksLike(s.nodes[id], t.nodes[id])
  }

  /** Only nodes are online that are active, as in every state that agrees with the lifecycle model. */
  predicate OnlineAreActive(s: Skew) { forall id :: id in s.nodes && s.nodes[id].online ==> s.nodes[id].state == Active }

  lemma SameEndpointsOnce(own1: map<NodeID, string>, e1: map<NodeID, string>, own2: map<NodeID, string>,
                          e2: map<NodeID, string>, f2: map<NodeID, string>)
    requires SameEndpoints(own1, e1, own2, e2) && SameEndpoints(own1, e1, own2, f2)
    ensures e2 == f2
  {
    forall id | id in e2 ensures e2[id] == f2[id] {
      assert EndpointsAgree(own1[id], e1[id], own2[id], e2[id]) && EndpointsAgree(own1[id], e1[id], own2[id], f2[id]);
    }
  }

  lemma SameNodesLookAlike(nodes: map<NodeID, Node>, k: map<NodeID, SkewNode>, l: map<NodeID, SkewNode>)
    requires SameNodes(nodes, k) && SameNodes(nodes, l)
    ensures forall id :: id in k ==> id in l && LooksLike(k[id], l[id])
  {
    forall id | id in k ensures id in l && LooksLike(k[id], l[id]) {
      assert NodesAgree(nodes[id], k[id]) && NodesAgree(nodes[id], l[id]);
    }
  }

  lemma AgreeingAreAlike(sim: Sim, s: Skew, t: Skew)
    requires Agree(sim, s) && Agree(sim, t) && t.original == s.original
    ensures Alike(s, t)
  {
    SameEndpointsOnce(sim.original, sim.current, s.original, s.current, t.current);
    SameNodesLookAlike(sim.model.nodes, s.nodes, t.nodes);
  }

  lemma AlikeAgrees(sim: Sim, s: Skew, t: Skew)
    requires Agree(sim, s) && Alike(s, t) && t == s.(nodes := t.nodes, current := t.current, diverged := t.diverged)
    ensures Agree(sim, t)
  {
    forall id | id in sim.model.nodes ensures NodesAgree(sim.model.nodes[id], t.nodes[id]) {
      assert NodesAgree(sim.model.nodes[id], s.nodes[id]) && LooksLike(s.nodes[id], t.nodes[id]);
    }
    assert SameNodes(sim.model.nodes, t.nodes);
  }

  /** A network that agrees with sim' is one that is alike to any other that does. */
  lemma AgreementIsAlikeness(sim: Sim, s: Skew, t: Skew)
    requires Agree(sim, s) && t == s.(nodes := t.nodes, current := t.current, diverged := t.diverged)
    ensures Agree(sim, t) <==> Alike(s, t)
  {
    if Agree(sim, t) {
      AgreeingAreAlike(sim, s, t);
    } else if Alike(s, t) {
      AlikeAgrees(sim, s, t);
    }
  }

  // A halting or forking mode that meets its event acts first; the call then has its plain effect.

  lemma TriggeredStart(s: Skew, id: NodeID, e: SkewEvent)
    requires id in s.nodes && id in s.current && (s.mode == HaltLegacy(e) || s.mode == ForkLegacy(e))
    requires SituationOf(s, StartNode(id)) == Meets(e)
    ensures StartMeaning(s, id) == Plain(Trigger(s, e), StartNode(id))
  {
    var t := Trigger(s, e);
    assert t.nodes[id := t.nodes[id]] == t.nodes && t.current[id := t.current[id]] == t.current;
  }

  lemma HaltAroundOne(nodes: map<NodeID, SkewNode>, legacy: set<NodeID>, id: NodeID, n: SkewNode, m: SkewNode)
    requires id in nodes
    ensures HaltActive(nodes[id := n], legacy)[id := m] == HaltActive(nodes, legacy)[id := m]
  {
  }

  lemma TriggeredRestart(s: Skew, id: NodeID, e: SkewEvent)
    requires id in s.nodes && id in s.current && (s.mode == HaltLegacy(e) || s.mode == ForkLegacy(e))
    requires SituationOf(s, RestartNode(id)) == Meets(e)
    ensures StartMeaning(StopMeaning(s, id), id) == Plain(Trigger(s, e), RestartNode(id))
  {
    var n := s.nodes[id];
    var stopped := StopMeaning(s, id);
    TriggeredStart(stopped, id, e);
    HaltAroundOne(s.nodes, s.legacy, id, n.(online := false), n.(online := n.state == Active));
    assert s.nodes[id := n.(online := false)][id := n.(online := n.state == Active)] == s.nodes[id := n.(online := n.state == Active)];
  }

  lemma TriggeredRegister(s: Skew, id: NodeID, e: SkewEvent)
    requires id in s.nodes && id in s.current && (s.mode == HaltLegacy(e) || s.mode == ForkLegacy(e))
    requires SituationOf(s, RegisterNode(id)) == Meets(e)
    ensures RegisterMeaning(s, id) == Plain(Trigger(s, e), RegisterNode(id))
  {
  }

  lemma TriggeredDeregister(s: Skew, id: NodeID, e: SkewEvent)
    requires id in s.nodes && id in s.current && (s.mode == HaltLegacy(e) || s.mode == ForkLegacy(e))
    requires SituationOf(s, DeregisterNode(id)) == Meets(e)
    ensures DeregisterMeaning(s, id) == Plain(Trigger(s, e), DeregisterNode(id))
  {
    assert s.current[id := s.current[id]] == s.current;
  }

  lemma TriggeredEndpoint(s: Skew, id: NodeID, arg: EndpointArg, e: SkewEvent)
    requires id in s.nodes && id in s.current && id in s.original && (s.mode == HaltLegacy(e) || s.mode == ForkLegacy(e))
    requires SituationOf(s, SetNodeEndpoint(id, arg)) == Meets(e)
    ensures EndpointMeaning(s, id, Resolve(s.original, id, arg)) == Plain(Trigger(s, e), SetNodeEndpoint(id, arg))
  {
    var url, own := Resolve(s.original, id, arg), OriginalOf(s.original, id);
    assert Truthful(s, id, url) == Honest(arg, own);
    var t := SetHonest(Trigger(s, e), id, Truthful(s, id, url));
    assert Advertise(t, id, url).current == s.current[id := EndpointEffect(SetNodeEndpoint(id, arg), s.current[id], own)];
  }

  lemma TriggeredJail(s: Skew, id: NodeID, e: SkewEvent)
    requires id in s.nodes && id in s.current && (s.mode == HaltLegacy(e) || s.mode == ForkLegacy(e))
    requires SituationOf(s, JailNode(id)) == Meets(e)
    ensures JailMeaning(s, id) == Plain(Trigger(s, e), JailNode(id))
  {
    var t := Trigger(s, e);
    assert t.nodes[id := t.nodes[id]] == t.nodes && t.current[id := t.current[id]] == t.current;
  }

  lemma TriggeredUnjail(s: Skew, id: NodeID, e: SkewEvent)
    requires id in s.nodes && id in s.current && (s.mode == HaltLegacy(e) || s.mode == ForkLegacy(e))
    requires SituationOf(s, UnjailNode(id)) == Meets(e)
    ensures UnjailMeaning(s, id) == Plain(Trigger(s, e), UnjailNode(id))
  {
    var t := Trigger(s, e);
    assert t.nodes[id := t.nodes[id]] == t.nodes && t.current[id := t.current[id]] == t.current;
  }

  lemma TriggeredCall(s: Skew, a: NetAction, e: SkewEvent)
    requires SkewValid(s) && !a.TakeSnapshot? && a.id in s.nodes && (s.mode == HaltLegacy(e) || s.mode == ForkLegacy(e))
    requires SituationOf(s, a) == Meets(e)
    ensures SkewStep(s, a).0 == Plain(Trigger(s, e), a)
  {
    match a {
      case StartNode(id) => TriggeredStart(s, id, e);
      case RestartNode(id) => TriggeredRestart(s, id, e);
      case RegisterNode(id) => TriggeredRegister(s, id, e);
      case DeregisterNode(id) => TriggeredDeregister(s, id, e);
      case SetNodeEndpoint(id, arg) => TriggeredEndpoint(s, id, arg, e);
      case JailNode(id) => TriggeredJail(s, id, e);
      case UnjailNode(id) => TriggeredUnjail(s, id, e);
    }
  }

  /** A halt shows at a node that was online, unless the call brings that node up again. */
  lemma HaltShowsAt(a: NetAction, k: SkewNode, own: string)
    requires !a.TakeSnapshot? && !a.StopNode? && (k.online ==> k.state == Active)
    requires a.JailNode? || a.DeregisterNode? ==> k.state != Active
    ensures LooksLike(SkewEffect(a, k, own), SkewEffect(a, k.(online := false), own)) <==> !k.online || BringsUp(a)
  {
  }

  /** A halt at the node called about. */
  lemma HaltedSelf(s: Skew, a: NetAction)
    requires SkewValid(s) && OnlineAreActive(s) && !a.TakeSnapshot? && a.id in s.nodes && !a.StopNode?
    requires a.JailNode? || a.DeregisterNode? ==> s.nodes[a.id].state != Active
    ensures var own := OriginalOf(s.original, a.id);
            LooksLike(SkewEffect(a, s.nodes[a.id], own), SkewEffect(a, HaltActive(s.nodes, s.legacy)[a.id], own)) <==>
            !LeftHalted(s, a, a.id)
  {
    HaltShowsAt(a, s.nodes[a.id], OriginalOf(s.original, a.id));
  }

  lemma PlainAt(s: Skew, a: NetAction, id: NodeID)
    requires !a.TakeSnapshot? && a.id in s.nodes && a.id in s.current && id in s.nodes
    ensures Plain(s, a).nodes[id] == if id == a.id then SkewEffect(a, s.nodes[id], OriginalOf(s.original, id)) else s.nodes[id]
  {
  }

  lemma HaltedAt(s: Skew, a: NetAction, id: NodeID)
    requires SkewValid(s) && OnlineAreActive(s) && !a.TakeSnapshot? && a.id in s.nodes && !a.StopNode? && id in s.nodes
    requires a.JailNode? || a.DeregisterNode? ==> s.nodes[a.id].state != Active
    ensures LooksLike(Plain(s, a).nodes[id], Plain(s.(nodes := HaltActive(s.nodes, s.legacy)), a).nodes[id]) <==>
            !LeftHalted(s, a, id)
  {
    PlainAt(s, a, id);
    PlainAt(s.(nodes := HaltActive(s.nodes, s.legacy)), a, id);
    if id == a.id {
      HaltedSelf(s, a);
    }
  }

  lemma HaltShows(s: Skew, a: NetAction)
    requires SkewValid(s) && OnlineAreActive(s) && !a.TakeSnapshot? && a.id in s.nodes && !a.StopNode?
    requires a.JailNode? || a.DeregisterNode? ==> s.nodes[a.id].state != Active
    ensures Alike(Plain(s, a), Plain(s.(nodes := HaltActive(s.nodes, s.legacy)), a)) <==> NobodyLeftHalted(s, a)
  {
    var p, q := Plain(s, a), Plain(s.(nodes := HaltActive(s.nodes, s.legacy)), a);
    assert p.nodes.Keys == q.nodes.Keys == s.nodes.Keys;
    assert p.current == q.current && p.diverged == q.diverged;
    forall id | id in s.nodes ensures LooksLike(p.nodes[id], q.nodes[id]) <==> !LeftHalted(s, a, id) {
      HaltedAt(s, a, id);
    }
  }

  /** The shape every firing call keeps. */
  predicate SameShape(s: Skew, t: Skew) {
    && t == s.(nodes := t.nodes, current := t.current, diverged := t.diverged)
    && t.nodes.Keys == s.nodes.Keys && t.current.Keys == s.current.Keys
  }

  lemma TriggerShape(s: Skew, e: SkewEvent, a: NetAction)
    requires !a.TakeSnapshot? && a.id in s.nodes && a.id in s.current
    ensures SameShape(Plain(s, a), Plain(Trigger(s, e), a))
  {
  }

  /** Halting and forking modes: exactly when the agreement survives. */
  lemma TriggeredDeparture(s: Skew, a: NetAction)
    requires SkewValid(s) && OnlineAreActive(s) && !s.diverged && Fires(s, a) && (s.mode.HaltLegacy? || s.mode.ForkLegacy?)
    ensures Alike(Plain(s, a), SkewStep(s, a).0) <==> Harmless(s, a)
    ensures SameShape(Plain(s, a), SkewStep(s, a).0)
  {
    TriggeredCall(s, a, s.mode.on);
    TriggerShape(s, s.mode.on, a);
    if s.mode.HaltLegacy? {
      HaltShows(s, a);
    }
  }

  // The other modes replace the call's effect on the node itself.

  /** s with one node's record and endpoint replaced. */
  function Rewrite(s: Skew, id: NodeID, n: SkewNode, e: string): Skew {
    s.(nodes := s.nodes[id := n], current := s.current[id := e])
  }

  predicate Special(m: Mode) { !m.HaltLegacy? && !m.ForkLegacy? }

  /** What a special mode makes of the node when it fires. */
  function SpecialNode(m: Mode, a: NetAction, k: SkewNode, own: string): SkewNode
    requires !a.TakeSnapshot?
  {
    match m
    case NoopOnStart => if a.StartNode? then k else k.(online := false)
    case BadEndpointOnStart => k.(online := true, honest := false)
    case ReactivateJailedOnStart => k.(state := Active, online := true)
    case ReactivateAbsentOnStart => k.(state := Active, online := true)
    case KeepBadEndpointOnRegister => SkewNode(Active, true, false, k.power)
    case BadEndpointOnRegister => SkewNode(Active, true, false, k.power)
    case BadEndpointOnUnjail => k.(state := Active, online := true, honest := false)
    case ReactivateAbsentOnUnjail => k.(state := Active, online := true)
    case KeepBadEndpointOnRepair => k.(honest := false)
    case KeepBadEndpointOnJailedRepair => k.(honest := false)
    case ReactivateJailedOnInactiveEndpoint => SkewEffect(a, k.(state := Active, online := true), own)
    case ReactivateAbsentOnInactiveEndpoint => SkewEffect(a, k.(state := Active, online := true), own)
    case _ => k
  }

  function SpecialEndpoint(m: Mode, a: NetAction, e: string, own: string): string
    requires !a.TakeSnapshot?
  {
    match m
    case BadEndpointOnStart => WrongEndpoint(a.id)
    case BadEndpointOnRegister => WrongEndpoint(a.id)
    case BadEndpointOnUnjail => WrongEndpoint(a.id)
    case NoopOnJailedRegister => own
    case ReactivateJailedOnInactiveEndpoint => EndpointEffect(a, e, own)
    case ReactivateAbsentOnInactiveEndpoint => EndpointEffect(a, e, own)
    case _ => e
  }

  function SpecialResult(s: Skew, a: NetAction): Skew
    requires !a.TakeSnapshot? && a.id in s.nodes && a.id in s.current
  {
    var own := OriginalOf(s.original, a.id);
    Rewrite(s, a.id, SpecialNode(s.mode, a, s.nodes[a.id], own), SpecialEndpoint(s.mode, a, s.current[a.id], own))
  }

  lemma RewriteNothing(s: Skew, id: NodeID)
    requires id in s.nodes && id in s.current
    ensures s.nodes[id := s.nodes[id]] == s.nodes && s.current[id := s.current[id]] == s.current
  {
  }

  lemma SpecialStart(s: Skew, id: NodeID)
    requires id in s.nodes && id in s.current && Special(s.mode) && Fires(s, StartNode(id))
    ensures StartMeaning(s, id) == SpecialResult(s, StartNode(id))
  {
    RewriteNothing(s, id);
  }

  lemma SpecialRestart(s: Skew, id: NodeID)
    requires id in s.nodes && id in s.current && Special(s.mode) && Fires(s, RestartNode(id))
    ensures StartMeaning(StopMeaning(s, id), id) == SpecialResult(s, RestartNode(id))
  {
    var stopped := StopMeaning(s, id);
    RewriteNothing(s, id);
    RewriteNothing(stopped, id);
    SpecialStart(stopped, id);
  }

  lemma SpecialRegister(s: Skew, id: NodeID)
    requires id in s.nodes && id in s.current && Special(s.mode) && Fires(s, RegisterNode(id))
    ensures RegisterMeaning(s, id) == SpecialResult(s, RegisterNode(id))
  {
    RewriteNothing(s, id);
    QuietTrigger(s, RegisterEvent(s.nodes[id].state));
  }

  lemma SpecialEndpointCall(s: Skew, id: NodeID, arg: EndpointArg)
    requires id in s.nodes && id in s.current && id in s.original && Special(s.mode) && Fires(s, SetNodeEndpoint(id, arg))
    ensures EndpointMeaning(s, id, Resolve(s.original, id, arg)) == SpecialResult(s, SetNodeEndpoint(id, arg))
  {
    RewriteNothing(s, id);
    var url, own := Resolve(s.original, id, arg), OriginalOf(s.original, id);
    assert Truthful(s, id, url) == Honest(arg, own);
    if Reactivates(s, id) {
      QuietTrigger(Activate(s, id), InactiveEndpoint);
      assert Advertise(s, id, url).current == s.current[id := EndpointEffect(SetNodeEndpoint(id, arg), s.current[id], own)];
    }
  }

  lemma SpecialUnjail(s: Skew, id: NodeID)
    requires id in s.nodes && id in s.current && Special(s.mode) && Fires(s, UnjailNode(id))
    ensures UnjailMeaning(s, id) == SpecialResult(s, UnjailNode(id))
  {
    RewriteNothing(s, id);
    QuietTrigger(s, JailedUnjail);
  }

  lemma SpecialCall(s: Skew, a: NetAction)
    requires SkewValid(s) && Special(s.mode) && Fires(s, a)
    ensures SkewStep(s, a).0 == SpecialResult(s, a)
  {
    match a {
      case StartNode(id) => SpecialStart(s, id);
      case RestartNode(id) => SpecialRestart(s, id);
      case RegisterNode(id) => SpecialRegister(s, id);
      case SetNodeEndpoint(id, arg) => SpecialEndpointCall(s, id, arg);
      case UnjailNode(id) => SpecialUnjail(s, id);
    }
  }

  lemma RewritesAlike(s: Skew, id: NodeID, n: SkewNode, e: string, m: SkewNode, f: string)
    requires id in s.nodes && id in s.current
    ensures Alike(Rewrite(s, id, n, e), Rewrite(s, id, m, f)) <==> LooksLike(n, m) && e == f
    ensures SameShape(Rewrite(s, id, n, e), Rewrite(s, id, m, f))
  {
    var p, q := Rewrite(s, id, n, e), Rewrite(s, id, m, f);
    assert p.current[id] == e && q.current[id] == f && p.nodes[id] == n && q.nodes[id] == m;
  }

  /** On the node itself: when what the mode does instead cannot be told from the plain effect. */
  lemma SpecialDiffers(s: Skew, a: NetAction)
    requires SkewValid(s) && OnlineAreActive(s) && Special(s.mode) && Fires(s, a)
    ensures var own, k, e := OriginalOf(s.original, a.id), s.nodes[a.id], s.current[a.id];
            (LooksLike(SkewEffect(a, k, own), SpecialNode(s.mode, a, k, own)) &&
             EndpointEffect(a, e, own) == SpecialEndpoint(s.mode, a, e, own)) <==> Harmless(s, a)
  {
  }

  lemma SpecialDeparture(s: Skew, a: NetAction)
    requires SkewValid(s) && OnlineAreActive(s) && Special(s.mode) && Fires(s, a)
    ensures Alike(Plain(s, a), SkewStep(s, a).0) <==> Harmless(s, a)
    ensures SameShape(Plain(s, a), SkewStep(s, a).0)
  {
    var own, k, e := OriginalOf(s.original, a.id), s.nodes[a.id], s.current[a.id];
    SpecialCall(s, a);
    SpecialDiffers(s, a);
    RewritesAlike(s, a.id, SkewEffect(a, k, own), EndpointEffect(a, e, own),
                  SpecialNode(s.mode, a, k, own), SpecialEndpoint(s.mode, a, e, own));
  }

  /**
   A firing call keeps the shape of the network, and has its plain effect, as far as anyone can tell,
   exactly when it is harmless.
   */
  lemma FiringCall(s: Skew, a: NetAction)
    requires SkewValid(s) && OnlineAreActive(s) && !s.diverged && Fires(s, a)
    ensures Alike(Plain(s, a), SkewStep(s, a).0) <==> Harmless(s, a)
    ensures SameShape(Plain(s, a), SkewStep(s, a).0)
  {
    if Special(s.mode) {
      SpecialDeparture(s, a);
    } else {
      TriggeredDeparture(s, a);
    }
  }

  /** After a firing call the networks agree exactly when it was harmless. */
  lemma FiringCallAgreement(sim: Sim, skew: Skew, a: NetAction)
    requires Agree(sim, skew) && Unambiguous(sim, skew, a) && Fires(skew, a)
    ensures SimStep(Current, sim, a).1 == SkewStep(skew, a).1 == Done
    ensures Agree(SimStep(Current, sim, a).0, SkewStep(skew, a).0) <==> Harmless(skew, a)
  {
    var sim', skew' := SimStep(Current, sim, a).0, SkewStep(skew, a).0;
    CurrentCall(sim, a);
    StepsAgree(sim, sim', skew, Plain(skew, a), a);
    AgreeingAreActive(sim, skew);
    FiringCall(skew, a);
    AgreementIsAlikeness(sim', Plain(skew, a), skew');
  }

  lemma AgreeingAreActive(sim: Sim, skew: Skew)
    requires Agree(sim, skew)
    ensures OnlineAreActive(skew)
  {
    forall id | id in skew.nodes && skew.nodes[id].online ensures skew.nodes[id].state == Active {
      assert NodeConsistent(sim.model.nodes[id]) && NodesAgree(sim.model.nodes[id], skew.nodes[id]);
    }
  }

  /** One call, known node or not: same outcome, and the networks still agree unless the call departs. */
  lemma KeepsAgreement(sim: Sim, skew: Skew, a: NetAction)
    requires Agree(sim, skew) && Unambiguous(sim, skew, a)
    ensures SimStep(Current, sim, a).1 == SkewStep(skew, a).1
    ensures Agree(SimStep(Current, sim, a).0, SkewStep(skew, a).0) <==> !Departs(skew, a)
  {
    if a.TakeSnapshot? {
      SnapshotKeepsAgreement(sim, skew);
    } else if a.id !in sim.model.nodes {
      UnknownCall(Current, sim, a);
    } else if Fires(skew, a) {
      FiringCallAgreement(sim, skew, a);
    } else {
      CallKeepsAgreement(sim, skew, a);
    }
  }

  lemma SimAddressesStay(s: Sim, a: NetAction)
    ensures SimStep(Current, s, a).0.original == s.original
  {
  }

  /** A call moves nodes, endpoints, height and history; everything else stays. */
  lemma SkewFrame(sim: Sim, skew: Skew, a: NetAction)
    requires Agree(sim, skew)
    ensures var t := SkewStep(skew, a).0;
            && t == skew.(nodes := t.nodes, current := t.current, height := t.height, diverged := t.diverged)
            && skew.height <= t.height
  {
    if !a.TakeSnapshot? && a.id in skew.nodes {
      if Fires(skew, a) {
        AgreeingAreActive(sim, skew);
        FiringCall(skew, a);
      } else {
        PlainCall(skew, a);
      }
    }
  }

  // ---------------------------------------------------------------- whole runs

  datatype Reply = Reply(outcome: Outcome, seen: seq<Seen>)

  ghost function SimReply(s: Sim, o: Outcome, a: NetAction): Reply {
    Reply(o, if a.TakeSnapshot? && SimValid(s) then NormalizeAll(s.original, View(s)) else [])
  }

  ghost function SkewReply(s: Skew, o: Outcome, a: NetAction): Reply {
    Reply(o, if a.TakeSnapshot? && SkewValid(s) then NormalizeAll(s.original, SkewView(s)) else [])
  }

  ghost function SimRun(s: Sim, acts: seq<NetAction>): (Sim, seq<Reply>) {
    if acts == [] then (s, [])
    else
      var n := |acts| - 1;
      var before := SimRun(s, acts[..n]);
      var r := SimStep(Current, before.0, acts[n]);
      (r.0, before.1 + [SimReply(r.0, r.1, acts[n])])
  }

  ghost function SkewRun(s: Skew, acts: seq<NetAction>): (Skew, seq<Reply>) {
    if acts == [] then (s, [])
    else
      var n := |acts| - 1;
      var before := SkewRun(s, acts[..n]);
      var r := SkewStep(before.0, acts[n]);
      (r.0, before.1 + [SkewReply(r.0, r.1, acts[n])])
  }

  /** No call of the run names an address only one network owns. */
  ghost predicate Unmistakable(sim: Sim, skew: Skew, acts: seq<NetAction>) {
    forall i :: 0 <= i < |acts| ==> Unambiguous(sim, skew, acts[i])
  }

  ghost predicate DepartsAt(skew: Skew, acts: seq<NetAction>, i: nat)
    requires i < |acts|
  {
    Departs(SkewRun(skew, acts[..i]).0, acts[i])
  }

  /** No call of the run departs. */
  ghost predicate QuietRun(skew: Skew, acts: seq<NetAction>) {
    forall i :: 0 <= i < |acts| ==> !DepartsAt(skew, acts, i)
  }

  lemma QuietPrefix(skew: Skew, acts: seq<NetAction>, n: nat)
    requires QuietRun(skew, acts) && n <= |acts|
    ensures QuietRun(skew, acts[..n])
  {
    forall i | 0 <= i < n ensures !DepartsAt(skew, acts[..n], i) {
      assert acts[..n][..i] == acts[..i];
      assert !DepartsAt(skew, acts, i);
    }
  }

  /** What no call changes, and the height, which no call lowers. */
  predicate SameSetup(s: Skew, t: Skew) {
    t.order == s.order && t.legacy == s.legacy && t.mode == s.mode && t.original == s.original && s.height <= t.height
  }

  /** Over every quiet run the two networks give the same replies, and end in agreement. */
  lemma {:induction false} QuietRunsAgree(sim: Sim, skew: Skew, acts: seq<NetAction>)
    requires Agree(sim, skew) && Unmistakable(sim, skew, acts) && QuietRun(skew, acts)
    ensures SimRun(sim, acts).1 == SkewRun(skew, acts).1
    ensures Agree(SimRun(sim, acts).0, SkewRun(skew, acts).0)
    ensures SimRun(sim, acts).0.original == sim.original && SameSetup(skew, SkewRun(skew, acts).0)
    decreases |acts|
  {
    if acts != [] {
      var n := |acts| - 1;
      QuietPrefix(skew, acts, n);
      QuietRunsAgree(sim, skew, acts[..n]);
      assert !DepartsAt(skew, acts, n) && Unambiguous(sim, skew, acts[n]);
      RepliesAgree(SimRun(sim, acts[..n]).0, SkewRun(skew, acts[..n]).0, acts[n]);
    }
  }

  lemma RepliesAgree(sim: Sim, skew: Skew, a: NetAction)
    requires Agree(sim, skew) && Unambiguous(sim, skew, a) && !Departs(skew, a)
    ensures var r, k := SimStep(Current, sim, a), SkewStep(skew, a);
            && SimReply(r.0, r.1, a) == SkewReply(k.0, k.1, a)
            && Agree(r.0, k.0) && r.0.original == sim.original && SameSetup(skew, k.0)
  {
    KeepsAgreement(sim, skew, a);
    SimAddressesStay(sim, a);
    SkewFrame(sim, skew, a);
    AgreeingSnapshots(SimStep(Current, sim, a).0, SkewStep(skew, a).0);
  }

  /** The first departing call of a run ends the agreement: quiet runs are all there is to it. */
  lemma DepartureEndsAgreement(sim: Sim, skew: Skew, acts: seq<NetAction>, last: NetAction)
    requires Agree(sim, skew) && Unmistakable(sim, skew, acts + [last]) && QuietRun(skew, acts)
    ensures Agree(SimRun(sim, acts + [last]).0, SkewRun(skew, acts + [last]).0) <==> !Departs(SkewRun(skew, acts).0, last)
  {
    var n := |acts|;
    assert (acts + [last])[..n] == acts;
    assert Unmistakable(sim, skew, acts) by {
      forall i | 0 <= i < n ensures Unambiguous(sim, skew, acts[i]) {
        assert (acts + [last])[i] == acts[i];
      }
    }
    QuietRunsAgree(sim, skew, acts);
    assert Unambiguous(sim, skew, (acts + [last])[n]);
    KeepsAgreement(SimRun(sim, acts).0, SkewRun(skew, acts).0, last);
  }

  /** Freshly built networks of the same size and powers, all nodes active, agree, whatever mode is armed. */
  lemma InitialNetworksAgree(sim: Sim, skew: Skew, nodeCount: int, legacyIDs: set<NodeID>, mode: Mode, powers: map<NodeID, int>)
    requires IsNew(skew, nodeCount, legacyIDs, mode, powers)
    requires SimValid(sim) && sim.tickOnSnapshot && sim.model.height == 0 && sim.current == sim.original
    requires |sim.order| == Clamp(nodeCount, 1, DEFAULT_NODE_LIMIT)
    requires IsInitial(sim.model.nodes, sim.order, |sim.order|, powers)
    ensures Agree(sim, skew)
  {
    InitialIsConsistent(sim.model.nodes, sim.order, |sim.order|, powers);
    assert sim.order == skew.order;
    forall id | id in sim.model.nodes ensures NodesAgree(sim.model.nodes[id], skew.nodes[id]) {
      var i :| 0 <= i < |sim.order| && sim.order[i] == id;
      assert skew.nodes[skew.order[i]] == SkewNode(Active, true, true, PowerOf(powers, id));
    }
  }
}
