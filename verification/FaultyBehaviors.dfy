/**
 What the lifecycle model's own checks make of each faulty behaviour: the faulty run is the intended
 run, event for event, up to the first action that triggers the fault, and reports an invariant error
 at exactly that action. One fault, the register that does nothing, is never reported.
 */
module FaultyBehaviors {
  import opened ValidatorModel

  /** The action, on these nodes, exercises the fault. */
  ghost predicate Triggers(b: Behavior, nodes: map<NodeID, Node>, a: Action)
    requires KnownAction(nodes, a)
  {
    match b
    case Current => false
    case JailedDeregistration => IsDeregistration(a.kind) && nodes[a.node].state == Jailed
    case AnyDeregistrationUpdate =>
      a.kind == DeregisterTwice || (a.kind == Deregister && nodes[a.node].state != Active)
    case RegisterWithoutCometUpdate => a.kind == Register
    case RegisterNoop => a.kind == Register
    case StartAbsentOnline => a.kind == Start && nodes[a.node].state != Active
    case TickWithoutQuorum => a.kind == Tick && !HasOnlineQuorum(nodes)
    case StallWithQuorum => a.kind == Tick && HasOnlineQuorum(nodes)
  }

  /** The violation a triggered fault is reported as. */
  function Reported(b: Behavior): Violation {
    match b
    case Current => NoViolation
    case RegisterNoop => NoViolation
    case JailedDeregistration => RemovalOfMissing
    case AnyDeregistrationUpdate => RemovalOfMissing
    case RegisterWithoutCometUpdate => InconsistentNode
    case StartAbsentOnline => InconsistentNode
    case TickWithoutQuorum => AdvancedWithoutQuorum
    case StallWithQuorum => StalledWithQuorum
  }

  lemma SameNodeStep(b: Behavior, nodes: map<NodeID, Node>, a: Action)
    requires a.node in nodes && !Triggers(b, nodes, a) && a.kind != Tick
    ensures Emits(b, a.kind, nodes[a.node]) == Emits(Current, a.kind, nodes[a.node])
    ensures NextNode(b, a.kind, nodes[a.node]) == NextNode(Current, a.kind, nodes[a.node])
  {
  }

  lemma SameOnce(b: Behavior, m: Model, step: int, a: Action)
    requires a.node in m.nodes && a.kind != Tick && !Triggers(b, m.nodes, a)
    ensures ApplyOnce(b, m, step, a) == ApplyOnce(Current, m, step, a)
  {
    SameNodeStep(b, m.nodes, a);
  }

  /** Without its trigger a faulty behaviour takes the intended step: same model, events and outcome. */
  lemma UntriggeredStep(b: Behavior, m: Model, step: int, a: Action)
    requires Consistent(m.nodes) && KnownAction(m.nodes, a) && !Triggers(b, m.nodes, a)
    ensures Apply(b, m, step, a) == Apply(Current, m, step, a)
  {
    if a.kind == Tick {
      assert Advances(b, HasOnlineQuorum(m.nodes)) == Advances(Current, HasOnlineQuorum(m.nodes));
    } else {
      SameOnce(b, m, step, a);
      if a.kind == DeregisterTwice {
        CurrentOnce(m, step, a);
        SameOnce(b, ApplyOnce(Current, m, step, a).0, step, a);
      }
    }
  }

  lemma TriggeredTick(b: Behavior, m: Model, step: int, a: Action)
    requires b == TickWithoutQuorum || b == StallWithQuorum
    requires a.kind == Tick && Triggers(b, m.nodes, a)
    ensures ApplyTick(b, m, step, a).1 == InvariantError(Reported(b))
  {
  }

  lemma TriggeredUpdate(b: Behavior, m: Model, step: int, a: Action)
    requires b == RegisterWithoutCometUpdate || b == StartAbsentOnline
    requires a.node in m.nodes && Triggers(b, m.nodes, a)
    ensures ApplyOnce(b, m, step, a).1 == InvariantError(Reported(b))
  {
    var nodes := m.nodes[a.node := NextNode(b, a.kind, m.nodes[a.node])];
    assert !NodeConsistent(nodes[a.node]);
  }

  lemma TriggeredRemoval(b: Behavior, m: Model, step: int, a: Action)
    requires b == JailedDeregistration || b == AnyDeregistrationUpdate
    requires a.node in m.nodes && NodeConsistent(m.nodes[a.node]) && Triggers(b, m.nodes, a)
    requires m.nodes[a.node].state != Active
    ensures ApplyOnce(b, m, step, a).1 == InvariantError(Reported(b))
  {
  }

  /** Removing an active validator twice: the first removal is the intended one, the second is caught. */
  lemma TriggeredSecondRemoval(m: Model, step: int, a: Action)
    requires Consistent(m.nodes) && a.node in m.nodes && a.kind == DeregisterTwice
    requires m.nodes[a.node].state == Active
    ensures Apply(AnyDeregistrationUpdate, m, step, a).1 == InvariantError(RemovalOfMissing)
  {
    CurrentOnce(m, step, a);
    var first := ApplyOnce(Current, m, step, a);
    assert first == ApplyOnce(AnyDeregistrationUpdate, m, step, a);
    assert first.0.nodes[a.node].state == Absent;
    TriggeredRemoval(AnyDeregistrationUpdate, first.0, step, a);
  }

  lemma TriggeredStep(b: Behavior, m: Model, step: int, a: Action)
    requires b != RegisterNoop
    requires Consistent(m.nodes) && KnownAction(m.nodes, a) && Triggers(b, m.nodes, a)
    ensures Apply(b, m, step, a).1 == InvariantError(Reported(b))
  {
    match b {
      case TickWithoutQuorum => TriggeredTick(b, m, step, a);
      case StallWithQuorum => TriggeredTick(b, m, step, a);
      case RegisterWithoutCometUpdate => TriggeredUpdate(b, m, step, a);
      case StartAbsentOnline => TriggeredUpdate(b, m, step, a);
      case JailedDeregistration => TriggeredRemoval(b, m, step, a);
      case AnyDeregistrationUpdate =>
        if m.nodes[a.node].state == Active {
          TriggeredSecondRemoval(m, step, a);
        } else {
          TriggeredRemoval(b, m, step, a);
        }
    }
  }

  /** acts[i] triggers the fault on the nodes the intended run has reached by then. */
  ghost predicate TriggersAt(b: Behavior, nodes: map<NodeID, Node>, acts: seq<Action>, i: nat)
    requires i < |acts| && Known(nodes, acts)
  {
    Triggers(b, NodesAfter(nodes, acts[..i]), acts[i])
  }

  ghost predicate Untriggered(b: Behavior, nodes: map<NodeID, Node>, acts: seq<Action>)
    requires Known(nodes, acts)
  {
    forall i :: 0 <= i < |acts| ==> !TriggersAt(b, nodes, acts, i)
  }

  lemma UntriggeredPrefix(b: Behavior, nodes: map<NodeID, Node>, acts: seq<Action>, n: nat)
    requires Known(nodes, acts) && n <= |acts|
    requires forall i :: 0 <= i < n ==> !TriggersAt(b, nodes, acts, i)
    ensures Untriggered(b, nodes, acts[..n])
  {
    forall i | 0 <= i < n ensures !TriggersAt(b, nodes, acts[..n], i) {
      assert acts[..n][..i] == acts[..i];
      assert !TriggersAt(b, nodes, acts, i);
    }
  }

  /** Lock step: a run that never triggers the fault is the intended run, model, events and outcome. */
  lemma {:induction false} LockStep(b: Behavior, m: Model, step: int, acts: seq<Action>)
    requires Consistent(m.nodes) && Known(m.nodes, acts) && Untriggered(b, m.nodes, acts)
    ensures Run(b, m, step, acts) == Run(Current, m, step, acts)
    decreases |acts|
  {
    if acts != [] {
      var n := |acts| - 1;
      UntriggeredPrefix(b, m.nodes, acts, n);
      LockStep(b, m, step, acts[..n]);
      CurrentRun(m, step, acts[..n]);
      assert !TriggersAt(b, m.nodes, acts, n);
      UntriggeredStep(b, Run(Current, m, step, acts[..n]).0, NthStep(step, n), acts[n]);
    }
  }

  /** A run that fails at some action ends there. */
  lemma {:induction false} RunStops(b: Behavior, m: Model, step: int, acts: seq<Action>, k: nat)
    requires k <= |acts| && !Run(b, m, step, acts[..k]).1.Done?
    ensures Run(b, m, step, acts) == Run(b, m, step, acts[..k])
    decreases |acts|
  {
    if k == |acts| {
      assert acts[..k] == acts;
    } else {
      var n := |acts| - 1;
      assert acts[..n][..k] == acts[..k];
      RunStops(b, m, step, acts[..n], k);
    }
  }

  lemma {:induction false} ErrorAtTrigger(b: Behavior, m: Model, step: int, acts: seq<Action>, k: nat)
    requires b != RegisterNoop && Consistent(m.nodes) && Known(m.nodes, acts) && k < |acts|
    requires Untriggered(b, m.nodes, acts[..k]) && TriggersAt(b, m.nodes, acts, k)
    ensures Run(b, m, step, acts[..k]) == Run(Current, m, step, acts[..k])
    ensures Run(b, m, step, acts[..k + 1]).1 == InvariantError(Reported(b))
  {
    var pre := acts[..k];
    assert acts[..k + 1][..k] == pre && acts[..k + 1][k] == acts[k];
    LockStep(b, m, step, pre);
    CurrentRun(m, step, pre);
    TriggeredStep(b, Run(Current, m, step, pre).0, NthStep(step, k), acts[k]);
  }

  ghost predicate IsFirstTrigger(b: Behavior, nodes: map<NodeID, Node>, acts: seq<Action>, k: nat)
    requires Known(nodes, acts)
  {
    && k < |acts| && TriggersAt(b, nodes, acts, k)
    && forall i :: 0 <= i < k ==> !TriggersAt(b, nodes, acts, i)
  }

  /** The run goes on as intended up to action k and ends there with the behaviour's own violation. */
  ghost predicate StopsAt(b: Behavior, m: Model, step: int, acts: seq<Action>, k: nat)
    requires k < |acts|
  {
    && Run(b, m, step, acts[..k]) == Run(Current, m, step, acts[..k])
    && Run(b, m, step, acts) == Run(b, m, step, acts[..k + 1])
    && Run(b, m, step, acts).1 == InvariantError(Reported(b))
  }

  lemma StopsAtFirstTrigger(b: Behavior, m: Model, step: int, acts: seq<Action>, k: nat)
    requires b != RegisterNoop && Consistent(m.nodes) && Known(m.nodes, acts) && IsFirstTrigger(b, m.nodes, acts, k)
    ensures StopsAt(b, m, step, acts, k)
  {
    UntriggeredPrefix(b, m.nodes, acts, k);
    ErrorAtTrigger(b, m, step, acts, k);
    RunStops(b, m, step, acts, k + 1);
  }

  lemma UntriggeredRunsClean(b: Behavior, m: Model, step: int, acts: seq<Action>)
    requires b != RegisterNoop && Consistent(m.nodes) && Known(m.nodes, acts) && Untriggered(b, m.nodes, acts)
    ensures Run(b, m, step, acts).1 == Done
  {
    LockStep(b, m, step, acts);
    CurrentRun(m, step, acts);
  }

  /**
   Over every run on known nodes: a faulty behaviour other than the silent register reports an error
   if and only if some action triggers it; it runs in lock step with the intended behaviour up to the
   first such action and stops there with the violation that fault is reported as.
   */
  lemma {:induction false} ReportedExactlyAtFirstTrigger(b: Behavior, m: Model, step: int, acts: seq<Action>)
    requires b != RegisterNoop && Consistent(m.nodes) && Known(m.nodes, acts)
    ensures Untriggered(b, m.nodes, acts) <==> Run(b, m, step, acts).1 == Done
    ensures forall k: nat :: IsFirstTrigger(b, m.nodes, acts, k) ==> StopsAt(b, m, step, acts, k)
  {
    forall k: nat | IsFirstTrigger(b, m.nodes, acts, k) ensures StopsAt(b, m, step, acts, k) {
      StopsAtFirstTrigger(b, m, step, acts, k);
    }
    if Untriggered(b, m.nodes, acts) {
      UntriggeredRunsClean(b, m, step, acts);
    } else {
      var k :| 0 <= k < |acts| && TriggersAt(b, m.nodes, acts, k);
      k := FirstTrigger(b, m.nodes, acts, k);
      assert IsFirstTrigger(b, m.nodes, acts, k);
      assert StopsAt(b, m, step, acts, k);
    }
  }

  lemma {:induction false} FirstTrigger(b: Behavior, nodes: map<NodeID, Node>, acts: seq<Action>, i: nat) returns (k: nat)
    requires Known(nodes, acts) && i < |acts| && TriggersAt(b, nodes, acts, i)
    ensures k <= i && TriggersAt(b, nodes, acts, k)
    ensures forall j :: 0 <= j < k ==> !TriggersAt(b, nodes, acts, j)
    decreases i
  {
    if j :| 0 <= j < i && TriggersAt(b, nodes, acts, j) {
      k := FirstTrigger(b, nodes, acts, j);
    } else {
      k := i;
    }
  }

  lemma SilentRegisterStep(m: Model, step: int, a: Action)
    requires Consistent(m.nodes) && KnownAction(m.nodes, a)
    ensures var r := Apply(RegisterNoop, m, step, a);
            r.1 == Done && Consistent(r.0.nodes) && r.0.nodes.Keys == m.nodes.Keys
  {
    if a.kind == Register {
      assert m.nodes[a.node := m.nodes[a.node]] == m.nodes;
    } else {
      UntriggeredStep(RegisterNoop, m, step, a);
      CurrentStep(m, step, a);
    }
  }

  /** The register that does nothing is never reported: every run ends without an error. */
  lemma {:induction false} SilentRegisterIsNeverReported(m: Model, step: int, acts: seq<Action>)
    requires Consistent(m.nodes) && Known(m.nodes, acts)
    ensures var r := Run(RegisterNoop, m, step, acts);
            r.1 == Done && Consistent(r.0.nodes) && r.0.nodes.Keys == m.nodes.Keys
    decreases |acts|
  {
    if acts != [] {
      var n := |acts| - 1;
      SilentRegisterIsNeverReported(m, step, acts[..n]);
      SilentRegisterStep(Run(RegisterNoop, m, step, acts[..n]).0, NthStep(step, n), acts[n]);
    }
  }
}
