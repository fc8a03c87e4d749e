/**
 What a finished run of the genesis writer has done, and runs that show both ends of the story: one that
 completes, and one whose crash no resume can follow (cmd/genesis-writer/writer.go).
 */
module GenesisCompletion {
  import opened GenesisChain
  import opened GenesisState
  import opened GenesisMachine
  import opened GenesisSafety
  import opened Options

  // ---------------------------------------------------------------- every step of a finished run

  predicate InStep(c: Control) { c.Emitting? || c.Barrier? || c.Drained? || c.Checked? }

  /** The steps taken up so far are in the progress table, but for the one under way. */
  ghost predicate StepsInv(p: Proc, progress: set<string>) {
    && p.completed <= progress
    && p.next <= |p.steps|
    && (InStep(p.control) ==>
          && p.next > 0 && p.control.step == p.steps[p.next - 1]
          && forall k :: 0 <= k < p.next - 1 ==> p.steps[k] in progress)
    && (!InStep(p.control) && !p.control.Halted? ==> forall k :: 0 <= k < p.next ==> p.steps[k] in progress)
    && (p.control.Finishing? || p.control.Stopped? || p.control.Done? ==> p.next == |p.steps|)
  }

  ghost predicate StateSteps(s: State) { s.proc.Some? ==> StepsInv(s.proc.value, s.disk.progress) }

  /** Flushing and adding leave the plan and the place in it alone. */
  lemma ProducerKeepsPlace(cfg: Config, p: Proc, tx: Tx, o: FlushOutcome)
    ensures var q := FlushProc(cfg.crypto, p, o).0;
            q.steps == p.steps && q.next == p.next && q.completed == p.completed && q.control == p.control
    ensures var q := AddProc(cfg, p, tx, o);
            q.steps == p.steps && q.next == p.next && q.completed == p.completed && q.control == p.control
  {
  }

  lemma TakeUpSteps(p: Proc, progress: set<string>)
    requires StepsInv(p, progress) && p.control == Ready && p.next < |p.steps|
    ensures StepsInv(TakeUp(p), progress)
  {
  }

  lemma ProducesSteps(cfg: Config, p: Proc, ev: Event, p': Proc, progress: set<string>)
    requires StepsInv(p, progress) && Produces(cfg, p, ev, p')
    ensures StepsInv(p', progress)
  {
    if ev.BeginStep? {
      TakeUpSteps(p, progress);
    } else if ev.Add? {
      ProducerKeepsPlace(cfg, p, ev.tx, ev.outcome);
    } else if ev.EndStep? || ev.Finish? {
      ProducerKeepsPlace(cfg, p, [], ev.outcome);
    }
  }

  lemma StartSteps(cfg: Config, s: State, resume: bool, steps: seq<string>, s': State)
    requires s.proc.None? && Starts(cfg, s, resume, steps, s')
    ensures StateSteps(s')
  {
    if resume {
      var m :| IsMaxHeight(m, s.disk.blocks.Keys) && Resumes(cfg, s, m, steps, s');
    }
  }

  /** The writer's own events do not touch the plan or the progress table. */
  ghost predicate SamePlace(s: State, s': State) {
    && s'.disk.progress == s.disk.progress
    && (s'.proc.Some? ==>
          && s.proc.Some?
          && var p, q := s.proc.value, s'.proc.value;
             q.steps == p.steps && q.next == p.next && q.completed == p.completed && q.control == p.control)
  }

  lemma WriterSteps(cfg: Config, s: State, ev: Event, s': State)
    requires Step(cfg, s, ev, s') && (ev.CommitBlock? || ev.CommitFails? || ev.SaveBlock? || ev.Discard? || ev.Crash?)
    ensures SamePlace(s, s')
  {
  }

  lemma RecoverSteps(s: State, answered: bool, hashRead: bool, s': State)
    requires StateSteps(s) && Recovers(s, answered, hashRead, s')
    ensures StateSteps(s')
  {
  }

  lemma RecordSteps(s: State, ok: bool, s': State)
    requires StateSteps(s) && Records(s, ok, s')
    ensures StateSteps(s')
  {
    var p := s.proc.value;
    assert ok ==> forall k :: 0 <= k < p.next ==> p.steps[k] in s'.disk.progress;
  }

  lemma StepSteps(cfg: Config, s: State, ev: Event, s': State)
    requires StateSteps(s) && Step(cfg, s, ev, s')
    ensures StateSteps(s')
  {
    if ev.CommitBlock? || ev.CommitFails? || ev.SaveBlock? || ev.Discard? || ev.Crash? {
      WriterSteps(cfg, s, ev, s');
    } else if ev.StartRun? {
      StartSteps(cfg, s, ev.resume, ev.steps, s');
    } else if ev.Record? {
      RecordSteps(s, ev.ok, s');
    } else if ev.Recover? {
      RecoverSteps(s, ev.answered, ev.hashRead, s');
    } else {
      ProducesSteps(cfg, s.proc.value, ev, s'.proc.value, s.disk.progress);
    }
  }

  lemma {:induction false} RunSteps(cfg: Config, states: seq<State>, events: seq<Event>, i: nat)
    requires IsRun(cfg, states, events) && i < |states|
    ensures StateSteps(states[i])
    decreases i
  {
    if i > 0 {
      RunSteps(cfg, states, events, i - 1);
      StepSteps(cfg, states[i - 1], events[i - 1], states[i - 1 + 1]);
    }
  }

  /**
   A run that is done has every one of its steps in the progress table, written by it or by an earlier
   run, and everything those steps emitted is in core_transactions: each step at least once.
   */
  lemma FinishedRunWroteEveryStep(cfg: Config, states: seq<State>, events: seq<Event>, i: nat, step: string)
    requires IsRun(cfg, states, events) && i < |states| && states[i].proc.Some?
    requires states[i].proc.value.control == Done && step in states[i].proc.value.steps
    ensures step in states[i].disk.progress && step in states[i].emitted
    ensures var e := states[i].emitted[step];
            e.from <= e.to && TxsOnDisk(states[i].disk, e.from, e.to) == e.txs
  {
    var p := states[i].proc.value;
    RunSteps(cfg, states, events, i);
    var k :| 0 <= k < |p.steps| && p.steps[k] == step;
    CheckpointedStepIsDurable(cfg, states, events, i, step);
  }

  // ---------------------------------------------------------------- when a crash is final

  /** Whether a commit that took effect has been reported as failed, to the process running after ev. */
  function LandedAfter(ev: Event, landed: bool): bool {
    if ev.StartRun? then false else landed || ev == CommitFails(true)
  }

  /** The same for the process running after the first i events. */
  function LandedUnseen(events: seq<Event>, i: nat): bool
    requires i <= |events|
  {
    if i == 0 then false else LandedAfter(events[i - 1], LandedUnseen(events, i - 1))
  }

  /** What the blockstore lacks while no failure has happened and nothing is being saved: nothing. */
  ghost predicate Level(s: State) {
    s.proc.Some? ==>
      && (!s.proc.value.mem.failed && s.proc.value.saving.None? ==> s.saved == |s.durable|)
      && (s.proc.value.mem.failed ==> s.proc.value.saving.None?)
  }

  lemma InvIsLevel(cfg: Config, s: State)
    requires cfg.useStore && Inv(cfg, s)
    ensures Level(s)
  {
  }

  /** After a failure the blockstore lags exactly when the failed commit landed. */
  ghost predicate LagInv(s: State, landed: bool) {
    s.proc.Some? ==>
      && (!s.proc.value.mem.failed ==> !landed)
      && (s.proc.value.mem.failed ==> (landed <==> s.saved < |s.durable|))
  }

  lemma ProducerKeepsFailure(cfg: Config, p: Proc, ev: Event, p': Proc)
    requires Produces(cfg, p, ev, p')
    ensures p'.mem.failed == p.mem.failed
  {
  }

  lemma StartLag(cfg: Config, s: State, resume: bool, steps: seq<string>, s': State)
    requires s.proc.None? && Starts(cfg, s, resume, steps, s')
    ensures LagInv(s', false)
  {
    if resume {
      var m :| IsMaxHeight(m, s.disk.blocks.Keys) && Resumes(cfg, s, m, steps, s');
    }
  }

  lemma FailLag(s: State, seen: bool, s': State, landed: bool)
    requires Level(s) && LagInv(s, landed) && FailsToCommit(s, seen, s')
    ensures LagInv(s', landed || seen)
  {
  }

  lemma CommitLag(cfg: Config, s: State, s': State, landed: bool)
    requires LagInv(s, landed) && Commits(cfg, s, s')
    ensures LagInv(s', landed)
  {
  }

  /** Everything else leaves the failure flag and, after a failure, both stores alone. */
  lemma OtherLag(cfg: Config, s: State, ev: Event, s': State, landed: bool)
    requires Level(s) && LagInv(s, landed) && Step(cfg, s, ev, s')
    requires !ev.StartRun? && !ev.CommitFails? && !ev.CommitBlock?
    ensures LagInv(s', landed)
  {
    if !ev.Record? && !ev.Recover? && !ev.SaveBlock? && !ev.Discard? && !ev.Crash? {
      ProducerKeepsFailure(cfg, s.proc.value, ev, s'.proc.value);
    }
  }

  lemma StepLag(cfg: Config, s: State, ev: Event, s': State, landed: bool)
    requires Level(s) && Step(cfg, s, ev, s') && LagInv(s, landed)
    ensures LagInv(s', LandedAfter(ev, landed))
  {
    if ev.StartRun? {
      StartLag(cfg, s, ev.resume, ev.steps, s');
    } else if ev.CommitFails? {
      FailLag(s, ev.landed, s', landed);
    } else if ev.CommitBlock? {
      CommitLag(cfg, s, s', landed);
    } else {
      OtherLag(cfg, s, ev, s', landed);
    }
  }

  lemma {:induction false} RunLag(cfg: Config, states: seq<State>, events: seq<Event>, i: nat)
    requires cfg.useStore && IsRun(cfg, states, events) && i < |states|
    ensures LagInv(states[i], LandedUnseen(events, i))
    decreases i
  {
    if i > 0 {
      var k := i - 1;
      RunLag(cfg, states, events, k);
      RunLevel(cfg, states, events, k);
      StepLag(cfg, states[k], events[k], states[k + 1], LandedUnseen(events, k));
    }
  }

  lemma RunLevel(cfg: Config, states: seq<State>, events: seq<Event>, i: nat)
    requires cfg.useStore && IsRun(cfg, states, events) && i < |states|
    ensures Level(states[i])
  {
    RunKeeps(cfg, states, events, i);
    InvIsLevel(cfg, states[i]);
  }

  /**
   A crash of a running process is one no resume can follow exactly when a block is committed and not yet
   saved, or a commit that landed was reported as failed; without a blockstore, as soon as a block exists.
   */
  lemma CrashIsStuckExactly(cfg: Config, states: seq<State>, events: seq<Event>, i: nat)
    requires IsRun(cfg, states, events) && i < |states| && states[i].proc.Some?
    ensures Stuck(cfg, states[i].(proc := None)) <==>
            if cfg.useStore then states[i].proc.value.saving.Some? || LandedUnseen(events, i)
            else states[i].disk.blocks != map[]
  {
    var s := states[i];
    RunKeeps(cfg, states, events, i);
    StuckExactly(cfg, states, events, i);
    if cfg.useStore {
      RunLag(cfg, states, events, i);
    } else {
      MaxIsLength(cfg.crypto, s.disk, ChainFor(cfg, s.durable), s.saved, 0);
    }
  }

  // ---------------------------------------------------------------- two runs

  /** One transaction per block and a blockstore. */
  ghost predicate Small(cfg: Config) { cfg.maxTxsPerBlock == 1 && cfg.useStore }

  function EmptyMem(cfg: Config): Mem { FreshMem(NewTip(cfg.genesis), None) }

  function FlushedMem(cfg: Config, tx: Tx): Mem { Flushed(cfg.crypto, Buffered(EmptyMem(cfg), tx)) }

  function OnlyBlock(cfg: Config, tx: Tx): Pending { PendingOf(cfg.crypto, NextBlock(NewTip(cfg.genesis), [tx])) }

  /** A fresh process of one step that has emitted nothing. */
  function Starting(cfg: Config, c: Control, step: string, next: nat): State {
    State(EMPTY_DISK, Some(Proc(EmptyMem(cfg), None, c, false, {}, [step], next, [], 0, 0, [])), [], 0, map[])
  }

  /** The same after it flushed its only transaction: the block is queued. */
  function OneQueued(cfg: Config, step: string, tx: Tx): State {
    State(EMPTY_DISK, Some(Proc(FlushedMem(cfg, tx), None, Emitting(step), false, {}, [step], 1, [[tx]], 0, 0, [tx])), [], 0, map[])
  }

  /** And after the block was committed. */
  function OneCommitted(cfg: Config, step: string, tx: Tx): State {
    State(Committed(EMPTY_DISK, OnlyBlock(cfg, tx)),
          Some(Proc(FlushedMem(cfg, tx).(queue := []), Some(OnlyBlock(cfg, tx)), Emitting(step), false, {}, [step], 1, [[tx]], 0, 0, [tx])),
          [[tx]], 0, map[])
  }

  /** And after it was saved, with the process at the given place. */
  function OneSaved(cfg: Config, step: string, tx: Tx, c: Control): State {
    State(Saved(Committed(EMPTY_DISK, OnlyBlock(cfg, tx)), OnlyBlock(cfg, tx)),
          Some(Proc(FlushedMem(cfg, tx).(queue := []), None, c, false, {}, [step], 1, [[tx]], 0, 0, [tx])),
          [[tx]], 1, map[])
  }

  /** And after the step was recorded. */
  function OneRecorded(cfg: Config, step: string, tx: Tx, c: Control): State {
    var s := OneSaved(cfg, step, tx, c);
    s.(disk := s.disk.(progress := {step}), emitted := map[step := Emission(0, 1, [tx])])
  }

  lemma AddOne(cfg: Config, step: string, tx: Tx)
    requires Small(cfg)
    ensures Step(cfg, Starting(cfg, Emitting(step), step, 1), Add(tx, Sent), OneQueued(cfg, step, tx))
  {
    assert [] + [tx] == [tx] && [] + [[tx]] == [[tx]];
  }

  lemma OneInQueue(cfg: Config, tx: Tx)
    ensures FlushedMem(cfg, tx).queue == [OnlyBlock(cfg, tx)] && !FlushedMem(cfg, tx).failed
  {
    assert [] + [tx] == [tx];
  }

  lemma CommitOne(cfg: Config, step: string, tx: Tx)
    requires Small(cfg)
    ensures Step(cfg, OneQueued(cfg, step, tx), CommitBlock, OneCommitted(cfg, step, tx))
  {
    OneInQueue(cfg, tx);
    assert [] + [[tx]] == [[tx]];
    assert [OnlyBlock(cfg, tx)][1..] == [];
  }

  lemma SaveOne(cfg: Config, step: string, tx: Tx)
    ensures Step(cfg, OneCommitted(cfg, step, tx), SaveBlock, OneSaved(cfg, step, tx, Emitting(step)))
  {
  }

  lemma CloseOne(cfg: Config, step: string, tx: Tx)
    ensures Step(cfg, OneSaved(cfg, step, tx, Emitting(step)), EndStep(Sent), OneSaved(cfg, step, tx, Barrier(step)))
    ensures Step(cfg, OneSaved(cfg, step, tx, Barrier(step)), StopWriter, OneSaved(cfg, step, tx, Drained(step)))
    ensures Step(cfg, OneSaved(cfg, step, tx, Drained(step)), CheckCounts, OneSaved(cfg, step, tx, Checked(step)))
    ensures Step(cfg, OneSaved(cfg, step, tx, Checked(step)), Record(true), OneRecorded(cfg, step, tx, Ready))
  {
  }

  lemma EndOne(cfg: Config, step: string, tx: Tx)
    ensures Step(cfg, OneRecorded(cfg, step, tx, Ready), Finish(Sent), OneRecorded(cfg, step, tx, Finishing))
    ensures Step(cfg, OneRecorded(cfg, step, tx, Finishing), StopWriter, OneRecorded(cfg, step, tx, Stopped))
    ensures Step(cfg, OneRecorded(cfg, step, tx, Stopped), Recover(true, true), OneRecorded(cfg, step, tx, Done))
  {
  }

  lemma StartOne(cfg: Config, step: string)
    ensures Step(cfg, Init(), StartRun(false, [step]), Starting(cfg, Ready, step, 0))
    ensures Step(cfg, Starting(cfg, Ready, step, 0), BeginStep, Starting(cfg, Emitting(step), step, 1))
  {
  }

  function CommittedEvents(step: string, tx: Tx): seq<Event> {
    [StartRun(false, [step]), BeginStep, Add(tx, Sent), CommitBlock]
  }

  function CommittedStates(cfg: Config, step: string, tx: Tx): seq<State> {
    [Init(), Starting(cfg, Ready, step, 0), Starting(cfg, Emitting(step), step, 1), OneQueued(cfg, step, tx), OneCommitted(cfg, step, tx)]
  }

  lemma CommittedIsRun(cfg: Config, step: string, tx: Tx)
    requires Small(cfg)
    ensures IsRun(cfg, CommittedStates(cfg, step, tx), CommittedEvents(step, tx))
  {
    StartOne(cfg, step);
    AddOne(cfg, step, tx);
    CommitOne(cfg, step, tx);
  }

  lemma Extend(cfg: Config, states: seq<State>, events: seq<Event>, ev: Event, s: State)
    requires IsRun(cfg, states, events) && Step(cfg, states[|events|], ev, s)
    ensures IsRun(cfg, states + [s], events + [ev])
  {
  }

  /** A crash right after the first commit: the run is stuck, so every later resume is refused. */
  lemma ACrashCanBeFinal(cfg: Config, step: string, tx: Tx)
    requires Small(cfg)
    ensures var states := CommittedStates(cfg, step, tx);
            var crashed := states[4].(proc := None);
            IsRun(cfg, states + [crashed], CommittedEvents(step, tx) + [Crash]) && Stuck(cfg, crashed)
  {
    var states, events := CommittedStates(cfg, step, tx), CommittedEvents(step, tx);
    CommittedIsRun(cfg, step, tx);
    Extend(cfg, states, events, Crash, states[4].(proc := None));
    CrashIsStuckExactly(cfg, states, events, 4);
  }

  /** Some run ends in s. */
  ghost predicate Reachable(cfg: Config, s: State) {
    exists states: seq<State>, events: seq<Event> :: EndsIn(cfg, states, events, s)
  }

  ghost predicate EndsIn(cfg: Config, states: seq<State>, events: seq<Event>, s: State) {
    IsRun(cfg, states, events) && states[|events|] == s
  }

  lemma ReachStep(cfg: Config, s: State, ev: Event, s': State)
    requires Reachable(cfg, s) && Step(cfg, s, ev, s')
    ensures Reachable(cfg, s')
  {
    var states: seq<State>, events: seq<Event> :| EndsIn(cfg, states, events, s);
    Extend(cfg, states, events, ev, s');
    assert EndsIn(cfg, states + [s'], events + [ev], s');
  }

  lemma SavedIsReachable(cfg: Config, step: string, tx: Tx)
    requires Small(cfg)
    ensures Reachable(cfg, OneSaved(cfg, step, tx, Emitting(step)))
  {
    CommittedIsRun(cfg, step, tx);
    assert EndsIn(cfg, CommittedStates(cfg, step, tx), CommittedEvents(step, tx), OneCommitted(cfg, step, tx));
    SaveOne(cfg, step, tx);
    ReachStep(cfg, OneCommitted(cfg, step, tx), SaveBlock, OneSaved(cfg, step, tx, Emitting(step)));
  }

  lemma RecordedIsReachable(cfg: Config, step: string, tx: Tx)
    requires Small(cfg)
    ensures Reachable(cfg, OneRecorded(cfg, step, tx, Ready))
  {
    SavedIsReachable(cfg, step, tx);
    CloseOne(cfg, step, tx);
    ReachStep(cfg, OneSaved(cfg, step, tx, Emitting(step)), EndStep(Sent), OneSaved(cfg, step, tx, Barrier(step)));
    ReachStep(cfg, OneSaved(cfg, step, tx, Barrier(step)), StopWriter, OneSaved(cfg, step, tx, Drained(step)));
    ReachStep(cfg, OneSaved(cfg, step, tx, Drained(step)), CheckCounts, OneSaved(cfg, step, tx, Checked(step)));
    ReachStep(cfg, OneSaved(cfg, step, tx, Checked(step)), Record(true), OneRecorded(cfg, step, tx, Ready));
  }

  /** And a run that completes: one step, one transaction, one block in both stores, the step recorded. */
  lemma ARunCompletes(cfg: Config, step: string, tx: Tx)
    requires Small(cfg)
    ensures Reachable(cfg, OneRecorded(cfg, step, tx, Done))
  {
    RecordedIsReachable(cfg, step, tx);
    EndOne(cfg, step, tx);
    ReachStep(cfg, OneRecorded(cfg, step, tx, Ready), Finish(Sent), OneRecorded(cfg, step, tx, Finishing));
    ReachStep(cfg, OneRecorded(cfg, step, tx, Finishing), StopWriter, OneRecorded(cfg, step, tx, Stopped));
    ReachStep(cfg, OneRecorded(cfg, step, tx, Stopped), Recover(true, true), OneRecorded(cfg, step, tx, Done));
  }

  // ---------------------------------------------------------------- a resume with nothing left to do

  /** What the completed run leaves. */
  function LeftBehind(cfg: Config, step: string, tx: Tx): State {
    OneRecorded(cfg, step, tx, Done).(proc := None)
  }

  /** What a resume rebuilds from it. */
  function ResumedMem(cfg: Config, tx: Tx): Mem {
    FreshMem(ResumeTip(cfg, Stored(OnlyBlock(cfg, tx).block, OnlyBlock(cfg, tx).seenCommit), 1, OnlyBlock(cfg, tx).appHash),
             Some(OnlyBlock(cfg, tx).block.time))
  }

  /** The resumed process at the given place of its one step. */
  function OneResumed(cfg: Config, step: string, tx: Tx, c: Control, next: nat): State {
    LeftBehind(cfg, step, tx).(
      proc := Some(Proc(ResumedMem(cfg, tx), None, c, true, {step}, [step], next, [[tx]], 1, 1, [])))
  }

  lemma LeftTables(cfg: Config, step: string, tx: Tx)
    ensures var d, pb := LeftBehind(cfg, step, tx).disk, OnlyBlock(cfg, tx);
            && pb.height == 1 && d.blocks.Keys == {1} && d.app == {(1, pb.appHash)}
            && d.store == map[1 := Stored(pb.block, pb.seenCommit)] && d.progress == {step}
  {
  }

  lemma ResumeOne(cfg: Config, step: string, tx: Tx)
    requires Small(cfg)
    ensures Step(cfg, LeftBehind(cfg, step, tx), StartRun(true, [step]), OneResumed(cfg, step, tx, Ready, 0))
  {
    var s, pb := LeftBehind(cfg, step, tx), OnlyBlock(cfg, tx);
    LeftTables(cfg, step, tx);
    assert IsMaxHeight(1, s.disk.blocks.Keys);
    assert (1, pb.appHash) in s.disk.app && HasTail(cfg, s.disk, 1);
    assert Resumed(cfg, s.disk, 1, pb.appHash) == ResumedMem(cfg, tx);
    assert Resumes(cfg, s, 1, [step], OneResumed(cfg, step, tx, Ready, 0));
  }

  /** The step is passed over and the run goes to its end. */
  lemma PassOne(cfg: Config, step: string, tx: Tx)
    ensures Step(cfg, OneResumed(cfg, step, tx, Ready, 0), BeginStep, OneResumed(cfg, step, tx, Ready, 1))
    ensures Step(cfg, OneResumed(cfg, step, tx, Ready, 1), Finish(Sent), OneResumed(cfg, step, tx, Finishing, 1))
    ensures Step(cfg, OneResumed(cfg, step, tx, Finishing, 1), StopWriter, OneResumed(cfg, step, tx, Stopped, 1))
  {
  }

  lemma ResumedIsReachable(cfg: Config, step: string, tx: Tx)
    requires Small(cfg)
    ensures Reachable(cfg, OneResumed(cfg, step, tx, Stopped, 1))
  {
    ARunCompletes(cfg, step, tx);
    ReachStep(cfg, OneRecorded(cfg, step, tx, Done), Crash, LeftBehind(cfg, step, tx));
    ResumeOne(cfg, step, tx);
    ReachStep(cfg, LeftBehind(cfg, step, tx), StartRun(true, [step]), OneResumed(cfg, step, tx, Ready, 0));
    PassOne(cfg, step, tx);
    ReachStep(cfg, OneResumed(cfg, step, tx, Ready, 0), BeginStep, OneResumed(cfg, step, tx, Ready, 1));
    ReachStep(cfg, OneResumed(cfg, step, tx, Ready, 1), Finish(Sent), OneResumed(cfg, step, tx, Finishing, 1));
    ReachStep(cfg, OneResumed(cfg, step, tx, Finishing, 1), StopWriter, OneResumed(cfg, step, tx, Stopped, 1));
  }

  /** A resume over a finished chain whose last query fails: it ends well, and reports height 0 for a chain of one block. */
  lemma AResumeCanReportNothing(cfg: Config, step: string, tx: Tx)
    requires Small(cfg)
    ensures Reachable(cfg, OneResumed(cfg, step, tx, Done, 1))
    ensures var s := OneResumed(cfg, step, tx, Done, 1); s.proc.value.mem.final.height == 0 && |s.durable| == 1 && 1 in s.disk.blocks
  {
    ResumedIsReachable(cfg, step, tx);
    LeftTables(cfg, step, tx);
    ReachStep(cfg, OneResumed(cfg, step, tx, Stopped, 1), Recover(false, false), OneResumed(cfg, step, tx, Done, 1));
  }

  /** The resumed process with its query answered. */
  ghost function OneReported(cfg: Config, step: string, tx: Tx): State {
    var s := OneResumed(cfg, step, tx, Stopped, 1);
    s.(proc := Some(s.proc.value.(control := Done, mem := Recovered(s.disk, s.proc.value.mem, 1, OnlyBlock(cfg, tx).appHash, true))))
  }

  lemma ReportOne(cfg: Config, step: string, tx: Tx)
    ensures Recovers(OneResumed(cfg, step, tx, Stopped, 1), true, true, OneReported(cfg, step, tx))
  {
    LeftTables(cfg, step, tx);
    assert IsLatest(OneResumed(cfg, step, tx, Stopped, 1).disk.app, 1, OnlyBlock(cfg, tx).appHash);
  }

  lemma ReportedIsReachable(cfg: Config, step: string, tx: Tx)
    requires Small(cfg)
    ensures Reachable(cfg, OneReported(cfg, step, tx))
  {
    ResumedIsReachable(cfg, step, tx);
    ReportOne(cfg, step, tx);
    ReachStep(cfg, OneResumed(cfg, step, tx, Stopped, 1), Recover(true, true), OneReported(cfg, step, tx));
  }

  lemma ReachableKeeps(cfg: Config, s: State)
    requires Reachable(cfg, s)
    ensures Inv(cfg, s)
  {
    var states: seq<State>, events: seq<Event> :| EndsIn(cfg, states, events, s);
    RunKeeps(cfg, states, events, |events|);
  }

  /** The same with its query answered reports that block. */
  lemma AResumeCanReportTheTip(cfg: Config, step: string, tx: Tx)
    requires Small(cfg)
    ensures Reachable(cfg, OneReported(cfg, step, tx))
    ensures var s := OneReported(cfg, step, tx);
            s.proc.value.mem.blocks == 0 && s.proc.value.mem.final == FinalOf(cfg, [[tx]]) && s.durable == [[tx]]
  {
    ReportedIsReachable(cfg, step, tx);
    ResumedIsReachable(cfg, step, tx);
    ReachableKeeps(cfg, OneResumed(cfg, step, tx, Stopped, 1));
    ReportOne(cfg, step, tx);
    RecoverGives(cfg, OneResumed(cfg, step, tx, Stopped, 1), true, true, OneReported(cfg, step, tx));
  }
}
