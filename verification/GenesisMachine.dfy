/**
 The genesis writer as a state machine: one producer that emits steps and checkpoints them, the
 background block writer, and crashes and resumes at any point (cmd/genesis-writer/writer.go).

 Every event is atomic and any enabled event may come next, so the runs cover every interleaving of
 the producer with the writer. The first run starts on an empty database and all runs share the
 genesis time.
 */
module GenesisMachine {
  import opened GenesisChain
  import opened GenesisState
  import opened Options

  /** blockWriteCh holds four blocks; a fifth can be in the writer's hands. */
  const QUEUE_CAPACITY := 4

  /** Where the producer is. Halted: Run has returned with an error. */
  datatype Control =
    | Ready
    | Emitting(step: string)
    | Barrier(step: string)
    | Drained(step: string)
    | Checked(step: string)
    | Finishing
    | Stopped
    | Done
    | Halted

  /**
   One process, with the names of its steps in order, skipped ones left out, and how many it has taken
   up. saving is a block committed to postgres and not yet in the blockstore. The last four
   fields record the run for the statements below and influence nothing: the transaction lists of all
   blocks so far, how many of them earlier runs left, and the same for the step being emitted.
   */
  datatype Proc = Proc(
    mem: Mem, saving: Option<Pending>, control: Control, resume: bool, completed: set<string>, steps: seq<string>, next: nat,
    produced: seq<seq<Tx>>, base: nat, stepStart: nat, stepTxs: seq<Tx>)

  /** The blocks from..to hold the transactions a checkpointed step emitted. */
  datatype Emission = Emission(from: nat, to: nat, txs: seq<Tx>)

  /** durable, saved and emitted record what was committed, saved and checkpointed. */
  datatype State = State(disk: Disk, proc: Option<Proc>, durable: seq<seq<Tx>>, saved: nat, emitted: map<string, Emission>)

  function Init(): State { State(EMPTY_DISK, None, [], 0, map[]) }

  datatype Event =
    | StartRun(resume: bool, steps: seq<string>)
    | BeginStep
    | Add(tx: Tx, outcome: FlushOutcome)
    | StepFails
    | EndStep(outcome: FlushOutcome)
    | StopWriter
    | CheckCounts
    | Record(ok: bool)
    | Finish(outcome: FlushOutcome)
    | Recover(answered: bool, hashRead: bool)
    | CommitBlock
    | CommitFails(landed: bool)
    | SaveBlock
    | Discard
    | Crash

  // ---------------------------------------------------------------- the producer

  function NewProc(m: Mem, resume: bool, completed: set<string>, steps: seq<string>, durable: seq<seq<Tx>>): Proc {
    Proc(m, None, Ready, resume, completed, steps, 0, durable, |durable|, |durable|, [])
  }

  /** A fresh run needs an empty database; a resume that lacks its tail is refused and changes nothing. */
  ghost predicate Starts(cfg: Config, s: State, resume: bool, steps: seq<string>, s': State) {
    if !resume then
      && s.disk.blocks == map[]
      && s' == s.(proc := Some(NewProc(FreshMem(NewTip(cfg.genesis), None), false, {}, steps, s.durable)))
    else
      exists m :: IsMaxHeight(m, s.disk.blocks.Keys) && Resumes(cfg, s, m, steps, s')
  }

  ghost predicate Resumes(cfg: Config, s: State, m: int, steps: seq<string>, s': State) {
    if HasTail(cfg, s.disk, m) then
      exists a :: (m > 0 ==> (m, a) in s.disk.app) &&
        s' == s.(proc := Some(NewProc(Resumed(cfg, s.disk, m, a), true, s.disk.progress, steps, s.durable)))
    else s' == s
  }

  /** A block can be sent while the channel has room. */
  predicate CanSend(p: Proc, o: FlushOutcome) {
    o == Sent ==> |p.mem.queue| + (if p.saving.Some? then 1 else 0) <= QUEUE_CAPACITY
  }

  function FlushProc(c: Crypto, p: Proc, o: FlushOutcome): (Proc, bool) {
    if p.mem.buffer == [] then (p, true)
    else if o != Sent then (p, false)
    else (p.(mem := Flushed(c, p.mem), produced := p.produced + [p.mem.buffer]), true)
  }

  function AddProc(cfg: Config, p: Proc, tx: Tx, o: FlushOutcome): Proc {
    if p.mem.failed then p
    else
      var q := p.(mem := Buffered(p.mem, tx), stepTxs := p.stepTxs + [tx]);
      if Full(cfg, q.mem) then FlushProc(cfg.crypto, q, o).0 else q
  }

  /** On memory these are the writer's own flushBlock and addTx. */
  lemma ProducerMemory(cfg: Config, p: Proc, tx: Tx, o: FlushOutcome)
    ensures FlushProc(cfg.crypto, p, o).0.mem == Flush(cfg.crypto, p.mem, o).0
    ensures FlushProc(cfg.crypto, p, o).1 == Flush(cfg.crypto, p.mem, o).1
    ensures AddProc(cfg, p, tx, o).mem == AddTx(cfg, p.mem, tx, o).0
  {
  }

  /** The barrier's flush and the final one: on failure Run returns. */
  ghost predicate FlushesTo(cfg: Config, p: Proc, o: FlushOutcome, next: Control, p': Proc) {
    && CanSend(p, o)
    && var (q, ok) := FlushProc(cfg.crypto, p, o);
       p' == q.(control := if ok then next else Halted)
  }

  /** The next step: passed over when an earlier run completed it, given up when the writer has failed. */
  function TakeUp(p: Proc): Proc
    requires p.next < |p.steps|
  {
    var q := p.(next := p.next + 1);
    if p.steps[p.next] in p.completed then q
    else if p.mem.failed then q.(control := Halted)
    else q.(control := Emitting(p.steps[p.next]), stepStart := |p.produced|, stepTxs := [])
  }

  ghost predicate Produces(cfg: Config, p: Proc, ev: Event, p': Proc) {
    match ev
    case BeginStep => p.control == Ready && p.next < |p.steps| && p' == TakeUp(p)
    case Add(tx, o) => p.control.Emitting? && CanSend(p, o) && p' == AddProc(cfg, p, tx, o)
    case StepFails => p.control.Emitting? && p' == p.(control := Halted)
    case EndStep(o) => p.control.Emitting? && FlushesTo(cfg, p, o, Barrier(p.control.step), p')
    case StopWriter =>
      // Closing the channel waits until the writer has taken everything.
      && p.mem.queue == [] && p.saving.None?
      && (p.control.Barrier? || p.control.Finishing?)
      && p' == p.(control := if p.mem.failed then Halted else if p.control.Finishing? then Stopped else Drained(p.control.step))
    case CheckCounts =>
      p.control.Drained? &&
      p' == p.(control := if p.mem.accepted != p.mem.total then Halted else Checked(p.control.step))
    case Finish(o) =>
      p.control == Ready && p.next == |p.steps| &&
      if p.mem.buffer == [] then p' == p.(control := Finishing) else FlushesTo(cfg, p, o, Finishing, p')
    case _ => false
  }

  /** Recording the step, or failing to and returning. */
  ghost predicate Records(s: State, ok: bool, s': State) {
    && s.proc.Some? && s.proc.value.control.Checked?
    && var p := s.proc.value;
       if ok then
         s' == s.(disk := s.disk.(progress := s.disk.progress + {p.control.step}),
                  proc := Some(p.(control := Ready)),
                  emitted := s.emitted[p.control.step := Emission(p.stepStart, |s.durable|, p.stepTxs)])
       else s' == s.(proc := Some(p.(control := Halted)))
  }

  /** A resumed run that flushed nothing reads its final state back. Queries that fail are passed over. */
  ghost predicate Recovers(s: State, answered: bool, hashRead: bool, s': State) {
    && s.proc.Some? && s.proc.value.control == Stopped
    && var p := s.proc.value;
       if p.mem.final.height == 0 && p.resume && answered && s.disk.app != {} then
         exists h, a :: IsLatest(s.disk.app, h, a) &&
           s' == s.(proc := Some(p.(control := Done, mem := if h > 0 then Recovered(s.disk, p.mem, h, a, hashRead) else p.mem)))
       else s' == s.(proc := Some(p.(control := Done)))
  }

  ghost predicate IsLatest(app: set<(int, Bytes)>, h: int, a: Bytes) {
    (h, a) in app && forall x :: x in app ==> x.0 <= h
  }

  // ---------------------------------------------------------------- the block writer

  ghost predicate CanWrite(s: State) {
    s.proc.Some? && s.proc.value.mem.queue != [] && s.proc.value.saving.None? && !s.proc.value.mem.failed
  }

  function Taken(p: Proc): Proc
    requires p.mem.queue != []
  {
    p.(mem := p.mem.(queue := p.mem.queue[1..]))
  }

  ghost predicate Commits(cfg: Config, s: State, s': State) {
    && CanWrite(s)
    && var p := s.proc.value;
       var pb := p.mem.queue[0];
       && Fits(s.disk, pb)
       && s' == s.(disk := Committed(s.disk, pb), durable := s.durable + [pb.block.txs],
                   proc := Some(Taken(p).(saving := if cfg.useStore then Some(pb) else None)))
  }

  /** A database error, before the commit or after it took effect. The writer stops for good. */
  ghost predicate FailsToCommit(s: State, landed: bool, s': State) {
    && CanWrite(s)
    && var p := s.proc.value;
       var pb := p.mem.queue[0];
       var failed := Some(Taken(p).(mem := Taken(p).mem.(failed := true)));
       && (landed ==> Fits(s.disk, pb))
       && s' == if landed
                then s.(disk := Committed(s.disk, pb), durable := s.durable + [pb.block.txs], proc := failed)
                else s.(proc := failed)
  }

  ghost predicate Saves(s: State, s': State) {
    && s.proc.Some? && s.proc.value.saving.Some?
    && var p := s.proc.value;
       var pb := p.saving.value;
       // SaveBlock panics on a gap: the process dies.
       s' == if Contiguous(s.disk, pb.height)
             then s.(disk := Saved(s.disk, pb), saved := s.saved + 1, proc := Some(p.(saving := None)))
             else s.(proc := None)
  }

  /** After a failure the writer only drains the channel. */
  ghost predicate Discards(s: State, s': State) {
    && s.proc.Some? && s.proc.value.mem.failed && s.proc.value.mem.queue != []
    && s' == s.(proc := Some(Taken(s.proc.value)))
  }

  ghost predicate Step(cfg: Config, s: State, ev: Event, s': State) {
    match ev
    case StartRun(resume, steps) => s.proc.None? && Starts(cfg, s, resume, steps, s')
    case Record(ok) => Records(s, ok, s')
    case Recover(answered, hashRead) => Recovers(s, answered, hashRead, s')
    case CommitBlock => Commits(cfg, s, s')
    case CommitFails(landed) => FailsToCommit(s, landed, s')
    case SaveBlock => Saves(s, s')
    case Discard => Discards(s, s')
    case Crash => s' == s.(proc := None)
    case _ => ProducerStep(cfg, s, ev, s')
  }

  ghost predicate ProducerStep(cfg: Config, s: State, ev: Event, s': State) {
    && s.proc.Some? && s'.proc.Some?
    && Produces(cfg, s.proc.value, ev, s'.proc.value)
    && s' == s.(proc := s'.proc)
  }

  /** A run from the empty database: states[i] -- events[i] --> states[i + 1]. */
  ghost predicate IsRun(cfg: Config, states: seq<State>, events: seq<Event>) {
    && |states| == |events| + 1
    && states[0] == Init()
    && forall i :: 0 <= i < |events| ==> Step(cfg, states[i], events[i], states[i + 1])
  }

  // ---------------------------------------------------------------- what every run keeps

  ghost predicate Queued(c: Crypto, chain: seq<Block>, from: nat, queue: seq<Pending>) {
    && from + |queue| == |chain|
    && forall i :: 0 <= i < |queue| ==> queue[i] == PendingOf(c, chain[from + i])
  }

  function ChainFor(cfg: Config, lists: seq<seq<Tx>>): seq<Block> { Chain(cfg.crypto, cfg.genesis, lists) }

  function TipFor(cfg: Config, lists: seq<seq<Tx>>): Tip { TipAfter(cfg.crypto, cfg.genesis, lists) }

  /** The run's tip continues everything produced, and the durable blocks are a prefix of that. */
  ghost predicate LinksInv(cfg: Config, p: Proc, durable: seq<seq<Tx>>, saved: nat) {
    && durable <= p.produced
    && p.mem.tip == TipFor(cfg, p.produced)
    && (!p.mem.failed ==> Queued(cfg.crypto, ChainFor(cfg, p.produced), |durable|, p.mem.queue))
    && |p.mem.queue| + (if p.saving.Some? then 1 else 0) <= QUEUE_CAPACITY + 1
    && SavingInv(cfg, p, durable, saved)
  }

  ghost predicate SavingInv(cfg: Config, p: Proc, durable: seq<seq<Tx>>, saved: nat) {
    && (p.saving.Some? ==>
          && !p.mem.failed && cfg.useStore && |durable| == saved + 1
          && p.saving.value == PendingOf(cfg.crypto, At(ChainFor(cfg, durable), |durable|)))
    && (p.saving.None? && !p.mem.failed && cfg.useStore ==> saved == |durable|)
  }

  ghost predicate CountsInv(p: Proc) {
    && p.base <= |p.produced|
    && p.mem.accepted == p.mem.total + |p.mem.buffer|
    && p.mem.total == |Flat(p.produced[p.base..])|
    && p.mem.blocks == |p.produced| - p.base
  }

  /** The blocks since the step began and the buffer are what the step has emitted. */
  ghost predicate StepSoFar(p: Proc) {
    p.stepStart <= |p.produced| && Flat(p.produced[p.stepStart..]) + p.mem.buffer == p.stepTxs
  }

  ghost predicate Settled(p: Proc, durable: seq<seq<Tx>>) {
    !p.mem.failed && p.saving.None? && durable == p.produced
  }

  ghost predicate ControlInv(p: Proc, durable: seq<seq<Tx>>) {
    && (p.control.Emitting? || p.control.Barrier? || p.control.Drained? || p.control.Checked? ==> StepSoFar(p))
    && (!p.control.Emitting? && !p.control.Halted? ==> p.mem.buffer == [])
    && (p.control.Drained? || p.control.Checked? || p.control.Stopped? || p.control.Done? ==> Settled(p, durable))
  }

  function FinalOf(cfg: Config, lists: seq<seq<Tx>>): Final
    requires lists != []
  {
    Final(|lists|, AppHash(cfg.crypto, lists[|lists| - 1]), Some(cfg.genesis + |lists| - 1))
  }

  /** The final state of a resumed run before it flushes a block: only the time is known. */
  function NothingFlushed(cfg: Config, lists: seq<seq<Tx>>): Final
    requires lists != []
  {
    Final(0, [], FinalOf(cfg, lists).time)
  }

  ghost predicate FinalInv(cfg: Config, p: Proc) {
    && (p.base > 0 ==> p.resume)
    && (if |p.produced| > p.base then p.mem.final == FinalOf(cfg, p.produced)
        else if p.produced == [] then p.mem.final == Final(0, [], None)
        else (p.control == Done && p.mem.final == FinalOf(cfg, p.produced)) || p.mem.final == NothingFlushed(cfg, p.produced))
  }

  ghost predicate ProcInv(cfg: Config, p: Proc, durable: seq<seq<Tx>>, saved: nat) {
    LinksInv(cfg, p, durable, saved) && CountsInv(p) && ControlInv(p, durable) && FinalInv(cfg, p)
  }

  /** A checkpointed step's transactions are exactly those of a range of durable blocks. */
  ghost predicate EmittedInv(progress: set<string>, durable: seq<seq<Tx>>, emitted: map<string, Emission>) {
    && progress == emitted.Keys
    && forall step :: step in emitted ==> InBlocks(durable, emitted[step])
  }

  ghost predicate InBlocks(durable: seq<seq<Tx>>, e: Emission) {
    e.from <= e.to <= |durable| && Flat(durable[e.from..e.to]) == e.txs
  }

  ghost predicate StoreInv(cfg: Config, durable: seq<seq<Tx>>, saved: nat) {
    if cfg.useStore then saved <= |durable| <= saved + 1 else saved == 0
  }

  ghost predicate Inv(cfg: Config, s: State) {
    && Holds(cfg.crypto, s.disk, ChainFor(cfg, s.durable), s.saved)
    && StoreInv(cfg, s.durable, s.saved)
    && EmittedInv(s.disk.progress, s.durable, s.emitted)
    && (s.proc.Some? ==> ProcInv(cfg, s.proc.value, s.durable, s.saved))
  }

  // ---------------------------------------------------------------- the producer keeps it

  lemma FlushLinks(cfg: Config, p: Proc, durable: seq<seq<Tx>>, saved: nat)
    requires LinksInv(cfg, p, durable, saved) && p.mem.buffer != [] && CanSend(p, Sent)
    ensures LinksInv(cfg, FlushProc(cfg.crypto, p, Sent).0, durable, saved)
  {
    var q := FlushProc(cfg.crypto, p, Sent).0;
    ChainAppend(cfg.crypto, cfg.genesis, p.produced, p.mem.buffer);
    assert durable <= q.produced;
    if !p.mem.failed {
      QueueAppend(cfg.crypto, ChainFor(cfg, p.produced), |durable|, p.mem.queue, NextBlock(p.mem.tip, p.mem.buffer));
    }
  }

  lemma QueueAppend(c: Crypto, chain: seq<Block>, from: nat, queue: seq<Pending>, b: Block)
    requires Queued(c, chain, from, queue)
    ensures Queued(c, chain + [b], from, queue + [PendingOf(c, b)])
  {
  }

  lemma FlushCounts(cfg: Config, p: Proc)
    requires CountsInv(p) && p.mem.buffer != []
    ensures CountsInv(FlushProc(cfg.crypto, p, Sent).0)
  {
    FlatFrom(p.produced, p.base, p.mem.buffer);
  }

  lemma FlushSteps(cfg: Config, p: Proc)
    requires StepSoFar(p) && p.mem.buffer != []
    ensures StepSoFar(FlushProc(cfg.crypto, p, Sent).0)
  {
    FlatFrom(p.produced, p.stepStart, p.mem.buffer);
  }

  lemma FlushFinal(cfg: Config, p: Proc)
    requires FinalInv(cfg, p) && p.mem.tip == TipFor(cfg, p.produced) && p.base <= |p.produced| && p.mem.buffer != []
    ensures FinalInv(cfg, FlushProc(cfg.crypto, p, Sent).0)
  {
    TipHeight(cfg.crypto, cfg.genesis, p.produced);
    var q := FlushProc(cfg.crypto, p, Sent).0;
    assert q.produced[|q.produced| - 1] == p.mem.buffer;
  }

  lemma FlushKeeps(cfg: Config, p: Proc, o: FlushOutcome, durable: seq<seq<Tx>>, saved: nat)
    requires ProcInv(cfg, p, durable, saved) && CanSend(p, o) && (p.control.Emitting? || p.control.Ready?)
    ensures ProcInv(cfg, FlushProc(cfg.crypto, p, o).0, durable, saved)
    ensures FlushProc(cfg.crypto, p, o).1 ==> FlushProc(cfg.crypto, p, o).0.mem.buffer == []
  {
    if p.mem.buffer != [] && o == Sent {
      FlushLinks(cfg, p, durable, saved);
      FlushCounts(cfg, p);
      FlushSteps(cfg, p);
      FlushFinal(cfg, p);
    }
  }

  lemma BufferKeeps(cfg: Config, p: Proc, tx: Tx, durable: seq<seq<Tx>>, saved: nat)
    requires ProcInv(cfg, p, durable, saved) && p.control.Emitting?
    ensures ProcInv(cfg, p.(mem := Buffered(p.mem, tx), stepTxs := p.stepTxs + [tx]), durable, saved)
  {
    var before := Flat(p.produced[p.stepStart..]);
    assert before + (p.mem.buffer + [tx]) == (before + p.mem.buffer) + [tx];
  }

  lemma AddKeeps(cfg: Config, p: Proc, tx: Tx, o: FlushOutcome, durable: seq<seq<Tx>>, saved: nat)
    requires ProcInv(cfg, p, durable, saved) && CanSend(p, o) && p.control.Emitting?
    ensures ProcInv(cfg, AddProc(cfg, p, tx, o), durable, saved)
  {
    if !p.mem.failed {
      var q := p.(mem := Buffered(p.mem, tx), stepTxs := p.stepTxs + [tx]);
      BufferKeeps(cfg, p, tx, durable, saved);
      if Full(cfg, q.mem) {
        FlushKeeps(cfg, q, o, durable, saved);
      }
    }
  }

  /** Entering the next control state needs what that state promises. */
  lemma MoveKeeps(cfg: Config, p: Proc, next: Control, durable: seq<seq<Tx>>, saved: nat)
    requires ProcInv(cfg, p, durable, saved) && ControlInv(p.(control := next), durable) && next != Done && p.control != Done
    ensures ProcInv(cfg, p.(control := next), durable, saved)
  {
  }

  /** A drained channel and no failure mean that everything produced is durable. */
  lemma DrainedIsSettled(cfg: Config, p: Proc, durable: seq<seq<Tx>>, saved: nat)
    requires LinksInv(cfg, p, durable, saved) && p.mem.queue == [] && p.saving.None? && !p.mem.failed
    ensures Settled(p, durable)
  {
    assert |durable| == |p.produced|;
    assert durable == p.produced[..|durable|];
  }

  lemma BeginKeeps(cfg: Config, p: Proc, step: string, next: nat, durable: seq<seq<Tx>>, saved: nat)
    requires ProcInv(cfg, p, durable, saved) && p.control == Ready
    ensures ProcInv(cfg, p.(next := next, control := Emitting(step), stepStart := |p.produced|, stepTxs := []), durable, saved)
  {
    assert p.produced[|p.produced|..] == [];
  }

  lemma PassKeeps(cfg: Config, p: Proc, next: nat, durable: seq<seq<Tx>>, saved: nat)
    requires ProcInv(cfg, p, durable, saved)
    ensures ProcInv(cfg, p.(next := next), durable, saved)
  {
  }

  lemma FlushedControl(p: Proc, step: string, ok: bool, durable: seq<seq<Tx>>)
    requires ControlInv(p, durable) && p.control.Emitting? && (ok ==> p.mem.buffer == [])
    ensures ControlInv(p.(control := if ok then Barrier(step) else Halted), durable)
  {
  }

  lemma EndStepKeeps(cfg: Config, p: Proc, o: FlushOutcome, p': Proc, durable: seq<seq<Tx>>, saved: nat)
    requires ProcInv(cfg, p, durable, saved) && p.control.Emitting? && FlushesTo(cfg, p, o, Barrier(p.control.step), p')
    ensures ProcInv(cfg, p', durable, saved)
  {
    FlushKeeps(cfg, p, o, durable, saved);
    FlushedControl(FlushProc(cfg.crypto, p, o).0, p.control.step, FlushProc(cfg.crypto, p, o).1, durable);
    MoveKeeps(cfg, FlushProc(cfg.crypto, p, o).0, p'.control, durable, saved);
  }

  lemma StopKeeps(cfg: Config, p: Proc, p': Proc, durable: seq<seq<Tx>>, saved: nat)
    requires ProcInv(cfg, p, durable, saved) && Produces(cfg, p, StopWriter, p')
    ensures ProcInv(cfg, p', durable, saved)
  {
    if !p.mem.failed {
      DrainedIsSettled(cfg, p, durable, saved);
    }
    MoveKeeps(cfg, p, p'.control, durable, saved);
  }

  lemma BeginStepKeeps(cfg: Config, p: Proc, p': Proc, durable: seq<seq<Tx>>, saved: nat)
    requires ProcInv(cfg, p, durable, saved) && Produces(cfg, p, BeginStep, p')
    ensures ProcInv(cfg, p', durable, saved)
  {
    PassKeeps(cfg, p, p'.next, durable, saved);
    BeginKeeps(cfg, p, p.steps[p.next], p'.next, durable, saved);
    MoveKeeps(cfg, p.(next := p'.next), Halted, durable, saved);
  }

  lemma CheckKeeps(cfg: Config, p: Proc, p': Proc, durable: seq<seq<Tx>>, saved: nat)
    requires ProcInv(cfg, p, durable, saved) && Produces(cfg, p, CheckCounts, p')
    ensures ProcInv(cfg, p', durable, saved) && p'.control.Checked?
  {
    MoveKeeps(cfg, p, p'.control, durable, saved);
  }

  lemma FinishKeeps(cfg: Config, p: Proc, o: FlushOutcome, p': Proc, durable: seq<seq<Tx>>, saved: nat)
    requires ProcInv(cfg, p, durable, saved) && Produces(cfg, p, Finish(o), p')
    ensures ProcInv(cfg, p', durable, saved) && p' == p.(control := Finishing)
  {
    MoveKeeps(cfg, p, Finishing, durable, saved);
  }

  lemma ProducesKeeps(cfg: Config, p: Proc, ev: Event, p': Proc, durable: seq<seq<Tx>>, saved: nat)
    requires ProcInv(cfg, p, durable, saved) && Produces(cfg, p, ev, p')
    ensures ProcInv(cfg, p', durable, saved)
  {
    match ev {
      case BeginStep => BeginStepKeeps(cfg, p, p', durable, saved);
      case Add(tx, o) => AddKeeps(cfg, p, tx, o, durable, saved);
      case StepFails => MoveKeeps(cfg, p, Halted, durable, saved);
      case EndStep(o) => EndStepKeeps(cfg, p, o, p', durable, saved);
      case StopWriter => StopKeeps(cfg, p, p', durable, saved);
      case CheckCounts => CheckKeeps(cfg, p, p', durable, saved);
      case Finish(o) => FinishKeeps(cfg, p, o, p', durable, saved);
    }
  }
}
