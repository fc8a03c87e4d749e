/**
 What every run of the genesis writer keeps, over all interleavings, writer failures, crashes and
 resumes (cmd/genesis-writer/writer.go).
 */
module GenesisSafety {
  import opened GenesisChain
  import opened GenesisState
  import opened GenesisMachine
  import opened Options

  // ---------------------------------------------------------------- the block writer keeps it

  /** The block at the head of the queue is the one that follows the durable ones. */
  lemma NextDurable(cfg: Config, p: Proc, durable: seq<seq<Tx>>, saved: nat)
    requires LinksInv(cfg, p, durable, saved) && !p.mem.failed && p.mem.queue != []
    ensures |durable| < |p.produced|
    ensures var b := NextBlock(TipFor(cfg, durable), p.produced[|durable|]);
            && p.mem.queue[0] == PendingOf(cfg.crypto, b)
            && b.height == |durable| + 1
            && ChainFor(cfg, durable + [b.txs]) == ChainFor(cfg, durable) + [b]
            && durable + [b.txs] <= p.produced
  {
    var n := |durable|;
    assert durable == p.produced[..n];
    ChainAt(cfg.crypto, cfg.genesis, p.produced, n);
    TipHeight(cfg.crypto, cfg.genesis, durable);
    ChainAppend(cfg.crypto, cfg.genesis, durable, p.produced[n]);
  }

  lemma QueueTail(c: Crypto, chain: seq<Block>, from: nat, queue: seq<Pending>)
    requires Queued(c, chain, from, queue) && queue != []
    ensures Queued(c, chain, from + 1, queue[1..])
  {
    forall i | 0 <= i < |queue[1..]| ensures queue[1..][i] == PendingOf(c, chain[from + 1 + i]) {
      assert queue[1..][i] == queue[i + 1];
      assert from + 1 + i == from + (i + 1);
    }
  }

  /** The writer changes nothing of the producer's but the queue and the failure flag. */
  ghost predicate SameProducer(p: Proc, q: Proc) {
    && q.mem == p.mem.(queue := q.mem.queue, failed := q.mem.failed)
    && q == p.(mem := q.mem, saving := q.saving)
  }

  ghost predicate Moving(p: Proc) {
    !p.control.Drained? && !p.control.Checked? && !p.control.Stopped? && !p.control.Done?
  }

  lemma ConsumerKeeps(cfg: Config, p: Proc, q: Proc, durable: seq<seq<Tx>>, saved: nat, durable': seq<seq<Tx>>, saved': nat)
    requires ProcInv(cfg, p, durable, saved) && SameProducer(p, q) && Moving(p)
    requires LinksInv(cfg, q, durable', saved')
    ensures ProcInv(cfg, q, durable', saved')
  {
  }

  /** Work left for the writer means that the producer is not past a barrier. */
  lemma BusyIsMoving(cfg: Config, p: Proc, durable: seq<seq<Tx>>, saved: nat)
    requires ProcInv(cfg, p, durable, saved)
    requires p.mem.failed || p.saving.Some? || p.mem.queue != []
    ensures Moving(p)
  {
    if !p.mem.failed && p.mem.queue != [] {
      NextDurable(cfg, p, durable, saved);
    }
  }

  /** More durable blocks leave every checkpointed range as it was. */
  lemma EmittedGrows(progress: set<string>, durable: seq<seq<Tx>>, emitted: map<string, Emission>, txs: seq<Tx>)
    requires EmittedInv(progress, durable, emitted)
    ensures EmittedInv(progress, durable + [txs], emitted)
  {
    forall step | step in emitted ensures InBlocks(durable + [txs], emitted[step]) {
      var e := emitted[step];
      assert InBlocks(durable, e);
      assert (durable + [txs])[e.from..e.to] == durable[e.from..e.to];
    }
  }

  /** The process after the head of the queue became durable. */
  lemma TakenLinks(cfg: Config, p: Proc, q: Proc, durable: seq<seq<Tx>>, saved: nat)
    requires LinksInv(cfg, p, durable, saved) && !p.mem.failed && p.mem.queue != [] && p.saving.None?
    requires SameProducer(p, q) && q.mem.queue == p.mem.queue[1..]
    requires q.saving.Some? ==> q.saving.value == p.mem.queue[0] && cfg.useStore && !q.mem.failed
    requires q.saving.None? ==> !cfg.useStore || q.mem.failed
    ensures LinksInv(cfg, q, durable + [p.mem.queue[0].block.txs], saved)
  {
    NextDurable(cfg, p, durable, saved);
    QueueTail(cfg.crypto, ChainFor(cfg, p.produced), |durable|, p.mem.queue);
    var durable' := durable + [p.mem.queue[0].block.txs];
    var b := NextBlock(TipFor(cfg, durable), p.produced[|durable|]);
    assert At(ChainFor(cfg, durable'), |durable'|) == b;
  }

  lemma CommitDisk(cfg: Config, s: State)
    requires Inv(cfg, s) && CanWrite(s)
    ensures var pb := s.proc.value.mem.queue[0];
            var durable' := s.durable + [pb.block.txs];
            && Fits(s.disk, pb)
            && Holds(cfg.crypto, Committed(s.disk, pb), ChainFor(cfg, durable'), s.saved)
            && EmittedInv(Committed(s.disk, pb).progress, durable', s.emitted)
            && |durable'| == |s.durable| + 1
  {
    var p := s.proc.value;
    NextDurable(cfg, p, s.durable, s.saved);
    var b := NextBlock(TipFor(cfg, s.durable), p.produced[|s.durable|]);
    CommittedHolds(cfg.crypto, s.disk, ChainFor(cfg, s.durable), s.saved, b);
    EmittedGrows(s.disk.progress, s.durable, s.emitted, b.txs);
  }

  lemma CommitKeeps(cfg: Config, s: State, s': State)
    requires Inv(cfg, s) && Commits(cfg, s, s')
    ensures Inv(cfg, s')
  {
    var p, q := s.proc.value, s'.proc.value;
    CommitDisk(cfg, s);
    BusyIsMoving(cfg, p, s.durable, s.saved);
    TakenLinks(cfg, p, q, s.durable, s.saved);
    ConsumerKeeps(cfg, p, q, s.durable, s.saved, s'.durable, s.saved);
  }

  lemma FailKeeps(cfg: Config, s: State, landed: bool, s': State)
    requires Inv(cfg, s) && FailsToCommit(s, landed, s')
    ensures Inv(cfg, s')
  {
    var p, q := s.proc.value, s'.proc.value;
    BusyIsMoving(cfg, p, s.durable, s.saved);
    if landed {
      CommitDisk(cfg, s);
      TakenLinks(cfg, p, q, s.durable, s.saved);
    }
    ConsumerKeeps(cfg, p, q, s.durable, s.saved, s'.durable, s.saved);
  }

  /** The blockstore never sees a gap: SaveBlock never panics. */
  lemma SaveKeeps(cfg: Config, s: State, s': State)
    requires Inv(cfg, s) && Saves(s, s')
    ensures Inv(cfg, s') && s'.proc.Some? && s'.saved == |s'.durable|
  {
    var p := s.proc.value;
    var n := |s.durable|;
    ChainIsLinked(cfg.crypto, cfg.genesis, s.durable);
    assert LinkedAt(cfg.crypto, cfg.genesis, ChainFor(cfg, s.durable), n - 1);
    SavedHolds(cfg.crypto, s.disk, ChainFor(cfg, s.durable), s.saved);
    BusyIsMoving(cfg, p, s.durable, s.saved);
    ConsumerKeeps(cfg, p, p.(saving := None), s.durable, s.saved, s.durable, s.saved + 1);
  }

  lemma DiscardKeeps(cfg: Config, s: State, s': State)
    requires Inv(cfg, s) && Discards(s, s')
    ensures Inv(cfg, s')
  {
    var p, q := s.proc.value, s'.proc.value;
    BusyIsMoving(cfg, p, s.durable, s.saved);
    ConsumerKeeps(cfg, p, q, s.durable, s.saved, s.durable, s.saved);
  }

  // ---------------------------------------------------------------- checkpoints and the end of a run

  /** A checked step's emission is the range of blocks since it began. */
  lemma CheckedIsDurable(p: Proc, durable: seq<seq<Tx>>)
    requires ControlInv(p, durable) && p.control.Checked?
    ensures InBlocks(durable, Emission(p.stepStart, |durable|, p.stepTxs))
  {
    assert durable[p.stepStart..|durable|] == p.produced[p.stepStart..];
  }

  lemma EmittedAdd(progress: set<string>, durable: seq<seq<Tx>>, emitted: map<string, Emission>, step: string, e: Emission)
    requires EmittedInv(progress, durable, emitted) && InBlocks(durable, e)
    ensures EmittedInv(progress + {step}, durable, emitted[step := e])
  {
  }

  lemma RecordKeeps(cfg: Config, s: State, ok: bool, s': State)
    requires Inv(cfg, s) && Records(s, ok, s')
    ensures Inv(cfg, s')
  {
    var p := s.proc.value;
    var next := if ok then Ready else Halted;
    assert ControlInv(p.(control := next), s.durable);
    MoveKeeps(cfg, p, next, s.durable, s.saved);
    CheckedIsDurable(p, s.durable);
    EmittedAdd(s.disk.progress, s.durable, s.emitted, p.control.step, Emission(p.stepStart, |s.durable|, p.stepTxs));
  }

  lemma LatestIsLast(c: Crypto, chain: seq<Block>, h: int, a: Bytes)
    requires IsLatest(AppOf(c, chain), h, a)
    ensures h == |chain| > 0 && a == AppHash(c, At(chain, h).txs)
  {
    AppRow(c, chain, h, a);
    assert (|chain|, AppHash(c, At(chain, |chain|).txs)) in AppOf(c, chain);
  }

  /** What the recovery reads back is what the last flush would have left. */
  lemma RecoveredIsFinal(cfg: Config, s: State, h: int, a: Bytes, hashRead: bool)
    requires Inv(cfg, s) && s.proc.Some? && s.proc.value.control == Stopped
    requires s.proc.value.mem.final.height == 0 && IsLatest(s.disk.app, h, a)
    ensures h > 0 && s.durable != []
    ensures Recovered(s.disk, s.proc.value.mem, h, a, hashRead) == s.proc.value.mem.(final := FinalOf(cfg, s.durable))
  {
    var p := s.proc.value;
    var chain := ChainFor(cfg, s.durable);
    LatestIsLast(cfg.crypto, chain, h, a);
    ChainIsLinked(cfg.crypto, cfg.genesis, s.durable);
    assert At(chain, h).txs == s.durable[h - 1];
    assert s.durable[..h] == s.durable;
    TipFollowsLast(cfg.crypto, cfg.genesis, s.durable, h);
    HexRoundTrip(cfg.crypto.blockHash(At(chain, h)));
  }

  /** What the recovery leaves: the last block's state if the query is answered, and otherwise what was there. */
  lemma RecoverGives(cfg: Config, s: State, answered: bool, hashRead: bool, s': State)
    requires Inv(cfg, s) && Recovers(s, answered, hashRead, s')
    ensures s.durable == s.proc.value.produced
    ensures var p := s.proc.value;
            s' == s.(proc := Some(p.(control := Done,
              mem := if p.mem.blocks == 0 && s.durable != [] && answered then p.mem.(final := FinalOf(cfg, s.durable)) else p.mem)))
  {
    var p := s.proc.value;
    if p.mem.final.height == 0 && p.resume && answered && s.disk.app != {} {
      var h, a :| IsLatest(s.disk.app, h, a) &&
        s' == s.(proc := Some(p.(control := Done, mem := if h > 0 then Recovered(s.disk, p.mem, h, a, hashRead) else p.mem)));
      RecoveredIsFinal(cfg, s, h, a, hashRead);
    } else if p.produced != [] {
      var n := |s.durable|;
      assert (n, AppHash(cfg.crypto, At(ChainFor(cfg, s.durable), n).txs)) in s.disk.app;
    }
  }

  lemma RecoverKeeps(cfg: Config, s: State, answered: bool, hashRead: bool, s': State)
    requires Inv(cfg, s) && Recovers(s, answered, hashRead, s')
    ensures Inv(cfg, s')
  {
    RecoverGives(cfg, s, answered, hashRead, s');
  }

  // ---------------------------------------------------------------- starting and resuming

  lemma NewProcInv(cfg: Config, s: State, m: Mem, resume: bool, completed: set<string>, steps: seq<string>)
    requires Inv(cfg, s) && m == FreshMem(TipFor(cfg, s.durable), m.final.time)
    requires cfg.useStore ==> s.saved == |s.durable|
    requires s.durable != [] ==> resume && m.final.time == FinalOf(cfg, s.durable).time
    requires s.durable == [] ==> m.final.time == None
    ensures ProcInv(cfg, NewProc(m, resume, completed, steps, s.durable), s.durable, s.saved)
  {
    assert s.durable[|s.durable|..] == [];
  }

  /** The tail is there exactly when the blockstore has the last durable block. */
  lemma TailIsSaved(cfg: Config, s: State)
    requires Inv(cfg, s)
    ensures HasTail(cfg, s.disk, |s.durable|) <==> s.durable == [] || (cfg.useStore && s.saved == |s.durable|)
  {
    var n := |s.durable|;
    if n > 0 {
      AppRow(cfg.crypto, ChainFor(cfg, s.durable), n, AppHash(cfg.crypto, At(ChainFor(cfg, s.durable), n).txs));
      assert n in s.disk.store <==> n <= s.saved;
    }
  }

  /** What resume computes from the last block is the tip of an uninterrupted run. */
  lemma TipFromLast(cfg: Config, lists: seq<seq<Tx>>, n: nat, b: Block)
    requires n == |lists| > 0 && b == At(ChainFor(cfg, lists), n)
    ensures TipFor(cfg, lists) == ResumeTip(cfg, Stored(b, CommitOf(cfg.crypto, b)), n, AppHash(cfg.crypto, b.txs))
    ensures Some(b.time) == FinalOf(cfg, lists).time
  {
    assert lists[..n] == lists;
    TipFollowsLast(cfg.crypto, cfg.genesis, lists, n);
    ChainIsLinked(cfg.crypto, cfg.genesis, lists);
    assert LinkedAt(cfg.crypto, cfg.genesis, ChainFor(cfg, lists), n - 1);
  }

  lemma StoredTail(c: Crypto, d: Disk, chain: seq<Block>, n: nat)
    requires Holds(c, d, chain, n) && n == |chain| > 0
    ensures n in d.store && d.store[n] == Stored(At(chain, n), CommitOf(c, At(chain, n)))
  {
  }

  /** What resume rebuilds is what an uninterrupted run would hold. */
  lemma ResumedIsContinuous(cfg: Config, s: State, n: nat, a: Bytes)
    requires Holds(cfg.crypto, s.disk, ChainFor(cfg, s.durable), n) && n == |s.durable| > 0 && (n, a) in s.disk.app
    ensures n in s.disk.store
    ensures Resumed(cfg, s.disk, n, a) == FreshMem(TipFor(cfg, s.durable), FinalOf(cfg, s.durable).time)
  {
    var chain := ChainFor(cfg, s.durable);
    AppRow(cfg.crypto, chain, n, a);
    StoredTail(cfg.crypto, s.disk, chain, n);
    TipFromLast(cfg, s.durable, n, At(chain, n));
  }

  lemma ResumeKeeps(cfg: Config, s: State, steps: seq<string>, s': State)
    requires Inv(cfg, s) && s.proc.None? && Starts(cfg, s, true, steps, s')
    ensures Inv(cfg, s') && s' == s.(proc := s'.proc)
    ensures s'.proc.Some? <==> s.durable == [] || (cfg.useStore && s.saved == |s.durable|)
    ensures s'.proc.Some? ==> s'.proc.value.mem.tip == TipFor(cfg, s.durable) && s'.proc.value.completed == s.disk.progress
  {
    var m :| IsMaxHeight(m, s.disk.blocks.Keys) && Resumes(cfg, s, m, steps, s');
    MaxIsLength(cfg.crypto, s.disk, ChainFor(cfg, s.durable), s.saved, m);
    TailIsSaved(cfg, s);
    if HasTail(cfg, s.disk, m) {
      var a :| (m > 0 ==> (m, a) in s.disk.app) &&
        s' == s.(proc := Some(NewProc(Resumed(cfg, s.disk, m, a), true, s.disk.progress, steps, s.durable)));
      if m > 0 {
        ResumedIsContinuous(cfg, s, m, a);
      }
      NewProcInv(cfg, s, s'.proc.value.mem, true, s.disk.progress, steps);
    }
  }

  lemma FreshKeeps(cfg: Config, s: State, steps: seq<string>, s': State)
    requires Inv(cfg, s) && Starts(cfg, s, false, steps, s')
    ensures Inv(cfg, s') && s.durable == []
  {
    MaxIsLength(cfg.crypto, s.disk, ChainFor(cfg, s.durable), s.saved, 0);
    NewProcInv(cfg, s, s'.proc.value.mem, false, {}, steps);
  }

  // ---------------------------------------------------------------- every run

  lemma InitInv(cfg: Config)
    ensures Inv(cfg, Init())
  {
    var s := Init();
    assert s.disk.blocks == BlocksOf(cfg.crypto, []);
    assert s.disk.txs == BatchesOf(cfg.crypto, []);
    assert s.disk.app == AppOf(cfg.crypto, []);
    assert s.disk.store == StoreOf(cfg.crypto, [], 0);
  }

  lemma StartKeeps(cfg: Config, s: State, resume: bool, steps: seq<string>, s': State)
    requires Inv(cfg, s) && s.proc.None? && Starts(cfg, s, resume, steps, s')
    ensures Inv(cfg, s')
  {
    if resume {
      ResumeKeeps(cfg, s, steps, s');
    } else {
      FreshKeeps(cfg, s, steps, s');
    }
  }

  lemma ProducerKeeps(cfg: Config, s: State, ev: Event, s': State)
    requires Inv(cfg, s) && ProducerStep(cfg, s, ev, s')
    ensures Inv(cfg, s')
  {
    ProducesKeeps(cfg, s.proc.value, ev, s'.proc.value, s.durable, s.saved);
  }

  lemma CrashKeeps(cfg: Config, s: State)
    requires Inv(cfg, s)
    ensures Inv(cfg, s.(proc := None))
  {
  }

  lemma WriterKeeps(cfg: Config, s: State, ev: Event, s': State)
    requires Inv(cfg, s) && Step(cfg, s, ev, s')
    requires ev.CommitBlock? || ev.CommitFails? || ev.SaveBlock? || ev.Discard?
    ensures Inv(cfg, s')
  {
    if ev.CommitBlock? {
      CommitKeeps(cfg, s, s');
    } else if ev.CommitFails? {
      FailKeeps(cfg, s, ev.landed, s');
    } else if ev.SaveBlock? {
      SaveKeeps(cfg, s, s');
    } else {
      DiscardKeeps(cfg, s, s');
    }
  }

  lemma RunEventKeeps(cfg: Config, s: State, ev: Event, s': State)
    requires Inv(cfg, s) && Step(cfg, s, ev, s')
    requires ev.StartRun? || ev.Record? || ev.Recover?
    ensures Inv(cfg, s')
  {
    if ev.StartRun? {
      StartKeeps(cfg, s, ev.resume, ev.steps, s');
    } else if ev.Record? {
      RecordKeeps(cfg, s, ev.ok, s');
    } else {
      RecoverKeeps(cfg, s, ev.answered, ev.hashRead, s');
    }
  }

  lemma StepKeeps(cfg: Config, s: State, ev: Event, s': State)
    requires Inv(cfg, s) && Step(cfg, s, ev, s')
    ensures Inv(cfg, s')
  {
    if ev.CommitBlock? || ev.CommitFails? || ev.SaveBlock? || ev.Discard? {
      WriterKeeps(cfg, s, ev, s');
    } else if ev.StartRun? || ev.Record? || ev.Recover? {
      RunEventKeeps(cfg, s, ev, s');
    } else if ev.Crash? {
      CrashKeeps(cfg, s);
    } else {
      ProducerKeeps(cfg, s, ev, s');
    }
  }

  lemma {:induction false} RunKeeps(cfg: Config, states: seq<State>, events: seq<Event>, i: nat)
    requires IsRun(cfg, states, events) && i < |states|
    ensures Inv(cfg, states[i])
    decreases i
  {
    if i == 0 {
      InitInv(cfg);
    } else {
      RunKeeps(cfg, states, events, i - 1);
      StepKeeps(cfg, states[i - 1], events[i - 1], states[i - 1 + 1]);
    }
  }

  // ---------------------------------------------------------------- the chain on disk

  /** The disk alone shows one chain, gapless and linked from genesis, and a blockstore at most one block behind. */
  ghost predicate OneLinkedChain(cfg: Config, d: Disk) {
    exists chain: seq<Block>, saved: nat ::
      && Linked(cfg.crypto, cfg.genesis, chain)
      && Holds(cfg.crypto, d, chain, saved)
      && (if cfg.useStore then |chain| <= saved + 1 else saved == 0)
  }

  lemma EveryRunWritesOneChain(cfg: Config, states: seq<State>, events: seq<Event>, i: nat)
    requires IsRun(cfg, states, events) && i < |states|
    ensures OneLinkedChain(cfg, states[i].disk)
  {
    RunKeeps(cfg, states, events, i);
    ChainIsLinked(cfg.crypto, cfg.genesis, states[i].durable);
    assert Holds(cfg.crypto, states[i].disk, ChainFor(cfg, states[i].durable), states[i].saved);
  }

  lemma ProducerGrows(cfg: Config, s: State, ev: Event, s': State)
    requires ProducerStep(cfg, s, ev, s')
    ensures s.durable == s'.durable && s.saved == s'.saved
  {
  }

  lemma StepGrows(cfg: Config, s: State, ev: Event, s': State)
    requires Step(cfg, s, ev, s')
    ensures s.durable <= s'.durable && s.saved <= s'.saved
  {
    match ev {
      case StartRun(resume, steps) =>
        if resume {
          var m :| IsMaxHeight(m, s.disk.blocks.Keys) && Resumes(cfg, s, m, steps, s');
        }
      case Record(ok) =>
      case Recover(answered, hashRead) =>
      case CommitBlock =>
      case CommitFails(landed) =>
      case SaveBlock =>
      case Discard =>
      case Crash =>
      case _ => ProducerGrows(cfg, s, ev, s');
    }
  }

  ghost predicate Grows(s: State, s': State) { s.durable <= s'.durable && s.saved <= s'.saved }

  lemma GrowsOn(a: State, b: State, c: State)
    requires Grows(a, b) && Grows(b, c)
    ensures Grows(a, c)
  {
  }

  lemma GrowsAt(cfg: Config, states: seq<State>, events: seq<Event>, i: nat)
    requires IsRun(cfg, states, events) && i < |events|
    ensures Grows(states[i], states[i + 1])
  {
    StepGrows(cfg, states[i], events[i], states[i + 1]);
  }

  lemma {:induction false} GrowsAlong(states: seq<State>, i: nat, j: nat)
    requires i <= j < |states| && forall k, n :: 0 <= k && n == k + 1 < |states| ==> Grows(states[k], states[n])
    ensures Grows(states[i], states[j])
    decreases j
  {
    if i < j {
      GrowsAlong(states, i, j - 1);
      GrowsOn(states[i], states[j - 1], states[j]);
    }
  }

  lemma RunGrows(cfg: Config, states: seq<State>, events: seq<Event>, i: nat, j: nat)
    requires IsRun(cfg, states, events) && i <= j < |states|
    ensures Grows(states[i], states[j])
  {
    forall k, n | 0 <= k && n == k + 1 < |states| ensures Grows(states[k], states[n]) {
      GrowsAt(cfg, states, events, k);
    }
    GrowsAlong(states, i, j);
  }

  ghost predicate Extends<T>(m: map<int, T>, m': map<int, T>) { forall h :: h in m ==> h in m' && m'[h] == m[h] }

  lemma TablesExtend(c: Crypto, chain: seq<Block>, chain': seq<Block>)
    requires chain <= chain'
    ensures Extends(BlocksOf(c, chain), BlocksOf(c, chain')) && Extends(BatchesOf(c, chain), BatchesOf(c, chain'))
  {
    forall h | 1 <= h <= |chain| ensures At(chain, h) == At(chain', h) {
      assert chain == chain'[..|chain|];
    }
  }

  lemma StoreExtends(c: Crypto, chain: seq<Block>, saved: nat, chain': seq<Block>, saved': nat)
    requires chain <= chain' && saved <= saved' && saved <= |chain| && saved' <= |chain'|
    ensures Extends(StoreOf(c, chain, saved), StoreOf(c, chain', saved'))
  {
    forall h | 1 <= h <= |chain| ensures At(chain, h) == At(chain', h) {
      assert chain == chain'[..|chain|];
    }
  }

  lemma HeldRowsStay(c: Crypto, d: Disk, chain: seq<Block>, saved: nat, d': Disk, chain': seq<Block>, saved': nat)
    requires Holds(c, d, chain, saved) && Holds(c, d', chain', saved') && chain <= chain' && saved <= saved'
    ensures Extends(d.blocks, d'.blocks) && Extends(d.txs, d'.txs) && Extends(d.store, d'.store)
  {
    TablesExtend(c, chain, chain');
    StoreExtends(c, chain, saved, chain', saved');
  }

  /** No run, crash or resume ever rewrites a block: what one state has on disk every later one has too. */
  lemma NothingIsRewritten(cfg: Config, states: seq<State>, events: seq<Event>, i: nat, j: nat)
    requires IsRun(cfg, states, events) && i <= j < |states|
    ensures var d, d' := states[i].disk, states[j].disk;
            Extends(d.blocks, d'.blocks) && Extends(d.txs, d'.txs) && Extends(d.store, d'.store)
  {
    var s, s' := states[i], states[j];
    RunKeeps(cfg, states, events, i);
    RunKeeps(cfg, states, events, j);
    RunGrows(cfg, states, events, i, j);
    ChainPrefix(cfg.crypto, cfg.genesis, s'.durable, |s.durable|);
    assert s'.durable[..|s.durable|] == s.durable;
    assert ChainFor(cfg, s.durable) <= ChainFor(cfg, s'.durable);
    HeldRowsStay(cfg.crypto, s.disk, ChainFor(cfg, s.durable), s.saved, s'.disk, ChainFor(cfg, s'.durable), s'.saved);
  }

  // ---------------------------------------------------------------- resume

  /**
   A resume goes ahead exactly when nothing was written yet or the blockstore holds the last height, and
   then holds the tip of an uninterrupted run over the durable blocks, skips the checkpointed steps and
   has lost nothing on disk.
   */
  lemma ResumeRestoresTheRun(cfg: Config, states: seq<State>, events: seq<Event>, i: nat, steps: seq<string>, s': State, m: int)
    requires IsRun(cfg, states, events) && i < |states| && Step(cfg, states[i], StartRun(true, steps), s')
    requires IsMaxHeight(m, states[i].disk.blocks.Keys)
    ensures s'.disk == states[i].disk
    ensures s'.proc.Some? <==> m == 0 || (cfg.useStore && m in states[i].disk.store)
    ensures s'.proc.Some? ==>
              && s'.proc.value.mem.tip == TipFor(cfg, states[i].durable)
              && s'.proc.value.produced == states[i].durable
              && s'.proc.value.completed == states[i].disk.progress
  {
    var s := states[i];
    RunKeeps(cfg, states, events, i);
    MaxIsLength(cfg.crypto, s.disk, ChainFor(cfg, s.durable), s.saved, m);
    ResumeKeeps(cfg, s, steps, s');
    assert m in s.disk.store <==> 1 <= m <= s.saved;
    assert s'.proc.Some? ==> ProcInv(cfg, s'.proc.value, s.durable, s.saved);
  }

  /** Two processes of any two runs that have produced the same blocks build the next one the same way. */
  lemma SameBlocksSameTip(cfg: Config, a: seq<State>, ea: seq<Event>, i: nat, b: seq<State>, eb: seq<Event>, j: nat)
    requires IsRun(cfg, a, ea) && i < |a| && IsRun(cfg, b, eb) && j < |b|
    requires a[i].proc.Some? && b[j].proc.Some? && a[i].proc.value.produced == b[j].proc.value.produced
    ensures a[i].proc.value.mem.tip == b[j].proc.value.mem.tip
  {
    RunKeeps(cfg, a, ea, i);
    RunKeeps(cfg, b, eb, j);
  }

  ghost predicate Stuck(cfg: Config, s: State) {
    && s.proc.None? && s.disk.blocks != map[]
    && forall m :: IsMaxHeight(m, s.disk.blocks.Keys) ==> !HasTail(cfg, s.disk, m)
  }

  lemma StuckStays(cfg: Config, s: State, ev: Event, s': State)
    requires Stuck(cfg, s) && Step(cfg, s, ev, s')
    ensures s' == s
  {
    match ev {
      case StartRun(resume, steps) =>
        var m :| IsMaxHeight(m, s.disk.blocks.Keys) && Resumes(cfg, s, m, steps, s');
      case _ =>
    }
  }

  /** A missing blockstore tail makes every later resume refuse: nothing is ever written again. */
  lemma {:induction false} MissingTailRefusesForever(cfg: Config, states: seq<State>, events: seq<Event>, i: nat, j: nat)
    requires IsRun(cfg, states, events) && i <= j < |states| && Stuck(cfg, states[i])
    ensures states[j] == states[i]
    decreases j
  {
    if i < j {
      MissingTailRefusesForever(cfg, states, events, i, j - 1);
      StuckStays(cfg, states[j - 1], events[j - 1], states[j - 1 + 1]);
    }
  }

  /** Without its process a state is stuck exactly when the blockstore lacks the last durable block. */
  lemma StuckExactly(cfg: Config, states: seq<State>, events: seq<Event>, i: nat)
    requires IsRun(cfg, states, events) && i < |states|
    ensures Stuck(cfg, states[i].(proc := None)) <==>
            states[i].durable != [] && (!cfg.useStore || states[i].saved < |states[i].durable|)
  {
    var s := states[i];
    RunKeeps(cfg, states, events, i);
    TailIsSaved(cfg, s);
    MaxIsLength(cfg.crypto, s.disk, ChainFor(cfg, s.durable), s.saved, |s.durable|);
    assert |s.durable| > 0 ==> |s.durable| in s.disk.blocks;
    assert s.durable == [] ==> s.disk.blocks == map[];
    forall m | IsMaxHeight(m, s.disk.blocks.Keys) ensures m == |s.durable| {
      MaxIsLength(cfg.crypto, s.disk, ChainFor(cfg, s.durable), s.saved, m);
    }
  }

  // ---------------------------------------------------------------- checkpoints and counts

  function BytesOf(rows: seq<TxRow>): seq<Tx> { seq(|rows|, i requires 0 <= i < |rows| => rows[i].bytes) }

  /** The transactions in core_transactions of heights lo + 1 to hi, in order. */
  function TxsOnDisk(d: Disk, lo: nat, hi: nat): seq<Tx>
    requires lo <= hi
    decreases hi
  {
    if lo == hi then []
    else TxsOnDisk(d, lo, hi - 1) + (if hi in d.txs then BytesOf(d.txs[hi].rows) else [])
  }

  ghost predicate BatchIs(d: Disk, h: int, txs: seq<Tx>) {
    h in d.txs && BytesOf(d.txs[h].rows) == txs
  }

  lemma BatchOnDisk(cfg: Config, s: State, h: int)
    requires Inv(cfg, s) && 1 <= h <= |s.durable|
    ensures BatchIs(s.disk, h, s.durable[h - 1])
  {
    ChainIsLinked(cfg.crypto, cfg.genesis, s.durable);
    assert At(ChainFor(cfg, s.durable), h).txs == s.durable[h - 1];
    assert BytesOf(RowsOf(cfg.crypto, s.durable[h - 1])) == s.durable[h - 1];
  }

  lemma FlatRange(lists: seq<seq<Tx>>, lo: nat, hi: nat)
    requires lo < hi <= |lists|
    ensures Flat(lists[lo..hi]) == Flat(lists[lo..hi - 1]) + lists[hi - 1]
  {
    assert lists[lo..hi] == lists[lo..hi - 1] + [lists[hi - 1]];
    FlatAppend(lists[lo..hi - 1], lists[hi - 1]);
  }

  lemma {:induction false} TxsAreOnDisk(d: Disk, lists: seq<seq<Tx>>, lo: nat, hi: nat)
    requires lo <= hi <= |lists| && forall i :: 0 <= i < |lists| ==> BatchIs(d, i + 1, lists[i])
    ensures TxsOnDisk(d, lo, hi) == Flat(lists[lo..hi])
    decreases hi
  {
    if lo == hi {
      assert lists[lo..hi] == [];
    } else {
      TxsAreOnDisk(d, lists, lo, hi - 1);
      assert BatchIs(d, hi - 1 + 1, lists[hi - 1]);
      FlatRange(lists, lo, hi);
    }
  }

  /** In every state of every run, all that a checkpointed step emitted is in core_transactions. */
  lemma CheckpointedStepIsDurable(cfg: Config, states: seq<State>, events: seq<Event>, i: nat, step: string)
    requires IsRun(cfg, states, events) && i < |states| && step in states[i].disk.progress
    ensures step in states[i].emitted
    ensures var e := states[i].emitted[step];
            e.from <= e.to && TxsOnDisk(states[i].disk, e.from, e.to) == e.txs
  {
    var s := states[i];
    RunKeeps(cfg, states, events, i);
    assert InBlocks(s.durable, s.emitted[step]);
    forall k | 0 <= k < |s.durable| ensures BatchIs(s.disk, k + 1, s.durable[k]) {
      BatchOnDisk(cfg, s, k + 1);
    }
    TxsAreOnDisk(s.disk, s.durable, s.emitted[step].from, s.emitted[step].to);
  }

  /**
   In every state of every run: accepted transactions are the flushed and the buffered ones, blocks
   written are a prefix of blocks produced, at most five blocks are in flight, and without a writer
   failure those are exactly the difference.
   */
  lemma CountsAgree(cfg: Config, states: seq<State>, events: seq<Event>, i: nat)
    requires IsRun(cfg, states, events) && i < |states| && states[i].proc.Some?
    ensures var p := states[i].proc.value;
            && p.mem.accepted == p.mem.total + |p.mem.buffer|
            && p.base <= |p.produced|
            && p.mem.total == |Flat(p.produced[p.base..])|
            && states[i].durable <= p.produced
            && |p.mem.queue| <= QUEUE_CAPACITY + 1
            && (!p.mem.failed ==> |p.produced| == |states[i].durable| + |p.mem.queue|)
  {
    RunKeeps(cfg, states, events, i);
  }

  /** The lost-transaction check before a checkpoint never fires, and the final flush has nothing to do. */
  lemma ChecksNeverFire(cfg: Config, states: seq<State>, events: seq<Event>, i: nat)
    requires IsRun(cfg, states, events) && i + 1 < |states|
    ensures events[i].CheckCounts? ==> states[i + 1].proc.Some? && states[i + 1].proc.value.control.Checked?
    ensures events[i].Finish? ==> states[i].proc.Some? && states[i].proc.value.mem.buffer == []
  {
    var s, s' := states[i], states[i + 1];
    RunKeeps(cfg, states, events, i);
    assert Step(cfg, s, events[i], s');
    if events[i].CheckCounts? {
      CheckKeeps(cfg, s.proc.value, s'.proc.value, s.durable, s.saved);
    } else if events[i].Finish? {
      FinishKeeps(cfg, s.proc.value, events[i].outcome, s'.proc.value, s.durable, s.saved);
    }
  }

  /** Nothing is left to write, so the block writer moves nothing. */
  lemma DoneIsIdle(cfg: Config, s: State)
    requires Inv(cfg, s) && s.proc.Some? && s.proc.value.control == Done
    ensures !CanWrite(s) && s.proc.value.saving.None? && !s.proc.value.mem.failed
  {
  }

  lemma ProducerNeverEnds(cfg: Config, p: Proc, ev: Event, p': Proc)
    requires Produces(cfg, p, ev, p')
    ensures p'.control != Done
  {
  }

  /** The writer has something to do, and leaves the producer where it is. */
  lemma WriterIsBusy(cfg: Config, s: State, ev: Event, s': State)
    requires Step(cfg, s, ev, s') && s'.proc.Some?
    requires ev.CommitBlock? || ev.CommitFails? || ev.SaveBlock? || ev.Discard? || ev.Crash?
    ensures s.proc.Some? && s'.proc.value.control == s.proc.value.control
    ensures CanWrite(s) || s.proc.value.saving.Some? || s.proc.value.mem.failed
  {
  }

  lemma WriterNeverEnds(cfg: Config, s: State, ev: Event, s': State)
    requires Inv(cfg, s) && Step(cfg, s, ev, s') && s'.proc.Some?
    requires ev.CommitBlock? || ev.CommitFails? || ev.SaveBlock? || ev.Discard? || ev.Crash?
    ensures s'.proc.value.control != Done
  {
    WriterIsBusy(cfg, s, ev, s');
    if s.proc.value.control == Done {
      DoneIsIdle(cfg, s);
    }
  }

  lemma StartNeverEnds(cfg: Config, s: State, resume: bool, steps: seq<string>, s': State)
    requires s.proc.None? && Starts(cfg, s, resume, steps, s') && s'.proc.Some?
    ensures s'.proc.value.control == Ready
  {
  }

  /** Only reading the final state back ends a run. */
  lemma RecoverEndsTheRun(cfg: Config, s: State, ev: Event, s': State)
    requires Inv(cfg, s) && Step(cfg, s, ev, s') && s'.proc.Some? && s'.proc.value.control == Done
    ensures ev.Recover?
  {
    if ev.CommitBlock? || ev.CommitFails? || ev.SaveBlock? || ev.Discard? || ev.Crash? {
      WriterNeverEnds(cfg, s, ev, s');
    } else if ev.StartRun? {
      StartNeverEnds(cfg, s, ev.resume, ev.steps, s');
    } else if !ev.Record? && !ev.Recover? {
      ProducerNeverEnds(cfg, s.proc.value, ev, s'.proc.value);
    }
  }

  /** What a run reports, by whether its query was answered. */
  lemma RecoverReports(cfg: Config, s: State, answered: bool, hashRead: bool, s': State)
    requires Inv(cfg, s) && Recovers(s, answered, hashRead, s')
    ensures s'.proc.Some? && s'.proc.value.mem.tip == TipFor(cfg, s'.durable)
    ensures s'.durable == [] ==> s'.proc.value.mem.final == Final(0, [], None)
    ensures s'.durable != [] ==>
              s'.proc.value.mem.final == if s'.proc.value.mem.blocks > 0 || answered then FinalOf(cfg, s'.durable) else NothingFlushed(cfg, s'.durable)
  {
    RecoverGives(cfg, s, answered, hashRead, s');
  }

  /**
   A run that ends holds the tip of the chain. It reports the last block if and only if it wrote a block
   itself or the query for the last row was answered; otherwise it ends well and reports height 0.
   */
  lemma FinishedRunReportsTheTip(cfg: Config, states: seq<State>, events: seq<Event>, i: nat)
    requires IsRun(cfg, states, events) && i < |states|
    requires states[i].proc.Some? && states[i].proc.value.control == Done
    ensures i > 0 && events[i - 1].Recover?
    ensures var m, durable := states[i].proc.value.mem, states[i].durable;
            && m.tip == TipFor(cfg, durable)
            && (durable == [] ==> m.final == Final(0, [], None))
            && (durable != [] ==>
                  && (m.final == FinalOf(cfg, durable) <==> m.blocks > 0 || events[i - 1].answered)
                  && (m.final != FinalOf(cfg, durable) ==> m.final == NothingFlushed(cfg, durable)))
  {
    RunKeeps(cfg, states, events, i - 1);
    var s, ev := states[i - 1], events[i - 1];
    RecoverEndsTheRun(cfg, s, ev, states[i]);
    RecoverReports(cfg, s, ev.answered, ev.hashRead, states[i]);
  }
}
