/**
 Indexing one block (pkg/etl/indexer.go): a savepoint per transaction, or for blocks of migrations
 only a first attempt without savepoints that is thrown away when anything goes wrong.

 Tables is everything in the database but etl_transactions. Handlers are deterministic functions of
 the transaction and the database they see; they may leave partial writes and a failed statement
 behind whatever they return. The connection itself does not fail.
 */
module BlockIndexer {
  import opened Options

  datatype TxKind = ManageEntity | Migration | OtherTx

  /** body is None for a transaction without a signed payload. */
  datatype Tx = Tx(hash: string, body: Option<(TxKind, string)>)

  datatype Block = Block(height: int, hash: string, txs: seq<Tx>)

  datatype AuditRow = AuditRow(height: int, index: int, txType: string, address: string)

  datatype Db<D> = Db(audit: map<string, AuditRow>, tables: D)

  /** How a transaction's handler ends. ProcessFails is an error before the entity dispatcher is asked. */
  datatype Verdict = Accepted | NoHandler | Invalid | DispatchFails | ProcessFails

  /** What a handler leaves: its writes, whether a statement failed, and its columns of the audit row. */
  datatype Effect<D> = Effect(tables: D, broken: bool, verdict: Verdict, txType: string, address: string)

  datatype Handlers<!D> = Handlers(
    insertBlock: (Block, D) -> Option<D>,
    registerBlock: (Block, bool, D) -> Option<D>,
    run: (Block, int, Db<D>) -> Effect<D>,
    acceptsAudit: (string, AuditRow, Db<D>) -> bool)

  datatype Counts = Counts(em: int, rejected: int, unrouted: int)

  datatype Outcome = Indexed(counts: Counts) | Failed | Panicked

  const NONE_YET := Counts(0, 0, 0)

  // ---------------------------------------------------------------- one transaction

  /** Dispatch and processing errors undo the transaction; the other verdicts keep its writes. */
  predicate Hard(v: Verdict) { v.DispatchFails? || v.ProcessFails? }

  function Counted(c: Counts, kind: TxKind, v: Verdict): Counts {
    match kind
    case ManageEntity =>
      Counts(c.em + 1,
             c.rejected + (if v.Invalid? || v.DispatchFails? then 1 else 0),
             c.unrouted + (if v.NoHandler? then 1 else 0))
    case Migration => Counts(c.em + 1, c.rejected + (if v.Accepted? || v.ProcessFails? then 0 else 1), c.unrouted)
    case OtherTx => c
  }

  function RowOf<D>(b: Block, i: int, e: Effect<D>): AuditRow { AuditRow(b.height, i, e.txType, e.address) }

  /** An existing row for the hash stays. */
  function WithAudit<D>(db: Db<D>, hash: string, row: AuditRow): Db<D> {
    if hash in db.audit then db else db.(audit := db.audit[hash := row])
  }

  /** A block's work: the database it sees, whether the transaction is aborted, and the counts. */
  datatype Work<D> = Work(db: Db<D>, aborted: bool, counts: Counts)

  /** The handler's writes and its audit row both go in. */
  ghost predicate Applies<D>(h: Handlers<D>, b: Block, i: nat, db: Db<D>)
    requires i < |b.txs|
  {
    var e := h.run(b, i, db);
    !Hard(e.verdict) && !e.broken && h.acceptsAudit(b.txs[i].hash, RowOf(b, i, e), db.(tables := e.tables))
  }

  /** One transaction in its own savepoint. */
  function SavepointTx<D>(h: Handlers<D>, b: Block, i: nat, w: Work<D>): Work<D>
    requires i < |b.txs| && b.txs[i].body.Some?
  {
    var e := h.run(b, i, w.db);
    var hash, row := b.txs[i].hash, RowOf(b, i, e);
    var counts := Counted(w.counts, b.txs[i].body.value.0, e.verdict);
    if Hard(e.verdict) then
      if h.acceptsAudit(hash, row, w.db) then Work(WithAudit(w.db, hash, row), false, counts)
      else Work(w.db, true, counts)
    else if e.broken || !h.acceptsAudit(hash, row, w.db.(tables := e.tables)) then Work(w.db, false, counts)
    else Work(WithAudit(w.db.(tables := e.tables), hash, row), false, counts)
  }

  datatype Progress<D> = Going(work: Work<D>) | Stopped(outcome: Outcome) | NeedsSavepoints

  /** The first n transactions, each in its own savepoint; an aborted block cannot open the next one. */
  function SavepointTxs<D>(h: Handlers<D>, b: Block, n: nat, start: Db<D>): Progress<D>
    requires n <= |b.txs|
  {
    if n == 0 then Going(Work(start, false, NONE_YET))
    else
      var before := SavepointTxs(h, b, n - 1, start);
      if !before.Going? then before
      else if before.work.aborted then Stopped(Failed)
      else if b.txs[n - 1].body.None? then Stopped(Panicked)
      else Going(SavepointTx(h, b, n - 1, before.work))
  }

  /** The first n transactions straight on the block transaction. */
  function DirectTxs<D>(h: Handlers<D>, b: Block, n: nat, start: Db<D>): Progress<D>
    requires n <= |b.txs|
  {
    if n == 0 then Going(Work(start, false, NONE_YET))
    else
      var before := DirectTxs(h, b, n - 1, start);
      if !before.Going? then before
      else if b.txs[n - 1].body.None? then Stopped(Panicked)
      else
        var db, e := before.work.db, h.run(b, n - 1, before.work.db);
        var hash, row := b.txs[n - 1].hash, RowOf(b, n - 1, e);
        if Hard(e.verdict) || e.broken || !h.acceptsAudit(hash, row, db.(tables := e.tables)) then NeedsSavepoints
        else
          Going(Work(WithAudit(db.(tables := e.tables), hash, row), false,
                     Counted(before.work.counts, b.txs[n - 1].body.value.0, e.verdict)))
  }

  // ---------------------------------------------------------------- one block

  /** Whether a block row is needed: an entity transaction comes before any transaction without a body. */
  function ScanEntities(txs: seq<Tx>): Option<bool> {
    if txs == [] then Some(false)
    else if txs[0].body.None? then None
    else if txs[0].body.value.0 != OtherTx then Some(true)
    else ScanEntities(txs[1..])
  }

  /** The rows written before the transactions. */
  function Open<D>(h: Handlers<D>, b: Block, db: Db<D>): Progress<D> {
    var inserted := h.insertBlock(b, db.tables);
    if inserted.None? then Stopped(Failed)
    else
      var em := ScanEntities(b.txs);
      if em.None? then Stopped(Panicked)
      else
        var registered := h.registerBlock(b, em.value, inserted.value);
        if registered.None? then Stopped(Failed) else Going(Work(db.(tables := registered.value), false, NONE_YET))
  }

  /** Committing an aborted transaction fails and keeps nothing; so does every other way not to get there. */
  function Close<D>(p: Progress<D>, before: Db<D>): (Outcome, Db<D>)
    requires !p.NeedsSavepoints?
  {
    match p
    case Going(w) => if w.aborted then (Failed, before) else (Indexed(w.counts), w.db)
    case Stopped(o) => (o, before)
  }

  /** A block with a savepoint per transaction: what indexing a block means. */
  function SavepointBlock<D>(h: Handlers<D>, b: Block, db: Db<D>): (Outcome, Db<D>) {
    var ready := Open(h, b, db);
    if !ready.Going? then Close(ready, db)
    else
      SavepointsNeverAsk(h, b, |b.txs|, ready.work.db);
      Close(SavepointTxs(h, b, |b.txs|, ready.work.db), db)
  }

  lemma {:induction false} SavepointsNeverAsk<D>(h: Handlers<D>, b: Block, n: nat, start: Db<D>)
    requires n <= |b.txs|
    ensures !SavepointTxs(h, b, n, start).NeedsSavepoints?
    ensures SavepointTxs(h, b, n, start).Stopped? ==> !SavepointTxs(h, b, n, start).outcome.Indexed?
    decreases n
  {
    if n > 0 {
      SavepointsNeverAsk(h, b, n - 1, start);
    }
  }

  /** The attempt without savepoints. */
  function DirectBlock<D>(h: Handlers<D>, b: Block, db: Db<D>): Progress<D> {
    var ready := Open(h, b, db);
    if !ready.Going? then ready else DirectTxs(h, b, |b.txs|, ready.work.db)
  }

  predicate MigrationOnly(b: Block) {
    b.txs != [] && forall i :: 0 <= i < |b.txs| ==> b.txs[i].body.Some? && b.txs[i].body.value.0 == Migration
  }

  // ---------------------------------------------------------------- the two paths agree

  /** All of the first n transactions go in with writes and audit row. */
  ghost predicate AllApply<D(!new)>(h: Handlers<D>, b: Block, n: nat, start: Db<D>)
    requires n <= |b.txs|
  {
    forall i: nat :: i < n ==>
      SavepointTxs(h, b, i, start).Going? && Applies(h, b, i, SavepointTxs(h, b, i, start).work.db)
  }

  /**
   Without savepoints the block goes through exactly when every transaction does, and then to the same
   work; otherwise it asks for savepoints.
   */
  lemma {:induction false} DirectAgrees<D(!new)>(h: Handlers<D>, b: Block, n: nat, start: Db<D>)
    requires n <= |b.txs| && forall i :: 0 <= i < |b.txs| ==> b.txs[i].body.Some?
    ensures AllApply(h, b, n, start) ==>
              && DirectTxs(h, b, n, start) == SavepointTxs(h, b, n, start)
              && DirectTxs(h, b, n, start).Going? && !DirectTxs(h, b, n, start).work.aborted
    ensures !AllApply(h, b, n, start) ==> DirectTxs(h, b, n, start).NeedsSavepoints?
    decreases n
  {
    if n > 0 {
      DirectAgrees(h, b, n - 1, start);
    }
  }

  /** Whether the fast path is used or abandoned, the block means the same. */
  lemma FastPathAgrees<D(!new)>(h: Handlers<D>, b: Block, db: Db<D>)
    requires MigrationOnly(b)
    ensures var fast := DirectBlock(h, b, db);
            fast.NeedsSavepoints? || Close(fast, db) == SavepointBlock(h, b, db)
    ensures DirectBlock(h, b, db).NeedsSavepoints? <==>
            Open(h, b, db).Going? && !AllApply(h, b, |b.txs|, Open(h, b, db).work.db)
  {
    if Open(h, b, db).Going? {
      DirectAgrees(h, b, |b.txs|, Open(h, b, db).work.db);
    }
  }

  // ---------------------------------------------------------------- what a block leaves

  lemma IndexedWentThrough<D>(h: Handlers<D>, b: Block, db: Db<D>)
    requires SavepointBlock(h, b, db).0.Indexed?
    ensures Open(h, b, db).Going?
    ensures var end := SavepointTxs(h, b, |b.txs|, Open(h, b, db).work.db);
            end.Going? && !end.work.aborted && SavepointBlock(h, b, db) == (Indexed(end.work.counts), end.work.db)
  {
    SavepointsNeverAsk(h, b, |b.txs|, Open(h, b, db).work.db);
  }

  /** after differs from before at most by an audit row for the hash, and has one. */
  ghost predicate OnlyAudits<D(!new)>(before: Db<D>, after: Db<D>, hash: string) {
    && after.tables == before.tables
    && hash in after.audit
    && after.audit - {hash} == before.audit - {hash}
    && (hash in before.audit ==> after == before)
  }

  lemma HardStep<D(!new)>(h: Handlers<D>, b: Block, i: nat, w: Work<D>)
    requires i < |b.txs| && b.txs[i].body.Some? && Hard(h.run(b, i, w.db).verdict)
    ensures var next := SavepointTx(h, b, i, w); next.aborted || OnlyAudits(w.db, next.db, b.txs[i].hash)
  {
  }

  /** In an indexed block no transaction leaves the block transaction aborted. */
  lemma NeverAborted<D>(h: Handlers<D>, b: Block, db: Db<D>, i: nat)
    requires SavepointBlock(h, b, db).0.Indexed? && i <= |b.txs|
    ensures Open(h, b, db).Going?
    ensures var p := SavepointTxs(h, b, i, Open(h, b, db).work.db); p.Going? && !p.work.aborted
  {
    IndexedWentThrough(h, b, db);
    var start := Open(h, b, db).work.db;
    StaysGoing(h, b, |b.txs|, start, i);
    if i < |b.txs| {
      StaysGoing(h, b, |b.txs|, start, i + 1);
    }
  }

  /** A transaction whose handler fails hard leaves its audit row and nothing else. */
  lemma HardTxLeavesOnlyAudit<D(!new)>(h: Handlers<D>, b: Block, db: Db<D>, i: nat)
    requires i < |b.txs| && SavepointBlock(h, b, db).0.Indexed?
    ensures Open(h, b, db).Going?
    ensures var start := Open(h, b, db).work.db;
            && SavepointTxs(h, b, i, start).Going? && SavepointTxs(h, b, i + 1, start).Going?
            && var before, after := SavepointTxs(h, b, i, start).work.db, SavepointTxs(h, b, i + 1, start).work.db;
               Hard(h.run(b, i, before).verdict) ==> OnlyAudits(before, after, b.txs[i].hash)
  {
    NeverAborted(h, b, db, i);
    NeverAborted(h, b, db, i + 1);
    var w := SavepointTxs(h, b, i, Open(h, b, db).work.db).work;
    if Hard(h.run(b, i, w.db).verdict) {
      HardStep(h, b, i, w);
    }
  }

  lemma {:induction false} StaysGoing<D>(h: Handlers<D>, b: Block, n: nat, start: Db<D>, i: nat)
    requires i <= n <= |b.txs| && SavepointTxs(h, b, n, start).Going?
    ensures SavepointTxs(h, b, i, start).Going?
    decreases n
  {
    if i < n {
      StaysGoing(h, b, n - 1, start, i);
    }
  }

  lemma {:induction false} AuditGrows<D>(h: Handlers<D>, b: Block, n: nat, start: Db<D>, i: nat)
    requires i <= n <= |b.txs| && SavepointTxs(h, b, n, start).Going?
    ensures SavepointTxs(h, b, i, start).Going?
    ensures forall hash :: hash in SavepointTxs(h, b, i, start).work.db.audit ==>
              && hash in SavepointTxs(h, b, n, start).work.db.audit
              && SavepointTxs(h, b, n, start).work.db.audit[hash] == SavepointTxs(h, b, i, start).work.db.audit[hash]
    decreases n
  {
    if i < n {
      AuditGrows(h, b, n - 1, start, i);
    }
  }

  function EntityTxs(txs: seq<Tx>): nat {
    if txs == [] then 0
    else
      var last := txs[|txs| - 1];
      EntityTxs(txs[..|txs| - 1]) + (if last.body.Some? && last.body.value.0 != OtherTx then 1 else 0)
  }

  lemma {:induction false} CountsAfter<D>(h: Handlers<D>, b: Block, n: nat, start: Db<D>)
    requires n <= |b.txs| && SavepointTxs(h, b, n, start).Going?
    ensures var c := SavepointTxs(h, b, n, start).work.counts;
            c.em == EntityTxs(b.txs[..n]) && 0 <= c.rejected && 0 <= c.unrouted && c.rejected + c.unrouted <= c.em
    decreases n
  {
    if n > 0 {
      CountsAfter(h, b, n - 1, start);
      assert b.txs[..n][..n - 1] == b.txs[..n - 1];
    }
  }

  /** An indexed block counts every entity transaction once and rejects no more than that. */
  lemma IndexedCounts<D>(h: Handlers<D>, b: Block, db: Db<D>)
    requires SavepointBlock(h, b, db).0.Indexed?
    ensures var c := SavepointBlock(h, b, db).0.counts;
            c.em == EntityTxs(b.txs) && 0 <= c.rejected && 0 <= c.unrouted && c.rejected + c.unrouted <= c.em
  {
    IndexedWentThrough(h, b, db);
    CountsAfter(h, b, |b.txs|, Open(h, b, db).work.db);
    assert b.txs[..|b.txs|] == b.txs;
  }

  /** A block that is not indexed leaves the database as it was. */
  lemma NotIndexedKeepsNothing<D>(h: Handlers<D>, b: Block, db: Db<D>)
    ensures SavepointBlock(h, b, db).0.Indexed? || SavepointBlock(h, b, db).1 == db
  {
  }

  /** Every hard-failing transaction of an indexed block is in the audit log the block leaves. */
  lemma HardTxIsAudited<D(!new)>(h: Handlers<D>, b: Block, db: Db<D>, i: nat)
    requires i < |b.txs| && SavepointBlock(h, b, db).0.Indexed?
    ensures Open(h, b, db).Going? && SavepointTxs(h, b, i, Open(h, b, db).work.db).Going?
    ensures Hard(h.run(b, i, SavepointTxs(h, b, i, Open(h, b, db).work.db).work.db).verdict) ==>
              b.txs[i].hash in SavepointBlock(h, b, db).1.audit
  {
    IndexedWentThrough(h, b, db);
    HardTxLeavesOnlyAudit(h, b, db, i);
    AuditGrows(h, b, |b.txs|, Open(h, b, db).work.db, i + 1);
  }

  /** A block with a transaction without a body is never indexed. */
  lemma BodilessIsNeverIndexed<D>(h: Handlers<D>, b: Block, db: Db<D>, i: nat)
    requires i < |b.txs| && b.txs[i].body.None?
    ensures !SavepointBlock(h, b, db).0.Indexed? && SavepointBlock(h, b, db).1 == db
  {
    NotIndexedKeepsNothing(h, b, db);
    if SavepointBlock(h, b, db).0.Indexed? {
      IndexedWentThrough(h, b, db);
      StaysGoing(h, b, |b.txs|, Open(h, b, db).work.db, i + 1);
    }
  }

  // ---------------------------------------------------------------- the session and the indexer

  /** One connection: the committed database, the open transaction's view of it and its savepoint. */
  class Session<D> {
    var committed: Db<D>
    var view: Db<D>
    var savepoint: Option<Db<D>>
    var aborted: bool

    constructor (db: Db<D>)
      ensures committed == db
    {
      committed, view, savepoint, aborted := db, db, None, false;
    }

    method Begin()
      modifies this
      ensures committed == old(committed) && view == committed && savepoint.None? && !aborted
    {
      view, savepoint, aborted := committed, None, false;
    }

    /** A savepoint cannot be ready in an aborted transaction. */
    method Savepoint() returns (ok: bool)
      modifies this`savepoint
      ensures ok == !aborted && savepoint == if ok then Some(view) else old(savepoint)
    {
      ok := !aborted;
      if ok {
        savepoint := Some(view);
      }
    }

    method RollbackToSavepoint()
      requires savepoint.Some?
      modifies this`view, this`savepoint, this`aborted
      ensures view == old(savepoint.value) && savepoint.None? && !aborted
    {
      view, savepoint, aborted := savepoint.value, None, false;
    }

    /** Keeps the writes since the savepoint. */
    method Release()
      requires savepoint.Some? && !aborted
      modifies this`savepoint
      ensures savepoint.None?
    {
      savepoint := None;
    }

    method Write(tables: D)
      modifies this`view
      ensures view == old(view).(tables := tables)
    {
      view := view.(tables := tables);
    }

    /** The audit insert; a refused row aborts the transaction. */
    method InsertTransaction(h: Handlers<D>, hash: string, row: AuditRow) returns (ok: bool)
      modifies this`view, this`aborted
      ensures ok == (!old(aborted) && h.acceptsAudit(hash, row, old(view)))
      ensures view == if ok then WithAudit(old(view), hash, row) else old(view)
      ensures aborted == !ok
    {
      ok := !aborted && h.acceptsAudit(hash, row, view);
      if ok {
        view := WithAudit(view, hash, row);
      } else {
        aborted := true;
      }
    }

    method Commit() returns (ok: bool)
      modifies this`committed
      ensures ok == !aborted && committed == if ok then view else old(committed)
    {
      ok := !aborted;
      if ok {
        committed := view;
      }
    }
  }

  method MigrationOnlyBlock(b: Block) returns (r: bool)
    ensures r <==> MigrationOnly(b)
  {
    if |b.txs| == 0 {
      return false;
    }
    for i := 0 to |b.txs|
      invariant forall k :: 0 <= k < i ==> b.txs[k].body.Some? && b.txs[k].body.value.0 == Migration
    {
      if b.txs[i].body.None? {
        return false;
      }
      if b.txs[i].body.value.0 != Migration {
        return false;
      }
    }
    return true;
  }

  /** None when the scan reaches a transaction without a body: the source dereferences nil there. */
  method HasEntityTx(b: Block) returns (r: Option<bool>)
    ensures r == ScanEntities(b.txs)
  {
    assert b.txs[0..] == b.txs;
    for i := 0 to |b.txs|
      invariant ScanEntities(b.txs) == ScanEntities(b.txs[i..])
    {
      if b.txs[i].body.None? {
        return None;
      }
      if b.txs[i].body.value.0 != OtherTx {
        return Some(true);
      }
    }
    return Some(false);
  }

  class Indexer<D(!new)> {
    const h: Handlers<D>
    const session: Session<D>

    constructor (h: Handlers<D>, session: Session<D>)
      ensures this.h == h && this.session == session
    {
      this.h, this.session := h, session;
    }

    /**
     Runs one transaction's handler in its scope. A hard error undoes it: with a savepoint by rolling
     back, without one by declaring the whole attempt poisoned.
     */
    method ProcessOneTx(b: Block, i: nat, nested: bool, counts: Counts)
        returns (ok: bool, poisoned: bool, counts': Counts, row: AuditRow)
      requires i < |b.txs| && b.txs[i].body.Some?
      requires !session.aborted && session.savepoint == (if nested then Some(session.view) else None)
      modifies session`view, session`savepoint, session`aborted
      ensures var e := h.run(b, i, old(session.view));
              && ok == !Hard(e.verdict) && poisoned == (!ok && !nested)
              && counts' == Counted(counts, b.txs[i].body.value.0, e.verdict)
              && row == RowOf(b, i, e)
              && (ok ==> session.view == old(session.view).(tables := e.tables) && session.aborted == e.broken && session.savepoint == old(session.savepoint))
              && (!ok && nested ==> session.view == old(session.view) && !session.aborted && session.savepoint.None?)
    {
      var e := h.run(b, i, session.view);
      session.Write(e.tables);
      session.aborted := e.broken;
      row := AuditRow(b.height, i, e.txType, e.address);
      poisoned := false;
      var kind := b.txs[i].body.value.0;
      counts' := counts;
      if kind != OtherTx {
        counts' := counts'.(em := counts'.em + 1);
      }
      ok := true;
      match e.verdict {
        case Accepted =>
        case NoHandler =>
          // Unrouted live transactions are tolerated, unrouted migrations are rejections.
          if kind == ManageEntity {
            counts' := counts'.(unrouted := counts'.unrouted + 1);
          } else if kind == Migration {
            counts' := counts'.(rejected := counts'.rejected + 1);
          }
        case Invalid =>
          if kind != OtherTx {
            counts' := counts'.(rejected := counts'.rejected + 1);
          }
        case DispatchFails =>
          if kind != OtherTx {
            counts' := counts'.(rejected := counts'.rejected + 1);
          }
          ok := false;
        case ProcessFails =>
          ok := false;
      }
      if !ok {
        if nested {
          session.RollbackToSavepoint();
        } else {
          poisoned := true;
        }
      }
    }

    /** One transaction with its own savepoint, audit row included. */
    method NestedTx(b: Block, i: nat, counts: Counts) returns (counts': Counts)
      requires i < |b.txs| && b.txs[i].body.Some? && !session.aborted
      modifies session`view, session`savepoint, session`aborted
      ensures Work(session.view, session.aborted, counts') == SavepointTx(h, b, i, Work(old(session.view), false, counts))
    {
      var ready := session.Savepoint();
      var ok, _, counted, row := ProcessOneTx(b, i, true, counts);
      counts' := counted;
      if ok {
        var inserted := session.InsertTransaction(h, b.txs[i].hash, row);
        if inserted {
          session.Release();
        } else {
          session.RollbackToSavepoint();
        }
      } else {
        var _ := session.InsertTransaction(h, b.txs[i].hash, row);
      }
    }

    /** One transaction straight on the block transaction; poisoned when it cannot stay. */
    method DirectTx(b: Block, i: nat, counts: Counts) returns (poisoned: bool, counts': Counts)
      requires i < |b.txs| && b.txs[i].body.Some? && !session.aborted && session.savepoint.None?
      modifies session`view, session`savepoint, session`aborted
      ensures poisoned <==> !Applies(h, b, i, old(session.view))
      ensures !poisoned ==>
                && !session.aborted && session.savepoint.None?
                && var e := h.run(b, i, old(session.view));
                   && session.view == WithAudit(old(session.view).(tables := e.tables), b.txs[i].hash, RowOf(b, i, e))
                   && counts' == Counted(counts, b.txs[i].body.value.0, e.verdict)
    {
      var ok, hard, counted, row := ProcessOneTx(b, i, false, counts);
      counts', poisoned := counted, hard;
      if !poisoned {
        var inserted := session.InsertTransaction(h, b.txs[i].hash, row);
        poisoned := !inserted;
      }
    }

    /** The rows before the transactions; r says whether to go on. */
    method OpenBlock(b: Block) returns (r: Option<Outcome>)
      modifies session
      ensures session.committed == old(session.committed)
      ensures var ready := Open(h, b, old(session.committed));
              && (r.None? <==> ready.Going?)
              && (r.Some? ==> ready == Stopped(r.value))
              && (r.None? ==> session.view == ready.work.db && !session.aborted && session.savepoint.None?)
    {
      session.Begin();
      var inserted := h.insertBlock(b, session.view.tables);
      if inserted.None? {
        return Some(Failed);
      }
      var em := HasEntityTx(b);
      if em.None? {
        return Some(Panicked);
      }
      var registered := h.registerBlock(b, em.value, inserted.value);
      if registered.None? {
        return Some(Failed);
      }
      session.Write(registered.value);
      r := None;
    }

    /** Every transaction in its own savepoint. */
    method NestedAttempt(b: Block) returns (r: Outcome)
      modifies session
      ensures (r, session.committed) == SavepointBlock(h, b, old(session.committed))
    {
      var stopped := OpenBlock(b);
      if stopped.Some? {
        return stopped.value;
      }
      ghost var start := session.view;
      var counts := NONE_YET;
      for i := 0 to |b.txs|
        invariant session.committed == old(session.committed)
        invariant SavepointTxs(h, b, i, start) == Going(Work(session.view, session.aborted, counts))
      {
        if session.aborted {
          NestedStops(h, b, i, start);
          return Failed;
        }
        if b.txs[i].body.None? {
          NestedStops(h, b, i, start);
          return Panicked;
        }
        counts := NestedTx(b, i, counts);
      }
      var ok := session.Commit();
      return if ok then Indexed(counts) else Failed;
    }

    /** None asks for savepoints, and then nothing is committed. */
    method DirectAttempt(b: Block) returns (r: Option<Outcome>)
      modifies session
      ensures r.None? <==> DirectBlock(h, b, old(session.committed)).NeedsSavepoints?
      ensures r.None? ==> session.committed == old(session.committed)
      ensures r.Some? ==> (r.value, session.committed) == Close(DirectBlock(h, b, old(session.committed)), old(session.committed))
    {
      var stopped := OpenBlock(b);
      if stopped.Some? {
        return stopped;
      }
      ghost var start := session.view;
      var counts := NONE_YET;
      for i := 0 to |b.txs|
        invariant session.committed == old(session.committed) && !session.aborted && session.savepoint.None?
        invariant DirectTxs(h, b, i, start) == Going(Work(session.view, false, counts))
      {
        if b.txs[i].body.None? {
          DirectStops(h, b, i, start);
          return Some(Panicked);
        }
        var poisoned, counted := DirectTx(b, i, counts);
        if poisoned {
          DirectStops(h, b, i, start);
          return None;
        }
        counts := counted;
      }
      var ok := session.Commit();
      return Some(if ok then Indexed(counts) else Failed);
    }

    /** The outcome and the committed database are those of the savepoint path, for every block. */
    method ProcessBlock(b: Block) returns (r: Outcome)
      modifies session
      ensures (r, session.committed) == SavepointBlock(h, b, old(session.committed))
    {
      var fast := MigrationOnlyBlock(b);
      if fast {
        FastPathAgrees(h, b, session.committed);
        var attempt := DirectAttempt(b);
        if attempt.Some? {
          return attempt.value;
        }
      }
      r := NestedAttempt(b);
    }
  }

  /** An aborted block, or a transaction without a body, is where the block ends. */
  lemma NestedStops<D>(h: Handlers<D>, b: Block, i: nat, start: Db<D>)
    requires i < |b.txs| && SavepointTxs(h, b, i, start).Going?
    requires SavepointTxs(h, b, i, start).work.aborted || b.txs[i].body.None?
    ensures SavepointTxs(h, b, |b.txs|, start) == Stopped(if SavepointTxs(h, b, i, start).work.aborted then Failed else Panicked)
  {
    StopsForGood(h, b, i + 1, |b.txs|, start);
  }

  lemma {:induction false} StopsForGood<D>(h: Handlers<D>, b: Block, i: nat, n: nat, start: Db<D>)
    requires i <= n <= |b.txs| && !SavepointTxs(h, b, i, start).Going?
    ensures SavepointTxs(h, b, n, start) == SavepointTxs(h, b, i, start)
    decreases n
  {
    if i < n {
      StopsForGood(h, b, i, n - 1, start);
    }
  }

  lemma DirectStops<D>(h: Handlers<D>, b: Block, i: nat, start: Db<D>)
    requires i < |b.txs| && DirectTxs(h, b, i, start).Going?
    requires b.txs[i].body.None? || !Applies(h, b, i, DirectTxs(h, b, i, start).work.db)
    ensures DirectTxs(h, b, |b.txs|, start) == if b.txs[i].body.None? then Stopped(Panicked) else NeedsSavepoints
  {
    DirectStopsForGood(h, b, i + 1, |b.txs|, start);
  }

  lemma {:induction false} DirectStopsForGood<D>(h: Handlers<D>, b: Block, i: nat, n: nat, start: Db<D>)
    requires i <= n <= |b.txs| && !DirectTxs(h, b, i, start).Going?
    ensures DirectTxs(h, b, n, start) == DirectTxs(h, b, i, start)
    decreases n
  {
    if i < n {
      DirectStopsForGood(h, b, i, n - 1, start);
    }
  }
}
