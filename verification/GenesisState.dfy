/**
 The two kinds of state of the genesis writer (cmd/genesis-writer/writer.go): the memory of one run,
 and what survives it in postgres and the blockstore. Each function is the whole effect of one piece
 of the source.
 */
module GenesisState {
  import opened GenesisChain
  import opened Options

  datatype Config = Config(crypto: Crypto, genesis: int, maxTxsPerBlock: int, useStore: bool)

  // ---------------------------------------------------------------- blocks on their way to disk

  datatype TxRow = TxRow(hash: string, bytes: Tx)

  datatype Pending = Pending(height: int, time: int, appHash: Bytes, hashHex: string, rows: seq<TxRow>, block: Block, seenCommit: Commit)

  function UpperChar(c: char): char {
    if 'a' <= c <= 'z' then (c as int - 'a' as int + 'A' as int) as char else c
  }

  function Upper(s: string): string { seq(|s|, i requires 0 <= i < |s| => UpperChar(s[i])) }

  function RowOf(c: Crypto, tx: Tx): TxRow { TxRow(Upper(HexEncode(c.sha256(tx))), tx) }

  function RowsOf(c: Crypto, txs: seq<Tx>): (rows: seq<TxRow>)
    ensures |rows| == |txs|
  {
    seq(|txs|, i requires 0 <= i < |txs| => RowOf(c, txs[i]))
  }

  function PendingOf(c: Crypto, b: Block): Pending {
    Pending(b.height, b.time, AppHash(c, b.txs), HexEncode(c.blockHash(b)), RowsOf(c, b.txs), b, CommitOf(c, b))
  }

  // ---------------------------------------------------------------- memory

  /** time is None while the source holds the zero time. */
  datatype Final = Final(height: int, appHash: Bytes, time: Option<int>)

  /** accepted and total count transactions handed to addTx and flushed; blocks counts flushes. */
  datatype Mem = Mem(
    tip: Tip, buffer: seq<Tx>, accepted: int, total: int, blocks: int,
    final: Final, queue: seq<Pending>, failed: bool)

  function FreshMem(tip: Tip, time: Option<int>): Mem {
    Mem(tip, [], 0, 0, 0, Final(0, [], time), [], false)
  }

  /** How building and sending one block can end; only Sent changes anything. */
  datatype FlushOutcome = PartSetFails | SignFails | Cancelled | Sent

  function Flushed(c: Crypto, m: Mem): Mem {
    var b := NextBlock(m.tip, m.buffer);
    Mem(TipOn(c, b), [], m.accepted, m.total + |m.buffer|, m.blocks + 1,
        Final(b.height, AppHash(c, b.txs), Some(b.time)), m.queue + [PendingOf(c, b)], m.failed)
  }

  function Flush(c: Crypto, m: Mem, o: FlushOutcome): (Mem, bool) {
    if m.buffer == [] then (m, true)
    else if o != Sent then (m, false)
    else (Flushed(c, m), true)
  }

  function Buffered(m: Mem, tx: Tx): Mem { m.(buffer := m.buffer + [tx], accepted := m.accepted + 1) }

  predicate Full(cfg: Config, m: Mem) { |m.buffer| >= cfg.maxTxsPerBlock }

  /** A refused transaction is not counted; one whose flush fails stays in the buffer. */
  function AddTx(cfg: Config, m: Mem, tx: Tx, o: FlushOutcome): (Mem, bool) {
    if m.failed then (m, false)
    else if Full(cfg, Buffered(m, tx)) then Flush(cfg.crypto, Buffered(m, tx), o)
    else (Buffered(m, tx), true)
  }

  // ---------------------------------------------------------------- disk

  datatype BlockRow = BlockRow(hash: string, time: int)
  /** The rows of one block in core_transactions, in index order. */
  datatype Batch = Batch(time: int, rows: seq<TxRow>)
  datatype Stored = Stored(block: Block, seenCommit: Commit)

  /** core_blocks, core_transactions, core_app_state, genesis_writer_progress and blockstore.db. */
  datatype Disk = Disk(
    blocks: map<int, BlockRow>, txs: map<int, Batch>, app: set<(int, Bytes)>,
    progress: set<string>, store: map<int, Stored>)

  const EMPTY_DISK := Disk(map[], map[], {}, {}, map[])

  /** The unique key of core_transactions lets the copy of this block through. */
  predicate Fits(d: Disk, pb: Pending) { pb.height !in d.txs }

  /** The committed postgres transaction: an existing block row stays as it is. */
  function Committed(d: Disk, pb: Pending): Disk {
    d.(blocks := if pb.height in d.blocks then d.blocks else d.blocks[pb.height := BlockRow(pb.hashHex, pb.time)],
       txs := d.txs[pb.height := Batch(pb.time, pb.rows)],
       app := d.app + {(pb.height, pb.appHash)})
  }

  /** The blockstore takes its first block at any height and then only the next one. */
  predicate Contiguous(d: Disk, height: int) {
    d.store == map[] || (height - 1 in d.store && forall h :: h in d.store ==> h < height)
  }

  function Saved(d: Disk, pb: Pending): Disk {
    d.(store := d.store[pb.height := Stored(pb.block, pb.seenCommit)])
  }

  /** The largest height, or 0 for an empty table. */
  ghost predicate IsMaxHeight(m: int, heights: set<int>) {
    && (heights == {} ==> m == 0)
    && (heights != {} ==> m in heights && forall h :: h in heights ==> h <= m)
  }

  // ---------------------------------------------------------------- resume

  /** The rows and blocks resume asks for are there. */
  ghost predicate HasTail(cfg: Config, d: Disk, m: int) {
    m > 0 ==> (exists a :: (m, a) in d.app) && cfg.useStore && m in d.store
  }

  /** The tip a resume rebuilds on the last stored block. */
  function ResumeTip(cfg: Config, last: Stored, m: int, appHash: Bytes): Tip {
    Tip(m + 1, cfg.genesis + m, IDOf(cfg.crypto, last.block), Some(last.seenCommit), appHash)
  }

  /** The memory a resume rebuilds from the last height m and its app hash. */
  function Resumed(cfg: Config, d: Disk, m: int, appHash: Bytes): Mem
    requires m > 0 ==> m in d.store
  {
    if m > 0 then FreshMem(ResumeTip(cfg, d.store[m], m, appHash), Some(d.store[m].block.time))
    else FreshMem(NewTip(cfg.genesis), None)
  }

  /** The final state read back when this run wrote no block; the block hash only if its own query answers. */
  function Recovered(d: Disk, m: Mem, height: int, appHash: Bytes, hashRead: bool): Mem {
    m.(final := m.final.(height := height, appHash := appHash),
       tip := if hashRead && height in d.blocks
              then m.tip.(prevID := m.tip.prevID.(hash := HexDecode(d.blocks[height].hash)))
              else m.tip)
  }

  // ---------------------------------------------------------------- the disk a chain leaves

  /** The block at height h. */
  function At(chain: seq<Block>, h: int): Block
    requires 1 <= h <= |chain|
  {
    chain[h - 1]
  }

  function BlocksOf(c: Crypto, chain: seq<Block>): map<int, BlockRow> {
    map h | 1 <= h <= |chain| :: BlockRow(HexEncode(c.blockHash(At(chain, h))), At(chain, h).time)
  }

  function BatchesOf(c: Crypto, chain: seq<Block>): map<int, Batch> {
    map h | 1 <= h <= |chain| :: Batch(At(chain, h).time, RowsOf(c, At(chain, h).txs))
  }

  ghost function AppOf(c: Crypto, chain: seq<Block>): set<(int, Bytes)> {
    set h | 1 <= h <= |chain| :: (h, AppHash(c, At(chain, h).txs))
  }

  function StoreOf(c: Crypto, chain: seq<Block>, saved: nat): map<int, Stored>
    requires saved <= |chain|
  {
    map h | 1 <= h <= saved :: Stored(At(chain, h), CommitOf(c, At(chain, h)))
  }

  /** Postgres holds exactly the chain, and the blockstore exactly its first saved blocks. */
  ghost predicate Holds(c: Crypto, d: Disk, chain: seq<Block>, saved: nat) {
    && saved <= |chain|
    && d.blocks == BlocksOf(c, chain)
    && d.txs == BatchesOf(c, chain)
    && d.app == AppOf(c, chain)
    && d.store == StoreOf(c, chain, saved)
  }

  lemma AtAppend(chain: seq<Block>, b: Block)
    ensures forall h :: 1 <= h <= |chain| ==> At(chain + [b], h) == At(chain, h)
    ensures At(chain + [b], |chain| + 1) == b
  {
  }

  lemma BlocksAppend(c: Crypto, chain: seq<Block>, b: Block)
    requires b.height == |chain| + 1
    ensures BlocksOf(c, chain + [b]) == BlocksOf(c, chain)[b.height := BlockRow(HexEncode(c.blockHash(b)), b.time)]
  {
    AtAppend(chain, b);
  }

  lemma BatchesAppend(c: Crypto, chain: seq<Block>, b: Block)
    requires b.height == |chain| + 1
    ensures BatchesOf(c, chain + [b]) == BatchesOf(c, chain)[b.height := Batch(b.time, RowsOf(c, b.txs))]
  {
    AtAppend(chain, b);
  }

  lemma AppAppend(c: Crypto, chain: seq<Block>, b: Block)
    requires b.height == |chain| + 1
    ensures AppOf(c, chain + [b]) == AppOf(c, chain) + {(b.height, AppHash(c, b.txs))}
  {
    AtAppend(chain, b);
    forall x | x in AppOf(c, chain) ensures x in AppOf(c, chain + [b]) {
      var h :| 1 <= h <= |chain| && x == (h, AppHash(c, At(chain, h).txs));
      assert x == (h, AppHash(c, At(chain + [b], h).txs));
    }
    assert (b.height, AppHash(c, At(chain + [b], b.height).txs)) in AppOf(c, chain + [b]);
  }

  lemma StoreAppend(c: Crypto, chain: seq<Block>, saved: nat, b: Block)
    requires saved <= |chain|
    ensures StoreOf(c, chain + [b], saved) == StoreOf(c, chain, saved)
  {
    AtAppend(chain, b);
  }

  /** Writing the next block of a chain leaves the longer chain on disk. */
  lemma CommittedHolds(c: Crypto, d: Disk, chain: seq<Block>, saved: nat, b: Block)
    requires Holds(c, d, chain, saved) && b.height == |chain| + 1
    ensures Fits(d, PendingOf(c, b))
    ensures Holds(c, Committed(d, PendingOf(c, b)), chain + [b], saved)
  {
    BlocksAppend(c, chain, b);
    BatchesAppend(c, chain, b);
    AppAppend(c, chain, b);
    StoreAppend(c, chain, saved, b);
  }

  lemma StoreExtend(c: Crypto, chain: seq<Block>, saved: nat)
    requires saved < |chain|
    ensures var b := At(chain, saved + 1);
            StoreOf(c, chain, saved + 1) == StoreOf(c, chain, saved)[saved + 1 := Stored(b, CommitOf(c, b))]
  {
  }

  lemma NextIsContiguous(c: Crypto, d: Disk, chain: seq<Block>, saved: nat)
    requires saved < |chain| && d.store == StoreOf(c, chain, saved)
    ensures Contiguous(d, saved + 1)
  {
    assert forall h :: h in d.store <==> 1 <= h <= saved;
    assert saved == 0 ==> d.store == map[];
  }

  /** Saving the one block the blockstore lacks is contiguous and completes it. */
  lemma SavedHolds(c: Crypto, d: Disk, chain: seq<Block>, saved: nat)
    requires Holds(c, d, chain, saved) && saved < |chain| && At(chain, saved + 1).height == saved + 1
    ensures Contiguous(d, saved + 1)
    ensures Holds(c, Saved(d, PendingOf(c, At(chain, saved + 1))), chain, saved + 1)
  {
    StoreExtend(c, chain, saved);
    NextIsContiguous(c, d, chain, saved);
  }

  lemma MaxIsLength(c: Crypto, d: Disk, chain: seq<Block>, saved: nat, m: int)
    requires Holds(c, d, chain, saved)
    ensures IsMaxHeight(m, d.blocks.Keys) <==> m == |chain|
  {
    assert forall h :: h in d.blocks.Keys <==> 1 <= h <= |chain|;
    assert |chain| > 0 ==> |chain| in d.blocks.Keys;
  }

  lemma AppRow(c: Crypto, chain: seq<Block>, m: int, a: Bytes)
    requires 1 <= m <= |chain|
    ensures (m, a) in AppOf(c, chain) <==> a == AppHash(c, At(chain, m).txs)
  {
  }
}
