/**
 The writer's own code (cmd/genesis-writer/writer.go): fields updated in place, the reused blockTxs
 buffer, and the tables it writes. Each method is proved against the state machine's functions.
 */
module GenesisWriter {
  import opened GenesisChain
  import opened GenesisState
  import opened Options

  /** A pending block as the source holds it: its rows and transactions are slices of their own. */
  datatype InFlight = InFlight(
    height: int, time: int, appHash: Bytes, hashHex: string, rows: array<TxRow>,
    lastID: BlockID, prevAppHash: Bytes, lastCommit: Commit, txs: array<Tx>, seenCommit: Commit)

  ghost function Value(pb: InFlight): Pending
    reads pb.rows, pb.txs
  {
    Pending(pb.height, pb.time, pb.appHash, pb.hashHex, pb.rows[..],
            Block(pb.height, pb.time, pb.lastID, pb.prevAppHash, pb.lastCommit, pb.txs[..]), pb.seenCommit)
  }

  ghost function Slices(q: seq<InFlight>): set<object> {
    (set i | 0 <= i < |q| :: q[i].rows as object) + (set i | 0 <= i < |q| :: q[i].txs as object)
  }

  ghost function Values(q: seq<InFlight>): seq<Pending>
    reads Slices(q)
  {
    seq(|q|, i requires 0 <= i < |q| reads Slices(q) => Value(q[i]))
  }

  // ---------------------------------------------------------------- the loops of flushBlock

  /** The hash runs over the transactions one after the other. */
  method HashTxs(c: Crypto, buf: array<Tx>, used: nat) returns (appHash: Bytes)
    requires used <= buf.Length
    ensures appHash == AppHash(c, buf[..used])
  {
    var data: Bytes := [];
    for i := 0 to used
      invariant data == Concat(buf[..i])
    {
      assert buf[..i + 1][..i] == buf[..i];
      data := data + buf[i];
    }
    appHash := c.sha256(data);
  }

  method MakeRows(c: Crypto, buf: array<Tx>, used: nat) returns (rows: array<TxRow>)
    requires used <= buf.Length
    ensures fresh(rows) && rows[..] == RowsOf(c, buf[..used])
  {
    rows := new TxRow[used](_ => TxRow("", []));
    for i := 0 to used
      invariant forall k :: 0 <= k < i ==> rows[k] == RowOf(c, buf[k])
    {
      rows[i] := RowOf(c, buf[i]);
    }
  }

  method CopyTxs(buf: array<Tx>, used: nat) returns (txs: array<Tx>)
    requires used <= buf.Length
    ensures fresh(txs) && txs[..] == buf[..used]
  {
    txs := new Tx[used](_ => []);
    for i := 0 to used
      invariant forall k :: 0 <= k < i ==> txs[k] == buf[k]
    {
      txs[i] := buf[i];
    }
  }

  method Grown(buf: array<Tx>) returns (grown: array<Tx>)
    ensures fresh(grown) && grown.Length > buf.Length && grown[..buf.Length] == buf[..]
  {
    grown := new Tx[2 * buf.Length + 1](_ => []);
    for i := 0 to buf.Length
      invariant forall k :: 0 <= k < i ==> grown[k] == buf[k]
    {
      grown[i] := buf[i];
    }
  }

  // ---------------------------------------------------------------- the destination

  datatype WriteOutcome = Lost | LandedUnseen | Landed

  /** The destination database and the blockstore. */
  class Destination {
    var blocks: map<int, BlockRow>
    var txs: map<int, Batch>
    var app: set<(int, Bytes)>
    var progress: set<string>
    var store: map<int, Stored>

    constructor ()
      ensures Tables() == EMPTY_DISK
    {
      blocks, txs, app, progress, store := map[], map[], {}, {}, map[];
    }

    ghost function Tables(): Disk
      reads this
    {
      Disk(blocks, txs, app, progress, store)
    }

    /**
     Block row, transactions and app state in one postgres transaction, and only then the blockstore.
     A false result may still have committed, but never saved.
     */
    method WriteBlockToDB(pb: Pending, useStore: bool, o: WriteOutcome) returns (ok: bool)
      requires useStore ==> Contiguous(Tables(), pb.height)
      modifies this
      ensures ok == (Fits(old(Tables()), pb) && o == Landed)
      ensures Tables() ==
              if !Fits(old(Tables()), pb) || o == Lost then old(Tables())
              else if !ok || !useStore then Committed(old(Tables()), pb)
              else Saved(Committed(old(Tables()), pb), pb)
    {
      if pb.height in txs || o == Lost {
        return false;
      }
      if pb.height !in blocks {
        blocks := blocks[pb.height := BlockRow(pb.hashHex, pb.time)];
      }
      txs := txs[pb.height := Batch(pb.time, pb.rows)];
      app := app + {(pb.height, pb.appHash)};
      if o == LandedUnseen {
        return false;
      }
      if useStore {
        store := store[pb.height := Stored(pb.block, pb.seenCommit)];
      }
      ok := true;
    }

    /** What the blockstore holds of the last block: its id, the commit seen for it and its time. */
    method ResumeTail(c: Crypto, height: int) returns (tail: Option<(BlockID, Commit, int)>)
      ensures tail.Some? <==> height in store
      ensures tail.Some? ==> tail.value == (IDOf(c, store[height].block), store[height].seenCommit, store[height].block.time)
    {
      if height in store {
        var last := store[height];
        tail := Some((IDOf(c, last.block), last.seenCommit, last.block.time));
      } else {
        tail := None;
      }
    }

    /** appHash answers a query for the app hash of a height: some row of it, if there is one. */
    ghost predicate Answers(appHash: Option<Bytes>, height: int)
      reads this
    {
      match appHash
      case Some(a) => (height, a) in app
      case None => forall a :: (height, a) !in app
    }
  }

  // ---------------------------------------------------------------- the writer

  class Writer {
    /** height, blockTime, prevBlockID, lastCommit and prevAppHash. */
    var tip: Tip
    /** blockTxs is the first used elements of its backing array. */
    var backing: array<Tx>
    var used: nat
    var acceptedTxs: int
    var totalTxs: int
    var totalBlocks: int
    /** finalHeight, finalAppHash and finalTime. */
    var final: Final
    var queue: seq<InFlight>
    var blockWriteErr: bool

    /** No pending block shares the buffer. */
    ghost predicate Valid()
      reads this
    {
      used <= backing.Length && backing as object !in Slices(queue)
    }

    ghost function Memory(): Mem
      requires Valid()
      reads this, backing, Slices(queue)
    {
      Mem(tip, backing[..used], acceptedTxs, totalTxs, totalBlocks, final, Values(queue), blockWriteErr)
    }

    constructor (cfg: Config)
      ensures Valid() && fresh(backing) && Slices(queue) == {}
      ensures Memory() == FreshMem(NewTip(cfg.genesis), None)
    {
      tip := Tip(1, cfg.genesis, EMPTY_ID, None, []);
      backing, used := new Tx[0], 0;
      acceptedTxs, totalTxs, totalBlocks := 0, 0, 0;
      final := Final(0, [], None);
      queue, blockWriteErr := [], false;
    }

    /** The block over the buffer, its id and the commit over it. */
    method BuildBlock(c: Crypto) returns (pb: InFlight, id: BlockID)
      requires Valid()
      ensures fresh(pb.rows) && fresh(pb.txs)
      ensures var b := NextBlock(tip, backing[..used]);
              Value(pb) == PendingOf(c, b) && id == IDOf(c, b)
    {
      var appHash := HashTxs(c, backing, used);
      var rows := MakeRows(c, backing, used);
      var txs := CopyTxs(backing, used);
      var height, blockTime := tip.height, tip.time;
      var last := if tip.lastCommit.Some? then tip.lastCommit.value else EMPTY_COMMIT;
      var block := Block(height, blockTime, tip.prevID, tip.prevAppHash, last, txs[..]);
      var blockHash := c.blockHash(block);
      id := BlockID(blockHash, c.partSetHeader(block));
      var commitTime := blockTime + 1;
      var seenCommit := Commit(height, id, [CommitSig(commitTime, c.sign(height, id, commitTime))]);
      pb := InFlight(height, blockTime, appHash, HexEncode(blockHash), rows, tip.prevID, tip.prevAppHash, last, txs, seenCommit);
    }

    method Send(pb: InFlight)
      requires Valid() && pb.txs != backing
      modifies this`queue
      ensures Valid() && queue == old(queue) + [pb] && Values(queue) == old(Values(queue)) + [Value(pb)]
      ensures Slices(queue) == old(Slices(queue)) + {pb.rows as object, pb.txs as object}
    {
      SlicesAppend(queue, pb);
      queue := queue + [pb];
    }

    method AdvanceChain(pb: InFlight, id: BlockID)
      modifies this`tip, this`final, this`totalTxs, this`totalBlocks, this`used
      ensures tip == Tip(old(tip.height) + 1, old(tip.time) + 1, id, Some(pb.seenCommit), pb.appHash)
      ensures final == Final(old(tip.height), pb.appHash, Some(old(tip.time)))
      ensures totalTxs == old(totalTxs) + old(used) && totalBlocks == old(totalBlocks) + 1 && used == 0
    {
      final := Final(tip.height, pb.appHash, Some(tip.time));
      tip := Tip(tip.height + 1, tip.time + 1, id, Some(pb.seenCommit), pb.appHash);
      totalTxs, totalBlocks, used := totalTxs + used, totalBlocks + 1, 0;
    }

    method SendAndAdvance(c: Crypto, pb: InFlight, id: BlockID)
      requires Valid() && pb.txs != backing
      requires Value(pb) == PendingOf(c, NextBlock(tip, backing[..used])) && id == IDOf(c, NextBlock(tip, backing[..used]))
      modifies this
      ensures Valid() && backing == old(backing) && Slices(queue) == old(Slices(queue)) + {pb.rows as object, pb.txs as object}
      ensures Memory() == Flushed(c, old(Memory()))
    {
      Send(pb);
      AdvanceChain(pb, id);
    }

    /**
     Builds the next block and sends it; the buffer is emptied but its array is kept. A block that
     cannot be split, signed or sent changes nothing.
     */
    method FlushBlock(c: Crypto, o: FlushOutcome) returns (ok: bool)
      requires Valid()
      modifies this
      ensures Valid() && backing == old(backing) && fresh(Slices(queue) - old(Slices(queue)))
      ensures (Memory(), ok) == Flush(c, old(Memory()), o)
    {
      if used == 0 {
        return true;
      }
      var pb, id := BuildBlock(c);
      if o != Sent {
        return false;
      }
      SendAndAdvance(c, pb, id);
      ok := true;
    }

    /** Appends in place while the array has room, and otherwise moves to a larger one. */
    method Append(tx: Tx)
      requires Valid()
      modifies this`backing, this`used, backing
      ensures Valid() && (backing == old(backing) || fresh(backing))
      ensures used == old(used) + 1 && backing[..used] == old(backing[..used]) + [tx]
      ensures Values(queue) == old(Values(queue))
    {
      if used == backing.Length {
        backing := Grown(backing);
      }
      backing[used] := tx;
      used := used + 1;
    }

    /** Whatever the buffer's array held before, pending blocks keep their transactions. */
    method AddTransaction(cfg: Config, tx: Tx, o: FlushOutcome) returns (ok: bool)
      requires Valid()
      modifies this, backing
      ensures Valid() && (backing == old(backing) || fresh(backing))
      ensures (Memory(), ok) == AddTx(cfg, old(Memory()), tx, o)
    {
      if blockWriteErr {
        return false;
      }
      Append(tx);
      acceptedTxs := acceptedTxs + 1;
      if used >= cfg.maxTxsPerBlock {
        ok := FlushBlock(cfg.crypto, o);
      } else {
        ok := true;
      }
    }

    /**
     The part of Run that continues an interrupted chain, given what postgres answers: the last height
     in core_blocks and its app hash.
     */
    method Resume(cfg: Config, dst: Destination, maxHeight: int, appHash: Option<Bytes>) returns (ok: bool)
      requires Valid() && Memory() == FreshMem(NewTip(cfg.genesis), None)
      requires IsMaxHeight(maxHeight, dst.blocks.Keys) && dst.Answers(appHash, maxHeight)
      modifies this
      ensures Valid() && (ok <==> HasTail(cfg, dst.Tables(), maxHeight))
      ensures ok ==> Memory() == Resumed(cfg, dst.Tables(), maxHeight, if appHash.Some? then appHash.value else [])
    {
      if maxHeight > 0 {
        tip := tip.(height := maxHeight + 1, time := cfg.genesis + maxHeight);
        if appHash.None? {
          return false;
        }
        tip := tip.(prevAppHash := appHash.value);
        if !cfg.useStore {
          return false;
        }
        var tail := dst.ResumeTail(cfg.crypto, maxHeight);
        if tail.None? {
          return false;
        }
        tip := tip.(prevID := tail.value.0, lastCommit := Some(tail.value.1));
        final := final.(time := Some(tail.value.2));
      }
      ok := true;
    }

    /**
     latest answers the query for the last row of core_app_state; hashRead says whether the query for that
     block's hash is answered. Neither failing is an error.
     */
    method RecoverFinal(dst: Destination, resume: bool, latest: Option<(int, Bytes)>, hashRead: bool)
      requires Valid()
      modifies this`final, this`tip
      ensures Valid()
      ensures Memory() ==
              if old(final.height) == 0 && resume && latest.Some? && latest.value.0 > 0
              then Recovered(dst.Tables(), old(Memory()), latest.value.0, latest.value.1, hashRead)
              else old(Memory())
    {
      if final.height == 0 && resume && latest.Some? && latest.value.0 > 0 {
        var h := latest.value.0;
        final := final.(height := h, appHash := latest.value.1);
        if hashRead && h in dst.blocks {
          tip := tip.(prevID := tip.prevID.(hash := HexDecode(dst.blocks[h].hash)));
        }
      }
    }
  }

  lemma SlicesAppend(q: seq<InFlight>, pb: InFlight)
    ensures Slices(q + [pb]) == Slices(q) + {pb.rows as object, pb.txs as object}
  {
    var next := q + [pb];
    forall i | 0 <= i < |q| ensures q[i].rows as object in Slices(next) && q[i].txs as object in Slices(next) {
      assert next[i] == q[i];
    }
    assert next[|q|] == pb;
  }
}
