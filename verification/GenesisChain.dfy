/**
 The chain the genesis writer produces (cmd/genesis-writer/writer.go): blocks, the commit over each,
 and the part of the writer's memory that links the next block to the last one.
 */
module GenesisChain {
  import opened Options

  type Byte = b: int | 0 <= b < 256
  type Bytes = seq<Byte>
  type Tx = Bytes

  /** The zero value is BlockID([], []). */
  datatype BlockID = BlockID(hash: Bytes, parts: Bytes)

  datatype CommitSig = CommitSig(time: int, signature: Bytes)

  datatype Commit = Commit(height: int, id: BlockID, sigs: seq<CommitSig>)

  const EMPTY_ID := BlockID([], [])
  const EMPTY_COMMIT := Commit(0, EMPTY_ID, [])

  /**
   Times are in seconds. appHash is the app hash after the previous block. Header fields that are
   the same for every block (chain id, validator hashes, proposer) are left to the hash functions.
   */
  datatype Block = Block(height: int, time: int, lastID: BlockID, appHash: Bytes, lastCommit: Commit, txs: seq<Tx>)

  /** The hash functions and the validator's signature, all deterministic. */
  datatype Crypto = Crypto(
    sha256: Bytes -> Bytes,
    blockHash: Block -> Bytes,
    partSetHeader: Block -> Bytes,
    sign: (int, BlockID, int) -> Bytes)

  function Concat(txs: seq<Tx>): Bytes {
    if txs == [] then [] else Concat(txs[..|txs| - 1]) + txs[|txs| - 1]
  }

  function AppHash(c: Crypto, txs: seq<Tx>): Bytes { c.sha256(Concat(txs)) }

  function IDOf(c: Crypto, b: Block): BlockID { BlockID(c.blockHash(b), c.partSetHeader(b)) }

  function CommitAt(c: Crypto, height: int, id: BlockID, time: int): Commit {
    Commit(height, id, [CommitSig(time, c.sign(height, id, time))])
  }

  /** The commit over a block is timed one second after it. */
  function CommitOf(c: Crypto, b: Block): Commit { CommitAt(c, b.height, IDOf(c, b), b.time + 1) }

  // ---------------------------------------------------------------- hexadecimal text

  const LOWER := "0123456789abcdef"

  function HexEncode(b: Bytes): (s: string)
    ensures |s| == 2 * |b|
  {
    if b == [] then "" else [LOWER[b[0] / 16], LOWER[b[0] % 16]] + HexEncode(b[1..])
  }

  function DigitValue(c: char): Option<int> {
    if '0' <= c <= '9' then Some(c as int - '0' as int)
    else if 'a' <= c <= 'f' then Some(c as int - 'a' as int + 10)
    else if 'A' <= c <= 'F' then Some(c as int - 'A' as int + 10)
    else None
  }

  /** The bytes decoded before the first bad digit; a trailing single digit is dropped. */
  function HexDecode(s: string): Bytes {
    if |s| < 2 then []
    else
      var hi, lo := DigitValue(s[0]), DigitValue(s[1]);
      if hi.Some? && lo.Some? && 0 <= 16 * hi.value + lo.value < 256
      then [16 * hi.value + lo.value] + HexDecode(s[2..])
      else []
  }

  lemma DigitRoundTrip(d: int)
    requires 0 <= d < 16
    ensures DigitValue(LOWER[d]) == Some(d)
  {
    assert LOWER[0] == '0' && LOWER[1] == '1' && LOWER[2] == '2' && LOWER[3] == '3' && LOWER[4] == '4';
    assert LOWER[5] == '5' && LOWER[6] == '6' && LOWER[7] == '7' && LOWER[8] == '8' && LOWER[9] == '9';
    assert LOWER[10] == 'a' && LOWER[11] == 'b' && LOWER[12] == 'c' && LOWER[13] == 'd' && LOWER[14] == 'e';
    assert LOWER[15] == 'f';
  }

  lemma ByteRoundTrip(x: int)
    requires 0 <= x < 256
    ensures DigitValue(LOWER[x / 16]) == Some(x / 16) && DigitValue(LOWER[x % 16]) == Some(x % 16)
    ensures 16 * (x / 16) + x % 16 == x
  {
    DigitRoundTrip(x / 16);
    DigitRoundTrip(x % 16);
  }

  /** A block hash stored as text in core_blocks reads back as the same bytes. */
  lemma {:induction false} HexRoundTrip(b: Bytes)
    ensures HexDecode(HexEncode(b)) == b
    decreases |b|
  {
    if b != [] {
      var x: int := b[0];
      ByteRoundTrip(x);
      var s := HexEncode(b);
      assert s[0] == LOWER[x / 16] && s[1] == LOWER[x % 16] && s[2..] == HexEncode(b[1..]);
      HexRoundTrip(b[1..]);
    }
  }

  // ---------------------------------------------------------------- the tip and the chain

  /** What the writer holds to build the next block: its height and time and the links to the last one. */
  datatype Tip = Tip(height: int, time: int, prevID: BlockID, lastCommit: Option<Commit>, prevAppHash: Bytes)

  function NewTip(genesis: int): Tip { Tip(1, genesis, EMPTY_ID, None, []) }

  function NextBlock(t: Tip, txs: seq<Tx>): Block {
    Block(t.height, t.time, t.prevID, t.prevAppHash, if t.lastCommit.Some? then t.lastCommit.value else EMPTY_COMMIT, txs)
  }

  /** The tip after the block b is built from t. */
  function TipOn(c: Crypto, b: Block): Tip {
    Tip(b.height + 1, b.time + 1, IDOf(c, b), Some(CommitOf(c, b)), AppHash(c, b.txs))
  }

  function Advance(c: Crypto, t: Tip, txs: seq<Tx>): Tip { TipOn(c, NextBlock(t, txs)) }

  /** The tip of one uninterrupted run that flushed the given transaction lists, one per block. */
  function TipAfter(c: Crypto, genesis: int, lists: seq<seq<Tx>>): Tip {
    if lists == [] then NewTip(genesis)
    else Advance(c, TipAfter(c, genesis, lists[..|lists| - 1]), lists[|lists| - 1])
  }

  /** The blocks of that run. */
  function Chain(c: Crypto, genesis: int, lists: seq<seq<Tx>>): (chain: seq<Block>)
    ensures |chain| == |lists|
  {
    if lists == [] then []
    else
      var n := |lists| - 1;
      Chain(c, genesis, lists[..n]) + [NextBlock(TipAfter(c, genesis, lists[..n]), lists[n])]
  }

  lemma ChainAppend(c: Crypto, genesis: int, lists: seq<seq<Tx>>, txs: seq<Tx>)
    ensures Chain(c, genesis, lists + [txs]) == Chain(c, genesis, lists) + [NextBlock(TipAfter(c, genesis, lists), txs)]
    ensures TipAfter(c, genesis, lists + [txs]) == Advance(c, TipAfter(c, genesis, lists), txs)
  {
    assert (lists + [txs])[..|lists|] == lists;
  }

  lemma {:induction false} ChainPrefix(c: Crypto, genesis: int, lists: seq<seq<Tx>>, k: nat)
    requires k <= |lists|
    ensures Chain(c, genesis, lists[..k]) == Chain(c, genesis, lists)[..k]
    decreases |lists|
  {
    if k == |lists| {
      assert lists[..k] == lists;
    } else {
      var n := |lists| - 1;
      assert lists[..n][..k] == lists[..k];
      ChainPrefix(c, genesis, lists[..n], k);
    }
  }

  lemma ChainAt(c: Crypto, genesis: int, lists: seq<seq<Tx>>, i: nat)
    requires i < |lists|
    ensures Chain(c, genesis, lists)[i] == NextBlock(TipAfter(c, genesis, lists[..i]), lists[i])
  {
    ChainPrefix(c, genesis, lists, i + 1);
    assert lists[..i + 1][..i] == lists[..i];
    assert lists[..i + 1][i] == lists[i];
  }

  lemma TipFollowsLast(c: Crypto, genesis: int, lists: seq<seq<Tx>>, k: nat)
    requires 0 < k <= |lists|
    ensures TipAfter(c, genesis, lists[..k]) == TipOn(c, Chain(c, genesis, lists)[k - 1])
  {
    ChainAt(c, genesis, lists, k - 1);
    assert lists[..k][..k - 1] == lists[..k - 1];
  }

  lemma {:induction false} TipHeight(c: Crypto, genesis: int, lists: seq<seq<Tx>>)
    ensures TipAfter(c, genesis, lists).height == |lists| + 1
    ensures TipAfter(c, genesis, lists).time == genesis + |lists|
    decreases |lists|
  {
    if lists != [] {
      TipHeight(c, genesis, lists[..|lists| - 1]);
    }
  }

  /**
   A chain is linked from genesis: heights 1, 2, …, one second apart, and each block carries the id of,
   the commit over and the app hash after the block before it.
   */
  ghost predicate Linked(c: Crypto, genesis: int, chain: seq<Block>) {
    forall i :: 0 <= i < |chain| ==> LinkedAt(c, genesis, chain, i)
  }

  ghost predicate LinkedAt(c: Crypto, genesis: int, chain: seq<Block>, i: nat)
    requires i < |chain|
  {
    var b := chain[i];
    && b.height == i + 1
    && b.time == genesis + i
    && (i == 0 ==> b.lastID == EMPTY_ID && b.appHash == [] && b.lastCommit == EMPTY_COMMIT)
    && (i > 0 ==>
          && b.lastID == IDOf(c, chain[i - 1])
          && b.appHash == AppHash(c, chain[i - 1].txs)
          && b.lastCommit == CommitOf(c, chain[i - 1]))
  }

  /** Every run produces a linked chain, whatever the transactions. */
  lemma ChainIsLinked(c: Crypto, genesis: int, lists: seq<seq<Tx>>)
    ensures Linked(c, genesis, Chain(c, genesis, lists))
    ensures forall i :: 0 <= i < |lists| ==> Chain(c, genesis, lists)[i].txs == lists[i]
  {
    var chain := Chain(c, genesis, lists);
    forall i | 0 <= i < |lists| ensures LinkedAt(c, genesis, chain, i) && chain[i].txs == lists[i] {
      ChainAt(c, genesis, lists, i);
      TipHeight(c, genesis, lists[..i]);
      if i > 0 {
        TipFollowsLast(c, genesis, lists, i);
      }
    }
  }

  /** Linked chains with the same transactions are the same chain: there is nothing to fork on. */
  lemma {:induction false} LinkedIsUnique(c: Crypto, genesis: int, a: seq<Block>, b: seq<Block>, k: nat)
    requires Linked(c, genesis, a) && Linked(c, genesis, b) && k <= |a| && k <= |b|
    requires forall i :: 0 <= i < k ==> a[i].txs == b[i].txs
    ensures a[..k] == b[..k]
    decreases k
  {
    if k > 0 {
      LinkedIsUnique(c, genesis, a, b, k - 1);
      assert LinkedAt(c, genesis, a, k - 1) && LinkedAt(c, genesis, b, k - 1);
      assert k > 1 ==> a[k - 2] == a[..k - 1][k - 2] == b[..k - 1][k - 2] == b[k - 2];
      assert a[k - 1] == b[k - 1];
      assert a[..k] == a[..k - 1] + [a[k - 1]];
      assert b[..k] == b[..k - 1] + [b[k - 1]];
    }
  }

  // ---------------------------------------------------------------- transactions across blocks

  function Flat(lists: seq<seq<Tx>>): seq<Tx> {
    if lists == [] then [] else Flat(lists[..|lists| - 1]) + lists[|lists| - 1]
  }

  lemma FlatAppend(lists: seq<seq<Tx>>, txs: seq<Tx>)
    ensures Flat(lists + [txs]) == Flat(lists) + txs
  {
    assert (lists + [txs])[..|lists|] == lists;
  }

  lemma FlatFrom(lists: seq<seq<Tx>>, k: nat, txs: seq<Tx>)
    requires k <= |lists|
    ensures Flat((lists + [txs])[k..]) == Flat(lists[k..]) + txs
  {
    assert (lists + [txs])[k..] == lists[k..] + [txs];
    FlatAppend(lists[k..], txs);
  }
}
