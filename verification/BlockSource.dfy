/**
 Where the indexer's blocks come from: the polling prefetcher (pkg/etl/prefetch.go) and the block
 stream with its polling fallback (pkg/etl/stream.go).

 The server is a function of the round and the height asked for. A run is cut off after any number of
 rounds, and by cancellation after any number of deliveries.
 */
module BlockSource {
  import opened Options

  datatype Block = Block(height: int, hash: string)

  datatype Delivery = Delivery(block: Block, currentHeight: int)

  datatype Code = Unimplemented | InvalidArgument | OtherCode

  datatype BatchReply = BatchError(code: Code) | BatchBlocks(blocks: map<int, Option<Block>>, current: int)
  datatype SingleReply = SingleError | SingleBlock(block: Option<Block>, current: int)
  datatype StreamReply = OpenError(code: Code) | Opened(messages: seq<Option<Block>>, end: Option<Code>)

  datatype Server = Server(
    batch: (nat, int) -> BatchReply,
    single: (nat, int) -> SingleReply,
    stream: (nat, int) -> StreamReply)

  const BATCH_SIZE := 50
  const MAX_BACKOFF := 2000

  // ---------------------------------------------------------------- an honest server

  ghost predicate HonestBatch(r: BatchReply) {
    r.BatchBlocks? ==> forall h :: h in r.blocks && r.blocks[h].Some? ==> r.blocks[h].value.height == h
  }

  ghost predicate HonestSingle(r: SingleReply, height: int) {
    r.SingleBlock? && r.block.Some? && r.block.value.height >= 0 ==> r.block.value.height == height
  }

  /** Blocks come one after the other from the requested height; empty messages may come between. */
  ghost predicate StreamsFrom(messages: seq<Option<Block>>, height: int) {
    if messages == [] then true
    else if messages[0].None? then StreamsFrom(messages[1..], height)
    else messages[0].value.height == height && StreamsFrom(messages[1..], height + 1)
  }

  /** Asked for height h, the server answers with block h or not at all. */
  ghost predicate Honest(s: Server) {
    && (forall k: nat, h: int :: HonestBatch(s.batch(k, h)))
    && (forall k: nat, h: int :: HonestSingle(s.single(k, h), h))
    && (forall k: nat, h: int :: s.stream(k, h).Opened? ==> StreamsFrom(s.stream(k, h).messages, h))
  }

  // ---------------------------------------------------------------- polling

  /** Milliseconds: 0, then 200 doubling up to 2000. */
  function IncreaseBackoff(current: int): (r: int)
    ensures current == 0 || 200 <= current <= MAX_BACKOFF ==> 200 <= r <= MAX_BACKOFF
  {
    if current == 0 then 200 else if current * 2 > MAX_BACKOFF then MAX_BACKOFF else current * 2
  }

  /** A polling loop between rounds; stopped once cancelled. */
  datatype Poll = Poll(height: int, backoff: int, batchEnabled: bool, out: seq<Delivery>, stopped: bool)

  function RunLength(blocks: map<int, Option<Block>>, h: int, n: nat): (r: nat)
    ensures r <= n
    ensures forall k :: h <= k < h + r ==> k in blocks && blocks[k].Some?
    decreases n
  {
    if n == 0 || h !in blocks || blocks[h].None? then 0 else 1 + RunLength(blocks, h + 1, n - 1)
  }

  /** The block a batch has at a height where it has one. */
  function BlockAt(blocks: map<int, Option<Block>>, h: int): Block {
    if h in blocks && blocks[h].Some? then blocks[h].value else Block(h, "")
  }

  function Emit(blocks: map<int, Option<Block>>, current: int, h: int, n: nat): (r: seq<Delivery>)
    ensures |r| == n
    decreases n
  {
    if n == 0 then [] else Emit(blocks, current, h, n - 1) + [Delivery(BlockAt(blocks, h + n - 1), current)]
  }

  function SingleFetch(r: SingleReply, budget: nat, s: Poll): Poll {
    if r.SingleError? || r.block.None? || r.block.value.height < 0 then s.(backoff := IncreaseBackoff(s.backoff))
    else if |s.out| >= budget then s.(backoff := 0, stopped := true)
    else s.(backoff := 0, out := s.out + [Delivery(r.block.value, r.current)], height := s.height + 1)
  }

  /** The contiguous run of a batch from the requested height; cancellation cuts it short. */
  function BatchFetch(blocks: map<int, Option<Block>>, current: int, budget: nat, s: Poll): Poll
    requires |s.out| <= budget
  {
    var found := RunLength(blocks, s.height, BATCH_SIZE);
    var sent := if |s.out| + found <= budget then found else budget - |s.out|;
    Poll(s.height + sent, if sent < found then s.backoff else 0, s.batchEnabled,
         s.out + Emit(blocks, current, s.height, sent), sent < found)
  }

  function PollRound(server: Server, k: nat, budget: nat, s: Poll): Poll
    requires |s.out| <= budget
  {
    if s.stopped then s
    else if !s.batchEnabled then SingleFetch(server.single(k, s.height), budget, s)
    else
      match server.batch(k, s.height)
      case BatchError(code) =>
        // These codes turn batching off for the rest of the run.
        SingleFetch(server.single(k, s.height), budget, s.(batchEnabled := code == OtherCode))
      case BatchBlocks(blocks, current) =>
        if |blocks| == 0 then s.(backoff := IncreaseBackoff(s.backoff))
        else if RunLength(blocks, s.height, BATCH_SIZE) > 0 then BatchFetch(blocks, current, budget, s)
        else SingleFetch(server.single(k, s.height), budget, s)
  }

  /** Rounds first, first + 1, …. */
  function PollRounds(server: Server, first: nat, rounds: nat, budget: nat, s: Poll): (r: Poll)
    requires |s.out| <= budget
    ensures |r.out| <= budget
    decreases rounds
  {
    if rounds == 0 then s
    else
      var before := PollRounds(server, first, rounds - 1, budget, s);
      PollRound(server, first + rounds - 1, budget, before)
  }

  lemma {:induction false} EmitAt(blocks: map<int, Option<Block>>, current: int, h: int, n: nat, i: nat)
    requires i < n
    ensures Emit(blocks, current, h, n)[i] == Delivery(BlockAt(blocks, h + i), current)
    decreases n
  {
    if i < n - 1 {
      EmitAt(blocks, current, h, n - 1, i);
    }
  }

  // ---------------------------------------------------------------- streaming

  /** A stream loop between rounds; polling once it has fallen back. */
  datatype Tail = Tail(height: int, backoff: int, out: seq<Delivery>, stopped: bool)

  function Forward(messages: seq<Option<Block>>, budget: nat, s: Tail): (r: Tail)
    requires |s.out| <= budget
    ensures |r.out| <= budget
    decreases |messages|
  {
    if messages == [] || s.stopped then s
    else if messages[0].None? then Forward(messages[1..], budget, s)
    else if |s.out| == budget then s.(stopped := true)
    else
      var b := messages[0].value;
      Forward(messages[1..], budget, Tail(b.height + 1, 0, s.out + [Delivery(b, b.height)], false))
  }

  /** The polling loop that takes over: it starts afresh at the height reached. */
  function Fallback(server: Server, first: nat, rounds: nat, budget: nat, s: Tail): (r: Tail)
    requires |s.out| <= budget
    ensures |r.out| <= budget
  {
    var p := PollRounds(server, first, rounds, budget, Poll(s.height, 0, true, s.out, false));
    Tail(p.height, p.backoff, p.out, p.stopped)
  }

  /** How one connection leaves the loop. */
  datatype Turn = Reconnect(tail: Tail) | FallBack(tail: Tail) | Cancelled(tail: Tail)

  function StreamRound(server: Server, k: nat, budget: nat, s: Tail): (r: Turn)
    requires |s.out| <= budget
    ensures |r.tail.out| <= budget
  {
    var reply := server.stream(k, s.height);
    var t := if reply.Opened? then Forward(reply.messages, budget, s) else s;
    var error := if reply.Opened? then reply.end else Some(reply.code);
    if t.stopped then Cancelled(t)
    else if error == Some(Unimplemented) then FallBack(t)
    else Reconnect(t.(backoff := IncreaseBackoff(t.backoff)))
  }

  function StreamRounds(server: Server, k: nat, rounds: nat, budget: nat, s: Tail): (r: Tail)
    requires |s.out| <= budget
    ensures |r.out| <= budget
    decreases rounds
  {
    if rounds == 0 then s
    else
      match StreamRound(server, k, budget, s)
      case Reconnect(t) => StreamRounds(server, k + 1, rounds - 1, budget, t)
      case FallBack(t) => Fallback(server, k + 1, rounds - 1, budget, t)
      case Cancelled(t) => t
  }

  // ---------------------------------------------------------------- no gap, no repeat

  ghost predicate Consecutive(out: seq<Delivery>, start: int) {
    forall i :: 0 <= i < |out| ==> out[i].block.height == start + i
  }

  predicate GoodBackoff(b: int) { b == 0 || 200 <= b <= MAX_BACKOFF }

  /** What was delivered is start, start + 1, …, and the next height continues it. */
  ghost predicate OnTrack(out: seq<Delivery>, height: int, backoff: int, start: int) {
    Consecutive(out, start) && height == start + |out| && GoodBackoff(backoff)
  }

  ghost predicate PollOnTrack(s: Poll, start: int) { OnTrack(s.out, s.height, s.backoff, start) }

  lemma SingleOnTrack(r: SingleReply, budget: nat, s: Poll, start: int)
    requires PollOnTrack(s, start) && HonestSingle(r, s.height)
    ensures PollOnTrack(SingleFetch(r, budget, s), start)
  {
  }

  lemma AppendOnTrack(a: seq<Delivery>, b: seq<Delivery>, start: int)
    requires Consecutive(a, start) && Consecutive(b, start + |a|)
    ensures Consecutive(a + b, start)
  {
  }

  lemma BatchOnTrack(blocks: map<int, Option<Block>>, current: int, budget: nat, s: Poll, start: int)
    requires PollOnTrack(s, start) && |s.out| <= budget && HonestBatch(BatchBlocks(blocks, current))
    ensures PollOnTrack(BatchFetch(blocks, current, budget, s), start)
  {
    var found := RunLength(blocks, s.height, BATCH_SIZE);
    var sent := if |s.out| + found <= budget then found else budget - |s.out|;
    var emitted := Emit(blocks, current, s.height, sent);
    forall j | 0 <= j < sent ensures emitted[j].block.height == s.height + j {
      EmitAt(blocks, current, s.height, sent, j);
    }
    AppendOnTrack(s.out, emitted, start);
  }

  lemma RoundOnTrack(server: Server, k: nat, budget: nat, s: Poll, start: int)
    requires Honest(server) && PollOnTrack(s, start) && |s.out| <= budget
    ensures PollOnTrack(PollRound(server, k, budget, s), start)
  {
    var single, batch := server.single(k, s.height), server.batch(k, s.height);
    assert HonestSingle(single, s.height) && HonestBatch(batch);
    SingleOnTrack(single, budget, s, start);
    if batch.BatchError? {
      SingleOnTrack(single, budget, s.(batchEnabled := batch.code == OtherCode), start);
    } else {
      BatchOnTrack(batch.blocks, batch.current, budget, s, start);
    }
  }

  lemma {:induction false} PollRoundsOnTrack(server: Server, first: nat, rounds: nat, budget: nat, s: Poll, start: int)
    requires Honest(server) && PollOnTrack(s, start) && |s.out| <= budget
    ensures PollOnTrack(PollRounds(server, first, rounds, budget, s), start)
    decreases rounds
  {
    if rounds > 0 {
      PollRoundsOnTrack(server, first, rounds - 1, budget, s, start);
      RoundOnTrack(server, first + rounds - 1, budget, PollRounds(server, first, rounds - 1, budget, s), start);
    }
  }

  lemma {:induction false} ForwardOnTrack(messages: seq<Option<Block>>, budget: nat, s: Tail, start: int)
    requires OnTrack(s.out, s.height, s.backoff, start) && |s.out| <= budget && StreamsFrom(messages, s.height)
    ensures var r := Forward(messages, budget, s); OnTrack(r.out, r.height, r.backoff, start)
    decreases |messages|
  {
    if messages != [] && !s.stopped {
      if messages[0].None? {
        ForwardOnTrack(messages[1..], budget, s, start);
      } else if |s.out| < budget {
        var b := messages[0].value;
        ForwardOnTrack(messages[1..], budget, Tail(b.height + 1, 0, s.out + [Delivery(b, b.height)], false), start);
      }
    }
  }

  lemma TurnOnTrack(server: Server, k: nat, budget: nat, s: Tail, start: int)
    requires Honest(server) && OnTrack(s.out, s.height, s.backoff, start) && |s.out| <= budget
    ensures var t := StreamRound(server, k, budget, s).tail; OnTrack(t.out, t.height, t.backoff, start)
  {
    var reply := server.stream(k, s.height);
    if reply.Opened? {
      ForwardOnTrack(reply.messages, budget, s, start);
    }
  }

  /**
   With an honest server, whatever mix of stream drops, reconnects, batch gaps, single fetches and
   polling fallback: the blocks delivered are start, start + 1, … and the backoff is 0 or 200 to 2000.
   */
  lemma {:induction false} StreamOnTrack(server: Server, k: nat, rounds: nat, budget: nat, s: Tail, start: int)
    requires Honest(server) && OnTrack(s.out, s.height, s.backoff, start) && |s.out| <= budget
    ensures var r := StreamRounds(server, k, rounds, budget, s); OnTrack(r.out, r.height, r.backoff, start)
    decreases rounds
  {
    if rounds > 0 {
      TurnOnTrack(server, k, budget, s, start);
      match StreamRound(server, k, budget, s) {
        case Reconnect(t) => StreamOnTrack(server, k + 1, rounds - 1, budget, t, start);
        case FallBack(t) => PollRoundsOnTrack(server, k + 1, rounds - 1, budget, Poll(t.height, 0, true, t.out, false), start);
        case Cancelled(t) =>
      }
    }
  }

  /** A polling round that is not cut short delivers something exactly when it leaves no backoff. */
  lemma RoundDeliversOrBacksOff(server: Server, k: nat, budget: nat, s: Poll)
    requires |s.out| <= budget && GoodBackoff(s.backoff) && !PollRound(server, k, budget, s).stopped
    ensures var r := PollRound(server, k, budget, s);
            s.out <= r.out && (r.out == s.out <==> r.backoff > 0)
  {
  }

  /** Once batching is off it stays off. */
  lemma {:induction false} BatchingStaysOff(server: Server, first: nat, rounds: nat, budget: nat, s: Poll)
    requires |s.out| <= budget && !s.batchEnabled
    ensures !PollRounds(server, first, rounds, budget, s).batchEnabled
    decreases rounds
  {
    if rounds > 0 {
      BatchingStaysOff(server, first, rounds - 1, budget, s);
    }
  }

  // ---------------------------------------------------------------- the loops

  class Prefetcher {
    var batchEnabled: bool

    constructor ()
      ensures batchEnabled
    {
      batchEnabled := true;
    }

    /** Sends the contiguous run of a batch; cancelled when the budget ends it. */
    static method EmitRun(blocks: map<int, Option<Block>>, current: int, height: int, out: seq<Delivery>, budget: nat, size: nat)
        returns (height': int, out': seq<Delivery>, emitted: nat, cancelled: bool)
      requires |out| <= budget
      ensures var found := RunLength(blocks, height, size);
              && emitted == (if |out| + found <= budget then found else budget - |out|)
              && cancelled == (emitted < found)
              && height' == height + emitted
              && out' == out + Emit(blocks, current, height, emitted)
    {
      height', out', emitted, cancelled := height, out, 0, false;
      ghost var found := RunLength(blocks, height, size);
      while emitted < size
        invariant emitted <= found && |out| + emitted <= budget && height' == height + emitted
        invariant out' == out + Emit(blocks, current, height, emitted)
        invariant found == emitted + RunLength(blocks, height + emitted, size - emitted)
        invariant |out'| == |out| + emitted
        decreases size - emitted
      {
        var h := height + emitted;
        if h !in blocks || blocks[h].None? {
          return;
        }
        if |out'| == budget {
          cancelled := true;
          return;
        }
        out' := out' + [Delivery(blocks[h].value, current)];
        height', emitted := h + 1, emitted + 1;
      }
    }

    /** The polling loop, for the given rounds. */
    method RunInto(server: Server, first: nat, rounds: nat, budget: nat, start: int, already: seq<Delivery>)
        returns (height: int, backoff: int, out: seq<Delivery>, stopped: bool)
      requires |already| <= budget
      modifies this
      ensures Poll(height, backoff, batchEnabled, out, stopped) ==
              PollRounds(server, first, rounds, budget, Poll(start, 0, old(batchEnabled), already, false))
    {
      height, backoff, out, stopped := start, 0, already, false;
      for k := 0 to rounds
        invariant Poll(height, backoff, batchEnabled, out, stopped) ==
                  PollRounds(server, first, k, budget, Poll(start, 0, old(batchEnabled), already, false))
        invariant |out| <= budget
      {
        if !stopped {
          height, backoff, out, stopped := Round(server, first + k, budget, height, backoff, out);
        }
      }
    }

    /** One pass of the loop. */
    method Round(server: Server, k: nat, budget: nat, height: int, backoff: int, out: seq<Delivery>)
        returns (height': int, backoff': int, out': seq<Delivery>, stopped: bool)
      requires |out| <= budget
      modifies this
      ensures Poll(height', backoff', batchEnabled, out', stopped) ==
              PollRound(server, k, budget, Poll(height, backoff, old(batchEnabled), out, false))
    {
      height', backoff', out', stopped := height, backoff, out, false;
      if batchEnabled {
        var reply := server.batch(k, height);
        if reply.BatchError? {
          if reply.code == Unimplemented || reply.code == InvalidArgument {
            batchEnabled := false;
          }
        } else {
          if |reply.blocks| == 0 {
            backoff' := IncreaseBackoff(backoff);
            return;
          }
          var emitted;
          height', out', emitted, stopped := EmitRun(reply.blocks, reply.current, height, out, budget, BATCH_SIZE);
          if stopped {
            return;
          }
          if emitted > 0 {
            backoff' := 0;
            return;
          }
        }
      }
      var single := server.single(k, height);
      if single.SingleError? || single.block.None? || single.block.value.height < 0 {
        backoff' := IncreaseBackoff(backoff);
        return;
      }
      backoff' := 0;
      if |out| >= budget {
        stopped := true;
        return;
      }
      out' := out + [Delivery(single.block.value, single.current)];
      height' := height + 1;
    }
  }

  /** The stream loop of the source, for the given rounds: its state at the end is that of StreamRounds. */
  method RunStream(server: Server, rounds: nat, budget: nat, start: int)
      returns (height: int, backoff: int, out: seq<Delivery>, stopped: bool)
    ensures Tail(height, backoff, out, stopped) == StreamRounds(server, 0, rounds, budget, Tail(start, 0, [], false))
  {
    height, backoff, out, stopped := start, 0, [], false;
    ghost var whole := StreamRounds(server, 0, rounds, budget, Tail(start, 0, [], false));
    for k := 0 to rounds
      invariant |out| <= budget && !stopped
      invariant whole == StreamRounds(server, k, rounds - k, budget, Tail(height, backoff, out, stopped))
    {
      var unimplemented;
      height, backoff, out, stopped, unimplemented := Connect(server, k, budget, height, backoff, out);
      if stopped {
        return;
      }
      if unimplemented {
        var p := new Prefetcher();
        height, backoff, out, stopped := p.RunInto(server, k + 1, rounds - k - 1, budget, height, out);
        return;
      }
      backoff := IncreaseBackoff(backoff);
    }
  }

  /** One connection, from opening the stream to its end. */
  method Connect(server: Server, k: nat, budget: nat, height: int, backoff: int, out: seq<Delivery>)
      returns (height': int, backoff': int, out': seq<Delivery>, stopped: bool, unimplemented: bool)
    requires |out| <= budget
    ensures var t := Tail(height', backoff', out', stopped);
            StreamRound(server, k, budget, Tail(height, backoff, out, false)) ==
            if stopped then Cancelled(t)
            else if unimplemented then FallBack(t)
            else Reconnect(t.(backoff := IncreaseBackoff(backoff')))
  {
    height', backoff', out', stopped := height, backoff, out, false;
    var reply := server.stream(k, height);
    if reply.OpenError? {
      unimplemented := reply.code == Unimplemented;
    } else {
      height', backoff', out', stopped := ForwardAll(reply.messages, budget, height, backoff, out);
      unimplemented := reply.end == Some(Unimplemented);
    }
  }

  method ForwardAll(messages: seq<Option<Block>>, budget: nat, height: int, backoff: int, out: seq<Delivery>)
      returns (height': int, backoff': int, out': seq<Delivery>, stopped: bool)
    requires |out| <= budget
    ensures Tail(height', backoff', out', stopped) == Forward(messages, budget, Tail(height, backoff, out, false))
  {
    height', backoff', out', stopped := height, backoff, out, false;
    assert messages[0..] == messages;
    for i := 0 to |messages|
      invariant |out'| <= budget && !stopped
      invariant Forward(messages, budget, Tail(height, backoff, out, false)) ==
                Forward(messages[i..], budget, Tail(height', backoff', out', false))
    {
      assert messages[i..][1..] == messages[i + 1..];
      if messages[i].None? {
        continue;
      }
      if |out'| == budget {
        stopped := true;
        return;
      }
      out' := out' + [Delivery(messages[i].value, messages[i].value.height)];
      height' := messages[i].value.height + 1;
      backoff' := 0;
    }
  }
}
