/**
 Emitting comments in two passes (cmd/genesis-writer/entities_comment.go) through the batched emitter
 (cmd/genesis-writer/batch.go), whose batches are emitted concurrently.

 The order in which a batch lands is a parameter: any rearrangement of the batch.
 */
module CommentEmission {
  import opened Ordering
  import opened Options

  /** One row of the source's comments, as far as emission cares, with its author's wallet known. */
  datatype Comment = Comment(id: int, text: string)

  /** A row of comment_threads. */
  datatype Thread = Thread(comment: int, parent: int)

  /**
   How a batch lands, given the batches before it; which rows report an error; which of those were handed
   to the writer before the error and land all the same, as when the flush they set off fails and a later
   one succeeds; and after how many rows the query breaks off, if it does.
   */
  datatype World = World(
    order: (nat, seq<Comment>) -> seq<Comment>, fails: Comment -> bool, leaves: Comment -> bool, workers: nat, breaksAfter: Option<nat>)

  /** The rows the query yields. */
  function Delivered(w: World, rows: seq<Comment>): seq<Comment> {
    if w.breaksAfter.Some? && w.breaksAfter.value < |rows| then rows[..w.breaksAfter.value] else rows
  }

  ghost predicate Rearranges(w: World) {
    forall k: nat, b: seq<Comment> :: multiset(w.order(k, b)) == multiset(b)
  }

  // ---------------------------------------------------------------- batches

  function BatchSize(configured: int, workers: nat): int {
    if configured <= 0 then workers * 2 else configured
  }

  predicate Lands(w: World, c: Comment) { !w.fails(c) || w.leaves(c) }

  function Landed(w: World, s: seq<Comment>): seq<Comment> {
    if s == [] then []
    else
      var rest := Landed(w, s[..|s| - 1]);
      if Lands(w, s[|s| - 1]) then rest + [s[|s| - 1]] else rest
  }

  predicate NoErrors(s: seq<Comment>, fails: Comment -> bool) { forall i :: 0 <= i < |s| ==> !fails(s[i]) }

  /** One batch: every row is tried, and what lands does so in the batch's own order. */
  method ProcessBatch(w: World, k: nat, batch: seq<Comment>) returns (landed: seq<Comment>, ok: bool)
    ensures landed == Landed(w, w.order(k, batch))
    ensures ok <==> NoErrors(batch, w.fails)
  {
    var arrived := w.order(k, batch);
    landed := [];
    for i := 0 to |arrived|
      invariant landed == Landed(w, arrived[..i])
    {
      assert arrived[..i + 1][..i] == arrived[..i];
      if Lands(w, arrived[i]) {
        landed := landed + [arrived[i]];
      }
    }
    assert arrived[..|arrived|] == arrived;
    ok := true;
    for i := 0 to |batch|
      invariant ok && forall j :: 0 <= j < i ==> !w.fails(batch[j])
    {
      if w.fails(batch[i]) {
        return landed, false;
      }
    }
  }

  /** What lands of the batches from k on, and whether all went well; an error ends it after its batch. */
  function Emitted(w: World, k: nat, rows: seq<Comment>, size: nat, queryFails: bool): (seq<Comment>, bool)
    requires size > 0
    decreases |rows|
  {
    if |rows| < size then
      if queryFails then ([], false)
      else if rows == [] then ([], true)
      else (Landed(w, w.order(k, rows)), NoErrors(rows, w.fails))
    else
      var batch := rows[..size];
      var landed := Landed(w, w.order(k, batch));
      if !NoErrors(batch, w.fails) then (landed, false)
      else
        var rest := Emitted(w, k + 1, rows[size..], size, queryFails);
        (landed + rest.0, rest.1)
  }

  lemma FullBatch(w: World, k: nat, batch: seq<Comment>, tail: seq<Comment>, size: nat, queryFails: bool)
    requires |batch| == size > 0
    ensures var landed := Landed(w, w.order(k, batch));
            var rest := Emitted(w, k + 1, tail, size, queryFails);
            Emitted(w, k, batch + tail, size, queryFails) ==
            if NoErrors(batch, w.fails) then (landed + rest.0, rest.1) else (landed, false)
  {
    assert (batch + tail)[..size] == batch && (batch + tail)[size..] == tail;
  }

  /** Reads the rows into batches and emits each full batch, then what is left. */
  method ProcessBatched(w: World, rows: seq<Comment>, configured: int, queryFails: bool)
      returns (out: seq<Comment>, ok: bool)
    requires w.workers > 0
    ensures (out, ok) == Emitted(w, 0, rows, BatchSize(configured, w.workers), queryFails)
  {
    var size := configured;
    if size <= 0 {
      size := w.workers * 2;
    }
    out, ok := EmitRows(w, rows, size, queryFails);
  }

  method EmitRows(w: World, rows: seq<Comment>, size: nat, queryFails: bool) returns (out: seq<Comment>, ok: bool)
    requires size > 0
    ensures (out, ok) == Emitted(w, 0, rows, size, queryFails)
  {
    out, ok := [], true;
    var batch: seq<Comment> := [];
    var batches: nat := 0;
    ghost var whole := Emitted(w, 0, rows, size, queryFails);
    // What emitting the rows still held or unread yields.
    ghost var rest := whole;
    assert [] + rows[0..] == rows;
    for i := 0 to |rows|
      invariant |batch| < size
      invariant rest == Emitted(w, batches, batch + rows[i..], size, queryFails)
      invariant whole.0 == out + rest.0 && whole.1 == rest.1
    {
      Shift(batch, rows, i);
      batch := batch + [rows[i]];
      if |batch| >= size {
        FullBatch(w, batches, batch, rows[i + 1..], size, queryFails);
        var landed, landedAll := ProcessBatch(w, batches, batch);
        if !landedAll {
          return out + landed, false;
        }
        rest := Emitted(w, batches + 1, rows[i + 1..], size, queryFails);
        Regroup(out, landed, rest.0, rows[i + 1..]);
        out, batch, batches := out + landed, [], batches + 1;
      }
    }
    assert batch + rows[|rows|..] == batch && out + [] == out;
    if queryFails {
      return out, false;
    }
    if |batch| > 0 {
      var landed, landedAll := ProcessBatch(w, batches, batch);
      out, ok := out + landed, landedAll;
    }
  }

  lemma Regroup(a: seq<Comment>, b: seq<Comment>, c: seq<Comment>, d: seq<Comment>)
    ensures a + (b + c) == (a + b) + c && [] + d == d
  {
  }

  lemma Shift(batch: seq<Comment>, rows: seq<Comment>, i: nat)
    requires i < |rows|
    ensures batch + rows[i..] == (batch + [rows[i]]) + rows[i + 1..]
  {
  }

  lemma {:induction false} LandedAll(w: World, s: seq<Comment>)
    requires NoErrors(s, w.fails)
    ensures Landed(w, s) == s
    decreases |s|
  {
    if s != [] {
      LandedAll(w, s[..|s| - 1]);
      assert s == s[..|s| - 1] + [s[|s| - 1]];
    }
  }

  lemma {:induction false} LandedMembers(w: World, s: seq<Comment>)
    ensures multiset(Landed(w, s)) <= multiset(s)
    decreases |s|
  {
    if s != [] {
      LandedMembers(w, s[..|s| - 1]);
      assert s == s[..|s| - 1] + [s[|s| - 1]];
    }
  }

  lemma BatchLands(w: World, k: nat, batch: seq<Comment>)
    requires Rearranges(w)
    ensures multiset(Landed(w, w.order(k, batch))) <= multiset(batch)
    ensures NoErrors(batch, w.fails) ==> multiset(Landed(w, w.order(k, batch))) == multiset(batch)
  {
    var arrived := w.order(k, batch);
    assert multiset(arrived) == multiset(batch);
    LandedMembers(w, arrived);
    if NoErrors(batch, w.fails) {
      SameElements(arrived, batch);
      forall i | 0 <= i < |arrived| ensures !w.fails(arrived[i]) {
        assert arrived[i] in batch;
      }
      LandedAll(w, arrived);
    }
  }

  /** Whatever the batch size and the order inside batches: no row twice, and every row when all is well. */
  lemma {:induction false} EmittedOnce(w: World, k: nat, rows: seq<Comment>, size: nat, queryFails: bool)
    requires Rearranges(w) && size > 0
    ensures var r := Emitted(w, k, rows, size, queryFails);
            && multiset(r.0) <= multiset(rows)
            && (r.1 ==> multiset(r.0) == multiset(rows))
            && (r.1 <==> !queryFails && NoErrors(rows, w.fails))
    decreases |rows|
  {
    if |rows| < size {
      BatchLands(w, k, rows);
    } else {
      var batch, tail := rows[..size], rows[size..];
      assert rows == batch + tail;
      BatchLands(w, k, batch);
      EmittedOnce(w, k + 1, tail, size, queryFails);
      NoErrorsSplit(batch, tail, w.fails);
    }
  }

  lemma NoErrorsSplit(a: seq<Comment>, b: seq<Comment>, fails: Comment -> bool)
    ensures NoErrors(a + b, fails) <==> NoErrors(a, fails) && NoErrors(b, fails)
  {
    var s := a + b;
    assert forall i :: 0 <= i < |a| ==> s[i] == a[i];
    assert forall i :: 0 <= i < |b| ==> s[|a| + i] == b[i];
  }

  // ---------------------------------------------------------------- two passes

  predicate IsReply(threads: seq<Thread>, id: int) { exists i :: 0 <= i < |threads| && threads[i].comment == id }

  /** A reply under a reply. */
  predicate Nested(threads: seq<Thread>) { exists i :: 0 <= i < |threads| && IsReply(threads, threads[i].parent) }

  function Select(comments: seq<Comment>, threads: seq<Thread>, replies: bool): seq<Comment> {
    if comments == [] then []
    else
      var rest := Select(comments[..|comments| - 1], threads, replies);
      var c := comments[|comments| - 1];
      if IsReply(threads, c.id) == replies then rest + [c] else rest
  }

  /** The parent attached to a comment: the first one its threads list. */
  function ParentOf(threads: seq<Thread>, id: int): Option<int> {
    if threads == [] then None
    else if threads[0].comment == id then Some(threads[0].parent)
    else ParentOf(threads[1..], id)
  }

  datatype Outcome = Refused | Failed | Done

  /** The two passes run in worlds of their own, so their batches land independently. */
  method WriteComments(roots: World, replies: World, comments: seq<Comment>, threads: seq<Thread>, configured: int)
      returns (out: seq<Comment>, r: Outcome)
    requires roots.workers > 0 && replies.workers > 0
    ensures (out, r) == CommentRun(roots, replies, comments, threads, configured)
  {
    var nested := CountNested(threads);
    if nested > 0 {
      return [], Refused;
    }
    var first, ok := ProcessBatched(roots, Delivered(roots, Select(comments, threads, false)), configured, roots.breaksAfter.Some?);
    if !ok {
      return first, Failed;
    }
    var second, ok2 := ProcessBatched(replies, Delivered(replies, Select(comments, threads, true)), configured, replies.breaksAfter.Some?);
    return first + second, if ok2 then Done else Failed;
  }

  method CountNested(threads: seq<Thread>) returns (n: nat)
    ensures n > 0 <==> Nested(threads)
  {
    n := 0;
    for i := 0 to |threads|
      invariant n > 0 <==> exists k :: 0 <= k < i && IsReply(threads, threads[k].parent)
    {
      if IsReply(threads, threads[i].parent) {
        n := n + 1;
      }
    }
  }

  /** One pass over its rows, as far as the query yields them. */
  function Pass(w: World, rows: seq<Comment>, configured: int): (seq<Comment>, bool)
    requires w.workers > 0
  {
    Emitted(w, 0, Delivered(w, rows), BatchSize(configured, w.workers), w.breaksAfter.Some?)
  }

  function CommentRun(roots: World, replies: World, comments: seq<Comment>, threads: seq<Thread>, configured: int)
      : (seq<Comment>, Outcome)
    requires roots.workers > 0 && replies.workers > 0
  {
    if Nested(threads) then ([], Refused)
    else
      var first := Pass(roots, Select(comments, threads, false), configured);
      if !first.1 then (first.0, Failed)
      else
        var second := Pass(replies, Select(comments, threads, true), configured);
        (first.0 + second.0, if second.1 then Done else Failed)
  }

  lemma {:induction false} SelectMembers(comments: seq<Comment>, threads: seq<Thread>, replies: bool)
    ensures forall c :: c in Select(comments, threads, replies) ==> IsReply(threads, c.id) == replies
    decreases |comments|
  {
    if comments != [] {
      SelectMembers(comments[..|comments| - 1], threads, replies);
    }
  }

  lemma {:induction false} SelectSplits(comments: seq<Comment>, threads: seq<Thread>)
    ensures multiset(Select(comments, threads, false)) + multiset(Select(comments, threads, true)) == multiset(comments)
    decreases |comments|
  {
    if comments != [] {
      SelectSplits(comments[..|comments| - 1], threads);
      assert comments == comments[..|comments| - 1] + [comments[|comments| - 1]];
    }
  }

  lemma {:induction false} ParentIsListed(threads: seq<Thread>, id: int)
    requires ParentOf(threads, id).Some?
    ensures exists i :: 0 <= i < |threads| && threads[i].comment == id && threads[i].parent == ParentOf(threads, id).value
    decreases |threads|
  {
    if threads[0].comment != id {
      ParentIsListed(threads[1..], id);
      var i :| 0 <= i < |threads[1..]| && threads[1..][i].comment == id && threads[1..][i].parent == ParentOf(threads[1..], id).value;
      assert threads[i + 1] == threads[1..][i];
    }
  }

  /** A pass emits no row twice, and all of them exactly when nothing fails and the query does not break off. */
  lemma PassEmitsOnce(w: World, rows: seq<Comment>, configured: int)
    requires w.workers > 0 && Rearranges(w)
    ensures var r := Pass(w, rows, configured);
            && multiset(r.0) <= multiset(rows)
            && (r.1 ==> multiset(r.0) == multiset(rows))
            && (r.1 <==> w.breaksAfter.None? && NoErrors(rows, w.fails))
  {
    var yielded := Delivered(w, rows);
    EmittedOnce(w, 0, yielded, BatchSize(configured, w.workers), w.breaksAfter.Some?);
    assert rows == yielded + rows[|yielded|..];
  }

  /** No row of its own pass reports an error. */
  ghost predicate NoneFails(roots: World, replies: World, comments: seq<Comment>, threads: seq<Thread>) {
    forall i :: 0 <= i < |comments| ==> !(if IsReply(threads, comments[i].id) then replies else roots).fails(comments[i])
  }

  lemma {:induction false} SelectNoErrors(roots: World, replies: World, comments: seq<Comment>, threads: seq<Thread>)
    ensures NoneFails(roots, replies, comments, threads) <==>
            NoErrors(Select(comments, threads, false), roots.fails) && NoErrors(Select(comments, threads, true), replies.fails)
    decreases |comments|
  {
    if comments != [] {
      var init, c := comments[..|comments| - 1], comments[|comments| - 1];
      SelectNoErrors(roots, replies, init, threads);
      assert comments == init + [c];
      if IsReply(threads, c.id) {
        NoErrorsSplit(Select(init, threads, true), [c], replies.fails);
      } else {
        NoErrorsSplit(Select(init, threads, false), [c], roots.fails);
      }
    }
  }

  /**
   Every comment once when the run ends well, none twice in any case. It ends well exactly when no reply
   is nested, no query breaks off and no row reports an error.
   */
  lemma CommentsEmittedOnce(roots: World, replies: World, comments: seq<Comment>, threads: seq<Thread>, configured: int)
    requires roots.workers > 0 && replies.workers > 0 && Rearranges(roots) && Rearranges(replies)
    ensures var (out, r) := CommentRun(roots, replies, comments, threads, configured);
            && multiset(out) <= multiset(comments)
            && (r.Done? ==> multiset(out) == multiset(comments))
            && (r.Done? <==> !Nested(threads) && roots.breaksAfter.None? && replies.breaksAfter.None? &&
                             NoneFails(roots, replies, comments, threads))
            && (r.Refused? <==> Nested(threads)) && (r.Refused? ==> out == [])
  {
    if !Nested(threads) {
      SelectSplits(comments, threads);
      SelectNoErrors(roots, replies, comments, threads);
      PassEmitsOnce(roots, Select(comments, threads, false), configured);
      PassEmitsOnce(replies, Select(comments, threads, true), configured);
    }
  }

  /** What lands in a pass is a row of that pass. */
  lemma PassRows(w: World, rows: seq<Comment>, configured: int, i: nat)
    requires w.workers > 0 && Rearranges(w) && i < |Pass(w, rows, configured).0|
    ensures Pass(w, rows, configured).0[i] in rows
  {
    PassEmitsOnce(w, rows, configured);
    var c := Pass(w, rows, configured).0[i];
    assert c in multiset(Pass(w, rows, configured).0);
    assert c in multiset(rows);
  }

  ghost predicate OfKind(threads: seq<Thread>, s: seq<Comment>, replies: bool) {
    forall i :: 0 <= i < |s| ==> IsReply(threads, s[i].id) == replies
  }

  /** Whether a pass over roots or over replies, what lands is of that kind. */
  lemma PassKind(w: World, comments: seq<Comment>, threads: seq<Thread>, replies: bool, configured: int)
    requires w.workers > 0 && Rearranges(w)
    ensures OfKind(threads, Pass(w, Select(comments, threads, replies), configured).0, replies)
  {
    var rows := Select(comments, threads, replies);
    SelectMembers(comments, threads, replies);
    forall i | 0 <= i < |Pass(w, rows, configured).0| ensures Pass(w, rows, configured).0[i] in rows {
      PassRows(w, rows, configured, i);
    }
  }

  /** Without nesting, a comment with a parent is a reply and its parent is not. */
  lemma ParentIsRoot(threads: seq<Thread>, child: int, parent: int)
    requires !Nested(threads) && ParentOf(threads, child) == Some(parent)
    ensures IsReply(threads, child) && !IsReply(threads, parent)
  {
    ParentIsListed(threads, child);
  }

  /** What a run emits is roots first and replies after them. */
  lemma RunKinds(roots: World, replies: World, comments: seq<Comment>, threads: seq<Thread>, configured: int)
      returns (first: seq<Comment>, second: seq<Comment>)
    requires roots.workers > 0 && replies.workers > 0 && Rearranges(roots) && Rearranges(replies)
    ensures CommentRun(roots, replies, comments, threads, configured).0 == first + second
    ensures OfKind(threads, first, false) && OfKind(threads, second, true)
    ensures Nested(threads) ==> first + second == []
  {
    first, second := [], [];
    if !Nested(threads) {
      PassKind(roots, comments, threads, false, configured);
      PassKind(replies, comments, threads, true, configured);
      first := Pass(roots, Select(comments, threads, false), configured).0;
      if Pass(roots, Select(comments, threads, false), configured).1 {
        second := Pass(replies, Select(comments, threads, true), configured).0;
      } else {
        assert first + [] == first;
      }
    }
  }

  lemma KindByPart(threads: seq<Thread>, first: seq<Comment>, second: seq<Comment>, i: nat)
    requires OfKind(threads, first, false) && OfKind(threads, second, true) && i < |first + second|
    ensures IsReply(threads, (first + second)[i].id) <==> i >= |first|
  {
    if i < |first| {
      assert (first + second)[i] == first[i];
    } else {
      assert (first + second)[i] == second[i - |first|];
    }
  }

  /** In every run, however batches land and wherever a query breaks off, no comment precedes a parent of it that is also emitted. */
  lemma ParentsComeFirst(roots: World, replies: World, comments: seq<Comment>, threads: seq<Thread>, configured: int,
                         child: nat, parent: nat)
    requires roots.workers > 0 && replies.workers > 0 && Rearranges(roots) && Rearranges(replies)
    requires child < |CommentRun(roots, replies, comments, threads, configured).0|
    requires parent < |CommentRun(roots, replies, comments, threads, configured).0|
    requires var out := CommentRun(roots, replies, comments, threads, configured).0;
             ParentOf(threads, out[child].id) == Some(out[parent].id)
    ensures parent < child
  {
    var out := CommentRun(roots, replies, comments, threads, configured).0;
    var first, second := RunKinds(roots, replies, comments, threads, configured);
    ParentIsRoot(threads, out[child].id, out[parent].id);
    KindByPart(threads, first, second, child);
    KindByPart(threads, first, second, parent);
  }

  /** The nesting check is needed: two levels of replies can land upside down. */
  lemma NestedRepliesCanLandFirst()
    ensures exists w: World, comments: seq<Comment>, threads: seq<Thread> ::
              Rearranges(w) && w.workers > 0 && Nested(threads) && UpsideDown(w, comments, threads)
  {
    var w := World((k: nat, b: seq<Comment>) => Reversed(b), (c: Comment) => false, (c: Comment) => false, 1, None);
    forall k: nat, b: seq<Comment> ensures multiset(w.order(k, b)) == multiset(b) {
      ReversedElements(b);
    }
    var x, y := Comment(2, "reply"), Comment(3, "reply to the reply");
    var threads := [Thread(2, 1), Thread(3, 2)];
    NestedExample(threads);
    ReversedPair(w, x, y);
    var out := Emitted(w, 0, [x, y], 2, false).0;
    assert out[0] == y && out[1] == x;
    assert UpsideDown(w, [x, y], threads);
  }

  lemma NestedExample(threads: seq<Thread>)
    requires threads == [Thread(2, 1), Thread(3, 2)]
    ensures Nested(threads) && ParentOf(threads, 3) == Some(2)
  {
    assert threads[0].comment == 2 && threads[1].parent == 2;
    assert IsReply(threads, 2);
  }

  lemma ReversedPair(w: World, x: Comment, y: Comment)
    requires w.order(0, [x, y]) == Reversed([x, y]) && !w.fails(x) && !w.fails(y)
    ensures Emitted(w, 0, [x, y], 2, false).0 == [y, x]
  {
    var pair := [x, y];
    assert [x][..0] == [] && Reversed([x]) == [x] + [];
    assert pair[..1] == [x] && Reversed(pair) == [y] + Reversed([x]);
    assert [y] + ([x] + []) == [y, x];
    LandedAll(w, [y, x]);
    assert pair[..2] == pair && pair[2..] == [];
    assert [y, x] + [] == [y, x];
  }

  function Reversed(s: seq<Comment>): seq<Comment> {
    if s == [] then [] else [s[|s| - 1]] + Reversed(s[..|s| - 1])
  }

  lemma {:induction false} ReversedElements(s: seq<Comment>)
    ensures multiset(Reversed(s)) == multiset(s)
    decreases |s|
  {
    if s != [] {
      ReversedElements(s[..|s| - 1]);
      assert s == s[..|s| - 1] + [s[|s| - 1]];
    }
  }

  /** Emitted as one pass of batches of two, some comment precedes its parent. */
  ghost predicate UpsideDown(w: World, comments: seq<Comment>, threads: seq<Thread>) {
    var out := Emitted(w, 0, comments, 2, false).0;
    exists i, j :: 0 <= i < j < |out| && ParentOf(threads, out[i].id) == Some(out[j].id)
  }
}
