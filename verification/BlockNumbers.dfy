/**
 Numbering the blocks that carry entity transactions (pkg/etl/indexer.go): a table keyed by hash with
 unique numbers, filled by inserting after the highest-numbered row.
 */
module BlockNumbers {
  import opened Options
  import opened Ordering

  datatype Row = Row(parent: Option<string>, number: int)

  type Table = map<string, Row>

  predicate NumberTaken(t: Table, n: int) { exists h :: h in t && t[h].number == n }

  predicate UniqueNumbers(t: Table) { forall g, h :: g in t && h in t && t[g].number == t[h].number ==> g == h }

  /** The highest-numbered row, if there is one: what the insert's inner query finds. */
  predicate IsLast(t: Table, last: Option<string>) {
    match last
    case None => t == map[]
    case Some(h) => h in t && forall g :: g in t ==> t[g].number <= t[h].number
  }

  /** The row the insert proposes after last. */
  function Proposal(t: Table, last: Option<string>): Row
    requires last.Some? ==> last.value in t
  {
    Row(last, if last.Some? then t[last.value].number + 1 else 1)
  }

  /** The table after the insert; a clash on hash or number does nothing. */
  function Inserted(t: Table, hash: string, row: Row): Table {
    if hash in t || NumberTaken(t, row.number) then t else t[hash := row]
  }

  /** Every row of t is in u: what a statement sees of a table, or what is left of it later. */
  predicate Within(t: Table, u: Table) { forall h :: h in t ==> h in u && u[h] == t[h] }

  /** The number the insert proposes on what it sees. */
  ghost predicate IsNext(seen: Table, n: int) { exists last :: IsLast(seen, last) && Proposal(seen, last).number == n }

  /** A row of t that the insert does not see has the number it proposes. */
  ghost predicate Clashes(t: Table, seen: Table, hash: string) {
    hash !in t && exists g :: g in t && IsNext(seen, t[g].number)
  }

  class BlockTable {
    var rows: Table

    constructor ()
      ensures rows == map[]
    {
      rows := map[];
    }

    /** The row with the highest number of a snapshot of the table. */
    static method Last(t: Table) returns (last: Option<string>)
      ensures IsLast(t, last)
    {
      last := None;
      var rest := t.Keys;
      while rest != {}
        invariant rest <= t.Keys
        invariant last.None? ==> rest == t.Keys
        invariant last.Some? ==> last.value in t && forall g :: g in t && g !in rest ==> t[g].number <= t[last.value].number
        decreases |rest|
      {
        var h :| h in rest;
        if last.None? || t[h].number > t[last.value].number {
          last := Some(h);
        }
        rest := rest - {h};
      }
    }

    /**
     Inserts after the last row the statement sees and reads the number back. Other writers may have
     committed rows the statement does not see; only a clash with one of those gives no number.
     */
    method Resolve(hash: string, seen: Table) returns (number: Option<int>)
      requires Within(seen, rows)
      modifies this
      ensures exists last :: IsLast(seen, last) && rows == Inserted(old(rows), hash, Proposal(seen, last))
      ensures number.None? <==> Clashes(old(rows), seen, hash)
      ensures number.Some? <==> hash in rows
      ensures number.Some? ==> number.value == rows[hash].number
    {
      var last := Last(seen);
      var next := Proposal(seen, last);
      ClashExactly(rows, seen, hash, last);
      if hash !in rows && !NumberTaken(rows, next.number) {
        rows := rows[hash := next];
      }
      if hash in rows {
        number := Some(rows[hash].number);
      } else {
        number := None;
      }
    }

    /**
     Resolves a block, once more if the first attempt clashes. By the second attempt other writers may have
     brought the table to `later`, of which it sees at least what the first one clashed with.
     */
    method ResolveBlock(hash: string, seen: Table, later: Table, seenLater: Table) returns (number: Option<int>)
      requires Within(seen, rows) && Within(rows, seenLater) && Within(seenLater, later) && UniqueNumbers(later)
      modifies this
      ensures UniqueNumbers(rows)
      ensures number.None? <==> Clashes(old(rows), seen, hash) && Clashes(later, seenLater, hash)
      ensures Within(if Clashes(old(rows), seen, hash) then later else old(rows), rows)
      ensures number.Some? <==> hash in rows
      ensures number.Some? ==> number.value == rows[hash].number
    {
      assert UniqueNumbers(rows);
      number := Resolve(hash, seen);
      if number.None? {
        rows := later;
        number := Resolve(hash, seenLater);
      }
    }
  }

  /** A statement that sees the whole table always finds a free number. */
  lemma NextIsFree(t: Table, last: Option<string>)
    requires IsLast(t, last)
    ensures !NumberTaken(t, Proposal(t, last).number)
  {
  }

  /** No clash ever breaks the uniqueness of numbers. */
  lemma InsertedIsUnique(t: Table, hash: string, row: Row)
    requires UniqueNumbers(t)
    ensures UniqueNumbers(Inserted(t, hash, row))
  {
  }

  /** All highest-numbered rows give the same next number. */
  lemma NextIsOne(seen: Table, last: Option<string>, n: int)
    requires IsLast(seen, last)
    ensures IsNext(seen, n) <==> n == Proposal(seen, last).number
  {
  }

  /** An insert leaves its hash without a row exactly when the hash is new and its number is taken. */
  lemma ClashExactly(t: Table, seen: Table, hash: string, last: Option<string>)
    requires IsLast(seen, last)
    ensures hash !in Inserted(t, hash, Proposal(seen, last)) <==> Clashes(t, seen, hash)
    ensures seen == t ==> hash in Inserted(t, hash, Proposal(seen, last))
  {
    forall g | g in t ensures IsNext(seen, t[g].number) <==> t[g].number == Proposal(seen, last).number {
      NextIsOne(seen, last, t[g].number);
    }
    if seen == t {
      NextIsFree(t, last);
    }
  }

  /** What clashes is above everything seen. */
  lemma ClashIsUnseen(t: Table, seen: Table, hash: string) returns (g: string)
    requires Clashes(t, seen, hash) && Within(seen, t)
    ensures g in t && g !in seen && IsNext(seen, t[g].number)
    ensures forall h :: h in seen ==> seen[h].number < t[g].number
  {
    g :| g in t && IsNext(seen, t[g].number);
    var last :| IsLast(seen, last) && Proposal(seen, last).number == t[g].number;
  }

  /**
   So a block stays without a number only if two different rows beat it, each unseen by the attempt it
   beat: the second one was committed after the first.
   */
  lemma TwoRivals(t: Table, seen: Table, later: Table, seenLater: Table, hash: string)
    requires Within(seen, t) && Within(t, seenLater) && Within(seenLater, later)
    requires Clashes(t, seen, hash) && Clashes(later, seenLater, hash)
    ensures exists g, h :: g in t && g !in seen && h in later && h !in seenLater && t[g].number < later[h].number
  {
    var g := ClashIsUnseen(t, seen, hash);
    var h := ClashIsUnseen(later, seenLater, hash);
    assert seenLater[g].number < later[h].number;
  }

  // ---------------------------------------------------------------- a single writer

  /** The row of the i-th hash: numbered i + 1, pointing at the hash before. */
  function RowFor(order: seq<string>, i: nat): Row
    requires i < |order|
  {
    Row(if i == 0 then None else Some(order[i - 1]), i + 1)
  }

  /** The table that numbers the given hashes 1, 2, … in order. */
  function Numbered(order: seq<string>): Table {
    if order == [] then map[]
    else Numbered(order[..|order| - 1])[order[|order| - 1] := RowFor(order, |order| - 1)]
  }

  ghost predicate HasRow(t: Table, order: seq<string>, i: nat)
    requires i < |order|
  {
    order[i] in t && t[order[i]] == RowFor(order, i)
  }

  lemma {:induction false} NumberedKeys(order: seq<string>)
    ensures forall h :: h in Numbered(order) <==> h in order
    decreases |order|
  {
    if order != [] {
      var n := |order| - 1;
      NumberedKeys(order[..n]);
      assert order == order[..n] + [order[n]];
    }
  }

  lemma {:induction false} NumberedRow(order: seq<string>, i: nat)
    requires Distinct(order) && i < |order|
    ensures HasRow(Numbered(order), order, i)
    decreases |order|
  {
    var n := |order| - 1;
    if i < n {
      var init := order[..n];
      NumberedRow(init, i);
      assert init[i] == order[i] && RowFor(init, i) == RowFor(order, i);
      assert order[i] != order[n];
    }
  }

  lemma NumberedLast(order: seq<string>, last: Option<string>)
    requires Distinct(order)
    ensures IsLast(Numbered(order), last) <==> last == (if order == [] then None else Some(order[|order| - 1]))
  {
    var t := Numbered(order);
    NumberedKeys(order);
    if order != [] {
      var n := |order| - 1;
      NumberedRow(order, n);
      forall g | g in t ensures t[g].number <= n + 1 && (g != order[n] ==> t[g].number < n + 1) {
        var i :| 0 <= i < |order| && order[i] == g;
        NumberedRow(order, i);
      }
    }
  }

  /** The hashes in the order they are first seen. */
  function FirstSeen(hashes: seq<string>): seq<string> {
    if hashes == [] then []
    else
      var before := FirstSeen(hashes[..|hashes| - 1]);
      var h := hashes[|hashes| - 1];
      if h in before then before else before + [h]
  }

  lemma {:induction false} FirstSeenDistinct(hashes: seq<string>)
    ensures Distinct(FirstSeen(hashes)) && forall h :: h in FirstSeen(hashes) <==> h in hashes
    decreases |hashes|
  {
    if hashes != [] {
      var n := |hashes| - 1;
      FirstSeenDistinct(hashes[..n]);
      assert hashes == hashes[..n] + [hashes[n]];
    }
  }

  lemma NumberedAppend(order: seq<string>, hash: string)
    ensures Numbered(order + [hash]) == Numbered(order)[hash := RowFor(order + [hash], |order|)]
  {
    assert (order + [hash])[..|order|] == order;
  }

  lemma ProposalIsNext(order: seq<string>, hash: string, last: Option<string>)
    requires Distinct(order) && IsLast(Numbered(order), last)
    ensures Proposal(Numbered(order), last) == RowFor(order + [hash], |order|)
  {
    NumberedLast(order, last);
    if order != [] {
      NumberedRow(order, |order| - 1);
    }
  }

  /** Resolving a hash on a numbered table: known hashes change nothing, a new one is numbered next. */
  lemma ResolveNumbered(order: seq<string>, hash: string, last: Option<string>)
    requires Distinct(order) && IsLast(Numbered(order), last)
    ensures Inserted(Numbered(order), hash, Proposal(Numbered(order), last)) ==
            Numbered(if hash in order then order else order + [hash])
    ensures hash in Inserted(Numbered(order), hash, Proposal(Numbered(order), last))
  {
    NumberedKeys(order);
    NextIsFree(Numbered(order), last);
    ProposalIsNext(order, hash, last);
    NumberedAppend(order, hash);
  }

  /** The tables of a single writer that starts on an empty table and resolves the hashes in turn. */
  ghost predicate IsRun(tables: seq<Table>, hashes: seq<string>) {
    && |tables| == |hashes| + 1
    && tables[0] == map[]
    && forall i :: 0 <= i < |hashes| ==>
         exists last :: IsLast(tables[i], last) && tables[i + 1] == Inserted(tables[i], hashes[i], Proposal(tables[i], last))
  }

  /** For any hashes, repeats included, the table numbers them 1, 2, … in first-seen order. */
  lemma {:induction false} SingleWriterNumbers(tables: seq<Table>, hashes: seq<string>, i: nat)
    requires IsRun(tables, hashes) && i <= |hashes|
    ensures tables[i] == Numbered(FirstSeen(hashes[..i]))
    decreases i
  {
    if i > 0 {
      var n := i - 1;
      SingleWriterNumbers(tables, hashes, n);
      FirstSeenDistinct(hashes[..n]);
      var last :| IsLast(tables[n], last) && tables[n + 1] == Inserted(tables[n], hashes[n], Proposal(tables[n], last));
      ResolveNumbered(FirstSeen(hashes[..n]), hashes[n], last);
      assert hashes[..i][..n] == hashes[..n];
    }
  }

  /**
   Hence after any sequence: every hash has a number, the k-th new one has number k + 1, its parent is
   the hash numbered one below, and resolving a hash again changes nothing.
   */
  lemma SingleWriterLinks(tables: seq<Table>, hashes: seq<string>, i: nat)
    requires IsRun(tables, hashes) && i <= |hashes|
    ensures forall h :: h in tables[i] <==> h in hashes[..i]
    ensures forall k :: 0 <= k < |FirstSeen(hashes[..i])| ==> HasRow(tables[i], FirstSeen(hashes[..i]), k)
    ensures i > 0 && hashes[i - 1] in hashes[..i - 1] ==> tables[i] == tables[i - 1]
  {
    var order := FirstSeen(hashes[..i]);
    SingleWriterNumbers(tables, hashes, i);
    FirstSeenDistinct(hashes[..i]);
    NumberedKeys(order);
    forall k | 0 <= k < |order| ensures HasRow(tables[i], order, k) {
      NumberedRow(order, k);
    }
    if i > 0 {
      SingleWriterNumbers(tables, hashes, i - 1);
      FirstSeenDistinct(hashes[..i - 1]);
      assert hashes[..i][..i - 1] == hashes[..i - 1];
    }
  }
}
