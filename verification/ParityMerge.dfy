/**
 The one-pass comparison of expected and projected rows (cmd/genesis-writer/verify_auth.go): two
 cursors ordered by key, merged without holding either in memory.
 */
module ParityMerge {
  import opened Sums
  import opened Ordering

  /** The key and then one value per column. */
  type Row = seq<string>

  /** The rows a query yields before it ends, and whether it ends in an error. */
  datatype Cursor = Cursor(rows: seq<Row>, fails: bool)

  const SAMPLES := 10

  predicate Width(rows: seq<Row>, columns: nat) { forall i :: 0 <= i < |rows| ==> |rows[i]| == columns + 1 }

  datatype Report = Report(
    srcRows: int, dstRows: int, missing: int, extra: int, missingEx: seq<string>, extraEx: seq<string>,
    mismatches: seq<map<string, int>>, mismatchEx: seq<seq<string>>)

  datatype Outcome = QueryError | Compared(report: Report)

  // ---------------------------------------------------------------- the merge

  /** What one pass of the loop finds. */
  datatype Finding = Missing(row: Row) | Extra(row: Row) | Pair(src: Row, dst: Row)

  function Key(r: Row): string { if r == [] then "" else r[0] }

  function Value(r: Row, column: nat): string { if column + 1 < |r| then r[column + 1] else "" }

  function Merge(s: seq<Row>, d: seq<Row>): seq<Finding>
    decreases |s| + |d|
  {
    if s == [] && d == [] then []
    else if d == [] || (s != [] && Before(Key(s[0]), Key(d[0]))) then [Missing(s[0])] + Merge(s[1..], d)
    else if s == [] || Before(Key(d[0]), Key(s[0])) then [Extra(d[0])] + Merge(s, d[1..])
    else [Pair(s[0], d[0])] + Merge(s[1..], d[1..])
  }

  function MissingKeys(f: seq<Finding>): seq<string> {
    if f == [] then []
    else
      var before := MissingKeys(f[..|f| - 1]);
      if f[|f| - 1].Missing? then before + [Key(f[|f| - 1].row)] else before
  }

  function ExtraKeys(f: seq<Finding>): seq<string> {
    if f == [] then []
    else
      var before := ExtraKeys(f[..|f| - 1]);
      if f[|f| - 1].Extra? then before + [Key(f[|f| - 1].row)] else before
  }

  /** A pair that differs in a column: its key, and the two values as the report labels them. */
  datatype Difference = Difference(key: string, text: string)

  predicate DiffersIn(f: Finding, column: nat) { f.Pair? && Value(f.src, column) != Value(f.dst, column) }

  function DifferenceIn(f: Finding, column: nat): Difference
    requires f.Pair?
  {
    Difference(Key(f.src), Value(f.src, column) + " -> " + Value(f.dst, column))
  }

  function Differences(f: seq<Finding>, column: nat): seq<Difference> {
    if f == [] then []
    else
      var before := Differences(f[..|f| - 1], column);
      if DiffersIn(f[|f| - 1], column) then before + [DifferenceIn(f[|f| - 1], column)] else before
  }

  function Sample(keys: seq<string>): seq<string> { if |keys| <= SAMPLES then keys else keys[..SAMPLES] }

  function CountLabel(counts: map<string, int>, text: string): map<string, int> {
    counts[text := (if text in counts then counts[text] else 0) + 1]
  }

  function CountLabels(x: seq<Difference>): map<string, int> {
    if x == [] then map[] else CountLabel(CountLabels(x[..|x| - 1]), x[|x| - 1].text)
  }

  function KeysOf(x: seq<Difference>): seq<string> { seq(|x|, i requires 0 <= i < |x| => x[i].key) }

  /** The report of a list of findings. */
  function ReportOf(f: seq<Finding>, columns: nat, srcRows: int, dstRows: int): Report {
    Report(srcRows, dstRows, |MissingKeys(f)|, |ExtraKeys(f)|, Sample(MissingKeys(f)), Sample(ExtraKeys(f)),
           seq(columns, i requires 0 <= i < columns => CountLabels(Differences(f, i))),
           seq(columns, i requires 0 <= i < columns => Sample(KeysOf(Differences(f, i)))))
  }

  // ---------------------------------------------------------------- counts

  function Pairs(f: seq<Finding>): nat {
    if f == [] then 0 else Pairs(f[1..]) + (if f[0].Pair? then 1 else 0)
  }

  lemma {:induction false} FindingsHead(x: Finding, f: seq<Finding>)
    ensures MissingKeys([x] + f) == (if x.Missing? then [Key(x.row)] else []) + MissingKeys(f)
    ensures ExtraKeys([x] + f) == (if x.Extra? then [Key(x.row)] else []) + ExtraKeys(f)
    decreases |f|
  {
    var all := [x] + f;
    if f == [] {
      assert all[..0] == [];
    } else {
      var n := |f| - 1;
      assert all[..|all| - 1] == [x] + f[..n];
      FindingsHead(x, f[..n]);
    }
  }

  lemma {:induction false} DifferencesHead(x: Finding, f: seq<Finding>, column: nat)
    ensures Differences([x] + f, column) == (if DiffersIn(x, column) then [DifferenceIn(x, column)] else []) + Differences(f, column)
    decreases |f|
  {
    var all := [x] + f;
    if f == [] {
      assert all[..0] == [];
    } else {
      var n := |f| - 1;
      assert all[..|all| - 1] == [x] + f[..n];
      DifferencesHead(x, f[..n], column);
    }
  }

  /** Whatever the order of the rows: each row is found once, so source minus missing is chain minus extra. */
  lemma {:induction false} MergeConserves(s: seq<Row>, d: seq<Row>)
    ensures var f := Merge(s, d);
            |s| == |MissingKeys(f)| + Pairs(f) && |d| == |ExtraKeys(f)| + Pairs(f)
    decreases |s| + |d|
  {
    if s != [] || d != [] {
      var f := Merge(s, d);
      if f[0].Missing? {
        MergeConserves(s[1..], d);
        FindingsHead(f[0], Merge(s[1..], d));
        assert f[1..] == Merge(s[1..], d);
      } else if f[0].Extra? {
        MergeConserves(s, d[1..]);
        FindingsHead(f[0], Merge(s, d[1..]));
        assert f[1..] == Merge(s, d[1..]);
      } else {
        MergeConserves(s[1..], d[1..]);
        FindingsHead(f[0], Merge(s[1..], d[1..]));
        assert f[1..] == Merge(s[1..], d[1..]);
      }
    }
  }

  lemma {:induction false} LabelTotal(x: seq<Difference>)
    ensures Total(CountLabels(x)) == |x|
    ensures CountLabels(x) == map[] <==> x == []
    decreases |x|
  {
    if x != [] {
      var before := CountLabels(x[..|x| - 1]);
      LabelTotal(x[..|x| - 1]);
      var text := x[|x| - 1].text;
      TotalUpdate(before, text, (if text in before then before[text] else 0) + 1);
    }
  }

  // ---------------------------------------------------------------- sorted streams

  ghost predicate KeySorted(rows: seq<Row>) {
    forall i, j :: 0 <= i < j < |rows| ==> !Before(Key(rows[j]), Key(rows[i]))
  }

  function Keys(rows: seq<Row>): seq<string> { seq(|rows|, i requires 0 <= i < |rows| => Key(rows[i])) }

  lemma KeysTail(rows: seq<Row>)
    requires rows != []
    ensures multiset(Keys(rows)) == multiset{Key(rows[0])} + multiset(Keys(rows[1..]))
  {
    assert Keys(rows) == [Key(rows[0])] + Keys(rows[1..]);
  }

  lemma KeySortedTail(rows: seq<Row>)
    requires KeySorted(rows) && rows != []
    ensures KeySorted(rows[1..])
  {
    var tail := rows[1..];
    forall i, j | 0 <= i < j < |tail| ensures !Before(Key(tail[j]), Key(tail[i])) {
      assert tail[i] == rows[i + 1] && tail[j] == rows[j + 1];
    }
  }

  /** A key below the first key of a sorted stream is nowhere in it. */
  lemma BelowAll(rows: seq<Row>, k: string)
    requires KeySorted(rows) && (rows == [] || Before(k, Key(rows[0])))
    ensures k !in Keys(rows)
  {
    forall i | 0 <= i < |rows| ensures Keys(rows)[i] != k {
      if i == 0 {
        BeforeIrreflexive(k);
      } else {
        assert !Before(Key(rows[i]), Key(rows[0]));
      }
    }
  }

  lemma DifferenceDrops(a: multiset<string>, b: multiset<string>, k: string)
    ensures b[k] == 0 ==> (multiset{k} + a) - b == multiset{k} + (a - b) && b - (multiset{k} + a) == b - a
    ensures (multiset{k} + a) - (multiset{k} + b) == a - b
  {
  }

  /** The findings are the multiset differences of the keys, duplicates included. */
  ghost predicate FindsDifferences(s: seq<Row>, d: seq<Row>, f: seq<Finding>) {
    && multiset(MissingKeys(f)) == multiset(Keys(s)) - multiset(Keys(d))
    && multiset(ExtraKeys(f)) == multiset(Keys(d)) - multiset(Keys(s))
  }

  lemma MissingStep(s: seq<Row>, d: seq<Row>, rest: seq<Finding>)
    requires s != [] && KeySorted(d) && (d == [] || Before(Key(s[0]), Key(d[0]))) && FindsDifferences(s[1..], d, rest)
    ensures FindsDifferences(s, d, [Missing(s[0])] + rest)
  {
    var k := Key(s[0]);
    FindingsHead(Missing(s[0]), rest);
    BelowAll(d, k);
    KeysTail(s);
    DifferenceDrops(multiset(Keys(s[1..])), multiset(Keys(d)), k);
    assert multiset([k] + MissingKeys(rest)) == multiset{k} + multiset(MissingKeys(rest));
    assert [] + ExtraKeys(rest) == ExtraKeys(rest);
  }

  lemma ExtraStep(s: seq<Row>, d: seq<Row>, rest: seq<Finding>)
    requires d != [] && KeySorted(s) && (s == [] || Before(Key(d[0]), Key(s[0]))) && FindsDifferences(s, d[1..], rest)
    ensures FindsDifferences(s, d, [Extra(d[0])] + rest)
  {
    var k := Key(d[0]);
    FindingsHead(Extra(d[0]), rest);
    BelowAll(s, k);
    KeysTail(d);
    DifferenceDrops(multiset(Keys(d[1..])), multiset(Keys(s)), k);
    assert multiset([k] + ExtraKeys(rest)) == multiset{k} + multiset(ExtraKeys(rest));
    assert [] + MissingKeys(rest) == MissingKeys(rest);
  }

  lemma PairStep(s: seq<Row>, d: seq<Row>, rest: seq<Finding>)
    requires s != [] && d != [] && Key(s[0]) == Key(d[0]) && FindsDifferences(s[1..], d[1..], rest)
    ensures FindsDifferences(s, d, [Pair(s[0], d[0])] + rest)
  {
    var k := Key(s[0]);
    FindingsHead(Pair(s[0], d[0]), rest);
    KeysTail(s);
    KeysTail(d);
    DifferenceDrops(multiset(Keys(s[1..])), multiset(Keys(d[1..])), k);
    DifferenceDrops(multiset(Keys(d[1..])), multiset(Keys(s[1..])), k);
    assert [] + MissingKeys(rest) == MissingKeys(rest);
    assert [] + ExtraKeys(rest) == ExtraKeys(rest);
  }

  lemma {:induction false} MergeFindsDifferences(s: seq<Row>, d: seq<Row>)
    requires KeySorted(s) && KeySorted(d)
    ensures FindsDifferences(s, d, Merge(s, d))
    decreases |s| + |d|
  {
    if s == [] && d == [] {
    } else if d == [] || (s != [] && Before(Key(s[0]), Key(d[0]))) {
      KeySortedTail(s);
      MergeFindsDifferences(s[1..], d);
      MissingStep(s, d, Merge(s[1..], d));
    } else if s == [] || Before(Key(d[0]), Key(s[0])) {
      KeySortedTail(d);
      MergeFindsDifferences(s, d[1..]);
      ExtraStep(s, d, Merge(s, d[1..]));
    } else {
      BeforeTotal(Key(s[0]), Key(d[0]));
      KeySortedTail(s);
      KeySortedTail(d);
      MergeFindsDifferences(s[1..], d[1..]);
      PairStep(s, d, Merge(s[1..], d[1..]));
    }
  }

  // ---------------------------------------------------------------- which rows are paired

  function WithKey(rows: seq<Row>, k: string): seq<Row> {
    if rows == [] then [] else (if Key(rows[0]) == k then [rows[0]] else []) + WithKey(rows[1..], k)
  }

  function Zip(a: seq<Row>, b: seq<Row>): seq<Finding> {
    if a == [] || b == [] then [] else [Pair(a[0], b[0])] + Zip(a[1..], b[1..])
  }

  /** The pairs of one key, in the order found. */
  function PairsOf(f: seq<Finding>, k: string): seq<Finding> {
    if f == [] then [] else (if f[0].Pair? && Key(f[0].src) == k then [f[0]] else []) + PairsOf(f[1..], k)
  }

  lemma {:induction false} NoneWithKey(rows: seq<Row>, k: string)
    requires k !in Keys(rows)
    ensures WithKey(rows, k) == []
    decreases |rows|
  {
    if rows != [] {
      assert Keys(rows)[0] == Key(rows[0]);
      assert Keys(rows) == [Key(rows[0])] + Keys(rows[1..]);
      NoneWithKey(rows[1..], k);
    }
  }

  lemma ZipHead(x: Row, y: Row, a: seq<Row>, b: seq<Row>)
    ensures Zip([x] + a, [y] + b) == [Pair(x, y)] + Zip(a, b)
  {
    assert ([x] + a)[1..] == a && ([y] + b)[1..] == b;
  }

  /** A row whose key the other stream lacks takes part in no pair. */
  lemma ZipSkips(s: seq<Row>, d: seq<Row>, k: string)
    requires s != [] && Key(s[0]) !in Keys(d)
    ensures Zip(WithKey(s, k), WithKey(d, k)) == Zip(WithKey(s[1..], k), WithKey(d, k))
    ensures Zip(WithKey(d, k), WithKey(s, k)) == Zip(WithKey(d, k), WithKey(s[1..], k))
  {
    NoneWithKey(d, Key(s[0]));
    assert Key(s[0]) != k ==> WithKey(s, k) == WithKey(s[1..], k);
  }

  /** Within each key the rows are paired by occurrence: first with first, second with second. */
  lemma {:induction false} MergePairsByOccurrence(s: seq<Row>, d: seq<Row>, k: string)
    requires KeySorted(s) && KeySorted(d)
    ensures PairsOf(Merge(s, d), k) == Zip(WithKey(s, k), WithKey(d, k))
    decreases |s| + |d|
  {
    var f := Merge(s, d);
    if s == [] && d == [] {
    } else if d == [] || (s != [] && Before(Key(s[0]), Key(d[0]))) {
      KeySortedTail(s);
      MergePairsByOccurrence(s[1..], d, k);
      BelowAll(d, Key(s[0]));
      ZipSkips(s, d, k);
      assert f[1..] == Merge(s[1..], d);
      assert PairsOf(f, k) == PairsOf(f[1..], k);
    } else if s == [] || Before(Key(d[0]), Key(s[0])) {
      KeySortedTail(d);
      MergePairsByOccurrence(s, d[1..], k);
      BelowAll(s, Key(d[0]));
      ZipSkips(d, s, k);
      assert f[1..] == Merge(s, d[1..]);
      assert PairsOf(f, k) == PairsOf(f[1..], k);
    } else {
      BeforeTotal(Key(s[0]), Key(d[0]));
      KeySortedTail(s);
      KeySortedTail(d);
      MergePairsByOccurrence(s[1..], d[1..], k);
      assert f[1..] == Merge(s[1..], d[1..]);
      if Key(s[0]) == k {
        ZipHead(s[0], d[0], WithKey(s[1..], k), WithKey(d[1..], k));
        assert WithKey(s, k) == [s[0]] + WithKey(s[1..], k);
        assert WithKey(d, k) == [d[0]] + WithKey(d[1..], k);
        assert PairsOf(f, k) == [f[0]] + PairsOf(f[1..], k);
      } else {
        assert WithKey(s, k) == WithKey(s[1..], k) && WithKey(d, k) == WithKey(d[1..], k);
      }
    }
  }

  // ---------------------------------------------------------------- clean

  method Clean(r: Report) returns (clean: bool)
    ensures clean <==> r.missing == 0 && r.extra == 0 && forall i :: 0 <= i < |r.mismatches| ==> r.mismatches[i] == map[]
  {
    if r.missing != 0 || r.extra != 0 {
      return false;
    }
    for i := 0 to |r.mismatches|
      invariant forall k :: 0 <= k < i ==> r.mismatches[k] == map[]
    {
      if |r.mismatches[i]| != 0 {
        return false;
      }
    }
    return true;
  }

  ghost predicate AllSame(f: seq<Finding>, columns: nat) {
    MissingKeys(f) == [] && ExtraKeys(f) == [] && forall c: nat :: c < columns ==> Differences(f, c) == []
  }

  lemma SameRow(s: Row, d: Row, columns: nat)
    requires |s| == |d| == columns + 1 && Key(s) == Key(d)
    requires forall c: nat :: c < columns ==> Value(s, c) == Value(d, c)
    ensures s == d
  {
    forall i | 0 <= i < |s| ensures s[i] == d[i] {
      if i > 0 {
        assert Value(s, i - 1) == Value(d, i - 1);
      }
    }
  }

  lemma UnpairedHead(x: Finding, f: seq<Finding>, columns: nat)
    requires !x.Pair?
    ensures !AllSame([x] + f, columns)
  {
    FindingsHead(x, f);
  }

  lemma PairedHead(x: Finding, f: seq<Finding>, columns: nat)
    requires x.Pair?
    ensures AllSame([x] + f, columns) <==>
            (forall c: nat :: c < columns ==> Value(x.src, c) == Value(x.dst, c)) && AllSame(f, columns)
  {
    FindingsHead(x, f);
    forall c: nat | c < columns
      ensures Differences([x] + f, c) == [] <==> Value(x.src, c) == Value(x.dst, c) && Differences(f, c) == []
    {
      DifferencesHead(x, f, c);
    }
  }

  /** Nothing found means the two streams are the same rows in the same order, and conversely. */
  lemma {:induction false} SameIsIdentical(s: seq<Row>, d: seq<Row>, columns: nat)
    requires Width(s, columns) && Width(d, columns)
    ensures AllSame(Merge(s, d), columns) <==> s == d
    decreases |s| + |d|
  {
    var f := Merge(s, d);
    if s != [] {
      BeforeIrreflexive(Key(s[0]));
    }
    if s == [] && d == [] {
    } else if d == [] || (s != [] && Before(Key(s[0]), Key(d[0]))) {
      UnpairedHead(f[0], Merge(s[1..], d), columns);
    } else if s == [] || Before(Key(d[0]), Key(s[0])) {
      UnpairedHead(f[0], Merge(s, d[1..]), columns);
    } else {
      BeforeTotal(Key(s[0]), Key(d[0]));
      PairedHead(f[0], Merge(s[1..], d[1..]), columns);
      SameIsIdentical(s[1..], d[1..], columns);
      assert s == [s[0]] + s[1..] && d == [d[0]] + d[1..];
      if AllSame(f, columns) {
        SameRow(s[0], d[0], columns);
      }
    }
  }

  ghost predicate CleanReport(r: Report) {
    r.missing == 0 && r.extra == 0 && forall i :: 0 <= i < |r.mismatches| ==> r.mismatches[i] == map[]
  }

  /** A comparison is clean if and only if the two row sequences are identical. */
  lemma CleanIffIdentical(s: seq<Row>, d: seq<Row>, columns: nat)
    requires Width(s, columns) && Width(d, columns)
    ensures CleanReport(ReportOf(Merge(s, d), columns, |s|, |d|)) <==> s == d
  {
    var f := Merge(s, d);
    SameIsIdentical(s, d, columns);
    forall c: nat | c < columns ensures CountLabels(Differences(f, c)) == map[] <==> Differences(f, c) == [] {
      LabelTotal(Differences(f, c));
    }
    var r := ReportOf(f, columns, |s|, |d|);
    forall c: nat | c < columns ensures r.mismatches[c] == CountLabels(Differences(f, c)) {
    }
  }

  /** How many of the paired rows differ in a column. */
  function Differing(f: seq<Finding>, column: nat): nat {
    if f == [] then 0 else (if DiffersIn(f[0], column) then 1 else 0) + Differing(f[1..], column)
  }

  lemma {:induction false} DifferencesCount(f: seq<Finding>, column: nat)
    ensures |Differences(f, column)| == Differing(f, column)
    decreases |f|
  {
    if f != [] {
      DifferencesCount(f[1..], column);
      DifferencesHead(f[0], f[1..], column);
      assert f == [f[0]] + f[1..];
    }
  }

  /**
   On key-sorted streams the report counts the multiset differences of the keys, conserves the rows
   (source minus missing is chain minus extra), and per column totals the pairs that differ.
   */
  lemma ReportCounts(s: seq<Row>, d: seq<Row>, columns: nat, column: nat)
    requires KeySorted(s) && KeySorted(d) && column < columns
    ensures var r := ReportOf(Merge(s, d), columns, |s|, |d|);
            && r.missing == |multiset(Keys(s)) - multiset(Keys(d))|
            && r.extra == |multiset(Keys(d)) - multiset(Keys(s))|
            && r.srcRows - r.missing == r.dstRows - r.extra
            && Total(r.mismatches[column]) == Differing(Merge(s, d), column)
  {
    var f := Merge(s, d);
    MergeFindsDifferences(s, d);
    assert |MissingKeys(f)| == |multiset(MissingKeys(f))| && |ExtraKeys(f)| == |multiset(ExtraKeys(f))|;
    MergeConserves(s, d);
    LabelTotal(Differences(f, column));
    DifferencesCount(f, column);
  }

  // ---------------------------------------------------------------- the loop

  /** At most the first SAMPLES keys are kept. */
  function AddSample(samples: seq<string>, key: string): seq<string> {
    if |samples| < SAMPLES then samples + [key] else samples
  }

  lemma SampleAppend(keys: seq<string>, key: string)
    ensures Sample(keys + [key]) == AddSample(Sample(keys), key)
  {
  }

  lemma DifferencesAppend(f: seq<Finding>, x: Finding, column: nat)
    ensures Differences(f + [x], column) == Differences(f, column) + (if DiffersIn(x, column) then [DifferenceIn(x, column)] else [])
  {
    assert (f + [x])[..|f|] == f;
  }

  /** What a differing pair adds to a column's counter and sample. */
  lemma ColumnAppend(f: seq<Finding>, s: Row, d: Row, column: nat)
    requires DiffersIn(Pair(s, d), column)
    ensures var x, y := Differences(f, column), Differences(f + [Pair(s, d)], column);
            && CountLabels(y) == CountLabel(CountLabels(x), Value(s, column) + " -> " + Value(d, column))
            && Sample(KeysOf(y)) == AddSample(Sample(KeysOf(x)), Key(s))
  {
    DifferencesAppend(f, Pair(s, d), column);
    var x, y := Differences(f, column), Differences(f + [Pair(s, d)], column);
    assert y[..|x|] == x;
    assert KeysOf(y) == KeysOf(x) + [Key(s)];
    SampleAppend(KeysOf(x), Key(s));
  }

  /** The counter and sample of a column are those of the findings. */
  ghost predicate Tallied(f: seq<Finding>, mismatch: map<string, int>, sample: seq<string>, column: nat) {
    mismatch == CountLabels(Differences(f, column)) && sample == Sample(KeysOf(Differences(f, column)))
  }

  /** One column of one more pair. */
  method TallyColumn(s: Row, d: Row, column: nat, mismatch: map<string, int>, sample: seq<string>, ghost f: seq<Finding>)
      returns (mismatch': map<string, int>, sample': seq<string>)
    requires column + 1 < |s| == |d| && Tallied(f, mismatch, sample, column)
    ensures Tallied(f + [Pair(s, d)], mismatch', sample', column)
  {
    mismatch', sample' := mismatch, sample;
    DifferencesAppend(f, Pair(s, d), column);
    if s[column + 1] != d[column + 1] {
      ColumnAppend(f, s, d, column);
      mismatch' := CountLabel(mismatch, s[column + 1] + " -> " + d[column + 1]);
      sample' := AddSample(sample, s[0]);
    }
  }

  /** A pair changes nothing but the columns. */
  lemma PairReport(f: seq<Finding>, s: Row, d: Row, columns: nat, mismatches: seq<map<string, int>>, samples: seq<seq<string>>)
    requires |mismatches| == |samples| == columns
    requires forall k :: 0 <= k < columns ==> Tallied(f + [Pair(s, d)], mismatches[k], samples[k], k)
    ensures ReportOf(f + [Pair(s, d)], columns, 0, 0) ==
            ReportOf(f, columns, 0, 0).(mismatches := mismatches, mismatchEx := samples)
  {
    assert (f + [Pair(s, d)])[..|f|] == f;
  }

  /** Adds one pair's differences to the per-column counters and samples. */
  method Tally(s: Row, d: Row, columns: nat, r: Report, ghost f: seq<Finding>) returns (r': Report)
    requires |s| == |d| == columns + 1 && r == ReportOf(f, columns, 0, 0)
    ensures r' == ReportOf(f + [Pair(s, d)], columns, 0, 0)
  {
    var mismatches, samples := r.mismatches, r.mismatchEx;
    ghost var g := f + [Pair(s, d)];
    for i := 0 to columns
      invariant |mismatches| == columns && |samples| == columns
      invariant forall k :: 0 <= k < i ==> Tallied(g, mismatches[k], samples[k], k)
      invariant forall k :: i <= k < columns ==> Tallied(f, mismatches[k], samples[k], k)
    {
      var mismatch, sample := TallyColumn(s, d, i, mismatches[i], samples[i], f);
      mismatches, samples := mismatches[i := mismatch], samples[i := sample];
    }
    PairReport(f, s, d, columns, mismatches, samples);
    r' := r.(mismatches := mismatches, mismatchEx := samples);
  }

  lemma MissingReport(f: seq<Finding>, row: Row, columns: nat)
    ensures var r := ReportOf(f, columns, 0, 0);
            ReportOf(f + [Missing(row)], columns, 0, 0) ==
            r.(missing := r.missing + 1, missingEx := AddSample(r.missingEx, Key(row)))
  {
    SameTallies(f, Missing(row), columns);
    SampleAppend(MissingKeys(f), Key(row));
    assert (f + [Missing(row)])[..|f|] == f;
  }

  lemma ExtraReport(f: seq<Finding>, row: Row, columns: nat)
    ensures var r := ReportOf(f, columns, 0, 0);
            ReportOf(f + [Extra(row)], columns, 0, 0) ==
            r.(extra := r.extra + 1, extraEx := AddSample(r.extraEx, Key(row)))
  {
    SameTallies(f, Extra(row), columns);
    SampleAppend(ExtraKeys(f), Key(row));
    assert (f + [Extra(row)])[..|f|] == f;
  }

  /** A missing or extra row changes no column counter. */
  lemma SameTallies(f: seq<Finding>, x: Finding, columns: nat)
    requires !x.Pair?
    ensures ReportOf(f + [x], columns, 0, 0).mismatches == ReportOf(f, columns, 0, 0).mismatches
    ensures ReportOf(f + [x], columns, 0, 0).mismatchEx == ReportOf(f, columns, 0, 0).mismatchEx
  {
    assert (f + [x])[..|f|] == f;
  }

  lemma EmptyReport(columns: nat)
    ensures ReportOf([], columns, 0, 0) == Report(0, 0, 0, 0, [], [], seq(columns, _ => map[]), seq(columns, _ => []))
  {
  }

  /** The findings still to come from positions i and j. */
  function From(s: seq<Row>, d: seq<Row>, i: nat, j: nat): seq<Finding>
    requires i <= |s| && j <= |d|
  {
    Merge(s[i..], d[j..])
  }

  lemma FromMissing(s: seq<Row>, d: seq<Row>, i: nat, j: nat)
    requires i < |s| && j <= |d| && (j == |d| || Before(Key(s[i]), Key(d[j])))
    ensures From(s, d, i, j) == [Missing(s[i])] + From(s, d, i + 1, j)
  {
    assert s[i..][1..] == s[i + 1..];
  }

  lemma FromExtra(s: seq<Row>, d: seq<Row>, i: nat, j: nat)
    requires i <= |s| && j < |d|
    requires i == |s| || (Before(Key(d[j]), Key(s[i])) && !Before(Key(s[i]), Key(d[j])))
    ensures From(s, d, i, j) == [Extra(d[j])] + From(s, d, i, j + 1)
  {
    assert d[j..][1..] == d[j + 1..];
  }

  lemma FromPair(s: seq<Row>, d: seq<Row>, i: nat, j: nat)
    requires i < |s| && j < |d|
    requires !Before(Key(s[i]), Key(d[j])) && !Before(Key(d[j]), Key(s[i]))
    ensures From(s, d, i, j) == [Pair(s[i], d[j])] + From(s, d, i + 1, j + 1)
  {
    assert s[i..][1..] == s[i + 1..] && d[j..][1..] == d[j + 1..];
  }

  /** The merge from here on starts with x and then goes on as rest. */
  lemma Onwards(whole: seq<Finding>, f: seq<Finding>, x: Finding, rest: seq<Finding>)
    requires whole == f + ([x] + rest)
    ensures whole == (f + [x]) + rest
  {
  }

  lemma MergeEnds(s: seq<Row>, d: seq<Row>, whole: seq<Finding>, f: seq<Finding>)
    ensures From(s, d, 0, 0) == Merge(s, d)
    ensures whole == f + From(s, d, |s|, |d|) ==> whole == f
  {
    assert s[0..] == s && d[0..] == d;
    assert f + [] == f;
  }

  /** One pass of the loop: the finding x, and how far the cursors move. */
  method Advance(s: seq<Row>, d: seq<Row>, columns: nat, i: nat, j: nat, report: Report, ghost f: seq<Finding>)
      returns (i': nat, j': nat, report': Report, ghost x: Finding)
    requires Width(s, columns) && Width(d, columns) && i <= |s| && j <= |d| && (i < |s| || j < |d|)
    requires report == ReportOf(f, columns, 0, 0)
    ensures i <= i' <= |s| && j <= j' <= |d| && i + j < i' + j'
    ensures From(s, d, i, j) == [x] + From(s, d, i', j')
    ensures report' == ReportOf(f + [x], columns, 0, 0)
  {
    i', j' := i, j;
    if j == |d| || (i < |s| && Before(s[i][0], d[j][0])) {
      FromMissing(s, d, i, j);
      MissingReport(f, s[i], columns);
      report' := report.(missing := report.missing + 1, missingEx := AddSample(report.missingEx, s[i][0]));
      x, i' := Missing(s[i]), i + 1;
    } else if i == |s| || Before(d[j][0], s[i][0]) {
      FromExtra(s, d, i, j);
      ExtraReport(f, d[j], columns);
      report' := report.(extra := report.extra + 1, extraEx := AddSample(report.extraEx, d[j][0]));
      x, j' := Extra(d[j]), j + 1;
    } else {
      FromPair(s, d, i, j);
      report' := Tally(s[i], d[j], columns, report, f);
      x, i', j' := Pair(s[i], d[j]), i + 1, j + 1;
    }
  }

  /** A query error in either cursor fails the comparison; otherwise it reports the merge of the rows. */
  method RunParityCheck(src: Cursor, dst: Cursor, columns: nat) returns (r: Outcome)
    requires Width(src.rows, columns) && Width(dst.rows, columns)
    ensures r == if src.fails || dst.fails then QueryError
                 else Compared(ReportOf(Merge(src.rows, dst.rows), columns, |src.rows|, |dst.rows|))
  {
    var i, j := 0, 0;
    if (|src.rows| == 0 && src.fails) || (|dst.rows| == 0 && dst.fails) {
      return QueryError;
    }
    var report := Report(0, 0, 0, 0, [], [], seq(columns, _ => map[]), seq(columns, _ => []));
    EmptyReport(columns);
    ghost var whole := Merge(src.rows, dst.rows);
    ghost var f: seq<Finding> := [];
    MergeEnds(src.rows, dst.rows, whole, f);
    while i < |src.rows| || j < |dst.rows|
      invariant i <= |src.rows| && j <= |dst.rows|
      invariant (i == |src.rows| ==> !src.fails) && (j == |dst.rows| ==> !dst.fails)
      invariant whole == f + From(src.rows, dst.rows, i, j)
      invariant report == ReportOf(f, columns, 0, 0)
      decreases |src.rows| + |dst.rows| - (i + j)
    {
      ghost var x;
      i, j, report, x := Advance(src.rows, dst.rows, columns, i, j, report, f);
      Onwards(whole, f, x, From(src.rows, dst.rows, i, j));
      f := f + [x];
      if (i == |src.rows| && src.fails) || (j == |dst.rows| && dst.fails) {
        return QueryError;
      }
    }
    MergeEnds(src.rows, dst.rows, whole, f);
    r := Compared(report.(srcRows := |src.rows|, dstRows := |dst.rows|));
  }
}
