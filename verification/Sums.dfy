/** Totals of finite weight maps: the sum every power and vote count in the project is made of. */
module Sums {

  /** The sum of all weights. The choice of key does not matter (TotalSplit). */
  ghost function Total<T(!new)>(w: map<T, int>): int {
    if w == map[] then 0
    else var k :| k in w; w[k] + Total(w - {k})
  }

  /** Any key may be taken out first. */
  lemma {:induction false} TotalSplit<T(!new)>(w: map<T, int>, k: T)
    requires k in w
    ensures Total(w) == w[k] + Total(w - {k})
    decreases |w|
  {
    var j :| j in w && Total(w) == w[j] + Total(w - {j});
    if j != k {
      assert w - {j} - {k} == w - {k} - {j};
      TotalSplit(w - {j}, k);
      TotalSplit(w - {k}, j);
    }
  }

  /** Writing one weight changes the total by the difference. */
  lemma TotalUpdate<T(!new)>(w: map<T, int>, k: T, v: int)
    ensures Total(w[k := v]) == Total(w - {k}) + v
    ensures k in w ==> Total(w[k := v]) == Total(w) - w[k] + v
    ensures k !in w ==> Total(w[k := v]) == Total(w) + v
  {
    TotalSplit(w[k := v], k);
    assert w[k := v] - {k} == w - {k};
    if k in w {
      TotalSplit(w, k);
    } else {
      assert w - {k} == w;
    }
  }

  /** A set of keys and its complement share out the total. */
  lemma {:induction false} TotalPartition<T(!new)>(w: map<T, int>, s: set<T>)
    ensures Total(w) == Total(map k | k in w && k in s :: w[k]) + Total(w - s)
    decreases |w|
  {
    var inS := map k | k in w && k in s :: w[k];
    if w == map[] {
      assert inS == map[] && w - s == map[];
    } else {
      var k :| k in w;
      var rest := w - {k};
      TotalSplit(w, k);
      TotalPartition(rest, s);
      if k in s {
        TotalSplit(inS, k);
        assert inS - {k} == (map j | j in rest && j in s :: rest[j]);
        assert w - s == rest - s;
      } else {
        TotalSplit(w - s, k);
        assert (w - s) - {k} == rest - s;
        assert inS == (map j | j in rest && j in s :: rest[j]);
      }
    }
  }

  /** A total of non-negative weights is non-negative and bounds every one of them. */
  lemma {:induction false} TotalNonNegative<T(!new)>(w: map<T, int>)
    requires forall k :: k in w ==> w[k] >= 0
    ensures Total(w) >= 0
    ensures forall k :: k in w ==> w[k] <= Total(w)
    decreases |w|
  {
    forall k | k in w ensures 0 <= w[k] <= Total(w) {
      TotalNonNegative(w - {k});
      TotalSplit(w, k);
    }
    if w != map[] {
      var k :| k in w;
    }
  }

  /** The sum of a sequence. */
  ghost function SeqSum(s: seq<int>): int {
    if s == [] then 0 else SeqSum(s[..|s| - 1]) + s[|s| - 1]
  }

  /** Listing distinct keys in any order adds up to the total of those keys. */
  lemma {:induction false} SeqSumIsTotal<T(!new)>(ids: seq<T>, w: map<T, int>)
    requires forall i, j :: 0 <= i < j < |ids| ==> ids[i] != ids[j]
    requires w.Keys == set i | 0 <= i < |ids| :: ids[i]
    ensures SeqSum(seq(|ids|, i requires 0 <= i < |ids| => w[ids[i]])) == Total(w)
    decreases |ids|
  {
    var ws := seq(|ids|, i requires 0 <= i < |ids| => w[ids[i]]);
    if ids == [] {
      assert w == map[];
    } else {
      var n := |ids| - 1;
      var ids' := ids[..n];
      var w' := w - {ids[n]};
      assert w'.Keys == set i | 0 <= i < |ids'| :: ids'[i] by {
        forall x | x in w'.Keys ensures x in (set i | 0 <= i < |ids'| :: ids'[i]) {
          var i :| 0 <= i < |ids| && ids[i] == x;
          assert ids'[i] == x;
        }
        forall i | 0 <= i < |ids'| ensures ids'[i] in w'.Keys {
          assert ids[i] in w.Keys;
        }
      }
      SeqSumIsTotal(ids', w');
      TotalSplit(w, ids[n]);
      assert ws[..n] == seq(|ids'|, i requires 0 <= i < |ids'| => w'[ids'[i]]);
    }
  }
}
