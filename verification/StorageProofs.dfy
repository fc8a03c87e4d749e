/**
 Storage-proof consensus (pkg/etl/indexer.go): who passed, and which provers a majority of the proofs
 expected that did not submit one.
 */
module StorageProofs {
  import opened Sums
  import opened Ordering

  /** signed is false for a proof without a signature. */
  datatype Proof = Proof(address: string, signed: bool, provers: seq<string>)

  predicate Submits(p: Proof) { p.address != "" && p.signed }

  // ---------------------------------------------------------------- votes

  /** How often the proofs name an address, repeats within one proof included. */
  function Votes(proofs: seq<Proof>, a: string): nat {
    if proofs == [] then 0 else Votes(proofs[..|proofs| - 1], a) + multiset(proofs[|proofs| - 1].provers)[a]
  }

  function AddVote(votes: map<string, int>, a: string): map<string, int> {
    votes[a := (if a in votes then votes[a] else 0) + 1]
  }

  function AddVotes(votes: map<string, int>, provers: seq<string>): map<string, int> {
    if provers == [] then votes else AddVote(AddVotes(votes, provers[..|provers| - 1]), provers[|provers| - 1])
  }

  function VoteMap(proofs: seq<Proof>): map<string, int> {
    if proofs == [] then map[] else AddVotes(VoteMap(proofs[..|proofs| - 1]), proofs[|proofs| - 1].provers)
  }

  function NamesIn(proofs: seq<Proof>): nat {
    if proofs == [] then 0 else NamesIn(proofs[..|proofs| - 1]) + |proofs[|proofs| - 1].provers|
  }

  function VotesFor(votes: map<string, int>, a: string): int { if a in votes then votes[a] else 0 }

  lemma {:induction false} AddVotesCounts(votes: map<string, int>, provers: seq<string>, a: string)
    ensures VotesFor(AddVotes(votes, provers), a) == VotesFor(votes, a) + multiset(provers)[a]
    ensures a in AddVotes(votes, provers) <==> a in votes || a in provers
    decreases |provers|
  {
    if provers != [] {
      var n := |provers| - 1;
      AddVotesCounts(votes, provers[..n], a);
      assert provers == provers[..n] + [provers[n]];
      assert multiset(provers) == multiset(provers[..n]) + multiset{provers[n]};
    }
  }

  /** The map built in the loops holds the votes of exactly the addresses that have any. */
  lemma {:induction false} VoteMapCounts(proofs: seq<Proof>, a: string)
    ensures VotesFor(VoteMap(proofs), a) == Votes(proofs, a)
    ensures a in VoteMap(proofs) <==> Votes(proofs, a) > 0
    decreases |proofs|
  {
    if proofs != [] {
      var n := |proofs| - 1;
      VoteMapCounts(proofs[..n], a);
      AddVotesCounts(VoteMap(proofs[..n]), proofs[n].provers, a);
    }
  }

  lemma {:induction false} AddVotesTotal(votes: map<string, int>, provers: seq<string>)
    ensures Total(AddVotes(votes, provers)) == Total(votes) + |provers|
    decreases |provers|
  {
    if provers != [] {
      var n := |provers| - 1;
      AddVotesTotal(votes, provers[..n]);
      var before := AddVotes(votes, provers[..n]);
      TotalUpdate(before, provers[n], VotesFor(before, provers[n]) + 1);
    }
  }

  lemma {:induction false} VoteMapTotal(proofs: seq<Proof>)
    ensures Total(VoteMap(proofs)) == NamesIn(proofs)
    decreases |proofs|
  {
    if proofs != [] {
      var n := |proofs| - 1;
      VoteMapTotal(proofs[..n]);
      AddVotesTotal(VoteMap(proofs[..n]), proofs[n].provers);
    }
  }

  // ---------------------------------------------------------------- the verdict

  /** The submitters whose status update went through. */
  ghost function Passed(proofs: seq<Proof>, updated: nat -> bool): set<string> {
    set i: nat | i < |proofs| && Submits(proofs[i]) && updated(i) :: proofs[i].address
  }

  ghost predicate Fails(proofs: seq<Proof>, passed: set<string>, a: string) {
    Votes(proofs, a) > |proofs| / 2 && a !in passed
  }

  ghost function FailedSet(proofs: seq<Proof>, passed: set<string>): set<string> {
    set a | a in VoteMap(proofs) && Fails(proofs, passed, a)
  }

  /**
   Counts the votes, passes the submitters and reports the absent majority picks. updated says which
   status updates succeed; failed lists the addresses a failed proof is inserted for, in some order,
   each once.
   */
  method ProcessConsensus(proofs: seq<Proof>, updated: nat -> bool) returns (passed: set<string>, failed: seq<string>)
    ensures passed == Passed(proofs, updated)
    ensures forall a :: a in failed <==> Fails(proofs, passed, a)
    ensures forall i, j :: 0 <= i < j < |failed| ==> failed[i] != failed[j]
  {
    passed, failed := {}, [];
    if |proofs| == 0 {
      return;
    }
    var expected := CountVotes(proofs);
    var threshold := |proofs| / 2;
    passed := MarkPassed(proofs, updated);
    var rest := expected.Keys;
    while rest != {}
      invariant rest <= expected.Keys
      invariant forall a :: a in failed <==> a in expected && a !in rest && expected[a] > threshold && a !in passed
      invariant forall i, j :: 0 <= i < j < |failed| ==> failed[i] != failed[j]
      decreases |rest|
    {
      var a :| a in rest;
      if expected[a] > threshold && a !in passed {
        failed := failed + [a];
      }
      rest := rest - {a};
    }
    forall a ensures a in failed <==> Fails(proofs, passed, a) {
      VoteMapCounts(proofs, a);
    }
  }

  method CountVotes(proofs: seq<Proof>) returns (expected: map<string, int>)
    ensures expected == VoteMap(proofs)
  {
    expected := map[];
    for i := 0 to |proofs|
      invariant expected == VoteMap(proofs[..i])
    {
      assert proofs[..i + 1][..i] == proofs[..i];
      var provers := proofs[i].provers;
      for j := 0 to |provers|
        invariant expected == AddVotes(VoteMap(proofs[..i]), provers[..j])
      {
        assert provers[..j + 1][..j] == provers[..j];
        var a := provers[j];
        expected := expected[a := (if a in expected then expected[a] else 0) + 1];
      }
      assert provers[..|provers|] == provers;
    }
    assert proofs[..|proofs|] == proofs;
  }

  method MarkPassed(proofs: seq<Proof>, updated: nat -> bool) returns (passed: set<string>)
    ensures passed == Passed(proofs, updated)
  {
    passed := {};
    for i := 0 to |proofs|
      invariant passed == set k: nat | k < i && Submits(proofs[k]) && updated(k) :: proofs[k].address
    {
      if proofs[i].address != "" && proofs[i].signed && updated(i) {
        passed := passed + {proofs[i].address};
      }
    }
  }

  // ---------------------------------------------------------------- what the verdict means

  /**
   Without database errors: passing is submitting, and failing is being named more than half the number of
   proofs without submitting. So nobody does both.
   */
  lemma PassedAndFailedAreDisjoint(proofs: seq<Proof>, updated: nat -> bool, a: string)
    requires forall i: nat :: updated(i)
    ensures a in Passed(proofs, updated) <==> exists i :: 0 <= i < |proofs| && Submits(proofs[i]) && proofs[i].address == a
    ensures Fails(proofs, Passed(proofs, updated), a) <==>
            Votes(proofs, a) > |proofs| / 2 && forall i :: 0 <= i < |proofs| && Submits(proofs[i]) ==> proofs[i].address != a
  {
    forall i | 0 <= i < |proofs| && Submits(proofs[i]) && proofs[i].address == a ensures a in Passed(proofs, updated) {
      var k: nat := i;
      assert updated(k);
    }
  }

  lemma {:induction false} VotesConcat(a: seq<Proof>, b: seq<Proof>, who: string)
    ensures Votes(a + b, who) == Votes(a, who) + Votes(b, who)
    decreases |b|
  {
    if b == [] {
      assert a + b == a;
    } else {
      var n := |b| - 1;
      assert (a + b)[..|a| + n] == a + b[..n];
      VotesConcat(a, b[..n], who);
    }
  }

  lemma VotesDrop(s: seq<Proof>, k: nat, who: string)
    requires k < |s|
    ensures Votes(s, who) == Votes(Drop(s, k), who) + multiset(s[k].provers)[who]
  {
    var front, one, back := s[..k], [s[k]], s[k + 1..];
    assert s == (front + one) + back;
    VotesConcat(front + one, back, who);
    VotesConcat(front, one, who);
    VotesConcat(front, back, who);
    assert one[..0] == [];
  }

  /** The order of the proofs does not matter for the votes. */
  lemma {:induction false} VotesIgnoreOrder(a: seq<Proof>, b: seq<Proof>, who: string)
    requires multiset(a) == multiset(b)
    ensures Votes(a, who) == Votes(b, who)
    decreases |a|
  {
    SameElements(a, b);
    if a != [] {
      assert a[0] in b;
      var k :| 0 <= k < |b| && b[k] == a[0];
      DropOne(a, 0);
      DropOne(b, k);
      assert multiset(Drop(a, 0)) == multiset(a) - multiset{a[0]};
      assert multiset(Drop(b, k)) == multiset(b) - multiset{b[k]};
      VotesIgnoreOrder(Drop(a, 0), Drop(b, k), who);
      VotesDrop(a, 0, who);
      VotesDrop(b, k, who);
    }
  }

  lemma {:induction false} NamesBound(proofs: seq<Proof>, r: nat)
    requires forall i :: 0 <= i < |proofs| ==> |proofs[i].provers| <= r
    ensures NamesIn(proofs) <= |proofs| * r
    decreases |proofs|
  {
    if proofs != [] {
      var n := |proofs| - 1;
      NamesBound(proofs[..n], r);
      assert |proofs| * r == n * r + r;
    }
  }

  lemma WithoutOne(w: map<string, int>, a: string)
    requires a in w
    ensures |w| == |w - {a}| + 1
  {
    assert w.Keys == (w - {a}).Keys + {a};
  }

  lemma OneMore(n: int, c: int, m: int)
    requires m == n + 1
    ensures m * c == n * c + c
  {
  }

  lemma {:induction false} TotalAtLeast(w: map<string, int>, least: int)
    requires forall a :: a in w ==> w[a] >= least
    ensures Total(w) >= |w| * least
    decreases |w|
  {
    if w != map[] {
      var a :| a in w;
      WithoutOne(w, a);
      TotalAtLeast(w - {a}, least);
      TotalSplit(w, a);
      OneMore(|w - {a}|, least, |w|);
    }
  }

  lemma Monotone(a: int, b: int, c: nat)
    ensures a >= b ==> a * c >= b * c
  {
    if a >= b {
      assert (a - b) * c >= 0;
    }
  }

  lemma FewerThanTwice(k: nat, n: nat, r: nat)
    requires k * (n / 2 + 1) <= n * r && r >= 1
    ensures k < 2 * r
  {
    var half := n / 2 + 1;
    Monotone(k, 2 * r, half);
    Monotone(2 * half, n + 1, r);
    OneMore(n, r, n + 1);
    assert 2 * r * half == 2 * half * r;
  }

  /** If no proof names more than r provers, fewer than 2r addresses can fail, whatever the updates do. */
  lemma FewFailures(proofs: seq<Proof>, passed: set<string>, r: nat)
    requires r >= 1 && forall i :: 0 <= i < |proofs| ==> |proofs[i].provers| <= r
    ensures |FailedSet(proofs, passed)| < 2 * r
    ensures forall a :: a in FailedSet(proofs, passed) <==> Fails(proofs, passed, a)
  {
    var votes, failed := VoteMap(proofs), FailedSet(proofs, passed);
    forall a ensures (a in votes <==> Votes(proofs, a) > 0) && VotesFor(votes, a) == Votes(proofs, a) {
      VoteMapCounts(proofs, a);
    }
    var named := map a | a in votes && a in failed :: votes[a];
    assert named.Keys == failed;
    TotalPartition(votes, failed);
    TotalNonNegative(votes - failed);
    TotalAtLeast(named, |proofs| / 2 + 1);
    VoteMapTotal(proofs);
    NamesBound(proofs, r);
    FewerThanTwice(|failed|, |proofs|, r);
  }
}
