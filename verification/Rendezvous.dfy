/**
 Rendezvous hashing (pkg/common/rendezvous.go): every host is scored by a hash of its address and the
 key, and hosts are ranked by score. The hash is a parameter.
 */
module Rendezvous {
  import opened Ordering

  datatype Tuple = Tuple(addr: string, score: string)

  /** By score, then by address. */
  predicate Less(a: Tuple, b: Tuple) {
    if a.score == b.score then Before(a.addr, b.addr) else Before(a.score, b.score)
  }

  predicate Leq(a: Tuple, b: Tuple) { !Less(b, a) }

  function Scored(hash: string -> string, addr: string, key: string): Tuple { Tuple(addr, hash(addr + key)) }

  function Tuples(hash: string -> string, hosts: seq<string>, key: string): seq<Tuple> {
    seq(|hosts|, i requires 0 <= i < |hosts| => Scored(hash, hosts[i], key))
  }

  function Addresses(tuples: seq<Tuple>): (r: seq<string>)
    ensures |r| == |tuples|
  {
    seq(|tuples|, i requires 0 <= i < |tuples| => tuples[i].addr)
  }

  function Ranked(hash: string -> string, hosts: seq<string>, key: string): seq<string> {
    Addresses(Sort(Tuples(hash, hosts, key), Leq))
  }

  // ---------------------------------------------------------------- the order

  lemma LeqIsTotal()
    ensures TotalPreorder(Leq)
  {
    forall x: Tuple, y: Tuple ensures Leq(x, y) || Leq(y, x) {
      LessAsymmetric(x, y);
    }
    forall x: Tuple, y: Tuple, z: Tuple | Leq(x, y) && Leq(y, z) ensures Leq(x, z) {
      LeqTransitive(x, y, z);
    }
  }

  lemma LessAsymmetric(x: Tuple, y: Tuple)
    ensures !(Less(x, y) && Less(y, x))
  {
    if Before(x.addr, y.addr) {
      BeforeAsymmetric(x.addr, y.addr);
    }
    if Before(x.score, y.score) {
      BeforeAsymmetric(x.score, y.score);
    }
  }

  /** Different tuples never tie. */
  lemma LessTotal(x: Tuple, y: Tuple)
    ensures x == y || Less(x, y) || Less(y, x)
  {
    BeforeTotal(x.addr, y.addr);
    BeforeTotal(x.score, y.score);
  }

  lemma LessTransitive(x: Tuple, y: Tuple, z: Tuple)
    requires Less(x, y) && Less(y, z)
    ensures Less(x, z)
  {
    if x.score == y.score == z.score {
      BeforeTransitive(x.addr, y.addr, z.addr);
    } else if x.score != y.score && y.score != z.score {
      BeforeTransitive(x.score, y.score, z.score);
      BeforeIrreflexive(x.score);
    }
  }

  lemma LeqTransitive(x: Tuple, y: Tuple, z: Tuple)
    requires Leq(x, y) && Leq(y, z)
    ensures Leq(x, z)
  {
    LessTotal(x, y);
    LessTotal(y, z);
    if x != y && y != z {
      LessTransitive(x, y, z);
    }
    LessAsymmetric(x, z);
  }

  lemma TuplesIgnoreOrder(hash: string -> string, a: seq<string>, b: seq<string>, key: string)
    requires multiset(a) == multiset(b)
    ensures multiset(Tuples(hash, a, key)) == multiset(Tuples(hash, b, key))
  {
    var score := (h: string) => Scored(hash, h, key);
    MappedIgnoresOrder(score, a, b);
    assert Tuples(hash, a, key) == Mapped(score, a) && Tuples(hash, b, key) == Mapped(score, b);
  }

  /** Ranking is the unique sorted arrangement of the scored hosts. */
  lemma RankedIs(hash: string -> string, hosts: seq<string>, key: string, t: seq<Tuple>)
    requires Sorted(t, Leq) && multiset(t) == multiset(Tuples(hash, hosts, key))
    ensures Addresses(t) == Ranked(hash, hosts, key)
  {
    LeqIsTotal();
    SortSorts(Tuples(hash, hosts, key), Leq);
    forall x, y | x in t && y in t && Leq(x, y) && Leq(y, x) ensures x == y {
      LessTotal(x, y);
    }
    SortedUnique(t, Sort(Tuples(hash, hosts, key), Leq), Leq);
  }

  /** The order in which hosts are listed does not matter. */
  lemma RankIgnoresOrder(hash: string -> string, a: seq<string>, b: seq<string>, key: string)
    requires multiset(a) == multiset(b)
    ensures Ranked(hash, a, key) == Ranked(hash, b, key)
  {
    LeqIsTotal();
    SortSorts(Tuples(hash, a, key), Leq);
    TuplesIgnoreOrder(hash, a, b, key);
    RankedIs(hash, b, key, Sort(Tuples(hash, a, key), Leq));
  }

  lemma AddressesMultiset(s: seq<Tuple>, t: seq<Tuple>)
    requires multiset(s) == multiset(t)
    ensures multiset(Addresses(s)) == multiset(Addresses(t))
  {
    var addr := (x: Tuple) => x.addr;
    MappedIgnoresOrder(addr, s, t);
    assert Addresses(s) == Mapped(addr, s) && Addresses(t) == Mapped(addr, t);
  }

  /** A ranking lists exactly the hosts. */
  lemma RankedIsPermutation(hash: string -> string, hosts: seq<string>, key: string)
    ensures multiset(Ranked(hash, hosts, key)) == multiset(hosts)
    ensures |Ranked(hash, hosts, key)| == |hosts|
  {
    LeqIsTotal();
    SortSorts(Tuples(hash, hosts, key), Leq);
    AddressesMultiset(Sort(Tuples(hash, hosts, key), Leq), Tuples(hash, hosts, key));
    assert Addresses(Tuples(hash, hosts, key)) == hosts;
  }

  // ---------------------------------------------------------------- removing a host

  function Without(s: seq<string>, h: string): seq<string> {
    if s == [] then []
    else
      var rest := Without(s[..|s| - 1], h);
      if s[|s| - 1] == h then rest else rest + [s[|s| - 1]]
  }

  function TuplesWithout(s: seq<Tuple>, h: string): seq<Tuple> {
    if s == [] then []
    else
      var rest := TuplesWithout(s[..|s| - 1], h);
      if s[|s| - 1].addr == h then rest else rest + [s[|s| - 1]]
  }

  lemma {:induction false} WithoutMembers(s: seq<Tuple>, h: string)
    ensures forall x :: x in TuplesWithout(s, h) <==> x in s && x.addr != h
    decreases |s|
  {
    if s != [] {
      WithoutMembers(s[..|s| - 1], h);
      assert s == s[..|s| - 1] + [s[|s| - 1]];
    }
  }

  lemma {:induction false} WithoutSorted(s: seq<Tuple>, h: string)
    requires Sorted(s, Leq)
    ensures Sorted(TuplesWithout(s, h), Leq)
    decreases |s|
  {
    if s != [] {
      var n := |s| - 1;
      var init := s[..n];
      assert forall i, j :: 0 <= i < j < n ==> Leq(init[i], init[j]);
      WithoutSorted(init, h);
      WithoutMembers(init, h);
      var rest := TuplesWithout(init, h);
      forall i | 0 <= i < |rest| ensures Leq(rest[i], s[n]) {
        assert rest[i] in init;
        var k :| 0 <= k < n && init[k] == rest[i];
        assert Leq(s[k], s[n]);
      }
    }
  }

  lemma {:induction false} WithoutMultiset(s: seq<Tuple>, h: string, x: Tuple)
    ensures multiset(TuplesWithout(s, h))[x] == if x.addr == h then 0 else multiset(s)[x]
    decreases |s|
  {
    if s != [] {
      var n := |s| - 1;
      WithoutMultiset(s[..n], h, x);
      assert s == s[..n] + [s[n]];
      assert multiset(s) == multiset(s[..n]) + multiset{s[n]};
    }
  }

  lemma {:induction false} WithoutAddresses(s: seq<Tuple>, h: string)
    ensures Addresses(TuplesWithout(s, h)) == Without(Addresses(s), h)
    decreases |s|
  {
    if s != [] {
      var n := |s| - 1;
      WithoutAddresses(s[..n], h);
      assert Addresses(s)[..n] == Addresses(s[..n]);
      assert Addresses(TuplesWithout(s[..n], h) + [s[n]]) == Addresses(TuplesWithout(s[..n], h)) + [s[n].addr];
    }
  }

  lemma {:induction false} TuplesOfWithout(hash: string -> string, hosts: seq<string>, key: string, h: string)
    ensures Tuples(hash, Without(hosts, h), key) == TuplesWithout(Tuples(hash, hosts, key), h)
    decreases |hosts|
  {
    if hosts != [] {
      var n := |hosts| - 1;
      TuplesOfWithout(hash, hosts[..n], key, h);
      assert Tuples(hash, hosts, key)[..n] == Tuples(hash, hosts[..n], key);
      var rest := Without(hosts[..n], h);
      assert Tuples(hash, rest + [hosts[n]], key) == Tuples(hash, rest, key) + [Scored(hash, hosts[n], key)];
    }
  }

  /** Removing a host deletes it from the ranking and moves nobody else. */
  lemma RemovalKeepsRanking(hash: string -> string, hosts: seq<string>, key: string, h: string)
    ensures Ranked(hash, Without(hosts, h), key) == Without(Ranked(hash, hosts, key), h)
  {
    LeqIsTotal();
    var all := Tuples(hash, hosts, key);
    var sorted := Sort(all, Leq);
    SortSorts(all, Leq);
    WithoutSorted(sorted, h);
    TuplesOfWithout(hash, hosts, key, h);
    forall x ensures multiset(TuplesWithout(sorted, h))[x] == multiset(TuplesWithout(all, h))[x] {
      WithoutMultiset(sorted, h, x);
      WithoutMultiset(all, h, x);
    }
    assert multiset(TuplesWithout(sorted, h)) == multiset(TuplesWithout(all, h));
    RankedIs(hash, Without(hosts, h), key, TuplesWithout(sorted, h));
    WithoutAddresses(sorted, h);
  }

  // ---------------------------------------------------------------- the attestors

  /** The first size addresses of the ranking; a negative size selects none. */
  function Top(ranking: seq<string>, size: int): set<string> {
    set a | a in ranking[..Bound(|ranking|, size)]
  }

  function Bound(n: nat, size: int): nat { if size < 0 then 0 else if size < n then size else n }

  method GetAttestorRendezvous(hash: string -> string, validators: seq<string>, key: string, size: int)
      returns (result: map<string, bool>)
    ensures result.Keys == Top(Ranked(hash, validators, key), size)
    ensures forall a :: a in result ==> result[a]
  {
    var tuples := ScoreAll(hash, validators, key);
    tuples := Sort(tuples, Leq);
    RankedIsPermutation(hash, validators, key);
    var bound := if |tuples| < size then |tuples| else size;
    ghost var ranking := Ranked(hash, validators, key);
    result := map[];
    var i := 0;
    while i < |tuples| && i < bound
      invariant 0 <= i <= |tuples| && (i <= bound || i == 0)
      invariant result.Keys == set a | a in ranking[..i]
      invariant forall a :: a in result ==> result[a]
    {
      assert ranking[..i + 1] == ranking[..i] + [tuples[i].addr];
      result := result[tuples[i].addr := true];
      i := i + 1;
    }
  }

  method ScoreAll(hash: string -> string, hosts: seq<string>, key: string) returns (tuples: seq<Tuple>)
    ensures tuples == Tuples(hash, hosts, key)
  {
    tuples := [];
    for i := 0 to |hosts|
      invariant |tuples| == i && forall k :: 0 <= k < i ==> tuples[k] == Scored(hash, hosts[k], key)
    {
      tuples := tuples + [Tuple(hosts[i], hash(hosts[i] + key))];
    }
  }

  lemma {:induction false} DistinctSetSize(s: seq<string>)
    requires Distinct(s)
    ensures |set a | a in s| == |s|
    decreases |s|
  {
    if s != [] {
      var n := |s| - 1;
      var init := s[..n];
      assert Distinct(init) && s[n] !in init;
      DistinctSetSize(init);
      assert s == init + [s[n]];
      assert (set a | a in s) == (set a | a in init) + {s[n]};
    }
  }

  /** Among distinct validators the attestors number min(size, n), and a larger size only adds some. */
  lemma AttestorCount(hash: string -> string, validators: seq<string>, key: string, size: int, larger: int)
    requires Distinct(validators) && size <= larger
    ensures |Top(Ranked(hash, validators, key), size)| == Bound(|validators|, size)
    ensures Top(Ranked(hash, validators, key), size) <= Top(Ranked(hash, validators, key), larger)
  {
    var r := Ranked(hash, validators, key);
    RankedIsPermutation(hash, validators, key);
    DistinctPermutation(validators, r);
    var n := Bound(|r|, size);
    var front := r[..n];
    assert forall i, j :: 0 <= i < j < n ==> front[i] == r[i] && front[j] == r[j];
    DistinctSetSize(front);
    var more := r[..Bound(|r|, larger)];
    assert front == more[..n];
  }

  lemma {:induction false} WithoutAbsent(s: seq<string>, h: string)
    requires h !in s
    ensures Without(s, h) == s
    decreases |s|
  {
    if s != [] {
      WithoutAbsent(s[..|s| - 1], h);
      assert s == s[..|s| - 1] + [s[|s| - 1]];
    }
  }

  lemma {:induction false} WithoutOne(s: seq<string>, h: string, k: nat)
    requires Distinct(s) && k < |s| && s[k] == h
    ensures Without(s, h) == s[..k] + s[k + 1..]
    decreases |s|
  {
    var n := |s| - 1;
    var init := s[..n];
    assert forall i, j :: 0 <= i < j < n ==> init[i] == s[i] && init[j] == s[j];
    if k == n {
      assert h !in init;
      WithoutAbsent(init, h);
    } else {
      WithoutOne(init, h, k);
      assert s[k + 1..] == init[k + 1..] + [s[n]];
      assert init[..k] == s[..k];
    }
  }

  /**
   When a validator leaves, the attestors lose it if it was one and then gain the next in the ranking, if
   there is a next: at most one replacement.
   */
  lemma OneReplacement(hash: string -> string, validators: seq<string>, key: string, size: nat, v: string, k: nat)
    requires Distinct(validators)
    requires k < |Ranked(hash, validators, key)| && Ranked(hash, validators, key)[k] == v
    ensures var before := Ranked(hash, validators, key);
            var after := Top(Ranked(hash, Without(validators, v), key), size);
            if k >= size then after == Top(before, size)
            else if size < |before| then after == (Top(before, size) - {v}) + {before[size]}
            else after == Top(before, size) - {v}
  {
    var r := Ranked(hash, validators, key);
    RankedIsPermutation(hash, validators, key);
    DistinctPermutation(validators, r);
    RemovalKeepsRanking(hash, validators, key, v);
    WithoutOne(r, v, k);
    TopWithout(r, size, k);
  }

  lemma TopWithout(r: seq<string>, size: nat, k: nat)
    requires Distinct(r) && k < |r|
    ensures var after := Top(r[..k] + r[k + 1..], size);
            if k >= size then after == Top(r, size)
            else if size < |r| then after == (Top(r, size) - {r[k]}) + {r[size]}
            else after == Top(r, size) - {r[k]}
  {
    var rest := r[..k] + r[k + 1..];
    if k >= size {
      assert rest[..size] == r[..size];
    } else if size < |r| {
      assert rest[..size] == r[..k] + r[k + 1..size + 1];
      assert r[..size] == r[..k] + [r[k]] + r[k + 1..size];
      assert r[k + 1..size + 1] == r[k + 1..size] + [r[size]];
    } else {
      assert rest[..|rest|] == rest && r[..|r|] == r;
      assert r == r[..k] + [r[k]] + r[k + 1..];
    }
  }

  // ---------------------------------------------------------------- live hosts

  predicate Contains(s: string, sub: string) {
    |sub| <= |s| && (s[..|sub|] == sub || (s != "" && Contains(s[1..], sub)))
  }

  predicate Dead(h: string, dead: seq<string>) { exists i :: 0 <= i < |dead| && (Contains(h, dead[i]) || h == dead[i]) }

  /** Neither matched by a dead entry nor an invalid URL. */
  predicate Live(h: string, dead: seq<string>, validURL: string -> bool) { !Dead(h, dead) && validURL(h) }

  function LiveHosts(hosts: seq<string>, dead: seq<string>, validURL: string -> bool): seq<string> {
    if hosts == [] then []
    else
      var before := LiveHosts(hosts[..|hosts| - 1], dead, validURL);
      var h := hosts[|hosts| - 1];
      if Live(h, dead, validURL) && h !in before then before + [h] else before
  }

  method FilterLiveHosts(hosts: seq<string>, dead: seq<string>, validURL: string -> bool) returns (live: seq<string>)
    ensures live == LiveHosts(hosts, dead, validURL)
  {
    live := [];
    for i := 0 to |hosts|
      invariant live == LiveHosts(hosts[..i], dead, validURL)
    {
      assert hosts[..i + 1][..i] == hosts[..i];
      var h := hosts[i];
      var isDead := false;
      for j := 0 to |dead|
        invariant !isDead && forall k :: 0 <= k < j ==> !Contains(h, dead[k]) && h != dead[k]
      {
        if Contains(h, dead[j]) || h == dead[j] {
          isDead := true;
          break;
        }
      }
      if isDead {
        continue;
      }
      if !validURL(h) {
        continue;
      }
      if h in live {
        continue;
      }
      live := live + [h];
    }
    assert hosts[..|hosts|] == hosts;
  }

  /** Exactly the live hosts, each once. */
  lemma {:induction false} LiveHostsAre(hosts: seq<string>, dead: seq<string>, validURL: string -> bool)
    ensures Distinct(LiveHosts(hosts, dead, validURL))
    ensures forall h :: h in LiveHosts(hosts, dead, validURL) <==> h in hosts && Live(h, dead, validURL)
    decreases |hosts|
  {
    if hosts != [] {
      var n := |hosts| - 1;
      LiveHostsAre(hosts[..n], dead, validURL);
      assert hosts == hosts[..n] + [hosts[n]];
    }
  }

  /** An empty dead entry is contained in every host: nothing stays live. */
  lemma EmptyDeadEntryKillsAll(hosts: seq<string>, dead: seq<string>, validURL: string -> bool)
    requires "" in dead
    ensures LiveHosts(hosts, dead, validURL) == []
  {
    LiveHostsAre(hosts, dead, validURL);
    var i :| 0 <= i < |dead| && dead[i] == "";
    forall h ensures Dead(h, dead) {
      assert h[..0] == "";
      assert Contains(h, dead[i]);
    }
    if LiveHosts(hosts, dead, validURL) != [] {
      assert LiveHosts(hosts, dead, validURL)[0] in LiveHosts(hosts, dead, validURL);
    }
  }

  /** What the filter's comment promises: hosts in the dead list, invalid URLs and repeats go, nothing else. */
  function ListedHosts(hosts: seq<string>, dead: seq<string>, validURL: string -> bool): seq<string> {
    if hosts == [] then []
    else
      var before := ListedHosts(hosts[..|hosts| - 1], dead, validURL);
      var h := hosts[|hosts| - 1];
      if h !in dead && validURL(h) && h !in before then before + [h] else before
  }

  lemma {:induction false} ListedHostsAre(hosts: seq<string>, dead: seq<string>, validURL: string -> bool)
    ensures forall h :: h in ListedHosts(hosts, dead, validURL) <==> h in hosts && h !in dead && validURL(h)
    decreases |hosts|
  {
    if hosts != [] {
      var n := |hosts| - 1;
      ListedHostsAre(hosts[..n], dead, validURL);
      assert hosts == hosts[..n] + [hosts[n]];
    }
  }

  /** Some dead entry is a part of the host. */
  predicate PartlyDead(h: string, dead: seq<string>) { exists i :: 0 <= i < |dead| && Contains(h, dead[i]) }

  /** No valid host that is not itself listed has a dead entry as a part of it. */
  ghost predicate NoPartialMatch(hosts: seq<string>, dead: seq<string>, validURL: string -> bool) {
    forall h :: h in hosts && validURL(h) && h !in dead ==> !PartlyDead(h, dead)
  }

  lemma {:induction false} ListedWithoutPartialMatch(hosts: seq<string>, dead: seq<string>, validURL: string -> bool)
    requires NoPartialMatch(hosts, dead, validURL)
    ensures LiveHosts(hosts, dead, validURL) == ListedHosts(hosts, dead, validURL)
    decreases |hosts|
  {
    if hosts != [] {
      var n := |hosts| - 1;
      var h := hosts[n];
      assert hosts == hosts[..n] + [h];
      assert h in hosts;
      ListedWithoutPartialMatch(hosts[..n], dead, validURL);
      if validURL(h) {
        assert Dead(h, dead) <==> h in dead || PartlyDead(h, dead);
      }
    }
  }

  /** The filter drops only what is listed if and only if no other valid host contains a dead entry. */
  lemma OnlyListedHostsDropped(hosts: seq<string>, dead: seq<string>, validURL: string -> bool)
    ensures LiveHosts(hosts, dead, validURL) == ListedHosts(hosts, dead, validURL) <==> NoPartialMatch(hosts, dead, validURL)
  {
    LiveHostsAre(hosts, dead, validURL);
    ListedHostsAre(hosts, dead, validURL);
    if LiveHosts(hosts, dead, validURL) == ListedHosts(hosts, dead, validURL) {
      forall h | h in hosts && validURL(h) && h !in dead ensures !PartlyDead(h, dead) {
        assert h in LiveHosts(hosts, dead, validURL);
        assert !Dead(h, dead);
      }
    } else if NoPartialMatch(hosts, dead, validURL) {
      ListedWithoutPartialMatch(hosts, dead, validURL);
    }
  }

  lemma SameSetSameMultiset(a: seq<string>, b: seq<string>)
    requires Distinct(a) && Distinct(b) && forall h :: h in a <==> h in b
    ensures multiset(a) == multiset(b)
  {
    DistinctCounts(a);
    DistinctCounts(b);
    forall h ensures multiset(a)[h] == multiset(b)[h] {
      assert h in multiset(a) <==> h in a;
      assert h in multiset(b) <==> h in b;
    }
  }

  class RendezvousHasher {
    var hosts: seq<string>

    constructor (hosts: seq<string>, dead: seq<string>, validURL: string -> bool)
      ensures this.hosts == LiveHosts(hosts, dead, validURL)
    {
      var live := FilterLiveHosts(hosts, dead, validURL);
      this.hosts := live;
    }

    method UpdateHosts(hosts: seq<string>, dead: seq<string>, validURL: string -> bool)
      modifies this
      ensures this.hosts == LiveHosts(hosts, dead, validURL)
    {
      this.hosts := FilterLiveHosts(hosts, dead, validURL);
    }

    method Rank(hash: string -> string, key: string) returns (result: seq<string>)
      ensures result == Ranked(hash, hosts, key)
    {
      var tuples := ScoreAll(hash, hosts, key);
      tuples := Sort(tuples, Leq);
      result := [];
      for i := 0 to |tuples|
        invariant |result| == i && forall k :: 0 <= k < i ==> result[k] == tuples[k].addr
      {
        result := result + [tuples[i].addr];
      }
    }
  }

  /** Two lists with the same live hosts, in whatever order and however often, rank the same. */
  lemma RankingDependsOnLiveSet(hash: string -> string, key: string, a: seq<string>, deadA: seq<string>,
                                b: seq<string>, deadB: seq<string>, validURL: string -> bool)
    requires forall h :: (h in a && Live(h, deadA, validURL)) <==> (h in b && Live(h, deadB, validURL))
    ensures Ranked(hash, LiveHosts(a, deadA, validURL), key) == Ranked(hash, LiveHosts(b, deadB, validURL), key)
  {
    LiveHostsAre(a, deadA, validURL);
    LiveHostsAre(b, deadB, validURL);
    SameSetSameMultiset(LiveHosts(a, deadA, validURL), LiveHosts(b, deadB, validURL));
    RankIgnoresOrder(hash, LiveHosts(a, deadA, validURL), LiveHosts(b, deadB, validURL), key);
  }
}
