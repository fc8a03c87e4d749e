/**
 Rebuilding reward pools and rewards (cmd/genesis-writer/entities_reward.go) from the launchpad keys
 derived per secret and mint (cmd/genesis-writer/reward_launchpad_keys.go).

 Key derivation and the string tests on addresses are parameters.
 */
module RewardPlan {
  import opened Ordering
  import opened Options

  datatype Generation = Original | Rotated

  datatype Derived = Derived(rm: string, authority: string, key: string)

  /** derive is None where a mint or the secret cannot derive a key pair. */
  datatype Env = Env(
    derive: (Generation, string) -> Option<Derived>,
    lower: string -> string, trim: string -> string, isAddress: string -> bool)

  datatype Identity = Identity(mint: string, generation: Generation, rm: string)

  datatype Keys = Keys(byRM: map<string, Identity>, byAuthority: map<string, string>)

  // ---------------------------------------------------------------- loading the keys

  datatype Source = Source(generation: Generation, mint: string)

  datatype LoadError = NoMints | CannotDerive(source: Source) | Collision(rm: string)

  datatype Loaded = LoadFails(error: LoadError) | LoadOk(keys: Keys)

  const NO_KEYS := Keys(map[], map[])

  function AddSource(env: Env, k: Keys, s: Source): Loaded {
    var d := env.derive(s.generation, s.mint);
    if d.None? then LoadFails(CannotDerive(s))
    else if d.value.rm in k.byRM then LoadFails(Collision(d.value.rm))
    else
      LoadOk(Keys(k.byRM[d.value.rm := Identity(s.mint, s.generation, d.value.rm)],
                  k.byAuthority[env.lower(d.value.authority) := d.value.key]))
  }

  function Load(env: Env, sources: seq<Source>): Loaded {
    if sources == [] then LoadOk(NO_KEYS)
    else
      var before := Load(env, sources[..|sources| - 1]);
      if before.LoadFails? then before else AddSource(env, before.keys, sources[|sources| - 1])
  }

  function SourcesOf(g: Generation, mints: seq<string>): seq<Source> {
    seq(|mints|, i requires 0 <= i < |mints| => Source(g, mints[i]))
  }

  /** Every mint under the original secret, then every mint under the rotated one. */
  function AllSources(mints: seq<string>): seq<Source> { SourcesOf(Original, mints) + SourcesOf(Rotated, mints) }

  lemma LoadAppend(env: Env, seen: seq<Source>, s: Source, k: Keys)
    requires Load(env, seen) == LoadOk(k)
    ensures Load(env, seen + [s]) == AddSource(env, k, s)
  {
    assert (seen + [s])[..|seen|] == seen;
  }

  lemma {:induction false} LoadStaysFailed(env: Env, seen: seq<Source>, sources: seq<Source>)
    requires seen <= sources && Load(env, seen).LoadFails?
    ensures Load(env, sources) == Load(env, seen)
    decreases |sources|
  {
    if seen != sources {
      LoadStaysFailed(env, seen, sources[..|sources| - 1]);
    }
  }

  lemma SourcesPrefix(g: Generation, mints: seq<string>, done: seq<Source>, i: nat)
    requires i < |mints|
    ensures done + SourcesOf(g, mints[..i + 1]) == (done + SourcesOf(g, mints[..i])) + [Source(g, mints[i])]
    ensures done + SourcesOf(g, mints[..i + 1]) <= done + SourcesOf(g, mints)
  {
  }

  method IndexGeneration(env: Env, g: Generation, mints: seq<string>, start: Keys, ghost done: seq<Source>) returns (r: Loaded)
    requires Load(env, done) == LoadOk(start)
    ensures r == Load(env, done + SourcesOf(g, mints))
  {
    var byRM, byAuthority := start.byRM, start.byAuthority;
    ghost var all := done + SourcesOf(g, mints);
    ghost var seen := done;
    assert done + SourcesOf(g, mints[..0]) == done;
    for i := 0 to |mints|
      invariant seen == done + SourcesOf(g, mints[..i])
      invariant Load(env, seen) == LoadOk(Keys(byRM, byAuthority))
    {
      var d := env.derive(g, mints[i]);
      LoadAppend(env, seen, Source(g, mints[i]), Keys(byRM, byAuthority));
      SourcesPrefix(g, mints, done, i);
      seen := seen + [Source(g, mints[i])];
      if d.None? {
        LoadStaysFailed(env, seen, all);
        return LoadFails(CannotDerive(Source(g, mints[i])));
      }
      if d.value.rm in byRM {
        LoadStaysFailed(env, seen, all);
        return LoadFails(Collision(d.value.rm));
      }
      byRM := byRM[d.value.rm := Identity(mints[i], g, d.value.rm)];
      byAuthority := byAuthority[env.lower(d.value.authority) := d.value.key];
    }
    assert mints[..|mints|] == mints;
    r := LoadOk(Keys(byRM, byAuthority));
  }

  method LoadKeys(env: Env, mints: seq<string>) returns (r: Loaded)
    ensures r == if mints == [] then LoadFails(NoMints) else Load(env, AllSources(mints))
  {
    if |mints| == 0 {
      return LoadFails(NoMints);
    }
    var first := IndexGeneration(env, Original, mints, NO_KEYS, []);
    assert [] + SourcesOf(Original, mints) == SourcesOf(Original, mints);
    if first.LoadFails? {
      LoadStaysFailed(env, SourcesOf(Original, mints), AllSources(mints));
      return first;
    }
    r := IndexGeneration(env, Rotated, mints, first.keys, SourcesOf(Original, mints));
  }

  /** The reward manager a source derives. */
  ghost predicate Derives(env: Env, s: Source, rm: string) {
    env.derive(s.generation, s.mint).Some? && env.derive(s.generation, s.mint).value.rm == rm
  }

  ghost predicate DerivesAt(env: Env, sources: seq<Source>, i: int, rm: string)
    requires 0 <= i < |sources|
  {
    Derives(env, sources[i], rm)
  }

  /** Every source derives, and no two derive the same reward manager. */
  ghost predicate Unambiguous(env: Env, sources: seq<Source>) {
    && (forall i :: 0 <= i < |sources| ==> env.derive(sources[i].generation, sources[i].mint).Some?)
    && (forall i, j :: 0 <= i < j < |sources| ==>
          env.derive(sources[i].generation, sources[i].mint).value.rm != env.derive(sources[j].generation, sources[j].mint).value.rm)
  }

  ghost predicate IndexedBy(env: Env, sources: seq<Source>, k: Keys, rm: string) {
    && (rm in k.byRM <==> exists i :: 0 <= i < |sources| && DerivesAt(env, sources, i, rm))
    && (forall i :: 0 <= i < |sources| && DerivesAt(env, sources, i, rm) ==>
          rm in k.byRM && k.byRM[rm] == Identity(sources[i].mint, sources[i].generation, rm))
  }

  /** Loading succeeds exactly for unambiguous sources, and then indexes each by what it derives. */
  lemma {:induction false} LoadIndexes(env: Env, sources: seq<Source>)
    ensures Load(env, sources).LoadOk? <==> Unambiguous(env, sources)
    ensures Load(env, sources).LoadOk? ==> forall rm :: IndexedBy(env, sources, Load(env, sources).keys, rm)
    decreases |sources|
  {
    if sources != [] {
      var n := |sources| - 1;
      var init, last := sources[..n], sources[n];
      LoadIndexes(env, init);
      assert forall i :: 0 <= i < n ==> init[i] == sources[i];
      if Load(env, init).LoadOk? {
        var d := env.derive(last.generation, last.mint);
        if d.Some? {
          assert IndexedBy(env, init, Load(env, init).keys, d.value.rm);
          FreshDerivation(env, sources, n);
        }
        if Load(env, sources).LoadOk? {
          forall rm ensures IndexedBy(env, sources, Load(env, sources).keys, rm) {
            assert IndexedBy(env, init, Load(env, init).keys, rm);
            IndexLast(env, sources, n, Load(env, init).keys, rm);
          }
        }
      } else {
        assert !Unambiguous(env, sources);
      }
    }
  }

  /** The last source keeps the sources unambiguous exactly when nobody before derives its manager. */
  lemma FreshDerivation(env: Env, sources: seq<Source>, n: nat)
    requires |sources| == n + 1 && env.derive(sources[n].generation, sources[n].mint).Some? && Unambiguous(env, sources[..n])
    ensures Unambiguous(env, sources) <==>
            !exists i :: 0 <= i < n && DerivesAt(env, sources[..n], i, env.derive(sources[n].generation, sources[n].mint).value.rm)
  {
    var init := sources[..n];
    var rm := env.derive(sources[n].generation, sources[n].mint).value.rm;
    assert forall i :: 0 <= i < n ==> init[i] == sources[i];
    forall i | 0 <= i < n
      ensures DerivesAt(env, init, i, rm) <==> env.derive(sources[i].generation, sources[i].mint).value.rm == rm
    {
      assert init[i] == sources[i];
    }
  }

  lemma IndexLast(env: Env, sources: seq<Source>, n: nat, before: Keys, rm: string)
    requires |sources| == n + 1 && Unambiguous(env, sources) && IndexedBy(env, sources[..n], before, rm)
    requires AddSource(env, before, sources[n]).LoadOk?
    ensures IndexedBy(env, sources, AddSource(env, before, sources[n]).keys, rm)
  {
    var init := sources[..n];
    forall i | 0 <= i < n ensures DerivesAt(env, sources, i, rm) <==> DerivesAt(env, init, i, rm) {
      assert init[i] == sources[i];
    }
    var after := AddSource(env, before, sources[n]).keys;
    assert rm in after.byRM <==> rm in before.byRM || DerivesAt(env, sources, n, rm);
  }

  /** (generation, mint) and reward manager determine each other. */
  lemma KeysAreABijection(env: Env, mints: seq<string>, g: Generation, mint: string)
    requires Load(env, AllSources(mints)).LoadOk?
    ensures Distinct(mints)
    ensures var keys := Load(env, AllSources(mints)).keys;
            && (mint in mints ==> env.derive(g, mint).Some?)
            && (forall rm :: (rm in keys.byRM && keys.byRM[rm].mint == mint && keys.byRM[rm].generation == g) <==>
                             (mint in mints && Derives(env, Source(g, mint), rm)))
            && (forall rm :: rm in keys.byRM ==> keys.byRM[rm].rm == rm && keys.byRM[rm].mint in mints)
  {
    var sources := AllSources(mints);
    var keys := Load(env, sources).keys;
    LoadIndexes(env, sources);
    SourcesAre(mints);
    DistinctMints(env, mints);
    if mint in mints {
      var k :| 0 <= k < |sources| && sources[k] == Source(g, mint);
    }
    forall rm
      ensures (rm in keys.byRM && keys.byRM[rm].mint == mint && keys.byRM[rm].generation == g) <==>
              (mint in mints && Derives(env, Source(g, mint), rm))
      ensures rm in keys.byRM ==> keys.byRM[rm].rm == rm && keys.byRM[rm].mint in mints
    {
      IdentityOf(env, mints, keys, g, mint, rm);
    }
  }

  lemma SourcesAre(mints: seq<string>)
    ensures forall s: Source :: s in AllSources(mints) <==> s.mint in mints
  {
    var sources, n := AllSources(mints), |mints|;
    forall s: Source | s.mint in mints ensures s in sources {
      var i :| 0 <= i < n && mints[i] == s.mint;
      if s.generation == Original {
        assert sources[i] == s;
      } else {
        assert sources[n + i] == s;
      }
    }
  }

  lemma DistinctMints(env: Env, mints: seq<string>)
    requires Unambiguous(env, AllSources(mints))
    ensures Distinct(mints)
  {
    var sources := AllSources(mints);
    forall i, j | 0 <= i < j < |mints| ensures mints[i] != mints[j] {
      assert sources[i] == Source(Original, mints[i]) && sources[j] == Source(Original, mints[j]);
    }
  }

  lemma IdentityOf(env: Env, mints: seq<string>, keys: Keys, g: Generation, mint: string, rm: string)
    requires IndexedBy(env, AllSources(mints), keys, rm)
    ensures (rm in keys.byRM && keys.byRM[rm].mint == mint && keys.byRM[rm].generation == g) <==>
            (mint in mints && Derives(env, Source(g, mint), rm))
    ensures rm in keys.byRM ==> keys.byRM[rm].rm == rm && keys.byRM[rm].mint in mints
  {
    var sources := AllSources(mints);
    SourcesAre(mints);
    if rm in keys.byRM {
      var i :| 0 <= i < |sources| && DerivesAt(env, sources, i, rm);
      assert sources[i] in sources;
      assert sources[i] == Source(keys.byRM[rm].generation, keys.byRM[rm].mint);
    }
    if mint in mints && Derives(env, Source(g, mint), rm) {
      assert Source(g, mint) in sources;
      var k :| 0 <= k < |sources| && sources[k] == Source(g, mint);
      assert DerivesAt(env, sources, k, rm);
    }
  }

  /** The search over the index, in whatever order the map is walked. */
  method RmForMint(keys: Keys, mint: string, g: Generation) returns (rm: Option<string>)
    ensures rm.Some? ==> rm.value in keys.byRM && keys.byRM[rm.value].mint == mint && keys.byRM[rm.value].generation == g
    ensures rm.None? ==> forall m :: m in keys.byRM ==> keys.byRM[m].mint != mint || keys.byRM[m].generation != g
  {
    var rest := keys.byRM.Keys;
    while rest != {}
      invariant rest <= keys.byRM.Keys
      invariant forall m :: m in keys.byRM && m !in rest ==> keys.byRM[m].mint != mint || keys.byRM[m].generation != g
      decreases |rest|
    {
      var m :| m in rest;
      if keys.byRM[m].mint == mint && keys.byRM[m].generation == g {
        return Some(m);
      }
      rest := rest - {m};
    }
    rm := None;
  }

  // ---------------------------------------------------------------- authorities

  datatype KeyFound = NoKey | NotAnAddress | Found(key: string, address: string)

  /** The first authority the derivations cover decides, even when it is no address. */
  function AuthorityKey(env: Env, keys: Keys, authorities: seq<string>): KeyFound {
    if authorities == [] then NoKey
    else
      var trimmed := env.trim(authorities[0]);
      if env.lower(trimmed) !in keys.byAuthority then AuthorityKey(env, keys, authorities[1..])
      else if !env.isAddress(trimmed) then NotAnAddress
      else Found(keys.byAuthority[env.lower(trimmed)], trimmed)
  }

  method AuthorityKeyFor(env: Env, keys: Keys, authorities: seq<string>) returns (r: KeyFound)
    ensures r == AuthorityKey(env, keys, authorities)
  {
    assert authorities[0..] == authorities;
    for i := 0 to |authorities|
      invariant AuthorityKey(env, keys, authorities) == AuthorityKey(env, keys, authorities[i..])
    {
      var trimmed := env.trim(authorities[i]);
      if env.lower(trimmed) in keys.byAuthority {
        if !env.isAddress(trimmed) {
          return NotAnAddress;
        }
        return Found(keys.byAuthority[env.lower(trimmed)], trimmed);
      }
    }
    r := NoKey;
  }

  // ---------------------------------------------------------------- the plan

  datatype Pool = Pool(rm: string, authorities: seq<string>)

  datatype Plan = Plan(pools: seq<Pool>, remap: map<string, string>, dropped: seq<string>)

  datatype PlanError = UnknownManager(rm: string) | NoAuthorities(rm: string) | NoAuthorityKey(rm: string)

  datatype Planning = PlanFails(error: PlanError) | Planned(plan: Plan)

  predicate IsOriginal(keys: Keys, rm: string, mint: string) {
    rm in keys.byRM && keys.byRM[rm].generation == Original && keys.byRM[rm].mint == mint
  }

  predicate HasOriginal(keys: Keys, pools: seq<Pool>, mint: string) {
    exists i :: 0 <= i < |pools| && IsOriginal(keys, pools[i].rm, mint)
  }

  /** A rotated-generation pool whose mint also has an original-generation pool. */
  predicate Phantom(keys: Keys, pools: seq<Pool>, p: Pool) {
    p.rm in keys.byRM && keys.byRM[p.rm].generation == Rotated && HasOriginal(keys, pools, keys.byRM[p.rm].mint)
  }

  predicate Emittable(env: Env, keys: Keys, p: Pool) { p.authorities != [] && AuthorityKey(env, keys, p.authorities).Found? }

  /** Every pool is derived, and every pool that is kept can be signed for. */
  predicate Plannable(env: Env, keys: Keys, pools: seq<Pool>) {
    && (forall i :: 0 <= i < |pools| ==> pools[i].rm in keys.byRM)
    && (forall i :: 0 <= i < |pools| && !Phantom(keys, pools, pools[i]) ==> Emittable(env, keys, pools[i]))
  }

  /** The phantoms among ps, or the others. */
  function Pick(keys: Keys, pools: seq<Pool>, ps: seq<Pool>, phantoms: bool): seq<Pool> {
    if ps == [] then []
    else
      var rest := Pick(keys, pools, ps[..|ps| - 1], phantoms);
      var p := ps[|ps| - 1];
      if Phantom(keys, pools, p) == phantoms then rest + [p] else rest
  }

  function Managers(pools: seq<Pool>): seq<string> { seq(|pools|, i requires 0 <= i < |pools| => pools[i].rm) }

  predicate StringLeq(a: string, b: string) { !Before(b, a) }

  predicate PoolLeq(a: Pool, b: Pool) { StringLeq(a.rm, b.rm) }

  lemma StringLeqIsTotal()
    ensures TotalPreorder(StringLeq)
  {
    forall x: string, y: string ensures StringLeq(x, y) || StringLeq(y, x) {
      if Before(y, x) {
        BeforeAsymmetric(y, x);
      }
    }
    forall x: string, y: string, z: string | StringLeq(x, y) && StringLeq(y, z) ensures StringLeq(x, z) {
      BeforeTotal(x, y);
      BeforeTotal(y, z);
      if x != y && y != z {
        BeforeTransitive(x, y, z);
        BeforeAsymmetric(x, z);
      }
    }
  }

  lemma PoolLeqIsTotal()
    ensures TotalPreorder(PoolLeq)
  {
    StringLeqIsTotal();
    forall x: Pool, y: Pool ensures PoolLeq(x, y) || PoolLeq(y, x) {
      assert StringLeq(x.rm, y.rm) || StringLeq(y.rm, x.rm);
    }
    forall x: Pool, y: Pool, z: Pool | PoolLeq(x, y) && PoolLeq(y, z) ensures PoolLeq(x, z) {
      assert StringLeq(x.rm, y.rm) && StringLeq(y.rm, z.rm);
    }
  }

  /** The remap sends exactly the phantoms' managers to an original-generation pool of the same mint. */
  ghost predicate IsRemap(keys: Keys, pools: seq<Pool>, ps: seq<Pool>, remap: map<string, string>) {
    && (forall rm :: rm in remap <==> rm in Managers(Pick(keys, pools, ps, true)))
    && (forall rm :: rm in remap ==> GoodTarget(keys, pools, rm, remap[rm]))
  }

  ghost predicate GoodTarget(keys: Keys, pools: seq<Pool>, rm: string, actual: string) {
    && rm in keys.byRM && keys.byRM[rm].generation == Rotated
    && IsOriginal(keys, actual, keys.byRM[rm].mint)
    && actual in Managers(pools)
  }

  /** Kept and dropped pools are the two sides of the phantom test, each sorted, with the remap between them. */
  ghost predicate IsPlan(env: Env, keys: Keys, pools: seq<Pool>, plan: Plan) {
    && multiset(plan.pools) == multiset(Pick(keys, pools, pools, false)) && Sorted(plan.pools, PoolLeq)
    && multiset(plan.dropped) == multiset(Managers(Pick(keys, pools, pools, true))) && Sorted(plan.dropped, StringLeq)
    && IsRemap(keys, pools, pools, plan.remap)
    && (forall i :: 0 <= i < |plan.pools| ==> Emittable(env, keys, plan.pools[i]))
  }

  /** What a failed plan complains about is so. */
  ghost predicate Justified(env: Env, keys: Keys, pools: seq<Pool>, e: PlanError) {
    match e
    case UnknownManager(rm) => rm in Managers(pools) && rm !in keys.byRM
    case NoAuthorities(rm) => exists i :: 0 <= i < |pools| && pools[i].rm == rm && !Phantom(keys, pools, pools[i]) && pools[i].authorities == []
    case NoAuthorityKey(rm) =>
      exists i :: 0 <= i < |pools| && pools[i].rm == rm && !Phantom(keys, pools, pools[i]) && !AuthorityKey(env, keys, pools[i].authorities).Found?
  }

  /** The original-generation manager per mint, or the first pool nothing derives. */
  method IndexOriginals(keys: Keys, pools: seq<Pool>) returns (originals: map<string, string>, unknown: Option<string>)
    ensures unknown.None? <==> AllKnown(keys, pools)
    ensures unknown.Some? ==> unknown.value in Managers(pools) && unknown.value !in keys.byRM
    ensures unknown.None? ==> AreOriginals(keys, pools, originals)
  {
    originals, unknown := map[], None;
    for i := 0 to |pools|
      invariant unknown.None? && forall k :: 0 <= k < i ==> pools[k].rm in keys.byRM
      invariant forall mint :: mint in originals <==> exists k :: 0 <= k < i && IsOriginal(keys, pools[k].rm, mint)
      invariant forall mint :: mint in originals ==> IsOriginal(keys, originals[mint], mint) && originals[mint] in Managers(pools)
    {
      var rm := pools[i].rm;
      assert Managers(pools)[i] == rm;
      if rm !in keys.byRM {
        return originals, Some(rm);
      }
      if keys.byRM[rm].generation == Original {
        originals := originals[keys.byRM[rm].mint := rm];
      }
    }
  }

  /** The plan over the first i pools, before sorting. */
  ghost predicate PlanSoFar(env: Env, keys: Keys, pools: seq<Pool>, ps: seq<Pool>, plan: Plan) {
    && plan.pools == Pick(keys, pools, ps, false)
    && plan.dropped == Managers(Pick(keys, pools, ps, true))
    && IsRemap(keys, pools, ps, plan.remap)
    && (forall k :: 0 <= k < |ps| && !Phantom(keys, pools, ps[k]) ==> Emittable(env, keys, ps[k]))
    && (forall k :: 0 <= k < |plan.pools| ==> Emittable(env, keys, plan.pools[k]))
  }

  lemma PickAppend(keys: Keys, pools: seq<Pool>, ps: seq<Pool>, p: Pool, phantoms: bool)
    ensures Pick(keys, pools, ps + [p], phantoms) ==
            Pick(keys, pools, ps, phantoms) + (if Phantom(keys, pools, p) == phantoms then [p] else [])
  {
    assert (ps + [p])[..|ps|] == ps;
  }

  lemma KeepOne(env: Env, keys: Keys, pools: seq<Pool>, ps: seq<Pool>, plan: Plan, p: Pool)
    requires PlanSoFar(env, keys, pools, ps, plan) && !Phantom(keys, pools, p) && Emittable(env, keys, p)
    ensures PlanSoFar(env, keys, pools, ps + [p], plan.(pools := plan.pools + [p]))
  {
    PickAppend(keys, pools, ps, p, true);
    PickAppend(keys, pools, ps, p, false);
    assert Pick(keys, pools, ps, true) + [] == Pick(keys, pools, ps, true);
  }

  lemma RemapOne(keys: Keys, pools: seq<Pool>, ps: seq<Pool>, remap: map<string, string>, p: Pool, actual: string)
    requires IsRemap(keys, pools, ps, remap) && Phantom(keys, pools, p) && GoodTarget(keys, pools, p.rm, actual)
    ensures IsRemap(keys, pools, ps + [p], remap[p.rm := actual])
    ensures Managers(Pick(keys, pools, ps + [p], true)) == Managers(Pick(keys, pools, ps, true)) + [p.rm]
  {
    PickAppend(keys, pools, ps, p, true);
    var phantoms := Pick(keys, pools, ps, true);
    assert Managers(phantoms + [p]) == Managers(phantoms) + [p.rm];
  }

  lemma DropOnePool(env: Env, keys: Keys, pools: seq<Pool>, ps: seq<Pool>, plan: Plan, p: Pool, actual: string)
    requires PlanSoFar(env, keys, pools, ps, plan) && Phantom(keys, pools, p) && GoodTarget(keys, pools, p.rm, actual)
    ensures PlanSoFar(env, keys, pools, ps + [p], plan.(dropped := plan.dropped + [p.rm], remap := plan.remap[p.rm := actual]))
  {
    RemapOne(keys, pools, ps, plan.remap, p, actual);
    PickAppend(keys, pools, ps, p, false);
    assert Pick(keys, pools, ps, false) + [] == Pick(keys, pools, ps, false);
  }

  /** Stopping at a pool that cannot be emitted means the pools cannot be planned. */
  lemma NotPlannable(env: Env, keys: Keys, pools: seq<Pool>, i: nat)
    requires i < |pools| && !Phantom(keys, pools, pools[i]) && !Emittable(env, keys, pools[i])
    ensures !Plannable(env, keys, pools)
    ensures pools[i].authorities == [] ==> Justified(env, keys, pools, NoAuthorities(pools[i].rm))
    ensures pools[i].authorities != [] ==> Justified(env, keys, pools, NoAuthorityKey(pools[i].rm))
  {
  }

  /** originals maps exactly the mints with an original-generation pool to the manager of one. */
  ghost predicate AreOriginals(keys: Keys, pools: seq<Pool>, originals: map<string, string>) {
    && (forall mint :: mint in originals <==> HasOriginal(keys, pools, mint))
    && (forall mint :: mint in originals ==> IsOriginal(keys, originals[mint], mint) && originals[mint] in Managers(pools))
  }

  ghost predicate AllKnown(keys: Keys, pools: seq<Pool>) { forall i :: 0 <= i < |pools| ==> pools[i].rm in keys.byRM }

  lemma PhantomTarget(keys: Keys, pools: seq<Pool>, originals: map<string, string>, p: Pool)
    requires AreOriginals(keys, pools, originals) && p.rm in keys.byRM
    ensures Phantom(keys, pools, p) <==> keys.byRM[p.rm].generation == Rotated && keys.byRM[p.rm].mint in originals
    ensures Phantom(keys, pools, p) ==> GoodTarget(keys, pools, p.rm, originals[keys.byRM[p.rm].mint])
  {
  }

  /** Sorts the pools into kept and dropped ones, up to the first that cannot be emitted. */
  method SplitPools(env: Env, keys: Keys, pools: seq<Pool>, originals: map<string, string>) returns (plan: Plan, error: Option<PlanError>)
    requires AreOriginals(keys, pools, originals) && AllKnown(keys, pools)
    ensures error.None? ==> PlanSoFar(env, keys, pools, pools, plan)
    ensures error.Some? ==> Justified(env, keys, pools, error.value) && !Plannable(env, keys, pools)
  {
    plan, error := Plan([], map[], []), None;
    for i := 0 to |pools|
      invariant error.None? && PlanSoFar(env, keys, pools, pools[..i], plan)
    {
      assert pools[..i + 1] == pools[..i] + [pools[i]];
      var p := pools[i];
      var id := keys.byRM[p.rm];
      PhantomTarget(keys, pools, originals, p);
      if id.generation == Rotated && id.mint in originals {
        DropOnePool(env, keys, pools, pools[..i], plan, p, originals[id.mint]);
        plan := plan.(dropped := plan.dropped + [p.rm], remap := plan.remap[p.rm := originals[id.mint]]);
        continue;
      }
      if |p.authorities| == 0 {
        NotPlannable(env, keys, pools, i);
        return plan, Some(NoAuthorities(p.rm));
      }
      var key := AuthorityKeyFor(env, keys, p.authorities);
      if !key.Found? {
        NotPlannable(env, keys, pools, i);
        return plan, Some(NoAuthorityKey(p.rm));
      }
      KeepOne(env, keys, pools, pools[..i], plan, p);
      plan := plan.(pools := plan.pools + [p]);
    }
    assert pools[..|pools|] == pools;
  }

  method PlanRewardPools(env: Env, keys: Keys, pools: seq<Pool>) returns (r: Planning)
    ensures r.Planned? <==> Plannable(env, keys, pools)
    ensures r.Planned? ==> IsPlan(env, keys, pools, r.plan)
    ensures r.PlanFails? ==> Justified(env, keys, pools, r.error)
  {
    var originals, unknown := IndexOriginals(keys, pools);
    if unknown.Some? {
      return PlanFails(UnknownManager(unknown.value));
    }
    var plan, error := SplitPools(env, keys, pools, originals);
    if error.Some? {
      return PlanFails(error.value);
    }
    SortedPlan(env, keys, plan.pools, plan.dropped);
    r := Planned(Plan(Sort(plan.pools, PoolLeq), plan.remap, Sort(plan.dropped, StringLeq)));
  }

  lemma SortedPlan(env: Env, keys: Keys, kept: seq<Pool>, dropped: seq<string>)
    requires forall k :: 0 <= k < |kept| ==> Emittable(env, keys, kept[k])
    ensures multiset(Sort(kept, PoolLeq)) == multiset(kept) && Sorted(Sort(kept, PoolLeq), PoolLeq)
    ensures multiset(Sort(dropped, StringLeq)) == multiset(dropped) && Sorted(Sort(dropped, StringLeq), StringLeq)
    ensures forall i :: 0 <= i < |Sort(kept, PoolLeq)| ==> Emittable(env, keys, Sort(kept, PoolLeq)[i])
  {
    PoolLeqIsTotal();
    StringLeqIsTotal();
    SortSorts(kept, PoolLeq);
    SortSorts(dropped, StringLeq);
    var sorted := Sort(kept, PoolLeq);
    SameElements(sorted, kept);
    forall i | 0 <= i < |sorted| ensures Emittable(env, keys, sorted[i]) {
      assert sorted[i] in kept;
    }
  }

  // ---------------------------------------------------------------- what a plan means

  lemma {:induction false} PickMembers(keys: Keys, pools: seq<Pool>, ps: seq<Pool>, phantoms: bool)
    ensures forall p :: p in Pick(keys, pools, ps, phantoms) <==> p in ps && Phantom(keys, pools, p) == phantoms
    decreases |ps|
  {
    if ps != [] {
      PickMembers(keys, pools, ps[..|ps| - 1], phantoms);
      assert ps == ps[..|ps| - 1] + [ps[|ps| - 1]];
    }
  }

  lemma {:induction false} PickSplits(keys: Keys, pools: seq<Pool>, ps: seq<Pool>)
    ensures multiset(Pick(keys, pools, ps, false)) + multiset(Pick(keys, pools, ps, true)) == multiset(ps)
    decreases |ps|
  {
    if ps != [] {
      PickSplits(keys, pools, ps[..|ps| - 1]);
      assert ps == ps[..|ps| - 1] + [ps[|ps| - 1]];
    }
  }

  lemma ManagerOf(pools: seq<Pool>, rm: string)
    ensures rm in Managers(pools) <==> exists p :: p in pools && p.rm == rm
  {
    if rm in Managers(pools) {
      var i :| 0 <= i < |pools| && Managers(pools)[i] == rm;
      assert pools[i] in pools;
    }
    forall p | p in pools && p.rm == rm ensures rm in Managers(pools) {
      var i :| 0 <= i < |pools| && pools[i] == p;
      assert Managers(pools)[i] == rm;
    }
  }

  /** Planned and dropped pools partition the input, and the remap's domain is exactly the dropped set. */
  lemma PlanPartitions(env: Env, keys: Keys, pools: seq<Pool>, plan: Plan)
    requires IsPlan(env, keys, pools, plan)
    ensures multiset(plan.pools) + multiset(Pick(keys, pools, pools, true)) == multiset(pools)
    ensures |plan.pools| + |plan.dropped| == |pools|
    ensures forall rm :: rm in plan.remap <==> rm in plan.dropped
  {
    PickSplits(keys, pools, pools);
    SameElements(plan.dropped, Managers(Pick(keys, pools, pools, true)));
    assert |multiset(plan.pools) + multiset(Pick(keys, pools, pools, true))| == |multiset(pools)|;
  }

  /** A remap target is an original-generation pool of the same mint, planned and itself never remapped. */
  lemma TargetsArePlanned(env: Env, keys: Keys, pools: seq<Pool>, plan: Plan, rm: string)
    requires IsPlan(env, keys, pools, plan) && rm in plan.remap
    ensures rm in keys.byRM && IsOriginal(keys, plan.remap[rm], keys.byRM[rm].mint)
    ensures plan.remap[rm] in Managers(plan.pools) && plan.remap[rm] !in plan.remap
  {
    var actual := plan.remap[rm];
    assert GoodTarget(keys, pools, rm, actual);
    ManagerOf(pools, actual);
    var q :| q in pools && q.rm == actual;
    PickMembers(keys, pools, pools, false);
    assert !Phantom(keys, pools, q);
    SameElements(plan.pools, Pick(keys, pools, pools, false));
    assert q in plan.pools;
    ManagerOf(plan.pools, actual);
    assert actual in plan.remap ==> GoodTarget(keys, pools, actual, plan.remap[actual]);
  }

  function Target(plan: Plan, rm: string): string { if rm in plan.remap then plan.remap[rm] else rm }

  /** A reward resolves to a planned pool exactly when it names an input pool. */
  lemma RewardsResolve(env: Env, keys: Keys, pools: seq<Pool>, plan: Plan, rm: string)
    requires IsPlan(env, keys, pools, plan)
    ensures Target(plan, rm) in Managers(plan.pools) <==> rm in Managers(pools)
  {
    var phantoms, kept := Pick(keys, pools, pools, true), Pick(keys, pools, pools, false);
    PickMembers(keys, pools, pools, true);
    PickMembers(keys, pools, pools, false);
    SameElements(plan.pools, kept);
    ManagerOf(pools, rm);
    ManagerOf(plan.pools, rm);
    ManagerOf(phantoms, rm);
    if rm in plan.remap {
      TargetsArePlanned(env, keys, pools, plan, rm);
    } else if rm in Managers(pools) {
      var p :| p in pools && p.rm == rm;
      assert p in kept || p in phantoms;
    }
  }

  // ---------------------------------------------------------------- emission

  method PoolFor(plan: Plan, rm: string) returns (pool: Option<Pool>)
    ensures pool.Some? <==> rm in Managers(plan.pools)
    ensures pool.Some? ==> pool.value in plan.pools && pool.value.rm == rm
  {
    for i := 0 to |plan.pools|
      invariant forall k :: 0 <= k < i ==> plan.pools[k].rm != rm
    {
      if plan.pools[i].rm == rm {
        assert Managers(plan.pools)[i] == rm;
        return Some(plan.pools[i]);
      }
    }
    pool := None;
  }

  datatype Reward = Reward(id: string, rm: string)

  datatype Emission = CreatePool(rm: string, authorities: seq<string>) | CreateReward(id: string, rm: string)

  function PoolTxs(pools: seq<Pool>): seq<Emission> {
    seq(|pools|, i requires 0 <= i < |pools| => CreatePool(pools[i].rm, pools[i].authorities))
  }

  function RewardTxs(plan: Plan, rewards: seq<Reward>): seq<Emission> {
    seq(|rewards|, i requires 0 <= i < |rewards| => CreateReward(rewards[i].id, Target(plan, rewards[i].rm)))
  }

  ghost predicate NamesPools(pools: seq<Pool>, rewards: seq<Reward>) {
    forall i :: 0 <= i < |rewards| ==> rewards[i].rm in Managers(pools)
  }

  /** Some pool a reward names is created before it. */
  ghost predicate PoolsFirst(out: seq<Emission>) {
    forall j :: 0 <= j < |out| && out[j].CreateReward? ==> CreatedBefore(out, j)
  }

  ghost predicate CreatedBefore(out: seq<Emission>, j: int)
    requires 0 <= j < |out| && out[j].CreateReward?
  {
    exists i :: 0 <= i < j && out[i].CreatePool? && out[i].rm == out[j].rm
  }

  /** The first n elements, or all there are. */
  function Cut<T>(s: seq<T>, n: nat): seq<T> { if |s| <= n then s else s[..n] }

  /** The rewards up to the first that no planned pool covers. */
  function CoveredPrefix(plan: Plan, rewards: seq<Reward>): seq<Reward> {
    if rewards == [] then []
    else
      var init := rewards[..|rewards| - 1];
      if CoveredPrefix(plan, init) == init && Target(plan, rewards[|rewards| - 1].rm) in Managers(plan.pools)
      then rewards else CoveredPrefix(plan, init)
  }

  /** What a step that can plan wants to emit. */
  function StepTxs(plan: Plan, rewards: seq<Reward>): seq<Emission> {
    PoolTxs(plan.pools) + RewardTxs(plan, CoveredPrefix(plan, rewards))
  }

  /** Stops when the writer takes no more. */
  method EmitPools(pools: seq<Pool>, room: nat) returns (out: seq<Emission>, ok: bool)
    ensures out == Cut(PoolTxs(pools), room)
    ensures ok <==> |pools| <= room
  {
    out := [];
    for i := 0 to |pools|
      invariant out == PoolTxs(pools)[..i] && i <= room
    {
      if |out| == room {
        return out, false;
      }
      out := out + [CreatePool(pools[i].rm, pools[i].authorities)];
    }
    ok := true;
  }

  /** Stops at the first reward that no planned pool covers, or when the writer takes no more. */
  method EmitRewards(plan: Plan, rewards: seq<Reward>, room: nat) returns (out: seq<Emission>, ok: bool)
    ensures out == Cut(RewardTxs(plan, CoveredPrefix(plan, rewards)), room)
    ensures ok <==> Covered(plan, rewards) && |rewards| <= room
  {
    out := [];
    for i := 0 to |rewards|
      invariant out == RewardTxs(plan, rewards[..i]) && i <= room
      invariant CoveredPrefix(plan, rewards[..i]) == rewards[..i] && Covered(plan, rewards[..i])
    {
      var rm := rewards[i].rm;
      if rm in plan.remap {
        rm := plan.remap[rm];
      }
      var pool := PoolFor(plan, rm);
      assert rewards[..i + 1][..i] == rewards[..i];
      if pool.None? {
        StopsHere(plan, rewards, i);
        return out, false;
      }
      if |out| == room {
        FurtherOn(plan, rewards, i + 1);
        return out, false;
      }
      out := out + [CreateReward(rewards[i].id, rm)];
    }
    assert rewards[..|rewards|] == rewards;
    ok := true;
  }

  /** An uncovered reward ends the covered prefix. */
  lemma {:induction false} StopsHere(plan: Plan, rewards: seq<Reward>, i: nat)
    requires i < |rewards| && CoveredPrefix(plan, rewards[..i]) == rewards[..i]
    requires Target(plan, rewards[i].rm) !in Managers(plan.pools)
    ensures CoveredPrefix(plan, rewards) == rewards[..i] && !Covered(plan, rewards)
    decreases |rewards|
  {
    var n := |rewards| - 1;
    if i < n {
      assert rewards[..n][..i] == rewards[..i];
      StopsHere(plan, rewards[..n], i);
    }
  }

  lemma {:induction false} FurtherOn(plan: Plan, rewards: seq<Reward>, i: nat)
    requires i <= |rewards| && CoveredPrefix(plan, rewards[..i]) == rewards[..i]
    ensures rewards[..i] <= CoveredPrefix(plan, rewards) <= rewards
    decreases |rewards|
  {
    var n := |rewards| - 1;
    if i == |rewards| {
      assert rewards[..i] == rewards;
    } else {
      assert rewards[..n][..i] == rewards[..i];
      FurtherOn(plan, rewards[..n], i);
    }
  }

  ghost predicate Covered(plan: Plan, rewards: seq<Reward>) {
    forall k :: 0 <= k < |rewards| ==> Target(plan, rewards[k].rm) in Managers(plan.pools)
  }

  lemma CoveredIffNamed(env: Env, keys: Keys, pools: seq<Pool>, plan: Plan, rewards: seq<Reward>)
    requires IsPlan(env, keys, pools, plan)
    ensures Covered(plan, rewards) <==> NamesPools(pools, rewards)
  {
    forall k | 0 <= k < |rewards|
      ensures Target(plan, rewards[k].rm) in Managers(plan.pools) <==> rewards[k].rm in Managers(pools)
    {
      RewardsResolve(env, keys, pools, plan, rewards[k].rm);
    }
  }

  lemma {:induction false} CoveredPrefixIs(plan: Plan, rewards: seq<Reward>)
    ensures CoveredPrefix(plan, rewards) <= rewards && Covered(plan, CoveredPrefix(plan, rewards))
    ensures CoveredPrefix(plan, rewards) == rewards <==> Covered(plan, rewards)
    decreases |rewards|
  {
    if rewards != [] {
      var n := |rewards| - 1;
      CoveredPrefixIs(plan, rewards[..n]);
      assert Covered(plan, rewards) ==> Covered(plan, rewards[..n]);
    }
  }

  lemma CutAppend<T>(a: seq<T>, b: seq<T>, room: nat)
    requires |a| <= room
    ensures Cut(a + b, room) == a + Cut(b, room - |a|)
  {
  }

  /**
   The step succeeds exactly when the pools can be planned, every reward names one of them and the writer
   takes every transaction. It emits the planned pools and then each reward once, up to where it stops,
   and every reward it emits comes after its pool.
   */
  method WriteRewards(env: Env, keys: Keys, pools: seq<Pool>, rewards: seq<Reward>, room: nat)
      returns (out: seq<Emission>, ok: bool, plan: Plan)
    ensures ok <==> Plannable(env, keys, pools) && NamesPools(pools, rewards) && |plan.pools| + |rewards| <= room
    ensures Plannable(env, keys, pools) ==> IsPlan(env, keys, pools, plan) && out == Cut(StepTxs(plan, rewards), room)
    ensures !Plannable(env, keys, pools) ==> out == []
    ensures ok ==> out == PoolTxs(plan.pools) + RewardTxs(plan, rewards)
    ensures PoolsFirst(out)
  {
    out, ok, plan := [], false, Plan([], map[], []);
    var planning := PlanRewardPools(env, keys, pools);
    if planning.Planned? {
      plan := planning.plan;
      CoveredIffNamed(env, keys, pools, plan, rewards);
      CoveredPrefixIs(plan, rewards);
      EmittedPoolsFirst(plan, CoveredPrefix(plan, rewards), room);
      out, ok := EmitPools(plan.pools, room);
      if ok {
        CutAppend(PoolTxs(plan.pools), RewardTxs(plan, CoveredPrefix(plan, rewards)), room);
        var rest;
        rest, ok := EmitRewards(plan, rewards, room - |out|);
        out := out + rest;
      }
    }
  }

  lemma EmittedPoolsFirst(plan: Plan, rewards: seq<Reward>, room: nat)
    requires Covered(plan, rewards)
    ensures PoolsFirst(Cut(PoolTxs(plan.pools) + RewardTxs(plan, rewards), room))
  {
    var all, n := PoolTxs(plan.pools) + RewardTxs(plan, rewards), |plan.pools|;
    var out := Cut(all, room);
    forall j | 0 <= j < |out| && out[j].CreateReward? ensures CreatedBefore(out, j) {
      var k := j - n;
      assert out[j] == RewardTxs(plan, rewards)[k];
      var i :| 0 <= i < n && Managers(plan.pools)[i] == Target(plan, rewards[k].rm);
      assert out[i] == PoolTxs(plan.pools)[i];
    }
  }
}
