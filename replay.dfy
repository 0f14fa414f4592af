/** Resolving again, with no service providers, from a state a first
    resolution led to: every value comes back as before and the state is not
    touched.  A shared alias comes back from the cache; an unshared one is
    rebuilt, and its shared dependencies come from the cache.  This is what
    makes a tag group from `tagged` (src/Container.php) restartable: iterating
    it a second time resolves its aliases again and yields the same values. */
module Replay {
  import opened Values
  import opened Reflection
  import opened Bindings
  import opened Aggregate
  import opened Reflector
  import opened Resolution
  import opened Fuel
  import ContainerProperties

  /** `t` is where a resolution from `s` may have been taken by the
      resolutions after it: no providers, the same bindings and decorator
      queues, and new cache entries only for aliases bound shared. */
  ghost predicate Later(s: State, t: State) {
    && s.agg.providers == [] && t.agg.providers == []
    && t.bindings == s.bindings && t.decorators == s.decorators
    && forall a :: a in t.singletons && a !in s.singletons ==> IsShared(s.bindings, a)
  }

  /** Every cache entry of `m` is in `t`, with the same value. */
  ghost predicate CacheWithin(m: State, t: State) {
    forall a :: a in m.singletons ==> a in t.singletons && t.singletons[a] == m.singletons[a]
  }

  lemma LaterStep(s: State, m: State, t: State)
    requires Later(s, t) && ContainerProperties.Evolves(s, m)
    ensures Later(m, t)
  {
  }

  lemma CacheWithinStep(m: State, n: State, t: State)
    requires ContainerProperties.Evolves(m, n) && CacheWithin(n, t)
    ensures CacheWithin(m, t)
  {
  }

  /** `resolve` again from `t`, with at least as much fuel, gives the same
      value and leaves `t` as it is. */
  lemma {:induction false} ResolveReplay(w: World, s: State, alias: string, f: nat, t: State, g: nat)
    requires f <= g && Later(s, t)
    requires Resolve(w, s, alias, f).result.Ok? && CacheWithin(Resolve(w, s, alias, f).state, t)
    ensures Resolve(w, t, alias, g) == Outcome(Ok(Resolve(w, s, alias, f).result.value), t)
    decreases f, 0, 0
  {
    if alias !in s.singletons {
      assert !ProvidedBy(s.agg.providers, alias) && !ProvidedBy(t.agg.providers, alias);
      var c := ConcreteOf(s.bindings, alias);
      var i := Inner(w, s, alias, c, f - 1);
      UnsharedStep(w, s, alias, f, t);
      if !IsShared(s.bindings, alias) {
        InnerReplay(w, s, alias, c, f - 1, t, g - 1);
        assert Resolve(w, t, alias, g) == Finish(w, alias, Inner(w, t, alias, c, g - 1));
      }
    }
  }

  /** The decorating and caching step of `resolve`, once the value is built. */
  function Finish(w: World, alias: string, o: Outcome<Value>): Outcome<Value> {
    if o.result.Err? then o
    else
      var v := Decorate(w, Queue(o.state.decorators, alias), o.result.value);
      Outcome(Ok(v), CacheIfShared(o.state, alias, v))
  }

  /** How the first resolution of an uncached alias went, with no providers:
      it built through `Inner` from `s` itself; a shared alias ends up cached
      in `t`, an unshared one is not cached in `t` at all. */
  lemma UnsharedStep(w: World, s: State, alias: string, f: nat, t: State)
    requires alias !in s.singletons && Later(s, t)
    requires Resolve(w, s, alias, f).result.Ok? && CacheWithin(Resolve(w, s, alias, f).state, t)
    ensures f > 0 && Lookahead(s, alias) == s && Lookahead(t, alias) == t
    ensures var i := Inner(w, s, alias, ConcreteOf(s.bindings, alias), f - 1);
      && Resolve(w, s, alias, f) == Finish(w, alias, i)
      && i.result.Ok? && i.state.bindings == s.bindings && i.state.decorators == s.decorators
      && (IsShared(s.bindings, alias) ==> alias in t.singletons && t.singletons[alias] == Resolve(w, s, alias, f).result.value)
      && (!IsShared(s.bindings, alias) ==> alias !in t.singletons && CacheWithin(i.state, t))
  {
    assert !ProvidedBy(s.agg.providers, alias) && !ProvidedBy(t.agg.providers, alias);
    var c := ConcreteOf(s.bindings, alias);
    if IsBuildable(c, alias) {
      ContainerProperties.BuildEvolves(w, s, c, f - 1);
    } else {
      ContainerProperties.ResolveEvolves(w, s, c.name, f - 1);
    }
  }

  lemma {:induction false} InnerReplay(w: World, s: State, alias: string, c: Concrete, f: nat, t: State, g: nat)
    requires f <= g && Later(s, t)
    requires Inner(w, s, alias, c, f).result.Ok? && CacheWithin(Inner(w, s, alias, c, f).state, t)
    ensures Inner(w, t, alias, c, g) == Outcome(Ok(Inner(w, s, alias, c, f).result.value), t)
    decreases f, 6, 0
  {
    if IsBuildable(c, alias) {
      BuildReplay(w, s, c, f, t, g);
    } else {
      ResolveReplay(w, s, c.name, f, t, g);
    }
  }

  lemma {:induction false} GetReplay(w: World, s: State, id: string, f: nat, t: State, g: nat)
    requires f <= g && Later(s, t)
    requires Get(w, s, id, f).result.Ok? && CacheWithin(Get(w, s, id, f).state, t)
    ensures Get(w, t, id, g) == Outcome(Ok(Get(w, s, id, f).result.value), t)
    decreases f, 1, 0
  {
    ResolveReplay(w, s, id, f, t, g);
  }

  lemma {:induction false} ParamValueReplay(w: World, s: State, p: Parameter, f: nat, t: State, g: nat)
    requires f <= g && Later(s, t)
    requires ParamValue(w, s, p, f).result.Ok? && CacheWithin(ParamValue(w, s, p, f).state, t)
    ensures ParamValue(w, t, p, g) == Outcome(Ok(ParamValue(w, s, p, f).result.value), t)
    decreases f, 2, 0
  {
    if ParameterClassName(p).Some? && !p.variadic {
      GetReplay(w, s, ParameterClassName(p).value, f, t, g);
    }
  }

  lemma {:induction false} CtorDepsReplay(w: World, s: State, ps: seq<Parameter>, f: nat, t: State, g: nat)
    requires f <= g && Later(s, t)
    requires CtorDeps(w, s, ps, f).result.Ok? && CacheWithin(CtorDeps(w, s, ps, f).state, t)
    ensures CtorDeps(w, t, ps, g) == Outcome(Ok(CtorDeps(w, s, ps, f).result.value), t)
    decreases f, 3, |ps|
  {
    if ps != [] {
      var n := |ps| - 1;
      var o := CtorDeps(w, s, ps[..n], f);
      var r := ParamValue(w, o.state, ps[n], f);
      ContainerProperties.CtorDepsEvolves(w, s, ps[..n], f);
      ContainerProperties.ParamValueEvolves(w, o.state, ps[n], f);
      CacheWithinStep(o.state, r.state, t);
      CtorDepsReplay(w, s, ps[..n], f, t, g);
      LaterStep(s, o.state, t);
      ParamValueReplay(w, o.state, ps[n], f, t, g);
    }
  }

  lemma {:induction false} ReflectBuildReplay(w: World, s: State, cls: string, f: nat, t: State, g: nat)
    requires f <= g && Later(s, t)
    requires ReflectBuild(w, s, cls, f).result.Ok? && CacheWithin(ReflectBuild(w, s, cls, f).state, t)
    ensures ReflectBuild(w, t, cls, g) == Outcome(Ok(ReflectBuild(w, s, cls, f).result.value), t)
    decreases f, 4, 0
  {
    if w.classes[cls].ctor.Some? {
      CtorDepsReplay(w, s, w.classes[cls].ctor.value, f, t, g);
    }
  }

  lemma {:induction false} BuildReplay(w: World, s: State, c: Concrete, f: nat, t: State, g: nat)
    requires f <= g && Later(s, t)
    requires Build(w, s, c, f).result.Ok? && CacheWithin(Build(w, s, c, f).state, t)
    ensures Build(w, t, c, g) == Outcome(Ok(Build(w, s, c, f).result.value), t)
    decreases f, 5, 0
  {
    if c.Alias? {
      ReflectBuildReplay(w, s, c.name, f, t, g);
    }
  }

  /** Resolving a list of aliases again yields the same values and leaves
      `t` as it is. */
  lemma {:induction false} ResolveEachReplay(w: World, s: State, aliases: seq<string>, f: nat, t: State, g: nat)
    requires f <= g && Later(s, t)
    requires ResolveEach(w, s, aliases, f).result.Ok? && CacheWithin(ResolveEach(w, s, aliases, f).state, t)
    ensures ResolveEach(w, t, aliases, g) == Outcome(Ok(ResolveEach(w, s, aliases, f).result.value), t)
    decreases |aliases|
  {
    if aliases != [] {
      var n := |aliases| - 1;
      var o := ResolveEach(w, s, aliases[..n], f);
      var r := Resolve(w, o.state, aliases[n], f);
      ContainerProperties.ResolveEachEvolves(w, s, aliases[..n], f);
      ContainerProperties.ResolveEvolves(w, o.state, aliases[n], f);
      CacheWithinStep(o.state, r.state, t);
      ResolveEachReplay(w, s, aliases[..n], f, t, g);
      LaterStep(s, o.state, t);
      ResolveReplay(w, o.state, aliases[n], f, t, g);
    }
  }
}
