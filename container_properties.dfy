/** Properties of the container's resolution (src/Container.php with the
    builder of src/Utils/Reflector.php), stated over the functions of
    `Resolution` that the `Container` class is proved to follow. */
module ContainerProperties {
  import opened Values
  import opened Reflection
  import opened Bindings
  import opened AbstractServiceProvider
  import opened Aggregate
  import opened Reflector
  import opened Resolution

  // ---- What a resolution may do to the state ----

  /** From `s` to `t` a resolution only adds: tags, decorator queues and the
      provider list stay put; the registered names and the bound aliases
      grow; the aggregate keeps its invariant (each provider name's
      `register()` runs at most once); a cached entry is never dropped or
      replaced; a new cache entry belongs to a bound alias, and, with no
      providers, to one bound shared from the start, the bindings being
      left alone. */
  ghost predicate Evolves(s: State, t: State) {
    && t.tags == s.tags
    && t.decorators == s.decorators
    && t.agg.providers == s.agg.providers
    && s.agg.registered <= t.agg.registered
    && (Consistent(s.agg) ==> Consistent(t.agg))
    && s.bindings.Keys <= t.bindings.Keys
    && (forall a :: a in s.singletons ==> a in t.singletons && t.singletons[a] == s.singletons[a])
    && (forall a :: a in t.singletons && a !in s.singletons ==> a in t.bindings)
    && (s.agg.providers == [] ==>
          && t.bindings == s.bindings
          && forall a :: a in t.singletons && a !in s.singletons ==> IsShared(s.bindings, a))
  }

  lemma EvolvesTrans(s: State, m: State, t: State)
    requires Evolves(s, m) && Evolves(m, t)
    ensures Evolves(s, t)
  {
  }

  /** The provider step only registers providers and adds their bindings. */
  lemma LookaheadEvolves(s: State, alias: string)
    ensures Evolves(s, Lookahead(s, alias))
  {
    if ProvidedBy(s.agg.providers, alias) {
      if Consistent(s.agg) {
        RegisterKeepsConsistent(s.agg, alias);
      }
      SweepMarks(s.agg, s.agg.providers, alias);
      BindAllKeys(s.bindings, Flatten(Sweep(s.agg, s.agg.providers, alias).invoked));
    }
  }

  /** The cache write of `resolve` for an alias that was not cached when the
      resolution began. */
  lemma CacheEvolves(s: State, m: State, alias: string, v: Value)
    requires Evolves(s, m) && alias !in s.singletons
    ensures Evolves(s, CacheIfShared(m, alias, v))
  {
  }

  lemma {:induction false} ResolveEvolves(w: World, s: State, alias: string, fuel: nat)
    ensures Evolves(s, Resolve(w, s, alias, fuel).state)
    decreases fuel, 0, 0
  {
    if alias !in s.singletons && fuel > 0 {
      var s1 := Lookahead(s, alias);
      LookaheadEvolves(s, alias);
      var c := ConcreteOf(s1.bindings, alias);
      var o := if IsBuildable(c, alias) then Build(w, s1, c, fuel - 1) else Resolve(w, s1, c.name, fuel - 1);
      if IsBuildable(c, alias) {
        BuildEvolves(w, s1, c, fuel - 1);
      } else {
        ResolveEvolves(w, s1, c.name, fuel - 1);
      }
      FinishEvolves(w, s, s1, alias, o);
      assert Resolve(w, s, alias, fuel).state == FinalState(w, alias, o);
    }
  }

  /** The state `resolve` ends in, given the outcome of building or
      recursing. */
  function FinalState(w: World, alias: string, o: Outcome<Value>): State {
    if o.result.Err? then o.state
    else CacheIfShared(o.state, alias, Decorate(w, Queue(o.state.decorators, alias), o.result.value))
  }

  /** Decorating and caching a fresh alias keeps the evolution going. */
  lemma FinishEvolves(w: World, s: State, s1: State, alias: string, o: Outcome<Value>)
    requires alias !in s.singletons && Evolves(s, s1) && Evolves(s1, o.state)
    ensures Evolves(s, FinalState(w, alias, o))
  {
    EvolvesTrans(s, s1, o.state);
    if o.result.Ok? {
      CacheEvolves(s, o.state, alias, Decorate(w, Queue(o.state.decorators, alias), o.result.value));
    }
  }

  lemma {:induction false} GetEvolves(w: World, s: State, id: string, fuel: nat)
    ensures Evolves(s, Get(w, s, id, fuel).state)
    decreases fuel, 1, 0
  {
    ResolveEvolves(w, s, id, fuel);
  }

  lemma {:induction false} ParamValueEvolves(w: World, s: State, p: Parameter, fuel: nat)
    ensures Evolves(s, ParamValue(w, s, p, fuel).state)
    decreases fuel, 2, 0
  {
    if ParameterClassName(p).Some? && !p.variadic {
      GetEvolves(w, s, ParameterClassName(p).value, fuel);
    }
  }

  lemma {:induction false} CtorDepsEvolves(w: World, s: State, ps: seq<Parameter>, fuel: nat)
    ensures Evolves(s, CtorDeps(w, s, ps, fuel).state)
    decreases fuel, 3, |ps|
  {
    if ps != [] {
      var n := |ps| - 1;
      CtorDepsEvolves(w, s, ps[..n], fuel);
      var o := CtorDeps(w, s, ps[..n], fuel);
      if o.result.Ok? {
        ParamValueEvolves(w, o.state, ps[n], fuel);
        EvolvesTrans(s, o.state, ParamValue(w, o.state, ps[n], fuel).state);
      }
    }
  }

  lemma {:induction false} ReflectBuildEvolves(w: World, s: State, cls: string, fuel: nat)
    ensures Evolves(s, ReflectBuild(w, s, cls, fuel).state)
    decreases fuel, 4, 0
  {
    if cls in w.classes && w.classes[cls].instantiable && w.classes[cls].ctor.Some? {
      CtorDepsEvolves(w, s, w.classes[cls].ctor.value, fuel);
    }
  }

  lemma {:induction false} BuildEvolves(w: World, s: State, c: Concrete, fuel: nat)
    ensures Evolves(s, Build(w, s, c, fuel).state)
    decreases fuel, 5, 0
  {
    if c.Alias? {
      ReflectBuildEvolves(w, s, c.name, fuel);
    }
  }

  lemma FetchEvolves(w: World, s: State, d: Dialect, id: string, fuel: nat)
    ensures Evolves(s, Fetch(w, s, d, id, fuel).state)
  {
    if d.Builder? {
      GetEvolves(w, s, id, fuel);
    } else {
      ResolveEvolves(w, s, id, fuel);
    }
  }

  lemma {:induction false} MethodDepsEvolves(w: World, s: State, d: Dialect, ps: seq<Parameter>, args: Args, fuel: nat)
    ensures Evolves(s, MethodDeps(w, s, d, ps, args, fuel).state)
    decreases |ps|
  {
    if ps != [] {
      var n := |ps| - 1;
      MethodDepsEvolves(w, s, d, ps[..n], args, fuel);
      var o := MethodDeps(w, s, d, ps[..n], args, fuel);
      if o.result.Ok? {
        var p := ps[n];
        match Choose(p, ClassFor(d, p), o.result.value.rest)
        case Splice(cls) =>
          FetchEvolves(w, o.state, d, cls, fuel);
          EvolvesTrans(s, o.state, Fetch(w, o.state, d, cls, fuel).state);
        case Inject(cls) =>
          FetchEvolves(w, o.state, d, cls, fuel);
          EvolvesTrans(s, o.state, Fetch(w, o.state, d, cls, fuel).state);
        case _ =>
      }
    }
  }

  /** Calling a callable, with either resolver, changes the state only as
      resolutions do. */
  lemma CallEvolves(w: World, s: State, d: Dialect, c: Callable, args: Args, fuel: nat)
    requires d.Builder? && c.Object? ==> c.obj.Closure?
    ensures Evolves(s, Call(w, s, d, c, args, fuel).state)
  {
    var t := Call(w, s, d, c, args, fuel).state;
    match Normalise(w, c)
    case MethodOf(target, member) =>
      var o := if target.ClassName? then Fetch(w, s, d, target.name, fuel) else Outcome(Ok(target.receiver), s);
      if target.ClassName? {
        FetchEvolves(w, s, d, target.name, fuel);
      }
      assert Evolves(s, o.state);
      if o.result.Err? {
        assert t == o.state;
      } else {
        var sig := MethodSignature(w, o.result.value, member);
        if sig.Some? {
          var a := MethodDeps(w, o.state, d, sig.value, args, fuel);
          MethodDepsEvolves(w, o.state, d, sig.value, args, fuel);
          EvolvesTrans(s, o.state, a.state);
          assert t == a.state;
        } else {
          assert t == o.state;
        }
      }
    case FunctionNamed(name) =>
      var sig := FunctionSignature(w, name);
      if sig.Some? {
        MethodDepsEvolves(w, s, d, sig.value, args, fuel);
        assert t == MethodDeps(w, s, d, sig.value, args, fuel).state;
      } else {
        assert t == s;
      }
  }

  lemma {:induction false} ResolveEachEvolves(w: World, s: State, aliases: seq<string>, fuel: nat)
    ensures Evolves(s, ResolveEach(w, s, aliases, fuel).state)
    decreases |aliases|
  {
    if aliases != [] {
      var n := |aliases| - 1;
      ResolveEachEvolves(w, s, aliases[..n], fuel);
      var o := ResolveEach(w, s, aliases[..n], fuel);
      if o.result.Ok? {
        ResolveEvolves(w, o.state, aliases[n], fuel);
        EvolvesTrans(s, o.state, Resolve(w, o.state, aliases[n], fuel).state);
      }
    }
  }

  // ---- The steps of `resolve` ----

  /** A cached alias is returned as cached: no provider, builder or
      decorator runs, and nothing changes. */
  lemma ResolveCached(w: World, s: State, alias: string, fuel: nat)
    requires alias in s.singletons
    ensures Resolve(w, s, alias, fuel) == Outcome(Ok(s.singletons[alias]), s)
  {
  }

  /** A successful resolution of an alias that is then bound shared leaves
      its value in the cache, so resolving it again, with any fuel, returns
      the same value and changes nothing. */
  lemma SharedStaysCached(w: World, s: State, alias: string, fuel: nat, more: nat)
    requires Resolve(w, s, alias, fuel).result.Ok?
    requires IsShared(Resolve(w, s, alias, fuel).state.bindings, alias)
    ensures var o := Resolve(w, s, alias, fuel);
      alias in o.state.singletons && o.state.singletons[alias] == o.result.value
      && Resolve(w, o.state, alias, more) == o
  {
  }

  /** With no providers and no decorators for it, an unbound alias is built
      as its own class, with no cache write. */
  lemma UnboundBuildsItself(w: World, s: State, alias: string, fuel: nat)
    requires alias !in s.singletons && alias !in s.bindings
    requires s.agg.providers == [] && Queue(s.decorators, alias) == []
    ensures Resolve(w, s, alias, fuel + 1) == ReflectBuild(w, s, alias, fuel)
  {
    ReflectBuildEvolves(w, s, alias, fuel);
  }

  /** An alias nobody binds, provides or declares as a class is not found,
      and asking for it changes nothing. */
  lemma UnknownIsNotFound(w: World, s: State, id: string, fuel: nat)
    requires id !in s.singletons && id !in s.bindings && !ProvidedBy(s.agg.providers, id) && id !in w.classes
    ensures Get(w, s, id, fuel + 1) == Outcome(Err(NotFound(id)), s)
  {
    assert Lookahead(s, id) == s;
    assert Build(w, s, Alias(id), fuel) == Outcome(Err(ContainerError(UnknownClass(id))), s);
    assert Resolve(w, s, id, fuel + 1) == Outcome(Err(ContainerError(UnknownClass(id))), s);
  }

  /** An alias bound to another name resolves as that name, then gets its
      own decorators and its own cache write. */
  lemma AliasChain(w: World, s: State, alias: string, target: string, fuel: nat)
    requires alias !in s.singletons && !ProvidedBy(s.agg.providers, alias)
    requires alias in s.bindings && s.bindings[alias].concrete == Alias(target) && target != alias
    ensures var o := Resolve(w, s, target, fuel);
      var r := Resolve(w, s, alias, fuel + 1);
      && (o.result.Err? ==> r == o)
      && (o.result.Ok? ==>
            && r.result == Ok(Decorate(w, Queue(s.decorators, alias), o.result.value))
            && r.state == CacheIfShared(o.state, alias, r.result.value))
  {
    ResolveEvolves(w, s, target, fuel);
  }

  /** A factory binding yields the factory's value through the alias's
      decorators, cached exactly when the binding is shared. */
  lemma FactoryBinding(w: World, s: State, alias: string, id: FactoryId, fuel: nat)
    requires alias !in s.singletons && !ProvidedBy(s.agg.providers, alias)
    requires alias in s.bindings && s.bindings[alias].concrete == Factory(id)
    ensures var v := Decorate(w, Queue(s.decorators, alias), w.make(id));
      && Resolve(w, s, alias, fuel + 1).result == Ok(v)
      && Resolve(w, s, alias, fuel + 1).state
         == if s.bindings[alias].singleton then s.(singletons := s.singletons[alias := v]) else s
  {
  }

  /** Registering providers lazily is registering them just before the
      resolution: for an uncached alias that some provider provides,
      `resolve` runs the providers' `register()`, sees the last binding they
      make for the alias (or the old one when they make none), and goes on
      exactly as a resolution from the registered state would.  Afterwards
      every provider of the alias is marked, so a later resolution registers
      nothing. */
  lemma ProviderBindingVisible(w: World, s: State, alias: string, fuel: nat)
    requires alias !in s.singletons && fuel > 0 && ProvidedBy(s.agg.providers, alias)
    ensures var s1 := Lookahead(s, alias);
      var calls := Flatten(RegisterAlias(s.agg, alias).value.invoked);
      match LastFor(calls, alias)
      case Some(i) => alias in s1.bindings && s1.bindings[alias] == Entry(calls[i])
      case None => (alias in s1.bindings <==> alias in s.bindings) && (alias in s.bindings ==> s1.bindings[alias] == s.bindings[alias])
    ensures Resolve(w, s, alias, fuel) == Resolve(w, Lookahead(s, alias), alias, fuel)
    ensures var o := Resolve(w, s, alias, fuel);
      && (forall i :: 0 <= i < |s.agg.providers| && s.agg.providers[i].Provides(alias) ==>
            s.agg.providers[i].Name() in o.state.agg.registered)
      && Lookahead(o.state, alias) == o.state
  {
    var s1 := Lookahead(s, alias);
    BindAllLastWins(s.bindings, Flatten(RegisterAlias(s.agg, alias).value.invoked), alias);
    SweepMarks(s.agg, s.agg.providers, alias);
    SweepCovers(s.agg, s.agg.providers, alias);
    SweepNone(s1.agg, s1.agg.providers, alias);
    assert Lookahead(s1, alias) == s1 by {
      assert Flatten([]) == [];
    }
    assert Resolve(w, s, alias, fuel) == Resolve(w, s1, alias, fuel);
    ResolveEvolves(w, s1, alias, fuel);
    var o := Resolve(w, s, alias, fuel);
    SweepNone(o.state.agg, o.state.agg.providers, alias);
    assert Flatten([]) == [] && BindAll(o.state.bindings, []) == o.state.bindings;
  }

  // ---- Decorators ----

  /** Decorating with a concatenated queue is decorating with each part in
      turn. */
  lemma {:induction false} DecorateAppend(w: World, ds1: seq<DecoratorId>, ds2: seq<DecoratorId>, v: Value)
    ensures Decorate(w, ds1 + ds2, v) == Decorate(w, ds2, Decorate(w, ds1, v))
    decreases |ds2|
  {
    if ds2 == [] {
      assert ds1 + ds2 == ds1;
    } else {
      var n := |ds2| - 1;
      DecorateAppend(w, ds1, ds2[..n], v);
      assert (ds1 + ds2)[..|ds1 + ds2| - 1] == ds1 + ds2[..n];
    }
  }

  /** `extend` before `bind` still applies: the queued decorator runs last,
      on the value the factory produced and the earlier decorators changed. */
  lemma ExtendBeforeBind(w: World, s: State, alias: string, d: DecoratorId, id: FactoryId, fuel: nat)
    requires alias !in s.singletons && !ProvidedBy(s.agg.providers, alias)
    ensures var t := BindIn(Extend(w, s, alias, d), BindCall(alias, Some(Factory(id)), false));
      Resolve(w, t, alias, fuel + 1).result == Ok(w.decorate(d, Decorate(w, Queue(s.decorators, alias), w.make(id))))
  {
    DecorateAppend(w, Queue(s.decorators, alias), [d], w.make(id));
    assert [d][..0] == [];
  }

  /** `extend` on a cached alias rewrites the cached value and queues
      nothing, so the next resolution returns the decorated value. */
  lemma ExtendCached(w: World, s: State, alias: string, d: DecoratorId, fuel: nat)
    requires alias in s.singletons
    ensures var t := Extend(w, s, alias, d);
      t.decorators == s.decorators && Resolve(w, t, alias, fuel) == Outcome(Ok(w.decorate(d, s.singletons[alias])), t)
  {
  }

  // ---- Construction ----

  /** A constructor argument list built without error has one value per
      non-variadic parameter: a class-typed variadic parameter always fails,
      and a primitive variadic one contributes nothing. */
  lemma {:induction false} CtorDepsShape(w: World, s: State, ps: seq<Parameter>, fuel: nat)
    ensures CtorDeps(w, s, ps, fuel).result.Ok? ==>
      && |CtorDeps(w, s, ps, fuel).result.value| == FixedCount(ps)
      && forall i :: 0 <= i < |ps| && ps[i].variadic ==> ParameterClassName(ps[i]).None?
    decreases |ps|
  {
    if ps != [] {
      var n := |ps| - 1;
      CtorDepsShape(w, s, ps[..n], fuel);
    }
  }

  /** A built object carries its class and one argument per non-variadic
      constructor parameter; building fails for an unknown or abstract
      class, and a class without a constructor gets no arguments. */
  lemma BuildShape(w: World, s: State, cls: string, fuel: nat)
    ensures var o := ReflectBuild(w, s, cls, fuel);
      && (cls !in w.classes ==> o == Outcome(Err(ContainerError(UnknownClass(cls))), s))
      && (cls in w.classes && !w.classes[cls].instantiable ==> o == Outcome(Err(ContainerError(NotInstantiable(cls))), s))
      && (cls in w.classes && w.classes[cls].instantiable && w.classes[cls].ctor.None? ==> o == Outcome(Ok(Instance(cls, [])), s))
      && (o.result.Ok? ==>
            && cls in w.classes && w.classes[cls].instantiable
            && o.result.value.Instance? && o.result.value.cls == cls
            && |o.result.value.args| == match w.classes[cls].ctor case None => 0 case Some(ps) => FixedCount(ps))
  {
    if cls in w.classes && w.classes[cls].instantiable && w.classes[cls].ctor.Some? {
      CtorDepsShape(w, s, w.classes[cls].ctor.value, fuel);
    }
  }
}
