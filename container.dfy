/** The container object (src/Container.php), with the reflective builder's
    loops (src/Utils/Reflector.php) as its methods: the builder calls back
    into the container's `get`, and `resolve` calls the builder, so the two
    form one recursive unit.

    Every method is proved against the functions of `Resolution`: its result
    and the state it leaves are exactly what those functions give for the
    state it started in. */
module Container {
  import opened Values
  import opened Reflection
  import opened Bindings
  import opened AbstractServiceProvider
  import Aggregate
  import opened Reflector
  import R = Resolution
  import UtilsTagGenerator

  class Container {
    /** The classes, signatures and closures this container can meet. */
    const world: World
    var bindings: Registry
    var singletons: map<string, Value>
    var tags: map<string, seq<string>>
    var decorators: map<string, seq<DecoratorId>>   // `$extends`
    const providers: Aggregate.AggregateServiceProvider<Container>

    ghost function Model(): R.State
      reads this, providers
    {
      R.State(bindings, singletons, tags, decorators, providers.Model())
    }

    /** The aggregate keeps its invariant and holds this container. */
    ghost predicate Valid()
      reads this, providers, providers.holder
    {
      providers.Valid() && providers.holder.container == Some(this)
    }

    /** `__construct()` with the default aggregate, which is handed the new
        container. */
    constructor (world: World)
      ensures Valid() && this.world == world
      ensures Model() == R.State(map[], map[], map[], map[], Aggregate.Snapshot([], {}, []))
    {
      this.world := world;
      bindings := map[];
      singletons := map[];
      tags := map[];
      decorators := map[];
      providers := new Aggregate.AggregateServiceProvider();
      new;
      var _ := providers.holder.SetContainer(this);
    }

    // ---- Registration ----

    method Bind(alias: string, concrete: Option<Concrete>, singleton: bool)
      requires Valid()
      modifies this
      ensures Valid() && Model() == R.BindIn(old(Model()), BindCall(alias, concrete, singleton))
    {
      bindings := bindings[alias := Entry(BindCall(alias, concrete, singleton))];
    }

    method BindSingleton(alias: string, concrete: Option<Concrete>)
      requires Valid()
      modifies this
      ensures Valid() && Model() == R.BindIn(old(Model()), BindCall(alias, concrete, true))
    {
      Bind(alias, concrete, true);
    }

    /** `bindInstance`: the parameter is typed `object`, so only an object
        or a closure can be cached this way. */
    method BindInstance(alias: string, instance: Value)
      requires Valid() && (instance.Instance? || instance.Closure?)
      modifies this
      ensures Valid() && Model() == R.BindInstance(old(Model()), alias, instance)
    {
      singletons := singletons[alias := instance];
    }

    method Extend(alias: string, d: DecoratorId)
      requires Valid()
      modifies this
      ensures Valid() && Model() == R.Extend(world, old(Model()), alias, d)
    {
      if alias in singletons {
        singletons := singletons[alias := world.decorate(d, singletons[alias])];
      } else {
        decorators := decorators[alias := R.Queue(decorators, alias) + [d]];
      }
    }

    /** `registerServiceProvider`: the aggregate always has this container, so
        adding never fails. */
    method RegisterServiceProvider(p: ServiceProvider) returns (status: Status)
      requires Valid()
      modifies providers
      ensures Valid() && status == Pass
      ensures Model() == old(Model()).(agg := Aggregate.AddProvider(old(Model()).agg, p, true).value)
    {
      status := providers.Add(p);
    }

    method Tag(aliases: seq<string>, names: seq<string>)
      requires Valid()
      modifies this
      ensures Valid() && Model() == old(Model()).(tags := R.TagAll(old(tags), aliases, names))
    {
      for i := 0 to |names|
        invariant Valid()
        invariant Model() == old(Model()).(tags := R.TagAll(old(tags), aliases, names[..i]))
      {
        assert names[..i + 1][..i] == names[..i];
        AppendToTag(names[i], aliases);
      }
      assert names[..|names|] == names;
    }

    /** The body of `tag` for one tag: create it when missing, then append
        the aliases in order. */
    method AppendToTag(t: string, aliases: seq<string>)
      requires Valid()
      modifies this
      ensures Valid() && Model() == old(Model()).(tags := old(tags)[t := R.TagOf(old(tags), t) + aliases])
    {
      if t !in tags {
        tags := tags[t := []];
      } else {
        assert tags == old(tags)[t := old(tags)[t]];
      }
      assert tags == old(tags)[t := R.TagOf(old(tags), t) + aliases[..0]] by {
        assert R.TagOf(old(tags), t) + aliases[..0] == R.TagOf(old(tags), t);
      }
      for j := 0 to |aliases|
        invariant Valid()
        invariant Model() == old(Model()).(tags := tags)
        invariant tags == old(tags)[t := R.TagOf(old(tags), t) + aliases[..j]]
      {
        assert R.TagOf(old(tags), t) + aliases[..j + 1] == R.TagOf(old(tags), t) + aliases[..j] + [aliases[j]] by {
          assert aliases[..j + 1] == aliases[..j] + [aliases[j]];
        }
        tags := tags[t := tags[t] + [aliases[j]]];
      }
      assert aliases[..|aliases|] == aliases;
    }

    // ---- Queries ----

    method Has(id: string) returns (b: bool)
      ensures b == R.Has(Model(), id)
    {
      if id in bindings {
        return true;
      }
      b := providers.Provides(id);
    }

    method IsSingleton(alias: string) returns (b: bool)
      ensures b == R.IsShared(bindings, alias)
    {
      return alias in bindings && bindings[alias].singleton;
    }

    method Tagged(tag: string) returns (r: Result<UtilsTagGenerator.TagGenerator<string, R.State>>)
      ensures r == R.Tagged(Model(), tag)
    {
      if tag !in tags {
        return Err(ContainerError(UnknownTag(tag)));
      }
      return Ok(UtilsTagGenerator.TagGenerator(tag, UtilsTagGenerator.Fixed(|tags[tag]|)));
    }

    // ---- Resolution ----

    /** `get`. */
    method Get(id: string, fuel: nat) returns (r: Result<Value>)
      requires Valid()
      modifies this, providers
      ensures Valid() && R.Outcome(r, Model()) == R.Get(world, old(Model()), id, fuel)
      decreases fuel, 1, 0
    {
      r := Resolve(id, fuel);
      if r.Err? && r.error.IsContainerException() {
        var known := Has(id);
        if !known {
          r := Err(NotFound(id));
        }
      }
    }

    /** The step of `resolve` that asks the aggregate to register the
        providers of the alias; their `register()` bodies then bind. */
    method Lookahead(alias: string)
      requires Valid()
      modifies this, providers
      ensures Valid() && Model() == R.Lookahead(old(Model()), alias)
    {
      var provided := providers.Provides(alias);
      if provided {
        ghost var s0 := Model();
        ghost var sw := Aggregate.Sweep(s0.agg, s0.agg.providers, alias);
        assert Aggregate.RegisterAlias(s0.agg, alias) == Ok(sw);
        var registration := providers.Register(alias);
        assert registration == Ok(sw.invoked) && providers.Model() == sw.after;
        RunRegisters(registration.value);
        assert R.Lookahead(s0, alias) == s0.(agg := sw.after, bindings := BindAll(s0.bindings, R.Flatten(sw.invoked)));
      }
    }

    /** The `register()` bodies of the invoked providers, in the order they
        were invoked. */
    method RunRegisters(invoked: seq<ServiceProvider>)
      requires Valid()
      modifies this
      ensures Valid() && Model() == old(Model()).(bindings := BindAll(old(bindings), R.Flatten(invoked)))
    {
      for i := 0 to |invoked|
        invariant Valid()
        invariant Model() == old(Model()).(bindings := bindings)
        invariant bindings == BindAll(old(bindings), R.Flatten(invoked[..i]))
      {
        assert invoked[..i + 1][..i] == invoked[..i];
        BindAllAppend(old(bindings), R.Flatten(invoked[..i]), invoked[i].registers);
        RunRegister(invoked[i]);
      }
      assert invoked[..|invoked|] == invoked;
    }

    /** A provider's `register()` body: its `bind` calls, in order. */
    method RunRegister(p: ServiceProvider)
      requires Valid()
      modifies this
      ensures Valid() && Model() == old(Model()).(bindings := BindAll(old(bindings), p.registers))
    {
      var calls := p.registers;
      for j := 0 to |calls|
        invariant Valid()
        invariant Model() == old(Model()).(bindings := bindings)
        invariant bindings == BindAll(old(bindings), calls[..j])
      {
        assert calls[..j + 1][..j] == calls[..j];
        Bind(calls[j].alias, calls[j].concrete, calls[j].singleton);
      }
      assert calls[..|calls|] == calls;
    }

    /** `resolve`. */
    method Resolve(alias: string, fuel: nat) returns (r: Result<Value>)
      requires Valid()
      modifies this, providers
      ensures Valid() && R.Outcome(r, Model()) == R.Resolve(world, old(Model()), alias, fuel)
      decreases fuel, 0, 0
    {
      if alias in singletons {
        return Ok(singletons[alias]);
      }
      if fuel == 0 {
        return Err(Diverged);
      }
      Lookahead(alias);
      var concrete := R.ConcreteOf(bindings, alias);
      if R.IsBuildable(concrete, alias) {
        r := Build(concrete, fuel - 1);
      } else {
        r := Resolve(concrete.name, fuel - 1);
      }
      if r.Err? {
        return;
      }
      var v := r.value;
      var queue := R.Queue(decorators, alias);
      for k := 0 to |queue|
        invariant v == R.Decorate(world, queue[..k], r.value)
      {
        assert queue[..k + 1][..k] == queue[..k];
        v := world.decorate(queue[k], v);
      }
      assert queue[..|queue|] == queue;
      var shared := IsSingleton(alias);
      if shared {
        singletons := singletons[alias := v];
      }
      return Ok(v);
    }

    /** `Container::build`: run a factory with the container, or build the
        class reflectively. */
    method Build(concrete: Concrete, fuel: nat) returns (r: Result<Value>)
      requires Valid()
      modifies this, providers
      ensures Valid() && R.Outcome(r, Model()) == R.Build(world, old(Model()), concrete, fuel)
      decreases fuel, 5, 0
    {
      match concrete
      case Factory(id) => return Ok(world.make(id));
      case Alias(cls) => r := ReflectBuild(cls, fuel);
    }

    /** `Reflector::build`. */
    method ReflectBuild(cls: string, fuel: nat) returns (r: Result<Value>)
      requires Valid()
      modifies this, providers
      ensures Valid() && R.Outcome(r, Model()) == R.ReflectBuild(world, old(Model()), cls, fuel)
      decreases fuel, 4, 0
    {
      if cls !in world.classes {
        return Err(ContainerError(UnknownClass(cls)));
      }
      var info := world.classes[cls];
      if !info.instantiable {
        return Err(ContainerError(NotInstantiable(cls)));
      }
      if info.ctor.None? {
        return Ok(Instance(cls, []));
      }
      var instances := ResolveConstructorDependencies(info.ctor.value, fuel);
      if instances.Err? {
        return Err(instances.error);
      }
      return Ok(Instance(cls, instances.value));
    }

    /** `Reflector::resolveConstructorDependencies`. */
    method ResolveConstructorDependencies(ps: seq<Parameter>, fuel: nat) returns (r: Result<seq<Value>>)
      requires Valid()
      modifies this, providers
      ensures Valid() && R.Outcome(r, Model()) == R.CtorDeps(world, old(Model()), ps, fuel)
      decreases fuel, 3, |ps|
    {
      var dependencies := [];
      for i := 0 to |ps|
        invariant Valid()
        invariant R.CtorDeps(world, old(Model()), ps[..i], fuel) == R.Outcome(Ok(dependencies), Model())
      {
        assert ps[..i + 1][..i] == ps[..i];
        var p := ps[i];
        var result;
        if ParameterClassName(p).None? {
          result := ResolvePrimitive(p);
        } else {
          result := ResolveClass(p, fuel);
        }
        if result.Err? {
          R.CtorDepsStopsAtError(world, old(Model()), ps, i + 1, fuel);
          return Err(result.error);
        }
        if p.variadic {
          dependencies := dependencies + Spliced(result.value);
        } else {
          dependencies := dependencies + [result.value];
        }
      }
      assert ps[..|ps|] == ps;
      return Ok(dependencies);
    }

    /** `Reflector::resolveClass`: refuse a variadic or class-less parameter,
        otherwise `get` the class. */
    method ResolveClass(p: Parameter, fuel: nat) returns (r: Result<Value>)
      requires Valid()
      modifies this, providers
      ensures Valid()
      ensures ParameterClassName(p).Some? ==> R.Outcome(r, Model()) == R.ParamValue(world, old(Model()), p, fuel)
      ensures ParameterClassName(p).None? ==>
        r == Err(ContainerError(UnresolvableDependency(p.name))) && Model() == old(Model())
      decreases fuel, 2, 0
    {
      var className := ParameterClassName(p);
      if className.None? || p.variadic {
        return Err(ContainerError(UnresolvableDependency(p.name)));
      }
      r := Get(className.value, fuel);
    }

    // ---- Calling ----

    /** `call`, through `Reflector::call`. */
    method Call(c: Callable, args: Args, fuel: nat) returns (r: Result<Value>)
      requires Valid() && (c.Object? ==> c.obj.Closure?)
      modifies this, providers
      ensures Valid() && R.Outcome(r, Model()) == R.Call(world, old(Model()), R.Builder, c, args, fuel)
    {
      var callable := c;
      if callable.Text? {
        if HasSeparator(callable.text) {
          ExplodeSplits(callable.text);
          var pieces := Explode(callable.text);
          callable := Pair(ClassName(pieces[0]), pieces[1]);
        } else if HasMethod(world, callable.text, "__invoke") {
          callable := Pair(ClassName(callable.text), "__invoke");
        }
      }
      if callable.Object? {
        callable := Pair(Receiver(callable.obj), "__invoke");
      }
      if callable.Pair? {
        var receiver;
        if callable.target.ClassName? {
          var got := Get(callable.target.name, fuel);
          if got.Err? {
            return got;
          }
          receiver := got.value;
        } else {
          receiver := callable.target.receiver;
        }
        var signature := MethodSignature(world, receiver, callable.member);
        if signature.None? {
          return Err(ContainerError(UnresolvableCallable));
        }
        var dependencies := ResolveMethodDependencies(signature.value, args, fuel);
        if dependencies.Err? {
          return Err(dependencies.error);
        }
        return Ok(world.run(MethodCall(receiver, callable.member, dependencies.value)));
      }
      var signature := FunctionSignature(world, callable.text);
      if signature.None? {
        return Err(ContainerError(UnresolvableCallable));
      }
      var dependencies := ResolveMethodDependencies(signature.value, args, fuel);
      if dependencies.Err? {
        return Err(dependencies.error);
      }
      return Ok(world.run(FunctionCall(callable.text, dependencies.value)));
    }

    /** `Reflector::resolveMethodDependencies`. */
    method ResolveMethodDependencies(ps: seq<Parameter>, args: Args, fuel: nat) returns (r: Result<seq<Value>>)
      requires Valid()
      modifies this, providers
      ensures Valid() && R.Outcome(r, Model()) == R.MethodArguments(world, old(Model()), R.Builder, ps, args, fuel)
    {
      var dependencies := [];
      var parameters := args;
      for i := 0 to |ps|
        invariant Valid()
        invariant R.MethodDeps(world, old(Model()), R.Builder, ps[..i], args, fuel)
          == R.Outcome(Ok(R.Gathered(dependencies, parameters)), Model())
      {
        assert ps[..i + 1][..i] == ps[..i];
        var p := ps[i];
        var className := ParameterClassName(p);
        if HasKey(parameters, Name(p.name)) {
          dependencies := dependencies + [Lookup(parameters, Name(p.name))];
          parameters := Remove(parameters, Name(p.name));
        } else if className.Some? {
          if HasKey(parameters, Name(className.value)) {
            dependencies := dependencies + [Lookup(parameters, Name(className.value))];
            parameters := Remove(parameters, Name(className.value));
          } else if p.variadic {
            var variadic := Get(className.value, fuel);
            if variadic.Err? {
              R.MethodDepsStopsAtError(world, old(Model()), R.Builder, ps, args, i + 1, fuel);
              return Err(variadic.error);
            }
            dependencies := dependencies + Spliced(variadic.value);
          } else {
            var got := Get(className.value, fuel);
            if got.Err? {
              R.MethodDepsStopsAtError(world, old(Model()), R.Builder, ps, args, i + 1, fuel);
              return Err(got.error);
            }
            dependencies := dependencies + [got.value];
          }
        } else if p.default.Some? {
          dependencies := dependencies + [p.default.value];
        } else if !p.optional {
          R.MethodDepsStopsAtError(world, old(Model()), R.Builder, ps, args, i + 1, fuel);
          return Err(ContainerError(UnresolvableDependency(p.name)));
        }
      }
      assert ps[..|ps|] == ps;
      return Ok(dependencies + ArgValues(parameters));
    }

    // ---- Tag groups ----

    /** Iterating a group from `tagged` for its first `k` elements: the
        generator reads the tag's list when the traversal starts, and each
        step resolves one alias with `resolve`. */
    method Traverse(g: UtilsTagGenerator.TagGenerator<string, R.State>, k: nat, fuel: nat) returns (r: Result<seq<Value>>)
      requires Valid()
      modifies this, providers
      ensures Valid() && R.Outcome(r, Model()) == R.Traverse(world, old(Model()), g, k, fuel)
    {
      var list := R.TagOf(tags, g.generator);
      var n := if k < |list| then k else |list|;
      r := ResolveAll(list[..n], fuel);
    }

    /** The generator's loop: resolve the aliases one by one, stopping at
        the first failure. */
    method ResolveAll(aliases: seq<string>, fuel: nat) returns (r: Result<seq<Value>>)
      requires Valid()
      modifies this, providers
      ensures Valid() && R.Outcome(r, Model()) == R.ResolveEach(world, old(Model()), aliases, fuel)
    {
      ghost var s0 := Model();
      var values := [];
      for i := 0 to |aliases|
        invariant Valid()
        invariant R.ResolveEach(world, s0, aliases[..i], fuel) == R.Outcome(Ok(values), Model())
      {
        assert aliases[..i + 1][..i] == aliases[..i];
        var v := Resolve(aliases[i], fuel);
        if v.Err? {
          assert R.ResolveEach(world, s0, aliases[..i + 1], fuel) == R.Outcome(Err(v.error), Model());
          R.ResolveEachStopsAtError(world, s0, aliases, i + 1, fuel);
          return Err(v.error);
        }
        values := values + [v.value];
      }
      assert aliases[..|aliases|] == aliases;
      return Ok(values);
    }
  }
}
