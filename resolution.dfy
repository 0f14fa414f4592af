/** The container's behaviour as functions of its state (src/Container.php
    together with the reflective builder, src/Utils/Reflector.php, and the
    second resolver, src/DependencyResolver.php).

    Resolution may recurse without bound in the source (alias chains and
    constructor dependencies are followed with no cycle check).  Here every
    resolution carries `fuel`, the number of nested `resolve` calls still
    allowed; running out is the error `Diverged`, standing for the stack
    exhaustion that ends such a run. */
module Resolution {
  import opened Values
  import opened Reflection
  import opened Bindings
  import opened AbstractServiceProvider
  import opened Aggregate
  import opened Reflector
  import DependencyResolverRules
  import UtilsTagGenerator

  /** The container's fields: `$bindings`, `$singletons`, `$tags`,
      `$extends`, and the aggregate's state. */
  datatype State = State(
    bindings: Registry,
    singletons: map<string, Value>,
    tags: map<string, seq<string>>,
    decorators: map<string, seq<DecoratorId>>,
    agg: Snapshot)

  /** A result together with the state the container is left in; an error
      keeps every change made before it was raised. */
  datatype Outcome<T> = Outcome(result: Result<T>, state: State)

  // ---- Registry lookups ----

  /** `getConcrete`: the bound concrete, or the alias itself when unbound. */
  function ConcreteOf(reg: Registry, alias: string): (c: Concrete)
    ensures alias in reg ==> c == reg[alias].concrete
    ensures alias !in reg ==> c == Alias(alias)
  {
    if alias in reg then reg[alias].concrete else Alias(alias)
  }

  /** `isBuildable`: a factory, or a concrete equal to the alias. */
  predicate IsBuildable(c: Concrete, alias: string) {
    c == Alias(alias) || c.Factory?
  }

  /** `isSingleton` (the interface's `isShared`): bound, with the flag set. */
  predicate IsShared(reg: Registry, alias: string) {
    alias in reg && reg[alias].singleton
  }

  /** `has`: bound, or provided by some registered service provider. */
  predicate Has(s: State, id: string) {
    id in s.bindings || ProvidedBy(s.agg.providers, id)
  }

  /** The decorator queue of an alias; a missing queue is empty. */
  function Queue(decorators: map<string, seq<DecoratorId>>, alias: string): (q: seq<DecoratorId>)
    ensures alias !in decorators ==> q == []
  {
    if alias in decorators then decorators[alias] else []
  }

  /** The decorators applied in order, each to the previous result. */
  function Decorate(w: World, ds: seq<DecoratorId>, v: Value): Value
    decreases |ds|
  {
    if ds == [] then v else w.decorate(ds[|ds| - 1], Decorate(w, ds[..|ds| - 1], v))
  }

  /** The `bind` calls the providers' `register()` bodies make, in order. */
  function Flatten(ps: seq<ServiceProvider>): seq<BindCall>
    decreases |ps|
  {
    if ps == [] then [] else Flatten(ps[..|ps| - 1]) + ps[|ps| - 1].registers
  }

  // ---- State updates ----

  function BindIn(s: State, call: BindCall): State {
    s.(bindings := Bind(s.bindings, call))
  }

  /** `bindInstance`: write the cache directly. */
  function BindInstance(s: State, alias: string, v: Value): (t: State)
    requires v.Instance? || v.Closure?
    ensures t.singletons == s.singletons[alias := v] && t.bindings == s.bindings
  {
    s.(singletons := s.singletons[alias := v])
  }

  /** The lazy provider step of `resolve`: when some provider provides the
      alias, the aggregate's `register(alias)` runs and the invoked providers'
      bindings are made. */
  function Lookahead(s: State, alias: string): (t: State)
    ensures !ProvidedBy(s.agg.providers, alias) ==> t == s
    ensures t.singletons == s.singletons && t.tags == s.tags && t.decorators == s.decorators
    ensures ProvidedBy(s.agg.providers, alias) ==>
      RegisterAlias(s.agg, alias).Ok? && t.agg == RegisterAlias(s.agg, alias).value.after
      && t.bindings == BindAll(s.bindings, Flatten(RegisterAlias(s.agg, alias).value.invoked))
  {
    if ProvidedBy(s.agg.providers, alias) then
      var sw := Sweep(s.agg, s.agg.providers, alias);
      s.(agg := sw.after, bindings := BindAll(s.bindings, Flatten(sw.invoked)))
    else s
  }

  /** The cache write at the end of `resolve`, decided on the bindings as
      they are once the value has been produced. */
  function CacheIfShared(s: State, alias: string, v: Value): (t: State)
    ensures IsShared(s.bindings, alias) ==> t == s.(singletons := s.singletons[alias := v])
    ensures !IsShared(s.bindings, alias) ==> t == s
  {
    if IsShared(s.bindings, alias) then s.(singletons := s.singletons[alias := v]) else s
  }

  /** `extend`: decorate a cached value in place, or queue the decorator. */
  function Extend(w: World, s: State, alias: string, d: DecoratorId): (t: State)
    ensures alias in s.singletons ==>
      t == s.(singletons := s.singletons[alias := w.decorate(d, s.singletons[alias])])
    ensures alias !in s.singletons ==>
      t == s.(decorators := s.decorators[alias := Queue(s.decorators, alias) + [d]])
  {
    if alias in s.singletons then s.(singletons := s.singletons[alias := w.decorate(d, s.singletons[alias])])
    else s.(decorators := s.decorators[alias := Queue(s.decorators, alias) + [d]])
  }

  // ---- Resolution ----

  /** `resolve`: cache, providers, concrete, build or recurse, decorators,
      cache write. */
  function Resolve(w: World, s: State, alias: string, fuel: nat): Outcome<Value>
    decreases fuel, 0, 0
  {
    if alias in s.singletons then Outcome(Ok(s.singletons[alias]), s)
    else if fuel == 0 then Outcome(Err(Diverged), s)
    else
      var s1 := Lookahead(s, alias);
      var c := ConcreteOf(s1.bindings, alias);
      var o := if IsBuildable(c, alias) then Build(w, s1, c, fuel - 1) else Resolve(w, s1, c.name, fuel - 1);
      if o.result.Err? then o
      else
        var v := Decorate(w, Queue(o.state.decorators, alias), o.result.value);
        Outcome(Ok(v), CacheIfShared(o.state, alias, v))
  }

  /** `get`: `resolve`, with a container error turned into `NotFound` when,
      afterwards, the id is neither bound nor provided. */
  function Get(w: World, s: State, id: string, fuel: nat): Outcome<Value>
    decreases fuel, 1, 0
  {
    var o := Resolve(w, s, id, fuel);
    if o.result.Err? && o.result.error.IsContainerException() && !Has(o.state, id) then
      Outcome(Err(NotFound(id)), o.state)
    else o
  }

  /** One constructor parameter: `resolvePrimitive` when it has no class,
      otherwise `resolveClass`, which refuses a variadic one and asks `get`
      for the class. */
  function ParamValue(w: World, s: State, p: Parameter, fuel: nat): Outcome<Value>
    decreases fuel, 2, 0
  {
    match ParameterClassName(p)
    case None => Outcome(ResolvePrimitive(p), s)
    case Some(cls) =>
      if p.variadic then Outcome(Err(ContainerError(UnresolvableDependency(p.name))), s)
      else Get(w, s, cls, fuel)
  }

  /** `resolveConstructorDependencies`: one argument per non-variadic
      parameter; a variadic parameter's result is spliced in. */
  function CtorDeps(w: World, s: State, ps: seq<Parameter>, fuel: nat): Outcome<seq<Value>>
    decreases fuel, 3, |ps|
  {
    if ps == [] then Outcome(Ok([]), s)
    else
      var o := CtorDeps(w, s, ps[..|ps| - 1], fuel);
      if o.result.Err? then o
      else
        var p := ps[|ps| - 1];
        var r := ParamValue(w, o.state, p, fuel);
        if r.result.Err? then Outcome(Err(r.result.error), r.state)
        else Outcome(Ok(o.result.value + if p.variadic then Spliced(r.result.value) else [r.result.value]), r.state)
  }

  /** `Reflector::build`: the class must exist and be instantiable; without a
      constructor it is built with no arguments. */
  function ReflectBuild(w: World, s: State, cls: string, fuel: nat): Outcome<Value>
    decreases fuel, 4, 0
  {
    if cls !in w.classes then Outcome(Err(ContainerError(UnknownClass(cls))), s)
    else if !w.classes[cls].instantiable then Outcome(Err(ContainerError(NotInstantiable(cls))), s)
    else match w.classes[cls].ctor
      case None => Outcome(Ok(Instance(cls, [])), s)
      case Some(ps) =>
        var o := CtorDeps(w, s, ps, fuel);
        if o.result.Err? then Outcome(Err(o.result.error), o.state)
        else Outcome(Ok(Instance(cls, o.result.value)), o.state)
  }

  /** `Container::build`: run a factory, or build the class reflectively. */
  function Build(w: World, s: State, c: Concrete, fuel: nat): Outcome<Value>
    decreases fuel, 5, 0
  {
    match c
    case Factory(id) => Outcome(Ok(w.make(id)), s)
    case Alias(cls) => ReflectBuild(w, s, cls, fuel)
  }

  // ---- Invoking callables ----

  /** Which of the two callable resolvers: the builder's (`Utils\Reflector`),
      which asks `get` and wraps reflection failures, or `DependencyResolver`,
      which asks `resolve` and lets them through. */
  datatype Dialect = Builder | Resolver

  function ClassFor(d: Dialect, p: Parameter): Option<string> {
    if d.Builder? then ParameterClassName(p) else DependencyResolverRules.ResolverClassName(p)
  }

  function Fetch(w: World, s: State, d: Dialect, id: string, fuel: nat): Outcome<Value> {
    if d.Builder? then Get(w, s, id, fuel) else Resolve(w, s, id, fuel)
  }

  function CallFailure(d: Dialect): Error {
    if d.Builder? then ContainerError(UnresolvableCallable) else ReflectionFailure
  }

  /** The arguments gathered so far and the explicit arguments not yet used. */
  datatype Gathered = Gathered(deps: seq<Value>, rest: Args)

  /** The loop of `resolveMethodDependencies` over the parameters. */
  function MethodDeps(w: World, s: State, d: Dialect, ps: seq<Parameter>, args: Args, fuel: nat): Outcome<Gathered>
    decreases |ps|
  {
    if ps == [] then Outcome(Ok(Gathered([], args)), s)
    else
      var o := MethodDeps(w, s, d, ps[..|ps| - 1], args, fuel);
      if o.result.Err? then o
      else
        var g := o.result.value;
        var p := ps[|ps| - 1];
        match Choose(p, ClassFor(d, p), g.rest)
        case ByName =>
          Outcome(Ok(Gathered(g.deps + [Lookup(g.rest, Name(p.name))], Remove(g.rest, Name(p.name)))), o.state)
        case ByClass(cls) =>
          Outcome(Ok(Gathered(g.deps + [Lookup(g.rest, Name(cls))], Remove(g.rest, Name(cls)))), o.state)
        case Splice(cls) =>
          var f := Fetch(w, o.state, d, cls, fuel);
          if f.result.Err? then Outcome(Err(f.result.error), f.state)
          else Outcome(Ok(Gathered(g.deps + Spliced(f.result.value), g.rest)), f.state)
        case Inject(cls) =>
          var f := Fetch(w, o.state, d, cls, fuel);
          if f.result.Err? then Outcome(Err(f.result.error), f.state)
          else Outcome(Ok(Gathered(g.deps + [f.result.value], g.rest)), f.state)
        case Default(v) => Outcome(Ok(Gathered(g.deps + [v], g.rest)), o.state)
        case Skip => o
        case Unresolvable => Outcome(Err(ContainerError(UnresolvableDependency(p.name))), o.state)
  }

  /** `resolveMethodDependencies`: the gathered arguments, then the unused
      explicit ones in their original order. */
  function MethodArguments(w: World, s: State, d: Dialect, ps: seq<Parameter>, args: Args, fuel: nat): Outcome<seq<Value>> {
    var o := MethodDeps(w, s, d, ps, args, fuel);
    if o.result.Err? then Outcome(Err(o.result.error), o.state)
    else Outcome(Ok(o.result.value.deps + ArgValues(o.result.value.rest)), o.state)
  }

  /** `call`: normalise, resolve a class-name target, reflect, gather the
      arguments, invoke.  The builder's `call` is declared for strings,
      arrays and closures only. */
  function Call(w: World, s: State, d: Dialect, c: Callable, args: Args, fuel: nat): Outcome<Value>
    requires d.Builder? && c.Object? ==> c.obj.Closure?
  {
    match Normalise(w, c)
    case MethodOf(t, member) =>
      var o := if t.ClassName? then Fetch(w, s, d, t.name, fuel) else Outcome(Ok(t.receiver), s);
      if o.result.Err? then o
      else
        var receiver := o.result.value;
        (match MethodSignature(w, receiver, member)
         case None => Outcome(Err(CallFailure(d)), o.state)
         case Some(ps) =>
           var a := MethodArguments(w, o.state, d, ps, args, fuel);
           if a.result.Err? then Outcome(Err(a.result.error), a.state)
           else Outcome(Ok(w.run(MethodCall(receiver, member, a.result.value))), a.state))
    case FunctionNamed(name) =>
      match FunctionSignature(w, name)
      case None => Outcome(Err(CallFailure(d)), s)
      case Some(ps) =>
        var a := MethodArguments(w, s, d, ps, args, fuel);
        if a.result.Err? then Outcome(Err(a.result.error), a.state)
        else Outcome(Ok(w.run(FunctionCall(name, a.result.value))), a.state)
  }

  // ---- Tags ----

  /** The aliases of a tag; an unknown tag has none. */
  function TagOf(tags: map<string, seq<string>>, t: string): seq<string> {
    if t in tags then tags[t] else []
  }

  /** `tag($aliases, $tags)`: append every alias to every named tag. */
  function TagAll(tags: map<string, seq<string>>, aliases: seq<string>, names: seq<string>): map<string, seq<string>>
    decreases |names|
  {
    if names == [] then tags
    else
      var m := TagAll(tags, aliases, names[..|names| - 1]);
      var t := names[|names| - 1];
      m[t := TagOf(m, t) + aliases]
  }

  /** `xs` repeated `k` times. */
  function Repeat<T>(xs: seq<T>, k: nat): seq<T> {
    if k == 0 then [] else Repeat(xs, k - 1) + xs
  }

  /** `tagged($tag)`: fails for an unknown tag; otherwise a group over the tag
      whose count is the tag's length now. */
  function Tagged(s: State, tag: string): (r: Result<UtilsTagGenerator.TagGenerator<string, State>>)
    ensures r.Ok? <==> tag in s.tags
    ensures r.Err? ==> r.error == ContainerError(UnknownTag(tag))
    ensures r.Ok? ==> r.value.generator == tag && r.value.count == UtilsTagGenerator.Fixed(|s.tags[tag]|)
  {
    if tag !in s.tags then Err(ContainerError(UnknownTag(tag)))
    else Ok(UtilsTagGenerator.TagGenerator(tag, UtilsTagGenerator.Fixed(|s.tags[tag]|)))
  }

  /** Resolving aliases one after another, stopping at the first error. */
  function ResolveEach(w: World, s: State, aliases: seq<string>, fuel: nat): Outcome<seq<Value>>
    decreases |aliases|
  {
    if aliases == [] then Outcome(Ok([]), s)
    else
      var o := ResolveEach(w, s, aliases[..|aliases| - 1], fuel);
      if o.result.Err? then o
      else
        var r := Resolve(w, o.state, aliases[|aliases| - 1], fuel);
        if r.result.Err? then Outcome(Err(r.result.error), r.state)
        else Outcome(Ok(o.result.value + [r.result.value]), r.state)
  }

  /** The generator closure `tagged` builds, consumed for its first `k`
      elements: the tag's list is read when the traversal starts, and each
      step resolves one alias. */
  function RunGenerator(w: World, s: State, tag: string, k: nat, fuel: nat): Outcome<seq<Value>> {
    var list := TagOf(s.tags, tag);
    ResolveEach(w, s, list[..if k < |list| then k else |list|], fuel)
  }

  /** Iterating a group: `getIterator()` runs the generator again, here from
      state `s`, consuming its first `k` elements. */
  function Traverse(w: World, s: State, g: UtilsTagGenerator.TagGenerator<string, State>, k: nat, fuel: nat): Outcome<seq<Value>> {
    UtilsTagGenerator.GetIterator(g, (tag: string) => RunGenerator(w, s, tag, k, fuel))
  }

  // ---- The first error ends a loop ----

  lemma {:induction false} CtorDepsStopsAtError(w: World, s: State, ps: seq<Parameter>, j: nat, fuel: nat)
    requires j <= |ps| && CtorDeps(w, s, ps[..j], fuel).result.Err?
    ensures CtorDeps(w, s, ps, fuel) == CtorDeps(w, s, ps[..j], fuel)
    decreases |ps|
  {
    if j < |ps| {
      var n := |ps| - 1;
      assert ps[..n][..j] == ps[..j];
      CtorDepsStopsAtError(w, s, ps[..n], j, fuel);
    } else {
      assert ps[..j] == ps;
    }
  }

  lemma {:induction false} MethodDepsStopsAtError(w: World, s: State, d: Dialect, ps: seq<Parameter>, args: Args, j: nat, fuel: nat)
    requires j <= |ps| && MethodDeps(w, s, d, ps[..j], args, fuel).result.Err?
    ensures MethodDeps(w, s, d, ps, args, fuel) == MethodDeps(w, s, d, ps[..j], args, fuel)
    decreases |ps|
  {
    if j < |ps| {
      var n := |ps| - 1;
      assert ps[..n][..j] == ps[..j];
      MethodDepsStopsAtError(w, s, d, ps[..n], args, j, fuel);
    } else {
      assert ps[..j] == ps;
    }
  }

  lemma {:induction false} ResolveEachStopsAtError(w: World, s: State, aliases: seq<string>, j: nat, fuel: nat)
    requires j <= |aliases| && ResolveEach(w, s, aliases[..j], fuel).result.Err?
    ensures ResolveEach(w, s, aliases, fuel) == ResolveEach(w, s, aliases[..j], fuel)
    decreases |aliases|
  {
    if j < |aliases| {
      var n := |aliases| - 1;
      assert aliases[..n][..j] == aliases[..j];
      ResolveEachStopsAtError(w, s, aliases[..n], j, fuel);
    } else {
      assert aliases[..j] == aliases;
    }
  }
}
