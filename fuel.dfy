/** The fuel bound of `Resolution` only cuts off runs that would not end:
    once a resolution finishes without `Diverged`, any larger bound gives the
    same result and the same state.  So every property proved for a finished
    resolution holds of the unbounded recursion in src/Container.php and
    src/Utils/Reflector.php. */
module Fuel {
  import opened Values
  import opened Reflection
  import opened Bindings
  import opened Reflector
  import opened Resolution

  lemma {:induction false} ResolveMoreFuel(w: World, s: State, alias: string, f: nat, g: nat)
    requires f <= g && Resolve(w, s, alias, f).result != Err(Diverged)
    ensures Resolve(w, s, alias, g) == Resolve(w, s, alias, f)
    decreases f, 0, 0
  {
    if alias !in s.singletons {
      var s1 := Lookahead(s, alias);
      InnerMoreFuel(w, s1, alias, ConcreteOf(s1.bindings, alias), f - 1, g - 1);
    }
  }

  /** The build or recursion step of `resolve`. */
  function Inner(w: World, s1: State, alias: string, c: Concrete, fuel: nat): Outcome<Value> {
    if IsBuildable(c, alias) then Build(w, s1, c, fuel) else Resolve(w, s1, c.name, fuel)
  }

  lemma {:induction false} InnerMoreFuel(w: World, s1: State, alias: string, c: Concrete, f: nat, g: nat)
    requires f <= g && Inner(w, s1, alias, c, f).result != Err(Diverged)
    ensures Inner(w, s1, alias, c, g) == Inner(w, s1, alias, c, f)
    decreases f, 6, 0
  {
    if IsBuildable(c, alias) {
      BuildMoreFuel(w, s1, c, f, g);
    } else {
      ResolveMoreFuel(w, s1, c.name, f, g);
    }
  }

  lemma {:induction false} GetMoreFuel(w: World, s: State, id: string, f: nat, g: nat)
    requires f <= g && Get(w, s, id, f).result != Err(Diverged)
    ensures Get(w, s, id, g) == Get(w, s, id, f)
    decreases f, 1, 0
  {
    ResolveMoreFuel(w, s, id, f, g);
  }

  lemma {:induction false} ParamValueMoreFuel(w: World, s: State, p: Parameter, f: nat, g: nat)
    requires f <= g && ParamValue(w, s, p, f).result != Err(Diverged)
    ensures ParamValue(w, s, p, g) == ParamValue(w, s, p, f)
    decreases f, 2, 0
  {
    if ParameterClassName(p).Some? && !p.variadic {
      GetMoreFuel(w, s, ParameterClassName(p).value, f, g);
    }
  }

  lemma {:induction false} CtorDepsMoreFuel(w: World, s: State, ps: seq<Parameter>, f: nat, g: nat)
    requires f <= g && CtorDeps(w, s, ps, f).result != Err(Diverged)
    ensures CtorDeps(w, s, ps, g) == CtorDeps(w, s, ps, f)
    decreases f, 3, |ps|
  {
    if ps != [] {
      var n := |ps| - 1;
      CtorDepsMoreFuel(w, s, ps[..n], f, g);
      var o := CtorDeps(w, s, ps[..n], f);
      if o.result.Ok? {
        ParamValueMoreFuel(w, o.state, ps[n], f, g);
      }
    }
  }

  lemma {:induction false} ReflectBuildMoreFuel(w: World, s: State, cls: string, f: nat, g: nat)
    requires f <= g && ReflectBuild(w, s, cls, f).result != Err(Diverged)
    ensures ReflectBuild(w, s, cls, g) == ReflectBuild(w, s, cls, f)
    decreases f, 4, 0
  {
    if cls in w.classes && w.classes[cls].instantiable && w.classes[cls].ctor.Some? {
      CtorDepsMoreFuel(w, s, w.classes[cls].ctor.value, f, g);
    }
  }

  lemma {:induction false} BuildMoreFuel(w: World, s: State, c: Concrete, f: nat, g: nat)
    requires f <= g && Build(w, s, c, f).result != Err(Diverged)
    ensures Build(w, s, c, g) == Build(w, s, c, f)
    decreases f, 5, 0
  {
    if c.Alias? {
      ReflectBuildMoreFuel(w, s, c.name, f, g);
    }
  }

  lemma FetchMoreFuel(w: World, s: State, d: Dialect, id: string, f: nat, g: nat)
    requires f <= g && Fetch(w, s, d, id, f).result != Err(Diverged)
    ensures Fetch(w, s, d, id, g) == Fetch(w, s, d, id, f)
  {
    if d.Builder? {
      GetMoreFuel(w, s, id, f, g);
    } else {
      ResolveMoreFuel(w, s, id, f, g);
    }
  }

  lemma {:induction false} MethodDepsMoreFuel(w: World, s: State, d: Dialect, ps: seq<Parameter>, args: Args, f: nat, g: nat)
    requires f <= g && MethodDeps(w, s, d, ps, args, f).result != Err(Diverged)
    ensures MethodDeps(w, s, d, ps, args, g) == MethodDeps(w, s, d, ps, args, f)
    decreases |ps|
  {
    if ps != [] {
      var n := |ps| - 1;
      MethodDepsMoreFuel(w, s, d, ps[..n], args, f, g);
      var o := MethodDeps(w, s, d, ps[..n], args, f);
      if o.result.Ok? {
        var p := ps[n];
        match Choose(p, ClassFor(d, p), o.result.value.rest)
        case Splice(cls) => FetchMoreFuel(w, o.state, d, cls, f, g);
        case Inject(cls) => FetchMoreFuel(w, o.state, d, cls, f, g);
        case _ =>
      }
    }
  }

  /** A call that finishes without running out gives the same result and
      state with any larger bound. */
  lemma CallMoreFuel(w: World, s: State, d: Dialect, c: Callable, args: Args, f: nat, g: nat)
    requires d.Builder? && c.Object? ==> c.obj.Closure?
    requires f <= g && Call(w, s, d, c, args, f).result != Err(Diverged)
    ensures Call(w, s, d, c, args, g) == Call(w, s, d, c, args, f)
  {
    match Normalise(w, c)
    case MethodOf(t, member) =>
      if t.ClassName? {
        FetchMoreFuel(w, s, d, t.name, f, g);
      }
      var o := if t.ClassName? then Fetch(w, s, d, t.name, f) else Outcome(Ok(t.receiver), s);
      if o.result.Ok? {
        var sig := MethodSignature(w, o.result.value, member);
        if sig.Some? {
          MethodDepsMoreFuel(w, o.state, d, sig.value, args, f, g);
        }
      }
    case FunctionNamed(name) =>
      var sig := FunctionSignature(w, name);
      if sig.Some? {
        MethodDepsMoreFuel(w, s, d, sig.value, args, f, g);
      }
  }

  lemma {:induction false} ResolveEachMoreFuel(w: World, s: State, aliases: seq<string>, f: nat, g: nat)
    requires f <= g && ResolveEach(w, s, aliases, f).result != Err(Diverged)
    ensures ResolveEach(w, s, aliases, g) == ResolveEach(w, s, aliases, f)
    decreases |aliases|
  {
    if aliases != [] {
      var n := |aliases| - 1;
      ResolveEachMoreFuel(w, s, aliases[..n], f, g);
      var o := ResolveEach(w, s, aliases[..n], f);
      if o.result.Ok? {
        ResolveMoreFuel(w, o.state, aliases[n], f, g);
      }
    }
  }
}
