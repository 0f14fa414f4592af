/** The second callable resolver (src/DependencyResolver.php): the same
    steps as the builder's `call`, but it asks the container's `resolve`
    rather than `get`, maps `self` and `parent` type names, and lets a
    failed reflection through unwrapped.  Both methods are proved against
    `Resolution.Call` and `Resolution.MethodArguments` in the `Resolver`
    dialect. */
module DependencyResolver {
  import opened Values
  import opened Reflection
  import opened Reflector
  import opened DependencyResolverRules
  import R = Resolution
  import Container

  /** `call($container, $callable, $parameters)`. */
  method Call(c: Container.Container, callable: Callable, args: Args, fuel: nat) returns (r: Result<Value>)
    requires c.Valid()
    modifies c, c.providers
    ensures c.Valid() && R.Outcome(r, c.Model()) == R.Call(c.world, old(c.Model()), R.Resolver, callable, args, fuel)
  {
    var target := callable;
    if target.Text? {
      if HasSeparator(target.text) {
        ExplodeSplits(target.text);
        var pieces := Explode(target.text);
        target := Pair(ClassName(pieces[0]), pieces[1]);
      } else if HasMethod(c.world, target.text, "__invoke") {
        target := Pair(ClassName(target.text), "__invoke");
      }
    }
    if target.Pair? {
      var receiver;
      if target.target.ClassName? {
        var resolved := c.Resolve(target.target.name, fuel);
        if resolved.Err? {
          return resolved;
        }
        receiver := resolved.value;
      } else {
        receiver := target.target.receiver;
      }
      var signature := MethodSignature(c.world, receiver, target.member);
      if signature.None? {
        return Err(ReflectionFailure);
      }
      var dependencies := ResolveMethodDependencies(c, signature.value, args, fuel);
      if dependencies.Err? {
        return Err(dependencies.error);
      }
      return Ok(c.world.run(MethodCall(receiver, target.member, dependencies.value)));
    }
    if target.Object? {
      var signature := MethodSignature(c.world, target.obj, "__invoke");
      if signature.None? {
        return Err(ReflectionFailure);
      }
      var dependencies := ResolveMethodDependencies(c, signature.value, args, fuel);
      if dependencies.Err? {
        return Err(dependencies.error);
      }
      return Ok(c.world.run(MethodCall(target.obj, "__invoke", dependencies.value)));
    }
    var signature := FunctionSignature(c.world, target.text);
    if signature.None? {
      return Err(ReflectionFailure);
    }
    var dependencies := ResolveMethodDependencies(c, signature.value, args, fuel);
    if dependencies.Err? {
      return Err(dependencies.error);
    }
    return Ok(c.world.run(FunctionCall(target.text, dependencies.value)));
  }

  /** `resolveMethodDependencies`, with its branches as written, including
      the repeated name-key check before the failure. */
  method ResolveMethodDependencies(c: Container.Container, ps: seq<Parameter>, args: Args, fuel: nat)
    returns (r: Result<seq<Value>>)
    requires c.Valid()
    modifies c, c.providers
    ensures c.Valid() && R.Outcome(r, c.Model()) == R.MethodArguments(c.world, old(c.Model()), R.Resolver, ps, args, fuel)
  {
    var dependencies := [];
    var parameters := args;
    for i := 0 to |ps|
      invariant c.Valid()
      invariant R.MethodDeps(c.world, old(c.Model()), R.Resolver, ps[..i], args, fuel)
        == R.Outcome(Ok(R.Gathered(dependencies, parameters)), c.Model())
    {
      assert ps[..i + 1][..i] == ps[..i];
      var p := ps[i];
      var className := ResolverClassName(p);
      ChooseAsWrittenIsChoose(p, className, parameters);
      if HasKey(parameters, Name(p.name)) {
        dependencies := dependencies + [Lookup(parameters, Name(p.name))];
        parameters := Remove(parameters, Name(p.name));
      } else if className.Some? {
        if HasKey(parameters, Name(className.value)) {
          dependencies := dependencies + [Lookup(parameters, Name(className.value))];
          parameters := Remove(parameters, Name(className.value));
        } else if p.variadic {
          var variadic := c.Resolve(className.value, fuel);
          if variadic.Err? {
            R.MethodDepsStopsAtError(c.world, old(c.Model()), R.Resolver, ps, args, i + 1, fuel);
            return Err(variadic.error);
          }
          dependencies := dependencies + Spliced(variadic.value);
        } else {
          var resolved := c.Resolve(className.value, fuel);
          if resolved.Err? {
            R.MethodDepsStopsAtError(c.world, old(c.Model()), R.Resolver, ps, args, i + 1, fuel);
            return Err(resolved.error);
          }
          dependencies := dependencies + [resolved.value];
        }
      } else if p.default.Some? {
        dependencies := dependencies + [p.default.value];
      } else if !HasKey(parameters, Name(p.name)) && !p.optional {
        R.MethodDepsStopsAtError(c.world, old(c.Model()), R.Resolver, ps, args, i + 1, fuel);
        return Err(ContainerError(UnresolvableDependency(p.name)));
      }
    }
    assert ps[..|ps|] == ps;
    return Ok(dependencies + ArgValues(parameters));
  }
}
