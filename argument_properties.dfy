/** Properties of the gathering of a callable's arguments
    (`resolveMethodDependencies` in src/Utils/Reflector.php and
    src/DependencyResolver.php), for both resolvers. */
module ArgumentProperties {
  import opened Values
  import opened Reflection
  import opened Sequences
  import opened Reflector
  import opened Resolution

  /** A later entry never hides an earlier one under the same key. */
  lemma {:induction false} LookupAppend(args: Args, e: (Key, Value), k: Key)
    requires HasKey(args, k)
    ensures HasKey(args + [e], k) && Lookup(args + [e], k) == Lookup(args, k)
    decreases |args|
  {
    assert args[0] in args + [e];
    if args[0].0 != k {
      var x :| x in args && x.0 == k;
      assert x in args[1..];
      assert (args + [e])[1..] == args[1..] + [e];
      LookupAppend(args[1..], e, k);
    }
  }

  /** Filtering an appended entry. */
  lemma WithoutAppend(args: Args, keys: set<Key>, e: (Key, Value))
    ensures Without(args + [e], keys) == if e.0 in keys then Without(args, keys) else Without(args, keys) + [e]
  {
    assert (args + [e])[..|args|] == args;
  }

  /** A positional entry has an integer key, which no name matches. */
  lemma HasKeyAppendIndex(args: Args, e: (Key, Value), k: Key)
    requires e.0.Index? && k.Name?
    ensures HasKey(args + [e], k) <==> HasKey(args, k)
  {
    if HasKey(args + [e], k) {
      var x :| x in args + [e] && x.0 == k;
      assert x in args;
    }
  }

  /** Appending a positional argument changes neither the gathered
      arguments nor the state: it only joins the leftovers, at the end.  A
      list-style argument never satisfies a parameter. */
  lemma {:induction false} PositionalIgnored(w: World, s: State, d: Dialect, ps: seq<Parameter>, args: Args, i: int, v: Value, fuel: nat)
    ensures var e := (Index(i), v);
      var o := MethodDeps(w, s, d, ps, args, fuel);
      var o2 := MethodDeps(w, s, d, ps, args + [e], fuel);
      && o2.state == o.state
      && (o.result.Err? ==> o2.result == o.result)
      && (o.result.Ok? ==> o2.result == Ok(Gathered(o.result.value.deps, o.result.value.rest + [e])))
    decreases |ps|
  {
    if ps != [] {
      var e := (Index(i), v);
      var n := |ps| - 1;
      PositionalIgnored(w, s, d, ps[..n], args, i, v, fuel);
      var o := MethodDeps(w, s, d, ps[..n], args, fuel);
      if o.result.Ok? {
        var rest := o.result.value.rest;
        var p := ps[n];
        ChooseIgnoresPositional(p, ClassFor(d, p), rest, i, v);
        match Choose(p, ClassFor(d, p), rest)
        case ByName =>
          LookupAppend(rest, e, Name(p.name));
          WithoutAppend(rest, {Name(p.name)}, e);
        case ByClass(cls) =>
          LookupAppend(rest, e, Name(cls));
          WithoutAppend(rest, {Name(cls)}, e);
        case _ =>
      }
    }
  }

  /** The leftovers are the explicit arguments minus the name keys the
      parameters consumed.  `K` names those keys. */
  lemma {:induction false} LeftoversAreUnconsumed(w: World, s: State, d: Dialect, ps: seq<Parameter>, args: Args, fuel: nat)
    returns (K: set<Key>)
    ensures var o := MethodDeps(w, s, d, ps, args, fuel);
      o.result.Ok? ==> (forall k :: k in K ==> k.Name?) && o.result.value.rest == Without(args, K)
    decreases |ps|
  {
    if ps == [] {
      K := {};
      assert Without(args, {}) == args by {
        WithoutAll(args);
      }
    } else {
      var n := |ps| - 1;
      var K0 := LeftoversAreUnconsumed(w, s, d, ps[..n], args, fuel);
      var o := MethodDeps(w, s, d, ps[..n], args, fuel);
      K := K0;
      if o.result.Ok? {
        var p := ps[n];
        match Choose(p, ClassFor(d, p), o.result.value.rest)
        case ByName =>
          WithoutWithout(args, K0, Name(p.name));
          K := K0 + {Name(p.name)};
        case ByClass(cls) =>
          WithoutWithout(args, K0, Name(cls));
          K := K0 + {Name(cls)};
        case _ =>
      }
    }
  }

  /** Filtering by no keys keeps everything. */
  lemma {:induction false} WithoutAll(args: Args)
    ensures Without(args, {}) == args
    decreases |args|
  {
    if args != [] {
      var n := |args| - 1;
      WithoutAll(args[..n]);
      assert args[..n] + [args[n]] == args;
    }
  }

  /** The leftover explicit arguments are appended after the gathered ones
      in their original order, every positional argument among them. */
  lemma LeftoversInOrder(w: World, s: State, d: Dialect, ps: seq<Parameter>, args: Args, fuel: nat)
    ensures var o := MethodDeps(w, s, d, ps, args, fuel);
      o.result.Ok? ==>
        && Subsequence(o.result.value.rest, args)
        && (forall e :: e in args && e.0.Index? ==> e in o.result.value.rest)
        && MethodArguments(w, s, d, ps, args, fuel).result.value[|o.result.value.deps|..] == ArgValues(o.result.value.rest)
  {
    var K := LeftoversAreUnconsumed(w, s, d, ps, args, fuel);
    WithoutIsSubsequence(args, K);
  }

  /** Positional arguments alone never satisfy a parameter: the gathering
      goes exactly as with no explicit arguments, failing with the same
      error or yielding the same arguments, and every positional argument
      is passed after them, in order. */
  lemma {:induction false} PositionalOnly(w: World, s: State, d: Dialect, ps: seq<Parameter>, args: Args, fuel: nat)
    requires forall j :: 0 <= j < |args| ==> args[j].0.Index?
    ensures var o := MethodDeps(w, s, d, ps, args, fuel);
      var z := MethodDeps(w, s, d, ps, [], fuel);
      && o.state == z.state
      && (z.result.Err? ==> o.result == z.result)
      && (z.result.Ok? ==> o.result == Ok(Gathered(z.result.value.deps, args)))
    ensures var z := MethodDeps(w, s, d, ps, [], fuel);
      z.result.Ok? ==> MethodArguments(w, s, d, ps, args, fuel).result == Ok(z.result.value.deps + ArgValues(args))
    decreases |args|
  {
    if args == [] {
      var _ := LeftoversAreUnconsumed(w, s, d, ps, [], fuel);
    } else {
      var n := |args| - 1;
      PositionalOnly(w, s, d, ps, args[..n], fuel);
      PositionalIgnored(w, s, d, ps, args[..n], args[n].0.index, args[n].1, fuel);
      assert args[..n] + [(Index(args[n].0.index), args[n].1)] == args;
    }
  }
}
