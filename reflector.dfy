/** The side-effect-free rules of the reflective builder
    (src/Utils/Reflector.php): what a parameter's class is, how a primitive
    parameter is satisfied, which source a callable's parameter takes its
    argument from, and how a callable is normalised.  The loops that use them
    and call back into the container are methods of `Container.Container`. */
module Reflector {
  import opened Values
  import opened Reflection
  import opened Sequences

  // ---- Parameters ----

  /** `getParameterClassName`: the declared type name, unless the type is not
      a single named type or is builtin. */
  function ParameterClassName(p: Parameter): (r: Option<string>)
    ensures r.Some? <==> p.ptype.Named? && !p.ptype.builtin
    ensures r.Some? ==> r.value == p.ptype.name
  {
    match p.ptype
    case Named(name, builtin) => if builtin then None else Some(name)
    case _ => None
  }

  /** `resolvePrimitive`: the default value, else an empty list for a
      variadic parameter, else failure. */
  function ResolvePrimitive(p: Parameter): (r: Result<Value>)
    ensures r.Ok? <==> p.default.Some? || p.variadic
    ensures p.default.Some? ==> r == Ok(p.default.value)
    ensures p.variadic ==> r == Ok(List([]))
    ensures r.Err? ==> r.error == ContainerError(UnresolvableDependency(p.name))
  {
    if p.default.Some? then Ok(p.default.value)
    else if p.variadic then Ok(List([]))
    else Err(ContainerError(UnresolvableDependency(p.name)))
  }

  /** What `array_merge` splices in for a variadic parameter: the items of a
      list, or the value itself as a single item. */
  function Spliced(v: Value): (r: seq<Value>)
    ensures v.List? ==> r == v.items
    ensures !v.List? ==> r == [v]
  {
    if v.List? then v.items else [v]
  }

  /** The number of non-variadic parameters: how many arguments a constructor
      call receives, since a variadic constructor parameter contributes
      nothing. */
  function FixedCount(ps: seq<Parameter>): (n: nat)
    ensures n <= |ps|
    decreases |ps|
  {
    if ps == [] then 0 else FixedCount(ps[..|ps| - 1]) + if ps[|ps| - 1].variadic then 0 else 1
  }

  // ---- Explicit arguments of `call` ----

  /** A PHP array key.  A parameter or class name is never numeric, so it is
      always a string key; list-style arguments have integer keys. */
  datatype Key = Name(name: string) | Index(index: int)

  /** The `$parameters` array, in insertion order. */
  type Args = seq<(Key, Value)>

  /** `array_key_exists`. */
  predicate HasKey(args: Args, k: Key) {
    exists e :: e in args && e.0 == k
  }

  /** `$parameters[$k]`, for a key that exists. */
  function Lookup(args: Args, k: Key): (v: Value)
    requires HasKey(args, k)
    ensures (k, v) in args
  {
    if args[0].0 == k then args[0].1 else Lookup(args[1..], k)
  }

  /** The entries of `args` whose key is not in `keys`, in their order. */
  function Without(args: Args, keys: set<Key>): (r: Args)
    ensures forall e :: e in r <==> e in args && e.0 !in keys
    decreases |args|
  {
    if args == [] then []
    else
      var n := |args| - 1;
      assert args == args[..n] + [args[n]];
      var r := Without(args[..n], keys);
      if args[n].0 in keys then r else r + [args[n]]
  }

  /** `unset($parameters[$k])`. */
  function Remove(args: Args, k: Key): (r: Args)
    ensures !HasKey(r, k)
    ensures forall k' :: k' != k ==> (HasKey(r, k') <==> HasKey(args, k'))
  {
    Without(args, {k})
  }

  /** Removing keys one at a time is removing them all at once. */
  lemma {:induction false} WithoutWithout(args: Args, keys: set<Key>, k: Key)
    ensures Without(Without(args, keys), {k}) == Without(args, keys + {k})
    decreases |args|
  {
    if args != [] {
      var n := |args| - 1;
      WithoutWithout(args[..n], keys, k);
      var r := Without(args[..n], keys);
      if args[n].0 !in keys {
        assert (r + [args[n]])[..|r|] == r;
      }
    }
  }

  /** What is left keeps its original order. */
  lemma {:induction false} WithoutIsSubsequence(args: Args, keys: set<Key>)
    ensures Subsequence(Without(args, keys), args)
    decreases |args|
  {
    if args == [] {
    } else {
      var n := |args| - 1;
      WithoutIsSubsequence(args[..n], keys);
      assert args[..n] + [args[n]] == args;
      if args[n].0 in keys {
        SubsequenceExtend(Without(args[..n], keys), args[..n], args[n]);
      } else {
        SubsequenceAppend(Without(args[..n], keys), args[..n], args[n]);
      }
    }
  }

  /** `array_values`. */
  function ArgValues(args: Args): (vs: seq<Value>)
    ensures |vs| == |args| && forall i :: 0 <= i < |args| ==> vs[i] == args[i].1
  {
    seq(|args|, i requires 0 <= i < |args| => args[i].1)
  }

  // ---- Where a callable's parameter gets its argument ----

  datatype Source =
    | ByName                  // the explicit argument keyed by the parameter's name
    | ByClass(cls: string)    // the explicit argument keyed by its class name
    | Splice(cls: string)     // a variadic class parameter: splice what the container yields
    | Inject(cls: string)     // what the container yields for the class
    | Default(value: Value)   // the declared default
    | Skip                    // an optional parameter with nothing to give
    | Unresolvable            // a required parameter with nothing to give

  /** The priority order of `resolveMethodDependencies`, given the class name
      the resolver assigns to the parameter. */
  function Choose(p: Parameter, cls: Option<string>, args: Args): (r: Source)
    ensures r == ByName <==> HasKey(args, Name(p.name))
    ensures r.ByClass? <==> !HasKey(args, Name(p.name)) && cls.Some? && HasKey(args, Name(cls.value))
    ensures r.ByClass? ==> cls == Some(r.cls)
    ensures (r.Splice? || r.Inject?) ==> cls == Some(r.cls) && !HasKey(args, Name(r.cls))
    ensures r.Splice? <==> !HasKey(args, Name(p.name)) && cls.Some? && !HasKey(args, Name(cls.value)) && p.variadic
    ensures (r.Default? || r.Skip? || r.Unresolvable?) <==> !HasKey(args, Name(p.name)) && cls.None?
    ensures r.Default? <==> !HasKey(args, Name(p.name)) && cls.None? && p.default.Some?
    ensures r.Default? ==> p.default == Some(r.value)
    ensures r == Unresolvable <==> !HasKey(args, Name(p.name)) && cls.None? && p.default.None? && !p.optional
  {
    if HasKey(args, Name(p.name)) then ByName
    else if cls.Some? then
      if HasKey(args, Name(cls.value)) then ByClass(cls.value)
      else if p.variadic then Splice(cls.value)
      else Inject(cls.value)
    else if p.default.Some? then Default(p.default.value)
    else if !p.optional then Unresolvable
    else Skip
  }

  /** Adding a positional argument never changes which source a parameter
      takes: list-style arguments cannot satisfy a named parameter. */
  lemma ChooseIgnoresPositional(p: Parameter, cls: Option<string>, args: Args, i: int, v: Value)
    ensures Choose(p, cls, args + [(Index(i), v)]) == Choose(p, cls, args)
  {
    var more := args + [(Index(i), v)];
    forall k: Key | k.Name? ensures HasKey(more, k) <==> HasKey(args, k) {
      if HasKey(more, k) {
        var e :| e in more && e.0 == k;
        assert e in args;
      }
    }
  }

  // ---- Callables ----

  /** The target of an array callable: a class name, which the container
      resolves first, or an object. */
  datatype Target = ClassName(name: string) | Receiver(receiver: Value)

  /** A callable as `call` receives it: a string, a `[target, method]` array,
      or an object. */
  datatype Callable =
    | Text(text: string)
    | Pair(target: Target, member: string)
    | Object(obj: Value)

  /** `::` occurs at position `i` of `s`. */
  predicate SeparatorAt(s: string, i: int) {
    0 <= i && i + 1 < |s| && s[i] == ':' && s[i + 1] == ':'
  }

  /** `str_contains($s, '::')`. */
  predicate HasSeparator(s: string) {
    exists i :: 0 <= i < |s| && SeparatorAt(s, i)
  }

  /** The position of the first `::`. */
  function FirstSeparator(s: string): (r: Option<nat>)
    ensures r.Some? ==> SeparatorAt(s, r.value) && forall j :: 0 <= j < r.value ==> !SeparatorAt(s, j)
    ensures r.None? ==> !HasSeparator(s)
    decreases |s|
  {
    if |s| < 2 then None
    else if s[0] == ':' && s[1] == ':' then Some(0)
    else
      var rest := FirstSeparator(s[1..]);
      assert forall i :: 1 <= i ==> (SeparatorAt(s, i) <==> SeparatorAt(s[1..], i - 1));
      if rest.None? then None else Some(rest.value + 1)
  }

  /** `explode('::', $s)`. */
  function Explode(s: string): (pieces: seq<string>)
    ensures |pieces| >= 1
    ensures forall k :: 0 <= k < |pieces| ==> !HasSeparator(pieces[k])
    decreases |s|
  {
    match FirstSeparator(s)
    case None => [s]
    case Some(i) =>
      assert !HasSeparator(s[..i]) by {
        forall j | SeparatorAt(s[..i], j) ensures SeparatorAt(s, j) { }
      }
      [s[..i]] + Explode(s[i + 2..])
  }

  /** `implode('::', $pieces)`. */
  function Implode(pieces: seq<string>): string
    requires |pieces| >= 1
    decreases |pieces|
  {
    if |pieces| == 1 then pieces[0] else pieces[0] + "::" + Implode(pieces[1..])
  }

  /** Exploding loses nothing: joining the pieces back gives the string. */
  lemma {:induction false} ImplodeExplode(s: string)
    ensures Implode(Explode(s)) == s
    decreases |s|
  {
    match FirstSeparator(s)
    case None =>
    case Some(i) =>
      ImplodeExplode(s[i + 2..]);
      var pieces := Explode(s);
      assert pieces[1..] == Explode(s[i + 2..]);
      assert s == s[..i] + "::" + s[i + 2..];
  }

  /** A string is split exactly when it contains `::`. */
  lemma ExplodeSplits(s: string)
    ensures HasSeparator(s) <==> |Explode(s)| >= 2
  {
  }

  /** `"C::m"` splits into the class and the method when neither contains
      `::` and the class does not end in `:`. */
  lemma {:induction false} ExplodeStatic(cls: string, member: string)
    requires !HasSeparator(cls) && !HasSeparator(member) && (cls == [] || cls[|cls| - 1] != ':')
    ensures Explode(cls + "::" + member) == [cls, member]
  {
    var s := cls + "::" + member;
    assert SeparatorAt(s, |cls|);
    forall j | 0 <= j < |cls| ensures !SeparatorAt(s, j) {
      if j + 1 < |cls| {
        assert !SeparatorAt(cls, j);
      }
    }
    assert FirstSeparator(s) == Some(|cls|);
    assert s[..|cls|] == cls && s[|cls| + 2..] == member;
  }

  /** A callable after the first steps of `call`: a method on a target, or
      a named function. */
  datatype Invocable = MethodOf(target: Target, member: string) | FunctionNamed(name: string)

  /** The first steps of `call`: a string with `::` becomes a class/method
      pair, an invokable class name becomes `[class, '__invoke']`, an object
      becomes `[object, '__invoke']`; any other string names a function. */
  function Normalise(w: World, c: Callable): (r: Invocable)
    ensures c.Pair? ==> r == MethodOf(c.target, c.member)
    ensures c.Object? ==> r == MethodOf(Receiver(c.obj), "__invoke")
    ensures c.Text? && HasSeparator(c.text) ==>
      r == MethodOf(ClassName(Explode(c.text)[0]), Explode(c.text)[1])
    ensures c.Text? && !HasSeparator(c.text) && HasMethod(w, c.text, "__invoke") ==>
      r == MethodOf(ClassName(c.text), "__invoke")
    ensures r.FunctionNamed? <==> c.Text? && !HasSeparator(c.text) && !HasMethod(w, c.text, "__invoke")
    ensures r.FunctionNamed? ==> r.name == c.text
  {
    match c
    case Text(s) =>
      if HasSeparator(s) then
        ExplodeSplits(s);
        var pieces := Explode(s);
        MethodOf(ClassName(pieces[0]), pieces[1])
      else if HasMethod(w, s, "__invoke") then MethodOf(ClassName(s), "__invoke")
      else FunctionNamed(s)
    case Pair(t, m) => MethodOf(t, m)
    case Object(v) => MethodOf(Receiver(v), "__invoke")
  }

  /** `"C::m"` is called as method `m` on what the container yields for `C`. */
  lemma NormaliseStatic(w: World, cls: string, member: string)
    requires !HasSeparator(cls) && !HasSeparator(member) && (cls == [] || cls[|cls| - 1] != ':')
    ensures Normalise(w, Text(cls + "::" + member)) == MethodOf(ClassName(cls), member)
  {
    ExplodeStatic(cls, member);
    assert SeparatorAt(cls + "::" + member, |cls|);
  }
}
