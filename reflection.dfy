/** The reflective introspection facility, as data.

    PHP's `ReflectionClass`, `ReflectionMethod`, `ReflectionFunction` and
    `ReflectionParameter` are foreign code.  Here they are replaced by a table
    (`World`) describing every class, method, function and closure the
    container may meet, together with what running foreign code yields. */
module Reflection {
  import opened Values

  /** The declared type of a parameter, as `getType()` reports it. */
  datatype ParamType =
    | Untyped                             // no declared type (`getType()` is null)
    | Composite                           // a union or intersection type
    | Named(name: string, builtin: bool)  // a `ReflectionNamedType`

  /** The class declaring a method: its name and its parent class, if any. */
  datatype Declaring = Declaring(name: string, parent: Option<string>)

  datatype RawParameter = Parameter(
    name: string,
    ptype: ParamType,
    default: Option<Value>,     // isDefaultValueAvailable / getDefaultValue
    variadic: bool,             // isVariadic
    optional: bool,             // isOptional
    declaring: Option<Declaring>)

  /** PHP rejects a default on a variadic parameter, and a variadic parameter
      is always optional. */
  type Parameter = p: RawParameter | (p.variadic ==> p.default.None? && p.optional)
    witness Parameter("", Untyped, None, false, false, None)

  /** What `ReflectionClass` knows about a class: whether it can be
      instantiated, and its constructor's parameters if it has a constructor. */
  datatype ClassInfo = ClassInfo(instantiable: bool, ctor: Option<seq<Parameter>>)

  /** A call into foreign code through `invokeArgs`. */
  datatype Invocation =
    | MethodCall(receiver: Value, member: string, args: seq<Value>)
    | FunctionCall(name: string, args: seq<Value>)

  datatype World = World(
    classes: map<string, ClassInfo>,                   // class_exists + ReflectionClass
    methods: map<(string, string), seq<Parameter>>,    // (class, method) -> signature
    functions: map<string, seq<Parameter>>,            // global functions
    closures: map<ClosureId, seq<Parameter>>,          // signatures of Closure objects
    make: FactoryId -> Value,                          // what a bound factory closure returns
    decorate: (DecoratorId, Value) -> Value,           // what an extend closure returns
    run: Invocation -> Value)                          // what an invoked method returns

  /** `method_exists($class, $member)` for a class name. */
  predicate HasMethod(w: World, cls: string, member: string) {
    (cls, member) in w.methods
  }

  /** `new ReflectionMethod($receiver, $member)`: the signature, or `None`
      where reflection throws. */
  function MethodSignature(w: World, receiver: Value, member: string): Option<seq<Parameter>> {
    match receiver
    case Instance(cls, _) =>
      if (cls, member) in w.methods then Some(w.methods[(cls, member)]) else None
    case Closure(id) =>
      if member == "__invoke" && id in w.closures then Some(w.closures[id]) else None
    case _ => None
  }

  /** `new ReflectionFunction($name)`. */
  function FunctionSignature(w: World, name: string): Option<seq<Parameter>> {
    if name in w.functions then Some(w.functions[name]) else None
  }
}
