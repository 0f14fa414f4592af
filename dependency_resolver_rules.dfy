/** The side-effect-free rules of the second resolver
    (src/DependencyResolver.php): its class-name rule, which maps `self` and
    `parent`, and its parameter priority as written, with the extra key check
    in the failure branch. */
module DependencyResolverRules {
  import opened Values
  import opened Reflection
  import opened Reflector

  /** `getParameterClassName`: like the builder's rule, but `self` names the
      declaring class and `parent` its parent class, when there is one. */
  function ResolverClassName(p: Parameter): (r: Option<string>)
    ensures r.Some? <==> ParameterClassName(p).Some?
    ensures r.Some? && p.declaring.Some? && p.ptype.name == "self" ==> r.value == p.declaring.value.name
    ensures r.Some? && p.declaring.Some? && p.ptype.name == "parent" && p.declaring.value.parent.Some?
      ==> r.value == p.declaring.value.parent.value
    ensures r.Some? && !(p.declaring.Some? && (p.ptype.name == "self" || (p.ptype.name == "parent" && p.declaring.value.parent.Some?)))
      ==> r == ParameterClassName(p)
  {
    match p.ptype
    case Named(name, builtin) =>
      if builtin then None
      else if p.declaring.Some? && name == "self" then Some(p.declaring.value.name)
      else if p.declaring.Some? && name == "parent" && p.declaring.value.parent.Some? then Some(p.declaring.value.parent.value)
      else Some(name)
    case _ => None
  }

  /** The two rules agree on every parameter whose declared type is neither
      `self` nor `parent`. */
  lemma ClassNamesAgree(p: Parameter)
    requires !(p.ptype.Named? && (p.ptype.name == "self" || p.ptype.name == "parent"))
    ensures ResolverClassName(p) == ParameterClassName(p)
  {
  }

  /** The priority of `resolveMethodDependencies` exactly as written: the
      failure branch checks the name key a second time. */
  function ChooseAsWritten(p: Parameter, cls: Option<string>, args: Args): Source {
    if HasKey(args, Name(p.name)) then ByName
    else if cls.Some? then
      if HasKey(args, Name(cls.value)) then ByClass(cls.value)
      else if p.variadic then Splice(cls.value)
      else Inject(cls.value)
    else if p.default.Some? then Default(p.default.value)
    else if !HasKey(args, Name(p.name)) && !p.optional then Unresolvable
    else Skip
  }

  /** The second check cannot fail where it stands, so the rule as written is
      the shared priority rule. */
  lemma ChooseAsWrittenIsChoose(p: Parameter, cls: Option<string>, args: Args)
    ensures ChooseAsWritten(p, cls, args) == Choose(p, cls, args)
  {
  }
}
