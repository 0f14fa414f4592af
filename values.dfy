/** Values produced and consumed by the container, and its two error kinds.

    Everything the container hands out is a `Value`.  Objects the builder
    constructs carry their class name and the constructor arguments they were
    built from; everything produced by foreign code (factory closures,
    decorators, invoked methods, default values) is some other `Value`. */
module Values {

  /** Handles for closures registered with the container.  What calling them
      yields is given by the reflection table (`Reflection.World`). */
  type FactoryId = nat
  type DecoratorId = nat
  type ClosureId = nat

  datatype Value =
    | Instance(cls: string, args: seq<Value>)   // `new $cls(...$args)`
    | List(items: seq<Value>)                   // a PHP list (`is_array`)
    | Closure(id: ClosureId)                    // a Closure object
    | Scalar(token: int)                        // any other value

  /** Why a `ContainerException` was raised. */
  datatype Reason =
    | UnknownClass(name: string)            // class_exists fails
    | NotInstantiable(name: string)         // abstract, interface, non-public constructor
    | UnresolvableDependency(param: string) // a parameter no rule can satisfy
    | UnresolvableCallable                  // reflection of a callable failed
    | UnknownTag(tag: string)
    | NotProvided(alias: string)            // no service provider provides the alias
    | NoContainer                           // getContainer before setContainer
    | NotContainerAware                     // the holder lacks the aware interface

  datatype Error =
    | NotFound(id: string)          // NotFoundException
    | ContainerError(reason: Reason) // ContainerException
    | ReflectionFailure              // a ReflectionException nobody caught
    | Diverged                       // resolution did not bottom out (stack exhaustion)
  {
    /** True for the errors `get` catches (`ContainerExceptionInterface`,
        which `NotFoundExceptionInterface` extends). */
    predicate IsContainerException() {
      NotFound? || ContainerError?
    }
  }

  datatype Option<+T> = None | Some(value: T) {
    function GetOr(default: T): T {
      if Some? then value else default
    }
  }

  datatype Result<+T> = Ok(value: T) | Err(error: Error) {
    predicate IsFailure() {
      Err?
    }

    function PropagateFailure<U>(): Result<U>
      requires Err?
    {
      Err(error)
    }

    function Extract(): T
      requires Ok?
    {
      value
    }
  }

  /** The outcome of an operation that returns nothing of interest. */
  datatype Status = Pass | Fail(error: Error)
}
