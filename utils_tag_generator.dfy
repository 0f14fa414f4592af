/** The tag group handed out by `tagged` (src/Utils/TagGenerator.php): a
    generator closure and a count that is either a fixed integer or a
    callable.  Both are fixed at construction; nothing is cached. */
module UtilsTagGenerator {

  /** `callable|int $count`.  A callable count may read any state, so it is
      a function of the environment `E` it is evaluated in. */
  datatype CountSource<!E> = Fixed(n: int) | Deferred(eval: E -> int)

  /** `generator` names the closure: running it is the caller's business
      (for the container, it resolves the tag's aliases afresh). */
  datatype TagGenerator<G, !E> = TagGenerator(generator: G, count: CountSource<E>)

  /** `getIterator()`: each call runs the stored generator again. */
  function GetIterator<G, E, T>(g: TagGenerator<G, E>, run: G -> T): (r: T)
    ensures r == run(g.generator)
  {
    run(g.generator)
  }

  /** `count()` in the environment `e`: an integer verbatim, a callable
      evaluated now. */
  function Count<G, E>(g: TagGenerator<G, E>, e: E): (r: int)
    ensures g.count.Fixed? ==> r == g.count.n
    ensures g.count.Deferred? ==> r == g.count.eval(e)
  {
    match g.count
    case Fixed(n) => n
    case Deferred(eval) => eval(e)
  }
}
