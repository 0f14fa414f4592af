/** The memoising tag group (src/TagGenerator.php): like the plain one, except
    that the first `count()` with a callable overwrites the stored count with
    the callable's result. */
module TagGenerator {
  import Plain = UtilsTagGenerator

  class TagGenerator<G, !E> {
    const generator: G
    var count: Plain.CountSource<E>

    constructor (generator: G, count: Plain.CountSource<E>)
      ensures this.generator == generator && this.count == count
    {
      this.generator := generator;
      this.count := count;
    }

    /** The stored state, viewed as a plain (non-memoising) tag group. */
    function AsPlain(): Plain.TagGenerator<G, E>
      reads this
    {
      Plain.TagGenerator(generator, count)
    }

    /** `getIterator()`: runs the generator again on every call. */
    function GetIterator<T>(run: G -> T): (r: T)
      reads this
      ensures r == Plain.GetIterator(AsPlain(), run)
    {
      run(generator)
    }

    /** `count()`: the value the plain count gives for the state before the
        call, after which the field holds that value as an integer. */
    method Count(e: E) returns (r: int)
      modifies this
      ensures r == Plain.Count(old(AsPlain()), e)
      ensures count == Plain.Fixed(r)
    {
      if count.Deferred? {
        count := Plain.Fixed(count.eval(e));
      }
      return count.n;
    }
  }

  /** Counting twice gives the same integer, whatever the environment of the
      second call: the callable runs at most once. */
  method CountTwice<G, E>(t: TagGenerator<G, E>, e1: E, e2: E) returns (first: int, second: int)
    modifies t
    ensures first == second == Plain.Count(old(t.AsPlain()), e1)
    ensures t.count == Plain.Fixed(first)
  {
    first := t.Count(e1);
    second := t.Count(e2);
  }

  /** An integer count is returned as is and the field does not change. */
  method CountFixed<G, E>(t: TagGenerator<G, E>, e: E) returns (r: int)
    requires t.count.Fixed?
    modifies t
    ensures r == old(t.count.n) && t.count == old(t.count)
  {
    r := t.Count(e);
  }

  /** Counting never changes what iterating yields: `count()` writes only
      the count field, and the generator is fixed at construction (`const`),
      so a traversal after `count()` runs the same generator as one before
      it. */
  method CountKeepsIteration<G, E, T>(t: TagGenerator<G, E>, e: E, run: G -> T) returns (before: T, n: int, after: T)
    modifies t
    ensures before == after == run(t.generator)
    ensures n == Plain.Count(old(t.AsPlain()), e)
  {
    before := t.GetIterator(run);
    n := t.Count(e);
    after := t.GetIterator(run);
  }
}
