/** The container-aware holder (src/ContainerAwareTrait.php): one slot for a
    container, written by `setContainer` and read by `getContainer`.

    `aware` records whether the class using the trait implements
    `ContainerAwareInterface`; it is fixed for the object's lifetime. */
module ContainerAware {
  import opened Values

  class Holder<C> {
    var container: Option<C>
    const aware: bool

    constructor (aware: bool)
      ensures container == None && this.aware == aware
    {
      container := None;
      this.aware := aware;
    }

    /** The slot is assigned first; only then is the interface checked, so a
        holder without the interface keeps the container even though the
        call fails. */
    method SetContainer(c: C) returns (r: Result<Holder<C>>)
      modifies this
      ensures container == Some(c)
      ensures aware ==> r == Ok(this)
      ensures !aware ==> r == Err(ContainerError(NotContainerAware))
    {
      container := Some(c);
      if aware {
        return Ok(this);
      }
      return Err(ContainerError(NotContainerAware));
    }

    method GetContainer() returns (r: Result<C>)
      ensures container.Some? <==> r.Ok?
      ensures r.Ok? ==> r.value == container.value
      ensures r.Err? ==> r.error == ContainerError(NoContainer)
    {
      if container.Some? {
        return Ok(container.value);
      }
      return Err(ContainerError(NoContainer));
    }
  }

  /** Reading back: after `setContainer(c)` the holder yields `c`, and a later
      `setContainer(d)` replaces it. */
  method SetThenGet<C>(h: Holder<C>, c: C, d: C) returns (first: Result<C>, second: Result<C>)
    modifies h
    ensures first == Ok(c) && second == Ok(d)
    ensures h.container == Some(d)
  {
    var _ := h.SetContainer(c);
    first := h.GetContainer();
    var _ := h.SetContainer(d);
    second := h.GetContainer();
  }
}
