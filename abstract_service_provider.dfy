/** A service provider (src/AbstractServiceProvider.php).

    A provider is described by value: its class, the aliases it declares in
    `$provides`, whether it has a boot hook, and the `bind` calls its
    `register()` body makes on the container.  `instance` stands for the PHP
    object's identity: two distinct provider objects carry distinct tokens,
    so record equality is the identity that `in_array(..., true)` compares. */
module AbstractServiceProvider {
  import opened Bindings

  datatype ServiceProvider = ServiceProvider(
    instance: nat,
    cls: string,
    provided: seq<string>,   // the `$provides` list
    bootable: bool,
    registers: seq<BindCall>)
  {
    /** `name()`: the provider's class name (`get_class($this)`). */
    function Name(): string {
      cls
    }

    /** `provides($alias)`: strict membership in the `$provides` list. */
    predicate Provides(alias: string) {
      alias in provided
    }
  }

  /** A provider that keeps the default empty `$provides` list. */
  function WithoutProvides(instance: nat, cls: string, bootable: bool, registers: seq<BindCall>): (p: ServiceProvider)
    ensures forall alias :: !p.Provides(alias)
    ensures p.Name() == cls
  {
    ServiceProvider(instance, cls, [], bootable, registers)
  }
}
