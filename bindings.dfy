/** The binding registry shared by the container and the service providers
    that bind into it (src/Container.php, `bind`). */
module Bindings {
  import opened Values

  /** The concrete side of a binding: another alias (a class name or a logical
      name), or a factory closure. */
  datatype Concrete = Alias(name: string) | Factory(id: FactoryId)

  datatype Binding = Binding(concrete: Concrete, singleton: bool)

  /** One `bind($alias, $concrete, $singleton)` call, `$concrete` omitted when
      `concrete` is `None`. */
  datatype BindCall = BindCall(alias: string, concrete: Option<Concrete>, singleton: bool)

  type Registry = map<string, Binding>

  /** The entry `bind` stores: a missing concrete means the alias itself. */
  function Entry(call: BindCall): Binding {
    Binding(call.concrete.GetOr(Alias(call.alias)), call.singleton)
  }

  /** `bind`: store or replace the alias's whole entry. */
  function Bind(reg: Registry, call: BindCall): Registry {
    reg[call.alias := Entry(call)]
  }

  /** A sequence of `bind` calls made in order. */
  function BindAll(reg: Registry, calls: seq<BindCall>): Registry
    decreases |calls|
  {
    if calls == [] then reg else Bind(BindAll(reg, calls[..|calls| - 1]), calls[|calls| - 1])
  }

  /** Two runs of `bind` calls, one after the other, are one run. */
  lemma {:induction false} BindAllAppend(reg: Registry, first: seq<BindCall>, second: seq<BindCall>)
    ensures BindAll(BindAll(reg, first), second) == BindAll(reg, first + second)
    decreases |second|
  {
    if second == [] {
      assert first + second == first;
    } else {
      var n := |second| - 1;
      BindAllAppend(reg, first, second[..n]);
      assert (first + second)[..|first| + n] == first + second[..n];
    }
  }

  /** Index of the last call in `calls` that binds `alias`, if any. */
  function LastFor(calls: seq<BindCall>, alias: string): (r: Option<nat>)
    ensures r.Some? ==> r.value < |calls| && calls[r.value].alias == alias
    ensures r.Some? ==> forall j :: r.value < j < |calls| ==> calls[j].alias != alias
    ensures r.None? ==> forall j :: 0 <= j < |calls| ==> calls[j].alias != alias
    decreases |calls|
  {
    if calls == [] then None
    else if calls[|calls| - 1].alias == alias then Some(|calls| - 1)
    else LastFor(calls[..|calls| - 1], alias)
  }

  /** After a run of `bind` calls, an alias holds the entry of the last call
      that bound it, or its old entry when no call bound it. */
  lemma {:induction false} BindAllLastWins(reg: Registry, calls: seq<BindCall>, alias: string)
    ensures var r := BindAll(reg, calls);
      match LastFor(calls, alias)
      case Some(i) => alias in r && r[alias] == Entry(calls[i])
      case None => (alias in r <==> alias in reg) && (alias in reg ==> r[alias] == reg[alias])
    decreases |calls|
  {
    if calls != [] {
      BindAllLastWins(reg, calls[..|calls| - 1], alias);
    }
  }

  /** `bind` run in order never loses an alias, and adds exactly the aliases
      it binds. */
  lemma {:induction false} BindAllKeys(reg: Registry, calls: seq<BindCall>)
    ensures forall a :: a in BindAll(reg, calls) <==> a in reg || LastFor(calls, a).Some?
  {
    forall a ensures a in BindAll(reg, calls) <==> a in reg || LastFor(calls, a).Some? {
      BindAllLastWins(reg, calls, a);
    }
  }
}
