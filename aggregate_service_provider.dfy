/** The service-provider aggregate (src/AggregateServiceProvider.php): an
    ordered list of provider objects and the set of provider names whose
    `register()` has run.

    The calls the aggregate makes into provider code (`boot()` and
    `register()`) are recorded, in order, as `Hook`s; what `register()` does
    to the container is the provider's list of `bind` calls, which the
    container applies to itself for the providers `Register` reports. */
module Aggregate {
  import opened Values
  import opened AbstractServiceProvider
  import opened Sequences
  import ContainerAware

  datatype Hook = Booted(provider: ServiceProvider) | Registered(provider: ServiceProvider)

  /** The aggregate's state: `$providers`, the keys of `$registered`, and the
      hook calls made so far. */
  datatype Snapshot = Snapshot(providers: seq<ServiceProvider>, registered: set<string>, hooks: seq<Hook>)

  /** `provides($alias)`: some listed provider provides the alias. */
  predicate ProvidedBy(ps: seq<ServiceProvider>, alias: string) {
    exists i :: 0 <= i < |ps| && ps[i].Provides(alias)
  }

  /** `add($provider)`, given whether the aggregate's own container is set. */
  function AddProvider(s: Snapshot, p: ServiceProvider, containerSet: bool): (r: Result<Snapshot>)
    ensures p in s.providers ==> r == Ok(s)
    ensures p !in s.providers && !containerSet ==> r == Err(ContainerError(NoContainer))
    ensures p !in s.providers && containerSet ==>
      && r.Ok?
      && r.value.providers == s.providers + [p]
      && r.value.registered == s.registered
      && r.value.hooks == s.hooks + (if p.bootable then [Booted(p)] else [])
  {
    if p in s.providers then Ok(s)
    else if !containerSet then Err(ContainerError(NoContainer))
    else Ok(Snapshot(s.providers + [p], s.registered, s.hooks + if p.bootable then [Booted(p)] else []))
  }

  /** One provider's turn in `register`: mark its name, then run its
      `register()`. */
  function Invoke(s: Snapshot, p: ServiceProvider): Snapshot {
    Snapshot(s.providers, s.registered + {p.Name()}, s.hooks + [Registered(p)])
  }

  datatype Swept = Swept(after: Snapshot, invoked: seq<ServiceProvider>)

  /** The loop of `register($alias)` over `ps`: skip a provider whose name is
      marked; invoke one that provides the alias. */
  function Sweep(s: Snapshot, ps: seq<ServiceProvider>, alias: string): Swept
    decreases |ps|
  {
    if ps == [] then Swept(s, [])
    else
      var before := Sweep(s, ps[..|ps| - 1], alias);
      var p := ps[|ps| - 1];
      if p.Name() in before.after.registered || !p.Provides(alias) then before
      else Swept(Invoke(before.after, p), before.invoked + [p])
  }

  /** `register($alias)`: fails when no provider provides the alias; otherwise
      the sweep over all providers, reporting whose `register()` ran. */
  function RegisterAlias(s: Snapshot, alias: string): Result<Swept> {
    if !ProvidedBy(s.providers, alias) then Err(ContainerError(NotProvided(alias)))
    else Ok(Sweep(s, s.providers, alias))
  }

  function Names(ps: seq<ServiceProvider>): set<string>
    decreases |ps|
  {
    if ps == [] then {} else Names(ps[..|ps| - 1]) + {ps[|ps| - 1].Name()}
  }

  lemma {:induction false} NamesContains(ps: seq<ServiceProvider>)
    ensures forall i :: 0 <= i < |ps| ==> ps[i].Name() in Names(ps)
    decreases |ps|
  {
    if ps != [] {
      NamesContains(ps[..|ps| - 1]);
      forall i | 0 <= i < |ps| - 1 ensures ps[i].Name() in Names(ps) {
        assert ps[..|ps| - 1][i] == ps[i];
      }
    }
  }

  // ---- What one sweep does ----

  /** A sweep leaves the list alone and marks exactly the names of the
      providers it invokes. */
  lemma {:induction false} SweepMarks(s: Snapshot, ps: seq<ServiceProvider>, alias: string)
    ensures var sw := Sweep(s, ps, alias);
      sw.after.providers == s.providers && sw.after.registered == s.registered + Names(sw.invoked)
    decreases |ps|
  {
    if ps != [] {
      SweepMarks(s, ps[..|ps| - 1], alias);
      var before := Sweep(s, ps[..|ps| - 1], alias);
      var inv := before.invoked + [ps[|ps| - 1]];
      assert inv[..|inv| - 1] == before.invoked;
    }
  }

  /** The invoked providers come from `ps`, in the order of `ps`. */
  lemma {:induction false} SweepOrder(s: Snapshot, ps: seq<ServiceProvider>, alias: string)
    ensures Subsequence(Sweep(s, ps, alias).invoked, ps)
    decreases |ps|
  {
    if ps != [] {
      var n := |ps| - 1;
      SweepOrder(s, ps[..n], alias);
      var before := Sweep(s, ps[..n], alias);
      assert ps[..n] + [ps[n]] == ps;
      if Sweep(s, ps, alias) == before {
        SubsequenceExtend(before.invoked, ps[..n], ps[n]);
      } else {
        SubsequenceAppend(before.invoked, ps[..n], ps[n]);
      }
    }
  }

  /** No two providers in `ps` share a name. */
  ghost predicate DistinctNames(ps: seq<ServiceProvider>) {
    forall i, j :: 0 <= i < j < |ps| ==> ps[i].Name() != ps[j].Name()
  }

  /** Only providers of the alias whose name was not yet marked are invoked,
      and no two of them share a name. */
  lemma {:induction false} SweepInvokesFresh(s: Snapshot, ps: seq<ServiceProvider>, alias: string)
    ensures var inv := Sweep(s, ps, alias).invoked;
      && (forall i :: 0 <= i < |inv| ==> inv[i].Provides(alias) && inv[i].Name() !in s.registered)
      && DistinctNames(inv)
    decreases |ps|
  {
    if ps != [] {
      var n := |ps| - 1;
      SweepInvokesFresh(s, ps[..n], alias);
      var before := Sweep(s, ps[..n], alias);
      var p := ps[n];
      if p.Name() !in before.after.registered && p.Provides(alias) {
        SweepMarks(s, ps[..n], alias);
        NamesContains(before.invoked);
        var inv := before.invoked + [p];
        assert Sweep(s, ps, alias).invoked == inv;
        assert p.Name() !in s.registered;
        forall i | 0 <= i < |before.invoked|
          ensures inv[i] == before.invoked[i] && inv[i].Name() != p.Name()
        {
          assert before.invoked[i].Name() in Names(before.invoked);
        }
        forall i, j | 0 <= i < j < |inv| ensures inv[i].Name() != inv[j].Name() {
          if j < |before.invoked| {
            assert inv[i] == before.invoked[i] && inv[j] == before.invoked[j];
          }
        }
        assert DistinctNames(inv);
      } else {
        assert Sweep(s, ps, alias) == before;
      }
    }
  }

  /** After the sweep every provider of the alias in `ps` is marked. */
  lemma {:induction false} SweepCovers(s: Snapshot, ps: seq<ServiceProvider>, alias: string)
    ensures forall i :: 0 <= i < |ps| && ps[i].Provides(alias) ==> ps[i].Name() in Sweep(s, ps, alias).after.registered
    decreases |ps|
  {
    if ps != [] {
      var n := |ps| - 1;
      SweepCovers(s, ps[..n], alias);
      forall i | 0 <= i < n ensures ps[..n][i] == ps[i] { }
    }
  }

  /** A sweep over providers of the alias that are all marked invokes
      nothing. */
  lemma {:induction false} SweepNone(s: Snapshot, ps: seq<ServiceProvider>, alias: string)
    requires forall i :: 0 <= i < |ps| && ps[i].Provides(alias) ==> ps[i].Name() in s.registered
    ensures Sweep(s, ps, alias) == Swept(s, [])
    decreases |ps|
  {
    if ps != [] {
      var n := |ps| - 1;
      forall i | 0 <= i < n ensures ps[..n][i] == ps[i] { }
      SweepNone(s, ps[..n], alias);
    }
  }

  /** `register($alias)` a second time runs no provider's `register()`: the
      first one marked every provider of the alias. */
  lemma RegisterTwice(s: Snapshot, alias: string)
    requires ProvidedBy(s.providers, alias)
    ensures var after := RegisterAlias(s, alias).value.after;
      RegisterAlias(after, alias) == Ok(Swept(after, []))
  {
    SweepMarks(s, s.providers, alias);
    SweepCovers(s, s.providers, alias);
    SweepNone(Sweep(s, s.providers, alias).after, s.providers, alias);
  }

  /** Adding a provider a second time changes nothing: its `boot()` runs
      for the first `add` only. */
  lemma AddTwice(s: Snapshot, p: ServiceProvider)
    ensures AddProvider(s, p, true).Ok?
    ensures AddProvider(AddProvider(s, p, true).value, p, true) == AddProvider(s, p, true)
  {
    if p !in s.providers {
      var t := AddProvider(s, p, true).value;
      assert t.providers[|s.providers|] == p;
    }
  }

  // ---- The aggregate's lifetime invariant ----

  /** Each provider object is listed once (`in_array` guards `add`). */
  ghost predicate UniqueProviders(ps: seq<ServiceProvider>) {
    forall i, j :: 0 <= i < j < |ps| ==> ps[i] != ps[j]
  }

  /** `register()` ran at most once per provider name. */
  ghost predicate RegisteredOnce(hooks: seq<Hook>) {
    forall i, j :: 0 <= i < j < |hooks| && hooks[i].Registered? && hooks[j].Registered?
      ==> hooks[i].provider.Name() != hooks[j].provider.Name()
  }

  /** The marked names are exactly those whose `register()` ran. */
  ghost predicate MarksMatch(registered: set<string>, hooks: seq<Hook>) {
    forall n :: n in registered <==>
      exists i :: 0 <= i < |hooks| && hooks[i].Registered? && hooks[i].provider.Name() == n
  }

  /** Hooks run only on listed providers. */
  ghost predicate HooksListed(hooks: seq<Hook>, ps: seq<ServiceProvider>) {
    forall i :: 0 <= i < |hooks| ==> hooks[i].provider in ps
  }

  /** A listed provider was booted exactly once if bootable, never otherwise. */
  ghost predicate BootedOnce(ps: seq<ServiceProvider>, hooks: seq<Hook>) {
    forall p :: p in ps ==> multiset(hooks)[Booted(p)] == if p.bootable then 1 else 0
  }

  /** A bootable provider's `register()` ran after its `boot()`. */
  ghost predicate BootBeforeRegister(hooks: seq<Hook>) {
    forall j :: 0 <= j < |hooks| && hooks[j].Registered? && hooks[j].provider.bootable
      ==> Booted(hooks[j].provider) in hooks[..j]
  }

  ghost predicate Consistent(s: Snapshot) {
    && UniqueProviders(s.providers)
    && RegisteredOnce(s.hooks)
    && MarksMatch(s.registered, s.hooks)
    && HooksListed(s.hooks, s.providers)
    && BootedOnce(s.providers, s.hooks)
    && BootBeforeRegister(s.hooks)
  }

  lemma EmptyConsistent()
    ensures Consistent(Snapshot([], {}, []))
  {
  }

  lemma AddKeepsMarks(s: Snapshot, extra: seq<Hook>)
    requires MarksMatch(s.registered, s.hooks) && RegisteredOnce(s.hooks) && BootBeforeRegister(s.hooks)
    requires forall h :: h in extra ==> h.Booted?
    ensures var hs := s.hooks + extra;
      MarksMatch(s.registered, hs) && RegisteredOnce(hs) && BootBeforeRegister(hs)
  {
    var hs := s.hooks + extra;
    forall n | n in s.registered
      ensures exists i :: 0 <= i < |hs| && hs[i].Registered? && hs[i].provider.Name() == n
    {
      var i :| 0 <= i < |s.hooks| && s.hooks[i].Registered? && s.hooks[i].provider.Name() == n;
      assert hs[i] == s.hooks[i];
    }
    forall i | |s.hooks| <= i < |hs| ensures !hs[i].Registered? {
      assert hs[i] in extra;
    }
    forall i | 0 <= i < |s.hooks| ensures hs[i] == s.hooks[i] { }
    forall j | 0 <= j < |hs| && hs[j].Registered? && hs[j].provider.bootable
      ensures Booted(hs[j].provider) in hs[..j]
    {
      assert hs[..j] == s.hooks[..j];
    }
  }

  lemma AddKeepsBoots(s: Snapshot, p: ServiceProvider)
    requires BootedOnce(s.providers, s.hooks) && HooksListed(s.hooks, s.providers) && p !in s.providers
    ensures var hs := s.hooks + (if p.bootable then [Booted(p)] else []);
      BootedOnce(s.providers + [p], hs) && HooksListed(hs, s.providers + [p])
  {
    var extra := if p.bootable then [Booted(p)] else [];
    var hs := s.hooks + extra;
    assert multiset(hs) == multiset(s.hooks) + multiset(extra);
    assert Booted(p) !in s.hooks by {
      forall i | 0 <= i < |s.hooks| ensures s.hooks[i] != Booted(p) {
        assert s.hooks[i].provider in s.providers;
      }
    }
    forall i | 0 <= i < |hs| ensures hs[i].provider in s.providers + [p] {
      if i < |s.hooks| { assert hs[i] == s.hooks[i]; }
    }
  }

  /** `add` keeps the invariant: a repeated object is not booted again. */
  lemma AddKeepsConsistent(s: Snapshot, p: ServiceProvider, containerSet: bool)
    requires Consistent(s)
    ensures AddProvider(s, p, containerSet).Ok? ==> Consistent(AddProvider(s, p, containerSet).value)
  {
    if p !in s.providers && containerSet {
      AddKeepsMarks(s, if p.bootable then [Booted(p)] else []);
      AddKeepsBoots(s, p);
    }
  }

  lemma InvokeKeepsMarks(s: Snapshot, p: ServiceProvider)
    requires MarksMatch(s.registered, s.hooks) && RegisteredOnce(s.hooks) && p.Name() !in s.registered
    ensures var t := Invoke(s, p); MarksMatch(t.registered, t.hooks) && RegisteredOnce(t.hooks)
  {
    var t := Invoke(s, p);
    var last := |s.hooks|;
    assert t.hooks[last] == Registered(p);
    forall i | 0 <= i < last ensures t.hooks[i] == s.hooks[i] { }
  }

  lemma InvokeKeepsBoots(s: Snapshot, p: ServiceProvider)
    requires BootedOnce(s.providers, s.hooks) && HooksListed(s.hooks, s.providers)
    requires BootBeforeRegister(s.hooks) && p in s.providers
    ensures var t := Invoke(s, p);
      BootedOnce(t.providers, t.hooks) && HooksListed(t.hooks, t.providers) && BootBeforeRegister(t.hooks)
  {
    var t := Invoke(s, p);
    assert multiset(t.hooks) == multiset(s.hooks) + multiset{Registered(p)};
    forall i | 0 <= i < |s.hooks| ensures t.hooks[i] == s.hooks[i] { }
    forall j | 0 <= j < |t.hooks| && t.hooks[j].Registered? && t.hooks[j].provider.bootable
      ensures Booted(t.hooks[j].provider) in t.hooks[..j]
    {
      if j < |s.hooks| {
        assert t.hooks[..j] == s.hooks[..j];
      } else {
        assert multiset(s.hooks)[Booted(p)] == 1;
        assert t.hooks[..j] == s.hooks;
      }
    }
  }

  lemma InvokeKeepsConsistent(s: Snapshot, p: ServiceProvider)
    requires Consistent(s) && p in s.providers && p.Name() !in s.registered
    ensures Consistent(Invoke(s, p))
  {
    InvokeKeepsMarks(s, p);
    InvokeKeepsBoots(s, p);
  }

  lemma {:induction false} SweepKeepsConsistent(s: Snapshot, ps: seq<ServiceProvider>, alias: string)
    requires Consistent(s) && forall p :: p in ps ==> p in s.providers
    ensures Consistent(Sweep(s, ps, alias).after)
    decreases |ps|
  {
    if ps != [] {
      var n := |ps| - 1;
      assert forall p :: p in ps[..n] ==> p in ps;
      SweepKeepsConsistent(s, ps[..n], alias);
      SweepMarks(s, ps[..n], alias);
      var b := Sweep(s, ps[..n], alias).after;
      var p := ps[n];
      assert p in b.providers;
      if p.Name() !in b.registered && p.Provides(alias) {
        assert Sweep(s, ps, alias).after == Invoke(b, p);
        InvokeKeepsConsistent(b, p);
      } else {
        assert Sweep(s, ps, alias).after == b;
      }
    }
  }

  /** `register` keeps the invariant, so across any sequence of calls each
      provider name's `register()` runs at most once; and the marked names
      only grow. */
  lemma RegisterKeepsConsistent(s: Snapshot, alias: string)
    requires Consistent(s)
    ensures RegisterAlias(s, alias).Ok? ==>
      && Consistent(RegisterAlias(s, alias).value.after)
      && s.registered <= RegisterAlias(s, alias).value.after.registered
  {
    if RegisterAlias(s, alias).Ok? {
      SweepKeepsConsistent(s, s.providers, alias);
      SweepMarks(s, s.providers, alias);
    }
  }

  class AggregateServiceProvider<C> {
    /** The container slot of `ContainerAwareTrait`. */
    const holder: ContainerAware.Holder<C>
    var providers: seq<ServiceProvider>
    var registered: set<string>
    ghost var hooks: seq<Hook>

    ghost function Model(): Snapshot
      reads this
    {
      Snapshot(providers, registered, hooks)
    }

    ghost predicate Valid()
      reads this
    {
      Consistent(Model())
    }

    constructor ()
      ensures Model() == Snapshot([], {}, []) && Valid()
      ensures fresh(holder) && holder.container == None && holder.aware
    {
      holder := new ContainerAware.Holder(true);
      providers := [];
      registered := {};
      hooks := [];
      EmptyConsistent();
    }

    method Add(p: ServiceProvider) returns (status: Status)
      requires Valid()
      modifies this
      ensures Valid()
      ensures var r := AddProvider(old(Model()), p, holder.container.Some?);
        && (r.Ok? ==> status == Pass && Model() == r.value)
        && (r.Err? ==> status == Fail(r.error) && Model() == old(Model()))
    {
      AddKeepsConsistent(Model(), p, holder.container.Some?);
      if p in providers {
        return Pass;
      }
      // `$provider->setContainer($this->getContainer())`: every provider is
      // container-aware, so only reading our own slot can fail.
      var c := holder.GetContainer();
      if c.Err? {
        return Fail(c.error);
      }
      if p.bootable {
        hooks := hooks + [Booted(p)];
      }
      providers := providers + [p];
      return Pass;
    }

    method Provides(alias: string) returns (b: bool)
      ensures b == ProvidedBy(providers, alias)
    {
      for i := 0 to |providers|
        invariant forall j :: 0 <= j < i ==> !providers[j].Provides(alias)
      {
        if providers[i].Provides(alias) {
          return true;
        }
      }
      return false;
    }

    method Register(alias: string) returns (r: Result<seq<ServiceProvider>>)
      requires Valid()
      modifies this
      ensures Valid()
      ensures match RegisterAlias(old(Model()), alias)
        case Ok(sw) => r == Ok(sw.invoked) && Model() == sw.after
        case Err(e) => r == Err(e) && Model() == old(Model())
    {
      var provided := Provides(alias);
      if !provided {
        return Err(ContainerError(NotProvided(alias)));
      }
      var invoked := [];
      for i := 0 to |providers|
        invariant providers == old(providers)
        invariant Sweep(old(Model()), providers[..i], alias) == Swept(Model(), invoked)
      {
        assert providers[..i + 1][..i] == providers[..i];
        var p := providers[i];
        if p.Name() in registered {
          continue;
        }
        if p.Provides(alias) {
          registered := registered + {p.Name()};
          hooks := hooks + [Registered(p)];
          invoked := invoked + [p];
        }
      }
      assert providers[..|providers|] == providers;
      RegisterKeepsConsistent(old(Model()), alias);
      return Ok(invoked);
    }
  }
}
