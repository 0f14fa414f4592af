# A verified model of the zaphyr-org/container dependency-injection container

The container hands out values by alias. Each alias has a **binding**: a concrete (another alias or a factory closure) and a singleton ("shared") flag. It also keeps a **singleton cache**, a **decorator queue** filled by `extend`, and **tags**, which name ordered alias lists. An **aggregate of service providers** registers providers on demand.

`resolve(alias)` runs these steps, in this order:

1. Return the cached value if there is one.
2. Let the providers that provide the alias register their bindings.
3. Look up the concrete, where an unbound alias stands for itself.
4. Build the concrete (a factory, or the class by reflection) or resolve it as another alias.
5. Apply the alias's decorators in order.
6. Cache the result when the alias is bound shared.

`get` wraps `resolve`. When the failure is a container error and the id is neither bound nor provided, it reports `NotFound`.

The reflective builder (`Utils\Reflector`) fills constructor and callable parameters by fixed priority rules. `DependencyResolver` is a second resolver with the same rules. It asks `resolve` rather than `get`, maps `self` and `parent` type names, and lets reflection failures through. Tag groups are restartable sequences with a count that is fixed or deferred; one variant memoises the deferred count. A container-aware holder stores the container.

How the model is laid out:

- **Functional specification.** The container's state is the value `Resolution.State`. Every operation is a function of that state, in module `Resolution`.
- **Imperative classes.** `Container.Container`, `Aggregate.AggregateServiceProvider`, `ContainerAware.Holder` and `TagGenerator.TagGenerator` hold the state in fields the methods update. Each method's `ensures` states that its result and new state equal what those functions give for the old state.
- **Property modules.** `ContainerProperties`, `Fuel`, `Replay`, `TagProperties` and `ArgumentProperties` prove properties of the functions.
- **Reflection.** Reflection is an input table, `Reflection.World`: classes, whether each can be instantiated, and the signatures of constructors, methods, functions and closures. Factories, decorators and invoked methods are the uninterpreted functions `make`, `decorate` and `run` of that table.
- **Fuel.** The source's recursion has no cycle check. The model bounds it by `fuel`, the number of nested `resolve` calls still allowed, and running out is the error `Diverged`. Module `Fuel` proves that any result other than `Diverged` is the same for every larger bound. Every property of a finished resolution therefore holds of the unbounded recursion.

Where the standard interface and the implementation disagree, the model follows the implementation:

- `src/Contracts/ContainerInterface.php` names the flag `shared`, the predicate `isShared`, and declares `resolve` public.
- `src/Container.php` uses `$singleton`, `isSingleton`, and a protected `resolve`.

The model has one flag, and `isShared` and `isSingleton` are the same predicate (`Resolution.IsShared`). `DependencyResolver::call` calls `$container->resolve` from outside the class. The model lets it do so, as the interface declares.

An unbound, unprovided id is not always reported as `NotFound`. Autowiring builds any existing, instantiable class. `NotFound` arises only when resolution fails with a container error, as `get` is written.

## Model

| member | source | states |
|---|---|---|
| Bindings.BindAllLastWins | src/Container.php:62-66 | After a run of `bind` calls, an alias holds the entry of the last call that bound it. That entry has the concrete defaulting to the alias itself, and the singleton flag replaced together with it. An alias no call bound keeps its old entry, or stays unbound. |
| Bindings.BindAllKeys | src/Container.php:62-66 | `bind` never loses an alias. The bound aliases afterwards are the old ones plus those some call bound. |
| Bindings.BindAllAppend | src/Container.php:62-66 | Two runs of `bind` calls, one after the other, leave the same registry as the single run of all the calls. |
| Container.Container.constructor | src/Container.php:53-57 | A new container has empty maps and a fresh aggregate, and the aggregate holds this container. |
| Container.Container.Bind | src/Container.php:62-69 | Stores the alias's whole entry, with the alias itself as the concrete when none is given. Keeps the aggregate invariant. |
| Container.Container.BindSingleton | src/Container.php:74-77 | `bind` with the flag set. |
| Container.Container.BindInstance | src/Container.php:82-87 | Accepts only an object or a closure, as the `object` parameter type demands. Writes the cache entry directly and leaves the bindings alone. |
| Container.Container.Get | src/Container.php:98-113 | Result and new state are `Resolution.Get` of the old state. That is `resolve`'s outcome, with a container error replaced by `NotFound(id)` when the id is then neither bound nor provided. |
| Container.Container.Resolve | src/Container.php:121-146 | Result and new state are `Resolution.Resolve` of the old state: cache, provider step, concrete, build or recurse, decorators in order, then the cache write for a shared alias. |
| Container.Container.Lookahead | src/Container.php:127-129 | When some provider provides the alias, the aggregate registers it and the invoked providers' `bind` calls are applied in order. Otherwise nothing changes. |
| Container.Container.RunRegisters | src/AggregateServiceProvider.php:72-81 | Runs the `register()` bodies of the invoked providers in the order they were invoked. The new bindings are their `bind` calls applied in that order, and nothing else changes. |
| Container.Container.RunRegister | src/AggregateServiceProvider.php:79 | One provider's `register()` body: its `bind` calls, in order, with nothing else changed. |
| Container.Container.Has | src/Container.php:151-154 | True exactly when the id is bound or some listed provider provides it. |
| Container.Container.IsSingleton | src/Container.php:159-162 | True exactly when the alias is bound with the flag set. |
| Container.Container.Build | src/Container.php:195-202 | A factory yields `make(id)` with no state change. A class name is built by the reflective builder. |
| Container.Container.Call | src/Utils/Reflector.php:152-185 | Result and new state are `Resolution.Call` in the builder dialect: the callable is normalised step by step, a class-name target is fetched with `get`, the arguments are gathered, and the call is made. A reflection failure is the container error `UnresolvableCallable`. |
| Container.Container.Tag | src/Container.php:215-228 | The new tags are `Resolution.TagAll` of the old ones. The nested loops append every alias to every named tag. |
| Container.Container.AppendToTag | src/Container.php:218-224 | For one tag name, creates a missing tag, then appends the aliases in order. Every other tag and all other state are unchanged. |
| Container.Container.Tagged | src/Container.php:233-244 | For an unknown tag, fails with `UnknownTag`. Otherwise returns a group over the tag whose count is fixed at the tag's current length. |
| Container.Container.Traverse | src/Container.php:239-243 | Result and new state are `Resolution.Traverse` of the old state: `getIterator` runs the group's generator again, which reads the tag when the traversal starts and resolves its first `k` aliases. |
| Container.Container.ResolveAll | src/Container.php:240-242 | Result and new state are `Resolution.ResolveEach` of the old state: the aliases are resolved one by one, and the first failure ends the loop. |
| Container.Container.Extend | src/Container.php:249-258 | A cached alias gets its cached value decorated and nothing queued. Otherwise the decorator is appended to the alias's queue. |
| Container.Container.RegisterServiceProvider | src/Container.php:263-268 | Adds the provider to the aggregate. This never fails, because the aggregate always holds this container. |
| Container.Container.ReflectBuild | src/Utils/Reflector.php:31-57 | Fails for an unknown class and for one that cannot be instantiated. A class without a constructor is built with no arguments. Otherwise the constructor arguments are resolved first. |
| Container.Container.ResolveConstructorDependencies | src/Utils/Reflector.php:66-83 | Result and new state are `Resolution.CtorDeps`. Each parameter contributes its value, and a variadic one splices its list; the loop stops at the first failure. |
| Container.Container.ResolveClass | src/Utils/Reflector.php:114-126 | Refuses a class-less or variadic parameter. Otherwise returns `get` of the class. |
| Container.Container.ResolveMethodDependencies | src/Utils/Reflector.php:195-236 | Result and new state are `Resolution.MethodArguments` in the builder dialect: the parameters are filled in priority order and consumed keys are removed. The unused explicit arguments follow in order. |
| Reflector.Remove | src/Utils/Reflector.php:206-214 | `unset` removes the key and keeps every other key present or absent as before. |
| Reflector.WithoutWithout | src/Utils/Reflector.php:206-214 | Removing keys one after another is removing them all at once. |
| Reflector.WithoutIsSubsequence | src/Utils/Reflector.php:235 | What is left after removing keys keeps its original order. |
| Reflector.Choose | src/Utils/Reflector.php:206-232 | The source of a parameter's argument, as an if-and-only-if for each rung: the name key, then the class-name key, then a variadic splice or the container, then the default, then failure exactly for a required parameter. |
| Reflector.ChooseIgnoresPositional | src/Utils/Reflector.php:206-211 | Appending a positional argument never changes a parameter's source. |
| Reflector.ImplodeExplode | src/Utils/Reflector.php:155-156 | Joining the pieces of `explode('::', s)` with `::` gives back `s`. |
| Reflector.ExplodeSplits | src/Utils/Reflector.php:155-156 | A string splits into two or more pieces exactly when it contains `::`. |
| Reflector.ExplodeStatic | src/Utils/Reflector.php:155-156 | `"C::m"` explodes into exactly `C` and `m`. |
| Reflector.NormaliseStatic | src/Utils/Reflector.php:154-157 | `"C::m"` is called as method `m` on what the container yields for `C`. |
| DependencyResolverRules.ResolverClassName | src/DependencyResolver.php:20-44 | Absent exactly when the builder's rule gives none. `self` maps to the declaring class, and `parent` to the parent class when there is one. Otherwise it is the declared name. |
| DependencyResolverRules.ClassNamesAgree | src/DependencyResolver.php:20-44 | For any type other than `self` and `parent`, both resolvers assign the same class name. |
| DependencyResolverRules.ChooseAsWrittenIsChoose | src/DependencyResolver.php:88-114 | The extra name-key check before the failure always holds where it stands, so the rule as written is the shared priority rule. |
| DependencyResolver.Call | src/DependencyResolver.php:46-78 | Result and new state are `Resolution.Call` in the resolver dialect: a class-name target is fetched with `resolve`, an object is dispatched to `__invoke`, and a reflection failure surfaces unwrapped. |
| DependencyResolver.ResolveMethodDependencies | src/DependencyResolver.php:80-118 | Result and new state are `Resolution.MethodArguments` in the resolver dialect. The branches are written as in the source. |
| AbstractServiceProvider.WithoutProvides | src/AbstractServiceProvider.php:19-35 | A provider with the default empty list provides no alias. |
| Aggregate.AddTwice | src/AggregateServiceProvider.php:32-46 | With the container set, `add` succeeds, and adding the same provider again changes nothing, so its `boot()` runs once. |
| Aggregate.SweepMarks | src/AggregateServiceProvider.php:72-81 | The sweep keeps the provider list. It adds exactly the names of the providers it invoked to the registered set. |
| Aggregate.SweepOrder | src/AggregateServiceProvider.php:72-81 | Providers are invoked in list order: the invoked ones form a subsequence of the list. |
| Aggregate.SweepInvokesFresh | src/AggregateServiceProvider.php:73-79 | Every invoked provider provides the alias and had an unmarked name, and no two invoked providers share a name. |
| Aggregate.SweepCovers | src/AggregateServiceProvider.php:72-81 | After the sweep, every listed provider that provides the alias has its name marked. |
| Aggregate.SweepNone | src/AggregateServiceProvider.php:73-77 | A sweep in which every provider of the alias is already marked invokes nobody and changes nothing. |
| Aggregate.RegisterTwice | src/AggregateServiceProvider.php:66-81 | A second `register` of the same alias runs no provider's `register()` and changes nothing. |
| Aggregate.AddKeepsConsistent | src/AggregateServiceProvider.php:32-46 | `add` keeps the lifetime invariant: each listed provider was booted exactly once if bootable and never otherwise, and before any `register()` of it. |
| Aggregate.RegisterKeepsConsistent | src/AggregateServiceProvider.php:66-81 | `register` keeps the invariant, so across any sequence of calls `register()` runs at most once per provider name. The registered names only grow. |
| Aggregate.AggregateServiceProvider.Add | src/AggregateServiceProvider.php:32-46 | The new state is `Aggregate.AddProvider` of the old one, and a failure changes nothing. The invariant is kept. |
| Aggregate.AggregateServiceProvider.Provides | src/AggregateServiceProvider.php:52-61 | True exactly when some listed provider provides the alias. |
| Aggregate.AggregateServiceProvider.Register | src/AggregateServiceProvider.php:66-81 | Fails with `NotProvided`, changing nothing, when no provider provides the alias. Otherwise the new state and the invoked providers are those of the sweep over the list. The invariant is kept. |
| ContainerAware.Holder.constructor | src/ContainerAwareTrait.php:19 | A holder starts with no container. |
| ContainerAware.Holder.SetContainer | src/ContainerAwareTrait.php:27-38 | The slot is assigned first. The call then returns the holder when it is aware, and otherwise fails with `NotContainerAware` while keeping the container. |
| ContainerAware.Holder.GetContainer | src/ContainerAwareTrait.php:45-52 | Succeeds exactly when a container is set, returning it. Otherwise it fails with `NoContainer`. |
| ContainerAware.SetThenGet | src/ContainerAwareTrait.php:27-52 | The read after `setContainer(c)` returns `c`, and the read after a later `setContainer(d)` returns `d`, whether or not the holder is aware. |
| TagGenerator.TagGenerator.constructor | src/TagGenerator.php:21-25 | Stores the generator and the count unchanged. |
| TagGenerator.TagGenerator.Count | src/TagGenerator.php:32-39 | Returns what the plain count gives for the state before the call. Afterwards the field holds that integer. |
| TagGenerator.CountTwice | src/TagGenerator.php:32-39 | Two counts give the same integer, whatever the second call's environment: the callable runs at most once. |
| TagGenerator.CountKeepsIteration | src/TagGenerator.php:27-39 | Iterating before and after `count()` runs the same generator: memoising the count never changes what a traversal yields. This follows from `count()` writing only the count, with the generator fixed at construction. |
| TagGenerator.CountFixed | src/TagGenerator.php:32-39 | An integer count is returned, and the field is left unchanged. |
| Resolution.Lookahead | src/Container.php:127-129 | Unchanged when no provider provides the alias. Otherwise the aggregate's sweep leads to the new aggregate state, and the invoked providers' bindings are applied. The cache, tags and decorators never change. |
| Resolution.CtorDepsStopsAtError | src/Utils/Reflector.php:70-80 | Once a constructor parameter fails, the later ones are not resolved, and the state is the one at the failure. |
| Resolution.MethodDepsStopsAtError | src/Utils/Reflector.php:202-232 | Once a callable parameter fails, the later ones are not looked at. |
| Resolution.ResolveEachStopsAtError | src/Container.php:240-242 | A traversal stops at the first alias that fails. |
| ContainerProperties.ResolveEvolves | src/Container.php:121-146 | Tags, queues and the provider list stay put. Registered names and bound aliases only grow, and the aggregate invariant is kept, so a provider registers at most once. No cache entry is dropped or replaced. A new cache entry is for a bound alias; with no providers, it is for one bound shared, and the bindings are unchanged. |
| ContainerProperties.GetEvolves | src/Container.php:98-113 | `get` changes the state only as resolution does. |
| ContainerProperties.CtorDepsEvolves | src/Utils/Reflector.php:66-83 | Constructor resolution changes the state only as resolution does. |
| ContainerProperties.BuildEvolves | src/Container.php:195-202 | Building changes the state only as resolution does. |
| ContainerProperties.MethodDepsEvolves | src/Utils/Reflector.php:195-236 | Gathering a callable's arguments changes the state only as resolution does. |
| ContainerProperties.CallEvolves | src/Container.php:207-210 | A call, with either resolver, changes the state only as resolution does. |
| ContainerProperties.ResolveEachEvolves | src/Container.php:239-243 | A traversal changes the state only as resolution does. |
| ContainerProperties.ResolveCached | src/Container.php:123-125 | A cached alias is returned at once: no provider, builder or decorator runs, and nothing changes. |
| ContainerProperties.SharedStaysCached | src/Container.php:141-143 | After a successful resolution of an alias that is bound shared, its value is cached. Resolving it again, with any fuel, returns the same value and changes nothing. |
| ContainerProperties.UnboundBuildsItself | src/Container.php:131-133 | With no providers and no queue, an unbound alias is built as its own class, and nothing is cached. |
| ContainerProperties.UnknownIsNotFound | src/Container.php:98-113 | An alias that is not bound, not provided and not a class makes `get` fail with `NotFound`, changing nothing. |
| ContainerProperties.AliasChain | src/Container.php:131-143 | An alias bound to another name resolves as that name, with its own decorators and its own cache write. A failure of the target is passed on unchanged. |
| ContainerProperties.FactoryBinding | src/Container.php:131-143 | A factory binding yields the factory's value through the alias's decorators. The value is cached exactly when the binding is shared. |
| ContainerProperties.ProviderBindingVisible | src/Container.php:127-133 | For an uncached alias that any of the listed providers provides: after the provider step the alias holds the last binding the invoked providers made for it, or its old entry when they made none. `resolve` gives exactly what a resolution from the registered state gives. Afterwards every provider of the alias is marked, so the provider step of a later resolution changes nothing. |
| ContainerProperties.DecorateAppend | src/Container.php:135-139 | Applying a concatenated queue is applying each part in turn. |
| ContainerProperties.ExtendBeforeBind | src/Container.php:249-255 | A decorator queued before the binding exists still applies, as the last one, to the factory's value. |
| ContainerProperties.ExtendCached | src/Container.php:249-253 | Extending a cached alias queues nothing, and the next resolution returns the decorated cached value. |
| ContainerProperties.CtorDepsShape | src/Utils/Reflector.php:68-82 | A successful constructor resolution has exactly one argument per non-variadic parameter. A class-typed variadic parameter never succeeds. |
| ContainerProperties.BuildShape | src/Utils/Reflector.php:31-57 | Unknown and non-instantiable classes fail with the state unchanged, and a class without a constructor gets no arguments. A built object carries its class and one argument per non-variadic constructor parameter. |
| Replay.ResolveReplay | src/Container.php:121-146 | After a successful resolution, a resolution from any later state with no providers, the same bindings and queues, and at least the first one's cache entries gives the same value and leaves that state unchanged. With at least as much fuel, a shared alias comes from the cache and an unshared one is rebuilt. |
| Replay.GetReplay | src/Container.php:98-113 | The same for `get`. |
| Replay.CtorDepsReplay | src/Utils/Reflector.php:66-83 | The same for constructor arguments. |
| Replay.BuildReplay | src/Container.php:195-202 | The same for building. |
| Replay.ResolveEachReplay | src/Container.php:240-242 | The same for resolving a list of aliases one after another. |
| Fuel.ResolveMoreFuel | src/Container.php:121-146 | A resolution that does not run out gives the same result and state with any larger bound. |
| Fuel.GetMoreFuel | src/Container.php:98-113 | The same for `get`. |
| Fuel.CtorDepsMoreFuel | src/Utils/Reflector.php:66-83 | The same for constructor arguments. |
| Fuel.BuildMoreFuel | src/Container.php:195-202 | The same for building. |
| Fuel.MethodDepsMoreFuel | src/Utils/Reflector.php:195-236 | The same for a callable's arguments. |
| Fuel.CallMoreFuel | src/Container.php:207-210 | The same for a call. |
| Fuel.ResolveEachMoreFuel | src/Container.php:239-243 | The same for a traversal. |
| TagProperties.TagAllContents | src/Container.php:215-228 | After `tag(aliases, names)`, a tag holds its old aliases followed by the aliases in order, repeated as many times as the tag is named. Duplicates are kept. |
| TagProperties.TagAllKeys | src/Container.php:217-221 | The tags defined afterwards are the old ones and the named ones. |
| TagProperties.CountFixedTraversalLive | src/Container.php:239-243 | A group's count is the tag's length when `tagged` was called. A traversal started after more aliases were tagged visits them too. |
| TagProperties.ResolveEachCaches | src/Container.php:141-143 | Resolving shared aliases, with no providers, leaves each one cached with the value it yielded. |
| TagProperties.ResolveEachCached | src/Container.php:123-125 | Cached aliases resolve to their cached values with no change. |
| TagProperties.TraverseTwice | src/Container.php:239-243 | A group is restartable: with no providers, a second traversal through `getIterator` yields the same values as the first and leaves the state unchanged, whether the aliases are shared, unshared or unbound. |
| ArgumentProperties.PositionalIgnored | src/Utils/Reflector.php:206-235 | A positional argument never satisfies a parameter. Appending one changes neither the gathered arguments nor the state; it only joins the end of the leftovers. |
| ArgumentProperties.LeftoversAreUnconsumed | src/Utils/Reflector.php:206-214 | The leftovers are the explicit arguments minus the name keys the parameters consumed. |
| ArgumentProperties.LeftoversInOrder | src/Utils/Reflector.php:235 | The leftovers keep their original order, every positional argument is among them, and they follow the gathered arguments in the result. |
| ArgumentProperties.PositionalOnly | src/Utils/Reflector.php:206-235 | With only positional arguments, the gathering goes as with none: the same error or the same arguments, and the same state. All the positional arguments then follow, in their order. |

## Left out

- Reflection itself (`ReflectionClass`, `ReflectionMethod`, `ReflectionParameter`) is an input table. `newInstanceArgs` and `invokeArgs` always succeed: a built object is `Instance(class, arguments)`, and an invoked method yields the table's `run`.
- Factories, decorators and invoked methods are uninterpreted functions of the table. They cannot call back into the container, although in PHP they receive it and may.
- A provider's `register()` body is the list of `bind` calls it makes. The calls are applied after the aggregate's sweep, in the order the providers were invoked. Nothing else a `register()` body could do is modelled.
- `isset` treats a `null` cache entry as missing and a `null` binding as unbound; the model has no `null` values. When `$extends` has entries but none for the alias, PHP raises a warning; the model uses an empty queue.
- Values are compared by value. Object identity and decorators that mutate a shared object in place are not modelled.
- Providers are compared as whole records where `in_array(..., true)` compares object identity. Two distinct provider objects are expected to carry distinct `instance` tokens, so they never compare equal; a provider's fields do not change, so one object is always the same record.
- Generator laziness: consuming the first `k` elements of a tag group is resolving that prefix. The tag list is read when the traversal starts.
- Whether a provider is bootable is a boolean of the provider, whatever interfaces its class implements.
- Exception messages, codes and chaining are left out. So is the error that `$parameter->getDeclaringClass()` raises for a function's parameter when the failure message is built. Errors are the constructors of `Values.Error`.
- `Container.Container.constructor`: a caller-supplied aggregate is not modelled. The container always creates the default one.
- Aggregate.AggregateServiceProvider.Add: the `setContainer` call on the added provider is not modelled; providers hold no container of their own. Only reading the aggregate's own slot can fail.
- A call target that is neither a string nor an object makes reflection fail. PHP raises a type error there instead.
- Container.Container.Call: the builder's `call` is declared for strings, arrays and closures. A non-closure object argument is excluded by a precondition.
- `tag` with a single string instead of an array is the one-element list.
- Non-termination: unbounded recursion ends in `Diverged` when the fuel runs out, where PHP would exhaust its stack.
- Explicit arguments (`Reflector.Args`) are a sequence of key/value pairs. Unique keys are not enforced; every lookup takes the first entry for a key, and `unset` removes every entry for it.
- PHP arrays are sequences or maps: there is no copy-on-write or reference semantics.
- Contract interfaces and exception classes are not part of this model beyond the error kinds they define.
- Concurrency: the container is single-threaded.
