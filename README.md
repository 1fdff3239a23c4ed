# Component constructors and instance initialisation (Vue 2 core)

This project models how the framework derives component constructors and
initialises component instances:

- `Vue.extend` (`src/core/global-api/extend.js`):
  - the cid counter, with the root constructor at cid 0;
  - the `_Ctor` cache that the call stores on the extension descriptor, keyed by the parent's cid;
  - the merge of the parent's options with the descriptor;
  - the per-key prop and computed installers;
  - sharing the global API with the parent;
  - self-registration in the subclass's own `components` registry;
  - the three snapshots `superOptions`, `extendOptions` and `sealedOptions`.
- `_init`, `initInternalComponent`, `resolveConstructorOptions` and
  `resolveModifiedOptions` (`src/core/instance/init.js`):
  - the instance uid counter;
  - the choice between the internal fast path and the general merge path;
  - the fixed order of the initialisation calls, with the mount last;
  - the lazy re-resolution of a constructor's options when an ancestor's options object was replaced, with late edits folded into the descriptor.

Layout:

- `values.dfy` (module `Values`):
  - JavaScript values;
  - plain objects: class `Obj` for objects the core mutates, class `Options` for options objects;
  - constructors (class `Ctor`) and instances (class `Component`);
  - the process-wide state (class `Runtime`): the cid and uid counters, the number of merges performed, and the trace of collaborator calls.
- `merge.dfy` (module `Merge`): stand-ins for the collaborators the core calls but does not define. These are `mergeOptions`, the shallow copy `extend({}, o)` and the property copy `extend(to, from)`.
- `extend.dfy` (module `Extend`): `Vue.extend`, `initProps` and `initComputed`.
- `init.dfy` (module `Init`): `_init`, `initInternalComponent`, `resolveConstructorOptions` and `resolveModifiedOptions`.

How the model maps the source:

- Object identity (`===` on objects) is reference equality of Dafny objects. A plain object the core only reads is a `Dict` value that carries an identity of its own, so two distinct objects with equal contents are different values.
- An options object's own properties are fixed once it is built; the only thing that changes is the registry it holds under `components`. An options object is therefore a class with `const` fields. Its change is modelled by reassigning `Ctor.options`, which is how `Vue.mixin` does it.
- The `_Ctor` cache is a field of the descriptor object, so the merge never sees it.
- The extension descriptor is a mutable object (class `Obj`) that may have a prototype. Reading `extendOptions.name` and the merge's `for ... in` over the descriptor see its own properties together with the ones it inherits (`Enumerable`); an own property shadows an inherited one.
- The merge stand-in implements the default strategy for every option group: the child's value wins unless it is undefined. For `components` it implements the asset strategy: a fresh registry whose prototype is the parent's registry, holding the child's entries. Those are every property `for ... in` visits on the child's registry, including the ones it inherits.
- Every collaborator call whose order the core fixes is appended to `Runtime.trace`. These are name validation, proxy setup, the `init*` functions, `callHook` and `$mount`.

## Model

| member | source | states |
|---|---|---|
| Values.Runtime.constructor | src/core/global-api/extend.js:13-14 | the root constructor has cid 0, no parent and is well formed; the cid counter starts at 1, the uid counter at 0, with no merges and no calls; the root options must carry the global `components` registry object |
| Merge.MergeOptions | src/core/global-api/extend.js:45-48 | the result is a fresh options object without prototype; every option group is merged by the default strategy; `components` is a fresh registry that delegates to the parent's registry and holds the child's entries, inherited ones included; one merge is counted |
| Merge.MergedFieldsMeaning | src/core/global-api/extend.js:45-48 | the merged options hold exactly the option groups of parent and child; a group the child defines wins; any other group comes from the parent |
| Merge.ShallowCopy | src/core/global-api/extend.js:84 | the sealed copy is a distinct fresh object with the same own properties and no prototype |
| Merge.Assign | src/core/instance/init.js:118 | after the key-by-key copy, the descriptor's properties are `Assigned(old, modified)` |
| Merge.AssignedMeaning | src/core/instance/init.js:118 | after the copy: keys of both maps, the copied value wins, the others are kept; copying an empty map changes nothing |
| Extend.EffectiveName | src/core/global-api/extend.js:30 | the name is the descriptor's name when that is truthy, else the parent's name; it is truthy iff one of the two is |
| Extend.NameCheck | src/core/global-api/extend.js:32-34 | exactly one validation call, carrying the name, iff the name is truthy |
| Extend.CheckName | src/core/global-api/extend.js:32-34 | the trace grows by exactly `NameCheck(name)` |
| Extend.InitProps | src/core/global-api/extend.js:93-98 | the loop appends one prop proxy per key of `options.props`, no key twice, and keeps earlier installs |
| Extend.InitComputed | src/core/global-api/extend.js:100-105 | the loop appends one computed getter per key of `options.computed`, carrying that key's definition, no key twice |
| Extend.DistinctKeysBounded | src/core/global-api/extend.js:95-97 | pairwise distinct keys drawn from a set are at most as many as the set |
| Extend.EveryKeyInstalled | src/core/global-api/extend.js:95-97 | with one install per key and no key twice, every key of the option group is installed (exactly once) |
| Extend.InstallAccessors | src/core/global-api/extend.js:55-61 | a new subclass's prototype carries the prop proxies, then the computed getters, once per key and nothing else |
| Extend.Registered | src/core/global-api/extend.js:73-75 | a truthy name maps to the subclass in the registry; every other entry is kept; no other key appears |
| Extend.SelfRegister | src/core/global-api/extend.js:73-75 | the registry object becomes `Registered(old registry, name, sub)` |
| Extend.NewSubclass | src/core/global-api/extend.js:36-87 | a fresh subclass. Its cid is the counter value and the counter increments. Its options are merged from the parent's options and the descriptor's own and inherited properties. `super` is the parent, `superOptions` is the parent's options object, `extendOptions` is the descriptor. The sealed copy is a distinct object with the same properties. It shares the parent's global API. Props and computed accessors are installed. Its fresh registry holds the entries of the descriptor's `components` (read through the descriptor's prototype, inherited entries included) and the subclass itself under the name. The descriptor's cache gains exactly `sup.cid -> sub` |
| Extend.ExtendUncached | src/core/global-api/extend.js:30-88 | on a cache miss: a fresh well-formed subclass of `sup` numbered with the counter, with everything `NewSubclass` states under the effective name (the descriptor's `name` read through its prototype) (merged options, snapshots, sealed copy, shared API, accessors, registry); one merge; the name check in the trace; the descriptor's cache gains exactly `sup.cid -> sub` |
| Extend.Extend | src/core/global-api/extend.js:20-90 | a hit in the descriptor's cache returns the cached constructor and changes nothing (no cid, no merge, no call); a missing descriptor behaves as a fresh `{}`; a miss builds a new subclass of `sup` with the next cid, with everything `NewSubclass` states under the effective name (the descriptor's own and inherited properties are read), and caches it under the parent's cid. Either way the result was built from the descriptor on a parent with `sup`'s cid; every cached constructor stays well formed, numbered below the counter, built from that descriptor and filed under its parent's cid |
| Extend.ExtendTwice | src/core/global-api/extend.js:25-28 | extending one parent twice with one descriptor returns the identical constructor. When the descriptor had not cached a subclass of that parent, exactly one cid and one merge are consumed, and the cid is the counter's value; otherwise the cached constructor is returned and none are consumed |
| Extend.ExtendFromTwoParents | src/core/global-api/extend.js:25-28 | one descriptor extended from two parents with different cids yields two distinct constructors, each built on a parent with its own parent's cid and both cached on the descriptor under that cid; when neither was cached before, the cids increase |
| Init.ResolveModifiedOptions | src/core/instance/init.js:130-141 | the loop returns nothing iff no key of the latest options differs from the sealed copy; otherwise exactly the differing keys with their latest values |
| Init.NothingModifiedWhenSealed | src/core/instance/init.js:134-139 | options equal to their sealed copy report no modification |
| Init.OneEditReported | src/core/instance/init.js:134-139 | one key set to a new value is reported as exactly that one edit |
| Init.ReplacedObjectReported | src/core/instance/init.js:134-139 | an option replaced by a distinct object with equal contents is reported as modified, with the new object |
| Init.FoldKeepsModified | src/core/instance/init.js:115-118 | after the fold the descriptor holds the latest value of every modified key |
| Init.FoldSurvivesRemerge | src/core/instance/init.js:114-121 | options merged again from any parent and the folded descriptor hold the latest value of every late-modified key that is not undefined, for every option group merged by the default strategy (in this model: all but `components`) |
| Init.ResolveConstructorOptions | src/core/instance/init.js:99-128 | Returns `Ctor.options` and leaves the whole chain settled, each constructor caching its parent's current options. On an already settled chain it returns the same object, merges nothing and changes no options, snapshot or descriptor. On a chain that is not settled (the constructor or any ancestor caches stale parent options) the result is a fresh options object and at least one merge happens. A settled parent chain keeps its options whatever happens to the constructor itself. When the parent's resolved options differ from the cached ones: `superOptions` is updated, the modifications are folded into the descriptor, and `options` is a fresh merge of the parent's options with the descriptor's own and inherited properties. Otherwise the constructor keeps its options |
| Init.Settle | src/core/instance/init.js:107-125 | with the parent's resolved options in hand: the same options and no merge when they are the cached object; otherwise exactly one re-merge over the folded descriptor, read with its inherited properties |
| Init.Remerge | src/core/instance/init.js:113-124 | `superOptions` is set; the descriptor becomes `Assigned(descriptor, Modified(latest, sealed))`; the options are a fresh merge of the parent's options with the folded descriptor's own and inherited properties; the new registry holds the entries of the descriptor's `components` (inherited entries included) and the constructor under the merged name |
| Init.Fold | src/core/instance/init.js:115-119 | the descriptor's own properties become `Assigned(descriptor, Modified(latest, sealed))`: unchanged when nothing was modified, otherwise the modified keys with their latest values over the old properties |
| Init.Rebuild | src/core/instance/init.js:121-124 | one fresh merge of the parent's options with the descriptor (own and inherited properties) becomes the constructor's options; its registry holds the entries of the descriptor's `components` and the constructor under the merged name |
| Init.ResolveAfterRootChange | src/core/instance/init.js:103-124 | when a root child's cached parent options were replaced, resolving it leaves the root's options as they are, caches them as `superOptions`, and returns a fresh merge of them with the child's descriptor |
| Init.ResolveTwice | src/core/instance/init.js:99-128 | resolving twice in a row returns the identical options object, and the second call merges nothing |
| Init.InternalFields | src/core/instance/init.js:84-96 | the fast path writes exactly the six fixed keys, plus `render` and `staticRenderFns` iff the payload's `render` is truthy |
| Init.InitInternalComponent | src/core/instance/init.js:78-97 | `vm.$options` is a fresh object whose prototype is the constructor's options and whose own properties are `InternalFields(payload)` |
| Init.InternalLookup | src/core/instance/init.js:80-96 | a read of `vm.$options` on the fast path gives, for each written key, the payload's value (`parent`, `_parentVnode`, `render`, `staticRenderFns`) or the vnode's component options' value (`propsData`, `listeners`, `children`, `tag`), even an undefined one; `render` and `staticRenderFns` come from the constructor's options when the payload's `render` is falsy; any key not written comes from the constructor's options |
| Init.Hooks | src/core/instance/init.js:49-74 | nine initialisation calls with `beforeCreate` fifth and `created` ninth; then `$mount(el)` tenth iff `el` is truthy, and never elsewhere |
| Init.RunHooks | src/core/instance/init.js:49-74 | the trace grows by exactly `Hooks(uid, el)` |
| Init.InitOptions | src/core/instance/init.js:35-47 | with `_isComponent`: the fast-path options, no merge, and no options, snapshot or descriptor on the constructor chain changed. Otherwise the constructor's chain is resolved and settled (a stale chain gives the constructor fresh options), and `$options` is a fresh merge of the resolved options with the argument, or with `{}` when it is missing; on an already settled chain the constructor keeps its options, the chain is untouched and exactly one merge happens |
| Init.InitInstance | src/core/instance/init.js:17-75 | the instance takes the current uid and the counter increments; `_isVue` is set; `$options` is fresh. With `_isComponent` it is the fast-path object over the constructor's options, nothing is merged and the constructor chain is untouched. Otherwise the chain is settled (a stale chain gives the constructor fresh options) and `$options` is merged from the resolved options and the argument (or `{}`); on an already settled chain the constructor keeps its options, the chain is untouched and exactly one merge happens. The trace grows by the calls in order, with the mount last iff `$options.el` is truthy |
| Init.AssignUid | src/core/instance/init.js:21-32 | the instance takes the current uid, the counter increments and `_isVue` is set |
| Init.InitTwo | src/core/instance/init.js:21 | two instances initialised in turn get consecutive uids |

## Left out

- Performance marking (`mark`, `measure`, `config.performance`, `formatComponentName`) is not modelled. It does not affect behaviour.
- The build flags are not modelled; the model follows the development build. Name validation always runs, and `initProxy` versus `vm._renderProxy = vm` is one `ProxySetup` call. `vm._self` is not modelled.
- The collaborators are recorded only as trace events: `validateComponentName`, `initLifecycle`, `initEvents`, `initRender`, `initInjections`, `initState`, `initProvide`, `callHook` and `$mount`. Their effects on the instance are not modelled.
- `proxy` and `defineComputed` are recorded as accessors on the constructor, not as property descriptors.
- `Merge.MergeOptions`: the real `mergeOptions` lives in a file that is not part of this model. Several things are therefore not modelled:
  - its per-option strategies, normalisation and validation;
  - the instance argument that `_init` passes;
  - any asset registry other than `components`. `directives` and `filters` would behave the same way.
- Prototype mechanics are not modelled: the `VueComponent` function body, `Object.create(Super.prototype)` and the `constructor` fix-up. `new Sub(options)` corresponds to calling `Init.InitInstance` on a component of that constructor.
- Reading `options.name` and registering a constructor under it uses `KeyOf`. It converts only strings, booleans and integers to property keys.
- `for ... in` visits integer-like keys first, in ascending order, then the other keys in insertion order. The loops in the model pick the keys in an unspecified order. Their results do not depend on the order.
- In-place writes to an options object's own properties are not modelled, apart from registry entries. A late modification reaches a constructor by replacing `Ctor.options`.
- Deep changes inside an option value are not modelled. The source compares option values by identity only; the model compares read-only objects by the identity they carry, and mutable objects by reference.
- Values.Lookup: a lookup follows a single prototype link. That is all the fast-path `$options` needs, since the constructor's merged options have no prototype.
- Init.InitInternalComponent: the payload shape is a precondition: `_parentVnode` carries `componentOptions`. The source's payload type demands it, and the source would throw without it.
- Init.ResolveConstructorOptions: the fold into the descriptor is stated only when the descriptor is not also the descriptor of an ancestor. One descriptor object may be reused along a chain, and then an ancestor's re-merge writes it as well.
- Init.ResolveConstructorOptions: the registration under the merged name is stated by `Init.Remerge`, which it calls, rather than repeated in its own contract.
- Extend.NewSubclass: the model takes the sealed copy before self-registration. The source takes it after. The two are equivalent, because the copy shares the `components` registry object with the options.
- Extend.Extend: the source creates the `_Ctor` cache on the descriptor before the merge, so `mergeOptions` also iterates over `_Ctor`. The model keeps the cache in a field of its own, so the merged options never hold a `_Ctor` entry.
- Extend.Extend: the `_Ctor` cache is read from the descriptor's own field. A `_Ctor` the source would find on the descriptor's prototype, and share with it, is not modelled.
- Extend.InitProps: the `props` and `computed` groups are read as read-only plain objects. Keys they would inherit from a prototype are not modelled.
- Extend.Extend: a cache hit is decided by the presence of the parent's cid, where the source looks at the truthiness of the entry. Every cached entry is a constructor and so is truthy.
- Three points where the model follows the code closely:
  - the installers run when the merged `Sub.options.props` and `Sub.options.computed` are truthy, not when the descriptor declares them;
  - three asset registration functions are shared (`component`, `directive`, `filter`);
  - the modified options are folded into the descriptor object itself, not into a copy.
