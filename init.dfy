/** Instance initialisation (src/core/instance/init.js): `_init`, the
    internal-component fast path, and the lazy re-resolution of a
    constructor's options when an ancestor's options have changed. */
module Init {
  import opened Values
  import opened Merge
  import opened Extend

  // ---------------------------------------------------------------------
  // resolveModifiedOptions

  /** The options that changed since sealing: every key of `latest` whose
      value differs (`!==`) from the sealed copy's, with its latest value. */
  function Modified(latest: map<string, Value>, sealed: map<string, Value>): map<string, Value> {
    map k | k in latest && latest[k] != Get(sealed, k) :: latest[k]
  }

  /** `resolveModifiedOptions`: a loop over the keys of the latest options,
      building the map of modified ones only once a first difference shows
      up (`undefined` when there is none). */
  method ResolveModifiedOptions(c: Ctor) returns (modified: Option<map<string, Value>>)
    requires c.sealedOptions != null
    ensures modified.None? <==> Modified(c.options.own, c.sealedOptions.own) == map[]
    ensures modified.Some? ==> modified.value == Modified(c.options.own, c.sealedOptions.own)
  {
    var latest := c.options.own;
    var sealed := c.sealedOptions.own;
    modified := None;
    var keys := latest.Keys;
    ghost var seen: set<string> := {};
    while keys != {}
      invariant keys <= latest.Keys && seen == latest.Keys - keys
      invariant modified.None? ==> forall k :: k in seen ==> latest[k] == Get(sealed, k)
      invariant modified.Some? ==> modified.value == Modified(latest, sealed) - keys
      invariant modified.Some? ==> modified.value != map[]
      decreases keys
    {
      var key :| key in keys;
      if latest[key] != Get(sealed, key) {
        if modified.None? {
          modified := Some(map[]);
        }
        modified := Some(modified.value[key := latest[key]]);
        assert key in modified.value;
      }
      keys := keys - {key};
      seen := seen + {key};
    }
    if modified.None? {
      assert forall k :: k in latest ==> latest[k] == Get(sealed, k);
      assert Modified(latest, sealed) == map[];
    } else {
      assert modified.value == Modified(latest, sealed);
    }
  }

  /** An untouched snapshot: options equal to their sealed copy report nothing. */
  lemma NothingModifiedWhenSealed(o: map<string, Value>)
    ensures Modified(o, o) == map[]
  {
  }

  /** One late edit (a key set to a new value) is reported as exactly that edit. */
  lemma OneEditReported(sealed: map<string, Value>, k: string, v: Value)
    requires v != Get(sealed, k)
    ensures Modified(sealed[k := v], sealed) == map[k := v]
  {
  }

  /** An option replaced by a distinct object with the same contents is a
      modification: `!==` compares objects by identity, not by contents. */
  lemma ReplacedObjectReported(sealed: map<string, Value>, k: string, id: nat, other: nat,
                               entries: map<string, Value>)
    requires k in sealed && sealed[k] == Dict(id, entries) && other != id
    ensures Modified(sealed[k := Dict(other, entries)], sealed) == map[k := Dict(other, entries)]
  {
    OneEditReported(sealed, k, Dict(other, entries));
  }

  /** `extend(extendOptions, modified)` leaves the descriptor holding the
      latest value of every modified key. */
  lemma FoldKeepsModified(desc: map<string, Value>, latest: map<string, Value>,
                          sealed: map<string, Value>, k: string)
    requires k in Modified(latest, sealed)
    ensures k in Assigned(desc, Modified(latest, sealed))
    ensures Assigned(desc, Modified(latest, sealed))[k] == latest[k]
  {
  }

  /** The point of folding modifications into the descriptor: options merged
      again from any parent and the folded descriptor give back every
      late-modified value that is not undefined, for every option group
      merged by the default strategy (all but `components`). */
  lemma FoldSurvivesRemerge(r: Options, parent: map<string, Value>, desc: map<string, Value>,
                            latest: map<string, Value>, sealed: map<string, Value>, k: string)
    requires MergedShape(r, parent, Assigned(desc, Modified(latest, sealed)))
    requires k in Modified(latest, sealed) && latest[k] != Undefined && k != "components"
    ensures k in r.own && r.own[k] == latest[k]
  {
    FoldKeepsModified(desc, latest, sealed, k);
    MergedFieldsMeaning(parent, Assigned(desc, Modified(latest, sealed)), k);
  }

  // ---------------------------------------------------------------------
  // resolveConstructorOptions

  /** Nothing on the constructor chain of `c` changed between the two states:
      neither the options nor the parent snapshots of a constructor, nor the
      own properties of a descriptor. */
  twostate predicate ChainKept(c: Ctor)
    reads Chain(c), Descriptors(c)
  {
    && (forall a :: a in Chain(c) && old(allocated(a)) ==>
          a.options == old(a.options) && a.superOptions == old(a.superOptions))
    && (forall d :: d in Descriptors(c) && old(allocated(d)) ==> d.own == old(d.own))
  }

  /** `resolveConstructorOptions(Ctor)`: resolves the ancestors first; when the
      parent's resolved options are no longer the object cached in
      `superOptions`, re-merges (see `Remerge`). */
  method ResolveConstructorOptions(rt: Runtime, c: Ctor) returns (options: Options)
    requires WellFormed(c)
    modifies rt`merges, Chain(c)`options, Chain(c)`superOptions, Descriptors(c)`own
    decreases c.cid
    ensures options == c.options && Settled(c)
    ensures old(rt.merges) <= rt.merges
    // an already settled chain: nothing is re-merged
    ensures old(Settled(c)) ==> options == old(c.options) && rt.merges == old(rt.merges)
    ensures old(Settled(c)) ==> ChainKept(c)
    // a stale chain: the constructor is re-merged into a new options object
    ensures !old(Settled(c)) ==> fresh(options) && rt.merges > old(rt.merges)
    // a settled parent chain is left as it was, whatever happens to `c`
    ensures c.superCtor != null && old(Settled(c.superCtor)) ==> c.superCtor.options == old(c.superCtor.options)
    // the parent's options changed: a re-merge
    ensures c.superCtor != null && old(c.superOptions) != c.superCtor.options ==>
              && c.superOptions == c.superCtor.options
              && fresh(options) && rt.merges > old(rt.merges)
              && MergedShape(options, c.superCtor.options.own, Enumerable(c.extendOptions))
    // ... after the late modifications were folded into the descriptor
    ensures c.superCtor != null && old(c.superOptions) != c.superCtor.options
            && c.extendOptions !in Descriptors(c.superCtor) ==>
              c.extendOptions.own
                == Assigned(old(c.extendOptions.own), Modified(old(c.options).own, c.sealedOptions.own))
    // the parent's options did not change: this constructor keeps its own
    ensures c.superCtor != null && old(c.superOptions) == c.superCtor.options ==>
              options == old(c.options) && c.superOptions == old(c.superOptions)
  {
    options := c.options;
    if c.superCtor != null {
      ChainBelow(c.superCtor);
      var superOptions := ResolveConstructorOptions(rt, c.superCtor);
      assert c !in Chain(c.superCtor);
      ChainAllocated(c.superCtor);
      options := Settle(rt, c, superOptions);
    }
  }

  /** Lines 109-126 of `init.js`, once the parent's options
      are resolved: a re-merge exactly when they are not the cached object. */
  method Settle(rt: Runtime, c: Ctor, superOptions: Options) returns (options: Options)
    requires c.extendOptions != null && c.sealedOptions != null
    modifies rt`merges, c`superOptions, c`options, c.extendOptions`own
    ensures options == c.options && c.superOptions == superOptions
    ensures old(c.superOptions) == superOptions ==>
              options == old(c.options) && rt.merges == old(rt.merges) && c.extendOptions.own == old(c.extendOptions.own)
    ensures old(c.superOptions) != superOptions ==>
              && fresh(options) && rt.merges == old(rt.merges) + 1
              && MergedShape(options, superOptions.own, Enumerable(c.extendOptions))
              && c.extendOptions.own
                   == Assigned(old(c.extendOptions.own), Modified(old(c.options).own, c.sealedOptions.own))
  {
    options := c.options;
    var cachedSuperOptions := c.superOptions;
    if superOptions != cachedSuperOptions {
      options := Remerge(rt, c, superOptions);
    }
  }

  /** Lines 113-124 of `init.js`: caches the parent's new
      options, folds the late modifications into the descriptor, merges again
      and re-registers the constructor in its new registry under its name. */
  method Remerge(rt: Runtime, c: Ctor, superOptions: Options) returns (options: Options)
    requires c.extendOptions != null && c.sealedOptions != null
    modifies rt`merges, c`superOptions, c`options, c.extendOptions`own
    ensures c.superOptions == superOptions && options == c.options
    ensures c.extendOptions.own
              == Assigned(old(c.extendOptions.own), Modified(old(c.options).own, c.sealedOptions.own))
    ensures rt.merges == old(rt.merges) + 1
    ensures fresh(options) && MergedShape(options, superOptions.own, Enumerable(c.extendOptions))
    ensures fresh(Registry(options))
    ensures Registry(options).own
              == Registered(EntriesOf(Get(Enumerable(c.extendOptions), "components")), Field(options, "name"), c)
  {
    c.superOptions := superOptions;
    Fold(c);
    ProtosAllocated(c.extendOptions);
    var props := Enumerable(c.extendOptions);
    if Get(props, "components").Ref? {
      ProtosAllocated(Get(props, "components").obj);
    }
    ghost var components := EntriesOf(Get(props, "components"));
    options := Rebuild(rt, c, superOptions);
    assert Enumerable(c.extendOptions) == props;
    assert EntriesOf(Get(props, "components")) == components;
  }

  /** Lines 115-119 of `init.js`: the late modifications of the constructor's
      options, if any, are copied onto its descriptor. */
  method Fold(c: Ctor)
    requires c.extendOptions != null && c.sealedOptions != null
    modifies c.extendOptions`own
    ensures c.extendOptions.own
              == Assigned(old(c.extendOptions.own), Modified(c.options.own, c.sealedOptions.own))
  {
    var modifiedOptions := ResolveModifiedOptions(c);
    if modifiedOptions.Some? {
      Assign(c.extendOptions, modifiedOptions.value);
    } else {
      assert Assigned(c.extendOptions.own, map[]) == c.extendOptions.own;
    }
  }

  /** Lines 121-124 of `init.js`: merges the parent's options with the
      descriptor again, caches the result on the constructor and registers the
      constructor under its name in the new registry. */
  method Rebuild(rt: Runtime, c: Ctor, superOptions: Options) returns (options: Options)
    requires c.extendOptions != null
    modifies rt`merges, c`options
    ensures options == c.options && rt.merges == old(rt.merges) + 1
    ensures fresh(options) && MergedShape(options, superOptions.own, old(Enumerable(c.extendOptions)))
    ensures fresh(Registry(options))
    ensures Registry(options).own
              == Registered(old(EntriesOf(Get(Enumerable(c.extendOptions), "components"))), Field(options, "name"), c)
  {
    options := MergeOptions(rt, superOptions.own, Enumerable(c.extendOptions));
    c.options := options;
    SelfRegister(Registry(options), Field(options, "name"), c);
  }

  /** A child of the root whose cached parent options were replaced (as
      `Vue.mixin` replaces them): resolving it keeps the root's options and
      gives a fresh merge of them with the child's descriptor. */
  method ResolveAfterRootChange(rt: Runtime, c: Ctor) returns (options: Options)
    requires WellFormed(c) && c.superCtor != null && c.superCtor.superCtor == null
    requires c.superOptions != c.superCtor.options
    modifies rt`merges, Chain(c)`options, Chain(c)`superOptions, Descriptors(c)`own
    ensures c.superCtor.options == old(c.superCtor.options) && c.superOptions == c.superCtor.options
    ensures fresh(options) && options == c.options && rt.merges > old(rt.merges)
    ensures MergedShape(options, c.superCtor.options.own, Enumerable(c.extendOptions))
  {
    options := ResolveConstructorOptions(rt, c);
  }

  /** Resolving twice in a row: the second call returns the same options
      object and merges nothing (`mergesBetween` is the merge count between
      the two calls). */
  method ResolveTwice(rt: Runtime, c: Ctor) returns (first: Options, second: Options, ghost mergesBetween: nat)
    requires WellFormed(c)
    modifies rt`merges, Chain(c)`options, Chain(c)`superOptions, Descriptors(c)`own
    ensures first == second == c.options && Settled(c)
    ensures old(rt.merges) <= mergesBetween == rt.merges
  {
    first := ResolveConstructorOptions(rt, c);
    mergesBetween := rt.merges;
    second := ResolveConstructorOptions(rt, c);
  }

  // ---------------------------------------------------------------------
  // initInternalComponent

  /** The payload of an internal component: `_parentVnode` is a vnode carrying
      `componentOptions` (the Flow type `InternalComponentOptions`). */
  predicate InternalPayload(p: map<string, Value>) {
    && "_parentVnode" in p && p["_parentVnode"].Dict?
    && "componentOptions" in p["_parentVnode"].entries
    && p["_parentVnode"].entries["componentOptions"].Dict?
  }

  /** The vnode's `componentOptions` in an internal payload. */
  function VnodeComponentOptions(p: map<string, Value>): map<string, Value>
    requires InternalPayload(p)
  {
    p["_parentVnode"].entries["componentOptions"].entries
  }

  /** The keys `initInternalComponent` always writes. */
  const InternalKeys: set<string> :=
    {"parent", "_parentVnode", "propsData", "_parentListeners", "_renderChildren", "_componentTag"}

  /** The own properties `initInternalComponent` gives `vm.$options`. */
  function InternalFields(p: map<string, Value>): (fields: map<string, Value>)
    requires InternalPayload(p)
    ensures Truthy(Get(p, "render")) ==> fields.Keys == InternalKeys + {"render", "staticRenderFns"}
    ensures !Truthy(Get(p, "render")) ==> fields.Keys == InternalKeys
  {
    var vnode := p["_parentVnode"];
    var vco := VnodeComponentOptions(p);
    var fields := map["parent" := Get(p, "parent"), "_parentVnode" := vnode,
                      "propsData" := Get(vco, "propsData"), "_parentListeners" := Get(vco, "listeners"),
                      "_renderChildren" := Get(vco, "children"), "_componentTag" := Get(vco, "tag")];
    if Truthy(Get(p, "render")) then fields["render" := p["render"]]["staticRenderFns" := Get(p, "staticRenderFns")]
    else fields
  }

  /** `initInternalComponent(vm, options)`: `vm.$options` is a new object
      delegating to the constructor's options, with the fixed fields copied
      from the payload and its vnode's component options. */
  method InitInternalComponent(vm: Component, p: map<string, Value>)
    requires InternalPayload(p)
    modifies vm`options
    ensures vm.options != null && fresh(vm.options)
    ensures vm.options.proto == vm.ctor.options && vm.options.own == InternalFields(p)
  {
    var parentVnode := p["_parentVnode"];
    var opts: map<string, Value> := map[];
    opts := opts["parent" := Get(p, "parent")];
    opts := opts["_parentVnode" := parentVnode];
    var vnodeComponentOptions := parentVnode.entries["componentOptions"].entries;
    opts := opts["propsData" := Get(vnodeComponentOptions, "propsData")];
    opts := opts["_parentListeners" := Get(vnodeComponentOptions, "listeners")];
    opts := opts["_renderChildren" := Get(vnodeComponentOptions, "children")];
    opts := opts["_componentTag" := Get(vnodeComponentOptions, "tag")];
    if Truthy(Get(p, "render")) {
      opts := opts["render" := p["render"]];
      opts := opts["staticRenderFns" := Get(p, "staticRenderFns")];
    }
    vm.options := new Options(opts, vm.ctor.options);
  }

  /** Reading `vm.$options[k]` on the fast path: a written field comes from the
      payload (even when it is undefined there), any other key is inherited from
      the constructor's options. */
  lemma InternalLookup(opts: Options, ctorOptions: Options, p: map<string, Value>, k: string)
    requires InternalPayload(p) && opts.own == InternalFields(p) && opts.proto == ctorOptions
    ensures k == "parent" ==> Lookup(opts, k) == Get(p, "parent")
    ensures k == "_parentVnode" ==> Lookup(opts, k) == p["_parentVnode"]
    ensures k == "propsData" ==> Lookup(opts, k) == Get(VnodeComponentOptions(p), "propsData")
    ensures k == "_parentListeners" ==> Lookup(opts, k) == Get(VnodeComponentOptions(p), "listeners")
    ensures k == "_renderChildren" ==> Lookup(opts, k) == Get(VnodeComponentOptions(p), "children")
    ensures k == "_componentTag" ==> Lookup(opts, k) == Get(VnodeComponentOptions(p), "tag")
    ensures k !in InternalKeys && k != "render" && k != "staticRenderFns" ==> Lookup(opts, k) == Field(ctorOptions, k)
    ensures k == "render" && Truthy(Get(p, "render")) ==> Lookup(opts, k) == p["render"]
    ensures k == "render" && !Truthy(Get(p, "render")) ==> Lookup(opts, k) == Field(ctorOptions, k)
    ensures k == "staticRenderFns" && Truthy(Get(p, "render")) ==> Lookup(opts, k) == Get(p, "staticRenderFns")
    ensures k == "staticRenderFns" && !Truthy(Get(p, "render")) ==> Lookup(opts, k) == Field(ctorOptions, k)
  {
  }

  // ---------------------------------------------------------------------
  // _init

  /** The collaborator calls of `init.js` after `$options` is set, in order:
      proxy setup, lifecycle, events, render, `beforeCreate`, injections,
      state, provide, `created`, and `$mount` last when `el` is truthy. */
  function Hooks(uid: nat, el: Value): (calls: seq<Event>)
    ensures |calls| == if Truthy(el) then 10 else 9
    ensures calls[4] == CallHook(uid, "beforeCreate") && calls[8] == CallHook(uid, "created")
    ensures Truthy(el) ==> calls[9] == Mount(uid, el)
    ensures forall i :: 0 <= i < |calls| && calls[i].Mount? ==> i == 9
  {
    [ProxySetup(uid), InitLifecycle(uid), InitEvents(uid), InitRender(uid), CallHook(uid, "beforeCreate"),
     InitInjections(uid), InitState(uid), InitProvide(uid), CallHook(uid, "created")]
    + (if Truthy(el) then [Mount(uid, el)] else [])
  }

  /** Whether `_init(options)` takes the internal fast path. */
  predicate IsInternal(options: Option<map<string, Value>>) {
    options.Some? && Truthy(Get(options.value, "_isComponent"))
  }

  /** Lines 49-74 of `init.js`: the initialisation calls one after the other,
      then `vm.$mount(el)` when `el` is truthy. */
  method RunHooks(rt: Runtime, uid: nat, el: Value)
    modifies rt`trace
    ensures rt.trace == old(rt.trace) + Hooks(uid, el)
  {
    var calls := [ProxySetup(uid), InitLifecycle(uid), InitEvents(uid), InitRender(uid), CallHook(uid, "beforeCreate"),
                  InitInjections(uid), InitState(uid), InitProvide(uid), CallHook(uid, "created")];
    rt.trace := rt.trace + calls;
    if Truthy(el) {
      rt.trace := rt.trace + [Mount(uid, el)];
    }
  }

  /** Lines 35-47 of `init.js`: `vm.$options` from the internal fast path, or
      merged from the constructor's resolved options and the argument. */
  method InitOptions(rt: Runtime, vm: Component, options: Option<map<string, Value>>)
    requires WellFormed(vm.ctor)
    requires IsInternal(options) ==> InternalPayload(options.value)
    modifies rt`merges, vm`options, Chain(vm.ctor)`options, Chain(vm.ctor)`superOptions, Descriptors(vm.ctor)`own
    ensures vm.options != null && fresh(vm.options)
    ensures IsInternal(options) ==>
              && vm.options.proto == vm.ctor.options && vm.options.own == InternalFields(options.value)
              && rt.merges == old(rt.merges) && ChainKept(vm.ctor)
    ensures !IsInternal(options) ==>
              && Settled(vm.ctor) && rt.merges > old(rt.merges)
              && MergedShape(vm.options, vm.ctor.options.own, if options.Some? then options.value else map[])
    // an already settled chain: the constructor's options are merged as they are, once
    ensures !IsInternal(options) && !old(Settled(vm.ctor)) ==> fresh(vm.ctor.options)
    ensures !IsInternal(options) && old(Settled(vm.ctor)) ==>
              vm.ctor.options == old(vm.ctor.options) && rt.merges == old(rt.merges) + 1 && ChainKept(vm.ctor)
  {
    if IsInternal(options) {
      InitInternalComponent(vm, options.value);
    } else {
      var resolved := ResolveConstructorOptions(rt, vm.ctor);
      ChainAllocated(vm.ctor);
      vm.options := MergeOptions(rt, resolved.own, if options.Some? then options.value else map[]);
    }
  }

  /** Lines 21-32 of `init.js`: the instance takes the next uid and is marked as a Vue instance. */
  method AssignUid(rt: Runtime, vm: Component)
    modifies rt`nextUid, vm`uid, vm`isVue
    ensures vm.uid == old(rt.nextUid) && rt.nextUid == vm.uid + 1 && vm.isVue
  {
    vm.uid := rt.nextUid;
    rt.nextUid := rt.nextUid + 1;
    vm.isVue := true;
  }

  /** `vm._init(options)` (`options` is `None` when the argument is missing):
      a fresh uid, the options, then the initialisation calls, and a mount
      when the options name an element. */
  method InitInstance(rt: Runtime, vm: Component, options: Option<map<string, Value>>)
    requires WellFormed(vm.ctor)
    requires IsInternal(options) ==> InternalPayload(options.value)
    modifies rt`nextUid, rt`merges, rt`trace, vm`uid, vm`isVue, vm`options
    modifies Chain(vm.ctor)`options, Chain(vm.ctor)`superOptions, Descriptors(vm.ctor)`own
    ensures vm.uid == old(rt.nextUid) && rt.nextUid == vm.uid + 1 && vm.isVue
    ensures vm.options != null && fresh(vm.options)
    ensures IsInternal(options) ==>
              && vm.options.proto == vm.ctor.options && vm.options.own == InternalFields(options.value)
              && rt.merges == old(rt.merges) && ChainKept(vm.ctor)
    ensures !IsInternal(options) ==>
              && Settled(vm.ctor) && rt.merges > old(rt.merges)
              && MergedShape(vm.options, vm.ctor.options.own, if options.Some? then options.value else map[])
    // an already settled chain: the constructor's options are merged as they are, once
    ensures !IsInternal(options) && !old(Settled(vm.ctor)) ==> fresh(vm.ctor.options)
    ensures !IsInternal(options) && old(Settled(vm.ctor)) ==>
              vm.ctor.options == old(vm.ctor.options) && rt.merges == old(rt.merges) + 1 && ChainKept(vm.ctor)
    ensures rt.trace == old(rt.trace) + Hooks(vm.uid, Lookup(vm.options, "el"))
  {
    ChainAllocated(vm.ctor);
    AssignUid(rt, vm);
    assert old(Settled(vm.ctor)) ==> Settled(vm.ctor);
    InitOptions(rt, vm, options);
    ChainAllocated(vm.ctor);
    RunHooks(rt, vm.uid, Lookup(vm.options, "el"));
  }

  /** Two instances initialised one after the other get distinct, increasing uids. */
  method InitTwo(rt: Runtime, a: Component, b: Component)
    requires a != b && WellFormed(a.ctor) && WellFormed(b.ctor)
    modifies rt, a, b, Chain(a.ctor), Descriptors(a.ctor), Chain(b.ctor), Descriptors(b.ctor)
    ensures a.uid < b.uid && b.uid == a.uid + 1
  {
    InitInstance(rt, a, None);
    InitInstance(rt, b, None);
  }
}
