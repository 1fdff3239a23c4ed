/** `Vue.extend` (src/core/global-api/extend.js): deriving a subclass
    constructor from a parent constructor and an extension descriptor, with
    the per-descriptor constructor cache, and the prop and computed accessor
    installers it runs on the subclass prototype. */
module Extend {
  import opened Values
  import opened Merge

  /** The subclass name: `extendOptions.name || Super.options.name`. */
  function EffectiveName(desc: map<string, Value>, superOptions: map<string, Value>): (name: Value)
    ensures Truthy(name) <==> Truthy(Get(desc, "name")) || Truthy(Get(superOptions, "name"))
    ensures Truthy(Get(desc, "name")) ==> name == desc["name"]
    ensures name == Get(desc, "name") || name == Get(superOptions, "name")
  {
    if Truthy(Get(desc, "name")) then desc["name"] else Get(superOptions, "name")
  }

  /** The own keys of the `props` option group (none when it is not an object). */
  function PropKeys(options: Options): set<string> {
    DictOf(Field(options, "props")).Keys
  }

  /** The `computed` option group as a map (empty when it is not an object). */
  function ComputedDefs(options: Options): map<string, Value> {
    DictOf(Field(options, "computed"))
  }

  /** The accessors `installed[lo..hi]` name each key of `keys` exactly once:
      as many accessors as keys, every key drawn from `keys`, no key twice. */
  ghost predicate OncePerKey(installed: seq<Accessor>, lo: nat, hi: nat, keys: set<string>) {
    && lo <= hi <= |installed| && hi - lo == |keys|
    && (forall i :: lo <= i < hi ==> installed[i].key in keys)
    && (forall i, j :: lo <= i < j < hi ==> installed[i].key != installed[j].key)
  }

  /** The accessors `installed[lo..hi]` are prop proxies. */
  ghost predicate PropProxies(installed: seq<Accessor>, lo: nat, hi: nat)
    requires lo <= hi <= |installed|
  {
    forall i :: lo <= i < hi ==> installed[i] == PropProxy(installed[i].key)
  }

  /** The accessors `installed[lo..hi]` are the computed getters of `defs`. */
  ghost predicate ComputedGetters(installed: seq<Accessor>, lo: nat, hi: nat, defs: map<string, Value>)
    requires lo <= hi <= |installed|
  {
    forall i :: lo <= i < hi ==>
      installed[i].key in defs && installed[i] == ComputedGetter(installed[i].key, defs[installed[i].key])
  }

  /** Distinct keys drawn from a set are at most as many as the set. */
  lemma {:induction false} DistinctKeysBounded(installed: seq<Accessor>, lo: nat, hi: nat, keys: set<string>)
    requires lo <= hi <= |installed|
    requires forall i :: lo <= i < hi ==> installed[i].key in keys
    requires forall i, j :: lo <= i < j < hi ==> installed[i].key != installed[j].key
    ensures hi - lo <= |keys|
    decreases hi - lo
  {
    if lo < hi {
      DistinctKeysBounded(installed, lo, hi - 1, keys - {installed[hi - 1].key});
    }
  }

  /** Every key of the set is installed (pigeonhole), so `OncePerKey` means
      exactly once per key. */
  lemma {:induction false} EveryKeyInstalled(installed: seq<Accessor>, lo: nat, hi: nat, keys: set<string>, k: string)
    requires OncePerKey(installed, lo, hi, keys) && k in keys
    ensures exists i :: lo <= i < hi && installed[i].key == k
  {
    if forall i :: lo <= i < hi ==> installed[i].key != k {
      DistinctKeysBounded(installed, lo, hi, keys - {k});
    }
  }

  /** The prototype of `c` carries one prop proxy per prop key, then one
      computed getter per computed key, and nothing else. */
  ghost predicate Installed(options: Options, installed: seq<Accessor>) {
    var n := |PropKeys(options)|;
    && |installed| == n + |ComputedDefs(options).Keys|
    && OncePerKey(installed, 0, n, PropKeys(options)) && PropProxies(installed, 0, n)
    && OncePerKey(installed, n, |installed|, ComputedDefs(options).Keys)
    && ComputedGetters(installed, n, |installed|, ComputedDefs(options))
  }

  /** `initProps`: one `proxy(Comp.prototype, '_props', key)` per prop key. */
  method InitProps(comp: Ctor)
    modifies comp`accessors
    ensures old(comp.accessors) <= comp.accessors
    ensures OncePerKey(comp.accessors, |old(comp.accessors)|, |comp.accessors|, PropKeys(comp.options))
    ensures PropProxies(comp.accessors, |old(comp.accessors)|, |comp.accessors|)
  {
    var props := PropKeys(comp.options);
    var keys := props;
    while keys != {}
      invariant keys <= props && old(comp.accessors) <= comp.accessors
      invariant |comp.accessors| - |old(comp.accessors)| + |keys| == |props|
      invariant forall i :: |old(comp.accessors)| <= i < |comp.accessors| ==>
                  comp.accessors[i] == PropProxy(comp.accessors[i].key) && comp.accessors[i].key in props - keys
      invariant forall i, j :: |old(comp.accessors)| <= i < j < |comp.accessors| ==>
                  comp.accessors[i].key != comp.accessors[j].key
      decreases keys
    {
      var key :| key in keys;
      comp.accessors := comp.accessors + [PropProxy(key)];
      keys := keys - {key};
    }
  }

  /** `initComputed`: one `defineComputed(Comp.prototype, key, computed[key])`
      per computed key. */
  method InitComputed(comp: Ctor)
    modifies comp`accessors
    ensures old(comp.accessors) <= comp.accessors
    ensures OncePerKey(comp.accessors, |old(comp.accessors)|, |comp.accessors|, ComputedDefs(comp.options).Keys)
    ensures ComputedGetters(comp.accessors, |old(comp.accessors)|, |comp.accessors|, ComputedDefs(comp.options))
  {
    var computed := ComputedDefs(comp.options);
    var keys := computed.Keys;
    while keys != {}
      invariant keys <= computed.Keys && old(comp.accessors) <= comp.accessors
      invariant |comp.accessors| - |old(comp.accessors)| + |keys| == |computed.Keys|
      invariant forall i :: |old(comp.accessors)| <= i < |comp.accessors| ==>
                  comp.accessors[i].key in computed.Keys - keys
                  && comp.accessors[i] == ComputedGetter(comp.accessors[i].key, computed[comp.accessors[i].key])
      invariant forall i, j :: |old(comp.accessors)| <= i < j < |comp.accessors| ==>
                  comp.accessors[i].key != comp.accessors[j].key
      decreases keys
    {
      var key :| key in keys;
      comp.accessors := comp.accessors + [ComputedGetter(key, computed[key])];
      keys := keys - {key};
    }
  }

  /** Lines 55-60 of `extend.js`: the installers run when their option group is truthy. */
  method InstallAccessors(sub: Ctor)
    requires sub.accessors == []
    modifies sub`accessors
    ensures Installed(sub.options, sub.accessors)
  {
    if Truthy(Field(sub.options, "props")) {
      InitProps(sub);
    }
    if Truthy(Field(sub.options, "computed")) {
      InitComputed(sub);
    }
  }

  /** The `_Ctor` cache of a possibly absent descriptor. */
  function CacheOf(d: Obj?): map<int, Ctor>
    reads d
  {
    if d == null then map[] else d.ctorCache
  }

  /** The own properties of a descriptor; a missing one reads as `{}`. */
  function OwnOf(d: Obj?): map<string, Value>
    reads d
  {
    if d == null then map[] else d.own
  }

  /** What `for ... in` and property reads see on a descriptor: its own
      properties and the ones it inherits; a missing one reads as `{}`. */
  function Properties(d: Obj?): map<string, Value>
    reads (if d == null then {} else Protos(d))`own
  {
    if d == null then map[] else Enumerable(d)
  }

  /** The `components` registry `reg` once a subclass named `name` has
      registered itself in it (nothing happens for a falsy name). */
  function Registered(reg: map<string, Value>, name: Value, sub: Ctor): (r: map<string, Value>)
    ensures Truthy(name) ==> KeyOf(name) in r && r[KeyOf(name)] == CtorRef(sub)
    ensures forall k :: k in reg && (!Truthy(name) || k != KeyOf(name)) ==> k in r && r[k] == reg[k]
    ensures r.Keys <= reg.Keys + {KeyOf(name)}
  {
    if Truthy(name) then reg[KeyOf(name) := CtorRef(sub)] else reg
  }

  /** Lines 36-87 of `extend.js`: a new subclass with a fresh cid, options
      merged from the parent's and the descriptor's (own and inherited
      properties), whose fresh registry holds the descriptor's `components`
      entries and the subclass itself under `name`; the parent's options and
      global API; a sealed shallow copy of the options; the prop and computed
      accessors. It is cached on the descriptor under the parent's cid. */
  method NewSubclass(rt: Runtime, sup: Ctor, desc: Obj, name: Value) returns (sub: Ctor)
    modifies rt`nextCid, rt`merges, desc`ctorCache
    ensures desc.ctorCache == old(desc.ctorCache)[sup.cid := sub]
    ensures fresh(sub) && fresh(sub.options) && fresh(sub.sealedOptions)
    ensures sub.cid == old(rt.nextCid) && rt.nextCid == sub.cid + 1
    ensures rt.merges == old(rt.merges) + 1
    ensures sub.extendOptions == desc
    ensures sub.superCtor == sup
    ensures sub.superOptions == sup.options && sub.api == sup.api
    ensures MergedShape(sub.options, sup.options.own, old(Enumerable(desc)))
    ensures sub.sealedOptions != null && sub.sealedOptions != sub.options
    ensures sub.sealedOptions.own == sub.options.own
    ensures Installed(sub.options, sub.accessors)
    ensures Registry(sub.options).own == Registered(old(EntriesOf(Get(Enumerable(desc), "components"))), name, sub)
    ensures fresh(Registry(sub.options))
  {
    var options := MergeOptions(rt, sup.options.own, Enumerable(desc));
    var sealed := ShallowCopy(options);
    sub := new Ctor(rt.nextCid, sup, desc, options, sup.options, sealed, sup.api);
    rt.nextCid := rt.nextCid + 1;
    SelfRegister(Registry(options), name, sub);
    InstallAccessors(sub);
    desc.ctorCache := desc.ctorCache[sup.cid := sub];
  }

  /** Lines 73-75 of `extend.js`. */
  method SelfRegister(components: Obj, name: Value, sub: Ctor)
    modifies components`own
    ensures components.own == Registered(old(components.own), name, sub)
  {
    if Truthy(name) {
      components.own := components.own[KeyOf(name) := CtorRef(sub)];
    }
  }

  /** Every constructor cached in `cache`, the `_Ctor` of descriptor `d`, is
      well formed, was numbered before `nextCid`, was built from `d` and is
      filed under its own parent's cid. */
  ghost predicate CacheWellFormed(cache: map<int, Ctor>, d: Obj?, nextCid: nat) {
    forall id :: id in cache ==>
      && WellFormed(cache[id]) && cache[id].cid < nextCid
      && cache[id].superCtor != null && cache[id].superCtor.cid == id
      && cache[id].extendOptions == d
  }

  /** `Vue.extend`, called on `sup` with `extendOptions` (null for a missing
      descriptor). The `_Ctor` cache of a descriptor is written only here, so
      it holds well-formed constructors. */
  method Extend(rt: Runtime, sup: Ctor, extendOptions: Obj?) returns (sub: Ctor)
    requires WellFormed(sup) && sup.cid < rt.nextCid
    requires CacheWellFormed(CacheOf(extendOptions), extendOptions, rt.nextCid)
    modifies rt`nextCid, rt`merges, rt`trace, extendOptions
    ensures WellFormed(sub) && sub.cid < rt.nextCid && old(rt.nextCid) <= rt.nextCid
    ensures sub.superCtor != null && sub.superCtor.cid == sup.cid && sub.extendOptions != null
    ensures extendOptions != null ==>
              && sub.extendOptions == extendOptions && extendOptions.own == old(extendOptions.own)
              && sup.cid in extendOptions.ctorCache && extendOptions.ctorCache[sup.cid] == sub
              && CacheWellFormed(extendOptions.ctorCache, extendOptions, rt.nextCid)
    // a cached subclass is returned as is: no cid, no merge, no call
    ensures sup.cid in old(CacheOf(extendOptions)) ==>
              sub == old(CacheOf(extendOptions))[sup.cid] && unchanged(rt) && unchanged(extendOptions)
    // otherwise a new subclass, built by `NewSubclass` from the descriptor
    ensures sup.cid !in old(CacheOf(extendOptions)) ==>
              && fresh(sub) && sub.superCtor == sup
              && (extendOptions == null ==> fresh(sub.extendOptions))
              && sub.extendOptions.own == old(OwnOf(extendOptions))
              && sub.extendOptions.ctorCache == old(CacheOf(extendOptions))[sup.cid := sub]
              && sub.cid == old(rt.nextCid) && rt.nextCid == sub.cid + 1 && rt.merges == old(rt.merges) + 1
              && rt.trace == old(rt.trace) + NameCheck(EffectiveName(old(Properties(extendOptions)), sup.options.own))
    ensures sup.cid !in old(CacheOf(extendOptions)) ==>
              && fresh(sub.options) && MergedShape(sub.options, sup.options.own, old(Properties(extendOptions)))
              && sub.superOptions == sup.options && sub.api == sup.api
              && fresh(sub.sealedOptions) && sub.sealedOptions != sub.options
              && sub.sealedOptions.own == sub.options.own
              && Installed(sub.options, sub.accessors)
              && fresh(Registry(sub.options))
              && Registry(sub.options).own
                 == Registered(old(EntriesOf(Get(Properties(extendOptions), "components"))),
                               EffectiveName(old(Properties(extendOptions)), sup.options.own), sub)
  {
    var desc := extendOptions;
    if desc == null {
      desc := new Obj(map[], null);
    }
    var superId := sup.cid;
    if superId in desc.ctorCache {
      return desc.ctorCache[superId];
    }
    sub := ExtendUncached(rt, sup, desc);
  }

  /** The calls recorded by lines 31-34 of `extend.js`: a truthy name is validated. */
  function NameCheck(name: Value): (calls: seq<Event>)
    ensures |calls| <= 1
    ensures calls == [] <==> !Truthy(name)
    ensures calls != [] ==> calls[0] == ValidateName(name)
  {
    if Truthy(name) then [ValidateName(name)] else []
  }

  /** Lines 31-34 of `extend.js`: a truthy name goes to `validateComponentName`. */
  method CheckName(rt: Runtime, name: Value)
    modifies rt`trace
    ensures rt.trace == old(rt.trace) + NameCheck(name)
  {
    if Truthy(name) {
      rt.trace := rt.trace + [ValidateName(name)];
    }
  }

  /** Lines 30-88 of `extend.js`: the path taken when `desc` has no cached
      subclass for `sup`. */
  method ExtendUncached(rt: Runtime, sup: Ctor, desc: Obj) returns (sub: Ctor)
    requires WellFormed(sup) && sup.cid < rt.nextCid && sup.cid !in desc.ctorCache
    modifies rt`nextCid, rt`merges, rt`trace, desc`ctorCache
    ensures fresh(sub) && WellFormed(sub) && sub.superCtor == sup && sub.extendOptions == desc
    ensures sub.cid == old(rt.nextCid) && rt.nextCid == sub.cid + 1 && rt.merges == old(rt.merges) + 1
    ensures rt.trace == old(rt.trace) + NameCheck(EffectiveName(old(Enumerable(desc)), sup.options.own))
    ensures desc.ctorCache == old(desc.ctorCache)[sup.cid := sub]
    ensures fresh(sub.options) && MergedShape(sub.options, sup.options.own, old(Enumerable(desc)))
    ensures sub.superOptions == sup.options && sub.api == sup.api
    ensures fresh(sub.sealedOptions) && sub.sealedOptions != sub.options
    ensures sub.sealedOptions.own == sub.options.own
    ensures Installed(sub.options, sub.accessors)
    ensures fresh(Registry(sub.options))
    ensures Registry(sub.options).own
            == Registered(old(EntriesOf(Get(Enumerable(desc), "components"))),
                          EffectiveName(old(Enumerable(desc)), sup.options.own), sub)
  {
    var props := Enumerable(desc);
    var name := EffectiveName(props, sup.options.own);
    ProtosAllocated(desc);
    if Get(props, "components").Ref? {
      ProtosAllocated(Get(props, "components").obj);
    }
    ghost var components := EntriesOf(Get(props, "components"));
    CheckName(rt, name);
    assert Enumerable(desc) == props && EntriesOf(Get(props, "components")) == components;
    sub := NewSubclass(rt, sup, desc, name);
  }

  /** Extending one parent twice with the same descriptor object returns the
      identical constructor, and the second call takes no cid and merges nothing. */
  method ExtendTwice(rt: Runtime, sup: Ctor, d: Obj) returns (first: Ctor, second: Ctor)
    requires WellFormed(sup) && sup.cid < rt.nextCid && CacheWellFormed(d.ctorCache, d, rt.nextCid)
    modifies rt, d
    ensures first == second && WellFormed(first)
    ensures sup.cid in old(d.ctorCache) ==>
              first == old(d.ctorCache)[sup.cid] && rt.nextCid == old(rt.nextCid) && rt.merges == old(rt.merges)
    ensures sup.cid !in old(d.ctorCache) ==>
              first.cid == old(rt.nextCid) && rt.nextCid == old(rt.nextCid) + 1 && rt.merges == old(rt.merges) + 1
  {
    first := Extend(rt, sup, d);
    ghost var cid, merges := rt.nextCid, rt.merges;
    second := Extend(rt, sup, d);
    assert rt.nextCid == cid && rt.merges == merges;
  }

  /** One descriptor extended from two parents with different cids gives two
      different constructors, each built from its own parent and both cached
      on the descriptor under their parent's cid; when neither was cached
      before, the second is numbered after the first. */
  method ExtendFromTwoParents(rt: Runtime, p1: Ctor, p2: Ctor, d: Obj) returns (s1: Ctor, s2: Ctor)
    requires WellFormed(p1) && WellFormed(p2) && p1.cid < rt.nextCid && p2.cid < rt.nextCid && p1.cid != p2.cid
    requires CacheWellFormed(d.ctorCache, d, rt.nextCid)
    modifies rt, d
    ensures s1 != s2
    ensures s1.superCtor != null && s1.superCtor.cid == p1.cid && s2.superCtor != null && s2.superCtor.cid == p2.cid
    ensures d.ctorCache == old(d.ctorCache)[p1.cid := s1][p2.cid := s2]
    ensures p1.cid !in old(d.ctorCache) && p2.cid !in old(d.ctorCache) ==> s1.cid < s2.cid
    ensures CacheWellFormed(d.ctorCache, d, rt.nextCid)
  {
    s1 := Extend(rt, p1, d);
    if p1.cid in old(d.ctorCache) {
      RefileSame(old(d.ctorCache), p1.cid);
    }
    ghost var cache := d.ctorCache;
    s2 := Extend(rt, p2, d);
    if p2.cid in cache {
      RefileSame(cache, p2.cid);
    }
  }

  /** Filing a cached constructor again under its own key leaves the cache as it was. */
  lemma RefileSame(cache: map<int, Ctor>, id: int)
    requires id in cache
    ensures cache[id := cache[id]] == cache
  {
  }
}
