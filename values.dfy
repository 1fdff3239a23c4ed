/** The entities shared by constructor extension and instance initialisation:
    JavaScript values and plain objects, component constructors, component
    instances, and the process-wide counters and call trace. */
module Values {

  datatype Option<T> = None | Some(value: T)

  /** A JavaScript value. Datatype equality is the source's `===`: primitives
      compare by value; objects, constructors and functions by identity (a
      read-only object carries its identity in `id`, so two distinct objects
      with equal entries are different values). */
  datatype Value =
    | Undefined
    | Null
    | Bool(b: bool)
    | Num(n: int)
    | Str(s: string)
    | Fn(id: nat)          // a function value known only by its identity
    | Ref(obj: Obj)        // a plain object the core mutates or compares by identity
    | Dict(id: nat, entries: map<string, Value>)  // a plain object the core only reads
    | CtorRef(ctor: Ctor)  // a component constructor (a function with fields)

  /** JavaScript truthiness. */
  predicate Truthy(v: Value) {
    match v
    case Undefined => false
    case Null => false
    case Bool(b) => b
    case Num(n) => n != 0
    case Str(s) => s != ""
    case _ => true
  }

  /** The property key a truthy value denotes when used as `obj[v]`. */
  function KeyOf(v: Value): string {
    match v
    case Str(s) => s
    case Bool(b) => if b then "true" else "false"
    case Num(n) => if n < 0 then "-" + Digits(-n) else Digits(n)
    case _ => "[object]"
  }

  function Digits(n: nat): string
    decreases n
  {
    var d := ["0", "1", "2", "3", "4", "5", "6", "7", "8", "9"][n % 10];
    if n < 10 then d else Digits(n / 10) + d
  }

  /** A plain JavaScript object the core mutates: an extension descriptor or
      a component registry. `ctorCache` is the `_Ctor` property that extension
      stores on a descriptor, mapping a parent's cid to the subclass built from it.
      `depth` is the length of the prototype chain, which is fixed at creation. */
  class Obj {
    var own: map<string, Value>
    const proto: Obj?
    const depth: nat
    var ctorCache: map<int, Ctor>

    constructor (own: map<string, Value>, proto: Obj?)
      ensures this.own == own && this.proto == proto && ctorCache == map[]
      ensures proto != null ==> proto.depth < depth
    {
      this.own := own;
      this.proto := proto;
      depth := if proto == null then 0 else proto.depth + 1;
      ctorCache := map[];
    }
  }

  /** The object and the objects on its prototype chain. */
  ghost function Protos(o: Obj): set<Obj>
    decreases o.depth
  {
    if o.proto != null && o.proto.depth < o.depth then {o} + Protos(o.proto) else {o}
  }

  /** The properties `for (key in o)` visits, with the values `o[key]` reads:
      the inherited ones, shadowed by the object's own. */
  function Enumerable(o: Obj): (props: map<string, Value>)
    reads Protos(o)`own
    decreases o.depth
    ensures o.own.Keys <= props.Keys && forall k :: k in o.own ==> props[k] == o.own[k]
    ensures o.proto != null && o.proto.depth < o.depth ==>
              forall k :: k in Enumerable(o.proto) && k !in o.own ==> k in props && props[k] == Enumerable(o.proto)[k]
  {
    (if o.proto != null && o.proto.depth < o.depth then Enumerable(o.proto) else map[]) + o.own
  }

  /** The objects on a prototype chain exist. */
  lemma {:induction false} ProtosAllocated(o: Obj)
    ensures forall p :: p in Protos(o) ==> allocated(p)
    decreases o.depth
  {
    if o.proto != null && o.proto.depth < o.depth {
      ProtosAllocated(o.proto);
    }
  }

  /** An options object: what `mergeOptions` returns, a shallow copy of one,
      or an instance's `$options`. Its own properties are fixed once it is
      built; only the registry it points to under `components` changes. */
  class Options {
    const own: map<string, Value>
    const proto: Options?

    constructor (own: map<string, Value>, proto: Options?)
      ensures this.own == own && this.proto == proto
    {
      this.own := own;
      this.proto := proto;
    }
  }

  /** `o[k]` for an own property (missing properties read as undefined). */
  function Get(m: map<string, Value>, k: string): Value {
    if k in m then m[k] else Undefined
  }

  function Field(o: Options, k: string): Value {
    Get(o.own, k)
  }

  /** `o[k]` looked up through one prototype link: every options object of
      this model that has a prototype delegates to one without. */
  function Lookup(o: Options, k: string): Value {
    if k in o.own then o.own[k]
    else if o.proto != null then Field(o.proto, k)
    else Undefined
  }

  /** The entries of a read-only plain object (none for any other value). */
  function DictOf(v: Value): map<string, Value> {
    if v.Dict? then v.entries else map[]
  }

  /** The properties `for (key in v)` visits, with their values: the entries
      of a read-only object, everything enumerable on a mutable object's
      prototype chain, nothing for any other value. */
  function EntriesOf(v: Value): map<string, Value>
    reads (if v.Ref? then Protos(v.obj) else {})`own
  {
    if v.Dict? then v.entries else if v.Ref? then Enumerable(v.obj) else map[]
  }

  /** The global-API functions a constructor carries: `extend`, `mixin`, `use`
      and the asset registration functions `component`, `directive`, `filter`. */
  datatype Api = Api(extend: Value, mixin: Value, use: Value,
                     component: Value, directive: Value, filter: Value)

  /** An accessor installed on a constructor's prototype at extension time. */
  datatype Accessor =
    | PropProxy(key: string)                       // proxy(prototype, `_props`, key)
    | ComputedGetter(key: string, definition: Value) // defineComputed(prototype, key, def)

  /** A component constructor. Fields the source assigns once are `const`. */
  class Ctor {
    const cid: nat
    const superCtor: Ctor?      // `Sub.super`
    const extendOptions: Obj?   // the descriptor this constructor was derived from
    var options: Options
    var superOptions: Options?  // the parent's options object when last merged
    const sealedOptions: Options? // shallow copy of options taken at extension time
    const api: Api
    var accessors: seq<Accessor>  // installs performed on this constructor's prototype

    constructor (cid: nat, superCtor: Ctor?, extendOptions: Obj?, options: Options,
                 superOptions: Options?, sealedOptions: Options?, api: Api)
      ensures this.cid == cid && this.superCtor == superCtor && this.extendOptions == extendOptions
      ensures this.options == options && this.superOptions == superOptions
      ensures this.sealedOptions == sealedOptions && this.api == api && accessors == []
    {
      this.cid := cid;
      this.superCtor := superCtor;
      this.extendOptions := extendOptions;
      this.options := options;
      this.superOptions := superOptions;
      this.sealedOptions := sealedOptions;
      this.api := api;
      accessors := [];
    }
  }

  /** A component instance (`vm`). */
  class Component {
    const ctor: Ctor            // `vm.constructor`
    var uid: nat                // `vm._uid`
    var isVue: bool             // `vm._isVue`
    var options: Options?       // `vm.$options`

    constructor (ctor: Ctor)
      ensures this.ctor == ctor && !isVue && options == null
    {
      this.ctor := ctor;
      uid := 0;
      isVue := false;
      options := null;
    }
  }

  /** Calls into collaborators whose order the core fixes. */
  datatype Event =
    | ValidateName(name: Value)
    | ProxySetup(vm: nat)
    | InitLifecycle(vm: nat)
    | InitEvents(vm: nat)
    | InitRender(vm: nat)
    | CallHook(vm: nat, hook: string)
    | InitInjections(vm: nat)
    | InitState(vm: nat)
    | InitProvide(vm: nat)
    | Mount(vm: nat, el: Value)

  /** The process-wide state: the cid counter of `initExtend`, the instance
      uid counter, the number of `mergeOptions` calls, and the trace of
      collaborator calls; `root` is the `Vue` constructor itself. */
  class Runtime {
    var nextCid: nat
    var nextUid: nat
    var merges: nat
    var trace: seq<Event>
    const root: Ctor

    /** `initExtend`: the root constructor gets cid 0 and the counter starts at 1;
        the instance uid counter starts at 0. The root options always carry
        the global component registry as an object under `components`. */
    constructor (rootOptions: Options, api: Api)
      requires rootOptions.proto == null
      requires "components" in rootOptions.own && rootOptions.own["components"].Ref?
      ensures fresh(root) && WellFormed(root)
      ensures root.cid == 0 && root.superCtor == null && root.options == rootOptions && root.api == api
      ensures nextCid == 1 && nextUid == 0 && merges == 0 && trace == []
    {
      root := new Ctor(0, null, null, rootOptions, null, null, api);
      nextCid := 1;
      nextUid := 0;
      merges := 0;
      trace := [];
    }
  }

  /** What extension guarantees of every constructor: its parent has a smaller
      cid and is well formed itself, and a subclass has a descriptor and a
      sealed snapshot. Only `const` fields are involved. */
  ghost predicate WellFormed(c: Ctor)
    decreases c.cid
  {
    c.superCtor != null ==>
      && c.superCtor.cid < c.cid && c.extendOptions != null && c.sealedOptions != null
      && WellFormed(c.superCtor)
  }

  /** The constructor and its ancestors. */
  ghost function Chain(c: Ctor): set<Ctor>
    decreases c.cid
  {
    if c.superCtor != null && c.superCtor.cid < c.cid then {c, c.superCtor} + Chain(c.superCtor) else {c}
  }

  /** The descriptor objects of the constructor and its ancestors. */
  ghost function Descriptors(c: Ctor): set<Obj>
    decreases c.cid
  {
    (if c.extendOptions != null then {c.extendOptions} else {})
    + (if c.superCtor != null && c.superCtor.cid < c.cid then Descriptors(c.superCtor) else {})
  }

  /** Every ancestor has a smaller cid than its descendant. */
  lemma {:induction false} ChainBelow(c: Ctor)
    ensures c in Chain(c)
    ensures forall a :: a in Chain(c) && a != c ==> a.cid < c.cid
    decreases c.cid
  {
    if c.superCtor != null && c.superCtor.cid < c.cid {
      ChainBelow(c.superCtor);
    }
  }

  /** The ancestors of an existing constructor exist. */
  lemma {:induction false} ChainAllocated(c: Ctor)
    ensures forall a :: a in Chain(c) ==> allocated(a)
    decreases c.cid
  {
    if c.superCtor != null && c.superCtor.cid < c.cid {
      ChainAllocated(c.superCtor);
    }
  }

  /** Every constructor on the chain has cached its parent's current options
      object: resolving its options would change nothing. */
  ghost predicate Settled(c: Ctor)
    reads Chain(c)
    decreases c.cid
  {
    c.superCtor != null && c.superCtor.cid < c.cid ==>
      c.superOptions == c.superCtor.options && Settled(c.superCtor)
  }
}
