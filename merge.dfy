/** The configuration-merge policy, the shallow copy and the property copy
    `extend(to, from)`, which the core calls but does not define. They are stood in for by Vue's default strategy (the
    child's value wins unless it is undefined) and its asset strategy for the
    `components` group (a fresh registry that delegates to the parent's
    registry and holds the child's entries, inherited ones included). */
module Merge {
  import opened Values

  /** The default strategy for one key. */
  function Pick(parent: map<string, Value>, child: map<string, Value>, k: string): Value {
    if k in child && child[k] != Undefined then child[k] else Get(parent, k)
  }

  /** Every option group of `parent` and `child` merged by the default strategy. */
  function MergedFields(parent: map<string, Value>, child: map<string, Value>): map<string, Value> {
    map k | k in parent.Keys + child.Keys :: Pick(parent, child, k)
  }

  /** `r` is what `mergeOptions(parent, child)` returns: every option group
      merged by the default strategy, except `components`, which is a
      registry of its own whose prototype is the parent's registry. */
  ghost predicate MergedShape(r: Options, parent: map<string, Value>, child: map<string, Value>) {
    && r.proto == null
    && "components" in r.own && r.own["components"].Ref?
    && r.own == MergedFields(parent, child)["components" := r.own["components"]]
    && r.own["components"].obj.proto == RegistryIn(parent)
  }

  /** The registry an options map holds under `components` (null when it holds none). */
  function RegistryIn(options: map<string, Value>): Obj? {
    if "components" in options && options["components"].Ref? then options["components"].obj else null
  }

  /** The component registry of merged options. */
  function Registry(o: Options): Obj
    requires "components" in o.own && o.own["components"].Ref?
  {
    o.own["components"].obj
  }

  /** Stand-in for `mergeOptions`. */
  method MergeOptions(rt: Runtime, parent: map<string, Value>, child: map<string, Value>) returns (r: Options)
    modifies rt`merges
    ensures rt.merges == old(rt.merges) + 1
    ensures fresh(r) && MergedShape(r, parent, child)
    ensures fresh(Registry(r)) && Registry(r).own == old(EntriesOf(Get(child, "components")))
  {
    var components := new Obj(EntriesOf(Get(child, "components")), RegistryIn(parent));
    r := new Options(MergedFields(parent, child)["components" := Ref(components)], null);
    rt.merges := rt.merges + 1;
  }

  /** Stand-in for `extend({}, o)`: a fresh object with the same own properties. */
  method ShallowCopy(o: Options) returns (r: Options)
    ensures fresh(r) && r.proto == null && r.own == o.own
  {
    r := new Options(o.own, null);
  }

  /** The own properties of `to` after `extend(to, from)`: every property of
      `from` is written over `to`, the others are kept. */
  function Assigned(to: map<string, Value>, from: map<string, Value>): map<string, Value> {
    map k | k in to.Keys + from.Keys :: if k in from then from[k] else to[k]
  }

  /** `extend(to, from)`: copies the properties of `from` onto `to` one key at a time. */
  method Assign(to: Obj, from: map<string, Value>)
    modifies to`own
    ensures to.own == Assigned(old(to.own), from)
  {
    var keys := from.Keys;
    while keys != {}
      invariant keys <= from.Keys
      invariant to.own.Keys == old(to.own).Keys + (from.Keys - keys)
      invariant forall k :: k in to.own ==>
                  to.own[k] == (if k in from && k !in keys then from[k] else old(to.own)[k])
      decreases keys
    {
      var key :| key in keys;
      to.own := to.own[key := from[key]];
      keys := keys - {key};
    }
  }

  /** After `extend(to, from)`: the keys of both, the value of `from` where it
      has one, the old value of `to` elsewhere; copying nothing changes nothing. */
  lemma AssignedMeaning(to: map<string, Value>, from: map<string, Value>, k: string)
    ensures k in Assigned(to, from) <==> k in to || k in from
    ensures k in from ==> Assigned(to, from)[k] == from[k]
    ensures k in to && k !in from ==> Assigned(to, from)[k] == to[k]
    ensures Assigned(to, map[]) == to
  {
  }

  /** The merged options hold exactly the groups of the parent and of the
      child; a group the child defines wins, any other comes from the parent. */
  lemma MergedFieldsMeaning(parent: map<string, Value>, child: map<string, Value>, k: string)
    ensures k in MergedFields(parent, child) <==> k in parent || k in child
    ensures k in child && child[k] != Undefined ==> MergedFields(parent, child)[k] == child[k]
    ensures k in parent && (k !in child || child[k] == Undefined) ==> MergedFields(parent, child)[k] == parent[k]
  {
  }
}
