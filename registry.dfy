/**
 * A context object and its `$points` registry: for every point id, the record
 * `{ref, _messageHandlers}` that `_points` creates lazily and `handlers`,
 * `on`, `once` and `removeListener` work on. Also the key inheritance `create`
 * performs between two contexts.
 */
module Registry {
  import opened Values

  /** A hook function stored under an event type. User hooks are opaque;
      `OnceHook` is the `onceFn` wrapper `once` registers on point `owner`
      under `key`; the three `Link` hooks are the `$link$` bridges `link`
      registers on the parent point, the nested head and the nested tail. */
  datatype Hook =
    | UserHook(fn: nat)
    | OnceHook(owner: nat, key: string, fn: nat)
    | LinkStart(nested: nat)
    | LinkHead(parent: nat, nested: nat)
    | LinkTail(parent: nat, nested: nat)

  /** `$points[_id]`: the session-bound point registered first for this id,
      and the hooks registered for it in this context. */
  datatype PointRecord = PointRecord(ref: nat, hooks: map<string, Hook>)

  /** A context object: its other keys, the value of its `$strict` key (the
      message types that must find a consumer; undefined when absent), and its
      `$points` registry, which exists once it holds a record. */
  datatype ContextState = ContextState(
    vars: map<string, Value>,
    strict: Value,
    points: map<nat, PointRecord>)

  /** `{}`: a new, empty context. */
  const EmptyContext: ContextState := ContextState(map[], Undefined, map[])

  /** The strings among `items`, in order. */
  function Strings(items: seq<Value>): (r: seq<string>)
    ensures forall t :: t in r <==> Str(t) in items
  {
    if items == [] then []
    else
      var rest := Strings(items[1..]);
      assert forall v :: v in items <==> v == items[0] || v in items[1..];
      if items[0].Str? then [items[0].s] + rest else rest
  }

  /** The message types a `$strict` value lists: `indexOf(type) !== -1` on an
      array holds exactly for the types it holds as strings. */
  function StrictNames(v: Value): (r: seq<string>)
    ensures forall t :: t in r <==> v.List? && Str(t) in v.items
  {
    if v.List? then Strings(v.items) else []
  }

  /** `context[key]` on context object number `c`: `$strict` and `$points`
      are the engine's own keys, every other key is a plain one. */
  function Property(cs: ContextState, c: nat, key: string): Value {
    if key == "$strict" then cs.strict
    else if key == "$points" then (if cs.points == map[] then Undefined else Records(c))
    else Get(cs.vars, key)
  }

  /** `_points(ctx)` on a point with id `id` that is `ref` itself: the record for
      `id` is created once, holding `ref` and no hooks, and afterwards reused
      as it is. */
  function Touch(cs: ContextState, id: nat, ref: nat): (r: ContextState)
    ensures r.vars == cs.vars && r.strict == cs.strict
    ensures r.points.Keys == cs.points.Keys + {id}
    ensures forall k | k in cs.points :: r.points[k] == cs.points[k]
    ensures id !in cs.points ==> r.points[id] == PointRecord(ref, map[])
  {
    if id in cs.points then cs
    else cs.(points := cs.points[id := PointRecord(ref, map[])])
  }

  /** The hooks registered for `id` in this context (none when it has no record). */
  function HooksOf(cs: ContextState, id: nat): map<string, Hook> {
    if id in cs.points then cs.points[id].hooks else map[]
  }

  /** `on(type, hook)` for the point with id `id` (and object `ref`): fails when
      a hook for `key` is already registered for this id in this context;
      otherwise adds it and touches nothing else. */
  function Register(cs: ContextState, id: nat, ref: nat, key: string, hook: Hook): (r: Outcome<ContextState>)
    ensures r.Fail? <==> key in HooksOf(cs, id)
    ensures r.Fail? ==> r.error == DuplicateHook(key, id)
    ensures r.Ok? ==> HooksOf(r.value, id) == HooksOf(cs, id)[key := hook]
    ensures r.Ok? ==> forall other | other != id :: HooksOf(r.value, other) == HooksOf(cs, other)
    ensures r.Ok? ==> r.value.points.Keys == cs.points.Keys + {id}
    ensures r.Ok? ==> forall other | other in cs.points && other != id :: r.value.points[other] == cs.points[other]
    ensures r.Ok? ==> r.value.vars == cs.vars && r.value.strict == cs.strict
    ensures r.Ok? ==> id in r.value.points && r.value.points[id].ref == (if id in cs.points then cs.points[id].ref else ref)
  {
    var t := Touch(cs, id, ref);
    var record := t.points[id];
    if key in record.hooks then Fail(DuplicateHook(key, id))
    else Ok(t.(points := t.points[id := record.(hooks := record.hooks[key := hook])]))
  }

  /** `removeListener(type)` (and the self-removal of a `once` hook): the
      hook for `key` is gone for this id; every other registration stays. */
  function Unregister(cs: ContextState, id: nat, ref: nat, key: string): (r: ContextState)
    ensures HooksOf(r, id) == HooksOf(cs, id) - {key}
    ensures forall other | other != id :: HooksOf(r, other) == HooksOf(cs, other)
    ensures r.vars == cs.vars && r.strict == cs.strict
    ensures id in r.points && r.points[id].ref == (if id in cs.points then cs.points[id].ref else ref)
    ensures r.points.Keys == cs.points.Keys + {id}
    ensures forall other | other in cs.points && other != id :: r.points[other] == cs.points[other]
  {
    var t := Touch(cs, id, ref);
    var record := t.points[id];
    t.(points := t.points[id := record.(hooks := record.hooks - {key})])
  }

  /** Registering the same type twice for one point in one context fails, however
      the first registration was made. */
  lemma RegisterTwiceFails(cs: ContextState, id: nat, ref1: nat, ref2: nat, key: string, h1: Hook, h2: Hook)
    requires Register(cs, id, ref1, key, h1).Ok?
    ensures Register(Register(cs, id, ref1, key, h1).value, id, ref2, key, h2) == Fail(DuplicateHook(key, id))
  {
  }

  /** A registration for one point never blocks the same type on another point,
      and a registration of another type never blocks this one. */
  lemma RegisterIndependent(cs: ContextState, id1: nat, id2: nat, ref1: nat, ref2: nat, k1: string, k2: string, h1: Hook, h2: Hook)
    requires Register(cs, id1, ref1, k1, h1).Ok?
    requires id1 != id2 || k1 != k2
    ensures Register(Register(cs, id1, ref1, k1, h1).value, id2, ref2, k2, h2).Ok?
        <==> Register(cs, id2, ref2, k2, h2).Ok?
  {
  }

  /** After `removeListener`, the type can be registered again. */
  lemma RemoveThenRegister(cs: ContextState, id: nat, ref: nat, key: string, h: Hook)
    ensures Register(Unregister(cs, id, ref, key), id, ref, key, h).Ok?
  {
  }

  /** Touching a record twice keeps the first: the `$points[_id]` record is
      created once per context and then reused. */
  lemma TouchOnce(cs: ContextState, id: nat, ref1: nat, ref2: nat)
    ensures Touch(Touch(cs, id, ref1), id, ref2) == Touch(cs, id, ref1)
    ensures Touch(Touch(cs, id, ref1), id, ref2).points[id].ref
         == (if id in cs.points then cs.points[id].ref else ref1)
  {
  }

  /** Keys starting with `$` are internal and are never inherited. */
  predicate Internal(key: string) {
    |key| > 0 && key[0] == '$'
  }

  /** `context[name]`, undefined when absent. */
  function Get(m: map<string, Value>, key: string): Value {
    if key in m then m[key] else Undefined
  }

  /** The key inheritance of `create`: every non-internal key of `parent` whose
      value in `child` is missing or falsy is copied into `child`; nothing else
      changes. */
  function Inherit(parent: map<string, Value>, child: map<string, Value>): (r: map<string, Value>)
    ensures forall k | k in child && Truthy(child[k]) :: k in r && r[k] == child[k]
    ensures forall k | k in child && Internal(k) :: k in r && r[k] == child[k]
    ensures forall k | k in parent && !Internal(k) && !Truthy(Get(child, k)) :: k in r && r[k] == parent[k]
    ensures forall k | k in r :: k in child || (k in parent && !Internal(k))
    ensures forall k | k in child && (k !in parent || Internal(k)) :: k in r && r[k] == child[k]
  {
    map k | k in child.Keys + parent.Keys && (k in child || !Internal(k)) ::
      if k in parent && !Internal(k) && !Truthy(Get(child, k)) then parent[k] else child[k]
  }

  /** Inheriting from a context into itself changes nothing (`create` called
      with the point's own context). */
  lemma InheritSelf(m: map<string, Value>)
    ensures Inherit(m, m) == m
  {
    var r := Inherit(m, m);
    forall k | k in r ensures k in m && r[k] == m[k] {
      if k in m && !Internal(k) && !Truthy(m[k]) {
        assert r[k] == m[k];
      }
    }
    assert r.Keys == m.Keys;
  }

  /** Inheriting twice from the same parent is the same as inheriting once. */
  lemma InheritTwice(parent: map<string, Value>, child: map<string, Value>)
    ensures Inherit(parent, Inherit(parent, child)) == Inherit(parent, child)
  {
    var once := Inherit(parent, child);
    var twice := Inherit(parent, once);
    forall k | k in twice ensures k in once && twice[k] == once[k] {
      if k in parent && !Internal(k) && !Truthy(Get(once, k)) {
        assert once[k] == parent[k];
      }
    }
    assert twice.Keys == once.Keys;
  }
}
