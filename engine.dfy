/**
 * The engine as it runs: every `PipePoint` object and every context object
 * lives in one `Engine`, which the operations of `PipePoint` update in place,
 * and a message is a `Message` object whose fields `send` and `process`
 * assign. Each method is proved to leave exactly the state, and return
 * exactly the result, that the corresponding function of `World`, `Session`
 * or `Linking` describes.
 */
module Runtime {
  import opened Values
  import opened Topology
  import opened Registry
  import opened Routing
  import opened Dispatch
  import opened World
  import opened Session
  import opened Linking

  /** A message object: the fields the engine reads and assigns. */
  class Message {
    var kind: string
    var flow: Flow
    var stage: Stage
    var ref: Value
    var ttl: Option<int>
    var context: Option<nat>
    var sync: bool

    function Snapshot(): Msg
      reads this
    {
      Msg(kind, flow, stage, ref, ttl, context, sync)
    }

    /** A literal `{type, flow, ref}` (and whatever else the caller set). */
    constructor (m: Msg)
      ensures Snapshot() == m
    {
      kind, flow, stage, ref := m.kind, m.flow, m.stage, m.ref;
      ttl, context, sync := m.ttl, m.context, m.sync;
    }
  }

  /** The context `_points(ctx)` works in: the one given, else the point's own. */
  function Scope(w: World, p: nat, ctx: Option<nat>): (c: Option<nat>)
    requires Sound(w) && p < |w.points| && (ctx.Some? ==> ctx.value < |w.contexts|)
    ensures c == ctx.OrElse(w.points[p].context)
    ensures c.Some? ==> c.value < |w.contexts|
  {
    ctx.OrElse(PointContext(w, p))
  }

  /** All pipe points (structural ones and session copies) and all contexts,
      addressed by index. */
  class Engine {
    var points: seq<Point>
    var contexts: seq<ContextState>

    function State(): World
      reads this
    {
      World(points, contexts)
    }

    ghost predicate Valid()
      reads this
    {
      Sound(State())
    }

    constructor ()
      ensures Valid() && State() == World([], [])
    {
      points, contexts := [], [];
    }

    /** A context object created by the caller (`{}` or an object literal,
        which may hold a `$strict` list): it holds no `$points` registry
        yet, and every key reads as the literal has it. */
    method NewContext(literal: map<string, Value>) returns (c: nat)
      requires Valid()
      requires "$points" !in literal
      modifies this
      ensures Valid() && c == old(|contexts|)
      ensures points == old(points) && |contexts| == c + 1 && contexts[..c] == old(contexts)
      ensures contexts[c] == ContextState(literal - {"$strict"}, Registry.Get(literal, "$strict"), map[])
      ensures forall key :: Property(contexts[c], c, key) == Registry.Get(literal, key)
    {
      var cs := ContextState(literal - {"$strict"}, Registry.Get(literal, "$strict"), map[]);
      AddContextOk(State(), cs);
      contexts := contexts + [cs];
      c := |contexts| - 1;
    }

    /** `createPipePoint(handlerMeta, prev)`: a new structural point, linked
        after `prev` when there is one. */
    method CreatePipePoint(meta: HandlerMeta, prev: Option<nat>) returns (p: nat)
      requires Valid() && (prev.Some? ==> prev.value < |points|)
      modifies this
      ensures Valid() && p == old(|points|) && contexts == old(contexts)
      ensures |points| == p + 1 && points[p] == NewPoint(p, meta).(prev := prev)
      ensures prev.Some? ==> points[prev.value] == old(points[prev.value]).(next := Some(p))
      ensures forall i | 0 <= i < p && Some(i) != prev :: points[i] == old(points[i])
    {
      p := |points|;
      var pt := NewPoint(p, meta).(prev := prev);
      AppendOk(State(), pt);
      points := points + [pt];
      if prev.Some? {
        ghost var w := State();
        var q := prev.value;
        assert PointOk(w.points, |w.contexts|, q);
        points := points[q := points[q].(next := Some(p))];
        forall i | 0 <= i < |points| ensures PointOk(points, |contexts|, i) {
          assert PointOk(w.points, |w.contexts|, i);
        }
        forall c | 0 <= c < |contexts| ensures ContextOk(contexts[c], points) {
          ContextKept(w.contexts[c], w.points, points);
        }
      }
    }

    /** `head._tail$ = tail`: the head of a chain learns its tail. */
    method SetTail(head: nat, tail: nat)
      requires Valid() && head < |points| && tail < |points|
      modifies this
      ensures Valid() && contexts == old(contexts)
      ensures points == old(points)[head := old(points[head]).(tail := Some(tail))]
    {
      ghost var w := State();
      assert PointOk(w.points, |w.contexts|, head);
      points := points[head := points[head].(tail := Some(tail))];
      forall i | 0 <= i < |points| ensures PointOk(points, |contexts|, i) {
        assert PointOk(w.points, |w.contexts|, i);
      }
      forall c | 0 <= c < |contexts| ensures ContextOk(contexts[c], points) {
        ContextKept(w.contexts[c], w.points, points);
      }
    }

    /** `buildPipe(handlers)`: one point per handler, linked in order by
        `createPipePoint`; the head learns the tail. An empty list throws when
        the missing head's `_tail$` is assigned. */
    method BuildPipe(metas: seq<HandlerMeta>) returns (r: Outcome<nat>)
      requires Valid()
      modifies this
      ensures Valid() && contexts == old(contexts)
      ensures |metas| == 0 ==> r == Fail(TypeError) && points == old(points)
      ensures |metas| > 0 ==> r == Ok(old(|points|)) && points == old(points) + Laid(metas, old(|points|))
    {
      ghost var before := points;
      var base := |points|;
      var head: Option<nat> := None;
      var tail: Option<nat> := None;
      var i := 0;
      while i < |metas|
        invariant 0 <= i <= |metas| && Valid() && contexts == old(contexts)
        invariant |points| == base + i && points[..base] == before
        invariant head == (if i == 0 then None else Some(base))
        invariant tail == (if i == 0 then None else Some(base + i - 1))
        invariant forall k | 0 <= k < i :: points[base + k] == Laid(metas[..i], base)[k].(tail := None)
      {
        ghost var prior := points;
        var p := CreatePipePoint(metas[i], tail);
        ghost var laid := Laid(metas[..i + 1], base);
        forall k | 0 <= k < i + 1 ensures points[base + k] == laid[k].(tail := None) {
          assert metas[..i + 1][k] == metas[k];
          if k < i {
            assert prior[base + k] == Laid(metas[..i], base)[k].(tail := None);
            assert metas[..i][k] == metas[k];
          }
        }
        if head.None? {
          head := Some(p);
        }
        tail := Some(p);
        i := i + 1;
      }
      if head.None? {
        return Fail(TypeError);
      }
      assert metas[..i] == metas;
      ghost var w := State();
      SetTail(base, tail.value);
      assert points == before + Laid(metas, base) by {
        forall k | 0 <= k < |points| ensures points[k] == (before + Laid(metas, base))[k] {
          if k >= base {
            assert points[base + (k - base)] == w.points[base + (k - base)].(tail := points[k].tail);
          }
        }
      }
      r := Ok(base);
    }

    /** `_points(ctx)`: the record of this point's id in `ctx` (or in the
        point's own context), created on first use; its `ref` is returned. */
    method Points(p: nat, ctx: Option<nat>) returns (r: Outcome<nat>)
      requires Valid() && p < |points| && (ctx.Some? ==> ctx.value < |contexts|)
      modifies this
      ensures Valid() && points == old(points) && |contexts| == old(|contexts|)
      ensures Scope(old(State()), p, ctx).None? ==> r == Fail(MissingContext) && contexts == old(contexts)
      ensures Scope(old(State()), p, ctx).Some? ==>
                && State() == TouchAt(old(State()), Scope(old(State()), p, ctx).value, p)
                && r.Ok?
      ensures r.Ok? ==> r.value < |points| && points[r.value].id == points[p].id
      ensures r.Ok? ==> var c := Scope(old(State()), p, ctx).value;
                        r.value == contexts[c].points[points[p].id].ref
                        && (points[p].id in old(contexts[c].points) ==> r.value == old(contexts[c].points[points[p].id].ref))
    {
      var c := Scope(State(), p, ctx);
      if c.None? {
        return Fail(MissingContext);
      }
      ghost var w := State();
      var id := points[p].id;
      if id !in contexts[c.value].points {
        contexts := contexts[c.value := contexts[c.value].(points := contexts[c.value].points[id := PointRecord(p, map[])])];
      }
      assert State() == TouchAt(w, c.value, p);
      assert RecordOk(contexts[c.value].points[id], points, id);
      r := Ok(contexts[c.value].points[id].ref);
    }

    /** `handlers(ctx)`: the hooks of this point's record, after `_points`. */
    method Handlers(p: nat, ctx: Option<nat>) returns (r: Outcome<map<string, Hook>>)
      requires Valid() && p < |points| && (ctx.Some? ==> ctx.value < |contexts|)
      modifies this
      ensures Valid() && points == old(points) && |contexts| == old(|contexts|)
      ensures Scope(old(State()), p, ctx).None? ==> r == Fail(MissingContext) && contexts == old(contexts)
      ensures Scope(old(State()), p, ctx).Some? ==>
                var c := Scope(State(), p, ctx).value;
                && State() == TouchAt(old(State()), c, p)
                && r == Ok(HooksOf(old(contexts[c]), points[p].id))
      ensures r.Ok? ==> forall k | k in r.value :: HookOk(r.value[k], |points|)
    {
      var rec := Points(p, ctx);
      if rec.Fail? {
        return Fail(rec.error);
      }
      var c := Scope(State(), p, ctx).value;
      var id := points[p].id;
      assert RecordOk(contexts[c].points[id], points, id);
      r := Ok(contexts[c].points[id].hooks);
    }

    /** `copy(context)`: a session copy of point `p` bound to `ctx`, which
        registers itself; without a context `_points` throws. */
    method Copy(p: nat, ctx: Option<nat>) returns (r: Outcome<nat>)
      requires Valid() && p < |points| && (ctx.Some? ==> ctx.value < |contexts|)
      modifies this
      ensures Valid()
      ensures CopyPoint(old(State()), p, ctx).Fail? ==> State() == old(State()) && r == Fail(MissingContext)
      ensures CopyPoint(old(State()), p, ctx).Ok? ==> State() == CopyPoint(old(State()), p, ctx).value && r == Ok(old(|points|))
    {
      if ctx.None? {
        return Fail(MissingContext);
      }
      assert PointOk(points, |contexts|, p);
      var pt := CopyOf(points[p], ctx.value);
      AppendOk(State(), pt);
      points := points + [pt];
      var q := |points| - 1;
      var _ := Points(q, None);
      r := Ok(q);
    }

    /** `on(type, hook)`: registers the hook for this point's id in its own
        context; the point is returned for chaining. */
    method On(p: nat, key: string, hook: Hook) returns (r: Outcome<nat>)
      requires Valid() && p < |points| && HookOk(hook, |points|)
      modifies this
      ensures Valid() && points == old(points)
      ensures OnAt(old(State()), p, key, hook).Ok? ==> State() == OnAt(old(State()), p, key, hook).value && r == Ok(p)
      ensures OnAt(old(State()), p, key, hook).Fail? ==>
                State() == old(State()) && r == Fail(OnAt(old(State()), p, key, hook).error)
    {
      ghost var w := State();
      var hooks := Handlers(p, None);
      if hooks.Fail? {
        return Fail(hooks.error);
      }
      var c := Scope(State(), p, None).value;
      var id := points[p].id;
      if key in hooks.value {
        assert State() == w;
        return Fail(DuplicateHook(key, id));
      }
      var record := contexts[c].points[id];
      contexts := contexts[c := contexts[c].(points := contexts[c].points[id := record.(hooks := record.hooks[key := hook])])];
      r := Ok(p);
    }

    /** `once(type, fn)`: `on` with the self-removing wrapper. */
    method Once(p: nat, key: string, fn: nat) returns (r: Outcome<nat>)
      requires Valid() && p < |points|
      modifies this
      ensures Valid() && points == old(points)
      ensures var o := OnAt(old(State()), p, key, OnceHook(p, key, fn));
              && (o.Ok? ==> State() == o.value && r == Ok(p))
              && (o.Fail? ==> State() == old(State()) && r == Fail(o.error))
    ensures r.Ok? ==> var c := points[p].context.value;
              && c < |contexts|
              && HooksOf(contexts[c], points[p].id) == HooksOf(old(contexts[c]), points[p].id)[key := OnceHook(p, key, fn)]
    {
      r := On(p, key, OnceHook(p, key, fn));
      if r.Ok? {
        OnceRegistered(old(State()), p, key, fn);
      }
    }

    /** `removeListener(type)`. */
    method RemoveListener(p: nat, key: string) returns (r: Outcome<()>)
      requires Valid() && p < |points|
      modifies this
      ensures Valid() && points == old(points)
      ensures RemoveAt(old(State()), p, key).Ok? ==> State() == RemoveAt(old(State()), p, key).value && r.Ok?
      ensures RemoveAt(old(State()), p, key).Fail? ==> State() == old(State()) && r == Fail(MissingContext)
    {
      var hooks := Handlers(p, None);
      if hooks.Fail? {
        return Fail(hooks.error);
      }
      var c := Scope(State(), p, None).value;
      var id := points[p].id;
      var record := contexts[c].points[id];
      contexts := contexts[c := contexts[c].(points := contexts[c].points[id := record.(hooks := record.hooks - {key})])];
      r := Ok(());
    }

    /** Calling a stored hook, as far as it touches the engine: a `once`
        wrapper deletes its own registration first. */
    method RunHook(hook: Hook) returns (r: Outcome<()>)
      requires Valid() && HookOk(hook, |points|)
      modifies this
      ensures Valid() && points == old(points)
      ensures Fire(old(State()), hook).Ok? ==> State() == Fire(old(State()), hook).value && r.Ok?
      ensures Fire(old(State()), hook).Fail? ==> State() == old(State()) && r == Fail(Fire(old(State()), hook).error)
    {
      if hook.OnceHook? {
        r := RemoveListener(hook.owner, hook.key);
      } else {
        r := Ok(());
      }
    }

    /** The `next` getter. */
    method Next(p: nat) returns (q: Option<nat>)
      requires Valid() && p < |points|
      modifies this
      ensures Valid() && State() == NextOf(old(State()), p).world && q == NextOf(old(State()), p).point
    {
      assert PointOk(points, |contexts|, p);
      var target := points[p].next;
      if points[p].context.Some? && target.Some? {
        var r := Points(target.value, points[p].context);
        q := Some(r.value);
      } else {
        q := target;
      }
    }

    /** The `prev` getter as written: the session point is looked up (and its
        record touched) but the structural `_prev$` is returned. */
    method Prev(p: nat) returns (q: Option<nat>)
      requires Valid() && p < |points|
      modifies this
      ensures Valid() && State() == PrevAsWritten(old(State()), p).world && q == PrevAsWritten(old(State()), p).point
    {
      assert PointOk(points, |contexts|, p);
      var target := points[p].prev;
      if points[p].context.Some? && target.Some? {
        var _ := Points(target.value, points[p].context);
      }
      q := target;
    }

    /** The `tail` getter. */
    method Tail(p: nat) returns (q: Option<nat>)
      requires Valid() && p < |points|
      modifies this
      ensures Valid() && State() == TailOf(old(State()), p).world && q == TailOf(old(State()), p).point
    {
      assert PointOk(points, |contexts|, p);
      var target := points[p].tail;
      if points[p].context.Some? && target.Some? {
        var r := Points(target.value, points[p].context);
        q := Some(r.value);
      } else {
        q := target;
      }
    }

    /** `set(name, value)`: the value is stored under `'$' + name` in the
        point's context, shared by the whole session; the point is returned
        for chaining. */
    method Set(p: nat, name: string, v: Value) returns (r: Outcome<nat>)
      requires Valid() && p < |points|
      requires name != "points"
      modifies this
      ensures Valid()
      ensures var s := SetAt(old(State()), p, name, v);
              (s.Fail? ==> State() == old(State()) && r == Fail(s.error))
              && (s.Ok? ==> State() == s.value && r == Ok(p))
    {
      var c := Scope(State(), p, None);
      if c.None? {
        return Fail(TypeError);
      }
      var cur := contexts[c.value];
      var cs := if name == "strict" then cur.(strict := v) else cur.(vars := cur.vars[VarKey(name) := v]);
      assert ContextOk(cs, points) by { assert ContextOk(cur, points); }
      SetContextOk(State(), c.value, cs);
      contexts := contexts[c.value := cs];
      r := Ok(p);
    }

    /** `get(name)`: the value stored under `'$' + name` in the point's
        context. */
    method Get(p: nat, name: string) returns (r: Outcome<Value>)
      requires Valid() && p < |points|
      ensures r == GetAt(State(), p, name)
    {
      var c := Scope(State(), p, None);
      if c.None? {
        return Fail(TypeError);
      }
      var cs := contexts[c.value];
      var key := VarKey(name);
      if key == "$strict" {
        r := Ok(cs.strict);
      } else if key == "$points" {
        r := Ok(if cs.points == map[] then Undefined else Records(c.value));
      } else {
        r := Ok(if key in cs.vars then cs.vars[key] else Undefined);
      }
    }

    /** `_streamClosed = true` on point `p`. */
    method CloseStream(p: nat)
      requires Valid() && p < |points|
      modifies this
      ensures Valid() && State() == CloseAt(old(State()), p)
    {
      var pt := points[p].(streamClosed := true);
      SetPointOk(State(), p, pt);
      points := points[p := pt];
    }

    /** The first half of `create(context)`: `context || {}`, then the
        plain keys of `p`'s own context are inherited into it. */
    method PrepareContext(p: nat, ctx: Option<nat>) returns (c: nat)
      requires Valid() && p < |points| && (ctx.Some? ==> ctx.value < |contexts|)
      modifies this
      ensures Valid() && points == old(points) && c == SessionContext(old(State()), ctx)
      ensures contexts == Prepared(old(State()), p, ctx)
    {
      ghost var w0 := State();
      if ctx.None? {
        c := NewContext(map[]);
        assert contexts[c] == EmptyContext by { var none: map<string, Value> := map[]; assert none - {"$strict"} == none; }
      } else {
        c := ctx.value;
      }
      var own := Scope(State(), p, None);
      if own.Some? {
        var inherited := contexts[c].(vars := Inherit(contexts[own.value].vars, contexts[c].vars));
        SetContextOk(State(), c, inherited);
        contexts := contexts[c := inherited];
      }
    }

    /** One turn of the walk in `create`: follow the last copy's `_next$`
        and, when there is a next point, copy it into the session context. */
    method CopyNext(ghost w0: World, ghost p: nat, ghost ctx: Option<nat>, ghost made: nat, c: nat, at: nat)
      returns (next: Option<nat>)
      requires Sound(w0) && p < |w0.points| && (ctx.Some? ==> ctx.value < |w0.contexts|)
      requires 0 < made <= |ChainFrom(w0, p)| && Valid() && State() == CreatedUpTo(w0, p, ctx, made)
      requires c == SessionContext(w0, ctx) && at == |w0.points| + made - 1
      modifies this
      ensures Valid()
      ensures next.None? ==> made == |ChainFrom(w0, p)| && State() == old(State())
      ensures next.Some? ==> made < |ChainFrom(w0, p)| && next.value == |w0.points| + made
      ensures next.Some? ==> State() == CreatedUpTo(w0, p, ctx, made + 1)
    {
      CreateAdvance(w0, p, ctx, made);
      next := points[at].next;
      if next.Some? {
        var copied := Copy(next.value, Some(c));
        next := Some(copied.value);
      }
    }

    /** The walk of `create` from the head copy: each copy's handler runs,
        then its `_next$` is followed and copied, until the chain ends. */
    method WalkChain(ghost w0: World, ghost p: nat, ghost ctx: Option<nat>, c: nat, head: nat)
      returns (invoked: seq<nat>)
      requires Sound(w0) && p < |w0.points| && (ctx.Some? ==> ctx.value < |w0.contexts|)
      requires Valid() && State() == CreatedUpTo(w0, p, ctx, 1)
      requires c == SessionContext(w0, ctx) && head == |w0.points|
      modifies this
      ensures Valid() && State() == CreatedUpTo(w0, p, ctx, |ChainFrom(w0, p)|)
      ensures invoked == Range(head, |ChainFrom(w0, p)|)
    {
      ghost var chain := ChainFrom(w0, p);
      invoked := [];
      var current := Some(head);
      ghost var made := 1;
      while current.Some?
        invariant Valid() && 0 < made <= |chain| && made == |invoked| + (if current.Some? then 1 else 0)
        invariant current.Some? ==> current.value == head + |invoked|
        invariant current.None? ==> made == |chain|
        invariant forall k | 0 <= k < |invoked| :: invoked[k] == head + k
        invariant State() == CreatedUpTo(w0, p, ctx, made)
        decreases |chain| - |invoked|
      {
        var at := current.value;
        // `current.handler(current, current.config)` runs here
        invoked := invoked + [at];
        var next := CopyNext(w0, p, ctx, made, c, at);
        current := next;
        if next.Some? {
          made := made + 1;
        }
      }
      RangeOf(invoked, head);
    }

    /** `create(context)` on point `p`: the context (a new `{}` when none is
        given) inherits the plain keys of `p`'s own context, `p` is copied into
        it, and the chain is walked by `_next$`, copying each next point and
        running each copy's handler in turn. */
    method Create(p: nat, ctx: Option<nat>) returns (head: nat, invoked: seq<nat>)
      requires Valid() && p < |points| && (ctx.Some? ==> ctx.value < |contexts|)
      modifies this
      ensures Valid() && State() == CreateWorld(old(State()), p, ctx).world
      ensures head == CreateWorld(old(State()), p, ctx).head && invoked == CreateWorld(old(State()), p, ctx).invoked
    {
      ghost var w0 := State();
      var c := PrepareContext(p, ctx);
      CreateStart(w0, p, ctx);
      CreateStep(w0, p, ctx, 0);
      var first := Copy(p, Some(c));
      head := first.value;
      invoked := WalkChain(w0, p, ctx, c, head);
      CreateDone(w0, p, ctx);
    }

    /** `link(pipe)` on point `p`: a session of the nested pipe is created in
        `p`'s context, then the three `$link$` bridges are registered; the
        first registration that throws ends it. */
    method Link(p: nat, nested: nat) returns (r: Outcome<nat>)
      requires Valid() && p < |points| && nested < |points|
      modifies this
      ensures Valid()
      ensures State() == LinkWorld(old(State()), p, nested).world && r == LinkWorld(old(State()), p, nested).result
    {
      var own := Scope(State(), p, None);
      var h, _ := Create(nested, own);
      var started := On(p, LinkKey, LinkStart(h));
      if started.Fail? {
        return Fail(started.error);
      }
      var headed := On(h, LinkKey, LinkHead(p, h));
      if headed.Fail? {
        return Fail(headed.error);
      }
      var t := Tail(h);
      if t.None? {
        return Fail(TypeError);
      }
      var tailed := On(t.value, LinkKey, LinkTail(p, h));
      if tailed.Fail? {
        return Fail(tailed.error);
      }
      r := Ok(h);
    }

    /** The routing half of `send(message)` from point `from` at time `now`:
        the ttl is defaulted and checked, then the message is aimed. Only the
        message changes. */
    method Direct(from: nat, m: Message, now: int) returns (action: SendAction)
      requires Valid() && from < |points| && MsgOk(State(), m.Snapshot())
      modifies m
      ensures Routed(m.Snapshot(), action)
              == Route(old(m.Snapshot()), from, points[from], CustomDrop(State(), from), StrictOf(State(), old(m.Snapshot())), now)
    {
      if m.ttl.None? {
        m.ttl := Some(now + TtlSpan(points[from].config));
      }
      if m.ttl.value < now {
        var own := Scope(State(), from, None);
        var custom := own.Some? && Truthy(Registry.Get(contexts[own.value].vars, "onDrop"));
        return Dropped(custom);
      }
      action := Aim(from, m);
    }

    /** `send` past the ttl check: the message is staged, bound to a context
        and sent to its neighbour, or the end of the chain decides. */
    method Aim(from: nat, m: Message) returns (action: SendAction)
      requires Valid() && from < |points| && MsgOk(State(), m.Snapshot())
      modifies m
      ensures Routed(m.Snapshot(), action) == Steer(old(m.Snapshot()), from, points[from], StrictOf(State(), old(m.Snapshot())))
    {
      var pt := points[from];
      var target: Option<nat>;
      if m.stage == Stage.Process {
        target := Some(from);
      } else {
        target := if m.flow == Request then pt.next else pt.prev;
        m.stage := Transit;
      }
      if target.Some? {
        m.context := m.context.OrElse(pt.context);
        if m.context.None? {
          action := NoContext;
        } else {
          action := Deliver(target.value);
        }
      } else if m.kind == "error" {
        action := Rethrow(m.ref);
      } else if m.context.Some? && m.kind in StrictNames(contexts[m.context.value].strict) {
        action := StrictViolation(m.context.value);
      } else if m.kind == "trace" && m.flow == Request {
        m.flow := Response;
        action := TurnAround;
      } else {
        action := Absorbed;
      }
    }

    /** `send(message)` from point `from` at time `now`, one step: the message
        is updated in place and the action says what happens to it next. On a
        strict-mode violation the context-bound copy that will throw the
        error is made here and returned. */
    method Send(from: nat, m: Message, now: int) returns (action: SendAction, copy: Option<nat>)
      requires Valid() && from < |points| && MsgOk(State(), m.Snapshot())
      modifies this, m
      ensures Valid() && MsgOk(State(), m.Snapshot())
      ensures var s := SendStep(old(State()), from, old(m.Snapshot()), now);
              State() == s.world && m.Snapshot() == s.routed.msg && action == s.routed.action && copy == s.copy
    {
      action := Direct(from, m, now);
      copy := None;
      if action.StrictViolation? {
        var made := Copy(from, Some(action.context));
        copy := Some(made.value);
      }
    }

    /** `throw(err)` on point `p`: an `error` response carrying `err` is sent
        from `p`. */
    method Throw(p: nat, err: Value, now: int) returns (action: SendAction, copy: Option<nat>)
      requires Valid() && p < |points|
      modifies this
      ensures Valid()
      ensures var s := SendStep(old(State()), p, ErrorMessage(err), now);
              State() == s.world && action == s.routed.action && copy == s.copy
    {
      var m := new Message(ErrorMessage(err));
      action, copy := Send(p, m, now);
    }

    /** The second half of `process(message)` at point `at`, once the action
        `d` is decided and the message updated to `d.msg`: the chosen hook
        runs as far as it touches the engine, and `next` says whether the
        message is sent on (and from where), waits for a callback, or throws. */
    method Perform(at: nat, m: Message, d: Processed) returns (next: Next)
      requires Valid() && at < |points| && MsgOk(State(), d.msg) && ActionHookOk(d.action, |points|)
      requires m.Snapshot() == d.msg
      modifies this, m
      ensures Valid() && MsgOk(State(), m.Snapshot())
      ensures var s := Act(old(State()), at, d);
              State() == s.world && m.Snapshot() == s.msg && next == s.next
    {
      match d.action {
        case Fault(e) =>
          next := Raise(e);
        case Forward =>
          next := SendOn(at);
        case Invoke(_, hook, _, awaits) =>
          var fired := RunHook(hook);
          next := if fired.Fail? then Raise(fired.error) else if awaits then Suspend else SendOn(at);
        case ToEndHook(_, hook) =>
          var fired := RunHook(hook);
          next := if fired.Fail? then Raise(fired.error) else Suspend;
        case ToBridge(hook) =>
          var hop := BridgeHop(hook, m.flow, m.stage);
          if hop.None? {
            var fired := RunHook(hook);
            next := if fired.Fail? then Raise(fired.error) else Suspend;
          } else {
            m.stage := hop.value.stage;
            match hop.value.origin {
              case FromPoint(q) =>
                next := SendOn(q);
              case FromTailOf(h) =>
                var t := Tail(h);
                next := if t.None? then Raise(TypeError) else SendOn(t.value);
            }
          }
      }
    }

    /** `process(message)` at point `at`, one step: the hooks are looked up in
        the message's context, the message is updated in place, the chosen
        hook runs as far as it touches the engine, and `next` says whether the
        message is sent on (and from where), waits for a callback, or throws. */
    method Process(at: nat, m: Message) returns (action: ProcessAction, next: Next)
      requires Valid() && at < |points| && MsgOk(State(), m.Snapshot())
      modifies this, m
      ensures Valid() && MsgOk(State(), m.Snapshot())
      ensures var s := ProcessStep(old(State()), at, old(m.Snapshot()));
              State() == s.world && m.Snapshot() == s.msg && action == s.action && next == s.next
    {
      var found := Handlers(at, m.context);
      if found.Fail? {
        return Fault(MissingContext), Raise(MissingContext);
      }
      var d := Decide(m.Snapshot(), found.value, at);
      m.stage, m.ref := d.msg.stage, d.msg.ref;
      action := d.action;
      next := Perform(at, m, d);
    }

    /** `onComplete(ref?)` of the asynchronous hook that took the message at
        point `at`: `ref` is replaced only when an argument is given, then the
        end hook of a finished stream runs, or the message is sent on. */
    method Complete(at: nat, m: Message, arg: Option<Value>) returns (action: ProcessAction, next: Next)
      requires Valid() && at < |points| && MsgOk(State(), m.Snapshot())
      modifies this, m
      ensures Valid() && MsgOk(State(), m.Snapshot())
      ensures var s := CompleteStep(old(State()), at, old(m.Snapshot()), arg);
              State() == s.world && m.Snapshot() == s.msg && action == s.action && next == s.next
    {
      var scope := Scope(State(), at, m.context);
      if scope.None? {
        return Fault(MissingContext), Raise(MissingContext);
      }
      var id := points[at].id;
      var hooks := HooksOf(contexts[scope.value], id);
      assert forall k | k in hooks :: HookOk(hooks[k], |points|) by {
        if id in contexts[scope.value].points {
          assert RecordOk(contexts[scope.value].points[id], points, id);
        }
      }
      if arg.Some? {
        m.ref := arg.value;
      }
      var end := EndHookFor(m.Snapshot(), hooks);
      if end.Some? {
        action := ToEndHook(EndKey(m.flow), end.value);
        var fired := RunHook(end.value);
        next := if fired.Fail? then Raise(fired.error) else Suspend;
      } else {
        action := Forward;
        next := SendOn(at);
      }
    }
  }
}
