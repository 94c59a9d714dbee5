/**
 * Everything the engine allocates, as one value: the arena of pipe points
 * (structural points and their session copies) and the context objects, both
 * addressed by index. The operations of `PipePoint` that change this state are
 * stated here as functions from the state before to the state after; the
 * `Engine` class performs them in place.
 */
module World {
  import opened Values
  import opened Topology
  import opened Registry
  import opened Routing
  import opened Dispatch

  datatype World = World(points: seq<Point>, contexts: seq<ContextState>)

  ghost predicate HookOk(h: Hook, n: nat) {
    match h
    case UserHook(_) => true
    case OnceHook(owner, _, _) => owner < n
    case LinkStart(nested) => nested < n
    case LinkHead(parent, nested) => parent < n && nested < n
    case LinkTail(parent, nested) => parent < n && nested < n
  }

  /** The record of `id` holds a point with that id, and its hooks name
      existing points. */
  ghost predicate RecordOk(r: PointRecord, ps: seq<Point>, id: nat) {
    && r.ref < |ps| && ps[r.ref].id == id
    && forall k | k in r.hooks :: HookOk(r.hooks[k], |ps|)
  }

  ghost predicate ContextOk(cs: ContextState, ps: seq<Point>) {
    forall id | id in cs.points :: RecordOk(cs.points[id], ps, id)
  }

  /** Every index stored anywhere names an existing point or context, and
      every record of a context is filed under the id of the point it holds. */
  ghost predicate Sound(w: World) {
    && ArenaOk(w.points, |w.contexts|)
    && forall c | 0 <= c < |w.contexts| :: ContextOk(w.contexts[c], w.points)
  }

  predicate MsgOk(w: World, m: Msg) {
    m.context.Some? ==> m.context.value < |w.contexts|
  }

  /** Records stay well-formed when points are appended or updated without
      changing their ids. */
  lemma ContextKept(cs: ContextState, ps: seq<Point>, ps': seq<Point>)
    requires ContextOk(cs, ps) && |ps| <= |ps'|
    requires forall i | 0 <= i < |ps| :: ps'[i].id == ps[i].id
    ensures ContextOk(cs, ps')
  {
    forall id | id in cs.points ensures RecordOk(cs.points[id], ps', id) {
      var r := cs.points[id];
      assert RecordOk(r, ps, id);
      forall k | k in r.hooks ensures HookOk(r.hooks[k], |ps'|) {
        assert HookOk(r.hooks[k], |ps|);
      }
    }
  }

  /** Replacing one context by a well-formed one keeps the world well-formed. */
  lemma SetContextOk(w: World, c: nat, cs: ContextState)
    requires Sound(w) && c < |w.contexts| && ContextOk(cs, w.points)
    ensures Sound(w.(contexts := w.contexts[c := cs]))
  {
    var w' := w.(contexts := w.contexts[c := cs]);
    forall i | 0 <= i < |w'.points| ensures PointOk(w'.points, |w'.contexts|, i) {
      assert PointOk(w.points, |w.contexts|, i);
    }
  }

  /** Adding a well-formed context keeps the world well-formed. */
  lemma AddContextOk(w: World, cs: ContextState)
    requires Sound(w) && ContextOk(cs, w.points)
    ensures Sound(w.(contexts := w.contexts + [cs]))
  {
    var w' := w.(contexts := w.contexts + [cs]);
    forall i | 0 <= i < |w'.points| ensures PointOk(w'.points, |w'.contexts|, i) {
      assert PointOk(w.points, |w.contexts|, i);
    }
  }

  /** Changing points in place keeps the world well-formed when ids, contexts
      and links stay as they were. */
  lemma SetPointOk(w: World, i: nat, pt: Point)
    requires Sound(w) && i < |w.points|
    requires pt.id == w.points[i].id && pt.context == w.points[i].context
    requires pt.next == w.points[i].next && pt.prev == w.points[i].prev && pt.tail == w.points[i].tail
    ensures Sound(w.(points := w.points[i := pt]))
  {
    var w' := w.(points := w.points[i := pt]);
    forall j | 0 <= j < |w'.points| ensures PointOk(w'.points, |w'.contexts|, j) {
      assert PointOk(w.points, |w.contexts|, j);
    }
    forall c | 0 <= c < |w'.contexts| ensures ContextOk(w'.contexts[c], w'.points) {
      ContextKept(w.contexts[c], w.points, w'.points);
    }
  }

  lemma TouchOk(cs: ContextState, ps: seq<Point>, id: nat, ref: nat)
    requires ContextOk(cs, ps) && ref < |ps| && ps[ref].id == id
    ensures ContextOk(Touch(cs, id, ref), ps)
  {
    var t := Touch(cs, id, ref);
    forall k | k in t.points ensures RecordOk(t.points[k], ps, k) {
      if k in cs.points { assert RecordOk(cs.points[k], ps, k); }
    }
  }

  /** `_points(...)` on point `p` in context `c`: the record for the point's id
      is created, holding `p`, if the context has none. */
  function TouchAt(w: World, c: nat, p: nat): (r: World)
    requires Sound(w) && c < |w.contexts| && p < |w.points|
    ensures Sound(r) && r.points == w.points && |r.contexts| == |w.contexts|
    ensures r.contexts == w.contexts[c := Touch(w.contexts[c], w.points[p].id, p)]
  {
    TouchOk(w.contexts[c], w.points, w.points[p].id, p);
    SetContextOk(w, c, Touch(w.contexts[c], w.points[p].id, p));
    w.(contexts := w.contexts[c := Touch(w.contexts[c], w.points[p].id, p)])
  }

  /** The context a point is bound to, which exists. */
  function PointContext(w: World, p: nat): (c: Option<nat>)
    requires Sound(w) && p < |w.points|
    ensures c == w.points[p].context
    ensures c.Some? ==> c.value < |w.contexts|
  {
    assert PointOk(w.points, |w.contexts|, p);
    w.points[p].context
  }

  /** Appending a well-formed point keeps the world well-formed: a session
      copy carrying an existing id, or a new structural point whose id is its
      own index. */
  lemma AppendOk(w: World, pt: Point)
    requires Sound(w)
    requires pt.next.Some? ==> pt.next.value < |w.points| && w.points[pt.next.value].context.None?
    requires pt.prev.Some? ==> pt.prev.value < |w.points|
    requires pt.tail.Some? ==> pt.tail.value < |w.points|
    requires pt.context.Some? ==> pt.context.value < |w.contexts| && pt.id < |w.points|
    requires pt.context.None? ==> pt.id == |w.points| && pt.next.None?
    ensures Sound(w.(points := w.points + [pt]))
  {
    var w' := w.(points := w.points + [pt]);
    forall i | 0 <= i < |w'.points| ensures PointOk(w'.points, |w'.contexts|, i) {
      if i < |w.points| { assert PointOk(w.points, |w.contexts|, i); }
    }
    forall c | 0 <= c < |w'.contexts| ensures ContextOk(w'.contexts[c], w'.points) {
      ContextKept(w.contexts[c], w.points, w'.points);
    }
  }

  /** Laying out a non-empty handler list after the arena keeps the world
      well-formed. */
  lemma LaidOk(w: World, metas: seq<HandlerMeta>)
    requires Sound(w) && |metas| > 0
    ensures Sound(World(w.points + Laid(metas, |w.points|), w.contexts))
  {
    var base := |w.points|;
    var laid := Laid(metas, base);
    var ps := w.points + laid;
    forall i | 0 <= i < |ps| ensures PointOk(ps, |w.contexts|, i) {
      if i < base {
        assert PointOk(w.points, |w.contexts|, i);
      } else {
        assert ps[i] == laid[i - base];
        if i + 1 < |ps| {
          assert ps[i + 1] == laid[i + 1 - base];
        }
      }
    }
    forall c | 0 <= c < |w.contexts| ensures ContextOk(w.contexts[c], ps) {
      ContextKept(w.contexts[c], w.points, ps);
    }
  }

  /** The state once `buildPipe(metas)` has laid its points out. */
  ghost function PipeWorld(w: World, metas: seq<HandlerMeta>): (r: World)
    requires Sound(w) && |metas| > 0
    ensures Sound(r) && r.points == w.points + Laid(metas, |w.points|) && r.contexts == w.contexts
  {
    LaidOk(w, metas);
    World(w.points + Laid(metas, |w.points|), w.contexts)
  }

  /** `copy(context)` of point `p`: a session copy bound to `ctx` is appended
      and registered for its id in that context unless a record exists; a
      missing context throws and allocates nothing that survives. */
  function CopyPoint(w: World, p: nat, ctx: Option<nat>): (r: Outcome<World>)
    requires Sound(w) && p < |w.points| && (ctx.Some? ==> ctx.value < |w.contexts|)
    ensures r.Fail? <==> ctx.None?
    ensures r.Fail? ==> r.error == MissingContext
    ensures r.Ok? ==> Sound(r.value) && |r.value.contexts| == |w.contexts|
    ensures r.Ok? ==> r.value.points == w.points + [CopyOf(w.points[p], ctx.value)]
    ensures r.Ok? ==>
              r.value.contexts == w.contexts[ctx.value := Touch(w.contexts[ctx.value], w.points[p].id, |w.points|)]
  {
    if ctx.None? then Fail(MissingContext)
    else
      var c := ctx.value;
      assert PointOk(w.points, |w.contexts|, p);
      var pt := CopyOf(w.points[p], c);
      AppendOk(w, pt);
      var grown := w.(points := w.points + [pt]);
      assert grown.points[|w.points|] == pt;
      Ok(TouchAt(grown, c, |w.points|))
  }

  /** The result of a getter: the state after it and the point it returns. */
  datatype Read = Read(world: World, point: Option<nat>)

  /** `target._points(this.context).ref` as the getters read it on point `p`:
      on a session point the registered point for the target's id (touching
      the record), otherwise the structural target itself. */
  function Resolve(w: World, p: nat, target: Option<nat>): (r: Read)
    requires Sound(w) && p < |w.points| && (target.Some? ==> target.value < |w.points|)
    ensures Sound(r.world) && r.world.points == w.points && |r.world.contexts| == |w.contexts|
    ensures r.point.Some? <==> target.Some?
    ensures r.point.Some? ==> r.point.value < |w.points|
    ensures w.points[p].context.None? || target.None? ==> r == Read(w, target)
    ensures PointContext(w, p).Some? && target.Some? ==>
              var c := PointContext(w, p).value;
              var id := w.points[target.value].id;
              && r.world == TouchAt(w, c, target.value)
              && r.point == Some(if id in w.contexts[c].points then w.contexts[c].points[id].ref else target.value)
  {
    assert PointOk(w.points, |w.contexts|, p);
    if w.points[p].context.None? || target.None? then Read(w, target)
    else
      var c := w.points[p].context.value;
      var w1 := TouchAt(w, c, target.value);
      var id := w.points[target.value].id;
      assert RecordOk(w1.contexts[c].points[id], w.points, id);
      Read(w1, Some(w1.contexts[c].points[id].ref))
  }

  /** The `next` getter. */
  function NextOf(w: World, p: nat): (r: Read)
    requires Sound(w) && p < |w.points|
    ensures Sound(r.world) && r.world.points == w.points && |r.world.contexts| == |w.contexts|
    ensures r.point.Some? ==> r.point.value < |w.points|
  {
    assert PointOk(w.points, |w.contexts|, p);
    Resolve(w, p, w.points[p].next)
  }

  /** The `tail` getter. */
  function TailOf(w: World, p: nat): (r: Read)
    requires Sound(w) && p < |w.points|
    ensures Sound(r.world) && r.world.points == w.points && |r.world.contexts| == |w.contexts|
    ensures r.point.Some? ==> r.point.value < |w.points|
  {
    assert PointOk(w.points, |w.contexts|, p);
    Resolve(w, p, w.points[p].tail)
  }

  /** The `prev` getter as the source writes it: it resolves the session point
      (touching its record) but returns the structural `_prev$`. */
  function PrevAsWritten(w: World, p: nat): (r: Read)
    requires Sound(w) && p < |w.points|
    ensures Sound(r.world) && r.world.points == w.points && |r.world.contexts| == |w.contexts|
    ensures r.point == w.points[p].prev
  {
    assert PointOk(w.points, |w.contexts|, p);
    Read(Resolve(w, p, w.points[p].prev).world, w.points[p].prev)
  }

  /** The `prev` getter as `next` and `tail` suggest it was meant: it returns
      the resolved session point. */
  function PrevIntended(w: World, p: nat): (r: Read)
    requires Sound(w) && p < |w.points|
    ensures Sound(r.world) && r.world.points == w.points && |r.world.contexts| == |w.contexts|
    ensures r.point.Some? ==> r.point.value < |w.points|
  {
    assert PointOk(w.points, |w.contexts|, p);
    Resolve(w, p, w.points[p].prev)
  }

  /** `on(type, hook)` on point `p`: registers in the point's own context, throws
      without one or when the type is taken. */
  function OnAt(w: World, p: nat, key: string, hook: Hook): (r: Outcome<World>)
    requires Sound(w) && p < |w.points| && HookOk(hook, |w.points|)
    ensures r.Ok? ==> Sound(r.value) && r.value.points == w.points && |r.value.contexts| == |w.contexts|
    ensures w.points[p].context.None? ==> r == Fail(MissingContext)
    ensures PointContext(w, p).Some? ==>
              var c := PointContext(w, p).value;
              var reg := Register(w.contexts[c], w.points[p].id, p, key, hook);
              && (r.Fail? <==> reg.Fail?)
              && (r.Fail? ==> r.error == reg.error)
              && (r.Ok? ==> r.value.contexts == w.contexts[c := reg.value])
  {
    assert PointOk(w.points, |w.contexts|, p);
    if w.points[p].context.None? then Fail(MissingContext)
    else
      var c := w.points[p].context.value;
      var id := w.points[p].id;
      match Register(w.contexts[c], id, p, key, hook)
      case Fail(e) => Fail(e)
      case Ok(cs) =>
        assert ContextOk(cs, w.points) by {
          TouchOk(w.contexts[c], w.points, id, p);
          var t := Touch(w.contexts[c], id, p);
          forall k | k in cs.points ensures RecordOk(cs.points[k], w.points, k) {
            assert RecordOk(t.points[k], w.points, k);
          }
        }
        SetContextOk(w, c, cs);
        Ok(w.(contexts := w.contexts[c := cs]))
  }

  /** `once(type, fn)` on point `p` stores, under `type` for `p`'s id in
      `p`'s context, a hook that removes itself through `p`: exactly the
      hook `OnceFiresAtMostOnce` speaks of. */
  lemma OnceRegistered(w: World, p: nat, key: string, fn: nat)
    requires Sound(w) && p < |w.points|
    requires OnAt(w, p, key, OnceHook(p, key, fn)).Ok?
    ensures w.points[p].context.Some?
    ensures var c := w.points[p].context.value;
            var r := OnAt(w, p, key, OnceHook(p, key, fn)).value;
            && c < |r.contexts| && r.points == w.points
            && key in HooksOf(r.contexts[c], w.points[p].id)
            && HooksOf(r.contexts[c], w.points[p].id)[key] == OnceHook(p, key, fn)
            && HooksOf(r.contexts[c], w.points[p].id) - {key} == HooksOf(w.contexts[c], w.points[p].id) - {key}
  {
  }

  /** `removeListener(type)` on point `p`. */
  function RemoveAt(w: World, p: nat, key: string): (r: Outcome<World>)
    requires Sound(w) && p < |w.points|
    ensures r.Ok? ==> Sound(r.value) && r.value.points == w.points && |r.value.contexts| == |w.contexts|
    ensures w.points[p].context.None? <==> r == Fail(MissingContext)
    ensures PointContext(w, p).Some? ==>
              var c := PointContext(w, p).value;
              r == Ok(w.(contexts := w.contexts[c := Unregister(w.contexts[c], w.points[p].id, p, key)]))
  {
    assert PointOk(w.points, |w.contexts|, p);
    if w.points[p].context.None? then Fail(MissingContext)
    else
      var c := w.points[p].context.value;
      var id := w.points[p].id;
      var cs := Unregister(w.contexts[c], id, p, key);
      assert ContextOk(cs, w.points) by {
        TouchOk(w.contexts[c], w.points, id, p);
        var t := Touch(w.contexts[c], id, p);
        forall k | k in cs.points ensures RecordOk(cs.points[k], w.points, k) {
          assert RecordOk(t.points[k], w.points, k);
        }
      }
      SetContextOk(w, c, cs);
      Ok(w.(contexts := w.contexts[c := cs]))
  }

  /** What calling a stored hook does to the state: a `once` wrapper first
      deletes itself from its owner's registry; every other hook is opaque. */
  function Fire(w: World, hook: Hook): (r: Outcome<World>)
    requires Sound(w) && HookOk(hook, |w.points|)
    ensures r.Ok? ==> Sound(r.value) && r.value.points == w.points && |r.value.contexts| == |w.contexts|
    ensures !hook.OnceHook? ==> r == Ok(w)
    ensures hook.OnceHook? ==> r == RemoveAt(w, hook.owner, hook.key)
  {
    if hook.OnceHook? then RemoveAt(w, hook.owner, hook.key) else Ok(w)
  }

  /** What a `send` step leaves behind: the state (with the context-bound copy a
      strict violation makes), the routed message, and that copy. */
  datatype Sent = Sent(world: World, routed: Routed, copy: Option<nat>)

  /** The sending point's own context has a truthy `onDrop`. */
  predicate CustomDrop(w: World, p: nat)
    requires Sound(w) && p < |w.points|
  {
    PointContext(w, p).Some? && Truthy(Get(w.contexts[PointContext(w, p).value].vars, "onDrop"))
  }

  /** The `$strict` list of the message's context (empty without one). */
  function StrictOf(w: World, m: Msg): seq<string>
    requires MsgOk(w, m)
  {
    if m.context.Some? then StrictNames(w.contexts[m.context.value].strict) else []
  }

  /** `send(message)` from point `from`. */
  function SendStep(w: World, from: nat, m: Msg, now: int): (s: Sent)
    requires Sound(w) && from < |w.points| && MsgOk(w, m)
    ensures Sound(s.world) && MsgOk(s.world, s.routed.msg) && |s.world.contexts| == |w.contexts|
    ensures s.routed == Route(m, from, w.points[from], CustomDrop(w, from), StrictOf(w, m), now)
    ensures s.routed.action.Deliver? ==> s.routed.action.target < |w.points|
    ensures s.copy.Some? <==> s.routed.action.StrictViolation?
    ensures s.copy.None? ==> s.world == w
    ensures s.copy.Some? ==> s.copy.value == |w.points| && s.copy.value < |s.world.points|
    ensures s.copy.Some? ==> Sound(s.world) && s.world == CopyPoint(w, from, Some(s.routed.action.context)).value
  {
    var pt := w.points[from];
    assert PointOk(w.points, |w.contexts|, from);
    var r := Route(m, from, pt, CustomDrop(w, from), StrictOf(w, m), now);
    if r.action.StrictViolation? then
      Sent(CopyPoint(w, from, Some(r.action.context)).value, r, Some(|w.points|))
    else Sent(w, r, None)
  }

  /** What happens after `process`: the message waits for a callback, is sent
      on from a point, or an error is thrown. */
  datatype Next = Suspend | SendOn(from: nat) | Raise(error: Error)

  datatype Step = Step(world: World, msg: Msg, action: ProcessAction, next: Next)

  /** The context `process` looks hooks up in: the message's, else the point's. */
  function ProcessContext(w: World, at: nat, m: Msg): (c: Option<nat>)
    requires Sound(w) && at < |w.points| && MsgOk(w, m)
    ensures c == m.context.OrElse(w.points[at].context)
    ensures c.Some? ==> c.value < |w.contexts|
  {
    m.context.OrElse(PointContext(w, at))
  }

  /** The hook an action runs, if it runs one. */
  ghost predicate ActionHookOk(a: ProcessAction, n: nat) {
    (a.Invoke? || a.ToEndHook? || a.ToBridge?) ==> HookOk(a.hook, n)
  }

  /** The second half of `process` at point `at`, once the action `d` is
      decided, in the state `w1` where the point's record exists: the hook is
      run (a `once` wrapper removes itself, a link bridge moves the message),
      and what comes next is decided. */
  function Act(w1: World, at: nat, d: Processed): (s: Step)
    requires Sound(w1) && at < |w1.points| && MsgOk(w1, d.msg) && ActionHookOk(d.action, |w1.points|)
    ensures Sound(s.world) && MsgOk(s.world, s.msg) && s.world.points == w1.points && |s.world.contexts| == |w1.contexts|
    ensures s.next.SendOn? ==> s.next.from < |w1.points|
    ensures s.action == d.action
    ensures s.msg == d.msg || (d.action.ToBridge? && s.msg == d.msg.(stage := s.msg.stage))
    ensures d.action.Forward? ==> s.next == SendOn(at) && s.world == w1 && s.msg == d.msg
    ensures d.action.Fault? ==> s.next == Raise(d.action.error)
    ensures d.action.Invoke? && Fire(w1, d.action.hook).Ok? ==>
              s.world == Fire(w1, d.action.hook).value && s.next == (if d.action.awaits then Suspend else SendOn(at))
    ensures d.action.ToEndHook? && Fire(w1, d.action.hook).Ok? ==>
              s.world == Fire(w1, d.action.hook).value && s.next == Suspend
    ensures d.action.ToBridge? ==>
              var hop := BridgeHop(d.action.hook, d.msg.flow, d.msg.stage);
              && (hop.None? ==> s.next == Suspend || s.next.Raise?)
              && (hop.Some? ==> s.msg == d.msg.(stage := hop.value.stage))
              && (hop.Some? && hop.value.origin.FromPoint? ==> s.world == w1 && s.next == SendOn(hop.value.origin.point))
              && (hop.Some? && hop.value.origin.FromTailOf? ==>
                    var t := TailOf(w1, hop.value.origin.head);
                    s.world == t.world && s.next == (if t.point.Some? then SendOn(t.point.value) else Raise(TypeError)))
  {
    match d.action
    case Fault(e) => Step(w1, d.msg, d.action, Raise(e))
    case Forward => Step(w1, d.msg, d.action, SendOn(at))
    case Invoke(_, hook, _, awaits) =>
      (match Fire(w1, hook)
       case Fail(e) => Step(w1, d.msg, d.action, Raise(e))
       case Ok(w2) => Step(w2, d.msg, d.action, if awaits then Suspend else SendOn(at)))
    case ToEndHook(_, hook) =>
      (match Fire(w1, hook)
       case Fail(e) => Step(w1, d.msg, d.action, Raise(e))
       case Ok(w2) => Step(w2, d.msg, d.action, Suspend))
    case ToBridge(hook) =>
      match BridgeHop(hook, d.msg.flow, d.msg.stage)
      case None =>
        (match Fire(w1, hook)
         case Fail(e) => Step(w1, d.msg, d.action, Raise(e))
         case Ok(w2) => Step(w2, d.msg, d.action, Suspend))
      case Some(hop) =>
        var m2 := d.msg.(stage := hop.stage);
        match hop.origin
        case FromPoint(p) => Step(w1, m2, d.action, SendOn(p))
        case FromTailOf(head) =>
          var t := TailOf(w1, head);
          if t.point.None? then Step(t.world, m2, d.action, Raise(TypeError))
          else Step(t.world, m2, d.action, SendOn(t.point.value))
  }

  /** `process(message)` at point `at`, including what the hook it calls does
      to the state when that hook is the engine's own (a `once` wrapper or a
      link bridge). */
  function ProcessStep(w: World, at: nat, m: Msg): (s: Step)
    requires Sound(w) && at < |w.points| && MsgOk(w, m)
    ensures Sound(s.world) && MsgOk(s.world, s.msg) && s.world.points == w.points && |s.world.contexts| == |w.contexts|
    ensures s.next.SendOn? ==> s.next.from < |w.points|
    ensures ProcessContext(w, at, m).None? ==> s == Step(w, m, Fault(MissingContext), Raise(MissingContext))
    ensures ProcessContext(w, at, m).Some? ==>
              var c := ProcessContext(w, at, m).value;
              var d := Decide(m, HooksOf(w.contexts[c], w.points[at].id), at);
              && s.action == d.action
              && (s.msg == d.msg || (d.action.ToBridge? && s.msg == d.msg.(stage := s.msg.stage)))
              && (d.action.Forward? ==> s.next == SendOn(at) && s.world == TouchAt(w, c, at) && s.msg == d.msg)
              && (d.action.Fault? ==> s.next == Raise(d.action.error))
              && (d.action.Invoke? && Fire(TouchAt(w, c, at), d.action.hook).Ok? ==>
                    s.world == Fire(TouchAt(w, c, at), d.action.hook).value
                    && s.next == (if d.action.awaits then Suspend else SendOn(at)))
              && (d.action.ToEndHook? && Fire(TouchAt(w, c, at), d.action.hook).Ok? ==>
                    s.world == Fire(TouchAt(w, c, at), d.action.hook).value && s.next == Suspend)
              && (d.action.ToBridge? ==>
                    var hop := BridgeHop(d.action.hook, d.msg.flow, d.msg.stage);
                    && (hop.None? ==> s.next == Suspend || s.next.Raise?)
                    && (hop.Some? ==> s.msg == d.msg.(stage := hop.value.stage))
                    && (hop.Some? && hop.value.origin.FromPoint? ==>
                          s.world == TouchAt(w, c, at) && s.next == SendOn(hop.value.origin.point))
                    && (hop.Some? && hop.value.origin.FromTailOf? ==>
                          var t := TailOf(TouchAt(w, c, at), hop.value.origin.head);
                          s.world == t.world && s.next == (if t.point.Some? then SendOn(t.point.value) else Raise(TypeError))))
  {
    var ctx := ProcessContext(w, at, m);
    assert PointOk(w.points, |w.contexts|, at);
    if ctx.None? then Step(w, m, Fault(MissingContext), Raise(MissingContext))
    else
      var c := ctx.value;
      var w1 := TouchAt(w, c, at);
      var id := w.points[at].id;
      var hooks := HooksOf(w1.contexts[c], id);
      assert hooks == HooksOf(w.contexts[c], id);
      assert forall k | k in hooks :: HookOk(hooks[k], |w.points|) by {
        if id in w1.contexts[c].points { assert RecordOk(w1.contexts[c].points[id], w.points, id); }
      }
      var d := Decide(m, hooks, at);
      Act(w1, at, d)
  }

  /** The `once` hook a process step runs, when its owner is the point
      bound to the same context with the same id (as `once` registers it),
      is gone after that step: a second message of any type at this point
      selects the wildcard hook or nothing, never this one. */
  lemma OnceFiresAtMostOnce(w: World, at: nat, m: Msg)
    requires Sound(w) && at < |w.points| && MsgOk(w, m)
    requires ProcessContext(w, at, m).Some?
    requires var c := ProcessContext(w, at, m).value;
             var d := Decide(m, HooksOf(w.contexts[c], w.points[at].id), at);
             && d.action.Invoke? && d.action.hook.OnceHook? && d.action.hook.key == d.action.key
             && d.action.hook.owner < |w.points|
             && w.points[d.action.hook.owner].context == Some(c)
             && w.points[d.action.hook.owner].id == w.points[at].id
    ensures var c := ProcessContext(w, at, m).value;
            var id := w.points[at].id;
            var key := Decide(m, HooksOf(w.contexts[c], id), at).action.key;
            var after := HooksOf(ProcessStep(w, at, m).world.contexts[c], id);
            && !ProcessStep(w, at, m).next.Raise?
            && after == HooksOf(w.contexts[c], id) - {key}
            && forall kind :: SelectHook(after, kind).Some? ==> SelectHook(after, kind).value.key != key
  {
    var c := ProcessContext(w, at, m).value;
    var id := w.points[at].id;
    var d := Decide(m, HooksOf(w.contexts[c], id), at);
    var hook := d.action.hook;
    var w1 := TouchAt(w, c, at);
    var cs := Unregister(w1.contexts[c], id, hook.owner, hook.key);
    assert RemoveAt(w1, hook.owner, hook.key) == Ok(w1.(contexts := w1.contexts[c := cs]));
    assert ProcessStep(w, at, m).world.contexts[c] == cs;
    assert HooksOf(w1.contexts[c], id) == HooksOf(w.contexts[c], id);
  }

  /** `onComplete(ref?)` handed to an asynchronous hook at point `at`. */
  function CompleteStep(w: World, at: nat, m: Msg, arg: Option<Value>): (s: Step)
    requires Sound(w) && at < |w.points| && MsgOk(w, m)
    ensures Sound(s.world) && MsgOk(s.world, s.msg) && s.world.points == w.points && |s.world.contexts| == |w.contexts|
    ensures s.next.SendOn? ==> s.next.from < |w.points|
    ensures ProcessContext(w, at, m).None? ==> s.next == Raise(MissingContext)
    ensures ProcessContext(w, at, m).Some? ==>
              var c := ProcessContext(w, at, m).value;
              var d := Completed(m, arg, HooksOf(w.contexts[c], w.points[at].id));
              && s.msg == d.msg && s.action == d.action
              && (d.action.Forward? ==> s.next == SendOn(at) && s.world == w)
              && (d.action.ToEndHook? && Fire(w, d.action.hook).Ok? ==>
                    s.world == Fire(w, d.action.hook).value && s.next == Suspend)
  {
    var ctx := ProcessContext(w, at, m);
    assert PointOk(w.points, |w.contexts|, at);
    if ctx.None? then Step(w, m, Fault(MissingContext), Raise(MissingContext))
    else
      var c := ctx.value;
      var id := w.points[at].id;
      var hooks := HooksOf(w.contexts[c], id);
      assert forall k | k in hooks :: HookOk(hooks[k], |w.points|) by {
        if id in w.contexts[c].points { assert RecordOk(w.contexts[c].points[id], w.points, id); }
      }
      var d := Completed(m, arg, hooks);
      match d.action
      case ToEndHook(_, hook) =>
        (match Fire(w, hook)
         case Fail(e) => Step(w, d.msg, d.action, Raise(e))
         case Ok(w2) => Step(w2, d.msg, d.action, Suspend))
      case _ => Step(w, d.msg, d.action, SendOn(at))
  }

  /** The context key `set(name, value)` and `get(name)` use. */
  function VarKey(name: string): string {
    "$" + name
  }

  /** `get(name)` on point `p`: `this.context['$' + name]`, undefined when the
      key is absent; `get('strict')` reads the `$strict` list and
      `get('points')` the `$points` registry; a point without a context
      throws. */
  function GetAt(w: World, p: nat, name: string): (r: Outcome<Value>)
    requires Sound(w) && p < |w.points|
    ensures r.Fail? <==> w.points[p].context.None?
    ensures r.Fail? ==> r.error == TypeError
    ensures r.Ok? ==> var c := PointContext(w, p).value;
      && (name == "strict" ==> r.value == w.contexts[c].strict)
      && (name == "points" ==> (r.value == Undefined <==> w.contexts[c].points == map[]))
      && (name == "points" && w.contexts[c].points != map[] ==> r.value == Records(c))
      && (name != "strict" && name != "points" ==>
            r.value == (if VarKey(name) in w.contexts[c].vars then w.contexts[c].vars[VarKey(name)] else Undefined))
  {
    match PointContext(w, p)
    case None => Fail(TypeError)
    case Some(c) =>
      EngineKeys(name);
      Ok(Property(w.contexts[c], c, VarKey(name)))
  }

  /** `set(name, value)` on point `p`: `this.context['$' + name] = value`, so
      `set('strict', list)` replaces the `$strict` list; a point without a
      context throws. */
  function SetAt(w: World, p: nat, name: string, v: Value): (r: Outcome<World>)
    requires Sound(w) && p < |w.points|
    requires name != "points"
    ensures r.Fail? <==> w.points[p].context.None?
    ensures r.Fail? ==> r.error == TypeError
    ensures r.Ok? ==> Sound(r.value) && r.value.points == w.points && |r.value.contexts| == |w.contexts|
    ensures r.Ok? ==> var c := PointContext(w, p).value;
      && (forall d | 0 <= d < |w.contexts| && d != c :: r.value.contexts[d] == w.contexts[d])
      && r.value.contexts[c].points == w.contexts[c].points
      && Property(r.value.contexts[c], c, VarKey(name)) == v
      && (forall key | key != VarKey(name) :: Property(r.value.contexts[c], c, key) == Property(w.contexts[c], c, key))
  {
    match PointContext(w, p)
    case None => Fail(TypeError)
    case Some(c) =>
      var cur := w.contexts[c];
      var cs := if name == "strict" then cur.(strict := v) else cur.(vars := cur.vars[VarKey(name) := v]);
      EngineKeys(name);
      assert ContextOk(cs, w.points) by { assert ContextOk(cur, w.points); }
      SetContextOk(w, c, cs);
      Ok(w.(contexts := w.contexts[c := cs]))
  }

  /** Distinct names give distinct context keys. */
  lemma VarKeyInjective(a: string, b: string)
    requires VarKey(a) == VarKey(b)
    ensures a == b
  {
    assert a == VarKey(a)[1..] && b == VarKey(b)[1..];
  }

  /** `get` and `set` reach the engine's own `$strict` and `$points` keys
      through the names `strict` and `points`, and through no other. */
  lemma EngineKeys(name: string)
    ensures VarKey(name) == "$strict" <==> name == "strict"
    ensures VarKey(name) == "$points" <==> name == "points"
  {
    if VarKey(name) == "$strict" { VarKeyInjective(name, "strict"); }
    if VarKey(name) == "$points" { VarKeyInjective(name, "points"); }
  }

  /** A value `set` on one point of a session is what `get` returns on every
      point bound to the same context, and `set` leaves every other name as
      it was. */
  lemma SetThenGet(w: World, p: nat, q: nat, name: string, v: Value, other: string)
    requires Sound(w) && p < |w.points| && q < |w.points| && w.points[p].context.Some?
    requires name != "points"
    ensures w.points[q].context == w.points[p].context ==> GetAt(SetAt(w, p, name, v).value, q, name) == Ok(v)
    ensures other != name ==> GetAt(SetAt(w, p, name, v).value, q, other) == GetAt(w, q, other)
  {
    if other != name && VarKey(other) == VarKey(name) {
      VarKeyInjective(other, name);
    }
  }

  /** `set('strict', list)` makes exactly the types the list holds strict for
      every message of that session sent afterwards. */
  lemma SetStrictApplies(w: World, p: nat, v: Value, m: Msg, t: string)
    requires Sound(w) && p < |w.points| && w.points[p].context.Some?
    requires m.context == w.points[p].context
    ensures var w2 := SetAt(w, p, "strict", v).value;
            MsgOk(w2, m) && (t in StrictOf(w2, m) <==> v.List? && Str(t) in v.items)
  {
    var w2 := SetAt(w, p, "strict", v).value;
    var c := PointContext(w, p).value;
    assert Property(w2.contexts[c], c, "$strict") == v;
  }

  /** `_streamClosed = true` on point `p`. */
  function CloseAt(w: World, p: nat): (r: World)
    requires Sound(w) && p < |w.points|
    ensures Sound(r) && r.contexts == w.contexts
    ensures r.points == w.points[p := w.points[p].(streamClosed := true)]
  {
    var pt := w.points[p].(streamClosed := true);
    SetPointOk(w, p, pt);
    w.(points := w.points[p := pt])
  }
}
