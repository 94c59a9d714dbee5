/**
 * `PipePoint.link(pipe)`: a session of the nested pipe is created in the
 * linking point's context and the three `$link$` bridge hooks are registered,
 * on the linking point, on the nested session head and on the nested session
 * tail.
 */
module Linking {
  import opened Values
  import opened Topology
  import opened Registry
  import opened Dispatch
  import opened World
  import opened Session

  /** The state after `link` and what it returned: the nested session head,
      or the error it threw. */
  datatype Linked = Linked(world: World, result: Outcome<nat>)

  /** `p.link(nested)`: a session of `nested` is created in `p`'s context,
      then the bridges are registered on it. */
  ghost function LinkWorld(w: World, p: nat, nested: nat): (r: Linked)
    requires Sound(w) && p < |w.points| && nested < |w.points|
    ensures Sound(r.world) && |r.world.contexts| >= |w.contexts|
    ensures r.result.Ok? ==> r.result.value == |w.points|
  {
    Bridge(CreateWorld(w, nested, PointContext(w, p)).world, p, |w.points|)
  }

  /** The registrations `link` makes once the nested session head `h` exists:
      `p.on('$link$')`, `h.on('$link$')`, then `h.tail.on('$link$')`; the first
      that throws ends it. */
  function Bridge(w1: World, p: nat, h: nat): (r: Linked)
    requires Sound(w1) && p < |w1.points| && h < |w1.points|
    ensures Sound(r.world) && r.world.points == w1.points && |r.world.contexts| == |w1.contexts|
    ensures r.result.Ok? ==> r.result.value == h
  {
    match OnAt(w1, p, LinkKey, LinkStart(h))
    case Fail(e) => Linked(w1, Fail(e))
    case Ok(w2) => BridgeNested(w2, p, h)
  }

  /** The bridges on the nested head and the nested tail. */
  function BridgeNested(w2: World, p: nat, h: nat): (r: Linked)
    requires Sound(w2) && p < |w2.points| && h < |w2.points|
    ensures Sound(r.world) && r.world.points == w2.points && |r.world.contexts| == |w2.contexts|
    ensures r.result.Ok? ==> r.result.value == h
  {
    match OnAt(w2, h, LinkKey, LinkHead(p, h))
    case Fail(e) => Linked(w2, Fail(e))
    case Ok(w3) => BridgeTail(w3, p, h)
  }

  /** The bridge on the nested tail, found through the `tail` getter. */
  function BridgeTail(w3: World, p: nat, h: nat): (r: Linked)
    requires Sound(w3) && p < |w3.points| && h < |w3.points|
    ensures Sound(r.world) && r.world.points == w3.points && |r.world.contexts| == |w3.contexts|
    ensures r.result.Ok? ==> r.result.value == h
  {
    var t := TailOf(w3, h);
    if t.point.None? then Linked(t.world, Fail(TypeError))
    else
      match OnAt(t.world, t.point.value, LinkKey, LinkTail(p, h))
      case Fail(e) => Linked(t.world, Fail(e))
      case Ok(w4) => Linked(w4, Ok(h))
  }

  /** Binding copies leaves the hooks of every other id alone. */
  lemma {:induction false} BindOthers(cs: ContextState, ids: seq<nat>, first: nat, id: nat)
    requires id !in ids
    ensures HooksOf(BindAll(cs, ids, first), id) == HooksOf(cs, id)
    decreases |ids|
  {
    if |ids| > 0 {
      assert id !in ids[1..];
      BindOthers(Touch(cs, ids[0], first), ids[1..], first + 1, id);
    }
  }

  /** `create` on the head of a chain, with an existing context: the copies
      of the chain's points are appended and bound in chain order. */
  lemma CreateOnChain(w: World, base: nat, n: nat, c: nat)
    requires Sound(w) && IsChain(w.points, base, n) && c < |w.contexts|
    ensures var w1 := CreateWorld(w, base, Some(c)).world;
            && w1.points == w.points + CopiesOf(w.points, Range(base, n), c)
            && w1.contexts == w.contexts[c := BindAll(w.contexts[c], Range(base, n), |w.points|)]
  {
    ChainFromHead(w, base, n);
    ChainIds(w.points, base, n);
    assert ChainLinkAt(w.points, base, n, 0);
    var prepared := Prepared(w, base, Some(c));
    assert prepared[c] == w.contexts[c];
    assert prepared == w.contexts;
  }

  /** In a context with no records for a chain, binding its copies files
      each under its original's index with no hooks and keeps the other ids'
      hooks. */
  lemma FreshBinding(cs: ContextState, base: nat, n: nat, first: nat)
    requires forall s | base <= s < base + n :: s !in cs.points
    ensures forall s | base <= s < base + n ::
              s in BindAll(cs, Range(base, n), first).points
              && BindAll(cs, Range(base, n), first).points[s] == PointRecord(first + (s - base), map[])
    ensures forall id: nat | !(base <= id < base + n) :: HooksOf(BindAll(cs, Range(base, n), first), id) == HooksOf(cs, id)
  {
    var ids := Range(base, n);
    BindFresh(cs, ids, first);
    forall s | base <= s < base + n
      ensures s in BindAll(cs, ids, first).points && BindAll(cs, ids, first).points[s] == PointRecord(first + (s - base), map[])
    {
      assert ids[s - base] == s;
    }
    forall id: nat | !(base <= id < base + n) ensures HooksOf(BindAll(cs, ids, first), id) == HooksOf(cs, id) {
      assert id !in ids;
      BindOthers(cs, ids, first, id);
    }
  }

  /** Where the copies of a chain land in the arena. */
  lemma CopiesAt(ps: seq<Point>, base: nat, n: nat, c: nat)
    requires base + n <= |ps|
    ensures forall s | base <= s < base + n ::
              (ps + CopiesOf(ps, Range(base, n), c))[|ps| + (s - base)] == CopyOf(ps[s], c)
  {
    var copies := CopiesOf(ps, Range(base, n), c);
    forall s | base <= s < base + n ensures (ps + copies)[|ps| + (s - base)] == CopyOf(ps[s], c) {
      assert copies[s - base] == CopyOf(ps[s], c);
    }
  }

  /** `on(key, hook)` on a session point whose id has no hook for `key` yet:
      it succeeds, adds the hook for that id, and leaves every other record
      of the context as it was. */
  lemma OnFree(w: World, q: nat, key: string, hook: Hook)
    requires Sound(w) && q < |w.points| && HookOk(hook, |w.points|) && PointContext(w, q).Some?
    requires key !in HooksOf(w.contexts[PointContext(w, q).value], w.points[q].id)
    ensures OnAt(w, q, key, hook).Ok?
    ensures var w' := OnAt(w, q, key, hook).value;
            var c := PointContext(w, q).value;
            var id := w.points[q].id;
            && w'.points == w.points && |w'.contexts| == |w.contexts|
            && HooksOf(w'.contexts[c], id) == HooksOf(w.contexts[c], id)[key := hook]
            && (forall other | other != id :: HooksOf(w'.contexts[c], other) == HooksOf(w.contexts[c], other))
            && (forall other | other in w.contexts[c].points && other != id ::
                  other in w'.contexts[c].points && w'.contexts[c].points[other] == w.contexts[c].points[other])
  {
  }

  /** `on(key, hook)` on a session point whose id already has a hook for
      `key` throws. */
  lemma OnTaken(w: World, q: nat, key: string, hook: Hook)
    requires Sound(w) && q < |w.points| && HookOk(hook, |w.points|) && PointContext(w, q).Some?
    requires key in HooksOf(w.contexts[PointContext(w, q).value], w.points[q].id)
    ensures OnAt(w, q, key, hook) == Fail(DuplicateHook(key, w.points[q].id))
  {
  }

  /** A registered record's point is what the `tail` getter returns for its id. */
  lemma TailResolves(w: World, h: nat, last: nat, c: nat)
    requires Sound(w) && h < |w.points| && PointContext(w, h) == Some(c) && w.points[h].tail == Some(last)
    requires last < |w.points| && w.points[last].id == last && last in w.contexts[c].points
    ensures TailOf(w, h) == Read(w, Some(w.contexts[c].points[last].ref))
  {
    assert PointOk(w.points, |w.contexts|, h);
    assert RecordOk(w.contexts[c].points[last], w.points, last);
    assert Touch(w.contexts[c], w.points[last].id, last) == w.contexts[c];
  }

  /** With the head's bridge in place, the tail's cannot be registered on the
      head itself. */
  lemma TailOnHeadTaken(w3: World, p: nat, h: nat, base: nat, c: nat)
    requires Sound(w3) && p < |w3.points| && h < |w3.points|
    requires PointContext(w3, h) == Some(c) && w3.points[h].id == base && w3.points[h].tail == Some(base)
    requires base < |w3.points| && w3.points[base].id == base
    requires base in w3.contexts[c].points && w3.contexts[c].points[base].ref == h
    requires LinkKey in HooksOf(w3.contexts[c], base)
    ensures BridgeTail(w3, p, h).result == Fail(DuplicateHook(LinkKey, base))
  {
    TailResolves(w3, h, base, c);
    OnTaken(w3, h, LinkKey, LinkTail(p, h));
  }

  /** The bridges cannot be registered when the nested session head is its
      own tail: the head's id already holds a `$link$` hook when the tail's is
      registered, if not earlier. */
  lemma BridgeOnOwnTail(w1: World, p: nat, h: nat, base: nat, c: nat)
    requires Sound(w1) && p < |w1.points| && h < |w1.points| && PointContext(w1, p) == Some(c)
    requires w1.points[h].context == Some(c) && w1.points[h].id == base && w1.points[h].tail == Some(base)
    requires base < |w1.points| && w1.points[base].id == base
    requires base in w1.contexts[c].points && w1.contexts[c].points[base].ref == h
    ensures Bridge(w1, p, h).result.Fail? && Bridge(w1, p, h).result.error.DuplicateHook?
  {
    var id := w1.points[p].id;
    if LinkKey in HooksOf(w1.contexts[c], id) {
      OnTaken(w1, p, LinkKey, LinkStart(h));
    } else {
      OnFree(w1, p, LinkKey, LinkStart(h));
      var w2 := OnAt(w1, p, LinkKey, LinkStart(h)).value;
      assert base in w2.contexts[c].points && w2.contexts[c].points[base].ref == h;
      if LinkKey in HooksOf(w2.contexts[c], base) {
        OnTaken(w2, h, LinkKey, LinkHead(p, h));
      } else {
        OnFree(w2, h, LinkKey, LinkHead(p, h));
        var w3 := OnAt(w2, h, LinkKey, LinkHead(p, h)).value;
        assert base in w3.contexts[c].points && w3.contexts[c].points[base].ref == h;
        TailOnHeadTaken(w3, p, h, base, c);
      }
    }
  }

  /** The tail's bridge is registered when the tail's id has none. */
  lemma TailFree(w3: World, p: nat, h: nat, t: nat, last: nat, c: nat)
    requires Sound(w3) && p < |w3.points| && h < |w3.points| && t < |w3.points|
    requires PointContext(w3, h) == Some(c) && w3.points[h].tail == Some(last)
    requires w3.points[t].context == Some(c) && w3.points[t].id == last
    requires last < |w3.points| && w3.points[last].id == last
    requires last in w3.contexts[c].points && w3.contexts[c].points[last].ref == t
    requires LinkKey !in HooksOf(w3.contexts[c], last)
    ensures var r := BridgeTail(w3, p, h);
            && r.result == Ok(h)
            && HooksOf(r.world.contexts[c], last) == HooksOf(w3.contexts[c], last)[LinkKey := LinkTail(p, h)]
            && forall other | other != last :: HooksOf(r.world.contexts[c], other) == HooksOf(w3.contexts[c], other)
  {
    TailResolves(w3, h, last, c);
    OnFree(w3, t, LinkKey, LinkTail(p, h));
  }

  /** The nested head's and tail's bridges are registered when their two
      ids differ and hold no hooks. */
  lemma NestedInstalls(w2: World, p: nat, h: nat, t: nat, base: nat, last: nat, c: nat)
    requires Sound(w2) && p < |w2.points| && h < |w2.points| && t < |w2.points|
    requires PointContext(w2, h) == Some(c) && w2.points[h].id == base && w2.points[h].tail == Some(last)
    requires w2.points[t].context == Some(c) && w2.points[t].id == last
    requires last < |w2.points| && w2.points[last].id == last && base != last
    requires base in w2.contexts[c].points && w2.contexts[c].points[base] == PointRecord(h, map[])
    requires last in w2.contexts[c].points && w2.contexts[c].points[last] == PointRecord(t, map[])
    ensures var r := BridgeNested(w2, p, h);
            && r.result == Ok(h)
            && LinkKey in HooksOf(r.world.contexts[c], base) && HooksOf(r.world.contexts[c], base)[LinkKey] == LinkHead(p, h)
            && LinkKey in HooksOf(r.world.contexts[c], last) && HooksOf(r.world.contexts[c], last)[LinkKey] == LinkTail(p, h)
            && forall other | other != base && other != last :: HooksOf(r.world.contexts[c], other) == HooksOf(w2.contexts[c], other)
  {
    OnFree(w2, h, LinkKey, LinkHead(p, h));
    var w3 := OnAt(w2, h, LinkKey, LinkHead(p, h)).value;
    assert w3.contexts[c].points[last] == PointRecord(t, map[]);
    assert HooksOf(w3.contexts[c], base)[LinkKey] == LinkHead(p, h);
    TailFree(w3, p, h, t, last, c);
  }

  /** The bridges are registered when the linking point's id, the nested head's
      and the nested tail's are three different ids without a `$link$` hook. */
  lemma BridgeInstalls(w1: World, p: nat, h: nat, t: nat, base: nat, last: nat, c: nat)
    requires Sound(w1) && p < |w1.points| && h < |w1.points| && t < |w1.points| && PointContext(w1, p) == Some(c)
    requires w1.points[h].context == Some(c) && w1.points[h].id == base && w1.points[h].tail == Some(last)
    requires w1.points[t].context == Some(c) && w1.points[t].id == last
    requires last < |w1.points| && w1.points[last].id == last
    requires base != last && w1.points[p].id != base && w1.points[p].id != last
    requires LinkKey !in HooksOf(w1.contexts[c], w1.points[p].id)
    requires base in w1.contexts[c].points && w1.contexts[c].points[base] == PointRecord(h, map[])
    requires last in w1.contexts[c].points && w1.contexts[c].points[last] == PointRecord(t, map[])
    ensures var r := Bridge(w1, p, h);
            && r.result == Ok(h)
            && LinkKey in HooksOf(r.world.contexts[c], w1.points[p].id) && HooksOf(r.world.contexts[c], w1.points[p].id)[LinkKey] == LinkStart(h)
            && LinkKey in HooksOf(r.world.contexts[c], base) && HooksOf(r.world.contexts[c], base)[LinkKey] == LinkHead(p, h)
            && LinkKey in HooksOf(r.world.contexts[c], last) && HooksOf(r.world.contexts[c], last)[LinkKey] == LinkTail(p, h)
  {
    OnFree(w1, p, LinkKey, LinkStart(h));
    var w2 := OnAt(w1, p, LinkKey, LinkStart(h)).value;
    assert w2.contexts[c].points[base] == PointRecord(h, map[]);
    assert w2.contexts[c].points[last] == PointRecord(t, map[]);
    NestedInstalls(w2, p, h, t, base, last, c);
  }

  /** A pipe of one point cannot be linked: its head is its tail, so the
      bridge for the tail is registered under the id that already holds the
      bridge for the head. Without a context on the linking point, `link`
      throws for the missing context first. */
  lemma LinkSinglePointFails(w: World, p: nat, base: nat)
    requires Sound(w) && p < |w.points| && IsChain(w.points, base, 1)
    requires PointContext(w, p).Some? ==> base !in w.contexts[PointContext(w, p).value].points
    ensures LinkWorld(w, p, base).result.Fail?
    ensures PointContext(w, p).None? ==> LinkWorld(w, p, base).result.error == MissingContext
    ensures PointContext(w, p).Some? ==> LinkWorld(w, p, base).result.error.DuplicateHook?
  {
    var ctx := PointContext(w, p);
    var w1 := CreateWorld(w, base, ctx).world;
    assert w1.points[p] == w.points[p];
    if ctx.Some? {
      var c := ctx.value;
      CreateOnChain(w, base, 1, c);
      FreshBinding(w.contexts[c], base, 1, |w.points|);
      CopiesAt(w.points, base, 1, c);
      assert ChainLinkAt(w.points, base, 1, 0);
      assert w1.points[|w.points|] == CopyOf(w.points[base], c);
      BridgeOnOwnTail(w1, p, |w.points|, base, c);
    }
  }

  /** The state `create` leaves behind on the head of a chain, with an
      existing context, spelled out. */
  function NestedWorld(w: World, base: nat, n: nat, c: nat): World
    requires base + n <= |w.points| && c < |w.contexts|
  {
    World(w.points + CopiesOf(w.points, Range(base, n), c),
          w.contexts[c := BindAll(w.contexts[c], Range(base, n), |w.points|)])
  }

  /** `create` in context `c` on a chain leaves that state. */
  lemma CreatesNested(w: World, base: nat, n: nat, c: nat)
    requires Sound(w) && IsChain(w.points, base, n) && c < |w.contexts|
    ensures CreateWorld(w, base, Some(c)).world == NestedWorld(w, base, n, c)
  {
    CreateOnChain(w, base, n, c);
  }

  /** That state is sound. */
  lemma NestedSound(w: World, base: nat, n: nat, c: nat)
    requires Sound(w) && IsChain(w.points, base, n) && c < |w.contexts|
    ensures Sound(NestedWorld(w, base, n, c))
  {
    CreatesNested(w, base, n, c);
  }

  /** Where `create` puts the nested session's head and tail copies, and
      what it leaves in place. */
  lemma NestedPoints(w: World, p: nat, base: nat, n: nat, c: nat)
    requires ArenaOk(w.points, |w.contexts|) && p < |w.points| && IsChain(w.points, base, n) && c < |w.contexts|
    ensures var ps1 := NestedWorld(w, base, n, c).points;
            var h := |w.points|;
            var last := base + n - 1;
            && h + (n - 1) < |ps1|
            && ps1[p] == w.points[p] && ps1[last].id == last
            && ps1[h].context == Some(c) && ps1[h].id == base && ps1[h].tail == Some(last)
            && ps1[h + (n - 1)].context == Some(c) && ps1[h + (n - 1)].id == last
  {
    var ps := w.points;
    var copies := CopiesOf(ps, Range(base, n), c);
    assert copies[0] == CopyOf(ps[base], c);
    assert copies[n - 1] == CopyOf(ps[base + n - 1], c);
    assert ChainLinkAt(ps, base, n, 0);
    assert ChainLinkAt(ps, base, n, n - 1);
  }

  /** How `create` files the nested session's head and tail in the linking
      point's context. */
  lemma NestedRecords(w: World, pid: nat, base: nat, n: nat, c: nat)
    requires base + n <= |w.points| && c < |w.contexts|
    requires 0 < n && forall s | base <= s < base + n :: s !in w.contexts[c].points
    requires !(base <= pid < base + n)
    ensures var cs1 := NestedWorld(w, base, n, c).contexts[c];
            var h := |w.points|;
            && base in cs1.points && cs1.points[base] == PointRecord(h, map[])
            && base + n - 1 in cs1.points && cs1.points[base + n - 1] == PointRecord(h + (n - 1), map[])
            && HooksOf(cs1, pid) == HooksOf(w.contexts[c], pid)
  {
    FreshBinding(w.contexts[c], base, n, |w.points|);
  }

  /** The bridges on the state `create` left: registered on the linking
      point, the nested head and the nested tail. */
  lemma BridgesOnChain(w: World, p: nat, base: nat, n: nat, c: nat)
    requires Sound(w) && p < |w.points| && IsChain(w.points, base, n) && n >= 2
    requires w.points[p].context == Some(c) && c < |w.contexts|
    requires forall s | base <= s < base + n :: s !in w.contexts[c].points
    requires !(base <= w.points[p].id < base + n)
    requires LinkKey !in HooksOf(w.contexts[c], w.points[p].id)
    ensures Sound(NestedWorld(w, base, n, c)) && p < |w.points| < |NestedWorld(w, base, n, c).points|
    ensures var r := Bridge(NestedWorld(w, base, n, c), p, |w.points|);
            var h := |w.points|;
            && r.result == Ok(h) && c < |r.world.contexts|
            && LinkKey in HooksOf(r.world.contexts[c], w.points[p].id) && HooksOf(r.world.contexts[c], w.points[p].id)[LinkKey] == LinkStart(h)
            && LinkKey in HooksOf(r.world.contexts[c], base) && HooksOf(r.world.contexts[c], base)[LinkKey] == LinkHead(p, h)
            && LinkKey in HooksOf(r.world.contexts[c], base + n - 1) && HooksOf(r.world.contexts[c], base + n - 1)[LinkKey] == LinkTail(p, h)
  {
    assert PointOk(w.points, |w.contexts|, p);
    NestedSound(w, base, n, c);
    NestedPoints(w, p, base, n, c);
    NestedRecords(w, w.points[p].id, base, n, c);
    var h := |w.points|;
    BridgeInstalls(NestedWorld(w, base, n, c), p, h, h + (n - 1), base, base + n - 1, c);
  }

  /** Linking a session of a pipe of two or more points into a point of a
      session succeeds when nothing of the nested pipe is registered in that
      context yet and the linking point has no bridge: the nested head copy is
      returned, and the three bridges sit on the linking point, the nested head
      and the nested tail. */
  lemma LinkInstallsBridges(w: World, p: nat, base: nat, n: nat)
    requires Sound(w) && p < |w.points| && IsChain(w.points, base, n) && n >= 2
    requires PointContext(w, p).Some?
    requires forall s | base <= s < base + n :: s !in w.contexts[PointContext(w, p).value].points
    requires !(base <= w.points[p].id < base + n)
    requires LinkKey !in HooksOf(w.contexts[PointContext(w, p).value], w.points[p].id)
    ensures var r := LinkWorld(w, p, base);
            var c := PointContext(w, p).value;
            var h := |w.points|;
            && r.result == Ok(h)
            && LinkKey in HooksOf(r.world.contexts[c], w.points[p].id) && HooksOf(r.world.contexts[c], w.points[p].id)[LinkKey] == LinkStart(h)
            && LinkKey in HooksOf(r.world.contexts[c], base) && HooksOf(r.world.contexts[c], base)[LinkKey] == LinkHead(p, h)
            && LinkKey in HooksOf(r.world.contexts[c], base + n - 1) && HooksOf(r.world.contexts[c], base + n - 1)[LinkKey] == LinkTail(p, h)
  {
    var c := PointContext(w, p).value;
    CreatesNested(w, base, n, c);
    BridgesOnChain(w, p, base, n, c);
  }
}
