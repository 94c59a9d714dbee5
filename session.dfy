/**
 * A session: the copies `create` makes of a structural chain, bound to one
 * context, and the `$points` records that make `next`, `prev` and `tail` on a
 * session point return the other session points instead of the shared
 * structural ones.
 */
module Session {
  import opened Values
  import opened Topology
  import opened Registry
  import opened World

  /** The arena indices `from`, `from + 1`, ..., `from + n - 1`. */
  function Range(from: nat, n: nat): (r: seq<nat>)
    ensures |r| == n && forall k | 0 <= k < n :: r[k] == from + k
  {
    seq(n, k => from + k)
  }

  lemma RangeOf(s: seq<nat>, from: nat)
    requires forall k | 0 <= k < |s| :: s[k] == from + k
    ensures s == Range(from, |s|)
  {
  }

  /** The ids of the points of `chain`, in order. */
  function IdsOf(ps: seq<Point>, chain: seq<nat>): (r: seq<nat>)
    requires forall k | 0 <= k < |chain| :: chain[k] < |ps|
    ensures |r| == |chain| && forall k | 0 <= k < |chain| :: r[k] == ps[chain[k]].id
  {
    seq(|chain|, k requires 0 <= k < |chain| => ps[chain[k]].id)
  }

  /** The session copies `create` appends for `chain`, all bound to `c`. */
  function CopiesOf(ps: seq<Point>, chain: seq<nat>, c: nat): (r: seq<Point>)
    requires forall k | 0 <= k < |chain| :: chain[k] < |ps|
    ensures |r| == |chain| && forall k | 0 <= k < |chain| :: r[k] == CopyOf(ps[chain[k]], c)
  {
    seq(|chain|, k requires 0 <= k < |chain| => CopyOf(ps[chain[k]], c))
  }

  /** The `_points()` calls of the copies `create` makes, in order: the copy
      for `ids[k]` sits at arena index `first + k`. */
  function BindAll(cs: ContextState, ids: seq<nat>, first: nat): (r: ContextState)
    ensures r.vars == cs.vars && r.strict == cs.strict
    ensures cs.points.Keys <= r.points.Keys
    ensures forall k | 0 <= k < |ids| :: ids[k] in r.points
    decreases |ids|
  {
    if |ids| == 0 then cs
    else
      var rest := BindAll(Touch(cs, ids[0], first), ids[1..], first + 1);
      assert forall k | 1 <= k < |ids| :: ids[k] == ids[1..][k - 1];
      rest
  }

  /** Binding copies keeps every record that already existed: a point already
      registered in the context keeps its session point. */
  lemma {:induction false} BindKeeps(cs: ContextState, ids: seq<nat>, first: nat, id: nat)
    requires id in cs.points
    ensures BindAll(cs, ids, first).points[id] == cs.points[id]
    decreases |ids|
  {
    if |ids| > 0 {
      BindKeeps(Touch(cs, ids[0], first), ids[1..], first + 1, id);
    }
  }

  /** In a context with no records for these distinct ids, `create` registers
      copy k (at `first + k`) as the session point of `ids[k]`, with no hooks. */
  lemma {:induction false} BindFreshAt(cs: ContextState, ids: seq<nat>, first: nat, k: nat)
    requires forall j | 0 <= j < |ids| :: ids[j] !in cs.points
    requires forall i, j | 0 <= i < j < |ids| :: ids[i] != ids[j]
    requires k < |ids|
    ensures BindAll(cs, ids, first).points[ids[k]] == PointRecord(first + k, map[])
    decreases |ids|
  {
    var head := ids[0];
    var t := Touch(cs, head, first);
    var rest := ids[1..];
    if k == 0 {
      BindKeeps(t, rest, first + 1, head);
    } else {
      forall j | 0 <= j < |rest| ensures rest[j] !in t.points {
        assert rest[j] == ids[j + 1] && ids[0] != ids[j + 1];
      }
      forall i, j | 0 <= i < j < |rest| ensures rest[i] != rest[j] {
        assert rest[i] == ids[i + 1] && rest[j] == ids[j + 1];
      }
      assert rest[k - 1] == ids[k];
      BindFreshAt(t, rest, first + 1, k - 1);
    }
  }

  lemma BindFresh(cs: ContextState, ids: seq<nat>, first: nat)
    requires forall k | 0 <= k < |ids| :: ids[k] !in cs.points
    requires forall i, j | 0 <= i < j < |ids| :: ids[i] != ids[j]
    ensures forall k | 0 <= k < |ids| :: BindAll(cs, ids, first).points[ids[k]] == PointRecord(first + k, map[])
  {
    forall k | 0 <= k < |ids| ensures BindAll(cs, ids, first).points[ids[k]] == PointRecord(first + k, map[]) {
      BindFreshAt(cs, ids, first, k);
    }
  }

  lemma {:induction false} BindAllOk(cs: ContextState, ps: seq<Point>, ids: seq<nat>, first: nat)
    requires ContextOk(cs, ps)
    requires forall k | 0 <= k < |ids| :: first + k < |ps| && ps[first + k].id == ids[k]
    ensures ContextOk(BindAll(cs, ids, first), ps)
    decreases |ids|
  {
    if |ids| > 0 {
      var head := ids[0];
      assert first + 0 < |ps| && ps[first + 0].id == head;
      TouchOk(cs, ps, head, first);
      BindAllOk(Touch(cs, head, first), ps, ids[1..], first + 1);
    }
  }

  /** Appending session copies of existing points keeps the world well-formed. */
  lemma AppendCopiesOk(w: World, chain: seq<nat>, c: nat)
    requires Sound(w) && c < |w.contexts|
    requires forall k | 0 <= k < |chain| :: chain[k] < |w.points|
    ensures Sound(w.(points := w.points + CopiesOf(w.points, chain, c)))
  {
    var copies := CopiesOf(w.points, chain, c);
    var w' := w.(points := w.points + copies);
    forall i | 0 <= i < |w'.points| ensures PointOk(w'.points, |w'.contexts|, i) {
      if i < |w.points| {
        assert PointOk(w.points, |w.contexts|, i);
      } else {
        assert w'.points[i] == CopyOf(w.points[chain[i - |w.points|]], c);
        assert PointOk(w.points, |w.contexts|, chain[i - |w.points|]);
      }
    }
    forall c' | 0 <= c' < |w'.contexts| ensures ContextOk(w'.contexts[c'], w'.points) {
      ContextKept(w.contexts[c'], w.points, w'.points);
    }
  }

  /** The points `create` walks from `p`: `p` itself, then the structural
      successors of its `_next$`. */
  ghost function ChainFrom(w: World, p: nat): (r: seq<nat>)
    requires Sound(w) && p < |w.points|
    ensures |r| > 0 && r[0] == p
    ensures forall k | 0 <= k < |r| :: r[k] < |w.points|
  {
    assert PointOk(w.points, |w.contexts|, p);
    [p] + (if w.points[p].next.Some? then Successors(w.points, |w.contexts|, w.points[p].next.value) else [])
  }

  /** `create` walks the chain by `_next$`: each point's `_next$` is the
      next point of the chain, and the last has none. */
  lemma ChainFromLinked(w: World, p: nat, i: nat)
    requires Sound(w) && p < |w.points| && i < |ChainFrom(w, p)|
    ensures var r := ChainFrom(w, p);
            w.points[r[i]].next == (if i + 1 < |r| then Some(r[i + 1]) else None)
  {
    assert PointOk(w.points, |w.contexts|, p);
    if i > 0 {
      SuccessorsLinked(w.points, |w.contexts|, w.points[p].next.value, i - 1);
    }
  }

  /** Binding one more copy is one more `_points()` call, at the next index. */
  lemma {:induction false} BindAllSnoc(cs: ContextState, ids: seq<nat>, id: nat, first: nat)
    ensures BindAll(cs, ids + [id], first) == Touch(BindAll(cs, ids, first), id, first + |ids|)
    decreases |ids|
  {
    var more := ids + [id];
    assert more[0] == (if |ids| == 0 then id else ids[0]);
    if |ids| == 0 {
      assert more[1..] == [];
      assert BindAll(cs, more, first) == BindAll(Touch(cs, id, first), [], first + 1);
    } else {
      var t := Touch(cs, ids[0], first);
      assert more[1..] == ids[1..] + [id];
      assert BindAll(cs, more, first) == BindAll(t, ids[1..] + [id], first + 1);
      BindAllSnoc(t, ids[1..], id, first + 1);
      assert BindAll(cs, ids, first) == BindAll(t, ids[1..], first + 1);
    }
  }

  /** The context `create(ctx)` binds its copies to: `ctx`, or a new `{}`
      appended after the existing contexts. */
  function SessionContext(w: World, ctx: Option<nat>): nat {
    if ctx.Some? then ctx.value else |w.contexts|
  }

  /** The contexts once `create(ctx)` on point `p` has made its context and,
      when `p` is itself bound to a context, copied that context's plain keys
      into it (`Inherit`). */
  ghost function Prepared(w: World, p: nat, ctx: Option<nat>): (r: seq<ContextState>)
    requires Sound(w) && p < |w.points| && (ctx.Some? ==> ctx.value < |w.contexts|)
    ensures |r| == |w.contexts| + (if ctx.None? then 1 else 0)
    ensures SessionContext(w, ctx) < |r|
    ensures ctx.None? ==> r[|w.contexts|].points == map[] && r[|w.contexts|].strict == Undefined
    ensures forall c | 0 <= c < |w.contexts| && c != SessionContext(w, ctx) :: r[c] == w.contexts[c]
    ensures r[SessionContext(w, ctx)].points == (if ctx.Some? then w.contexts[ctx.value].points else map[])
    ensures r[SessionContext(w, ctx)].strict == (if ctx.Some? then w.contexts[ctx.value].strict else Undefined)
    ensures PointContext(w, p).None? ==> r[SessionContext(w, ctx)].vars == (if ctx.Some? then w.contexts[ctx.value].vars else map[])
    ensures PointContext(w, p).Some? ==>
              r[SessionContext(w, ctx)].vars ==
              Inherit(w.contexts[PointContext(w, p).value].vars, if ctx.Some? then w.contexts[ctx.value].vars else map[])
  {
    var c := SessionContext(w, ctx);
    var all := if ctx.Some? then w.contexts else w.contexts + [EmptyContext];
    var pc := PointContext(w, p);
    if pc.Some? then all[c := all[c].(vars := Inherit(w.contexts[pc.value].vars, all[c].vars))] else all
  }

  /** What `create` returns besides the new state: the session head, and the
      session points whose handlers it ran, in the order it ran them. */
  datatype Created = Created(world: World, head: nat, invoked: seq<nat>)

  /** `create(ctx)` on point `p`: the context is prepared, then every point of
      the chain from `p` gets a copy bound to it, appended in chain order and
      registered for its id; each copy's handler is run, first to last. */
  ghost function CreateWorld(w: World, p: nat, ctx: Option<nat>): (r: Created)
    requires Sound(w) && p < |w.points| && (ctx.Some? ==> ctx.value < |w.contexts|)
    ensures Sound(r.world) && r.head == |w.points| && r.head < |r.world.points|
    ensures |r.world.contexts| == |w.contexts| + (if ctx.None? then 1 else 0)
    ensures r.world.points == w.points + CopiesOf(w.points, ChainFrom(w, p), SessionContext(w, ctx))
    ensures r.invoked == Range(|w.points|, |ChainFrom(w, p)|)
    ensures r.world.contexts ==
              Prepared(w, p, ctx)[SessionContext(w, ctx) :=
                BindAll(Prepared(w, p, ctx)[SessionContext(w, ctx)], IdsOf(w.points, ChainFrom(w, p)), |w.points|)]
  {
    var c := SessionContext(w, ctx);
    var prepared := Prepared(w, p, ctx);
    var chain := ChainFrom(w, p);
    var w1 := World(w.points, prepared);
    assert Sound(w1) by {
      var all := if ctx.Some? then w.contexts else w.contexts + [EmptyContext];
      if ctx.None? { AddContextOk(w, EmptyContext); }
      assert Sound(World(w.points, all));
      assert ContextOk(prepared[c], w.points) by {
        assert prepared[c].points == all[c].points;
        assert ContextOk(all[c], w.points);
      }
      SetContextOk(World(w.points, all), c, prepared[c]);
      assert World(w.points, all).(contexts := all[c := prepared[c]]) == w1;
    }
    AppendCopiesOk(w1, chain, c);
    var copies := CopiesOf(w.points, chain, c);
    var w2 := World(w.points + copies, prepared);
    var ids := IdsOf(w.points, chain);
    assert ContextOk(prepared[c], w2.points);
    BindAllOk(prepared[c], w2.points, ids, |w.points|);
    SetContextOk(w2, c, BindAll(prepared[c], ids, |w.points|));
    Created(World(w2.points, prepared[c := BindAll(prepared[c], ids, |w.points|)]), |w.points|, Range(|w.points|, |chain|))
  }

  /** The state once `copies` have been appended to `ps` and registered, in
      order, for `ids` in context `c` of `prepared`. */
  ghost function Grown(ps: seq<Point>, prepared: seq<ContextState>, c: nat, copies: seq<Point>, ids: seq<nat>): World
    requires c < |prepared|
  {
    World(ps + copies, prepared[c := BindAll(prepared[c], ids, |ps|)])
  }

  lemma UpdateTwice<T>(s: seq<T>, i: nat, a: T, b: T)
    requires i < |s|
    ensures s[i := a][i] == a && s[i := a][i := b] == s[i := b]
  {
  }

  /** Copying one more point extends the copies by one and the records by
      one `_points()` call. */
  lemma GrowStep(ps: seq<Point>, prepared: seq<ContextState>, c: nat, copies: seq<Point>, ids: seq<nat>, q: nat)
    requires c < |prepared| && q < |ps| && |copies| == |ids|
    requires Sound(Grown(ps, prepared, c, copies, ids))
    ensures CopyPoint(Grown(ps, prepared, c, copies, ids), q, Some(c))
            == Ok(Grown(ps, prepared, c, copies + [CopyOf(ps[q], c)], ids + [ps[q].id]))
  {
    var before := Grown(ps, prepared, c, copies, ids);
    assert |before.points| == |ps| + |ids| && before.points[q] == ps[q];
    assert before.points + [CopyOf(ps[q], c)] == ps + (copies + [CopyOf(ps[q], c)]);
    var bound := BindAll(prepared[c], ids, |ps|);
    BindAllSnoc(prepared[c], ids, ps[q].id, |ps|);
    UpdateTwice(prepared, c, bound, BindAll(prepared[c], ids + [ps[q].id], |ps|));
  }

  /** One more point of the chain: one more copy and one more id. */
  lemma PrefixGrows(ps: seq<Point>, chain: seq<nat>, m: nat, c: nat)
    requires m < |chain| && forall k | 0 <= k < |chain| :: chain[k] < |ps|
    ensures CopiesOf(ps, chain[..m + 1], c) == CopiesOf(ps, chain[..m], c) + [CopyOf(ps[chain[m]], c)]
    ensures IdsOf(ps, chain[..m + 1]) == IdsOf(ps, chain[..m]) + [ps[chain[m]].id]
  {
  }

  /** The state `create` has reached once the first `made` points of the
      chain have been copied and registered. */
  ghost function CreatedUpTo(w: World, p: nat, ctx: Option<nat>, made: nat): World
    requires Sound(w) && p < |w.points| && (ctx.Some? ==> ctx.value < |w.contexts|)
    requires made <= |ChainFrom(w, p)|
  {
    var part := ChainFrom(w, p)[..made];
    var c := SessionContext(w, ctx);
    Grown(w.points, Prepared(w, p, ctx), c, CopiesOf(w.points, part, c), IdsOf(w.points, part))
  }

  /** Before any copy: the prepared contexts over the unchanged points. */
  lemma CreateStart(w: World, p: nat, ctx: Option<nat>)
    requires Sound(w) && p < |w.points| && (ctx.Some? ==> ctx.value < |w.contexts|)
    ensures CreatedUpTo(w, p, ctx, 0) == World(w.points, Prepared(w, p, ctx))
  {
    var c := SessionContext(w, ctx);
    var part := ChainFrom(w, p)[..0];
    assert part == [];
    assert CopiesOf(w.points, part, c) == [];
    assert IdsOf(w.points, part) == [];
    assert w.points + [] == w.points;
  }

  /** One more copy: copying the next point of the chain into the session
      context extends the state by one copy and one `_points()` record. */
  lemma CreateStep(w: World, p: nat, ctx: Option<nat>, made: nat)
    requires Sound(w) && p < |w.points| && (ctx.Some? ==> ctx.value < |w.contexts|)
    requires made < |ChainFrom(w, p)| && Sound(CreatedUpTo(w, p, ctx, made))
    ensures SessionContext(w, ctx) < |CreatedUpTo(w, p, ctx, made).contexts|
    ensures |CreatedUpTo(w, p, ctx, made).points| == |w.points| + made
    ensures CopyPoint(CreatedUpTo(w, p, ctx, made), ChainFrom(w, p)[made], Some(SessionContext(w, ctx)))
            == Ok(CreatedUpTo(w, p, ctx, made + 1))
  {
    var chain := ChainFrom(w, p);
    var c := SessionContext(w, ctx);
    var part := chain[..made];
    PrefixGrows(w.points, chain, made, c);
    GrowStep(w.points, Prepared(w, p, ctx), c, CopiesOf(w.points, part, c), IdsOf(w.points, part), chain[made]);
  }

  /** After `made` copies, copy k sits at `|w.points| + k`, bound to the
      session context. */
  lemma CreatedAt(w: World, p: nat, ctx: Option<nat>, made: nat, k: nat)
    requires Sound(w) && p < |w.points| && (ctx.Some? ==> ctx.value < |w.contexts|)
    requires k < made <= |ChainFrom(w, p)|
    ensures CreatedUpTo(w, p, ctx, made).points[|w.points| + k] == CopyOf(w.points[ChainFrom(w, p)[k]], SessionContext(w, ctx))
  {
    assert ChainFrom(w, p)[..made][k] == ChainFrom(w, p)[k];
  }

  /** The walk of `create` after `made` copies: the last copy's `_next$` is
      the next point of the chain, and copying it reaches the next state. */
  lemma CreateAdvance(w: World, p: nat, ctx: Option<nat>, made: nat)
    requires Sound(w) && p < |w.points| && (ctx.Some? ==> ctx.value < |w.contexts|)
    requires 0 < made <= |ChainFrom(w, p)| && Sound(CreatedUpTo(w, p, ctx, made))
    ensures var s := CreatedUpTo(w, p, ctx, made);
            var chain := ChainFrom(w, p);
            |s.points| == |w.points| + made &&
            s.points[|w.points| + made - 1].next == (if made < |chain| then Some(chain[made]) else None)
    ensures made < |ChainFrom(w, p)| ==>
              var s := CreatedUpTo(w, p, ctx, made);
              SessionContext(w, ctx) < |s.contexts| && ChainFrom(w, p)[made] < |s.points| &&
              CopyPoint(s, ChainFrom(w, p)[made], Some(SessionContext(w, ctx))) == Ok(CreatedUpTo(w, p, ctx, made + 1))
  {
    ChainFromLinked(w, p, made - 1);
    CreatedAt(w, p, ctx, made, made - 1);
    if made < |ChainFrom(w, p)| {
      CreateStep(w, p, ctx, made);
    }
  }

  /** Once the whole chain is copied, the state is the one `create` leaves. */
  lemma CreateDone(w: World, p: nat, ctx: Option<nat>)
    requires Sound(w) && p < |w.points| && (ctx.Some? ==> ctx.value < |w.contexts|)
    ensures CreatedUpTo(w, p, ctx, |ChainFrom(w, p)|) == CreateWorld(w, p, ctx).world
  {
    assert ChainFrom(w, p)[..|ChainFrom(w, p)|] == ChainFrom(w, p);
  }

  /** The session point registered for structural point `s` in context `c`. */
  ghost function ViewOf(w: World, c: nat, s: nat): nat
    requires c < |w.contexts| && s in w.contexts[c].points
  {
    w.contexts[c].points[s].ref
  }

  /** Context `c` holds a session over the chain of `n` structural points from
      `base`: every point of the chain has a record whose `ref` is a copy of it
      bound to `c`. */
  ghost predicate Bound(w: World, c: nat, base: nat, n: nat) {
    && Sound(w) && IsChain(w.points, base, n) && c < |w.contexts|
    && forall s | base <= s < base + n :: SessionPoint(w, c, s)
  }

  ghost predicate SessionPoint(w: World, c: nat, s: nat)
    requires Sound(w) && c < |w.contexts| && s < |w.points|
  {
    && s in w.contexts[c].points
    && ViewOf(w, c, s) < |w.points|
    && w.points[ViewOf(w, c, s)] == CopyOf(w.points[s], c)
  }

  /** Appending points after a chain keeps it a chain. */
  lemma ChainKept(ps: seq<Point>, more: seq<Point>, base: nat, n: nat)
    requires IsChain(ps, base, n)
    ensures IsChain(ps + more, base, n)
  {
    forall k | 0 <= k < n ensures ChainLinkAt(ps + more, base, n, k) {
      assert ChainLinkAt(ps, base, n, k);
    }
  }

  /** `create` on a chain registers, in a context without records for it,
      the copy at `first + (s - base)` for every structural point `s`. */
  lemma BindChain(cs: ContextState, base: nat, n: nat, first: nat)
    requires forall s | base <= s < base + n :: s !in cs.points
    ensures forall s | base <= s < base + n ::
              s in BindAll(cs, Range(base, n), first).points
              && BindAll(cs, Range(base, n), first).points[s].ref == first + (s - base)
  {
    var ids := Range(base, n);
    BindFresh(cs, ids, first);
    forall s | base <= s < base + n
      ensures s in BindAll(cs, ids, first).points && BindAll(cs, ids, first).points[s].ref == first + (s - base)
    {
      assert ids[s - base] == s;
    }
  }

  /** The ids of a chain's points are their indices. */
  lemma ChainIds(ps: seq<Point>, base: nat, n: nat)
    requires IsChain(ps, base, n)
    ensures IdsOf(ps, Range(base, n)) == Range(base, n)
  {
    forall k | 0 <= k < n ensures IdsOf(ps, Range(base, n))[k] == base + k {
      assert ChainLinkAt(ps, base, n, k);
    }
  }

  /** Copies of a chain appended in order, with the records `BindAll` makes
      for them in a context without records for the chain, form a session. */
  lemma BindsSession(w0: World, w1: World, c: nat, base: nat, n: nat)
    requires Sound(w0) && IsChain(w0.points, base, n) && c < |w0.contexts|
    requires forall s | base <= s < base + n :: s !in w0.contexts[c].points
    requires w1.points == w0.points + CopiesOf(w0.points, Range(base, n), c)
    requires w1.contexts == w0.contexts[c := BindAll(w0.contexts[c], IdsOf(w0.points, Range(base, n)), |w0.points|)]
    requires Sound(w1)
    ensures Bound(w1, c, base, n)
    ensures forall s | base <= s < base + n :: s in w1.contexts[c].points && ViewOf(w1, c, s) == |w0.points| + (s - base)
  {
    ChainIds(w0.points, base, n);
    BindChain(w0.contexts[c], base, n, |w0.points|);
    var copies := CopiesOf(w0.points, Range(base, n), c);
    ChainKept(w0.points, copies, base, n);
    forall s | base <= s < base + n ensures SessionPoint(w1, c, s) {
      assert w1.points[|w0.points| + (s - base)] == copies[s - base];
    }
  }

  /** From the head of a chain, `create` walks exactly the chain. */
  lemma ChainFromHead(w: World, base: nat, n: nat)
    requires Sound(w) && IsChain(w.points, base, n)
    ensures ChainFrom(w, base) == Range(base, n)
  {
    assert ChainLinkAt(w.points, base, n, 0);
    if n > 1 {
      ChainSuccessors(w.points, |w.contexts|, base, n, 1);
    }
  }

  /** `create` on the head of a chain with a context that holds no records for
      it (a new `{}`, say) yields a session: copy k of the chain is the session
      point of structural point `base + k`, and the handlers run on the copies
      in chain order. */
  lemma CreateMakesSession(w: World, base: nat, n: nat, ctx: Option<nat>)
    requires Sound(w) && IsChain(w.points, base, n) && (ctx.Some? ==> ctx.value < |w.contexts|)
    requires ctx.Some? ==> forall s | base <= s < base + n :: s !in w.contexts[ctx.value].points
    ensures var r := CreateWorld(w, base, ctx);
            var c := SessionContext(w, ctx);
            && Bound(r.world, c, base, n)
            && (forall s | base <= s < base + n ::
                  s in r.world.contexts[c].points && ViewOf(r.world, c, s) == |w.points| + (s - base))
            && r.head == ViewOf(r.world, c, base)
            && r.invoked == Range(|w.points|, n)
  {
    ChainFromHead(w, base, n);
    var r := CreateWorld(w, base, ctx);
    var c := SessionContext(w, ctx);
    var prepared := Prepared(w, base, ctx);
    var w0 := World(w.points, prepared);
    assert Sound(w0) by {
      assert forall i | 0 <= i < |w.points| :: PointOk(w.points, |w.contexts|, i);
      forall i | 0 <= i < |w.points| ensures PointOk(w.points, |prepared|, i) {
        assert PointOk(w.points, |w.contexts|, i);
      }
      forall c' | 0 <= c' < |prepared| ensures ContextOk(prepared[c'], w.points) {
        if c' < |w.contexts| { assert ContextOk(w.contexts[c'], w.points); }
      }
    }
    BindsSession(w0, r.world, c, base, n);
    assert ViewOf(r.world, c, base + 0) == |w.points|;
  }

  /** On a session point, `next` returns the session point of the next
      structural point and changes nothing. */
  lemma NextInSession(w: World, c: nat, base: nat, n: nat, k: nat)
    requires Bound(w, c, base, n) && k + 1 < n
    ensures SessionPoint(w, c, base + k) && SessionPoint(w, c, base + k + 1)
    ensures NextOf(w, ViewOf(w, c, base + k)) == Read(w, Some(ViewOf(w, c, base + k + 1)))
  {
    assert SessionPoint(w, c, base + k) && SessionPoint(w, c, base + k + 1);
    assert ChainLinkAt(w.points, base, n, k) && ChainLinkAt(w.points, base, n, k + 1);
  }

  /** On the session head, `tail` returns the session point of the last
      structural point and changes nothing. */
  lemma TailInSession(w: World, c: nat, base: nat, n: nat)
    requires Bound(w, c, base, n)
    ensures SessionPoint(w, c, base) && SessionPoint(w, c, base + n - 1)
    ensures TailOf(w, ViewOf(w, c, base)) == Read(w, Some(ViewOf(w, c, base + n - 1)))
  {
    assert SessionPoint(w, c, base + 0) && SessionPoint(w, c, base + (n - 1));
    assert ChainLinkAt(w.points, base, n, 0) && ChainLinkAt(w.points, base, n, n - 1);
  }

  /** The `prev` getter as written hands out the structural previous point,
      which has no context: the caller leaves the session, and registering a
      hook on what it returned throws for a missing context. */
  lemma PrevLeavesSession(w: World, c: nat, base: nat, n: nat, k: nat, key: string, hook: Hook)
    requires Bound(w, c, base, n) && 0 < k < n && HookOk(hook, |w.points|)
    ensures SessionPoint(w, c, base + k) && SessionPoint(w, c, base + k - 1)
    ensures PrevAsWritten(w, ViewOf(w, c, base + k)) == Read(w, Some(base + k - 1))
    ensures base + k - 1 != ViewOf(w, c, base + k - 1)
    ensures OnAt(w, base + k - 1, key, hook) == Fail(MissingContext)
  {
    assert SessionPoint(w, c, base + k) && SessionPoint(w, c, base + (k - 1));
    assert ChainLinkAt(w.points, base, n, k) && ChainLinkAt(w.points, base, n, k - 1);
  }

  /** The corrected `prev` returns the session point of the previous structural
      point, and `next` of that leads back: `next` and `prev` are inverse on a
      session. */
  lemma PrevInSession(w: World, c: nat, base: nat, n: nat, k: nat)
    requires Bound(w, c, base, n) && 0 < k < n
    ensures SessionPoint(w, c, base + k) && SessionPoint(w, c, base + k - 1)
    ensures PrevIntended(w, ViewOf(w, c, base + k)) == Read(w, Some(ViewOf(w, c, base + k - 1)))
    ensures NextOf(w, ViewOf(w, c, base + k - 1)) == Read(w, Some(ViewOf(w, c, base + k)))
    ensures NextOf(w, PrevIntended(w, ViewOf(w, c, base + k)).point.value).point == Some(ViewOf(w, c, base + k))
  {
    assert SessionPoint(w, c, base + k) && SessionPoint(w, c, base + (k - 1));
    assert ChainLinkAt(w.points, base, n, k) && ChainLinkAt(w.points, base, n, k - 1);
    NextInSession(w, c, base, n, k - 1);
  }
}
