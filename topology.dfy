/**
 * The structural pipe: pipe points laid out in an arena and linked by integer
 * indices (`_next$`, `_prev$`, `_tail$`), as `buildPipe` and `createPipePoint`
 * lay them out, and the session copies made of them by `copy`.
 */
module Topology {
  import opened Values

  /** The handler a point runs once per session: the no-op `pipeHead` that
      `build` puts first, a user stage function (opaque, known by name and
      identity), or the `pipeConnect` wrapper `use` makes around an already
      built pipe point. */
  datatype Handler = PipeHead | StageFn(name: string, fn: nat) | PipeConnect(pipe: nat)

  /** One `{handler, config}` entry of the builder's list. */
  datatype HandlerMeta = HandlerMeta(handler: Handler, config: Option<Config>)

  /** A PipePoint object. `id` is `_id`: a structural point's own arena index,
      copied unchanged into its session copies. `context` is absent on
      structural points and present on session copies. */
  datatype Point = Point(
    id: nat,
    handler: Handler,
    config: Option<Config>,
    next: Option<nat>,
    prev: Option<nat>,
    tail: Option<nat>,
    context: Option<nat>,
    streamClosed: bool)

  /** `new PipePoint(handlerMeta)` placed at arena index `at`: not linked yet. */
  function NewPoint(at: nat, meta: HandlerMeta): Point {
    Point(at, meta.handler, meta.config, None, None, None, None, false)
  }

  /** `copy(context)`: a fresh point sharing the structural links, id, handler
      and config of `pt`, bound to context `c`; its stream is not closed. */
  function CopyOf(pt: Point, c: nat): (r: Point)
    ensures r.id == pt.id && r.next == pt.next && r.prev == pt.prev && r.tail == pt.tail
    ensures r.handler == pt.handler && r.config == pt.config
    ensures r.context == Some(c) && !r.streamClosed
  {
    pt.(context := Some(c), streamClosed := false)
  }

  /** The points `buildPipe(metas)` appends to an arena whose length is `base`:
      point k links back to k - 1 and forward to k + 1, and only the first
      knows the tail. */
  function Laid(metas: seq<HandlerMeta>, base: nat): (r: seq<Point>)
    ensures |r| == |metas|
  {
    seq(|metas|, k requires 0 <= k < |metas| =>
      Point(base + k, metas[k].handler, metas[k].config,
            if k + 1 < |metas| then Some(base + k + 1) else None,
            if k > 0 then Some(base + k - 1) else None,
            if k == 0 then Some(base + |metas| - 1) else None,
            None, false))
  }

  /** `n` structural points starting at `base` form one doubly linked chain
      whose head knows the tail. */
  ghost predicate IsChain(ps: seq<Point>, base: nat, n: nat) {
    && 0 < n
    && base + n <= |ps|
    && (forall k | 0 <= k < n :: ChainLinkAt(ps, base, n, k))
  }

  ghost predicate ChainLinkAt(ps: seq<Point>, base: nat, n: nat, k: nat)
    requires k < n && base + n <= |ps|
  {
    && ps[base + k].id == base + k
    && ps[base + k].context.None?
    && ps[base + k].next == (if k + 1 < n then Some(base + k + 1) else None)
    && ps[base + k].prev == (if k > 0 then Some(base + k - 1) else None)
    && ps[base + k].tail == (if k == 0 then Some(base + n - 1) else None)
  }

  /** What `buildPipe` promises: the first point is the head, its `_tail$` is
      the last, the head has no `_prev$`, the last has no `_next$`, and for any
      two points of the chain `p._next$ == q` exactly when `q._prev$ == p`. */
  lemma ChainLinks(ps: seq<Point>, base: nat, n: nat)
    requires IsChain(ps, base, n)
    ensures ps[base].prev.None? && ps[base].tail == Some(base + n - 1)
    ensures ps[base + n - 1].next.None?
    ensures forall i, j | base <= i < base + n && base <= j < base + n ::
              ps[i].next == Some(j) <==> ps[j].prev == Some(i)
    ensures forall i, j | base <= i < base + n && base <= j < base + n ::
              ps[i].next == Some(j) ==> j == i + 1
  {
    assert ChainLinkAt(ps, base, n, 0) && ChainLinkAt(ps, base, n, n - 1);
    forall i, j | base <= i < base + n && base <= j < base + n
      ensures ps[i].next == Some(j) <==> ps[j].prev == Some(i)
      ensures ps[i].next == Some(j) ==> j == i + 1
    {
      assert ChainLinkAt(ps, base, n, i - base) && ChainLinkAt(ps, base, n, j - base);
    }
  }

  /** Laying out a non-empty handler list after any arena yields a chain. */
  lemma LaidIsChain(before: seq<Point>, metas: seq<HandlerMeta>)
    requires |metas| > 0
    ensures IsChain(before + Laid(metas, |before|), |before|, |metas|)
  {
    var ps := before + Laid(metas, |before|);
    forall k | 0 <= k < |metas| ensures ChainLinkAt(ps, |before|, |metas|, k) {
      assert ps[|before| + k] == Laid(metas, |before|)[k];
    }
  }

  /** Index and pointer sanity of an arena of points over `nctx` contexts.
      Every `_next$` leads to a structural point (copies share their
      original's links), and a structural point's `_next$` lies later in the
      arena, so following `_next$` always ends. */
  ghost predicate PointOk(ps: seq<Point>, nctx: nat, i: nat)
    requires i < |ps|
  {
    && (ps[i].next.Some? ==> ps[i].next.value < |ps| && ps[ps[i].next.value].context.None?)
    && (ps[i].context.None? && ps[i].next.Some? ==> i < ps[i].next.value)
    && (ps[i].prev.Some? ==> ps[i].prev.value < |ps|)
    && (ps[i].tail.Some? ==> ps[i].tail.value < |ps|)
    && (ps[i].context.Some? ==> ps[i].context.value < nctx)
    && (ps[i].context.None? ==> ps[i].id == i)
    && ps[i].id < |ps|
  }

  ghost predicate ArenaOk(ps: seq<Point>, nctx: nat) {
    forall i | 0 <= i < |ps| :: PointOk(ps, nctx, i)
  }

  /** The structural points reached from structural point `s` by `_next$`,
      `s` first. */
  ghost function Successors(ps: seq<Point>, nctx: nat, s: nat): (r: seq<nat>)
    requires ArenaOk(ps, nctx) && s < |ps| && ps[s].context.None?
    ensures |r| > 0 && r[0] == s
    ensures forall k | 0 <= k < |r| :: r[k] < |ps| && ps[r[k]].context.None?
    decreases |ps| - s
  {
    assert PointOk(ps, nctx, s);
    if ps[s].next.None? then [s] else [s] + Successors(ps, nctx, ps[s].next.value)
  }

  /** The successors are the `_next$` walk: each one's `_next$` is the one
      after it, and the last has none. */
  lemma {:induction false} SuccessorsLinked(ps: seq<Point>, nctx: nat, s: nat, j: nat)
    requires ArenaOk(ps, nctx) && s < |ps| && ps[s].context.None? && j < |Successors(ps, nctx, s)|
    ensures var r := Successors(ps, nctx, s);
            ps[r[j]].next == (if j + 1 < |r| then Some(r[j + 1]) else None)
    decreases |ps| - s
  {
    assert PointOk(ps, nctx, s);
    if j > 0 {
      SuccessorsLinked(ps, nctx, ps[s].next.value, j - 1);
    }
  }

  /** Along a chain, the successors of point k are the points after it. */
  lemma {:induction false} ChainSuccessors(ps: seq<Point>, nctx: nat, base: nat, n: nat, k: nat)
    requires ArenaOk(ps, nctx) && IsChain(ps, base, n) && k < n
    ensures ps[base + k].context.None?
    ensures Successors(ps, nctx, base + k) == seq(n - k, j => base + k + j)
    decreases n - k
  {
    assert ChainLinkAt(ps, base, n, k);
    if k + 1 < n {
      ChainSuccessors(ps, nctx, base, n, k + 1);
    }
  }
}
