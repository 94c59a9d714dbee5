/**
 * The `Trooba` builder: `use` collects handlers in order, and `build` lays
 * them out once as a structural pipe behind a no-op `pipeHead`, then starts a
 * session of it in the given context and, when an interface name is given,
 * hands the session to the factory stored under that name.
 */
module Builder {
  import opened Values
  import opened Topology
  import opened Registry
  import opened World
  import opened Session
  import opened Runtime

  /** What `use` accepts: a handler function, or an already built pipe point,
      which it wraps in a `pipeConnect` handler that links to it. */
  datatype Usable = Fn(name: string, fn: nat) | Pipe(point: nat)

  function Wrap(u: Usable): Handler {
    match u
    case Fn(name, fn) => StageFn(name, fn)
    case Pipe(p) => PipeConnect(p)
  }

  /** The handler list `build` lays out: `pipeHead` (no config), then the
      handlers in the order they were used. */
  function PipeMetas(handlers: seq<HandlerMeta>): (r: seq<HandlerMeta>)
    ensures |r| == |handlers| + 1 && r[0] == HandlerMeta(PipeHead, None) && r[1..] == handlers
  {
    [HandlerMeta(PipeHead, None)] + handlers
  }

  /** An interface name counts only when it is a non-empty string (`''` is
      falsy). */
  predicate Named(iface: Option<string>) {
    iface.Some? && iface.value != ""
  }

  /** What `build` returns: the session head itself, or what the factory
      makes of it (`factory(pipe)`, opaque here). */
  datatype Built = AsPipe(head: nat) | ViaFactory(factory: Value, head: nat)

  /** The interface step of `build`: the factory found under the name must be
      truthy, otherwise "Cannot find factory" is thrown, and it is then
      called, which throws a TypeError unless it is a function. */
  function Expose(head: nat, name: string, found: Outcome<Value>): (r: Outcome<Built>)
  {
    match found
    case Fail(e) => Fail(e)
    case Ok(f) =>
      if !Truthy(f) then Fail(NoFactory(name))
      else if f.Func? then Ok(ViaFactory(f, head))
      else Fail(TypeError)
  }

  /** What `build` returns once the session `made` exists: its head, or
      what the interface step makes of it. */
  function Handed(made: Created, iface: Option<string>): Outcome<Built>
    requires Sound(made.world) && made.head < |made.world.points|
  {
    if Named(iface) then Expose(made.head, iface.value, GetAt(made.world, made.head, iface.value))
    else Ok(AsPipe(made.head))
  }

  /** The factory lookup of `build` sees the `'$' + name` key of the context
      passed to `build` as the caller left it (or nothing, for a fresh `{}`):
      internal keys are never inherited from the pipe's own context. The one
      exception is `points`, which finds the `$points` registry that `create`
      has just filled. */
  lemma FactoryFromGivenContext(w: World, p: nat, ctx: Option<nat>, name: string)
    requires Sound(w) && p < |w.points| && (ctx.Some? ==> ctx.value < |w.contexts|)
    ensures var made := CreateWorld(w, p, ctx);
            var c := SessionContext(w, ctx);
            var given := if ctx.Some? then w.contexts[ctx.value] else EmptyContext;
            && (name == "points" ==> GetAt(made.world, made.head, name) == Ok(Records(c)))
            && (name != "points" ==> GetAt(made.world, made.head, name) == Ok(Property(given, c, VarKey(name))))
  {
    var made := CreateWorld(w, p, ctx);
    var c := SessionContext(w, ctx);
    var key := VarKey(name);
    HeadInSession(w, p, ctx);
    SessionKeys(w, p, ctx, key);
    assert GetAt(made.world, made.head, name) == Ok(Property(made.world.contexts[c], c, key));
    EngineKeys(name);
  }

  /** The head `create` returns is bound to the session's context. */
  lemma HeadInSession(w: World, p: nat, ctx: Option<nat>)
    requires Sound(w) && p < |w.points| && (ctx.Some? ==> ctx.value < |w.contexts|)
    ensures var made := CreateWorld(w, p, ctx);
            made.world.points[made.head].context == Some(SessionContext(w, ctx))
  {
    var made := CreateWorld(w, p, ctx);
    var chain := ChainFrom(w, p);
    assert made.world.points[made.head] == CopyOf(w.points[chain[0]], SessionContext(w, ctx));
  }

  /** The context `create` leaves behind holds the `$strict` value and the
      internal keys of the given context, and a non-empty `$points`
      registry. */
  lemma SessionKeys(w: World, p: nat, ctx: Option<nat>, key: string)
    requires Sound(w) && p < |w.points| && (ctx.Some? ==> ctx.value < |w.contexts|)
    requires Internal(key)
    ensures var cs := CreateWorld(w, p, ctx).world.contexts[SessionContext(w, ctx)];
            var given := if ctx.Some? then w.contexts[ctx.value] else EmptyContext;
            && cs.strict == given.strict && cs.points != map[]
            && Registry.Get(cs.vars, key) == Registry.Get(given.vars, key)
  {
    var c := SessionContext(w, ctx);
    var given := if ctx.Some? then w.contexts[ctx.value] else EmptyContext;
    var chain := ChainFrom(w, p);
    var ids := IdsOf(w.points, chain);
    var cs := BindAll(Prepared(w, p, ctx)[c], ids, |w.points|);
    assert cs == CreateWorld(w, p, ctx).world.contexts[c];
    assert ids[0] in cs.points;
    if PointContext(w, p).Some? {
      var parent := w.contexts[PointContext(w, p).value].vars;
      assert cs.vars == Inherit(parent, given.vars);
      assert key in cs.vars <==> key in given.vars;
    } else {
      assert cs.vars == given.vars;
    }
  }

  /** Building in a context that holds a function under the interface name
      hands the session head to that function; without one, or with a falsy
      value, `build` throws "Cannot find factory", and with any other value
      calling it throws. `build(context, 'points')` always throws: it finds
      the `$points` registry, which is not a function. */
  lemma BuildWithFactory(w: World, p: nat, ctx: nat, name: string)
    requires Sound(w) && p < |w.points| && ctx < |w.contexts|
    ensures var made := CreateWorld(w, p, Some(ctx));
            var f := Property(w.contexts[ctx], ctx, VarKey(name));
            var r := Expose(made.head, name, GetAt(made.world, made.head, name));
            && (name == "points" ==> r == Fail(TypeError))
            && (name != "points" && f.Func? ==> r == Ok(ViaFactory(f, made.head)))
            && (name != "points" && !Truthy(f) ==> r == Fail(NoFactory(name)))
            && (name != "points" && Truthy(f) && !f.Func? ==> r == Fail(TypeError))
  {
    FactoryFromGivenContext(w, p, Some(ctx), name);
  }

  /** Growing the point arena at its end leaves a laid out pipe as it was. */
  lemma LayoutKept(ps: seq<Point>, qs: seq<Point>, base: nat, handlers: seq<HandlerMeta>)
    requires PipeAt(ps, base, handlers) && ps <= qs
    ensures PipeAt(qs, base, handlers)
  {
    var n := |handlers| + 1;
    assert qs[base..base + n] == ps[base..base + n];
  }

  /** The pipe built from `pipeHead` and `handlers` lies in `ps` from `base`
      on. */
  ghost predicate PipeAt(ps: seq<Point>, base: nat, handlers: seq<HandlerMeta>) {
    base + |handlers| + 1 <= |ps| && ps[base..base + |handlers| + 1] == Laid(PipeMetas(handlers), base)
  }

  /** A pipe builder: the handlers used so far, and the structural pipe
      built from them, kept until the next `use`. */
  class Trooba {
    const engine: Engine
    var handlers: seq<HandlerMeta>
    var pipe: Option<nat>

    /** The cached pipe, when there is one, is the layout of the current
        handler list behind `pipeHead`. */
    ghost predicate Valid()
      reads this, engine
    {
      && engine.Valid()
      && (pipe.Some? ==> PipeAt(engine.points, pipe.value, handlers))
    }

    /** `new Trooba()`: no handlers and no pipe yet. */
    constructor (engine: Engine)
      requires engine.Valid()
      ensures Valid() && this.engine == engine && handlers == [] && pipe.None?
    {
      this.engine := engine;
      handlers := [];
      pipe := None;
    }

    /** `use(handler, config)`: the handler (a pipe point wrapped in
        `pipeConnect`) is appended and the cached pipe is dropped. */
    method Use(u: Usable, config: Option<Config>)
      requires Valid()
      modifies this
      ensures Valid() && handlers == old(handlers) + [HandlerMeta(Wrap(u), config)] && pipe.None?
    {
      handlers := handlers + [HandlerMeta(Wrap(u), config)];
      pipe := None;
    }

    /** The first step of `build`: `this._pipe`, or a pipe freshly built from
        `pipeHead` and the handlers, which is then cached. */
    method CachedPipe() returns (base: nat)
      requires Valid()
      modifies this, engine
      ensures Valid() && handlers == old(handlers) && pipe == Some(base)
      ensures old(pipe).Some? ==> base == old(pipe).value && engine.State() == old(engine.State())
      ensures old(pipe).None? ==>
                base == old(|engine.points|) && engine.State() == PipeWorld(old(engine.State()), PipeMetas(handlers))
    {
      if pipe.Some? {
        return pipe.value;
      }
      var metas := PipeMetas(handlers);
      var built := engine.BuildPipe(metas);
      base := built.value;
      pipe := Some(base);
      assert engine.points[base..base + |metas|] == Laid(metas, base);
    }

    /** `build(context, interfaceName)`: the pipe is built unless cached, a
        session of it is created in `context` (a new `{}` when absent), and
        with an interface name the factory stored under it in that context
        receives the session head. */
    method Build(ctx: Option<nat>, iface: Option<string>) returns (r: Outcome<Built>)
      requires Valid() && (ctx.Some? ==> ctx.value < |engine.contexts|)
      modifies this, engine
      ensures Valid() && handlers == old(handlers) && pipe.Some?
      ensures pipe == (if old(pipe).Some? then old(pipe) else Some(old(|engine.points|)))
      ensures var w1 := if old(pipe).Some? then old(engine.State()) else PipeWorld(old(engine.State()), PipeMetas(handlers));
              var made := CreateWorld(w1, pipe.value, ctx);
              && engine.State() == made.world
              && r == Handed(made, iface)
    {
      var base := CachedPipe();
      ghost var before := engine.points;
      r := Open(base, ctx, iface);
      LayoutKept(before, engine.points, base, handlers);
    }

    /** The session half of `build`: a session of the pipe at `base` in
        `context`, handed to the factory when an interface name is given. */
    method Open(base: nat, ctx: Option<nat>, iface: Option<string>) returns (r: Outcome<Built>)
      requires engine.Valid() && base < |engine.points| && (ctx.Some? ==> ctx.value < |engine.contexts|)
      modifies engine
      ensures engine.Valid() && old(engine.points) <= engine.points
      ensures var made := CreateWorld(old(engine.State()), base, ctx);
              && engine.State() == made.world
              && r == Handed(made, iface)
    {
      var head, _ := engine.Create(base, ctx);
      if iface.None? || iface.value == "" {
        return Ok(AsPipe(head));
      }
      var found := engine.Get(head, iface.value);
      match found {
        case Fail(e) =>
          r := Fail(e);
        case Ok(f) =>
          if !Truthy(f) {
            r := Fail(NoFactory(iface.value));
          } else if f.Func? {
            r := Ok(ViaFactory(f, head));
          } else {
            r := Fail(TypeError);
          }
      }
    }
  }
}
