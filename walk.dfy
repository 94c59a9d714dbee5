/**
 * A message's synchronous journey through the points: `send` and `process`
 * calling each other until the message is absorbed, dropped, thrown, or waits
 * for an asynchronous hook. Each call spends one unit of fuel, which stands in
 * for the JavaScript call stack.
 */
module Walk {
  import opened Values
  import opened Topology
  import opened Registry
  import opened Routing
  import opened Dispatch
  import opened World
  import opened Session

  /** How a journey ends. */
  datatype Exit =
    | Expired(viaContext: bool)                  // ttl passed; handed to an onDrop
    | EndOfChain                                 // nothing more to do at the end of the chain
    | Raised(error: Error)                       // an exception escapes
    | Suspended(at: nat, action: ProcessAction)  // a hook at `at` holds the message
    | OutOfFuel                                  // the bound on the call depth

  /** The state afterwards, the points whose `process` ran (in order), the
      message as it was last seen, and how the journey ended. */
  datatype Trail = Trail(world: World, visits: seq<nat>, msg: Msg, exit: Exit)

  /** The visits of a journey that first passed through `vs`. */
  function Prepend(vs: seq<nat>, t: Trail): (r: Trail)
    ensures r.visits == vs + t.visits && r.world == t.world && r.msg == t.msg && r.exit == t.exit
  {
    t.(visits := vs + t.visits)
  }

  /** `point.send(message)` and whatever it sets in motion. */
  function WalkSend(w: World, from: nat, m: Msg, now: int, fuel: nat): (t: Trail)
    requires Sound(w) && from < |w.points| && MsgOk(w, m)
    ensures Sound(t.world) && |t.visits| <= fuel
    decreases fuel, 1
  {
    var s := SendStep(w, from, m, now);
    var r := s.routed;
    match r.action
    case Dropped(via) => Trail(s.world, [], r.msg, Expired(via))
    case Deliver(target) => WalkProcess(s.world, target, r.msg, now, fuel)
    case NoContext => Trail(s.world, [], r.msg, Raised(MissingContext))
    case Rethrow(e) => Trail(s.world, [], r.msg, Raised(Thrown(e)))
    case StrictViolation(_) =>
      // the copy bound to the message's context throws the synthesized error
      if fuel == 0 then Trail(s.world, [], r.msg, OutOfFuel)
      else WalkSend(s.world, s.copy.value, ErrorMessage(NoConsumerError(m.kind)), now, fuel - 1)
    case TurnAround => WalkProcess(s.world, from, r.msg, now, fuel)
    case Absorbed => Trail(s.world, [], r.msg, EndOfChain)
  }

  /** `point.process(message)` and whatever it sets in motion. */
  function WalkProcess(w: World, at: nat, m: Msg, now: int, fuel: nat): (t: Trail)
    requires Sound(w) && at < |w.points| && MsgOk(w, m)
    ensures Sound(t.world) && |t.visits| <= fuel
    ensures fuel > 0 ==> |t.visits| > 0 && t.visits[0] == at
    decreases fuel, 0
  {
    if fuel == 0 then Trail(w, [], m, OutOfFuel)
    else
      var s := ProcessStep(w, at, m);
      match s.next
      case Suspend => Trail(s.world, [at], s.msg, Suspended(at, s.action))
      case Raise(e) => Trail(s.world, [at], s.msg, Raised(e))
      case SendOn(p) => Prepend([at], WalkSend(s.world, p, s.msg, now, fuel - 1))
  }

  /** The journey that starts with `point.process(message)` at `at`: the
      name the lemmas about whole journeys use for `WalkProcess`. */
  function Journey(w: World, at: nat, m: Msg, now: int, fuel: nat): Trail
    requires Sound(w) && at < |w.points| && MsgOk(w, m)
  {
    WalkProcess(w, at, m, now, fuel)
  }

  /** The breadcrumbs a trace message collects while it visits `vs` in one
      direction at one stage. */
  function Crumbs(vs: seq<nat>, flow: Flow, stage: Stage): (r: seq<Value>)
    ensures |r| == |vs| && forall k | 0 <= k < |vs| :: r[k] == Crumb(vs[k], flow, stage)
  {
    seq(|vs|, k requires 0 <= k < |vs| => Crumb(vs[k], flow, stage))
  }

  /** The message after visiting `vs` at hooks that let it pass: a trace message
      has recorded each visit; anything else is unchanged. */
  function Along(m: Msg, vs: seq<nat>): (r: Msg)
    requires m.kind == "trace" ==> m.ref.List?
    ensures r.kind == m.kind && r.flow == m.flow && r.stage == m.stage && r.ttl == m.ttl
    ensures r.context == m.context && r.sync == m.sync
    ensures m.kind != "trace" ==> r == m
    ensures m.kind == "trace" ==> r.ref == List(m.ref.items + Crumbs(vs, m.flow, m.stage))
  {
    if m.kind == "trace" then m.(ref := List(m.ref.items + Crumbs(vs, m.flow, m.stage))) else m
  }

  /** Visits that follow one another are recorded one after the other. */
  lemma AlongTwice(m: Msg, a: seq<nat>, b: seq<nat>)
    requires m.kind == "trace" ==> m.ref.List?
    ensures Along(Along(m, a), b) == Along(m, a + b)
  {
    if m.kind == "trace" {
      assert Crumbs(a, m.flow, m.stage) + Crumbs(b, m.flow, m.stage) == Crumbs(a + b, m.flow, m.stage);
    }
  }

  /** The structural points from `top` down to `top - k + 1`: a response's
      visits on its way back. */
  function Down(top: nat, k: nat): (r: seq<nat>)
    requires k <= top + 1
    ensures |r| == k && forall i | 0 <= i < k :: r[i] == top - i
  {
    seq(k, i requires 0 <= i < k => top - i)
  }

  /** Hooks that let `m` pass without short-circuiting it: none for its
      type, no `'*'`, no `$link$` bridge, and no end-of-stream hook it would
      reach. */
  predicate LetsPass(hooks: map<string, Hook>, m: Msg) {
    m.kind !in hooks && Wildcard !in hooks && LinkKey !in hooks && EndHookFor(m, hooks).None?
  }

  /** Context `c` holds records for the structural points `lo` .. `hi - 1`,
      and each of them lets `m` pass. */
  ghost predicate Quiet(w: World, m: Msg, c: nat, lo: nat, hi: nat)
    requires c < |w.contexts|
  {
    forall s | lo <= s < hi :: s in w.contexts[c].points && LetsPass(w.contexts[c].points[s].hooks, m)
  }

  /** A message moving through a chain in context `c`, alive at `now`. */
  ghost predicate Moving(w: World, m: Msg, now: int)
  {
    && m.context.Some? && m.context.value < |w.contexts|
    && m.stage == Transit && m.ttl.Some? && m.ttl.value >= now
    && (m.kind == "trace" ==> m.ref.List?)
  }

  /** `process` at a structural point whose record exists and lets the
      message pass: the visit is recorded on a trace and the message is sent on from
      there; nothing else changes. */
  lemma QuietProcess(w: World, s: nat, m: Msg)
    requires Sound(w) && s < |w.points| && w.points[s].id == s && MsgOk(w, m)
    requires m.context.Some? && m.context.value < |w.contexts| && (m.kind == "trace" ==> m.ref.List?)
    requires s in w.contexts[m.context.value].points && LetsPass(w.contexts[m.context.value].points[s].hooks, m)
    ensures ProcessStep(w, s, m) == Step(w, Along(m, [s]), Forward, SendOn(s))
  {
    var c := m.context.value;
    assert TouchAt(w, c, s) == w by {
      assert Touch(w.contexts[c], s, s) == w.contexts[c];
      assert w.contexts[c := w.contexts[c]] == w.contexts;
    }
    var d := Decide(m, HooksOf(w.contexts[c], s), s);
    assert d.action == Forward;
    if m.kind == "trace" {
      assert Crumbs([s], m.flow, m.stage) == [Crumb(s, m.flow, m.stage)];
    }
    assert d.msg == Along(m, [s]);
  }

  /** `send` of a moving message from a point of a chain that has a
      neighbour in its direction: the message goes there unchanged. */
  lemma SendToNeighbour(w: World, s: nat, m: Msg, now: int, target: nat)
    requires Sound(w) && s < |w.points| && Moving(w, m, now)
    requires (if m.flow == Request then w.points[s].next else w.points[s].prev) == Some(target)
    ensures SendStep(w, s, m, now) == Sent(w, Routed(m, Deliver(target)), None)
  {
    var r := Route(m, s, w.points[s], CustomDrop(w, s), StrictOf(w, m), now);
    assert r.msg == m;
  }

  /** `send` of a moving message from a point of a chain without a neighbour
      in its direction, for a type the context does not list as strict. */
  lemma SendAtEnd(w: World, s: nat, m: Msg, now: int)
    requires Sound(w) && s < |w.points| && Moving(w, m, now)
    requires (if m.flow == Request then w.points[s].next else w.points[s].prev) == None
    requires m.kind !in StrictOf(w, m)
    ensures var r := SendStep(w, s, m, now);
            && r.world == w
            && r.routed.action ==
                 (if m.kind == "error" then Rethrow(m.ref)
                  else if m.kind == "trace" && m.flow == Request then TurnAround
                  else SendAction.Absorbed)
            && r.routed.msg == (if r.routed.action.TurnAround? then m.(flow := Response) else m)
  {
  }

  /** A `process` step that sends the message on, seen from the journey. */
  lemma ProcessThenSend(w: World, at: nat, m: Msg, now: int, fuel: nat, rest: nat, m1: Msg, a: ProcessAction)
    requires Sound(w) && at < |w.points| && MsgOk(w, m) && fuel == rest + 1
    requires ProcessStep(w, at, m) == Step(w, m1, a, SendOn(at))
    ensures MsgOk(w, m1)
    ensures WalkProcess(w, at, m, now, fuel) == Prepend([at], WalkSend(w, at, m1, now, rest))
  {
  }

  /** A `send` step that delivers the message, seen from the journey. */
  lemma SendThenProcess(w: World, from: nat, m: Msg, now: int, fuel: nat, target: nat)
    requires Sound(w) && from < |w.points| && MsgOk(w, m) && target < |w.points|
    requires SendStep(w, from, m, now) == Sent(w, Routed(m, Deliver(target)), None)
    ensures WalkSend(w, from, m, now, fuel) == WalkProcess(w, target, m, now, fuel)
  {
  }

  /** One quiet point of a chain passes the message to its neighbour. */
  lemma QuietHop(w: World, s: nat, m: Msg, now: int, fuel: nat, target: nat)
    requires Sound(w) && s < |w.points| && w.points[s].id == s && Moving(w, m, now) && fuel > 0
    requires s in w.contexts[m.context.value].points && LetsPass(w.contexts[m.context.value].points[s].hooks, m)
    requires (if m.flow == Request then w.points[s].next else w.points[s].prev) == Some(target)
    requires target < |w.points|
    ensures Moving(w, Along(m, [s]), now)
    ensures Journey(w, s, m, now, fuel) == Prepend([s], Journey(w, target, Along(m, [s]), now, fuel - 1))
  {
    QuietProcess(w, s, m);
    ProcessThenSend(w, s, m, now, fuel, fuel - 1, Along(m, [s]), Forward);
    SendToNeighbour(w, s, Along(m, [s]), now, target);
    SendThenProcess(w, s, Along(m, [s]), now, fuel - 1, target);
  }

  /** A `send` step that turns a trace around, seen from the journey. */
  lemma SendThenTurn(w: World, from: nat, m: Msg, now: int, fuel: nat)
    requires Sound(w) && from < |w.points| && MsgOk(w, m)
    requires SendStep(w, from, m, now).world == w && SendStep(w, from, m, now).routed.action == TurnAround
    ensures MsgOk(w, SendStep(w, from, m, now).routed.msg)
    ensures WalkSend(w, from, m, now, fuel) == WalkProcess(w, from, SendStep(w, from, m, now).routed.msg, now, fuel)
  {
  }

  /** A trace request at a quiet last point is recorded there, turns into a
      response and is processed at the same point again: the tail is visited
      twice, once in each direction. */
  lemma TraceTurnsAtTail(w: World, s: nat, m: Msg, now: int, fuel: nat)
    requires Sound(w) && s < |w.points| && w.points[s].id == s && Moving(w, m, now) && fuel > 0
    requires m.kind == "trace" && m.flow == Request && "trace" !in StrictOf(w, m)
    requires s in w.contexts[m.context.value].points && LetsPass(w.contexts[m.context.value].points[s].hooks, m)
    requires w.points[s].next == None
    ensures Journey(w, s, m, now, fuel) == Prepend([s], Journey(w, s, Along(m, [s]).(flow := Response), now, fuel - 1))
  {
    QuietProcess(w, s, m);
    ProcessThenSend(w, s, m, now, fuel, fuel - 1, Along(m, [s]), Forward);
    SendAtEnd(w, s, Along(m, [s]), now);
    SendThenTurn(w, s, Along(m, [s]), now, fuel - 1);
  }

  /** How a message that is not a trace ends at the last point in its
      direction when no hook takes it: an error is rethrown, anything else
      is absorbed. */
  function EndExit(m: Msg): Exit {
    if m.kind == "error" then Raised(Thrown(m.ref)) else EndOfChain
  }

  /** Point `s` lets the moving message `m` pass to its neighbour `target`
      in the message's direction: its record in the message's context lets
      the message pass. */
  ghost predicate PassesAt(w: World, m: Msg, now: int, s: nat, target: nat)
  {
    && Sound(w) && s < |w.points| && w.points[s].id == s && target < |w.points|
    && Moving(w, m, now) && m.kind != "trace"
    && s in w.contexts[m.context.value].points && LetsPass(w.contexts[m.context.value].points[s].hooks, m)
    && (if m.flow == Request then w.points[s].next else w.points[s].prev) == Some(target)
  }

  /** Point `s` is the last one in the message's direction and lets it pass;
      the message is neither a trace nor of a type the context lists as
      strict. */
  ghost predicate EndsAt(w: World, m: Msg, now: int, s: nat)
  {
    && Sound(w) && s < |w.points| && w.points[s].id == s
    && Moving(w, m, now) && m.kind != "trace" && m.kind !in StrictOf(w, m)
    && s in w.contexts[m.context.value].points && LetsPass(w.contexts[m.context.value].points[s].hooks, m)
    && (if m.flow == Request then w.points[s].next else w.points[s].prev) == None
  }

  /** At the end of the chain in its direction, a quiet point ends the
      journey of a message that is neither a trace nor strict. */
  lemma QuietEnd(w: World, s: nat, m: Msg, now: int, fuel: nat)
    requires EndsAt(w, m, now, s) && fuel > 0
    ensures Journey(w, s, m, now, fuel) == Trail(w, [s], m, EndExit(m))
  {
    QuietProcess(w, s, m);
    ProcessThenSend(w, s, m, now, fuel, fuel - 1, m, Forward);
    SendAtEnd(w, s, m, now);
  }

  /** A quiet point passes a message that is not a trace on unchanged. */
  lemma QuietPass(w: World, s: nat, m: Msg, now: int, fuel: nat, target: nat, rest: nat)
    requires PassesAt(w, m, now, s, target) && fuel == rest + 1
    ensures Journey(w, s, m, now, fuel) == Prepend([s], Journey(w, target, m, now, rest))
  {
    assert Along(m, [s]) == m;
    QuietProcess(w, s, m);
    ProcessThenSend(w, s, m, now, fuel, rest, m, Forward);
    SendToNeighbour(w, s, m, now, target);
    SendThenProcess(w, s, m, now, rest, target);
  }

  /** Journeys each of which is one visit followed by the next one add up
      to a journey through all the visits. */
  lemma {:induction false} Telescope(ts: seq<Trail>, vs: seq<nat>, w: World, m: Msg, e: Exit)
    requires |ts| == |vs| > 0
    requires forall i | 0 <= i < |ts| - 1 :: ts[i] == Prepend([vs[i]], ts[i + 1])
    requires ts[|ts| - 1] == Trail(w, [vs[|vs| - 1]], m, e)
    ensures ts[0] == Trail(w, vs, m, e)
    decreases |ts|
  {
    if |ts| > 1 {
      Telescope(ts[1..], vs[1..], w, m, e);
      assert [vs[0]] + vs[1..] == vs;
    }
  }

  /** The journeys below start at points of the arena, with enough fuel. */
  ghost predicate JourneysOk(w: World, ats: seq<nat>, m: Msg, fuel: nat)
  {
    Sound(w) && MsgOk(w, m) && |ats| <= fuel && forall i | 0 <= i < |ats| :: ats[i] < |w.points|
  }

  /** The journeys of one message from each of the points `ats`, the `i`-th
      with `i` fewer units of fuel. */
  ghost function Journeys(w: World, ats: seq<nat>, m: Msg, now: int, fuel: nat): (ts: seq<Trail>)
    requires JourneysOk(w, ats, m, fuel)
    ensures |ts| == |ats|
    ensures forall i | 0 <= i < |ats| :: ts[i] == Journey(w, ats[i], m, now, fuel - i)
  {
    seq(|ats|, i requires 0 <= i < |ats| => Journey(w, ats[i], m, now, fuel - i))
  }

  lemma JourneyAt(w: World, ats: seq<nat>, m: Msg, now: int, fuel: nat, i: nat)
    requires JourneysOk(w, ats, m, fuel) && i < |ats|
    ensures Journeys(w, ats, m, now, fuel)[i] == Journey(w, ats[i], m, now, fuel - i)
  {
  }

  /** One step of a quiet path, seen on the journeys. */
  lemma PathLink(w: World, vs: seq<nat>, m: Msg, now: int, fuel: nat, i: nat)
    requires JourneysOk(w, vs, m, fuel) && i + 1 < |vs| <= fuel && PassesAt(w, m, now, vs[i], vs[i + 1])
    ensures Journeys(w, vs, m, now, fuel)[i] == Prepend([vs[i]], Journeys(w, vs, m, now, fuel)[i + 1])
  {
    var s, t := vs[i], vs[i + 1];
    QuietPass(w, s, m, now, fuel - i, t, fuel - (i + 1));
    JourneyAt(w, vs, m, now, fuel, i);
    JourneyAt(w, vs, m, now, fuel, i + 1);
  }

  /** The end of a quiet path, seen on the journeys. */
  lemma PathEnd(w: World, vs: seq<nat>, m: Msg, now: int, fuel: nat)
    requires JourneysOk(w, vs, m, fuel) && 0 < |vs| <= fuel && EndsAt(w, m, now, vs[|vs| - 1])
    ensures Journeys(w, vs, m, now, fuel)[|vs| - 1] == Trail(w, [vs[|vs| - 1]], m, EndExit(m))
  {
    var last := |vs| - 1;
    var s := vs[last];
    QuietEnd(w, s, m, now, fuel - last);
    JourneyAt(w, vs, m, now, fuel, last);
  }

  /** A message that is neither a trace nor strict, sent along a path of
      points each of which lets it pass to the next, visits exactly those
      points and ends at the last one: absorbed, or rethrown when it is an
      error. Nothing in the state changes. */
  lemma {:induction false} QuietPath(w: World, vs: seq<nat>, m: Msg, now: int, fuel: nat)
    requires JourneysOk(w, vs, m, fuel) && 0 < |vs| <= fuel
    requires forall i | 0 <= i < |vs| - 1 :: PassesAt(w, m, now, vs[i], vs[i + 1])
    requires EndsAt(w, m, now, vs[|vs| - 1])
    ensures Journey(w, vs[0], m, now, fuel) == Trail(w, vs, m, EndExit(m))
  {
    var ts := Journeys(w, vs, m, now, fuel);
    forall i | 0 <= i < |ts| - 1
      ensures ts[i] == Prepend([vs[i]], ts[i + 1])
    {
      PathLink(w, vs, m, now, fuel, i);
    }
    PathEnd(w, vs, m, now, fuel);
    Telescope(ts, vs, w, m, EndExit(m));
    JourneyAt(w, vs, m, now, fuel, 0);
  }

  /** The journeys of a message that is neither a trace nor strict through
      a quiet stretch of the chain `base` .. `base + n - 1`. */
  ghost predicate QuietRun(w: World, base: nat, n: nat, m: Msg, now: int, lo: nat, hi: nat)
  {
    && Sound(w) && IsChain(w.points, base, n) && base <= lo < hi <= base + n
    && Moving(w, m, now) && m.kind != "trace" && m.kind !in StrictOf(w, m)
    && Quiet(w, m, m.context.value, lo, hi)
  }

  /** Point `p` of a chain and its neighbours. */
  lemma ChainAt(ps: seq<Point>, base: nat, n: nat, p: nat)
    requires IsChain(ps, base, n) && base <= p < base + n
    ensures ps[p].id == p && ps[p].context.None?
    ensures ps[p].next == (if p + 1 < base + n then Some(p + 1) else None)
    ensures ps[p].prev == (if p > base then Some(p - 1) else None)
  {
    assert ChainLinkAt(ps, base, n, p - base);
  }

  /** A quiet stretch from `s` to the tail is a quiet path for a request. */
  lemma RequestPath(w: World, base: nat, n: nat, s: nat, m: Msg, now: int, fuel: nat)
    requires QuietRun(w, base, n, m, now, s, base + n) && m.flow == Request && fuel >= base + n - s
    ensures var vs := Range(s, base + n - s);
            && JourneysOk(w, vs, m, fuel) && vs[0] == s
            && (forall i | 0 <= i < |vs| - 1 :: PassesAt(w, m, now, vs[i], vs[i + 1]))
            && EndsAt(w, m, now, vs[|vs| - 1])
  {
    var vs := Range(s, base + n - s);
    forall i | 0 <= i < |vs| - 1
      ensures PassesAt(w, m, now, vs[i], vs[i + 1])
    {
      ChainAt(w.points, base, n, s + i);
    }
    ChainAt(w.points, base, n, base + n - 1);
  }

  /** A quiet stretch from `s` back to the head is a quiet path for a
      response. */
  lemma ResponsePath(w: World, base: nat, n: nat, s: nat, m: Msg, now: int, fuel: nat)
    requires QuietRun(w, base, n, m, now, base, s + 1) && m.flow == Response && fuel >= s - base + 1
    ensures var vs := Down(s, s - base + 1);
            && JourneysOk(w, vs, m, fuel) && vs[0] == s
            && (forall i | 0 <= i < |vs| - 1 :: PassesAt(w, m, now, vs[i], vs[i + 1]))
            && EndsAt(w, m, now, vs[|vs| - 1])
  {
    var vs := Down(s, s - base + 1);
    forall i | 0 <= i < |vs| - 1
      ensures PassesAt(w, m, now, vs[i], vs[i + 1])
    {
      ChainAt(w.points, base, n, s - i);
    }
    ChainAt(w.points, base, n, base);
  }

  /** A request, other than a trace, that reaches point `s` of a chain whose
      points from `s` on are quiet passes each of them once, in chain order,
      and ends at the tail: absorbed, or rethrown when it is an error. */
  lemma RequestTraversal(w: World, base: nat, n: nat, s: nat, m: Msg, now: int, fuel: nat)
    requires QuietRun(w, base, n, m, now, s, base + n) && m.flow == Request && fuel >= base + n - s
    ensures Journey(w, s, m, now, fuel) == Trail(w, Range(s, base + n - s), m, EndExit(m))
  {
    RequestPath(w, base, n, s, m, now, fuel);
    QuietPath(w, Range(s, base + n - s), m, now, fuel);
  }

  /** A response, other than a trace, that reaches point `s` of a chain whose
      points up to `s` are quiet passes each of them once, back to the head,
      and ends there: absorbed, or thrown to the caller when it is an
      error. */
  lemma ResponseTraversal(w: World, base: nat, n: nat, s: nat, m: Msg, now: int, fuel: nat)
    requires QuietRun(w, base, n, m, now, base, s + 1) && m.flow == Response && fuel >= s - base + 1
    ensures Journey(w, s, m, now, fuel) == Trail(w, Down(s, s - base + 1), m, EndExit(m))
  {
    ResponsePath(w, base, n, s, m, now, fuel);
    QuietPath(w, Down(s, s - base + 1), m, now, fuel);
  }
}
