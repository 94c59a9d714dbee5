/**
 * One routing step of `PipePoint.send`: the ttl default and expiry rule, the
 * choice of direction by stage and flow, context inheritance, and the four
 * ways a message ends at the end of the chain.
 */
module Routing {
  import opened Values
  import opened Topology

  /** The fields of a message object that the engine reads or writes:
      `kind` is `message.type` and `sync` the truthiness of `message.sync`. */
  datatype Msg = Msg(
    kind: string,
    flow: Flow,
    stage: Stage,
    ref: Value,
    ttl: Option<int>,
    context: Option<nat>,
    sync: bool)

  /** What `send` does with the message after updating it. */
  datatype SendAction =
    | Dropped(viaContext: bool)     // handed to `context.onDrop` (true) or the default onDrop
    | Deliver(target: nat)          // `target.process(message)`
    | NoContext                     // throws "Context is missing"
    | Rethrow(error: Value)         // `throw message.ref`
    | StrictViolation(context: nat) // `this.copy(message.context).throw(new Error(...))`
    | TurnAround                    // a trace request turns into a response here
    | Absorbed                      // nothing happens

  datatype Routed = Routed(msg: Msg, action: SendAction)

  /** The absolute expiry `send` assigns: kept when already set, otherwise
      `now` plus the sending point's ttl. */
  function Expiry(m: Msg, config: Option<Config>, now: int): int {
    if m.ttl.Some? then m.ttl.value else now + TtlSpan(config)
  }

  /** The neighbour `send` picks: this point again for PROCESS, otherwise
      `_next$` for a request and `_prev$` for a response. */
  function Target(m: Msg, self: nat, pt: Point): Option<nat> {
    if m.stage == Process then Some(self)
    else if m.flow == Request then pt.next
    else pt.prev
  }

  /** `send(message)` on point `pt` (arena index `self`) at time `now`.
      `customDrop` says that the point's own context has a truthy `onDrop`;
      `strict` is the `$strict` list of the message's context. */
  function Route(m: Msg, self: nat, pt: Point, customDrop: bool, strict: seq<string>, now: int): (r: Routed)
    // ttl: defaulted only when undefined, never changed once set
    ensures r.msg.ttl == Some(Expiry(m, pt.config, now))
    ensures m.ttl.Some? ==> r.msg.ttl == m.ttl
    ensures m.ttl.None? ==> r.msg.ttl == Some(now + TtlSpan(pt.config))
    // strictly expired messages are dropped and go nowhere; ttl == now is still routed
    ensures r.action.Dropped? <==> Expiry(m, pt.config, now) < now
    ensures r.action.Dropped? ==> r.msg == m.(ttl := r.msg.ttl) && r.action.viaContext == customDrop
    // the payload, type and sync flag are never touched
    ensures r.msg.kind == m.kind && r.msg.ref == m.ref && r.msg.sync == m.sync
    // PROCESS stays PROCESS; anything else leaves as TRANSIT
    ensures !r.action.Dropped? ==> r.msg.stage == (if m.stage == Process then Process else Transit)
    // direction
    ensures r.action.Deliver? && m.stage == Process ==> r.action.target == self
    ensures r.action.Deliver? && m.stage != Process && m.flow == Request ==> pt.next == Some(r.action.target)
    ensures r.action.Deliver? && m.stage != Process && m.flow == Response ==> pt.prev == Some(r.action.target)
    // with a target, the message inherits the point's context or throws
    ensures !r.action.Dropped? ==>
              ((r.action.Deliver? || r.action.NoContext?) <==>
               (m.stage == Process || (m.flow == Request && pt.next.Some?) || (m.flow == Response && pt.prev.Some?)))
    ensures (r.action.Deliver? || r.action.NoContext?) ==> r.msg.context == m.context.OrElse(pt.context)
    ensures r.action.NoContext? <==> !r.action.Dropped? && Target(m, self, pt).Some? && m.context.None? && pt.context.None?
    // without a target: error rethrown, strict violation, trace turnaround, or absorbed, in that order
    ensures !(r.action.Deliver? || r.action.NoContext?) ==> r.msg.context == m.context
    ensures r.action.Rethrow? <==> !r.action.Dropped? && Target(m, self, pt).None? && m.kind == "error"
    ensures r.action.Rethrow? ==> r.action.error == m.ref
    ensures r.action.StrictViolation? <==>
              !r.action.Dropped? && Target(m, self, pt).None? && m.kind != "error" && m.context.Some? && m.kind in strict
    ensures r.action.StrictViolation? ==> Some(r.action.context) == m.context
    ensures r.action.TurnAround? <==>
              !r.action.Dropped? && Target(m, self, pt).None? && m.kind == "trace" && m.flow == Request
              && !(m.context.Some? && m.kind in strict)
    ensures r.msg.flow == (if r.action.TurnAround? then Response else m.flow)
  {
    var ttl := Expiry(m, pt.config, now);
    var timed := m.(ttl := Some(ttl));
    if ttl < now then Routed(timed, Dropped(customDrop))
    else Steer(timed, self, pt, strict)
  }

  /** The part of `send` after the ttl check, for a message that has not
      expired: staging, the choice of neighbour, context inheritance, and
      what happens at the end of the chain. */
  function Steer(m: Msg, self: nat, pt: Point, strict: seq<string>): Routed {
    var target := Target(m, self, pt);
    var staged := if m.stage == Process then m else m.(stage := Transit);
    if target.Some? then
      var bound := staged.(context := m.context.OrElse(pt.context));
      if bound.context.None? then Routed(bound, NoContext)
      else Routed(bound, Deliver(target.value))
    else if m.kind == "error" then Routed(staged, Rethrow(m.ref))
    else if m.context.Some? && m.kind in strict then Routed(staged, StrictViolation(m.context.value))
    else if m.kind == "trace" && m.flow == Request then Routed(staged.(flow := Response), TurnAround)
    else Routed(staged, Absorbed)
  }

  /** The error message `throw(err)` sends: an `error` response carrying `err`. */
  function ErrorMessage(err: Value): Msg {
    Msg("error", Response, Unset, err, None, None, false)
  }

  /** The text of the error a strict-mode violation raises (the JSON rendering of
      the payload that follows it is not modelled). */
  function NoConsumerError(msgKind: string): Value {
    Failure("No target consumer found for the " + msgKind)
  }

  /** The expiry a first `send` fixes is kept by every later `send`, wherever
      and whenever it happens: a message routed once and found expired later
      is dropped then. */
  lemma ExpiryFixedOnce(m: Msg, p1: nat, pt1: Point, d1: bool, s1: seq<string>, now1: int,
                        p2: nat, pt2: Point, d2: bool, s2: seq<string>, now2: int)
    ensures var first := Route(m, p1, pt1, d1, s1, now1);
            var second := Route(first.msg, p2, pt2, d2, s2, now2);
            && second.msg.ttl == first.msg.ttl
            && (second.action.Dropped? <==> first.msg.ttl.value < now2)
  {
  }

  /** An error that reaches the end of the chain is never absorbed nor turned
      into a strict violation: it is rethrown. */
  lemma ErrorAtEndRethrown(m: Msg, self: nat, pt: Point, d: bool, strict: seq<string>, now: int)
    requires m.kind == "error" && Expiry(m, pt.config, now) >= now && Target(m, self, pt).None?
    ensures Route(m, self, pt, d, strict, now).action == Rethrow(m.ref)
  {
  }

  /** The error a strict violation synthesizes is itself never a strict violation:
      routed from anywhere, it is delivered, dropped, rethrown or throws for a
      missing context. */
  lemma StrictErrorTerminates(msgKind: string, self: nat, pt: Point, d: bool, strict: seq<string>, now: int)
    ensures var r := Route(ErrorMessage(NoConsumerError(msgKind)), self, pt, d, strict, now);
            !r.action.StrictViolation? && !r.action.TurnAround? && !r.action.Absorbed?
  {
  }
}
