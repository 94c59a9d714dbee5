/**
 * One arrival of a message at a point, `PipePoint.process`: the `$link$` bridge
 * transition table, the trace breadcrumb, hook lookup (exact type first, then
 * `'*'`), the sync/async split, the end-of-stream fallback, the completion
 * callback, and what each of the three bridge hooks `link` installs does.
 */
module Dispatch {
  import opened Values
  import opened Registry
  import opened Routing

  const LinkKey: string := "$link$"
  const Wildcard: string := "*"

  /** What the `$link$` branch of `process` does: hand the message to the
      bridge now, or set the stage and fall through to the ordinary hooks. */
  datatype LinkMove = Bridge(stage: Stage) | Local(stage: Stage)

  /** The `$link$` transition table over flow and stage. */
  function LinkTransition(flow: Flow, stage: Stage): (mv: LinkMove)
    ensures mv.Bridge? <==> (flow == Request && stage == Process) || (flow == Response && stage == Transit)
    ensures mv.Bridge? ==> mv.stage == Transit
    ensures mv.Local? ==> mv.stage == (if flow == Request then Process else Transit)
  {
    match flow
    case Request => if stage == Process then Bridge(Transit) else Local(Process)
    case Response => if stage == Transit then Bridge(Transit) else Local(Transit)
  }

  /** At a linked point a request runs the ordinary hooks on arrival and is
      bridged when it comes back with stage PROCESS; a response is bridged on
      arrival and runs the ordinary hooks when the bridge sends it back with
      stage PROCESS. Either way it leaves as TRANSIT. */
  lemma LinkOrder(arrival: Stage)
    requires arrival != Process
    ensures LinkTransition(Request, arrival) == Local(Process)
    ensures LinkTransition(Request, LinkTransition(Request, arrival).stage) == Bridge(Transit)
    ensures LinkTransition(Response, Transit) == Bridge(Transit)
    ensures LinkTransition(Response, Process) == Local(Transit)
  {
  }

  /** The hook `process` chose: its key, the hook, and whether it receives the
      whole message (the `'*'` hook) rather than `ref`. */
  datatype Selected = Selected(key: string, hook: Hook, whole: bool)

  /** Hook lookup: the hook for the message type, else the `'*'` hook. */
  function SelectHook(hooks: map<string, Hook>, kind: string): (r: Option<Selected>)
    ensures r.Some? <==> kind in hooks || Wildcard in hooks
    ensures kind in hooks ==> r == Some(Selected(kind, hooks[kind], false))
    ensures kind !in hooks && Wildcard in hooks ==> r == Some(Selected(Wildcard, hooks[Wildcard], true))
  {
    if kind in hooks then Some(Selected(kind, hooks[kind], false))
    else if Wildcard in hooks then Some(Selected(Wildcard, hooks[Wildcard], true))
    else None
  }

  /** A stream data message whose payload is undefined marks the end of the stream. */
  predicate EndOfStream(m: Msg) {
    (m.kind == "response:data" || m.kind == "request:data") && m.ref == Undefined
  }

  /** The hook that ends a stream in the message's flow. */
  function EndKey(flow: Flow): string {
    if flow == Request then "request:end" else "response:end"
  }

  /** `processEndEvent`'s lookup: the end hook to run instead of propagating. */
  function EndHookFor(m: Msg, hooks: map<string, Hook>): Option<Hook> {
    if EndOfStream(m) && EndKey(m.flow) in hooks then Some(hooks[EndKey(m.flow)]) else None
  }

  /** What `process` does with the message after updating it. */
  datatype ProcessAction =
    | ToBridge(hook: Hook)                                 // the `$link$` hook takes the message
    | Invoke(key: string, hook: Hook, whole: bool, awaits: bool) // a hook runs; without `awaits` the message is sent on at once
    | ToEndHook(key: string, hook: Hook)                   // the end hook runs; the message is sent on when it completes
    | Forward                                              // `point.send(message)`
    | Fault(error: Error)                                  // a TypeError is thrown

  datatype Processed = Processed(msg: Msg, action: ProcessAction)

  /** The trace breadcrumb list with this visit appended. */
  function Breadcrumbs(m: Msg, here: nat, stage: Stage): Value
    requires m.ref.List?
  {
    List(m.ref.items + [Crumb(here, m.flow, stage)])
  }

  /** The message reaches the ordinary hooks: it was not bridged, it carries a
      context (`message.context.trace` is read first), and a trace message
      carries a list to append to. */
  predicate ReachesHooks(m: Msg, hooks: map<string, Hook>) {
    && !(LinkKey in hooks && LinkTransition(m.flow, m.stage).Bridge?)
    && m.context.Some?
    && (m.kind == "trace" ==> m.ref.List?)
  }

  /** `process(message)` at arena index `here`, given the hooks registered for
      this point in the message's context. */
  function Decide(m: Msg, hooks: map<string, Hook>, here: nat): (r: Processed)
    // only the stage and (for a trace) the payload change
    ensures r.msg.kind == m.kind && r.msg.flow == m.flow && r.msg.ttl == m.ttl
    ensures r.msg.context == m.context && r.msg.sync == m.sync
    // the link bridge table
    ensures LinkKey in hooks ==> r.msg.stage == LinkTransition(m.flow, m.stage).stage
    ensures LinkKey !in hooks ==> r.msg.stage == m.stage
    ensures r.action.ToBridge? <==> LinkKey in hooks && LinkTransition(m.flow, m.stage).Bridge?
    ensures r.action.ToBridge? ==> r.action.hook == hooks[LinkKey] && r.msg.ref == m.ref
    // a missing context is only noticed after the bridge branch, as a TypeError
    ensures r.action.Fault? <==> !r.action.ToBridge? && !ReachesHooks(m, hooks)
    ensures r.action.Fault? ==> r.action.error == TypeError && r.msg.ref == m.ref
    // a trace message records this visit with the stage it now has
    ensures ReachesHooks(m, hooks) ==>
              r.msg.ref == (if m.kind == "trace" then Breadcrumbs(m, here, r.msg.stage) else m.ref)
    // the exact hook, then '*', then the end-of-stream hook, then propagation
    ensures r.action.Invoke? <==> ReachesHooks(m, hooks) && SelectHook(hooks, m.kind).Some?
    ensures r.action.Invoke? ==>
              SelectHook(hooks, m.kind) == Some(Selected(r.action.key, r.action.hook, r.action.whole))
              && r.action.awaits == !m.sync
    ensures r.action.ToEndHook? <==>
              ReachesHooks(m, hooks) && SelectHook(hooks, m.kind).None? && EndOfStream(m) && EndKey(m.flow) in hooks
    ensures r.action.ToEndHook? ==> r.action.key == EndKey(m.flow) && r.action.hook == hooks[EndKey(m.flow)]
  {
    var mv := if LinkKey in hooks then LinkTransition(m.flow, m.stage) else Local(m.stage);
    var staged := m.(stage := mv.stage);
    if mv.Bridge? then Processed(staged, ToBridge(hooks[LinkKey]))
    else if m.context.None? then Processed(staged, Fault(TypeError))
    else if m.kind == "trace" && !m.ref.List? then Processed(staged, Fault(TypeError))
    else
      var traced := if m.kind == "trace" then staged.(ref := Breadcrumbs(m, here, mv.stage)) else staged;
      match SelectHook(hooks, m.kind)
      case Some(sel) => Processed(traced, Invoke(sel.key, sel.hook, sel.whole, !m.sync))
      case None =>
        match EndHookFor(traced, hooks)
        case Some(h) => Processed(traced, ToEndHook(EndKey(m.flow), h))
        case None => Processed(traced, Forward)
  }

  /** `onComplete(ref?)` of an asynchronous hook: the payload is replaced only
      when an argument is passed; then an end-of-stream message goes to its end
      hook if there is one, and anything else is sent on. */
  function Completed(m: Msg, arg: Option<Value>, hooks: map<string, Hook>): (r: Processed)
    ensures r.msg == (if arg.Some? then m.(ref := arg.value) else m)
    ensures r.action.ToEndHook? || r.action.Forward?
    ensures r.action.ToEndHook? <==> EndOfStream(r.msg) && EndKey(m.flow) in hooks
    ensures r.action.ToEndHook? ==> r.action == ToEndHook(EndKey(m.flow), hooks[EndKey(m.flow)])
  {
    var m' := if arg.Some? then m.(ref := arg.value) else m;
    match EndHookFor(m', hooks)
    case Some(h) => Processed(m', ToEndHook(EndKey(m.flow), h))
    case None => Processed(m', Forward)
  }

  /** A synchronous data message whose hook consumed it is sent on without the
      end hook, while the same message handled asynchronously reaches the end
      hook when the hook completes without an argument: the end-of-stream
      fallback runs after a hook only on the asynchronous path. */
  lemma EndHookOnlyAfterAsyncCompletion(m: Msg, hooks: map<string, Hook>, here: nat)
    requires ReachesHooks(m, hooks) && m.kind != "trace"
    requires EndOfStream(m) && EndKey(m.flow) in hooks && m.kind in hooks
    ensures Decide(m, hooks, here).action == Invoke(m.kind, hooks[m.kind], false, !m.sync)
    ensures Completed(Decide(m, hooks, here).msg, None, hooks).action.ToEndHook?
  {
  }

  /** Where a bridge hook sends the message on: from a point, or from the
      session tail of the nested pipe whose head is given (`pipe.tail`). */
  datatype Origin = FromPoint(point: nat) | FromTailOf(head: nat)

  datatype Hop = Hop(origin: Origin, stage: Stage)

  /** What the three `$link$` hooks that `link` registers do with a message of
      this flow and stage; a `$link$` hook of any other kind is opaque. */
  function BridgeHop(hook: Hook, flow: Flow, stage: Stage): (h: Option<Hop>)
    ensures h.Some? <==> hook.LinkStart? || hook.LinkHead? || hook.LinkTail?
    // on the parent point: requests enter the nested head, responses re-enter the nested tail as PROCESS
    ensures hook.LinkStart? && flow == Request ==> h == Some(Hop(FromPoint(hook.nested), stage))
    ensures hook.LinkStart? && flow == Response ==> h == Some(Hop(FromTailOf(hook.nested), Process))
    // on the nested head: responses go back to the parent as PROCESS
    ensures hook.LinkHead? && flow == Response ==> h == Some(Hop(FromPoint(hook.parent), Process))
    ensures hook.LinkHead? && flow == Request ==> h == Some(Hop(FromPoint(hook.nested), stage))
    // on the nested tail: requests continue from the parent
    ensures hook.LinkTail? && flow == Request ==> h == Some(Hop(FromPoint(hook.parent), stage))
    ensures hook.LinkTail? && flow == Response ==> h == Some(Hop(FromTailOf(hook.nested), stage))
  {
    match hook
    case LinkStart(nested) =>
      if flow == Request then Some(Hop(FromPoint(nested), stage))
      else Some(Hop(FromTailOf(nested), Process))
    case LinkHead(parent, nested) =>
      if flow == Response then Some(Hop(FromPoint(parent), Process))
      else Some(Hop(FromPoint(nested), stage))
    case LinkTail(parent, nested) =>
      if flow == Request then Some(Hop(FromPoint(parent), stage))
      else Some(Hop(FromTailOf(nested), stage))
    case _ => None
  }

  /** Every message a bridge hands on after `process` bridged it is either a
      request that continues as TRANSIT or a response marked PROCESS at the
      point it is sent from, except a response leaving the nested tail's
      bridge, which keeps TRANSIT. */
  lemma BridgeStages(hook: Hook, m: Msg, hooks: map<string, Hook>, here: nat)
    requires LinkKey in hooks && hooks[LinkKey] == hook
    requires Decide(m, hooks, here).action.ToBridge?
    requires hook.LinkStart? || hook.LinkHead?
    ensures var d := Decide(m, hooks, here);
            var h := BridgeHop(hook, d.msg.flow, d.msg.stage).value;
            h.stage == (if m.flow == Request then Transit else Process)
  {
  }
}
