/**
 * The write stream `createWriteStream({flow, channel})` hands out: every
 * `write(data)` sends a `request:data` or `response:data` message from the
 * channel point, `end()` writes `undefined` and closes the stream, and any
 * write after that throws.
 */
module Streams {
  import opened Values
  import opened Topology
  import opened Routing
  import opened World
  import opened Runtime

  /** The message type a stream of this direction sends. */
  function DataKind(flow: Flow): string {
    if flow == Request then "request:data" else "response:data"
  }

  /** The literal `{type, flow, ref: data}` that `_write` sends. */
  function DataMessage(flow: Flow, data: Value): (m: Msg)
    ensures m.kind == DataKind(flow) && m.flow == flow && m.ref == data
    ensures m.stage == Unset && m.ttl.None? && m.context.None? && !m.sync
  {
    Msg(DataKind(flow), flow, Unset, data, None, None, false)
  }

  /** The state after a write and what it did: the send action, or the error
      thrown. */
  datatype Written = Written(world: World, result: Outcome<SendAction>)

  /** What `write` reports of a send: the two actions that throw out of
      `send` ("Context is missing" and `throw message.ref`) become the error
      the caller sees; every other action completes the write. */
  function SendResult(a: SendAction): (r: Outcome<SendAction>)
    ensures r.Fail? <==> a.NoContext? || a.Rethrow?
    ensures a.NoContext? ==> r == Fail(MissingContext)
    ensures a.Rethrow? ==> r == Fail(Thrown(a.error))
    ensures r.Ok? ==> r.value == a
  {
    match a
    case NoContext => Fail(MissingContext)
    case Rethrow(e) => Fail(Thrown(e))
    case _ => Ok(a)
  }

  /** `_write(data)` on the stream over point `channel`: a closed stream
      throws; `undefined` closes it first; then the data message is sent. */
  function WriteStep(w: World, channel: nat, flow: Flow, data: Value, now: int): (r: Written)
    requires Sound(w) && channel < |w.points|
    ensures Sound(r.world) && |r.world.points| >= |w.points| && |r.world.contexts| == |w.contexts|
    ensures w.points[channel].streamClosed ==> r == Written(w, Fail(StreamClosed))
    ensures !w.points[channel].streamClosed ==>
              && r.result != Fail(StreamClosed)
              && r.world.points[channel].streamClosed == (data == Undefined)
              && r.world.points[channel].context == w.points[channel].context
    ensures !w.points[channel].streamClosed ==>
              var w1 := if data == Undefined then CloseAt(w, channel) else w;
              var s := SendStep(w1, channel, DataMessage(flow, data), now);
              && w1.points == w.points[channel := w.points[channel].(streamClosed := data == Undefined)]
              && r == Written(s.world, SendResult(s.routed.action))
  {
    if w.points[channel].streamClosed then Written(w, Fail(StreamClosed))
    else
      var w1 := if data == Undefined then CloseAt(w, channel) else w;
      assert w1.points[channel].streamClosed == (data == Undefined);
      var s := SendStep(w1, channel, DataMessage(flow, data), now);
      assert s.world.points[channel] == w1.points[channel];
      Written(s.world, SendResult(s.routed.action))
  }

  /** Once `end()` has been called, every later `write` throws and changes
      nothing, whatever the data and whenever it comes. */
  lemma EndThenWriteFails(w: World, channel: nat, flow: Flow, now1: int, data: Value, now2: int)
    requires Sound(w) && channel < |w.points|
    ensures var ended := WriteStep(w, channel, flow, Undefined, now1).world;
            WriteStep(ended, channel, flow, data, now2) == Written(ended, Fail(StreamClosed))
  {
  }

  /** The object `createWriteStream(ctx)` returns, bound to the engine that
      holds its channel point. */
  class WriteStream {
    const engine: Engine
    const channel: nat
    const flow: Flow

    /** `createWriteStream({flow, channel})`. */
    constructor (engine: Engine, channel: nat, flow: Flow)
      ensures this.engine == engine && this.channel == channel && this.flow == flow
    {
      this.engine := engine;
      this.channel := channel;
      this.flow := flow;
    }

    /** `write(data)`: the stream itself is returned for chaining, so the
        result reports only what the send did or the error thrown. */
    method Write(data: Value, now: int) returns (r: Outcome<SendAction>)
      requires engine.Valid() && channel < |engine.points|
      modifies engine
      ensures engine.Valid()
      ensures Written(engine.State(), r) == WriteStep(old(engine.State()), channel, flow, data, now)
    {
      if engine.points[channel].streamClosed {
        return Fail(StreamClosed);
      }
      if data == Undefined {
        engine.CloseStream(channel);
      }
      var m := new Message(DataMessage(flow, data));
      var action, _ := engine.Send(channel, m, now);
      match action {
        case NoContext => r := Fail(MissingContext);
        case Rethrow(e) => r := Fail(Thrown(e));
        case _ => r := Ok(action);
      }
    }

    /** `end()`: writes `undefined`, which closes the stream, and returns the
        channel point unless the write threw. */
    method End(now: int) returns (r: Outcome<nat>)
      requires engine.Valid() && channel < |engine.points|
      modifies engine
      ensures engine.Valid() && channel < |engine.points| && engine.points[channel].streamClosed
      ensures var s := WriteStep(old(engine.State()), channel, flow, Undefined, now);
              engine.State() == s.world && r == (if s.result.Fail? then Fail(s.result.error) else Ok(channel))
    {
      var written := Write(Undefined, now);
      if written.Fail? {
        return Fail(written.error);
      }
      r := Ok(channel);
    }
  }
}
