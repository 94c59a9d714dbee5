# trooba pipeline engine, modelled in Dafny

trooba builds a bidirectional message pipeline out of handler functions.
`Trooba.use` collects handlers. `build` lays them out once as a doubly linked
chain of `PipePoint`s behind a no-op `pipeHead`, and starts a session of that
chain in a context object. Messages travel down the chain as requests and
back up as responses. `send` picks the neighbour, and `process` runs the
hooks that the session's handlers registered for the point, keyed by message
type. The model covers `index.js`, the engine's single core file.

How the model is laid out:

- Every `PipePoint` object lives in one arena, the `points: seq<Point>` field
  of the class `Runtime.Engine`. Structural points and session copies share
  it, and `_next$`, `_prev$` and `_tail$` are arena indices.
- Every context object lives in the same class as `contexts: seq<ContextState>`.
  A context holds its plain keys, its `$strict` value and its `$points` records.
  `get` and `set` reach the last two through the names `strict` and `points`,
  as in the source.
- A point's `_id` is the arena index of its structural point. Copies keep the
  id of the point they copy.
- The engine's methods change these fields in place. Each method is proved
  equal to a pure step function over a `World` value, for example
  `SendStep`, `ProcessStep`, `CreateWorld` and `LinkWorld`.
- Lemmas about those step functions state what the source promises.
- The decision rules are pure functions:
  - `Routing.Route` is the routing step of `send`.
  - `Dispatch.Decide` and `Dispatch.LinkTransition` are the state machine of
    `process`.
  - `Registry` is the per-context hook registry.
- `Walk` chains the steps into a synchronous journey bounded by fuel. It
  proves that a message crosses a chain of quiet points in chain order. A
  point is quiet for a message when no stage short-circuits it: it has no hook
  for the message type, no `'*'`, no `$link$` and no end hook it would reach.
- `Builder.Trooba` and `Streams.WriteStream` are classes over the engine.

Where the code and its documentation differ, the model follows the code:

- There is no ordering queue and no strict-validation object. `$strict` is
  only the list of message types that must find a consumer.
- The context-missing check of `send` runs only when a neighbour exists.

Modules:

| module | file |
|---|---|
| `Values` | `values.dfy` |
| `Topology` | `topology.dfy` |
| `Registry` | `registry.dfy` |
| `Routing` | `routing.dfy` |
| `Dispatch` | `dispatch.dfy` |
| `World` | `world.dfy` |
| `Session` | `session.dfy` |
| `Linking` | `link.dfy` |
| `Walk` | `walk.dfy` |
| `Runtime` | `engine.dfy` |
| `Builder` | `builder.dfy` |
| `Streams` | `streams.dfy` |

## Model

| member | source | states |
|---|---|---|
| Topology.CopyOf | index.js:162-174 | a copy shares `_next$`, `_prev$`, `_tail$`, `_id`, handler and config with the original, is bound to the given context and is not closed |
| Topology.ChainLinks | index.js:61-80 | in a built chain the head has no `_prev$` and its `_tail$` is the last point; the last point has no `_next$`; for any two points `p._next$ = q` exactly when `q._prev$ = p`, and then q follows p |
| Topology.LaidIsChain | index.js:61-80 | laying out a non-empty handler list after any arena yields such a chain |
| Topology.SuccessorsLinked | index.js:348-356 | the structural points reached by `_next$` from a point are exactly the `_next$` walk, ending at a point without `_next$` |
| Topology.ChainSuccessors | index.js:348-356 | along a built chain, the walk from point k is the points after k, in order |
| Registry.Touch | index.js:463-473 | `_points` adds a record `{ref}` for the id only when none exists, and leaves every other record and the plain keys alone |
| Registry.Register | index.js:441-448 | `on` fails with the duplicate-hook error exactly when the id already has a hook for the type; otherwise only that hook map gains the entry |
| Registry.Unregister | index.js:459-461 | `removeListener` removes exactly that type from that id's hooks and touches nothing else |
| Registry.RegisterTwiceFails | index.js:443-445 | registering the same type twice for one point in one context fails, whatever the hooks |
| Registry.RegisterIndependent | index.js:441-448 | a registration never blocks another type or another point |
| Registry.RemoveThenRegister | index.js:459-461 | after `removeListener` the type can be registered again |
| Registry.TouchOnce | index.js:468-471 | the `$points[_id]` record is created once and then reused: a second `_points` keeps the first ref |
| Registry.Inherit | index.js:333-343 | `create` copies every non-`$` parent key that the child lacks or holds falsy, keeps every truthy or internal child key, and adds nothing else |
| Registry.InheritSelf | index.js:335-343 | inheriting a context into itself changes nothing |
| Registry.InheritTwice | index.js:335-343 | inheriting twice from one parent is the same as inheriting once |
| Registry.StrictNames | index.js:149-150 | a message type is strict exactly when the context's `$strict` value is an array that holds it as a string |
| Routing.Route | index.js:119-160 | `ttl` is set to `now + (config.ttl or 1000)` only when unset; the message is dropped exactly when `ttl < now`; PROCESS stays at the point, otherwise a request goes to `_next$` and a response to `_prev$` with the stage set to TRANSIT; with a target the context is inherited and a missing one throws; without a target, an error rethrows its `ref`, a `$strict` type is a strict violation, a trace request turns into a response at this point, and anything else is absorbed |
| Routing.ExpiryFixedOnce | index.js:120-121 | the expiry fixed by the first `send` is kept by every later `send` |
| Routing.ErrorAtEndRethrown | index.js:146-148 | an error with no neighbour is always rethrown, never absorbed or turned around |
| Routing.StrictErrorTerminates | index.js:149-153 | the error a strict violation synthesises is never itself a strict violation |
| Dispatch.LinkTransition | index.js:243-263 | with a `$link$` hook, REQUEST/PROCESS and RESPONSE/TRANSIT go to the bridge with stage TRANSIT; the other two pairs stay local, with a request set to PROCESS and a response to TRANSIT |
| Dispatch.LinkOrder | index.js:243-263 | at a linked point a request runs the ordinary hooks first and the bridge next; a response takes the bridge first and the hooks after |
| Dispatch.SelectHook | index.js:277-282 | the hook for the message type wins; otherwise `'*'` is used and receives the whole message; there is no hook exactly when neither exists |
| Dispatch.Decide | index.js:236-296 | the `$link$` table is applied first; a trace records its breadcrumb; the chosen hook is invoked, and the message waits exactly when it is not sync; with no hook, an end-of-stream message goes to the flow's `:end` hook; otherwise it is sent on; a missing context or a trace `ref` that is not a list is a TypeError |
| Dispatch.Completed | index.js:298-308 | `onComplete` replaces `ref` only when called with an argument, then runs the `:end` hook for an end-of-stream message, otherwise sends on |
| Dispatch.EndHookOnlyAfterAsyncCompletion | index.js:283-306 | an end-of-stream message that has its own typed hook goes to that hook first, and reaches the `:end` hook only on completion |
| Dispatch.BridgeHop | index.js:194-215 | what each of the three bridge hooks does by flow: where it sends the message and with what stage |
| Dispatch.BridgeStages | index.js:194-215 | after `process` bridged a message, the start or head bridge hands a request on as TRANSIT and a response as PROCESS |
| World.TouchAt | index.js:463-473 | `_points` on a point updates only its context's records, by `Touch` |
| World.CopyPoint | index.js:162-174 | `copy` fails without a context, else appends a bound copy and registers it |
| World.PipeWorld | index.js:61-70 | the state after `buildPipe` is the old arena followed by the laid-out chain, and is well-formed |
| World.NextOf | index.js:482-489 | the `next` getter returns an existing point and changes only the records |
| World.TailOf | index.js:500-507 | the `tail` getter returns an existing point and changes only the records |
| World.PrevAsWritten | index.js:491-498 | the `prev` getter as written returns the structural `_prev$` whatever it resolves |
| World.PrevIntended | index.js:491-498 | the `prev` getter as `next` and `tail` suggest: it returns the resolved session point |
| World.OnAt | index.js:441-448 | `on` fails without a context; otherwise it is exactly `Register` on the point's own context |
| World.RemoveAt | index.js:459-461 | `removeListener` fails exactly when the point has no context; otherwise it is `Unregister` on that context |
| World.Fire | index.js:450-457 | a `once` hook removes its entry through its owner point before it runs; any other hook leaves the state alone |
| World.OnceRegistered | index.js:450-457 | `once` stores, under the type for the point's id in the point's own context, a wrapper owned by that point, and changes no other hook of that id |
| World.OnceFiresAtMostOnce | index.js:450-457 | a `once` wrapper that `process` invokes is gone after that step, the step does not raise, and no later message of any type selects it at that point: only `'*'` or nothing can be chosen for its type |
| World.SendStep | index.js:119-160 | `send` is `Route` with the point's config, its `onDrop` and the `$strict` list; a strict violation appends one copy bound to the message context, and any other outcome changes nothing |
| World.ProcessContext | index.js:241 | `process` looks hooks up in the message's context, else the point's |
| World.Act | index.js:283-296 | after `Decide`: sending on, raising, invoking a hook (which waits exactly when asynchronous), the `:end` hook, or a bridge hop to a point or to a nested tail |
| World.ProcessStep | index.js:236-324 | `process` without a context raises; otherwise it touches the record, applies `Decide` to the point's hooks and then `Act` |
| World.CompleteStep | index.js:298-308 | `onComplete` applies `Completed` to the point's hooks: it sends on from the point, or runs the `:end` hook and waits |
| World.GetAt | index.js:187-189 | `get(name)` throws exactly when the point has no context; otherwise `get('strict')` returns the `$strict` value, `get('points')` the `$points` registry (undefined before it holds a record), and any other name the value under `'$' + name`, undefined when absent |
| World.SetAt | index.js:182-185 | `set(name, v)` throws exactly when the point has no context; otherwise `'$' + name` then reads `v` in that context (for `strict`, the `$strict` list), while every other key of it, its `$points` registry, every other context and every point stay as they were |
| World.VarKeyInjective | index.js:182-189 | distinct names give distinct context keys |
| World.EngineKeys | index.js:182-189 | the names `strict` and `points`, and no others, reach the engine's own `$strict` and `$points` keys |
| World.SetStrictApplies | index.js:182-185 | after `set('strict', list)` a message of that session is strict exactly for the string types the list holds, as the check in `send` reads them |
| World.SetThenGet | index.js:182-189 | after `set` on a point, `get` of that name on any point of the same context returns the value, and other names are unchanged |
| World.CloseAt | index.js:518-520 | closing a stream sets that point's `_streamClosed` flag; every other field, every other point and every context stay as they were |
| Session.CreateWorld | index.js:332-359 | `create` prepares the context, appends one copy per chain point from p in walk order, registers each copy under its id, and invokes the handlers of the copies in that order |
| Session.Prepared | index.js:333-343 | the session context is the one given (a new `{}` when absent), with the parent's non-`$` keys inherited when the point has a context |
| Session.ChainFrom | index.js:348-356 | the walk of `create` starts at p and visits existing points |
| Session.ChainFromLinked | index.js:348-356 | each point of the walk is the `_next$` of the one before, and the last has none |
| Session.BindAll | index.js:172 | every copy's `_points()` call keeps the existing records and files each copied id |
| Session.BindKeeps | index.js:468-471 | a point already registered in the context keeps its record when `create` runs again |
| Session.BindFresh | index.js:468-471 | in a context without records for these ids, copy k becomes the record of its id |
| Session.CreateAdvance | index.js:348-356 | after `made` copies, the last copy's `_next$` is the next chain point, and copying it is the next state of the walk |
| Session.CreateDone | index.js:346-358 | once the whole chain is copied, the state is the one `create` leaves |
| Session.CreateMakesSession | index.js:332-359 | `create` on the head of a built chain, in a context without records for it, binds every structural point of the chain to its own copy |
| Session.NextInSession | index.js:482-489 | on a session point, `next` returns the session point of the next structural point |
| Session.TailInSession | index.js:500-507 | on the session head, `tail` returns the session point of the last structural point |
| Session.PrevLeavesSession | index.js:491-498 | `prev` as written returns the structural point, which is not the session point, and `on` on it throws |
| Session.PrevInSession | index.js:491-498 | the corrected `prev` returns the session point of the previous structural point, and `next` of that is the point itself |
| Linking.LinkWorld | index.js:191-216 | `link` creates a session of the nested pipe in the point's context and registers the three bridges |
| Linking.Bridge | index.js:194-215 | the bridges are registered in order (point, nested head, nested tail) and the first that throws ends it |
| Linking.OnFree | index.js:441-448 | `on` on a session point whose id has no hook for the type succeeds and adds exactly that hook |
| Linking.OnTaken | index.js:443-445 | `on` on a session point whose id already has the type throws the duplicate-hook error |
| Linking.LinkSinglePointFails | index.js:191-216 | a pipe of one point cannot be linked: without a context `on` throws, and with one the tail bridge clashes with the head's |
| Linking.LinkInstallsBridges | index.js:191-216 | linking a session of a pipe of two or more points into a point without a bridge installs the start, head and tail bridges |
| Walk.WalkProcess | index.js:236-324 | `process` and what it sets in motion, within the fuel: the first visit is the point itself |
| Walk.Along | index.js:269-275 | a trace collects one breadcrumb per visit, with the flow and stage of that visit; any other message is unchanged |
| Walk.AlongTwice | index.js:269-275 | breadcrumbs of consecutive visits are appended in order |
| Walk.QuietProcess | index.js:236-296 | a point with no hook for the message type, no `'*'`, no `$link$` and no end hook it would reach records a trace and sends the message on, and the state is unchanged |
| Walk.SendToNeighbour | index.js:129-145 | a live message with a neighbour is delivered to it unchanged |
| Walk.SendAtEnd | index.js:146-158 | with no neighbour and a type that is not strict, an error is rethrown, a trace request turns into a response, and anything else is absorbed; the state is unchanged |
| Walk.WalkSend | index.js:119-160 | `send` and what it sets in motion, within the fuel, leaves a well-formed state |
| Walk.QuietHop | index.js:119-160 | a quiet point visits once and hands the message to its neighbour |
| Walk.TraceTurnsAtTail | index.js:154-157 | a trace request at the quiet last point is recorded there, turns into a response and is processed at that point again |
| Walk.QuietPath | index.js:119-160 | a message that passes every point of a path visits exactly those points, in order, and ends at the last one |
| Walk.RequestTraversal | index.js:129-158 | a request reaching point s of a quiet chain visits s to the tail once each, in order, and is absorbed or rethrown there |
| Walk.ResponseTraversal | index.js:129-158 | a response reaching point s of a quiet chain visits s back to the head once each, and ends there |
| Runtime.Scope | index.js:463-467 | `_points` works in the given context, else the point's own |
| Runtime.Engine.constructor | index.js:107 | the heap before any point or context exists: no points (the instance counter has not started) and no contexts |
| Runtime.Engine.NewContext | index.js:47 | a caller's context literal is appended with no `$points` registry; every key of it, `$strict` included, reads as in the literal, and nothing else changes |
| Runtime.Engine.CreatePipePoint | index.js:73-80 | a new point is appended with the given `_prev$`, and only `prev._next$` is patched to it |
| Runtime.Engine.SetTail | index.js:68 | only the head's `_tail$` changes |
| Runtime.Engine.BuildPipe | index.js:61-70 | with no handlers `buildPipe` throws and nothing changes; otherwise the head is returned and the arena gains exactly the laid-out chain |
| Runtime.Engine.Points | index.js:463-473 | `_points` throws without a context; otherwise it is `TouchAt` and returns the point registered for the id |
| Runtime.Engine.Handlers | index.js:475-479 | `handlers` returns the hooks of the id's record after `_points` |
| Runtime.Engine.Copy | index.js:162-174 | the state becomes `CopyPoint` |
| Runtime.Engine.On | index.js:441-448 | the state becomes `OnAt`, or stays when it throws |
| Runtime.Engine.Once | index.js:450-457 | `on` with the self-removing wrapper; on success the point's hooks gain exactly that wrapper under the type, owned by the point, so `World.OnceFiresAtMostOnce` applies to it |
| Runtime.Engine.RemoveListener | index.js:459-461 | the state becomes `RemoveAt` |
| Runtime.Engine.RunHook | index.js:452-454 | calling a stored hook does what `Fire` says |
| Runtime.Engine.Next | index.js:482-489 | the state and result are `NextOf` |
| Runtime.Engine.Prev | index.js:491-498 | the state and result are `PrevAsWritten` |
| Runtime.Engine.Tail | index.js:500-507 | the state and result are `TailOf` |
| Runtime.Engine.Set | index.js:182-185 | the state and result are `SetAt`: `strict` goes to the `$strict` list, any other name to its `'$' + name` key, and nothing else changes |
| Runtime.Engine.Get | index.js:187-189 | the result is `GetAt`, so `get('strict')` and `get('points')` read the engine's own keys, and nothing changes |
| Runtime.Engine.CloseStream | index.js:519 | the state becomes `CloseAt` |
| Runtime.Engine.PrepareContext | index.js:333-343 | the contexts become `Prepared` |
| Runtime.Engine.CopyNext | index.js:351-355 | one turn of the walk in `create`: the next copy is made exactly when the last copy has a `_next$` |
| Runtime.Engine.WalkChain | index.js:348-356 | the loop copies the rest of the chain and invokes every copy's handler once, in order |
| Runtime.Engine.Create | index.js:332-359 | the state, head and handler invocations are `CreateWorld` |
| Runtime.Engine.Link | index.js:191-216 | the state and result are `LinkWorld` |
| Runtime.Engine.Direct | index.js:119-145 | the message fields become what `Route` says |
| Runtime.Engine.Aim | index.js:128-145 | past the ttl check, the message fields become what `Steer` says |
| Runtime.Engine.Send | index.js:119-160 | the state, the message and the action are `SendStep` |
| Runtime.Engine.Throw | index.js:361-367 | `throw(err)` is `SendStep` of an `error` response carrying `err` |
| Runtime.Engine.Perform | index.js:283-296 | the state, message and next step are `Act` |
| Runtime.Engine.Process | index.js:236-324 | the state, message, action and next step are `ProcessStep` |
| Runtime.Engine.Complete | index.js:298-308 | the state, message, action and next step are `CompleteStep` |
| Builder.PipeMetas | index.js:42-43 | `pipeHead`, with no config, comes before the used handlers in order |
| Builder.FactoryFromGivenContext | index.js:47-48 | the factory lookup in `build` sees the key of the context given to `build` (nothing for `{}`) as the caller left it, because `$` keys are never inherited; the one exception is `points`, which finds the `$points` registry that `create` has just filled |
| Builder.HeadInSession | index.js:345-346 | the head `create` returns is bound to the session context |
| Builder.SessionKeys | index.js:332-359 | after `create` the session context holds the given context's `$strict` value and `$` keys, and a non-empty `$points` registry |
| Builder.BuildWithFactory | index.js:47-52 | a function under the name receives the session head; a missing or falsy value throws "Cannot find factory"; any other value throws when called; `build(context, 'points')` always throws, since the registry is not a function |
| Builder.Trooba.constructor | index.js:8-10 | a new builder has no handlers and no pipe |
| Builder.Trooba.Use | index.js:14-33 | the handler (a pipe point wrapped in `pipeConnect`) is appended and the cached pipe is dropped |
| Builder.Trooba.CachedPipe | index.js:40-45 | the cached pipe is reused unchanged; otherwise a pipe of `pipeHead` and the handlers is built and cached |
| Builder.Trooba.Build | index.js:35-53 | `build` keeps the cached layout valid, creates a session of it in the context, and returns the head or the factory's result |
| Builder.Trooba.Open | index.js:47-52 | a session is created, then handed to the factory when an interface name is given |
| Streams.DataMessage | index.js:522-526 | the message a write sends has the stream's data type, flow and `ref` |
| Streams.SendResult | index.js:119-160 | of the send actions, exactly "Context is missing" and `throw message.ref` throw out of `send`; every other action completes the write |
| Streams.WriteStep | index.js:513-527 | a closed stream throws and changes nothing; otherwise the channel's `_streamClosed` becomes true exactly when the data is undefined, then the data message is sent from the channel and the result is that send's action, or the error the send throws |
| Streams.EndThenWriteFails | index.js:513-538 | after `end()`, every later write throws and changes nothing |
| Streams.WriteStream.constructor | index.js:509-511 | the stream is bound to its channel and flow |
| Streams.WriteStream.Write | index.js:530-533 | the state and result are `WriteStep` |
| Streams.WriteStream.End | index.js:535-538 | `end()` writes undefined, after which the stream is closed, and returns the channel, or the error the write threw |

## Left out

- `require(handler)` for string handlers is not modelled, because it is dynamic
  module loading. `Usable` holds only functions and pipe points.
- The string-first overload of `build(interfaceName)` is left out. `Build`
  takes the context and the interface name separately.
- `module.exports.use` is the `Trooba` constructor followed by `Use`, with no
  member of its own.
- Handler and hook bodies are opaque. A handler is a name and a number, and a
  user hook is a number; whether its call waits for `onComplete` is the
  message's `sync` flag (`Routing.Msg.sync`). What the engine's own hooks do
  to its state is modelled: the `once` wrapper and the three link bridges.
- `Date.now()` is the `now` parameter.
- The default `onDrop` and its `console.log` are left out, and so is a custom
  `onDrop`. Both become a `Dropped` action that says which one would be called.
- The `tracer` method and the `tracer$` callback are left out: they only
  observe.
- `JSON.stringify` in the strict-mode error is left out. The error text
  carries only the message type.
- `PipePoint.instanceCounter` and the `_id` string are left out. A point's id
  is the arena index of its structural point, which is unique in the same way.
- Runtime.Engine.Create does not run the `pipeConnect` handler's `link` while
  it walks the chain. Instead it returns the ordered handler invocations, and
  `Link` is its own method. Running it inline would make `create` and `link`
  recursive through each other.
- Runtime.Engine.Send and Runtime.Engine.Process are single steps. They report
  where the message goes next instead of calling each other.
- The recursion between `send` and `process` is modelled only by `Walk`, up to
  `fuel` calls. A journey that needs more calls ends as `OutOfFuel`, so
  endless trace turnarounds and link round trips are not captured.
- `trace`, `request`, `respond`, `streamRequest` and `streamResponse` are left
  out as operations. They only compose `on`, `once`, `send` and
  `createWriteStream`, which are modelled.
- `setTimeout(sendRequest, 0)` in `request` is left out, because it defers
  scheduling.
- The writable stream's `on`/`once` decorations from `streamRequest` are left
  out.
- Runtime.Engine.Link: the model returns the nested session head as the
  result, where the source returns `undefined`. The head is returned so the
  lemmas can name it.
- JavaScript `NaN` is not a value of the model, so `Truthy` does not treat it.
- World.SetAt: `set('points', v)` is outside the model (its requires excludes
  the name). It would replace the `$points` registry with an arbitrary value,
  and the model keeps the registry as records, not as a value a caller can
  overwrite.
- Runtime.Engine.Set: `set('points', v)` is outside the model, as for
  World.SetAt.
- Runtime.Engine.NewContext: a context literal with its own `$points` key is
  outside the model, for the same reason.
- Registry.StrictNames: a `$strict` value that is not an array is read as
  listing nothing. The source calls `indexOf` on it, which finds substrings of
  a string and throws on other values.
- Session.CreateWorld: the handlers run after all the copies are made, so
  their effects cannot interleave with the copying. A handler that reads
  `pipe.next` or `pipe.tail` while `create` is still walking would, in the
  source, find a later point not yet copied and file the structural point in
  `$points`. The model does not capture that interleaving.
- Runtime.Engine.WalkChain: the same holds. It copies the chain and records
  the handler invocations in order, without running them in between.
- Registry.Register: message types are never names of `Object.prototype`
  members. In the source `on('constructor', …)` throws the duplicate-hook
  error, because the hook table inherits that member.
- Dispatch.SelectHook: the same restriction. In the source a message of type
  `toString` with no hook of its own would run the inherited prototype function
  as its hook.
- Registry.Inherit: context keys are never names of `Object.prototype`
  members. In the source `!context['constructor']` is false, so a parent key of
  that name is never copied.

## Findings

| source | as written | input that shows it | evidently intended | confidence | as-written member | corrected member |
|---|---|---|---|---|---|---|
| index.js:491-498 | the `prev` getter resolves the session point of `_prev$` but discards it, and returns the structural `_prev$` | a session of a chain of two points: `prev` on the second session point returns the first structural point, which has no context, so `on` on it throws | return the resolved session point, as `next` (482-489) and `tail` (500-507) do | not executed | Session.PrevLeavesSession | Session.PrevInSession |

Session.PrevLeavesSession is stated over World.PrevAsWritten, the getter as
written, which Runtime.Engine.Prev also follows. Session.PrevInSession is
stated over the corrected World.PrevIntended and shows the evident intent:
`prev` and `next` are inverse on a session.
