# Superbia client: subscription multiplexer, in Dafny

This project models the browser/Node client of Superbia. The client
multiplexes many subscriptions over one WebSocket and sends one-shot
requests over `fetch`. Both revisions of the client are covered:
- src/Client.ts, with src/Response.ts and src/Subscription.ts;
- the legacy src/Client.js, with src/Response.js and src/Subscription.js.

One class stands for both revisions. A `Revision` constant (`Current` or
`Legacy`) selects the behaviour where they differ:
- the name of the value event: `result` or `data`;
- where `subscribe` increments the key counter;
- the first upload key: 0 or 1;
- whether `request` throws a protocol error.

Modules, one per concern:

- `Json`: the parameter tree a caller passes (null, scalars, arrays,
  objects with ordered entries, `Upload` holders) and the `{ uploadKey }`
  token.
- `Uploads`: `parseRequestEndpoints`, as a function returning the rewritten
  tree and the side table of uploads. An inverse `Restore` exists for the
  round trip.
- `Normaliser`: the response normaliser (`process`/`result`, `data`). A
  top-level error wins. A `null` field map gives `null`. Otherwise the first
  field error wins, and with no error the result maps field names to values.
  `Process` is the imperative loop of src/Response.ts, proved equal to the
  function.
- `Responses`: the two `Response` classes. The current one caches the
  outcome; the legacy one recomputes it on every call.
- `Query`: the WebSocket URL. The headers travel as a query string built
  with an abstract `encode` (standing for `encodeURIComponent`). It is
  proved to split back into the encoded pairs.
- `Signals`: what a subscription or request emitter receives, and the
  `onmessage` dispatch.
- `Request`: the HTTP request `request` builds, and its emit/return/throw
  flow for each way the fetch can end.
- `Stream`: outbound `{ subscriptionKey, endpoint }` messages and what a
  server holds after reading them in order. `Effect` is that view; `null`
  unsubscribes.
- `Multiplexer`: the `Client` and `Subscription` classes.

Every state-changing `Client` method is specified by a transition function
on a value snapshot of the client's state: `Sent`, `Flushed`, `Registered`,
`Resubscribed`, `Reconnected`, `Opened`, `Dropped`, `TimerFired`, and
others. Two invariants are proved about those functions and carried by the
methods:

- `Valid`:
  - the registry is well formed, and its insertion order is kept;
  - keys handed out are strictly increasing, and all registered keys lie
    below the counter;
  - every socket written to was created;
  - both the stream since the last `subscribeAll` and the whole history
    subscribe a server to exactly the registry;
  - an OPEN socket never holds queued messages.
- `Healthy`:
  - the socket in the slot has been told, or will be told on open, exactly
    the stream;
  - a reconnect timer is pending only while that socket is CLOSED.

`deinit` and `destroy` keep `Valid` but can break `Healthy`; see Findings.

The socket events, and the firing of the 250 ms reconnect timer, are
methods the environment calls. These logs are ghost state:
- what was written to which socket (`wire`);
- what was passed to `send`, since the last `subscribeAll` (`stream`) and
  ever (`history`);
- what was emitted (`events`).

src/Client.ts `request` calls `response.result()` inside its `try`, so a
protocol error is emitted on `error` and then thrown. Only the legacy
revision returns the `Response` on a protocol error. The model follows the
code.

## Model

| member | source | states |
|---|---|---|
| `Json.Token` | src/Client.ts:195-199 | the replacement for an upload is an object of the token shape, `{ uploadKey }`, carrying the given key |
| `Uploads.Extract` | src/Client.ts:189-219 | the table grows by exactly the uploads of the tree, in walk order. The returned tree holds no upload. It keeps the shape: null and scalars unchanged, arrays of the same length, objects with the same names in order. An upload becomes the token `base + (uploads before it)` |
| `Uploads.ExtractItems` | src/Client.ts:202-206 | `value.map`: same length, each item rewritten upload-free with its shape, the table threaded left to right |
| `Uploads.ExtractFields` | src/Client.ts:208-216 | the `for...in` copy: same names in the same order, each value rewritten upload-free, the table threaded in order |
| `Uploads.ExtractRoundTrip` | src/Client.ts:194-200 | from an empty table, the n-th upload met is at index n (key base + n), the tree sent is upload-free, and putting the uploads back at their tokens returns the caller's tree |
| `Uploads.RestoreExtract` | src/Client.js:118-148 | for any table prefix and any longer table, restoring the walked tree gives the original tree back |
| `Normaliser.Normalise` | src/Response.js:46-77 | a top-level error is the outcome whatever the fields hold; the outcome is `null` exactly when there is no error and no field map |
| `Normaliser.Collect` | src/Response.js:64-76 | the field loop never yields `null` |
| `Normaliser.CollectFirstError` | src/Response.js:66-71 | the first field in iteration order with an error ends the loop with that error, whatever was collected before |
| `Normaliser.CollectNoError` | src/Response.js:64-76 | with no field error the outcome has the keys collected so far plus every field name. Each name maps to its last entry's value; earlier keys not overwritten keep their value |
| `Normaliser.CollectErrorSource` | src/Response.ts:83-96 | the loop errs if and only if some field has an error, and the error reported is one of the fields' errors |
| `Normaliser.FirstFieldErrorWins` | src/Response.ts:83-93 | with no top-level error, the first erroring field decides the thrown error; values collected before it are dropped |
| `Normaliser.NoErrorGivesValues` | src/Response.ts:81-98 | with no error anywhere the values map has exactly the envelope's field names, each with its entry's value |
| `Normaliser.Process` | src/Response.ts:56-99 | the `for...in` loop of `process()` with its early returns computes `Normalise` |
| `Responses.Response.constructor` | src/Response.ts:20-22 | the constructor stores the envelope and caches its normalised outcome |
| `Responses.Response.Result` | src/Response.ts:105-113 | `result()` gives the normalised outcome of `raw()` on every call (the cached error or value) |
| `Responses.Response.Raw` | src/Response.ts:101-103 | `raw()` returns the envelope the response was built with, and normalising it gives the cached outcome |
| `Responses.LegacyResponse.constructor` | src/Response.js:6-8 | the envelope is stored unchanged; `json()` returns it and `data()` recomputes from it |
| `Responses.LegacyResponse.Json` | src/Response.js:10-12 | `json()` returns the envelope the response was built with |
| `Responses.LegacyResponse.Data` | src/Response.js:46-77 | `data()` normalises the envelope `json()` returns, on every call. A top-level error is thrown whatever the fields hold, and `null` comes back exactly when there is neither an error nor a field map |
| `Query.SocketUrl` | src/Client.ts:224-239 | the URL starts with `wsUrl`; it equals `wsUrl` exactly when no header map is set; otherwise `?` follows, then the query string |
| `Query.QueryStringRoundTrip` | src/Client.ts:236-238 | if `encode` never emits `&` or `=`, the query string splits back into one `key=value` entry per header, each into the encoded key and value |
| `Signals.Dispatch` | src/Client.ts:282-296 | a known frame emits `response` first, then exactly one of: `success` (no error, no field map), the value event with the values, or `error`. `error` comes exactly when normalising fails, with the top-level error when there is one |
| `Signals.DispatchFirstFieldError` | src/Client.js:207-217 | with no top-level error, a subscription's `error` carries the first erroring field's error |
| `Signals.DispatchValues` | src/Client.ts:286-293 | with no error and a field map, the value event carries every field name of the frame |
| `Request.BuildRequest` | src/Client.ts:144-164 | the call is a POST to the configured URL with the headers option exactly when headers are set. The `endpoints` entry is upload-free and has the caller's shape, and there is one part per upload in walk order, keyed from 0 (current) or 1 (legacy) |
| `Request.RequestRoundTrip` | src/Client.js:58-79 | a server that puts each part back at its token recovers the caller's tree, uploads included |
| `Request.Flow` | src/Client.ts:166-186 | a failed fetch or parse emits `error` and throws it in both revisions. Otherwise `response` is emitted first. A protocol error is emitted and thrown by the current revision but only emitted by the legacy one, which returns the response. Success emits `success` and then the value event. A protocol error emits `response`, then `error` carrying the normaliser's error, and the current revision throws that same error. On success the current revision resolves to the field values (`null` when there is no field map) |
| `Stream.Apply` | src/Subscription.ts:27 | a server reading a message subscribes the key to the endpoint, or drops the key on `null`, and leaves other keys alone |
| `Stream.EffectIsLast` | src/Subscription.ts:18-28 | after a sequence of messages a key is held exactly when the last message for it carries an endpoint, and it is held with that endpoint |
| `Stream.ReplayKeeps` | src/Client.ts:451-455 | replaying the registry onto a history that already subscribes exactly the registry changes nothing |
| `Stream.ReplayFresh` | src/Client.ts:464-470 | on a fresh connection, a replay subscribes exactly the replayed keys with their endpoints |
| `Stream.ReplayMirrors` | src/Client.ts:243-249 | replaying every registered key leaves a fresh connection holding exactly the registry |
| `Stream.Without` | src/Client.ts:392-394 | `Map.delete` leaves exactly the other keys, with no key repeated |
| `Stream.WithoutAbsent` | src/Client.ts:392-394 | deleting a key that is not in the map leaves the order as it is |
| `Stream.WithoutAppend` | src/Client.ts:392-394 | deleting from an order made of two parts deletes from each part in place, so no key moves past another |
| `Stream.WithoutAt` | src/Client.ts:392-394 | deleting the key at position i of an order with no repeats gives the keys before it followed by the keys after it, in insertion order |
| `Stream.OnSocketStamp` | src/Client.ts:376-378 | writing a queue to one socket tells that socket the queue and any other socket nothing |
| `Stream.OnSocketFresh` | src/Client.ts:251-253 | a newly created socket has been written nothing |
| `Multiplexer.AfterClose` | src/Client.ts:117 | `close()` moves a CONNECTING or OPEN socket to CLOSING and leaves a CLOSING or CLOSED one as it is |
| `Multiplexer.Flushed` | src/Client.ts:365-381 | `sendAll` empties the queue of an OPEN socket and changes nothing when the slot is empty or not OPEN; only the queue and the writes change |
| `Multiplexer.FlushTells` | src/Client.ts:376-380 | flushing tells the slot's socket the queue, in order, once, and tells other sockets nothing |
| `Multiplexer.RegistrySet` | src/Client.ts:385-390 | `Map.set` of a handle under its own key keeps the registry well formed; the live endpoints gain that key |
| `Multiplexer.RegistryDelete` | src/Client.ts:392-394 | `Map.delete` keeps the registry well formed; the live endpoints lose that key |
| `Multiplexer.KeysIssue` | src/Client.ts:405-409 | handing out the counter's key and incrementing the counter keeps every key below the counter and the keys handed out strictly increasing; the key is new |
| `Multiplexer.FlushKeeps` | src/Client.ts:365-381 | flushing keeps the registry, the socket bookkeeping and the mirrored stream, and leaves no message queued on an OPEN socket |
| `Multiplexer.FlushSync` | src/Client.ts:368-380 | flushing keeps the slot's socket in step with the stream |
| `Multiplexer.SendInStep` | src/Client.ts:359-363 | `send` keeps the slot's socket in step and touches no timer |
| `Multiplexer.FlushThenSend` | src/Client.ts:359-363 | flushing, then sending, equals queueing on top of the old queue and flushing once |
| `Multiplexer.ReplayStep` | src/Client.ts:467-469 | one re-subscription during `subscribeAll` extends the replay so far by that key's message |
| `Multiplexer.RepeatSubscribe` | src/Subscription.ts:18-22 | `subscribe()` on an already registered handle keeps one registry entry in its place and sends the message a second time; the key stays subscribed |
| `Multiplexer.ResubscribeQueues` | src/Client.ts:464-470 | with no OPEN socket, `subscribeAll` leaves the queue holding one subscribe message per registered key in registry order, with no `null`; read in order it subscribes exactly the registry |
| `Multiplexer.SubscribeKeeps` | src/Subscription.ts:18-22 | a handle subscribing keeps the invariants, and its key is registered to it |
| `Multiplexer.SubscribeSound` | src/Client.ts:396-430 | `subscribe` hands out a key that is neither registered nor handed out before; it keeps both invariants |
| `Multiplexer.SubscribeStep` | src/Subscription.ts:18-22 | after `subscribe()` the key is registered and the last message sent for it carries the endpoint. Both invariants are kept when the key is below the counter |
| `Multiplexer.UnsubscribeKeeps` | src/Subscription.ts:24-28 | unsubscribing keeps the invariants and removes exactly that key |
| `Multiplexer.UnsubscribeStep` | src/Subscription.js:20-24 | after `unsubscribe()` the key is not registered and the last message sent for it is `null`; both invariants are kept |
| `Multiplexer.ReconnectKeeps` | src/Client.ts:221-253 | `openWebSocket` keeps the invariants and the registry; the pending-timer count is unchanged |
| `Multiplexer.ReconnectSync` | src/Client.ts:249-253 | reconnecting from a socket that is not OPEN writes nothing: the whole replay stays queued, and the new socket has been told nothing. So the new socket is in step with the stream |
| `Multiplexer.RestartKeeps` | src/Client.ts:111-121 | `init` keeps both invariants and the registry |
| `Multiplexer.OpenKeeps` | src/Client.ts:255-266 | `onopen` keeps both invariants and the registry |
| `Multiplexer.DropKeeps` | src/Client.ts:299-311 | `onclose` keeps both invariants and the registry |
| `Multiplexer.TimerKeeps` | src/Client.ts:308-310 | the reconnect timer firing keeps both invariants and the registry |
| `Multiplexer.ServerSeesRegistry` | src/Client.ts:243-249 | once the slot's socket is OPEN, what it has been sent subscribes exactly the registry with its endpoints; a key is registered exactly when the last message for it carries an endpoint |
| `Multiplexer.StaleTimerOrphans` | src/Client.ts:308-310 | a timer firing while the slot's socket is OPEN writes the whole replay to that socket, after what it was told before. It puts a new socket in the slot, and that socket, once OPEN, has been told nothing while the registry is unchanged |
| `Multiplexer.DeinitRaceWitness` | src/Client.ts:123-133 | drop, then `deinit`, then `init`, then open, starting from a sound state: the old timer is still pending. Once it fires, the new socket is OPEN, told nothing, while a key is registered |
| `Multiplexer.Client.constructor` | src/Client.ts:82-105 | no headers, no socket, empty registry and queue, counter 0; both invariants hold |
| `Multiplexer.Client.Update` | src/Client.ts:107-109 | the headers are replaced |
| `Multiplexer.Client.SendAll` | src/Client.ts:365-381 | the loop writes the queue in order to the OPEN socket and empties it, or does nothing |
| `Multiplexer.Client.Send` | src/Client.ts:359-363 | one message is appended to the queue, then flushed |
| `Multiplexer.Client.SetSubscription` | src/Client.ts:385-390 | the handle is filed under the key, and a new key goes to the end of the order |
| `Multiplexer.Client.DeleteSubscription` | src/Client.ts:392-394 | the key leaves the map and the order |
| `Multiplexer.Client.Subscribe` | src/Client.ts:396-430 | emits `subscribe`; the new handle gets the old counter, which is then one higher. The key is unregistered and above every key handed out before. The handle subscribes, and both invariants hold after |
| `Multiplexer.Client.SubscribeAll` | src/Client.ts:464-470 | the queue and stream start over with the replay of the registry, which is then flushed |
| `Multiplexer.Client.ResubscribeAt` | src/Client.js:381-383 | one turn of the `forEach`: the i-th handle's message extends the replay |
| `Multiplexer.Client.OpenWebSocket` | src/Client.ts:221-312 | resubscribe while the old socket is still in the slot, then a CONNECTING socket created with the header URL takes the slot |
| `Multiplexer.Client.Reinit` | src/Client.ts:111-121 | with a socket: make its close reopen at once, and close it; without one, open one. Both invariants are kept |
| `Multiplexer.Client.Init` | src/Client.ts:111-121 | `init()` of the current revision is that transition |
| `Multiplexer.Client.InitWith` | src/Client.js:39-49 | `init(headers)` stores the headers first, so the socket it may open uses them |
| `Multiplexer.Client.OnOpen` | src/Client.ts:255-266 | the socket becomes OPEN, `init` is emitted (current revision), the queue is flushed; both invariants are kept |
| `Multiplexer.Client.OnClose` | src/Client.ts:299-311 | the socket is CLOSED; the `openWebSocket` handler schedules the timer, the `init` handler reopens at once; both invariants are kept |
| `Multiplexer.Client.ReconnectFires` | src/Client.ts:308-310 | a pending timer fires `openWebSocket`; both invariants are kept |
| `Multiplexer.Client.OnMessage` | src/Client.ts:268-297 | a frame for an unregistered key emits nothing; otherwise the handle emits exactly `Dispatch` of the frame |
| `Multiplexer.Client.Deinit` | src/Client.ts:123-133 | the slot is emptied and `deinit` emitted; a timer already scheduled stays pending; the registry invariants are kept |
| `Multiplexer.Client.DeinitCancellingReconnect` | src/Client.ts:123-133 | the corrected `deinit` also cancels a pending timer, and both invariants hold after |
| `Multiplexer.Client.Destroy` | src/Client.js:386-392 | the slot is emptied; with no socket in the slot the call throws and nothing changes |
| `Multiplexer.Client.Request` | src/Client.js:51-116 | emits `request`, builds `BuildRequest`, and emits and completes as `Flow` says for the revision |
| `Multiplexer.Subscription.constructor` | src/Subscription.ts:10-16 | client, key and endpoint are fixed at construction |
| `Multiplexer.Subscription.Subscribe` | src/Subscription.ts:18-22 | register, then send the endpoint. Afterwards the key is registered and the last message ever sent for it carries the endpoint. Both invariants are kept for a handle whose key was handed out by the client |
| `Multiplexer.Subscription.Unsubscribe` | src/Subscription.ts:24-28 | deregister, then send `null`. Afterwards the key is not registered and the last message for it is `null`; both invariants are kept |

## Left out

- The WebSocket, `fetch` and `FormData` objects. A socket is an id, a ready state and a close handler; what it is sent goes into a log. The multipart body is the `HttpRequest` value (src/Client.ts:150-164).
- The 250 ms `setTimeout` (src/Client.ts:308-310). It is a count of pending timers, and firing one is the `ReconnectFires` step the environment chooses when to take.
- Listener dispatch of the emitter libraries and src/Emitter.ts. Emissions are appended to an event log. The forwarding listeners `subscribe` wires from the handle to its per-call emitter (src/Client.ts:415-427) are not modelled separately, and neither are exceptions thrown by listeners.
- `JSON.stringify` and `JSON.parse`. Frames are structured values; an inbound frame that fails to parse is not modelled.
- `encodeURIComponent`: it is the parameter `encode`.
- Numbers are integers. Floating point values, `undefined` parameters and the `Response` object identity are not modelled. `for...in` order is the entry order of the object value; JavaScript's reordering of integer-like keys is not modelled.
- Events of sockets that are no longer in the slot are not modelled: only the socket in the slot opens, closes or delivers frames. A socket closed by `init` goes on to its close event while still in the slot.
- The TypeScript type-level definitions (src/Client.ts:8-47), the error classes (an `ErrorInfo` value stands for them), the `Upload` holder (a datatype) and the dist/ build output.
- `Multiplexer.Flushed`: its own contract says only that the queue ends empty on an OPEN socket and that nothing but the queue and the write log changes. What is written, and to which socket, is stated by `FlushTells`.
- `Normaliser.Collect`: its own contract says only that the loop never yields `null`; its results are stated by `CollectFirstError`, `CollectNoError` and `CollectErrorSource`.
- The close event of the socket that `deinit` or `destroy` detaches is not delivered. Its handler is `null` in the source, so that event would do nothing.

## Findings

| source | as written | input that shows it | evidently intended | confidence | as-written member | corrected member |
|---|---|---|---|---|---|---|
| src/Client.ts:123-133 | `deinit` detaches the close handler of the socket in the slot. A 250 ms reconnect timer already scheduled by an earlier close (src/Client.ts:308-310) stays pending, and it later calls `openWebSocket`. The same holds for `destroy` in src/Client.js:386-392 | one subscription on an OPEN socket. The socket drops, then `deinit`, then `init`; the new socket opens; then the stale timer fires. The replay goes to the OPEN socket, which is left open outside the slot (its events are not modelled). A third socket takes the slot and opens, having been told no subscription, although the key is registered | `deinit` also cancels a pending reconnect, so no socket is opened after `deinit`. The socket in the slot then stays in step with the registry | not executed | `Multiplexer.DeinitRaceWitness` | `Multiplexer.Client.DeinitCancellingReconnect` |
