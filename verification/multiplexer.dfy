/**
 * The client's subscription multiplexer: the registry of live subscription
 * handles, the outbound message queue, and the streaming connection whose
 * life is driven by `init`, `deinit`/`destroy` and the socket's own
 * `open`, `message` and `close` events.
 *
 * One class stands for both revisions of the client; `revision` selects
 * src/Client.ts (`Current`) or src/Client.js (`Legacy`) where they differ.
 * Each socket event and the firing of the 250 ms reconnect timer is a
 * method that the environment calls. What the sockets are sent and what the
 * client emits is kept in append-only logs.
 *
 * Every state-changing method is specified by a function from the state
 * before to the state after (`Flushed`, `Sent`, `Reconnected`, ...); the
 * invariants are proved about those functions.
 */
module Multiplexer {
  import opened Json
  import opened Normaliser
  import opened Responses
  import opened Query
  import opened Stream
  import opened Signals
  import opened Request

  /** `WebSocket.readyState`. */
  datatype ReadyState = Connecting | Open | Closing | Closed

  /**
   * What the socket's `onclose` handler does: schedule the 250 ms reconnect
   * timer (installed by `openWebSocket`), or reopen at once (installed by
   * `init` on an existing socket).
   */
  datatype CloseHandler = ReconnectLater | ReopenNow

  /** A socket: `id` numbers the sockets in the order they were created. */
  datatype Socket = Socket(id: nat, state: ReadyState, onclose: CloseHandler)

  /** `close()`: a connecting or open socket starts closing; otherwise nothing happens. */
  function AfterClose(s: ReadyState): (t: ReadyState)
    ensures t == Closing || t == Closed
    ensures t == Closed <==> s == Closed
  {
    if s == Closing || s == Closed then s else Closing
  }

  /** What the client and its handles emit, in order. */
  datatype Event =
    | Initialised
    | Deinitialised
    | Requested(endpoints: Value)
    | SubscribeCalled(endpoint: Endpoint)
    | Notified(key: nat, signals: seq<Signal>)

  /** An inbound frame `{ subscriptionKey, response }`. */
  datatype Frame = Frame(key: int, response: Envelope)

  /** `sendAll` writes only when the slot holds a socket that is OPEN. */
  predicate IsOpen(ws: Option<Socket>) {
    ws.Some? && ws.value.state == Open
  }

  /**
   * What a client holds besides its configuration, key counter and
   * emissions: the `ws` slot; the URL each socket was created with, indexed
   * by socket id; the registry (its keys in Map insertion order, and the
   * handles); the outbound queue; the reconnect timers scheduled and not
   * yet fired; every `ws.send`, in order; the messages passed to `send`
   * since the last `subscribeAll`; and every message ever passed to `send`.
   */
  datatype State = State(
    ws: Option<Socket>,
    urls: seq<string>,
    order: seq<nat>,
    subscriptions: map<nat, Subscription>,
    messages: seq<Msg>,
    pending: nat,
    wire: seq<Written>,
    stream: seq<Msg>,
    history: seq<Msg>)

  /** The endpoint each registered key is subscribed with. */
  function LiveOf(subs: map<nat, Subscription>): map<nat, Endpoint> {
    map k | k in subs :: subs[k].endpoint
  }

  /**
   * `order` lists each key of `subs` once and nothing else; each handle of
   * `c` is filed under its own key.
   */
  ghost predicate RegistryOf(c: Client, order: seq<nat>, subs: map<nat, Subscription>) {
    && Distinct(order)
    && (forall i :: 0 <= i < |order| ==> order[i] in subs)
    && (forall k :: k in subs ==> k in order)
    && (forall k :: k in subs ==> subs[k].key == k && subs[k].client == c)
  }

  /**
   * Every registered key and every key handed out so far is below the
   * counter, and keys were handed out in increasing order.
   */
  ghost predicate KeysOf(registered: set<nat>, next: nat, issued: seq<nat>) {
    && (forall k :: k in registered ==> k < next)
    && (forall i :: 0 <= i < |issued| ==> issued[i] < next)
    && (forall i, j :: 0 <= i < j < |issued| ==> issued[i] < issued[j])
  }

  /** Only sockets that were created have been written to or sit in the slot. */
  ghost predicate Known(st: State) {
    && (forall i :: 0 <= i < |st.wire| ==> st.wire[i].socket < |st.urls|)
    && (st.ws.Some? ==> st.ws.value.id < |st.urls|)
  }

  /**
   * Read in order, the messages since the last `subscribeAll`, and all
   * messages ever sent, each leave a server holding exactly the registered
   * keys with their endpoints.
   */
  ghost predicate Mirrored(st: State) {
    Effect(st.stream) == LiveOf(st.subscriptions) && Effect(st.history) == LiveOf(st.subscriptions)
  }

  /** An OPEN socket never leaves messages queued. */
  predicate Drained(st: State) {
    IsOpen(st.ws) ==> st.messages == []
  }

  /** The invariants every operation keeps. */
  ghost predicate Consistent(c: Client, st: State) {
    RegistryOf(c, st.order, st.subscriptions) && Known(st) && Mirrored(st) && Drained(st)
  }

  /** The invariants of a client whose key counter is `next`, having handed out `issued`. */
  ghost predicate Sound(c: Client, st: State, next: nat, issued: seq<nat>) {
    Consistent(c, st) && KeysOf(st.subscriptions.Keys, next, issued)
  }

  /**
   * The socket in the slot has been told, or will be told once it opens,
   * exactly the messages since the last `subscribeAll`.
   */
  ghost predicate InSync(st: State) {
    st.ws.Some? ==> st.stream == OnSocket(st.wire, st.ws.value.id) + st.messages
  }

  /** A reconnect timer is only ever pending while the socket in the slot is closed. */
  predicate TimerOnlyWhenClosed(st: State) {
    st.pending <= 1 && (st.pending == 1 ==> st.ws.Some? && st.ws.value.state == Closed)
  }

  /** The invariants every operation but `deinit`/`destroy` keeps. */
  ghost predicate InStep(st: State) {
    InSync(st) && TimerOnlyWhenClosed(st)
  }

  /** Every key `order` lists is registered. */
  predicate Listed(st: State) {
    forall i :: 0 <= i < |st.order| ==> st.order[i] in st.subscriptions
  }

  /**
   * `sendAll`: on an OPEN socket every queued message is written, in order,
   * and the queue is emptied; otherwise nothing happens.
   */
  function Flushed(st: State): (r: State)
    ensures IsOpen(st.ws) ==> r.messages == []
    ensures !IsOpen(st.ws) ==> r.messages == st.messages && r.wire == st.wire
    ensures r == st.(messages := r.messages, wire := r.wire)
  {
    if IsOpen(st.ws) then st.(messages := [], wire := st.wire + Stamp(st.ws.value.id, st.messages))
    else st
  }

  /** Flushing tells the socket in the slot the queue, and no other socket anything. */
  lemma FlushTells(st: State, t: nat)
    requires IsOpen(st.ws)
    ensures OnSocket(Flushed(st).wire, t) == OnSocket(st.wire, t) + (if t == st.ws.value.id then st.messages else [])
  {
    OnSocketStamp(st.wire, st.ws.value.id, t, st.messages);
  }

  /** `send(m)`: queue `m`, recording it in the stream and the history, then flush. */
  function Sent(st: State, m: Msg): State {
    Flushed(st.(messages := st.messages + [m], stream := st.stream + [m], history := st.history + [m]))
  }

  /** `setSubscription`: `Map.set` keeps the position of a key already present. */
  function Registered(st: State, key: nat, s: Subscription): State {
    st.(order := if key in st.subscriptions then st.order else st.order + [key],
        subscriptions := st.subscriptions[key := s])
  }

  /** `deleteSubscription`: `Map.delete`. */
  function Deregistered(st: State, key: nat): State {
    st.(order := Without(st.order, key), subscriptions := st.subscriptions - {key})
  }

  /** `subscribeAll` part way: the queue and the stream hold the replay so far. */
  function Replaying(st: State, done: seq<Msg>): State {
    st.(messages := done, stream := done, history := st.history + done)
  }

  /**
   * `subscribeAll`: the queue and the stream start over with one subscribe
   * message per registered key, in registry order, which are then flushed.
   */
  function Resubscribed(st: State): State
    requires Listed(st)
  {
    Flushed(Replaying(st, Replay(st.order, LiveOf(st.subscriptions))))
  }

  /**
   * `openWebSocket`: resubscribe while the previous socket is still in the
   * slot, then a new socket, created with `url`, takes the slot.
   */
  function Reconnected(st: State, url: string): State
    requires Listed(st)
  {
    Resubscribed(st).(ws := Some(Socket(|st.urls|, Connecting, ReconnectLater)), urls := st.urls + [url])
  }

  /**
   * `init`: with a socket in the slot, make its close reopen at once and
   * close it; otherwise open one.
   */
  function Restarted(st: State, url: string): State
    requires st.ws.None? ==> Listed(st)
  {
    if st.ws.Some? then st.(ws := Some(Socket(st.ws.value.id, AfterClose(st.ws.value.state), ReopenNow)))
    else Reconnected(st, url)
  }

  /** `ws.onopen`: the socket is OPEN, and the queue is flushed. */
  function Opened(st: State): State
    requires st.ws.Some?
  {
    Flushed(st.(ws := Some(Socket(st.ws.value.id, Open, st.ws.value.onclose))))
  }

  /**
   * `ws.onclose`: the socket is CLOSED, and its handler either schedules the
   * reconnect timer or reopens at once.
   */
  function Dropped(st: State, url: string): State
    requires st.ws.Some? && Listed(st)
  {
    var closed := st.(ws := Some(Socket(st.ws.value.id, Closed, st.ws.value.onclose)));
    if st.ws.value.onclose == ReconnectLater then closed.(pending := st.pending + 1)
    else Reconnected(closed, url)
  }

  /** A scheduled reconnect timer fires: `openWebSocket`. */
  function TimerFired(st: State, url: string): State
    requires st.pending > 0 && Listed(st)
  {
    Reconnected(st.(pending := st.pending - 1), url)
  }

  /** `deinit`/`destroy`: the slot is emptied; a timer already scheduled stays pending. */
  function Detached(st: State): State {
    st.(ws := None)
  }

  /** `deinit` that also cancels a reconnect timer still pending. */
  function Cancelled(st: State): State {
    st.(ws := None, pending := 0)
  }

  /** `Map.set` of a handle of `c` under its own key keeps the registry well formed. */
  lemma RegistrySet(c: Client, order: seq<nat>, subs: map<nat, Subscription>, s: Subscription)
    requires RegistryOf(c, order, subs) && s.client == c
    ensures RegistryOf(c, if s.key in subs then order else order + [s.key], subs[s.key := s])
    ensures LiveOf(subs[s.key := s]) == LiveOf(subs)[s.key := s.endpoint]
  {
    if s.key !in subs {
      var order' := order + [s.key];
      forall i, j | 0 <= i < j < |order'| ensures order'[i] != order'[j] {
        if j == |order| {
          assert order'[i] == order[i] && order[i] in subs;
        }
      }
    }
  }

  /** `Map.delete` keeps the registry well formed. */
  lemma RegistryDelete(c: Client, order: seq<nat>, subs: map<nat, Subscription>, key: nat)
    requires RegistryOf(c, order, subs)
    ensures RegistryOf(c, Without(order, key), subs - {key})
    ensures LiveOf(subs - {key}) == LiveOf(subs) - {key}
  {
    var order' := Without(order, key);
    forall i | 0 <= i < |order'| ensures order'[i] in subs - {key} {
      assert order'[i] in order';
    }
  }

  /** Handing out the counter's key and incrementing the counter keeps the keys in order. */
  lemma KeysIssue(subs: map<nat, Subscription>, next: nat, issued: seq<nat>, s: Subscription)
    requires KeysOf(subs.Keys, next, issued)
    ensures KeysOf(subs[next := s].Keys, next + 1, issued + [next])
    ensures next !in subs && next !in issued
  {
    assert subs[next := s].Keys == subs.Keys + {next};
  }

  /** Flushing empties the queue of an OPEN socket and keeps everything else the invariants say. */
  lemma FlushKeeps(c: Client, st: State)
    requires RegistryOf(c, st.order, st.subscriptions) && Known(st) && Mirrored(st)
    ensures Consistent(c, Flushed(st))
  {
    var r := Flushed(st);
    assert r.order == st.order && r.subscriptions == st.subscriptions && r.ws == st.ws;
    assert r.urls == st.urls && r.stream == st.stream && r.history == st.history;
    forall i | 0 <= i < |r.wire| ensures r.wire[i].socket < |r.urls| {
      if i < |st.wire| {
        assert r.wire[i] == st.wire[i];
      }
    }
  }

  /** Flushing keeps the slot's socket in step with the stream. */
  lemma FlushSync(st: State)
    requires InSync(st)
    ensures InSync(Flushed(st))
  {
    if IsOpen(st.ws) {
      FlushTells(st, st.ws.value.id);
    }
  }

  /** `send` keeps the slot's socket in step with the stream, and touches no timer. */
  lemma SendInStep(st: State, m: Msg, st': State)
    requires InStep(st) && st' == Sent(st, m)
    ensures InStep(st')
  {
    var q := st.(messages := st.messages + [m], stream := st.stream + [m], history := st.history + [m]);
    if st.ws.Some? {
      var told := OnSocket(st.wire, st.ws.value.id);
      assert (told + st.messages) + [m] == told + (st.messages + [m]);
    }
    FlushSync(q);
  }

  /**
   * Flushing and then sending `m` is sending `m` on top of the unflushed
   * queue and flushing once.
   */
  lemma FlushThenSend(st: State, m: Msg)
    ensures Sent(Flushed(st), m)
      == Flushed(st.(messages := st.messages + [m], stream := st.stream + [m], history := st.history + [m]))
  {
    if IsOpen(st.ws) {
      var id := st.ws.value.id;
      assert Stamp(id, st.messages + [m]) == Stamp(id, st.messages) + Stamp(id, [m]);
      assert [] + [m] == [m];
    }
  }

  /**
   * During `subscribeAll`, the `i`-th registered handle subscribing again
   * (from `before` to `after`) only adds its message to the replay so far.
   */
  lemma ReplayStep(st: State, i: nat, s: Subscription, before: State, after: State)
    requires i < |st.order| && Listed(st)
    requires st.subscriptions[st.order[i]] == s && s.key == st.order[i]
    requires before == Flushed(Replaying(st, Replay(st.order[..i], LiveOf(st.subscriptions))))
    requires after == Sent(Registered(before, s.key, s), Msg(s.key, Some(s.endpoint)))
    ensures after == Flushed(Replaying(st, Replay(st.order[..i + 1], LiveOf(st.subscriptions))))
  {
    var live := LiveOf(st.subscriptions);
    var done := Replay(st.order[..i], live);
    var m := Msg(s.key, Some(s.endpoint));
    ReplayNext(st.order, live, i);
    assert Replay(st.order[..i + 1], live) == done + [m];
    var q := Replaying(st, done);
    assert st.subscriptions[s.key := s] == st.subscriptions;
    assert Registered(Flushed(q), s.key, s) == Flushed(q);
    FlushThenSend(q, m);
    assert st.history + done + [m] == st.history + (done + [m]);
  }


  /**
   * `subscribe()` again on a handle already registered under its key: the
   * registry keeps one entry, in its place, and the message goes out a
   * second time.
   */
  lemma RepeatSubscribe(c: Client, st: State, s: Subscription)
    requires Consistent(c, st) && s.key in st.subscriptions && st.subscriptions[s.key] == s
    ensures var st' := Sent(Registered(st, s.key, s), Msg(s.key, Some(s.endpoint)));
      && st'.order == st.order && st'.subscriptions == st.subscriptions
      && st'.history == st.history + [Msg(s.key, Some(s.endpoint))]
      && Subscribed(st.history, s.key) && Subscribed(st'.history, s.key)
  {
    assert st.subscriptions[s.key := s] == st.subscriptions;
    EffectIsLast(st.history, s.key);
  }

  /**
   * `subscribeAll` with no OPEN socket in the slot: the queue then holds one
   * subscribe message per registered key, in registry order, and nothing
   * else; read in order it subscribes exactly the registry.
   */
  lemma ResubscribeQueues(c: Client, st: State)
    requires RegistryOf(c, st.order, st.subscriptions) && !IsOpen(st.ws)
    ensures |Resubscribed(st).messages| == |st.order|
    ensures forall i :: 0 <= i < |st.order| ==>
      Resubscribed(st).messages[i] == Msg(st.order[i], Some(st.subscriptions[st.order[i]].endpoint))
    ensures Effect(Resubscribed(st).messages) == LiveOf(st.subscriptions)
  {
    ReplayMirrors(st.order, LiveOf(st.subscriptions));
  }

  /**
   * A handle of `c` subscribing (`setSubscription`, then `send` of its
   * endpoint) keeps the invariants.
   */
  lemma SubscribeKeeps(c: Client, st: State, s: Subscription)
    requires Consistent(c, st) && s.client == c
    ensures Consistent(c, Sent(Registered(st, s.key, s), Msg(s.key, Some(s.endpoint))))
    ensures Sent(Registered(st, s.key, s), Msg(s.key, Some(s.endpoint))).subscriptions == st.subscriptions[s.key := s]
  {
    var m := Msg(s.key, Some(s.endpoint));
    var reg := Registered(st, s.key, s);
    var q := reg.(messages := reg.messages + [m], stream := reg.stream + [m], history := reg.history + [m]);
    assert Sent(reg, m) == Flushed(q);
    RegistrySet(c, st.order, st.subscriptions, s);
    assert RegistryOf(c, q.order, q.subscriptions);
    EffectAppend(st.stream, m);
    EffectAppend(st.history, m);
    assert Mirrored(q);
    assert Known(q);
    FlushKeeps(c, q);
    assert Consistent(c, Sent(reg, m));
  }

  /**
   * `subscribe`: handing out the counter's key to a new handle of `c`,
   * which then subscribes, keeps the invariants.
   */
  lemma SubscribeSound(c: Client, st: State, next: nat, issued: seq<nat>, s: Subscription,
                        st': State, next': nat, issued': seq<nat>)
    requires Sound(c, st, next, issued) && s.client == c && s.key == next
    requires st' == Sent(Registered(st, next, s), Msg(next, Some(s.endpoint)))
    requires next' == next + 1 && issued' == issued + [next]
    ensures next !in st.subscriptions && next !in issued
    ensures Sound(c, st', next', issued')
    ensures InStep(st) ==> InStep(st')
  {
    SubscribeKeeps(c, st, s);
    KeysIssue(st.subscriptions, next, issued, s);
    if InStep(st) {
      SendInStep(Registered(st, next, s), Msg(next, Some(s.endpoint)), st');
    }
  }

  /**
   * A handle unsubscribing (`deleteSubscription`, then `send` of `null`)
   * keeps the invariants.
   */
  lemma UnsubscribeKeeps(c: Client, st: State, key: nat, next: nat, issued: seq<nat>, st': State)
    requires Sound(c, st, next, issued) && st' == Sent(Deregistered(st, key), Msg(key, None))
    ensures Sound(c, st', next, issued)
    ensures st'.subscriptions == st.subscriptions - {key}
  {
    var m := Msg(key, None);
    var reg := Deregistered(st, key);
    var q := reg.(messages := reg.messages + [m], stream := reg.stream + [m], history := reg.history + [m]);
    assert Sent(reg, m) == Flushed(q);
    RegistryDelete(c, st.order, st.subscriptions, key);
    assert RegistryOf(c, q.order, q.subscriptions);
    EffectAppend(st.stream, m);
    EffectAppend(st.history, m);
    assert Mirrored(q);
    assert Known(q);
    FlushKeeps(c, q);
    assert Consistent(c, st');
    assert st'.subscriptions.Keys <= st.subscriptions.Keys;
  }

  /**
   * `unsubscribe()` (`deleteSubscription`, then `send` of `null`): the key
   * is not registered, the last message for it is `null`, and the
   * invariants are kept.
   */
  lemma UnsubscribeStep(c: Client, st: State, key: nat, next: nat, issued: seq<nat>, st': State)
    requires st' == Sent(Deregistered(st, key), Msg(key, None))
    ensures key !in st'.subscriptions && !Subscribed(st'.history, key)
    ensures Sound(c, st, next, issued) ==> Sound(c, st', next, issued)
    ensures InStep(st) ==> InStep(st')
  {
    if Sound(c, st, next, issued) {
      UnsubscribeKeeps(c, st, key, next, issued, st');
    }
    if InStep(st) {
      SendInStep(Deregistered(st, key), Msg(key, None), st');
    }
    assert st'.history == st.history + [Msg(key, None)];
  }

  /**
   * A handle of `c` subscribing (`setSubscription`, then `send` of its
   * endpoint): the key is registered, the last message for it carries the
   * endpoint, and the invariants are kept while its key is below the
   * counter.
   */
  lemma SubscribeStep(c: Client, st: State, s: Subscription, next: nat, issued: seq<nat>, st': State)
    requires s.client == c && st' == Sent(Registered(st, s.key, s), Msg(s.key, Some(s.endpoint)))
    ensures s.key in st'.subscriptions && Subscribed(st'.history, s.key)
    ensures Sound(c, st, next, issued) && s.key < next ==> Sound(c, st', next, issued)
    ensures InStep(st) ==> InStep(st')
  {
    if Sound(c, st, next, issued) && s.key < next {
      SubscribeKeeps(c, st, s);
      assert st'.subscriptions.Keys == st.subscriptions.Keys + {s.key};
    }
    if InStep(st) {
      SendInStep(Registered(st, s.key, s), Msg(s.key, Some(s.endpoint)), st');
    }
    assert st'.history == st.history + [Msg(s.key, Some(s.endpoint))];
  }

  /**
   * `openWebSocket` keeps the invariants, and the new socket is in step
   * with the stream unless the replay was written to a previous socket
   * that was still OPEN.
   */
  lemma ReconnectKeeps(c: Client, st: State, url: string)
    requires Consistent(c, st)
    ensures Listed(st)
    ensures Consistent(c, Reconnected(st, url))
    ensures Reconnected(st, url).subscriptions == st.subscriptions && Reconnected(st, url).pending == st.pending
  {
    var live := LiveOf(st.subscriptions);
    var ms := Replay(st.order, live);
    var q := st.(messages := ms, stream := ms, history := st.history + ms);
    ReplayMirrors(st.order, live);
    ReplayKeeps(st.history, st.order, live);
    FlushKeeps(c, q);
    var r := Reconnected(st, url);
    assert r == Flushed(q).(ws := Some(Socket(|st.urls|, Connecting, ReconnectLater)), urls := st.urls + [url]);
    assert Consistent(c, r);
  }

  /**
   * Reconnecting from a socket that is not OPEN leaves the new socket, which
   * nothing has been written to, with the whole replay queued.
   */
  lemma ReconnectSync(st: State, url: string)
    requires Listed(st) && Known(st) && !IsOpen(st.ws)
    ensures Reconnected(st, url).messages == Replay(st.order, LiveOf(st.subscriptions))
    ensures Reconnected(st, url).wire == st.wire && OnSocket(st.wire, |st.urls|) == []
    ensures InSync(Reconnected(st, url))
  {
    OnSocketFresh(st.wire, |st.urls|);
  }

  /** `init` keeps the invariants; `st'` is the state it leaves. */
  lemma RestartKeeps(c: Client, st: State, url: string, next: nat, issued: seq<nat>, st': State)
    requires Sound(c, st, next, issued) && st' == Restarted(st, url)
    ensures Sound(c, st', next, issued)
    ensures st'.subscriptions == st.subscriptions
    ensures InStep(st) ==> InStep(st')
  {
    if st.ws.None? {
      ReconnectKeeps(c, st, url);
      ReconnectSync(st, url);
    }
    assert Consistent(c, st');
  }

  /** `ws.onopen` keeps the invariants; `st'` is the state it leaves. */
  lemma OpenKeeps(c: Client, st: State, next: nat, issued: seq<nat>, st': State)
    requires Sound(c, st, next, issued) && st.ws.Some? && st.ws.value.state == Connecting
    requires st' == Opened(st)
    ensures Sound(c, st', next, issued)
    ensures st'.subscriptions == st.subscriptions
    ensures InStep(st) ==> InStep(st')
  {
    var up := st.(ws := Some(Socket(st.ws.value.id, Open, st.ws.value.onclose)));
    FlushKeeps(c, up);
    if InStep(st) {
      FlushSync(up);
    }
    assert Consistent(c, st');
  }

  /** `ws.onclose` keeps the invariants; `st'` is the state it leaves. */
  lemma DropKeeps(c: Client, st: State, url: string, next: nat, issued: seq<nat>, st': State)
    requires Sound(c, st, next, issued) && st.ws.Some? && st.ws.value.state != Closed
    requires st' == Dropped(st, url)
    ensures Sound(c, st', next, issued)
    ensures st'.subscriptions == st.subscriptions
    ensures InStep(st) ==> InStep(st')
  {
    var closed := st.(ws := Some(Socket(st.ws.value.id, Closed, st.ws.value.onclose)));
    if st.ws.value.onclose == ReopenNow {
      ReconnectKeeps(c, closed, url);
      ReconnectSync(closed, url);
    }
    assert Consistent(c, st');
  }

  /** The reconnect timer firing keeps the invariants; `st'` is the state it leaves. */
  lemma TimerKeeps(c: Client, st: State, url: string, next: nat, issued: seq<nat>, st': State)
    requires Sound(c, st, next, issued) && st.pending > 0
    requires st' == TimerFired(st, url)
    ensures Sound(c, st', next, issued)
    ensures st'.subscriptions == st.subscriptions
    ensures InStep(st) ==> InStep(st')
  {
    var waiting := st.(pending := st.pending - 1);
    assert st' == Reconnected(waiting, url);
    ReconnectKeeps(c, waiting, url);
    assert Consistent(c, st');
    if InStep(st) {
      ReconnectSync(waiting, url);
      assert InSync(st') && st'.pending == 0;
    }
  }

  /**
   * Once the socket in the slot is OPEN, it has been told exactly the
   * registered subscriptions, each with its endpoint.
   */
  lemma ServerSeesRegistry(c: Client, st: State)
    requires Consistent(c, st) && InSync(st) && IsOpen(st.ws)
    ensures Effect(OnSocket(st.wire, st.ws.value.id)) == LiveOf(st.subscriptions)
    ensures forall k :: k in LiveOf(st.subscriptions) <==> Subscribed(OnSocket(st.wire, st.ws.value.id), k)
  {
    var told := OnSocket(st.wire, st.ws.value.id);
    assert told + st.messages == told;
    forall k ensures k in LiveOf(st.subscriptions) <==> Subscribed(told, k) {
      EffectIsLast(told, k);
    }
  }

  /**
   * A reconnect timer that fires while the socket in the slot is OPEN
   * replaces that socket: the replay goes to the old socket, and once the
   * new one opens it has been told nothing, whatever is registered.
   */
  lemma StaleTimerOrphans(st: State, url: string)
    requires st.pending > 0 && Listed(st) && IsOpen(st.ws) && st.ws.value.id < |st.urls|
    requires forall i :: 0 <= i < |st.wire| ==> st.wire[i].socket < |st.urls|
    ensures OnSocket(TimerFired(st, url).wire, st.ws.value.id)
      == OnSocket(st.wire, st.ws.value.id) + Replay(st.order, LiveOf(st.subscriptions))
    ensures var after := Opened(TimerFired(st, url));
      && after.ws == Some(Socket(|st.urls|, Open, ReconnectLater))
      && after.subscriptions == st.subscriptions
      && OnSocket(after.wire, |st.urls|) == []
  {
    TimerTellsOpen(st, url);
    var fired := TimerFired(st, url);
    assert fired.messages == [] && fired.ws.value.id == |st.urls|;
    var after := Opened(fired);
    assert after.wire == fired.wire;
    OnSocketFresh(after.wire, |st.urls|);
  }

  /** A timer firing over an OPEN socket writes the replay to that socket. */
  lemma TimerTellsOpen(st: State, url: string)
    requires st.pending > 0 && Listed(st) && IsOpen(st.ws)
    ensures OnSocket(TimerFired(st, url).wire, st.ws.value.id)
      == OnSocket(st.wire, st.ws.value.id) + Replay(st.order, LiveOf(st.subscriptions))
  {
    var q := Replaying(st.(pending := st.pending - 1), Replay(st.order, LiveOf(st.subscriptions)));
    FlushTells(q, st.ws.value.id);
    assert TimerFired(st, url).wire == Flushed(q).wire;
  }

  /** One subscription, registered and told to the OPEN socket 0. */
  function RaceStart(s: Subscription, url: string): State {
    var m := Msg(s.key, Some(s.endpoint));
    State(Some(Socket(0, Open, ReconnectLater)), [url], [s.key], map[s.key := s], [], 0, [Written(0, m)], [m], [m])
  }

  /** The starting point keeps every invariant. */
  lemma RaceStartSound(c: Client, s: Subscription, url: string)
    requires s.client == c
    ensures Consistent(c, RaceStart(s, url)) && InStep(RaceStart(s, url))
  {
    var m := Msg(s.key, Some(s.endpoint));
    assert Effect([m]) == LiveOf(map[s.key := s]) by {
      assert [m][..0] == [];
    }
    assert OnSocket([Written(0, m)], 0) == [m] by {
      assert [Written(0, m)][..0] == [];
    }
  }

  /**
   * `deinit` as written leaves a reconnect timer pending. One subscription
   * on an OPEN socket; the socket drops (timer scheduled), `deinit`,
   * `init` (socket 1), socket 1 opens, the stale timer fires (the replay is
   * written to socket 1, socket 2 takes the slot), socket 2 opens: socket 2
   * is OPEN and has been told nothing, although the key is registered.
   */
  lemma DeinitRaceWitness(c: Client, s: Subscription, url: string)
    requires s.client == c
    ensures var st0 := RaceStart(s, url);
      var st1 := Detached(Dropped(st0, url));
      var st3 := Opened(TimerFired(Opened(Restarted(st1, url)), url));
      && Consistent(c, st0) && InStep(st0)
      && !TimerOnlyWhenClosed(st1)
      && IsOpen(st3.ws) && s.key in LiveOf(st3.subscriptions)
      && OnSocket(st3.wire, st3.ws.value.id) == []
  {
    RaceStartSound(c, s, url);
    var st1 := Detached(Dropped(RaceStart(s, url), url));
    assert st1 == RaceStart(s, url).(ws := None, pending := 1);
    var st2 := Opened(Restarted(st1, url));
    assert st2.ws == Some(Socket(1, Open, ReconnectLater)) && |st2.urls| == 2;
    assert st2.subscriptions == map[s.key := s];
    StaleTimerOrphans(st2, url);
  }

  class Client {
    const revision: Revision
    const url: string
    const wsUrl: string
    /** `encodeURIComponent`. */
    const encode: string -> string

    var headers: Option<Headers>
    /** The `ws` slot. */
    var ws: Option<Socket>
    /** The keys of `subscriptions` in Map insertion order. */
    var order: seq<nat>
    var subscriptions: map<nat, Subscription>
    /** `subscriptionKey`: the next key to hand out. */
    var nextKey: nat
    /** The outbound queue. */
    var messages: seq<Msg>
    /** Reconnect timers scheduled and not yet fired. */
    var pending: nat
    /** The URL each socket was created with, indexed by socket id. */
    var urls: seq<string>

    /** Every `ws.send`, in order. */
    ghost var wire: seq<Written>
    /** Every emission, in order. */
    ghost var events: seq<Event>
    /** Every message passed to `send` since the last `subscribeAll`. */
    ghost var stream: seq<Msg>
    /** Every message ever passed to `send`. */
    ghost var history: seq<Msg>
    /** Every key handed out by `subscribe`, in order. */
    ghost var issued: seq<nat>

    ghost function Snapshot(): State
      reads this`ws, this`urls, this`order, this`subscriptions, this`messages, this`pending
      reads this`wire, this`stream, this`history
    {
      State(ws, urls, order, subscriptions, messages, pending, wire, stream, history)
    }

    predicate Writable()
      reads this`ws
    {
      IsOpen(ws)
    }

    ghost predicate Registry()
      reads this`order, this`subscriptions
    {
      RegistryOf(this, order, subscriptions)
    }

    ghost predicate Valid()
      reads this`ws, this`urls, this`order, this`subscriptions, this`messages, this`pending
      reads this`wire, this`stream, this`history, this`nextKey, this`issued
    {
      Sound(this, Snapshot(), nextKey, issued)
    }

    ghost predicate Healthy()
      reads this`ws, this`urls, this`order, this`subscriptions, this`messages, this`pending
      reads this`wire, this`stream, this`history
    {
      InStep(Snapshot())
    }

    /** The URL the next socket is created with: the headers travel as a query string. */
    function SocketAddress(): string
      reads this`headers
    {
      SocketUrl(wsUrl, headers, encode)
    }

    constructor (revision: Revision, url: string, wsUrl: string, encode: string -> string)
      ensures this.revision == revision && this.url == url && this.wsUrl == wsUrl && this.encode == encode
      ensures headers.None? && nextKey == 0 && events == [] && issued == []
      ensures Snapshot() == State(None, [], [], map[], [], 0, [], [], [])
      ensures Valid() && Healthy()
    {
      this.revision := revision;
      this.url := url;
      this.wsUrl := wsUrl;
      this.encode := encode;
      headers := None;
      ws := None;
      order := [];
      subscriptions := map[];
      nextKey := 0;
      messages := [];
      pending := 0;
      urls := [];
      wire := [];
      events := [];
      stream := [];
      history := [];
      issued := [];
    }

    /** `update(headers)` of src/Client.ts: used by the next socket and request. */
    method Update(h: Option<Headers>)
      requires revision.Current?
      modifies this`headers
      ensures headers == h
    {
      headers := h;
    }

    /** `sendAll`. */
    method SendAll()
      modifies this`messages, this`wire
      ensures Snapshot() == Flushed(old(Snapshot()))
    {
      if ws.None? || ws.value.state != Open {
        return;
      }
      var id := ws.value.id;
      var i := 0;
      while i < |messages|
        invariant 0 <= i <= |messages| && messages == old(messages)
        invariant wire == old(wire) + Stamp(id, messages[..i])
      {
        assert Stamp(id, messages[..i + 1]) == Stamp(id, messages[..i]) + [Written(id, messages[i])];
        wire := wire + [Written(id, messages[i])];
        i := i + 1;
      }
      assert messages[..i] == messages;
      messages := [];
    }

    /** `send`: queue one message, then try to flush. */
    method Send(key: nat, endpoint: Option<Endpoint>)
      modifies this`messages, this`wire, this`stream, this`history
      ensures Snapshot() == Sent(old(Snapshot()), Msg(key, endpoint))
    {
      messages := messages + [Msg(key, endpoint)];
      stream := stream + [Msg(key, endpoint)];
      history := history + [Msg(key, endpoint)];
      SendAll();
    }

    /** `setSubscription`. */
    method SetSubscription(key: nat, s: Subscription)
      modifies this`order, this`subscriptions
      ensures Snapshot() == Registered(old(Snapshot()), key, s)
    {
      if key !in subscriptions {
        order := order + [key];
      }
      subscriptions := subscriptions[key := s];
    }

    /** `deleteSubscription`. */
    method DeleteSubscription(key: nat)
      modifies this`order, this`subscriptions
      ensures Snapshot() == Deregistered(old(Snapshot()), key)
    {
      order := Without(order, key);
      subscriptions := subscriptions - {key};
    }

    /**
     * `subscribe(endpoint)`: emits `subscribe`, creates a handle under the
     * current key and has it subscribe; the counter is incremented before
     * the handle subscribes in src/Client.ts and after in src/Client.js.
     * The key is new: never registered, and above every key handed out
     * before.
     */
    method Subscribe(endpoint: Endpoint) returns (s: Subscription)
      requires Valid()
      modifies this`nextKey, this`issued, this`events, this`order, this`subscriptions
      modifies this`messages, this`wire, this`stream, this`history
      ensures fresh(s) && s.client == this && s.key == old(nextKey) && s.endpoint == endpoint
      ensures nextKey == old(nextKey) + 1 && issued == old(issued) + [s.key]
      ensures s.key !in old(subscriptions) && forall i :: 0 <= i < |old(issued)| ==> old(issued)[i] < s.key
      ensures events == old(events) + [SubscribeCalled(endpoint)]
      ensures Snapshot() == Sent(Registered(old(Snapshot()), s.key, s), Msg(s.key, Some(endpoint)))
      ensures Valid()
      ensures old(Healthy()) ==> Healthy()
    {
      events := events + [SubscribeCalled(endpoint)];
      var key := nextKey;
      if revision.Current? {
        nextKey := nextKey + 1;
      }
      s := new Subscription(this, key, endpoint);
      s.Subscribe();
      if revision.Legacy? {
        nextKey := nextKey + 1;
      }
      issued := issued + [key];
      SubscribeSound(this, old(Snapshot()), key, old(issued), s, Snapshot(), nextKey, issued);
    }

    /**
     * `subscribeAll`: empty the queue, then every registered handle
     * subscribes again, in registry order.
     */
    method SubscribeAll()
      requires Registry()
      modifies this`order, this`subscriptions, this`messages, this`wire, this`stream, this`history
      ensures Snapshot() == Resubscribed(old(Snapshot()))
    {
      messages := [];
      stream := [];
      ghost var start := Snapshot();
      ghost var live := LiveOf(start.subscriptions);
      assert start == Flushed(Replaying(start, [])) by {
        assert start.history + [] == start.history;
        if IsOpen(ws) {
          assert start.wire + Stamp(ws.value.id, []) == start.wire;
        }
      }
      var i := 0;
      while i < |order|
        invariant 0 <= i <= |order|
        invariant order == start.order && subscriptions == start.subscriptions
        invariant Registry()
        invariant Snapshot() == Flushed(Replaying(start, Replay(order[..i], live)))
      {
        ResubscribeAt(start, i);
        i := i + 1;
      }
      assert order[..i] == order;
    }

    /** One turn of `subscribeAll`'s loop: `subscribe()` on the handle of the i-th registered key. */
    method ResubscribeAt(ghost start: State, i: nat)
      requires Registry() && i < |order|
      requires order == start.order && subscriptions == start.subscriptions
      requires Snapshot() == Flushed(Replaying(start, Replay(order[..i], LiveOf(subscriptions))))
      modifies this`order, this`subscriptions, this`messages, this`wire, this`stream, this`history
      ensures order == start.order && subscriptions == start.subscriptions
      ensures Snapshot() == Flushed(Replaying(start, Replay(order[..i + 1], LiveOf(subscriptions))))
    {
      var s := subscriptions[order[i]];
      s.Subscribe();
      ReplayStep(start, i, s, old(Snapshot()), Snapshot());
    }

    /** `openWebSocket`. */
    method OpenWebSocket()
      requires Registry()
      modifies this`order, this`subscriptions, this`messages, this`wire, this`stream, this`history
      modifies this`ws, this`urls
      ensures Snapshot() == Reconnected(old(Snapshot()), SocketAddress())
    {
      var u := SocketUrl(wsUrl, headers, encode);
      SubscribeAll();
      ws := Some(Socket(|urls|, Connecting, ReconnectLater));
      urls := urls + [u];
    }

    /**
     * `init` (src/Client.ts) and the connection part of `init(headers)`
     * (src/Client.js): with no socket, open one; otherwise make the
     * socket's close reopen at once, and close it.
     */
    method Reinit()
      requires Valid()
      modifies this`order, this`subscriptions, this`messages, this`wire, this`stream, this`history
      modifies this`ws, this`urls
      ensures Snapshot() == Restarted(old(Snapshot()), SocketAddress())
      ensures Valid()
      ensures old(Healthy()) ==> Healthy()
    {
      if ws.Some? {
        ws := Some(Socket(ws.value.id, AfterClose(ws.value.state), ReopenNow));
      } else {
        OpenWebSocket();
      }
      RestartKeeps(this, old(Snapshot()), SocketAddress(), nextKey, issued, Snapshot());
    }

    /** `init()` of src/Client.ts. */
    method Init()
      requires revision.Current?
      requires Valid()
      modifies this`order, this`subscriptions, this`messages, this`wire, this`stream, this`history
      modifies this`ws, this`urls
      ensures Snapshot() == Restarted(old(Snapshot()), SocketAddress())
      ensures Valid()
      ensures old(Healthy()) ==> Healthy()
    {
      Reinit();
    }

    /** `init(headers)` of src/Client.js: store the headers first. */
    method InitWith(h: Option<Headers>)
      requires revision.Legacy?
      requires Valid()
      modifies this`order, this`subscriptions, this`messages, this`wire, this`stream, this`history
      modifies this`ws, this`urls, this`headers
      ensures headers == h
      ensures Snapshot() == Restarted(old(Snapshot()), SocketUrl(wsUrl, h, encode))
      ensures Valid()
      ensures old(Healthy()) ==> Healthy()
    {
      headers := h;
      Reinit();
    }

    /** `ws.onopen`: src/Client.ts emits `init`; both flush the queue. */
    method OnOpen()
      requires Valid()
      requires ws.Some? && ws.value.state == Connecting
      modifies this`ws, this`events, this`messages, this`wire
      ensures events == old(events) + (if revision.Current? then [Initialised] else [])
      ensures Snapshot() == Opened(old(Snapshot()))
      ensures Valid()
      ensures old(Healthy()) ==> Healthy()
    {
      ws := Some(Socket(ws.value.id, Open, ws.value.onclose));
      if revision.Current? {
        events := events + [Initialised];
      }
      SendAll();
      OpenKeeps(this, old(Snapshot()), nextKey, issued, Snapshot());
    }

    /**
     * `ws.onclose`: the handler installed by `openWebSocket` schedules the
     * reconnect timer; the one installed by `init` reopens at once.
     */
    method OnClose()
      requires Valid()
      requires ws.Some? && ws.value.state != Closed
      modifies this`order, this`subscriptions, this`messages, this`wire, this`stream, this`history
      modifies this`ws, this`urls, this`pending
      ensures Snapshot() == Dropped(old(Snapshot()), SocketAddress())
      ensures Valid()
      ensures old(Healthy()) ==> Healthy()
    {
      ws := Some(Socket(ws.value.id, Closed, ws.value.onclose));
      if ws.value.onclose == ReconnectLater {
        pending := pending + 1;
      } else {
        OpenWebSocket();
      }
      DropKeeps(this, old(Snapshot()), SocketAddress(), nextKey, issued, Snapshot());
    }

    /** The 250 ms timer scheduled by a close fires: `openWebSocket`. */
    method ReconnectFires()
      requires Valid()
      requires pending > 0
      modifies this`order, this`subscriptions, this`messages, this`wire, this`stream, this`history
      modifies this`ws, this`urls, this`pending
      ensures Snapshot() == TimerFired(old(Snapshot()), SocketAddress())
      ensures Valid()
      ensures old(Healthy()) ==> Healthy()
    {
      pending := pending - 1;
      OpenWebSocket();
      TimerKeeps(this, old(Snapshot()), SocketAddress(), nextKey, issued, Snapshot());
    }

    /**
     * `ws.onmessage`: a frame for a key that is not registered is dropped
     * without any emission; otherwise the handle emits the dispatched
     * signals.
     */
    method OnMessage(frame: Frame)
      modifies this`events
      ensures frame.key < 0 || frame.key as nat !in subscriptions ==> events == old(events)
      ensures frame.key >= 0 && frame.key as nat in subscriptions ==>
        events == old(events) + [Notified(frame.key as nat, Dispatch(revision, frame.response))]
    {
      if frame.key < 0 || frame.key as nat !in subscriptions {
        return;
      }
      var outcome: Outcome;
      if revision.Current? {
        var response := new Response(frame.response);
        outcome := response.Result();
      } else {
        var response := new LegacyResponse(frame.response);
        outcome := response.Data();
      }
      assert outcome == Normalise(frame.response);
      var signals := [ResponseSignal(frame.response)];
      match outcome {
        case Err(info) => signals := signals + [Error(Protocol(info))];
        case NoData => signals := signals + [Success];
        case Values(values) => signals := signals + [ValueSignal(revision, Some(values))];
      }
      assert signals == Dispatch(revision, frame.response);
      events := events + [Notified(frame.key as nat, signals)];
    }

    /**
     * `deinit()` of src/Client.ts: detach the close handler, close, empty
     * the slot and emit `deinit`. A reconnect timer already scheduled is
     * left pending.
     */
    method Deinit()
      requires revision.Current?
      requires Valid()
      modifies this`ws, this`events
      ensures events == old(events) + [Deinitialised]
      ensures Snapshot() == Detached(old(Snapshot()))
      ensures Valid()
    {
      ws := None;
      events := events + [Deinitialised];
    }

    /** `deinit()` that also cancels a reconnect timer still pending. */
    method DeinitCancellingReconnect()
      requires revision.Current?
      requires Valid()
      modifies this`ws, this`events, this`pending
      ensures events == old(events) + [Deinitialised]
      ensures Snapshot() == Cancelled(old(Snapshot()))
      ensures Valid() && Healthy()
    {
      ws := None;
      pending := 0;
      events := events + [Deinitialised];
    }

    /**
     * `destroy()` of src/Client.js: like `deinit`, without the event. With
     * the slot empty it throws (`this.ws.onclose` on `null`) before
     * changing anything.
     */
    method Destroy() returns (threw: bool)
      requires revision.Legacy?
      requires Valid()
      modifies this`ws
      ensures threw <==> old(ws).None?
      ensures Snapshot() == Detached(old(Snapshot()))
      ensures Valid()
    {
      if ws.None? {
        return true;
      }
      ws := None;
      return false;
    }

    /**
     * `request(endpoints)`: emit `request`, send the built request, and
     * emit and complete according to how the fetch ends (`answer`).
     */
    method Request(endpoints: Value, answer: Answer) returns (call: HttpRequest, signals: seq<Signal>, completion: Completion)
      modifies this`events
      ensures events == old(events) + [Requested(endpoints)]
      ensures call == BuildRequest(revision, url, headers, endpoints)
      ensures (signals, completion) == Flow(revision, answer)
    {
      events := events + [Requested(endpoints)];
      call := BuildRequest(revision, url, headers, endpoints);
      match answer
      case Rejected(reason) =>
        signals := [Error(Transport(reason))];
        completion := Threw(Transport(reason));
      case Answered(env) =>
        var outcome: Outcome;
        if revision.Current? {
          var response := new Response(env);
          outcome := response.Result();
        } else {
          var response := new LegacyResponse(env);
          outcome := response.Data();
        }
        assert outcome == Normalise(env);
        signals := [ResponseSignal(env)];
        if outcome.Err? {
          signals := signals + [Error(Protocol(outcome.info))];
          completion := if revision.Current? then Threw(Protocol(outcome.info)) else ReturnedResponse(env);
        } else {
          signals := signals + [Success, ValueSignal(revision, ValuesOf(outcome))];
          completion := if revision.Current? then Returned(ValuesOf(outcome)) else ReturnedResponse(env);
        }
        assert signals == Flow(revision, answer).0;
        assert completion == Flow(revision, answer).1;
    }
  }

  /** A subscription handle; its key and endpoint never change. */
  class Subscription {
    const client: Client
    const key: nat
    const endpoint: Endpoint

    constructor (client: Client, key: nat, endpoint: Endpoint)
      ensures this.client == client && this.key == key && this.endpoint == endpoint
    {
      this.client := client;
      this.key := key;
      this.endpoint := endpoint;
    }

    /**
     * `subscribe()`: register this handle under its key, then send the
     * endpoint. Afterwards the key is registered and the last message ever
     * sent for it carries the endpoint.
     */
    method Subscribe()
      modifies client`order, client`subscriptions, client`messages, client`wire, client`stream, client`history
      ensures client.Snapshot() == Sent(Registered(old(client.Snapshot()), key, this), Msg(key, Some(endpoint)))
      ensures key in client.subscriptions && Subscribed(client.history, key)
      ensures old(client.Valid()) && key < client.nextKey ==> client.Valid()
      ensures old(client.Healthy()) ==> client.Healthy()
    {
      ghost var st, next, issued := client.Snapshot(), client.nextKey, client.issued;
      client.SetSubscription(key, this);
      client.Send(key, Some(endpoint));
      ghost var st' := client.Snapshot();
      assert st' == Sent(Registered(st, key, this), Msg(key, Some(endpoint)));
      SubscribeStep(client, st, this, next, issued, st');
      assert client.nextKey == next && client.issued == issued;
    }

    /**
     * `unsubscribe()`: deregister the key, then send `null` for it.
     * Afterwards the key is not registered and the last message ever sent
     * for it unsubscribes.
     */
    method Unsubscribe()
      modifies client`order, client`subscriptions, client`messages, client`wire, client`stream, client`history
      ensures client.Snapshot() == Sent(Deregistered(old(client.Snapshot()), key), Msg(key, None))
      ensures key !in client.subscriptions && !Subscribed(client.history, key)
      ensures old(client.Valid()) ==> client.Valid()
      ensures old(client.Healthy()) ==> client.Healthy()
    {
      ghost var st := client.Snapshot();
      client.DeleteSubscription(key);
      client.Send(key, None);
      UnsubscribeStep(client, st, key, client.nextKey, client.issued, client.Snapshot());
    }
  }
}
