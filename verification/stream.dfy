/**
 * Outbound subscription messages and what a sequence of them means to the
 * server: reading them in order, a key is subscribed when its last message
 * carries an endpoint and unsubscribed when it carries `null`.
 */
module Stream {
  import opened Json

  /** An outbound frame `{ subscriptionKey, endpoint }`; `None` is the `null` that unsubscribes. */
  datatype Msg = Msg(key: nat, endpoint: Option<Endpoint>)

  /** A frame written by `ws.send`, tagged with the socket it was written to. */
  datatype Written = Written(socket: nat, msg: Msg)

  /** The last message for key `k` in `ms`, if any. */
  function LastFor(ms: seq<Msg>, k: nat): (r: Option<Msg>)
    ensures r.Some? ==> r.value.key == k && r.value in ms
    ensures r.None? <==> forall i :: 0 <= i < |ms| ==> ms[i].key != k
  {
    if ms == [] then None
    else if ms[|ms| - 1].key == k then Some(ms[|ms| - 1])
    else LastFor(ms[..|ms| - 1], k)
  }

  /** After reading `ms`, key `k` is subscribed. */
  predicate Subscribed(ms: seq<Msg>, k: nat) {
    LastFor(ms, k).Some? && LastFor(ms, k).value.endpoint.Some?
  }

  /** What a server does with one message: subscribe the key to the endpoint, or drop it. */
  function Apply(view: map<nat, Endpoint>, m: Msg): (r: map<nat, Endpoint>)
    ensures m.endpoint.Some? ==> m.key in r && r[m.key] == m.endpoint.value
    ensures m.endpoint.None? ==> m.key !in r
    ensures forall k :: k != m.key ==> (k in r <==> k in view) && (k in r ==> r[k] == view[k])
  {
    if m.endpoint.Some? then view[m.key := m.endpoint.value] else view - {m.key}
  }

  /** The subscriptions a server holds after reading `ms`, in order, on a fresh connection. */
  function Effect(ms: seq<Msg>): map<nat, Endpoint> {
    if ms == [] then map[] else Apply(Effect(ms[..|ms| - 1]), ms[|ms| - 1])
  }

  lemma EffectAppend(ms: seq<Msg>, m: Msg)
    ensures Effect(ms + [m]) == Apply(Effect(ms), m)
  {
    assert (ms + [m])[..|ms|] == ms;
  }

  /**
   * `Effect` agrees with reading the messages for each key separately: a
   * key is held iff the last message for it carries an endpoint, and it is
   * held with that endpoint.
   */
  lemma {:induction false} EffectIsLast(ms: seq<Msg>, k: nat)
    ensures k in Effect(ms) <==> Subscribed(ms, k)
    ensures k in Effect(ms) ==> LastFor(ms, k) == Some(Msg(k, Some(Effect(ms)[k])))
  {
    if ms != [] {
      EffectIsLast(ms[..|ms| - 1], k);
    }
  }

  /** No key occurs twice. */
  predicate Distinct(keys: seq<nat>) {
    forall i, j :: 0 <= i < j < |keys| ==> keys[i] != keys[j]
  }

  /** One subscribe message per key of `order`, in that order. */
  function Replay(order: seq<nat>, live: map<nat, Endpoint>): (r: seq<Msg>)
    requires forall i :: 0 <= i < |order| ==> order[i] in live
    ensures |r| == |order|
    ensures forall i :: 0 <= i < |order| ==> r[i] == Msg(order[i], Some(live[order[i]]))
  {
    seq(|order|, i requires 0 <= i < |order| => Msg(order[i], Some(live[order[i]])))
  }

  /** Replaying one more key of `order` appends that key's message. */
  lemma ReplayNext(order: seq<nat>, live: map<nat, Endpoint>, i: nat)
    requires i < |order| && forall j :: 0 <= j < |order| ==> order[j] in live
    ensures Replay(order[..i + 1], live) == Replay(order[..i], live) + [Msg(order[i], Some(live[order[i]]))]
  {
  }

  /**
   * Replaying a registry onto a connection that already holds it changes
   * nothing.
   */
  lemma {:induction false} ReplayKeeps(ms: seq<Msg>, order: seq<nat>, live: map<nat, Endpoint>)
    requires forall i :: 0 <= i < |order| ==> order[i] in live
    requires Effect(ms) == live
    ensures Effect(ms + Replay(order, live)) == live
    decreases |order|
  {
    if order == [] {
      assert ms + Replay(order, live) == ms;
    } else {
      var front := order[..|order| - 1];
      var k := order[|order| - 1];
      assert ms + Replay(order, live) == ms + Replay(front, live) + [Msg(k, Some(live[k]))];
      ReplayKeeps(ms, front, live);
      EffectAppend(ms + Replay(front, live), Msg(k, Some(live[k])));
      assert live[k := live[k]] == live;
    }
  }

  /** A fresh connection that reads a replay holds exactly the replayed keys. */
  lemma {:induction false} ReplayFresh(order: seq<nat>, live: map<nat, Endpoint>)
    requires forall i :: 0 <= i < |order| ==> order[i] in live
    ensures Effect(Replay(order, live)) == map k | k in live && k in order :: live[k]
    decreases |order|
  {
    if order != [] {
      var front := order[..|order| - 1];
      var k := order[|order| - 1];
      assert Replay(order, live) == Replay(front, live) + [Msg(k, Some(live[k]))];
      ReplayFresh(front, live);
      EffectAppend(Replay(front, live), Msg(k, Some(live[k])));
      assert forall j :: j in order <==> j in front || j == k;
    }
  }

  /**
   * Replaying every registered key, on a fresh connection, leaves the
   * server holding exactly the registry.
   */
  lemma ReplayMirrors(order: seq<nat>, live: map<nat, Endpoint>)
    requires forall i :: 0 <= i < |order| ==> order[i] in live
    requires forall k :: k in live ==> k in order
    ensures Effect(Replay(order, live)) == live
  {
    ReplayFresh(order, live);
  }

  /** `Map.delete`: the remaining keys keep their order. */
  function Without(order: seq<nat>, k: nat): (r: seq<nat>)
    ensures forall x :: x in r <==> x in order && x != k
    ensures Distinct(order) ==> Distinct(r)
  {
    if order == [] then []
    else if order[0] == k then Without(order[1..], k)
    else
      var rest := Without(order[1..], k);
      assert Distinct(order) ==> Distinct(order[1..]) && order[0] !in order[1..] by {
        if Distinct(order) {
          forall j | 0 <= j < |order[1..]| ensures order[1..][j] != order[0] {
            assert order[1..][j] == order[j + 1];
          }
        }
      }
      [order[0]] + rest
  }

  /** Deleting a key that is not there changes nothing. */
  lemma {:induction false} WithoutAbsent(order: seq<nat>, k: nat)
    requires k !in order
    ensures Without(order, k) == order
  {
    if order != [] {
      assert order[0] != k;
      WithoutAbsent(order[1..], k);
      assert order == [order[0]] + order[1..];
    }
  }

  /** Deleting from a concatenation deletes from each part, in place. */
  lemma {:induction false} WithoutAppend(a: seq<nat>, b: seq<nat>, k: nat)
    ensures Without(a + b, k) == Without(a, k) + Without(b, k)
    decreases |a|
  {
    if a == [] {
      assert a + b == b;
    } else {
      assert (a + b)[0] == a[0] && (a + b)[1..] == a[1..] + b;
      WithoutAppend(a[1..], b, k);
    }
  }

  /** In an order with no repeats, a key occurs neither before nor after its own position. */
  lemma DistinctAt(order: seq<nat>, i: nat)
    requires Distinct(order) && i < |order|
    ensures order[i] !in order[..i] && order[i] !in order[i + 1..]
  {
    var front, back := order[..i], order[i + 1..];
    forall j | 0 <= j < |front| ensures front[j] != order[i] {
      assert front[j] == order[j];
    }
    forall j | 0 <= j < |back| ensures back[j] != order[i] {
      assert back[j] == order[i + 1 + j];
    }
  }

  /** Deleting the one occurrence of a key joins what stood before and after it. */
  lemma WithoutSplit(front: seq<nat>, k: nat, back: seq<nat>)
    requires k !in front && k !in back
    ensures Without(front + [k] + back, k) == front + back
  {
    assert front + [k] + back == front + ([k] + back);
    WithoutAppend(front, [k] + back, k);
    WithoutAppend([k], back, k);
    WithoutAbsent(front, k);
    WithoutAbsent(back, k);
    assert Without([k], k) == [];
  }

  /**
   * Deleting a key from a registry order removes its one entry and leaves
   * the keys before and after it where they were.
   */
  lemma WithoutAt(order: seq<nat>, i: nat)
    requires Distinct(order) && i < |order|
    ensures Without(order, order[i]) == order[..i] + order[i + 1..]
  {
    DistinctAt(order, i);
    assert order == order[..i] + [order[i]] + order[i + 1..];
    WithoutSplit(order[..i], order[i], order[i + 1..]);
  }

  /** `ws.send` for each message of `ms`, in order, on socket `id`. */
  function Stamp(id: nat, ms: seq<Msg>): (w: seq<Written>)
    ensures |w| == |ms|
    ensures forall i :: 0 <= i < |ms| ==> w[i] == Written(id, ms[i])
  {
    seq(|ms|, i requires 0 <= i < |ms| => Written(id, ms[i]))
  }

  /** The messages written to socket `id`, in order. */
  function OnSocket(wire: seq<Written>, id: nat): seq<Msg> {
    if wire == [] then []
    else OnSocket(wire[..|wire| - 1], id) + (if wire[|wire| - 1].socket == id then [wire[|wire| - 1].msg] else [])
  }

  lemma {:induction false} OnSocketStamp(wire: seq<Written>, id: nat, target: nat, ms: seq<Msg>)
    ensures OnSocket(wire + Stamp(id, ms), target) == OnSocket(wire, target) + (if id == target then ms else [])
    decreases |ms|
  {
    if ms != [] {
      var front := ms[..|ms| - 1];
      assert Stamp(id, ms) == Stamp(id, front) + [Written(id, ms[|ms| - 1])];
      assert (wire + Stamp(id, ms))[..|wire + Stamp(id, ms)| - 1] == wire + Stamp(id, front);
      OnSocketStamp(wire, id, target, front);
      assert front + [ms[|ms| - 1]] == ms;
    } else {
      assert wire + Stamp(id, ms) == wire;
    }
  }

  lemma {:induction false} OnSocketFresh(wire: seq<Written>, id: nat)
    requires forall i :: 0 <= i < |wire| ==> wire[i].socket < id
    ensures OnSocket(wire, id) == []
  {
    if wire != [] {
      OnSocketFresh(wire[..|wire| - 1], id);
    }
  }
}
