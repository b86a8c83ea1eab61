/**
 * Subscribe frames and the client's subscription table.
 *
 * Every subscribe request carries a fresh request id. The client's
 * `subscriptions` table is one string-keyed map holding two kinds of
 * entry: request id -> subscription hash, written by `subscribe` while the
 * hash is not yet a key, and subscription hash -> subscription, written
 * when the watch is registered. An `ack` frame names a request id; its
 * entry is deleted and the subscription's one-shot `method`, if it has
 * one, runs.
 */
module Subscriptions {
  import opened Wrappers

  /** A scalar field of a wire frame. */
  datatype Value = Str(s: string) | Flag(b: bool)

  /** A wire frame: its fields by name. */
  type Frame = map<string, Value>

  /** The post-subscription callbacks a subscription may carry (the order-book one is the only kind). */
  datatype Callback = OrderBookSubscription

  /** A registered subscription: its optional `method` callback and the arguments the callback reads. */
  datatype Subscription = Subscription(callback: Option<Callback>, symbols: seq<string>, limit: Option<int>)

  /** A value of the subscription table. */
  datatype Entry =
    | HashOf(hash: string)                 // request id -> subscription hash
    | Registered(subscription: Subscription)  // subscription hash -> subscription

  type Table = map<string, Entry>

  /** The subscribe request: id, type `subscribe`, the topic, and a request for a response. */
  function SubscribeRequest(id: string, topic: string): Frame {
    map["id" := Str(id), "type" := Str("subscribe"), "topic" := Str(topic), "response" := Flag(true)]
  }

  /** The names a subscribe request sets. */
  const RequestFields: set<string> := {"id", "type", "topic", "response"}

  /** The frame sent: the request extended by the caller's parameters, which win on a clash. */
  function SubscribeFrame(id: string, topic: string, params: Frame): (f: Frame)
    ensures f.Keys == RequestFields + params.Keys
    ensures forall k :: k in params ==> f[k] == params[k]
    ensures forall k :: k in RequestFields && k !in params ==> f[k] == SubscribeRequest(id, topic)[k]
  {
    SubscribeRequest(id, topic) + params
  }

  /** `subscribe`'s write: the request id maps to the hash unless the hash is already a key. */
  function Register(table: Table, id: string, hash: string): (t: Table)
    ensures hash in table ==> t == table
    ensures hash !in table ==> t == table[id := HashOf(hash)]
  {
    if hash in table then table else table[id := HashOf(hash)]
  }

  /**
   * `subscribeMultiple`'s writes: `Register` for each hash in turn, all
   * under one request id. Only the id's entry can change, and if it does it
   * names one of `hashes`.
   */
  function RegisterAll(table: Table, id: string, hashes: seq<string>): (t: Table)
    ensures forall k :: k != id ==> (k in t <==> k in table) && (k in t ==> t[k] == table[k])
    ensures id in t ==> (id in table && t[id] == table[id]) || (t[id].HashOf? && t[id].hash in hashes)
    decreases |hashes|
  {
    if |hashes| == 0 then table
    else Register(RegisterAll(table, id, hashes[..|hashes| - 1]), id, hashes[|hashes| - 1])
  }

  /** The last of `hashes` that is not a key of `table`, if any. */
  function LastUnregistered(table: Table, hashes: seq<string>): (r: Option<string>)
    ensures r.Some? ==> r.value in hashes && r.value !in table
    ensures r.None? ==> forall i :: 0 <= i < |hashes| ==> hashes[i] in table
    decreases |hashes|
  {
    if |hashes| == 0 then None
    else if hashes[|hashes| - 1] !in table then Some(hashes[|hashes| - 1])
    else LastUnregistered(table, hashes[..|hashes| - 1])
  }

  /**
   * One request covering many hashes writes a single key: its request id,
   * bound to the last hash not yet in the table. Every other entry is
   * kept; when every hash is already a key, nothing changes.
   */
  lemma {:induction false} RegisterAllKeepsLastHash(table: Table, id: string, hashes: seq<string>)
    requires id !in hashes && id !in table
    ensures var t := RegisterAll(table, id, hashes);
      && (forall k :: k != id ==> (k in t <==> k in table) && (k in t ==> t[k] == table[k]))
      && match LastUnregistered(table, hashes)
         case None => id !in t
         case Some(h) => id in t && t[id] == HashOf(h)
    decreases |hashes|
  {
    if |hashes| > 0 {
      var init := hashes[..|hashes| - 1];
      var last := hashes[|hashes| - 1];
      RegisterAllKeepsLastHash(table, id, init);
      assert forall i :: 0 <= i < |init| ==> init[i] == hashes[i];
      var t0 := RegisterAll(table, id, init);
      assert last in t0 <==> last in table by {
        assert last != id;
      }
    }
  }

  /**
   * An `ack` for request `id`: the table afterwards and the subscription
   * whose callback runs. An id that is not a key is ignored. Otherwise the
   * id's entry is deleted, and the callback runs when the id maps to a hash
   * whose registered subscription has one.
   */
  function OnAck(table: Table, id: string): (r: (Table, Option<Subscription>))
    ensures id !in table ==> r.0 == table && r.1.None?
    ensures r.0.Keys == table.Keys - {id}
    ensures forall k :: k in r.0 ==> r.0[k] == table[k]
    ensures r.1.Some? ==>
      && id in table && table[id].HashOf? && table[id].hash in table
      && table[table[id].hash] == Registered(r.1.value) && r.1.value.callback.Some?
    ensures (&& id in table && table[id].HashOf? && table[id].hash in table && table[table[id].hash].Registered?
             && table[table[id].hash].subscription.callback.Some?)
      ==> r.1 == Some(table[table[id].hash].subscription)
  {
    if id !in table then (table, None)
    else
      var sub :=
        match table[id]
        case HashOf(h) =>
          if h in table && table[h].Registered? then Some(table[h].subscription) else None
        case Registered(_) => None;
      (table - {id}, if sub.Some? && sub.value.callback.Some? then sub else None)
  }

  /** A second `ack` for the same id is ignored, so a subscription's callback runs at most once per request. */
  lemma SecondAckIgnored(table: Table, id: string)
    ensures var (t, _) := OnAck(table, id);
      OnAck(t, id) == (t, None)
  {
  }
}
