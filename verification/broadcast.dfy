/**
 * The broadcast hub (`BroadcastChannel`): a shared flow with no replay.
 * Each collector that is subscribed when a message is emitted receives it;
 * nothing is kept for collectors that subscribe later. Emission is modelled
 * sequentially: every subscriber owns a queue of the messages delivered to
 * it, and `Broadcast` appends to every queue that exists at that moment.
 */
module BroadcastChannel {

  type SessionId = nat

  /** The hub: one delivery queue per subscribed collector. */
  datatype Hub = Hub(queues: map<SessionId, seq<string>>, nextId: SessionId)

  /** Every subscriber's id was handed out before `nextId`. */
  predicate Valid(h: Hub) {
    forall k :: k in h.queues ==> k < h.nextId
  }

  /** The hub before anyone collects. */
  const EMPTY_HUB: Hub := Hub(map[], 0)

  /** A collector's subscription and the hub that now includes it. */
  datatype Subscription = Subscription(hub: Hub, id: SessionId)

  /** Start collecting: a fresh subscriber whose queue starts empty. */
  function Subscribe(h: Hub): (s: Subscription)
    requires Valid(h)
    ensures Valid(s.hub)
    ensures s.id !in h.queues && s.id in s.hub.queues && s.hub.queues[s.id] == []
    ensures forall k :: k in h.queues ==> k in s.hub.queues && s.hub.queues[k] == h.queues[k]
    ensures s.hub.queues.Keys == h.queues.Keys + {s.id}
  {
    Subscription(Hub(h.queues[h.nextId := []], h.nextId + 1), h.nextId)
  }

  /** Stop collecting: the subscriber and its queue go away. */
  function Unsubscribe(h: Hub, id: SessionId): (r: Hub)
    requires Valid(h)
    ensures Valid(r)
    ensures r.queues.Keys == h.queues.Keys - {id}
    ensures forall k :: k in r.queues ==> r.queues[k] == h.queues[k]
  {
    Hub(h.queues - {id}, h.nextId)
  }

  /**
   * `broadcast(message)`: the only way to publish. Every current subscriber
   * gets the message at the end of its queue; no one else is affected and
   * no copy is retained.
   */
  function Broadcast(h: Hub, message: string): (r: Hub)
    requires Valid(h)
    ensures Valid(r)
    ensures r.queues.Keys == h.queues.Keys && r.nextId == h.nextId
    ensures forall k :: k in h.queues ==> r.queues[k] == h.queues[k] + [message]
  {
    Hub(map k | k in h.queues :: h.queues[k] + [message], h.nextId)
  }

  /** Publishing several messages, one after another. */
  function BroadcastAll(h: Hub, messages: seq<string>): (r: Hub)
    requires Valid(h)
    ensures Valid(r)
    ensures r.queues.Keys == h.queues.Keys && r.nextId == h.nextId
    decreases |messages|
  {
    if |messages| == 0 then h else BroadcastAll(Broadcast(h, messages[0]), messages[1..])
  }

  /**
   * Every subscriber present throughout receives all the messages, in the
   * order they were published, after what it already had.
   */
  lemma {:induction false} BroadcastAllDeliversInOrder(h: Hub, messages: seq<string>)
    requires Valid(h)
    ensures forall k :: k in h.queues ==> BroadcastAll(h, messages).queues[k] == h.queues[k] + messages
    decreases |messages|
  {
    if |messages| > 0 {
      var h1 := Broadcast(h, messages[0]);
      BroadcastAllDeliversInOrder(h1, messages[1..]);
      forall k | k in h.queues
        ensures BroadcastAll(h, messages).queues[k] == h.queues[k] + messages
      {
        assert h.queues[k] + [messages[0]] + messages[1..] == h.queues[k] + messages;
      }
    }
  }

  /**
   * No replay: a subscriber that starts collecting after some messages were
   * published sees exactly the messages published after it subscribed.
   */
  lemma NoReplay(h: Hub, before: seq<string>, after: seq<string>)
    requires Valid(h)
    ensures var s := Subscribe(BroadcastAll(h, before));
            BroadcastAll(s.hub, after).queues[s.id] == after
  {
    var s := Subscribe(BroadcastAll(h, before));
    BroadcastAllDeliversInOrder(s.hub, after);
  }

  /** A broadcast nobody collects leaves nothing behind for later subscribers. */
  lemma BroadcastWithoutSubscribersRetainsNothing(h: Hub, message: string)
    requires Valid(h) && h.queues == map[]
    ensures Broadcast(h, message) == h
    ensures Subscribe(Broadcast(h, message)).hub.queues == map[h.nextId := []]
  {
  }

  /**
   * A subscriber that leaves does not keep the others from receiving:
   * everyone still subscribed gets the message.
   */
  lemma UnsubscribeDoesNotBlockOthers(h: Hub, gone: SessionId, message: string)
    requires Valid(h)
    ensures var r := Broadcast(Unsubscribe(h, gone), message);
            r.queues.Keys == h.queues.Keys - {gone}
            && forall k :: k in h.queues && k != gone ==> r.queues[k] == h.queues[k] + [message]
  {
  }

  /**
   * From a fresh hub, the first collector gets session 0 and, whatever was
   * published before it came, holds exactly what was published after.
   */
  lemma FirstCollectorOfEmptyHub(before: seq<string>, after: seq<string>)
    ensures Valid(EMPTY_HUB)
    ensures var s := Subscribe(BroadcastAll(EMPTY_HUB, before));
            s.id == 0 && BroadcastAll(s.hub, after).queues == map[0 := after]
  {
    var s := Subscribe(BroadcastAll(EMPTY_HUB, before));
    NoReplay(EMPTY_HUB, before, after);
    assert BroadcastAll(s.hub, after).queues.Keys == {0};
  }
}
