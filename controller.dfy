/**
 * The session controller: request validation of the publish, add-channel
 * and remove-channel handlers, the session's construction (one status relay
 * registered for its lifetime) and the listen handler's registration of a
 * fresh subscribe listener, removed again on every exit path.
 *
 * The transport's publish, subscribe, unsubscribe and channel-list calls are
 * foreign: a handler is modelled as the response it gives together with the
 * list of transport calls it makes, and the transport's answers are inputs.
 */
module Controller {
  import opened Events
  import opened Wrappers
  import StatusRelay
  import Listener

  /** The error text of a request that names no channel. */
  const ChannelMissing: string := "Channel missing"

  /** The fixed payload the publish handler sends. */
  const PublishedPayload: string := "hey"

  /** The body of a successful response. */
  datatype Body =
    | EmptyBody
    | OriginalResult(timetoken: int)
    | SubscribedChannels(channels: seq<string>)

  /** An HTTP response; errors carry the text put under "message". */
  datatype Response =
    | Ok(body: Body)
    | BadRequest(message: string)
    | InternalServerError(message: string)

  /** A call a handler makes on the transport. */
  datatype Call =
    | Publish(channel: string, payload: string)
    | Subscribe(channels: seq<string>)
    | Unsubscribe(channels: seq<string>)
    | GetSubscribedChannels

  /** What a handler does: its response and the transport calls it made, in order. */
  datatype Handled = Handled(response: Response, calls: seq<Call>)

  /** The answer to a request without channels: a bad request, no transport call. */
  const Rejected: Handled := Handled(BadRequest(ChannelMissing), [])

  /** Publishes the fixed payload to the first requested channel; `outcome` is
      the transport's answer to that publish (a timetoken or an error text). */
  function PublishSync(channels: seq<string>, outcome: Result<int, string>): (h: Handled)
    ensures h.response == BadRequest(ChannelMissing) <==> channels == []
    ensures h.calls == [] <==> channels == []
    ensures channels != [] ==> h.calls == [Publish(channels[0], PublishedPayload)]
    ensures channels != [] && outcome.Success? ==> h.response == Ok(OriginalResult(outcome.value))
    ensures channels != [] && outcome.Failure? ==> h.response == InternalServerError(outcome.error)
  {
    if channels == [] then
      Rejected
    else
      var response := match outcome
        case Success(timetoken) => Ok(OriginalResult(timetoken))
        case Failure(message) => InternalServerError(message);
      Handled(response, [Publish(channels[0], PublishedPayload)])
  }

  /** Subscribes to all requested channels, then reports the channel list
      the transport gives back (`reported`), whatever it holds. */
  function AddChannel(channels: seq<string>, reported: seq<string>): (h: Handled)
    ensures h.response == BadRequest(ChannelMissing) <==> channels == []
    ensures h.calls == [] <==> channels == []
    ensures channels != [] ==>
      h.calls == [Subscribe(channels), GetSubscribedChannels] &&
      h.response == Ok(SubscribedChannels(reported))
  {
    if channels == [] then
      Rejected
    else
      Handled(Ok(SubscribedChannels(reported)), [Subscribe(channels), GetSubscribedChannels])
  }

  /** Unsubscribes from all requested channels, then reports the channel
      list the transport gives back. */
  function RemoveChannel(channels: seq<string>, reported: seq<string>): (h: Handled)
    ensures h.response == BadRequest(ChannelMissing) <==> channels == []
    ensures h.calls == [] <==> channels == []
    ensures channels != [] ==>
      h.calls == [Unsubscribe(channels), GetSubscribedChannels] &&
      h.response == Ok(SubscribedChannels(reported))
  {
    if channels == [] then
      Rejected
    else
      Handled(Ok(SubscribedChannels(reported)), [Unsubscribe(channels), GetSubscribedChannels])
  }

  /** No handler touches the transport for a request without channels,
      whatever the transport would have answered. */
  lemma EmptyRequestsAreRejected(outcome: Result<int, string>, reported: seq<string>)
    ensures PublishSync([], outcome) == Rejected
    ensures AddChannel([], reported) == Rejected
    ensures RemoveChannel([], reported) == Rejected
  {
  }

  /** A call on the transport's listener registry. */
  datatype RegistryCall = Added(listener: object) | Removed(listener: object)

  /** The transport's listener registry, as far as this core changes it. */
  class PubNubClient {
    /** The listeners callbacks are currently delivered to. */
    var listeners: set<object>
    /** Every registry call made so far, in order. */
    var registry: seq<RegistryCall>

    constructor ()
      ensures listeners == {} && registry == []
    {
      listeners, registry := {}, [];
    }

    method AddListener(l: object)
      modifies this
      ensures listeners == old(listeners) + {l}
      ensures registry == old(registry) + [Added(l)]
    {
      listeners := listeners + {l};
      registry := registry + [Added(l)];
    }

    method RemoveListener(l: object)
      modifies this
      ensures listeners == old(listeners) - {l}
      ensures registry == old(registry) + [Removed(l)]
    {
      listeners := listeners - {l};
      registry := registry + [Removed(l)];
    }
  }

  /** One session: its transport client, its key, and its status relay. */
  class PubNubSubscription {
    const client: PubNubClient
    const appKey: string
    const relay: StatusRelay.StatusListener

    /** The status relay stays registered for the session's lifetime. */
    ghost predicate Valid()
      reads this, client
    {
      relay in client.listeners
    }

    /** Creates the session and registers its status relay, once. */
    constructor (appKey: string)
      ensures Valid()
      ensures this.appKey == appKey && relay.appKey == appKey
      ensures fresh(client) && fresh(relay)
      ensures client.listeners == {relay} && client.registry == [Added(relay)]
    {
      var c := new PubNubClient();
      var r := new StatusRelay.StatusListener(appKey);
      c.AddListener(r);
      this.appKey := appKey;
      client := c;
      relay := r;
    }

    /** Waits for the first message on the subscribed channels. A fresh
        listener is registered; the transport may deliver `delivered` to it;
        the wait either takes that message or is interrupted; the listener
        is removed again on both paths, so the registered set is left as it
        was and the registry saw exactly one add and one remove of a listener
        that was not registered before. */
    method Listen(delivered: Option<Message>, interruption: Option<string>) returns (r: Response)
      requires Valid()
      requires interruption.Some? || delivered.Some?
      modifies client
      ensures Valid()
      ensures client.listeners == old(client.listeners)
      ensures |client.registry| == |old(client.registry)| + 2
      ensures client.registry[..|old(client.registry)|] == old(client.registry)
      ensures client.registry[|old(client.registry)|].Added?
      ensures client.registry[|old(client.registry)|].listener !in old(client.listeners)
      ensures client.registry[|old(client.registry)| + 1] ==
        Removed(client.registry[|old(client.registry)|].listener)
      ensures interruption.Some? ==> r == InternalServerError(interruption.value)
      ensures interruption.None? ==> r == Ok(EmptyBody)
    {
      var listener := new Listener.SubscribeListener();
      client.AddListener(listener);
      if delivered.Some? {
        listener.OnMessage(delivered.value, None);
      }
      var taken := listener.WaitForMessage(interruption);
      match taken {
        case Success(_) =>
          r := Ok(EmptyBody);
        case Failure(e) =>
          r := InternalServerError(e.message);
      }
      client.RemoveListener(listener);
    }
  }
}
