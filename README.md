# PubNub subscription demo: status relay, subscribe listener and request checks

This project models the core of `app/controllers/PubNubSubscription.java`, a
Play controller that connects to a PubNub transport. The model covers four parts:

- **Status relay** (`StatusRelay`). `StatusListener.status` classifies every status report
  `(operation, category)` as `"subscribed"`, `"unsubscribed"` or `"UNDEFINED"`.
  It publishes that string once to the session channel `"status-" + appKey`.
  The trace function `Relay` says what the relay publishes over a whole run of callbacks.
- **Subscribe listener** (`Listener`). This is the per-request `SubscribeListener`: a class
  with two bounded FIFO buffers of capacity 128, one for messages and one for presence
  events, and a record of the notifications fired. Status reports are routed to the
  "connected" and "unsubscribed" notifications by `isSubscribedEvent` and
  `isUnsubscribedEvent`. The waits on those notifications are modelled through the monitor
  each one synchronizes on.
- **Request validation** (`Controller`). `publishSync`, `AddChannel` and `RemoveChannel` are
  modelled as functions. Each returns its response together with the transport calls it
  makes. An empty channel list gives `BadRequest("Channel missing")` and no call.
- **Listener lifecycle** (`Controller.PubNubSubscription`). The constructor registers the
  status relay once. `Listen` registers a fresh listener and removes it on both the success
  path and the interrupted path.

Blocking is modelled sequentially. `ArrayBlockingQueue.put` on a full buffer waits until a
`take` frees a slot. `take` on an empty buffer waits until a `put` supplies an item. Either
call fails if the thread is interrupted. The model makes a call only once room (resp. an
item) exists, which stands for the blocked call completing later, or else with an
interruption. So the callbacks and waits take an `interruption: Option<string>`, and they
require "not full" (resp. "non-empty") only when no interruption is given. `put` and `take`
acquire their lock interruptibly, so an interrupted call fails even when space or an item
is there. `message`/`presence` swallow that failure, and the item is dropped.

The transport (PubNub SDK) is foreign. Its answers are inputs to the model: the publish
timetoken or error, the channel list it reports, and the message it delivers to a fresh
listener.

## Model

| member | source | states |
|---|---|---|
| `StatusRelay.Classify` | app/controllers/PubNubSubscription.java:157-165 | "subscribed" iff (subscribe operation, connected category); "unsubscribed" iff (unsubscribe operation, acknowledgment category); "UNDEFINED" iff neither |
| `StatusRelay.ClassifyExhaustive` | app/controllers/PubNubSubscription.java:157-165 | every classification is one of the three strings, and the three are distinct |
| `StatusRelay.StatusChannel` | app/controllers/PubNubSubscription.java:168 | the status channel is the prefix "status-" followed by exactly the session key |
| `StatusRelay.StatusChannelKeyOfStatusChannel` | app/controllers/PubNubSubscription.java:168 | the session key can be read back from its status channel |
| `StatusRelay.StatusChannelOfStatusChannelKey` | app/controllers/PubNubSubscription.java:168 | any channel that reads back as a key is that key's status channel |
| `StatusRelay.StatusChannelInjective` | app/controllers/PubNubSubscription.java:30-168 | sessions with different keys have different status channels |
| `StatusRelay.StatusListener.constructor` | app/controllers/PubNubSubscription.java:40 | the relay listener records the session key it is created with |
| `StatusRelay.StatusListener.OnStatus` | app/controllers/PubNubSubscription.java:156-171 | the relay callback's one publish goes to this listener's session status channel, carries the report's classification, and is the relay's publication for that report |
| `StatusRelay.StatusPublication` | app/controllers/PubNubSubscription.java:156-171 | one status report yields one publish: it goes to the session's status channel, its text is one of the three strings, and the text is "subscribed"/"unsubscribed" exactly for the matching pair |
| `StatusRelay.Relay` | app/controllers/PubNubSubscription.java:156-171 | over a run of status callbacks the relay publishes exactly one classification per report, in delivery order |
| `StatusRelay.RelayAppend` | app/controllers/PubNubSubscription.java:156-171 | relaying two batches of reports is relaying each batch, one after the other |
| `StatusRelay.RelayStaysOnStatusChannel` | app/controllers/PubNubSubscription.java:167-168 | every publication of a relayed run goes to the session's status channel and carries its report's classification |
| `Listener.Route` | app/controllers/PubNubSubscription.java:192-250 | connected fires iff the category is connected, whatever the operation; unsubscribed fires iff (acknowledgment, unsubscribe); nothing fires otherwise; at most one fires per report |
| `Listener.IsSubscribedEvent` | app/controllers/PubNubSubscription.java:243-245 | every report the relay calls "subscribed" counts as subscribed, and no report counts as both subscribed and unsubscribed |
| `Listener.IsUnsubscribedEvent` | app/controllers/PubNubSubscription.java:247-250 | a report counts as unsubscribed iff the relay calls it "unsubscribed" |
| `Listener.NotifiedMonitor` | app/controllers/PubNubSubscription.java:194-199 | the connected notification is fired on the connected monitor, the unsubscribed one on the unsubscribed monitor |
| `Listener.WaitMonitorAsWritten` | app/controllers/PubNubSubscription.java:223-233 | as written: both waiters wait on the monitor the connected notification is fired on |
| `Listener.RouteCoversRelaySubscribed` | app/controllers/PubNubSubscription.java:159-245 | every report the relay calls "subscribed" fires the connected notification |
| `Listener.RouteAgreesOnUnsubscribed` | app/controllers/PubNubSubscription.java:162-250 | the unsubscribed notification fires exactly for the reports the relay calls "unsubscribed" |
| `Listener.RouteIgnoresOperation` | app/controllers/PubNubSubscription.java:243-245 | a connected-category report with an operation other than subscribe fires connected, though the relay calls it "UNDEFINED" |
| `Listener.UnsubscribeWaiterWokenByConnect` | app/controllers/PubNubSubscription.java:223-233 | as written, both waits use the connected monitor, so the unsubscribe waiter is woken by the connected notification (fired by (subscribe, connected)) and not by the unsubscribed one |
| `Listener.WaitMonitor` | app/controllers/PubNubSubscription.java:223-233 | corrected: each waiter waits on the monitor its own notification is fired on |
| `Listener.WaitMonitorsDistinct` | app/controllers/PubNubSubscription.java:223-233 | corrected: the connect and unsubscribe waiters wait on different monitors |
| `Listener.WakesOnlyOnAwaited` | app/controllers/PubNubSubscription.java:194-233 | corrected: a notification wakes a waiter iff it is that waiter's own notification |
| `Listener.UnsubscribeWaiterReleasedByUnsubscribed` | app/controllers/PubNubSubscription.java:197-232 | corrected: the unsubscribe waiter is released exactly by the reports the relay calls "unsubscribed" |
| `Listener.SubscribeListener.constructor` | app/controllers/PubNubSubscription.java:185-189 | a new listener has both buffers empty and no notification fired |
| `Listener.SubscribeListener.Released` | app/controllers/PubNubSubscription.java:223-233 | corrected: a waiter that began after the first `since` notifications is released iff a later notification is fired on its own monitor |
| `Listener.SubscribeListener.ReleasedAsWritten` | app/controllers/PubNubSubscription.java:223-233 | as written: the same, with both waiters waiting on the connected monitor |
| `Listener.SubscribeListener.OnStatus` | app/controllers/PubNubSubscription.java:192-202 | appends the routed notification, if any, and leaves both buffers unchanged; as written, a waiter of either kind that began before the call is released iff the connected notification fired; corrected, iff that waiter's own notification fired |
| `Listener.SubscribeListener.OnMessage` | app/controllers/PubNubSubscription.java:205-212 | appends the message when not full; an interrupted put drops it; the presence buffer and notifications are unchanged; both buffers stay within 128 |
| `Listener.SubscribeListener.OnPresence` | app/controllers/PubNubSubscription.java:215-221 | appends the presence event when not full; an interrupted put drops it; the message buffer and notifications are unchanged |
| `Listener.SubscribeListener.WaitForMessage` | app/controllers/PubNubSubscription.java:235-237 | returns the oldest message and removes exactly it; an interrupted wait fails and removes nothing; the presence buffer is unchanged |
| `Listener.SubscribeListener.WaitForPresence` | app/controllers/PubNubSubscription.java:239-241 | returns the oldest presence event and removes exactly it; an interrupted wait fails and removes nothing; the message buffer is unchanged |
| `Listener.FifoScenario` | app/controllers/PubNubSubscription.java:186-240 | three messages delivered in order, interleaved with a presence event and a status report, come back from three waits in that order, and the presence event comes back from its own wait |
| `Controller.PublishSync` | app/controllers/PubNubSubscription.java:44-61 | bad request "Channel missing" iff the channel list is empty, and then no transport call; otherwise one publish of "hey" to the first channel, answered by its timetoken or by a server error with the transport's text |
| `Controller.AddChannel` | app/controllers/PubNubSubscription.java:114-130 | bad request "Channel missing" iff the list is empty, and then no transport call; otherwise subscribe to all of the channels, then report the transport's channel list |
| `Controller.RemoveChannel` | app/controllers/PubNubSubscription.java:135-151 | bad request "Channel missing" iff the list is empty, and then no transport call; otherwise unsubscribe from all of the channels, then report the transport's channel list |
| `Controller.EmptyRequestsAreRejected` | app/controllers/PubNubSubscription.java:48-142 | all three handlers answer an empty request the same way, whatever the transport would have answered |
| `Controller.PubNubClient.AddListener` | app/controllers/PubNubSubscription.java:84 | registering adds the listener to the registered set and records one add |
| `Controller.PubNubClient.RemoveListener` | app/controllers/PubNubSubscription.java:94 | deregistering removes the listener from the registered set and records one remove |
| `Controller.PubNubSubscription.constructor` | app/controllers/PubNubSubscription.java:32-42 | a new session has exactly its status relay registered, registered once |
| `Controller.PubNubSubscription.Listen` | app/controllers/PubNubSubscription.java:81-96 | a fresh, previously unregistered listener is added once and removed once; the registered set, status relay included, is left exactly as it was on both the success path and the interrupted path; an interruption gives a server error with its text |

## Left out

- Threads, `synchronized`, `wait`/`notifyAll` and interleaving are not modelled. Blocking is a precondition or an interruption input, and a notification is a record in `notified`.
- The two monitor fields hold `Boolean.FALSE`, so in the JVM they are the same object. Every `notifyAll` then wakes both kinds of waiter. The model treats the two fields as distinct monitors.
- The interruption text is a free input. The `InterruptedException` thrown by a blocked `take` carries no message, so `e.getMessage()` in `listen` is `null`. The model's `Option<string>` text over-generalises this.
- Spurious wake-ups and notifications lost before a wait begins are not modelled.
- PubNub SDK calls are foreign: `publish().sync()`, `subscribe().execute()`, `unsubscribe().execute()`, `getSubscribedChannels()`. They are modelled as `Call` values, and their answers are inputs. The handlers promise nothing about the channel lists they return, so the model claims nothing about them either.
- The SDK's listener registry is modelled as a set of objects. The SDK keeps a list. Because the listener added by `Listen` is always fresh, the set and the list agree here.
- The configuration keys and the session key generation with `UUID.randomUUID()` are left out. The session key is an opaque string.
- Play request parsing, JSON building and status codes are reduced to `Response` values. A request without a `channel` parameter makes the source dereference `null`, because the query map has no entry. The model starts from the channel list.
- `Controller.PublishSync` keeps the publish timetoken as an integer. The source sends it through `toString()`.
- `Controller.PubNubSubscription.Listen` answers a successful wait with an empty `Ok` body, as the source does. The message text it puts in `result` is never returned.
- The `index` and `appKey` endpoints only pass through what the transport or the configuration gives. The `publishAsync` stubs only answer 501. None of them are modelled.
- The status relay swallows a failed publish, and logging (`printStackTrace`, `System.out`) is left out. The relay's observable behaviour is the same whatever the publish outcome, so the model only states the publish it attempts.

## Findings

| source | as written | input that shows it | evidently intended | confidence | as-written member | corrected member |
|---|---|---|---|---|---|---|
| app/controllers/PubNubSubscription.java:229-232 | `waitForUnsubscribe` synchronizes and waits on the `connected` field, the same monitor as `waitForConnect` | status report (subscribe operation, connected category): it fires the connected notification, which releases an unsubscribe waiter; (unsubscribe operation, acknowledgment category) fires the unsubscribed notification, which does not (treating the two fields as distinct monitors) | `waitForUnsubscribe` waits on `unsubscribed`, so it is released by the unsubscribed notification only | high that the code is as described; the defect is latent, because neither `waitForConnect` nor `waitForUnsubscribe` has a caller in the file (only `waitForMessage` is called, by `listen`), and both fields hold `Boolean.FALSE`, so in the JVM every notification wakes both waiters anyway; not executed | `Listener.UnsubscribeWaiterWokenByConnect` | `Listener.WaitMonitor` |
