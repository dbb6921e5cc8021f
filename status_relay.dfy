/**
 * The status relay: a listener registered once per session that turns every
 * status report into one of three classification strings and publishes it
 * on the session's status channel, "status-" followed by the session key.
 */
module StatusRelay {
  import opened Events
  import opened Wrappers

  const Subscribed: string := "subscribed"
  const Unsubscribed: string := "unsubscribed"
  const Undefined: string := "UNDEFINED"

  /** The prefix of every session status channel. */
  const StatusPrefix: string := "status-"

  /** A publish request the relay hands to the transport. */
  datatype Publication = Publication(channel: string, message: string)

  /** The relay as a registered listener object; it keeps no state beyond
      the session key it publishes under. */
  class StatusListener {
    const appKey: string

    constructor (appKey: string)
      ensures this.appKey == appKey
    {
      this.appKey := appKey;
    }

    /** The status callback: the one publish it attempts goes to this
        listener's session status channel and carries the report's
        classification. */
    function OnStatus(s: Status): (p: Publication)
      ensures StatusChannelKey(p.channel) == Some(appKey)
      ensures p.message == Classify(s)
      ensures p == StatusPublication(appKey, s)
    {
      StatusPublication(appKey, s)
    }
  }

  /** The classification of a status report: only (subscribe, connected) is
      "subscribed", only (unsubscribe, acknowledgment) is "unsubscribed", and
      every other pair is "UNDEFINED". */
  function Classify(s: Status): (event: string)
    ensures event == Subscribed <==>
      s.operation == SubscribeOperation && s.category == ConnectedCategory
    ensures event == Unsubscribed <==>
      s.operation == UnsubscribeOperation && s.category == AcknowledgmentCategory
    ensures event == Undefined <==>
      !(s.operation == SubscribeOperation && s.category == ConnectedCategory) &&
      !(s.operation == UnsubscribeOperation && s.category == AcknowledgmentCategory)
  {
    if s.operation == SubscribeOperation && s.category == ConnectedCategory then
      Subscribed
    else if s.operation == UnsubscribeOperation && s.category == AcknowledgmentCategory then
      Unsubscribed
    else
      Undefined
  }

  /** Every classification is exactly one of the three strings. */
  lemma ClassifyExhaustive(s: Status)
    ensures Classify(s) in {Subscribed, Unsubscribed, Undefined}
    ensures Subscribed != Unsubscribed && Subscribed != Undefined && Unsubscribed != Undefined
  {
  }

  /** The status channel of a session: the prefix followed by the key. */
  function StatusChannel(appKey: string): (channel: string)
    ensures |channel| == |StatusPrefix| + |appKey|
    ensures channel[..|StatusPrefix|] == StatusPrefix
    ensures channel[|StatusPrefix|..] == appKey
  {
    StatusPrefix + appKey
  }

  /** The session key a status channel belongs to, if it is one. */
  function StatusChannelKey(channel: string): Option<string>
  {
    if |channel| >= |StatusPrefix| && channel[..|StatusPrefix|] == StatusPrefix then
      Some(channel[|StatusPrefix|..])
    else
      None
  }

  /** The session key can be read back from its status channel. */
  lemma StatusChannelKeyOfStatusChannel(appKey: string)
    ensures StatusChannelKey(StatusChannel(appKey)) == Some(appKey)
  {
  }

  /** Every channel that names a session key is that session's channel. */
  lemma StatusChannelOfStatusChannelKey(channel: string, appKey: string)
    requires StatusChannelKey(channel) == Some(appKey)
    ensures StatusChannel(appKey) == channel
  {
    assert channel == channel[..|StatusPrefix|] + channel[|StatusPrefix|..];
  }

  /** Two sessions with different keys never share a status channel. */
  lemma StatusChannelInjective(a: string, b: string)
    requires StatusChannel(a) == StatusChannel(b)
    ensures a == b
  {
    StatusChannelKeyOfStatusChannel(a);
    StatusChannelKeyOfStatusChannel(b);
  }

  /** The one publish the relay attempts for a status report: the report's
      classification, sent to the status channel of this session. Whether
      the transport then accepts it makes no difference to the relay, which
      swallows a failed publish. */
  function StatusPublication(appKey: string, s: Status): (p: Publication)
    ensures StatusChannelKey(p.channel) == Some(appKey)
    ensures p.message == Subscribed <==>
      s.operation == SubscribeOperation && s.category == ConnectedCategory
    ensures p.message == Unsubscribed <==>
      s.operation == UnsubscribeOperation && s.category == AcknowledgmentCategory
    ensures p.message in {Subscribed, Unsubscribed, Undefined}
  {
    StatusChannelKeyOfStatusChannel(appKey);
    Publication(StatusChannel(appKey), Classify(s))
  }

  /** The publishes the relay attempts when the transport delivers the status
      reports `events` to it, one callback after another: exactly one per
      report, in delivery order, each to the session's status channel. */
  function Relay(appKey: string, events: seq<Status>): (pubs: seq<Publication>)
    ensures |pubs| == |events|
    ensures forall i :: 0 <= i < |events| ==> pubs[i] == StatusPublication(appKey, events[i])
  {
    if events == [] then [] else [StatusPublication(appKey, events[0])] + Relay(appKey, events[1..])
  }

  /** Status reports delivered in two batches are relayed as the two batches'
      publications one after the other. */
  lemma {:induction false} RelayAppend(appKey: string, a: seq<Status>, b: seq<Status>)
    ensures Relay(appKey, a + b) == Relay(appKey, a) + Relay(appKey, b)
  {
    var lhs, rhs := Relay(appKey, a + b), Relay(appKey, a) + Relay(appKey, b);
    assert |lhs| == |rhs|;
    forall i | 0 <= i < |lhs| ensures lhs[i] == rhs[i] {
      if i < |a| {
        assert (a + b)[i] == a[i];
      } else {
        assert (a + b)[i] == b[i - |a|];
      }
    }
  }

  /** Every publication of a relayed trace goes to the session's status
      channel and carries one of the three classification strings. */
  lemma RelayStaysOnStatusChannel(appKey: string, events: seq<Status>, i: nat)
    requires i < |events|
    ensures StatusChannelKey(Relay(appKey, events)[i].channel) == Some(appKey)
    ensures Relay(appKey, events)[i].message == Classify(events[i])
  {
  }
}
