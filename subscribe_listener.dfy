/**
 * The per-request subscribe listener: two bounded FIFO buffers, one for
 * messages and one for presence events, fed by the transport's callbacks
 * and drained by blocking waits, plus the routing of status reports to the
 * "connected" and "unsubscribed" notifications.
 *
 * Blocking is modelled sequentially. A put on a full buffer waits until a take
 * frees a slot, and a take on an empty buffer waits until a put supplies an
 * item, or either fails when the thread is interrupted. The model makes a
 * call only once room (resp. an item) exists, which stands for the blocked
 * call completing later, or else with an interruption: the methods require
 * "not full" (resp. "non-empty") unless an interruption is given.
 */
module Listener {
  import opened Events
  import opened Wrappers
  import StatusRelay

  /** The capacity of each of the two buffers. */
  const Capacity: nat := 128

  /** The two notifications a status report can fire. */
  datatype Notification = NotifyConnected | NotifyUnsubscribed

  /** A status report counts as "unsubscribed" on both its category and its
      operation: exactly the reports the relay calls "unsubscribed". */
  function IsUnsubscribedEvent(s: Status): (b: bool)
    ensures b <==> StatusRelay.Classify(s) == StatusRelay.Unsubscribed
  {
    s.category == AcknowledgmentCategory && s.operation == UnsubscribeOperation
  }

  /** A status report counts as "subscribed" on its category alone: every
      report the relay calls "subscribed" does, and none that counts as
      "unsubscribed" does. */
  function IsSubscribedEvent(s: Status): (b: bool)
    ensures StatusRelay.Classify(s) == StatusRelay.Subscribed ==> b
    ensures b ==> !IsUnsubscribedEvent(s)
  {
    s.category == ConnectedCategory
  }

  /** The notification a status report fires, if any; connected is tested first. */
  function Route(s: Status): (n: Option<Notification>)
    ensures n == Some(NotifyConnected) <==> s.category == ConnectedCategory
    ensures n == Some(NotifyUnsubscribed) <==>
      s.category == AcknowledgmentCategory && s.operation == UnsubscribeOperation
    ensures n == None <==>
      s.category != ConnectedCategory &&
      !(s.category == AcknowledgmentCategory && s.operation == UnsubscribeOperation)
  {
    if IsSubscribedEvent(s) then Some(NotifyConnected)
    else if IsUnsubscribedEvent(s) then Some(NotifyUnsubscribed)
    else None
  }

  /** Whatever the relay calls "subscribed" fires the connected notification. */
  lemma RouteCoversRelaySubscribed(s: Status)
    requires StatusRelay.Classify(s) == StatusRelay.Subscribed
    ensures Route(s) == Some(NotifyConnected)
  {
  }

  /** The unsubscribed notification fires exactly for what the relay calls "unsubscribed". */
  lemma RouteAgreesOnUnsubscribed(s: Status)
    ensures Route(s) == Some(NotifyUnsubscribed) <==>
      StatusRelay.Classify(s) == StatusRelay.Unsubscribed
  {
  }

  /** The connected notification ignores the operation: an unsubscribe
      report with the connected category fires it, though the relay
      classifies that report as "UNDEFINED". */
  lemma RouteIgnoresOperation(op: Operation)
    requires op != SubscribeOperation
    ensures Route(Status(op, ConnectedCategory)) == Some(NotifyConnected)
    ensures StatusRelay.Classify(Status(op, ConnectedCategory)) == StatusRelay.Undefined
  {
  }

  /** The monitor a notification or a wait synchronizes on, named by the
      listener field it goes through. */
  datatype Monitor = ConnectedMonitor | UnsubscribedMonitor

  /** The two kinds of signal waiter. */
  datatype Waiter = ConnectWaiter | UnsubscribeWaiter

  /** The monitor each notification is fired on. */
  function NotifiedMonitor(n: Notification): Monitor
  {
    match n
    case NotifyConnected => ConnectedMonitor
    case NotifyUnsubscribed => UnsubscribedMonitor
  }

  /** The notification each waiter is meant to be released by. */
  function Awaited(w: Waiter): Notification
  {
    match w
    case ConnectWaiter => NotifyConnected
    case UnsubscribeWaiter => NotifyUnsubscribed
  }

  /** The monitor each waiter waits on, as the source has it: both waits
      synchronize on the connected field. */
  function WaitMonitorAsWritten(w: Waiter): (m: Monitor)
    ensures m == NotifiedMonitor(NotifyConnected)
  {
    match w
    case ConnectWaiter => ConnectedMonitor
    case UnsubscribeWaiter => ConnectedMonitor
  }

  /** As written, both waiters wait on the same monitor, so the unsubscribe
      waiter is released by the connected notification and not by the
      unsubscribed one. */
  lemma UnsubscribeWaiterWokenByConnect()
    ensures WaitMonitorAsWritten(UnsubscribeWaiter) == WaitMonitorAsWritten(ConnectWaiter)
    ensures WaitMonitorAsWritten(UnsubscribeWaiter) == NotifiedMonitor(NotifyConnected)
    ensures WaitMonitorAsWritten(UnsubscribeWaiter) != NotifiedMonitor(NotifyUnsubscribed)
    ensures Route(Status(SubscribeOperation, ConnectedCategory)) == Some(NotifyConnected)
    ensures Route(Status(UnsubscribeOperation, AcknowledgmentCategory)) == Some(NotifyUnsubscribed)
  {
  }

  /** The monitor each waiter waits on, corrected: each waiter waits on the
      monitor its own notification is fired on. */
  function WaitMonitor(w: Waiter): (m: Monitor)
    ensures m == NotifiedMonitor(Awaited(w))
  {
    match w
    case ConnectWaiter => ConnectedMonitor
    case UnsubscribeWaiter => UnsubscribedMonitor
  }

  /** With the corrected monitors the two waiters wait on different monitors. */
  lemma WaitMonitorsDistinct()
    ensures WaitMonitor(ConnectWaiter) != WaitMonitor(UnsubscribeWaiter)
  {
  }

  /** Whether a notification wakes a waiter (corrected monitors). */
  predicate Wakes(w: Waiter, n: Notification)
  {
    WaitMonitor(w) == NotifiedMonitor(n)
  }

  /** Whether a notification wakes a waiter, with the monitors as written. */
  predicate WakesAsWritten(w: Waiter, n: Notification)
  {
    WaitMonitorAsWritten(w) == NotifiedMonitor(n)
  }

  /** With the corrected monitors a waiter is woken by its own notification and no other. */
  lemma WakesOnlyOnAwaited(w: Waiter, n: Notification)
    ensures Wakes(w, n) <==> n == Awaited(w)
  {
  }

  /** With the corrected monitors, the unsubscribe waiter is released exactly
      by the status reports the relay calls "unsubscribed". */
  lemma UnsubscribeWaiterReleasedByUnsubscribed(s: Status)
    ensures (Route(s).Some? && Wakes(UnsubscribeWaiter, Route(s).value)) <==>
      StatusRelay.Classify(s) == StatusRelay.Unsubscribed
  {
  }

  /** A listener created for one request. */
  class SubscribeListener {
    /** The message buffer, oldest first. */
    var messages: seq<Message>
    /** The presence buffer, oldest first. */
    var presences: seq<PresenceEvent>
    /** The notifications fired so far, in order. */
    var notified: seq<Notification>

    /** Both buffers stay within their capacity. */
    ghost predicate Valid()
      reads this
    {
      |messages| <= Capacity && |presences| <= Capacity
    }

    /** Whether a waiter that began waiting after the first `since`
        notifications has been released by a later one (corrected monitors). */
    ghost predicate Released(w: Waiter, since: nat)
      reads this
    {
      exists i :: since <= i < |notified| && Wakes(w, notified[i])
    }

    /** The same, with the monitors as written: both waiters are released
        by a later connected notification. */
    ghost predicate ReleasedAsWritten(w: Waiter, since: nat)
      reads this
    {
      exists i :: since <= i < |notified| && WakesAsWritten(w, notified[i])
    }

    constructor ()
      ensures Valid()
      ensures messages == [] && presences == [] && notified == []
    {
      messages, presences, notified := [], [], [];
    }

    /** The status callback: fires at most one notification and leaves both
        buffers alone. As written, a waiter of either kind that began before
        the call is released by it exactly when the report fires the
        connected notification; corrected, exactly when the report fires
        that waiter's own notification. */
    method OnStatus(s: Status)
      requires Valid()
      modifies this
      ensures Valid()
      ensures messages == old(messages) && presences == old(presences)
      ensures notified == old(notified) + (if Route(s).Some? then [Route(s).value] else [])
      ensures forall w :: ReleasedAsWritten(w, old(|notified|)) <==> Route(s) == Some(NotifyConnected)
      ensures forall w :: Released(w, old(|notified|)) <==> Route(s) == Some(Awaited(w))
    {
      var n := Route(s);
      if n.Some? {
        notified := notified + [n.value];
        assert notified[|notified| - 1] == n.value;
      }
      forall w
        ensures Released(w, old(|notified|)) <==> Route(s) == Some(Awaited(w))
      {
        if n.Some? {
          WakesOnlyOnAwaited(w, n.value);
        }
      }
      forall w
        ensures ReleasedAsWritten(w, old(|notified|)) <==> Route(s) == Some(NotifyConnected)
      {
        if n.Some? {
          assert WakesAsWritten(w, n.value) <==> n.value == NotifyConnected;
        }
      }
    }

    /** The message callback: appends the message to the message buffer; an
        interrupted put fails, is swallowed, and drops the message. */
    method OnMessage(m: Message, interruption: Option<string>)
      requires Valid()
      requires interruption.Some? || |messages| < Capacity
      modifies this
      ensures Valid()
      ensures messages == if interruption.Some? then old(messages) else old(messages) + [m]
      ensures presences == old(presences) && notified == old(notified)
    {
      if interruption.None? {
        messages := messages + [m];
      }
    }

    /** The presence callback: the same on the presence buffer. */
    method OnPresence(p: PresenceEvent, interruption: Option<string>)
      requires Valid()
      requires interruption.Some? || |presences| < Capacity
      modifies this
      ensures Valid()
      ensures presences == if interruption.Some? then old(presences) else old(presences) + [p]
      ensures messages == old(messages) && notified == old(notified)
    {
      if interruption.None? {
        presences := presences + [p];
      }
    }

    /** Takes the oldest buffered message; an interrupted wait fails and
        takes nothing. */
    method WaitForMessage(interruption: Option<string>) returns (r: Result<Message, WaitError>)
      requires Valid()
      requires interruption.Some? || |messages| > 0
      modifies this
      ensures Valid()
      ensures interruption.Some? ==>
        r == Failure(Interrupted(interruption.value)) && messages == old(messages)
      ensures interruption.None? ==>
        r == Success(old(messages)[0]) && messages == old(messages)[1..]
      ensures presences == old(presences) && notified == old(notified)
    {
      if interruption.Some? {
        r := Failure(Interrupted(interruption.value));
      } else {
        r := Success(messages[0]);
        messages := messages[1..];
      }
    }

    /** Takes the oldest buffered presence event; the same on the presence buffer. */
    method WaitForPresence(interruption: Option<string>) returns (r: Result<PresenceEvent, WaitError>)
      requires Valid()
      requires interruption.Some? || |presences| > 0
      modifies this
      ensures Valid()
      ensures interruption.Some? ==>
        r == Failure(Interrupted(interruption.value)) && presences == old(presences)
      ensures interruption.None? ==>
        r == Success(old(presences)[0]) && presences == old(presences)[1..]
      ensures messages == old(messages) && notified == old(notified)
    {
      if interruption.Some? {
        r := Failure(Interrupted(interruption.value));
      } else {
        r := Success(presences[0]);
        presences := presences[1..];
      }
    }
  }

  /** A client of a fresh listener: three messages delivered in order, with a
      presence event and status reports in between, come back from three
      waits in the same order, and the presence event from its own wait. */
  method FifoScenario(m1: Message, m2: Message, m3: Message, e: PresenceEvent, s: Status)
    returns (a: Message, b: Message, c: Message, p: PresenceEvent)
    ensures a == m1 && b == m2 && c == m3 && p == e
  {
    var l := new SubscribeListener();
    l.OnMessage(m1, None);
    l.OnPresence(e, None);
    l.OnMessage(m2, None);
    l.OnStatus(s);
    var r1 := l.WaitForMessage(None);
    l.OnMessage(m3, None);
    var r2 := l.WaitForMessage(None);
    var r3 := l.WaitForMessage(None);
    var q := l.WaitForPresence(None);
    a, b, c, p := r1.value, r2.value, r3.value, q.value;
  }
}
