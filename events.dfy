/**
 * The values the pub/sub transport hands to a registered listener:
 * status reports, inbound messages and presence events.
 */
module Events {

  /** The kind of request a status report is about. The core only tells
      subscribe and unsubscribe apart; every other kind is an opaque tag. */
  datatype Operation =
    | SubscribeOperation
    | UnsubscribeOperation
    | OtherOperation(name: string)

  /** The category of a status report. The core only tests for "connected"
      and "acknowledgment"; every other category is an opaque tag. */
  datatype Category =
    | ConnectedCategory
    | AcknowledgmentCategory
    | OtherCategory(name: string)

  /** A status report: the pair (operation, category). */
  datatype Status = Status(operation: Operation, category: Category)

  /** An inbound message; the payload is opaque to the core. */
  datatype Message = Message(channel: string, payload: string, timetoken: int)

  /** A presence event, on a stream separate from messages. */
  datatype PresenceEvent = PresenceEvent(channel: string, action: string, uuid: string)

  /** The failure of a blocking wait: the calling thread was interrupted;
      `message` is the text the interruption carried. */
  datatype WaitError = Interrupted(message: string)
}
