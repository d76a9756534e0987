/** The values that the services exchange: messages, event bodies and envelopes.
    Encoding is not modelled: an envelope stands for the bytes that carry it. */
module Events {

  type Id = string

  datatype Option<+T> = None | Some(value: T)

  /** The immutable columns of a message row; the deletion mark is kept beside it. */
  datatype Message = Message(
    id: Id,
    conv: Id,
    sender: Id,
    sequence: int,
    kind: string,
    content: string,
    metadata: string,
    sentAt: int)

  datatype Body =
    | MessageSent(message: Message)
    | MessageDeleted(deletedIn: Id, messageId: Id)
    | ReadReceiptUpdated(readIn: Id, reader: Id, readSequence: int)
    | MembershipChanged(changedIn: Id, user: Id, added: bool)
    | ConversationCreated(created: Id, participants: seq<Id>)

  datatype Envelope = Envelope(body: Body, occurredAt: int)

  /** The conversation that an event belongs to. */
  function ConversationOf(b: Body): Id {
    match b
    case MessageSent(m) => m.conv
    case MessageDeleted(c, _) => c
    case ReadReceiptUpdated(c, _, _) => c
    case MembershipChanged(c, _, _) => c
    case ConversationCreated(c, _) => c
  }

  /** The sequence number that the flush sorts by; 0 for everything that is not a sent message. */
  function SequenceOf(e: Envelope): int {
    if e.body.MessageSent? then e.body.message.sequence else 0
  }

  function SetOf<T>(s: seq<T>): set<T> {
    set x | x in s
  }
}
