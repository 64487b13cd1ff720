/**
 * The typed requests exchanged over a connection's object streams: a request type
 * paired with a payload (a user, a text, or a chat message).
 */
module Requests {
  import opened Messages
  import opened Protocol

  datatype RequestType =
    | Login | LoginSuccess | InvalidUsername | UserAlreadyExists
    | Error | SendMessage | MessageSent | ChatRoomText

  /** What a request carries: the logging-in user's name, a text, or a chat message. */
  datatype Payload = Account(name: string) | Text(text: string) | Chat(message: UserMessage)

  datatype MessageRequest = MessageRequest(kind: RequestType, data: Payload)

  /**
   * One successful read from an object input stream: a request, or an object of a
   * class the reader does not know. A failing read (the stream closed or broke) is the
   * end of the sequence of reads.
   */
  datatype Incoming = Arrived(request: MessageRequest) | UnknownClass

  const LoginSuccessReply := MessageRequest(LoginSuccess, Text(LoginSuccessCode))
  const InvalidUsernameReply := MessageRequest(InvalidUsername, Text(InvalidUsernameCode))
  const UserAlreadyExistsReply := MessageRequest(UserAlreadyExists, Text(UserAlreadyExistsCode))

  /** The transcript snapshot that follows a successful login. */
  function Snapshot(transcript: string): MessageRequest
  {
    MessageRequest(ChatRoomText, Text(transcript))
  }

  /** The broadcast notification for one chat message. */
  function Sent(m: UserMessage): MessageRequest
  {
    MessageRequest(MessageSent, Chat(m))
  }

  function Sents(ms: seq<UserMessage>): seq<MessageRequest>
  {
    seq(|ms|, i requires 0 <= i < |ms| => Sent(ms[i]))
  }

  /** A sequence of requests as the reader at the other end receives them. */
  function Arrivals(reqs: seq<MessageRequest>): seq<Incoming>
  {
    seq(|reqs|, i requires 0 <= i < |reqs| => Arrived(reqs[i]))
  }
}
