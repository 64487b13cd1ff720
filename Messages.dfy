/** A chat message as the clients create it and the server broadcasts it. */
module Messages {
  /** The range of Java's `long`, the type of the send time. */
  type Long = x: int | -0x8000_0000_0000_0000 <= x < 0x8000_0000_0000_0000

  /**
   * One message: the author's user name, the client's clock reading in milliseconds
   * since the epoch, and the text. Nothing reassigns a field after construction.
   * The author is kept as the name itself: the message travels by copy over the
   * object streams, so every receiver sees the name as it was when the message was built.
   */
  datatype UserMessage = UserMessage(author: string, time: Long, body: string)
  {
    function GetUsername(): string { author }

    function GetTime(): Long { time }

    function GetMessage(): string { body }

    /** A message prints as its body alone. */
    function ToString(): string { GetMessage() }
  }

  /** The constructor keeps its three arguments and the getters hand them back unchanged. */
  lemma Accessors(user: string, time: Long, body: string)
    ensures var m := UserMessage(user, time, body);
      && m.GetUsername() == user
      && m.GetTime() == time
      && m.GetMessage() == body
      && m.ToString() == body
  {
  }
}
