/**
 * The parts of the graphical client that carry logic: the shaping of a typed text
 * into a message body, and the reading of the login outcome from the chat room's text.
 */
module Gui {
  import opened Wrappers
  import opened Messages
  import opened Protocol
  import opened Accounts
  import opened Requests
  import opened Transcript
  import opened Client

  /** What sent the text: the Send button or the Enter key in the text area. */
  datatype Trigger = SendButton | EnterKey

  /** Texts longer than this are split over two lines. */
  const SplitThreshold: nat := 56

  /**
   * The body sent for a typed text: a long text has its middle split by a line break
   * (which takes the place of the character just before the middle), a short one gets
   * a trailing line break when the Send button sent it.
   */
  function MessageBody(text: string, via: Trigger): (body: string)
    ensures |text| > SplitThreshold ==>
      && |body| == |text|
      && body == text[|text| / 2 - 1 := '\n']
    ensures |text| <= SplitThreshold && via == SendButton ==> body == text + "\n"
    ensures |text| <= SplitThreshold && via == EnterKey ==> body == text
  {
    var n := |text|;
    if n > SplitThreshold then
      var first, second := text[..n / 2 - 1], "\n" + text[n / 2..n];
      assert first + second == text[n / 2 - 1 := '\n'] by {
        forall i | 0 <= i < n ensures (first + second)[i] == text[n / 2 - 1 := '\n'][i] {
          if i >= n / 2 {
            assert (first + second)[i] == second[i - |first|];
          }
        }
      }
      first + second
    else if via == SendButton then text + "\n"
    else text
  }

  /** The request the client sends for a typed text: SEND_MESSAGE with the user's name, the clock reading and the shaped body. */
  function Outgoing(author: string, now: Long, text: string, via: Trigger): MessageRequest
  {
    MessageRequest(SendMessage, Chat(UserMessage(author, now, MessageBody(text, via))))
  }

  /** The typed text survives in the sent body except for the one character a split replaces. */
  lemma BodyKeepsText(author: string, now: Long, text: string, via: Trigger)
    ensures var req := Outgoing(author, now, text, via);
      && req.kind == SendMessage && req.data.Chat?
      && req.data.message.GetUsername() == author && req.data.message.GetTime() == now
      && var body := req.data.message.GetMessage();
      && (|text| <= SplitThreshold ==> text <= body && |body| <= |text| + 1)
      && (|text| > SplitThreshold ==>
            && body[..|text| / 2 - 1] == text[..|text| / 2 - 1]
            && body[|text| / 2 - 1] == '\n'
            && body[|text| / 2..] == text[|text| / 2..])
  {
  }

  /** How the graphical client reads the chat room's text after a login. */
  datatype Verdict = ServerError | InvalidName | NameTaken | Entered

  function LoginVerdict(text: string): (v: Verdict)
    ensures v == ServerError <==> text == "ERROR"
    ensures v == InvalidName <==> text == "INVALID_USERNAME"
    ensures v == NameTaken <==> text == "USER_ALREADY_EXISTS"
    ensures v == Entered <==> text !in {ErrorCode, InvalidUsernameCode, UserAlreadyExistsCode}
  {
    if text == ErrorCode then ServerError
    else if text == InvalidUsernameCode then InvalidName
    else if text == UserAlreadyExistsCode then NameTaken
    else Entered
  }

  /** The server's refusals block entry to the chat view with the matching verdict. */
  lemma RefusalsBlockEntry(rest: seq<Incoming>)
    ensures Opening([Arrived(InvalidUsernameReply)] + rest).room == Some(InvalidUsernameCode)
    ensures Opening([Arrived(UserAlreadyExistsReply)] + rest).room == Some(UserAlreadyExistsCode)
    ensures LoginVerdict(InvalidUsernameCode) == InvalidName && LoginVerdict(UserAlreadyExistsCode) == NameTaken
  {
  }

  /** After a successful login any transcript that is not a reply code, the empty one included, enters the chat view. */
  lemma SuccessEnters(snapshot: string, rest: seq<Incoming>)
    requires snapshot !in {ErrorCode, InvalidUsernameCode, UserAlreadyExistsCode}
    ensures var o := Opening([Arrived(LoginSuccessReply), Arrived(Snapshot(snapshot))] + rest);
      o.room == Some(snapshot) && o.fate == Alive && LoginVerdict(o.room.value) == Entered
  {
  }

  /**
   * The server-error verdict comes only from a successful login whose transcript text
   * is "ERROR": an ERROR reply itself ends the program before the verdict is read.
   */
  lemma ErrorVerdictNeedsSnapshot(inbox: seq<Incoming>)
    requires Opening(inbox).fate == Alive && Opening(inbox).room == Some(ErrorCode)
    ensures inbox != [] && inbox[0].Arrived? && inbox[0].request.kind == LoginSuccess
  {
  }

  class ClientGui {
    /** The time formatter of the connection's chat rooms. */
    const fmt: int -> string
    var user: Users?
    var connection: ServerConnection?
    var chatRoom: ChatRoom?

    constructor (fmt: int -> string)
      ensures this.fmt == fmt && user == null && connection == null && chatRoom == null
    {
      this.fmt := fmt;
      user := null;
      connection := null;
      chatRoom := null;
    }

    /**
     * Connects as `username` over the server's replies and takes the connection's chat
     * room as its own. The user is assigned first; when an exception escapes the
     * connection's construction, the GUI keeps its previous connection and chat room
     * and `completed` is false.
     */
    method LoginToServer(username: string, replies: seq<Incoming>) returns (completed: bool)
      modifies this`user, this`connection, this`chatRoom
      ensures user != null && fresh(user) && user.username == username
      ensures completed <==> Opening(replies).fate != Crashed
      ensures !completed ==> connection == old(connection) && chatRoom == old(chatRoom)
      ensures completed ==> connection != null && fresh(connection) && connection.fmt == fmt
      ensures completed ==> connection.outgoing == [MessageRequest(Requests.Login, Account(username))]
      ensures var o := Opening(replies);
        completed ==> connection.Observed() == Session(o.room, true, o.fate) && connection.inbox == o.rest
      ensures completed ==> chatRoom == connection.chatRoom && (chatRoom != null ==> fresh(chatRoom))
    {
      user := new Users(username);
      var conn := new ServerConnection(fmt, user, replies);
      if conn.fate == Crashed {
        return false;
      }
      connection := conn;
      chatRoom := conn.chatRoom;
      completed := true;
    }

    /**
     * Logs in and reads the outcome from the chat room's text; None when the program
     * ended during the login, an exception escaped it, or there is no chat room to
     * read. After an invalid name the chat room is dropped; otherwise it is the
     * connection's own chat room, which the connection goes on appending to.
     */
    method HandleLogin(username: string, replies: seq<Incoming>) returns (verdict: Option<Verdict>)
      modifies this`user, this`connection, this`chatRoom
      ensures user != null && user.username == username
      ensures Opening(replies).fate == Crashed ==> connection == old(connection) && chatRoom == old(chatRoom)
      ensures Opening(replies).fate != Crashed ==> connection != null && fresh(connection)
      ensures var o := Opening(replies);
        && (verdict.Some? <==> o.fate == Alive && o.room.Some?)
        && (verdict.Some? ==> verdict.value == LoginVerdict(o.room.value))
      ensures verdict == Some(InvalidName) ==> chatRoom == null
      ensures Opening(replies).fate != Crashed && verdict != Some(InvalidName) ==> chatRoom == connection.chatRoom
    {
      var completed := LoginToServer(username, replies);
      if !completed || connection.fate != Alive || chatRoom == null {
        // the program exited, or an exception left the login unfinished
        return None;
      }
      var v := LoginVerdict(chatRoom.GetMessages());
      if v == InvalidName {
        chatRoom := null;
      }
      verdict := Some(v);
    }

    /** Sends the typed text as one chat message from the logged-in user. */
    method HandleMessage(text: string, via: Trigger, now: Long)
      requires user != null && connection != null
      modifies connection`outgoing
      ensures connection.outgoing == old(connection.outgoing) + [Outgoing(user.username, now, text, via)]
    {
      var message := UserMessage(user.GetUsername(), now, MessageBody(text, via));
      connection.SendRequest(MessageRequest(SendMessage, Chat(message)));
    }
  }
}
