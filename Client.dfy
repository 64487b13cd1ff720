/**
 * The client's connection to the server: it sends the login request, turns the login
 * reply into the local transcript, and then applies the server's notifications to it
 * until the server reports an error or the input ends.
 *
 * The connection's input stream is the sequence `inbox` of successful reads; a read
 * that fails is the end of that sequence. `Answer`, `Opening`, `Receive` and `Listen`
 * describe the client on a `Session` value; the `ServerConnection` class is proved to
 * follow them.
 */
module Client {
  import opened Wrappers
  import opened Messages
  import opened Protocol
  import opened Accounts
  import opened Requests
  import opened Transcript
  import opened Server

  /** Whether the client program is still going. */
  datatype Fate =
    | Alive
    | Exited   // the program called System.exit
    | Crashed  // an uncaught exception: during the login it escapes the connection's
               // construction, in the read loop it ends the thread that reads

  /** The client as the logic sees it: the local transcript (None while there is no chat room), the run flag and the fate. */
  datatype Session = Session(room: Option<string>, go: bool, fate: Fate)

  /** The outcome of the login exchange and the reads left after it. */
  datatype Handshake = Handshake(room: Option<string>, fate: Fate, rest: seq<Incoming>)

  /**
   * The client's handling of the reply `req` to its login, with `rest` still to read:
   * a success reads one more request and takes its text as the transcript; a refusal
   * puts the refusal's code in the transcript; an ERROR ends the program; any other
   * reply leaves the client without a chat room.
   */
  function Answer(req: MessageRequest, rest: seq<Incoming>): Handshake
  {
    match req.kind
    case LoginSuccess =>
      if rest == [] then Handshake(None, Alive, [])
      else if rest[0].UnknownClass? then Handshake(None, Alive, rest[1..])
      else if rest[0].request.data.Text? then Handshake(Some(rest[0].request.data.text), Alive, rest[1..])
      else Handshake(None, Crashed, rest[1..])
    case InvalidUsername => Handshake(Some(InvalidUsernameCode), Alive, rest)
    case UserAlreadyExists => Handshake(Some(UserAlreadyExistsCode), Alive, rest)
    case Error => Handshake(None, Exited, rest)
    case _ => Handshake(None, Alive, rest)
  }

  /** The login exchange over the reads `inbox`; a failed read leaves the client without a chat room. */
  function Opening(inbox: seq<Incoming>): Handshake
  {
    if inbox == [] then Handshake(None, Alive, [])
    else if inbox[0].UnknownClass? then Handshake(None, Alive, inbox[1..])
    else Answer(inbox[0].request, inbox[1..])
  }

  /**
   * One pass of the client's loop with `item` read: a notification appends its
   * message's line (a missing chat room or a payload that is not a message crashes the
   * thread), an ERROR with a text stops the loop, an unknown class stops it, and any
   * other request is ignored.
   */
  function Receive(fmt: int -> string, c: Session, item: Incoming): Session
  {
    if item.UnknownClass? then c.(go := false)
    else
      var req := item.request;
      match req.kind
      case MessageSent =>
        if req.data.Chat? && c.room.Some? then c.(room := Some(c.room.value + Line(fmt, req.data.message)))
        else c.(fate := Crashed)
      case Error =>
        if req.data.Text? then c.(go := false) else c.(fate := Crashed)
      case _ => c
  }

  /** The client's loop over the reads `inbox`: it runs while `go` is set, and the end of the input clears `go`. */
  function Listen(fmt: int -> string, c: Session, inbox: seq<Incoming>): Session
    decreases |inbox|
  {
    if !c.go || c.fate != Alive then c
    else if inbox == [] then c.(go := false)
    else Listen(fmt, Receive(fmt, c, inbox[0]), inbox[1..])
  }

  /** A successful login reads exactly one more request and takes its text as the transcript. */
  lemma LoginSuccessReadsSnapshot(text: string, rest: seq<Incoming>)
    ensures Opening([Arrived(LoginSuccessReply), Arrived(Snapshot(text))] + rest) == Handshake(Some(text), Alive, rest)
  {
  }

  /** A refusal leaves the refusal's code as the transcript; an ERROR ends the program; other replies leave no chat room. */
  lemma ReplyCodes(req: MessageRequest, rest: seq<Incoming>)
    ensures req.kind == InvalidUsername ==> Answer(req, rest) == Handshake(Some("INVALID_USERNAME"), Alive, rest)
    ensures req.kind == UserAlreadyExists ==> Answer(req, rest) == Handshake(Some("USER_ALREADY_EXISTS"), Alive, rest)
    ensures req.kind == Error ==> Answer(req, rest).fate == Exited
    ensures req.kind !in {LoginSuccess, InvalidUsername, UserAlreadyExists} ==> Answer(req, rest).room == None
    ensures req.kind != LoginSuccess ==> Answer(req, rest).rest == rest
  {
  }

  /** The loop never drops text: a chat room stays, and its transcript only grows. */
  lemma {:induction false} ListenOnlyAppends(fmt: int -> string, c: Session, inbox: seq<Incoming>)
    ensures var r := Listen(fmt, c, inbox);
      && r.room.Some? == c.room.Some?
      && (c.room.Some? ==> c.room.value <= r.room.value)
    decreases |inbox|
  {
    if c.go && c.fate == Alive && inbox != [] {
      ListenOnlyAppends(fmt, Receive(fmt, c, inbox[0]), inbox[1..]);
    }
  }

  /** The loop ends: its result has `go` cleared or a fate other than Alive. */
  lemma {:induction false} ListenEnds(fmt: int -> string, c: Session, inbox: seq<Incoming>)
    ensures var r := Listen(fmt, c, inbox); !r.go || r.fate != Alive
    decreases |inbox|
  {
    if c.go && c.fate == Alive && inbox != [] {
      ListenEnds(fmt, Receive(fmt, c, inbox[0]), inbox[1..]);
    }
  }

  /** An ERROR with a text stops the loop: nothing after it is read. */
  lemma ErrorStops(fmt: int -> string, t: string, reason: string, rest: seq<Incoming>)
    ensures Listen(fmt, Session(Some(t), true, Alive), [Arrived(MessageRequest(Error, Text(reason)))] + rest)
         == Session(Some(t), false, Alive)
  {
  }

  /** Requests other than MESSAGE_SENT and ERROR are ignored and the loop goes on. */
  lemma UnrecognizedIgnored(fmt: int -> string, c: Session, req: MessageRequest, rest: seq<Incoming>)
    requires c.go && c.fate == Alive && req.kind !in {MessageSent, Error}
    ensures Listen(fmt, c, [Arrived(req)] + rest) == Listen(fmt, c, rest)
  {
  }

  /** A notification that arrives while there is no chat room crashes the loop. */
  lemma NotificationWithoutRoom(fmt: int -> string, m: UserMessage, rest: seq<Incoming>)
    ensures Listen(fmt, Session(None, true, Alive), [Arrived(Sent(m))] + rest).fate == Crashed
  {
  }

  /** Notifications for ms, in order, append the lines of ms, in order, to the transcript. */
  lemma {:induction false} ReceiveMessages(fmt: int -> string, t: string, ms: seq<UserMessage>, rest: seq<Incoming>)
    ensures Listen(fmt, Session(Some(t), true, Alive), Arrivals(Sents(ms)) + rest)
         == Listen(fmt, Session(Some(t + Lines(fmt, ms)), true, Alive), rest)
    decreases |ms|
  {
    if ms == [] {
      assert Arrivals(Sents(ms)) + rest == rest;
      assert t + Lines(fmt, ms) == t;
    } else {
      var m, tail := ms[0], ms[1..];
      var inbox := Arrivals(Sents(ms)) + rest;
      assert inbox[0] == Arrived(Sent(m));
      assert inbox[1..] == Arrivals(Sents(tail)) + rest;
      var c := Session(Some(t), true, Alive);
      assert Receive(fmt, c, inbox[0]) == Session(Some(t + Line(fmt, m)), true, Alive);
      ReceiveMessages(fmt, t + Line(fmt, m), tail, rest);
      LinesCons(fmt, m, tail);
      assert [m] + tail == ms;
      assert t + Line(fmt, m) + Lines(fmt, tail) == t + Lines(fmt, ms);
    }
  }

  /**
   * A client that reads the login reply, a snapshot and then notifications for ms, and
   * then the end of its input, holds the snapshot followed by the lines of ms printed
   * with its own formatter.
   */
  lemma {:induction false} ClientReads(clientFmt: int -> string, stream: seq<MessageRequest>, snapshot: string, ms: seq<UserMessage>)
    requires stream == [LoginSuccessReply, Snapshot(snapshot)] + Sents(ms)
    ensures var o := Opening(Arrivals(stream));
      && o.room == Some(snapshot) && o.fate == Alive
      && Listen(clientFmt, Session(o.room, true, o.fate), o.rest) == Session(Some(snapshot + Lines(clientFmt, ms)), false, Alive)
  {
    var rest := Arrivals(Sents(ms));
    assert Arrivals(stream) == [Arrived(LoginSuccessReply), Arrived(Snapshot(snapshot))] + rest;
    LoginSuccessReadsSnapshot(snapshot, rest);
    ReceiveMessages(clientFmt, snapshot, ms, []);
    assert rest + [] == rest;
  }

  /**
   * A client whose input is a stream in step with the server transcript t, and then
   * ends, finishes with exactly t as its local transcript, provided that the client's
   * formatter prints the send time of each notified message as the server's does (each
   * side prints with its own default time zone).
   */
  lemma {:induction false} ClientMatchesServer(serverFmt: int -> string, clientFmt: int -> string, stream: seq<MessageRequest>, t: string, snapshot: string, ms: seq<UserMessage>)
    requires Synced(serverFmt, stream, t, snapshot, ms)
    requires forall i :: 0 <= i < |ms| ==> clientFmt(ms[i].GetTime()) == serverFmt(ms[i].GetTime())
    ensures var o := Opening(Arrivals(stream));
      && o.room == Some(snapshot) && o.fate == Alive
      && Listen(clientFmt, Session(o.room, true, o.fate), o.rest) == Session(Some(t), false, Alive)
  {
    ClientReads(clientFmt, stream, snapshot, ms);
    LinesAgree(clientFmt, serverFmt, ms);
  }

  class ServerConnection {
    /** The time formatter of the chat rooms this connection creates. */
    const fmt: int -> string
    /** The reads still to come from the server. */
    var inbox: seq<Incoming>
    /** What this client has written to the server, oldest first. */
    var outgoing: seq<MessageRequest>
    var chatRoom: ChatRoom?
    var go: bool
    var fate: Fate
    var closed: bool

    /** The client as the logic sees it. */
    function Observed(): Session
      reads this, chatRoom
    {
      Session(if chatRoom == null then None else Some(chatRoom.messages), go, fate)
    }

    /** The chat room, once there is one, formats times as the connection does. */
    ghost predicate Valid()
      reads this, chatRoom
    {
      chatRoom != null ==> chatRoom.fmt == fmt
    }

    /** Connects as `user` and performs the login exchange over the server's replies. */
    constructor (fmt: int -> string, user: Users, replies: seq<Incoming>)
      ensures outgoing == [MessageRequest(Requests.Login, Account(user.username))]
      ensures var o := Opening(replies); Observed() == Session(o.room, true, o.fate) && inbox == o.rest
      ensures this.fmt == fmt && Valid() && !closed
      ensures chatRoom != null ==> fresh(chatRoom)
    {
      this.fmt := fmt;
      inbox := replies;
      outgoing := [];
      chatRoom := null;
      go := true;
      fate := Alive;
      closed := false;
      new;
      LogIn(user);
    }

    predicate IsRunning()
      reads this
      ensures IsRunning() <==> go
    {
      go
    }

    /** Writes one request to the server. */
    method SendRequest(req: MessageRequest)
      modifies this`outgoing
      ensures outgoing == old(outgoing) + [req]
    {
      outgoing := outgoing + [req];
    }

    /** Clears the run flag; nothing else changes, so a second call changes nothing. */
    method Stop()
      modifies this`go
      ensures !go
      ensures !old(go) ==> unchanged(this)
    {
      go := false;
    }

    /** Reports an error reason and stops. */
    method ReportError(reason: string)
      modifies this`go
      ensures !go
    {
      Stop();
    }

    /** Sends the LOGIN request for `user` and handles the reply, as `Opening` describes. */
    method LogIn(user: Users)
      requires chatRoom == null && fate == Alive
      modifies this`outgoing, this`inbox, this`chatRoom, this`fate
      ensures outgoing == old(outgoing) + [MessageRequest(Requests.Login, Account(user.username))]
      ensures var o := Opening(old(inbox)); Observed() == Session(o.room, go, o.fate) && inbox == o.rest
      ensures chatRoom != null ==> fresh(chatRoom) && chatRoom.fmt == fmt
    {
      SendRequest(MessageRequest(Requests.Login, Account(user.GetUsername())));
      if inbox == [] {
        // the read failed
        return;
      }
      var item := inbox[0];
      inbox := inbox[1..];
      if item.UnknownClass? {
        return;
      }
      HandleRequest(item.request);
    }

    /** Handles the reply to the login, as `Answer` describes. */
    method HandleRequest(req: MessageRequest)
      requires chatRoom == null && fate == Alive
      modifies this`inbox, this`chatRoom, this`fate
      ensures var o := Answer(req, old(inbox)); Observed() == Session(o.room, go, o.fate) && inbox == o.rest
      ensures chatRoom != null ==> fresh(chatRoom) && chatRoom.fmt == fmt
    {
      if req.kind == LoginSuccess {
        if inbox == [] {
          return;
        }
        var item := inbox[0];
        inbox := inbox[1..];
        if item.UnknownClass? {
          return;
        }
        if !item.request.data.Text? {
          // the transcript is not a string: ClassCastException
          fate := Crashed;
          return;
        }
        chatRoom := new ChatRoom.FromText(fmt, item.request.data.text);
      } else if req.kind == InvalidUsername {
        chatRoom := new ChatRoom.FromText(fmt, InvalidUsernameCode);
      } else if req.kind == UserAlreadyExists {
        chatRoom := new ChatRoom.FromText(fmt, UserAlreadyExistsCode);
      } else if req.kind == Error {
        fate := Exited;
      }
    }

    /** Appends a notified message to the local transcript. */
    method UpdateChat(m: UserMessage)
      requires chatRoom != null && Valid()
      modifies chatRoom
      ensures Observed() == old(Observed()).(room := Some(old(chatRoom.messages) + Line(fmt, m)))
    {
      chatRoom.AddMessage(m);
    }

    /**
     * The client's loop, as `Listen` describes: it reads until the run flag is cleared
     * or the thread crashes, and closes the connection when the loop ends normally.
     */
    method Run()
      requires fate == Alive && Valid() && !closed
      modifies this, chatRoom
      ensures Observed() == Listen(fmt, old(Observed()), old(inbox))
      ensures closed == (fate == Alive)
      ensures chatRoom == old(chatRoom) && outgoing == old(outgoing)
    {
      while go
        invariant fate == Alive && Valid() && chatRoom == old(chatRoom) && !closed
        invariant outgoing == old(outgoing)
        invariant Listen(fmt, Observed(), inbox) == Listen(fmt, old(Observed()), old(inbox))
        decreases |inbox|
      {
        if inbox == [] {
          // the read failed: the connection shut down
          ReportError("Lost connection to server.");
          Stop();
          break;
        }
        var item := inbox[0];
        inbox := inbox[1..];
        if item.UnknownClass? {
          ReportError("");
          Stop();
        } else {
          var req := item.request;
          match req.kind
          case MessageSent =>
            if !req.data.Chat? || chatRoom == null {
              // ClassCastException or NullPointerException ends the thread
              fate := Crashed;
              return;
            }
            UpdateChat(req.data.message);
          case Error =>
            if !req.data.Text? {
              fate := Crashed;
              return;
            }
            ReportError(req.data.text);
            Stop();
          case _ =>
        }
      }
      closed := true;
    }
  }
}
