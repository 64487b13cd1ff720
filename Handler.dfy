/**
 * One server thread per connection: it reads the client's requests one at a time,
 * logs the client in, hands chat messages to the server for broadcast, and signs the
 * client out when its input ends.
 *
 * The client's input stream is the sequence `inbox` of successful reads; a read that
 * fails (the client closed or the connection broke) is the end of that sequence.
 * `LoginSpec`, `Dispatch` and `Turn` describe the thread's steps on a `ServerState`;
 * the `ServerThread` class is proved to follow them.
 */
module Handler {
  import opened Wrappers
  import opened Requests
  import opened Transcript
  import opened Wire
  import opened Server

  /** How a thread's run ends. */
  datatype Exit =
    | Finished  // the loop condition failed: the thread's name is not registered
    | Blocked   // waits forever inside a broadcast
    | Crashed   // an uncaught ClassCastException ended the thread

  /**
   * A login under `name` on the connection whose output stream is `out`: an empty
   * name that nobody holds is refused as invalid, a name already registered is refused
   * as taken, any other name is registered with `out` and answered with the success
   * reply and a snapshot of the transcript.
   */
  function LoginSpec(s: ServerState, out: Handle, name: string): ServerState
  {
    if name !in s.users && name == "" then
      s.(sent := Written(s.sent, s.broken, out, [InvalidUsernameReply]))
    else if name in s.users then
      s.(sent := Written(s.sent, s.broken, out, [UserAlreadyExistsReply]))
    else
      s.(users := s.users[name := out], sent := Written(s.sent, s.broken, out, [LoginSuccessReply, Snapshot(s.transcript)]))
  }

  /** The thread's state after one step. */
  datatype Step = Step(state: ServerState, username: Option<string>, exit: Option<Exit>)

  /** Handles one request; a broadcast walks the registry in `order`. */
  function Dispatch(fmt: int -> string, s: ServerState, out: Handle, username: Option<string>, req: MessageRequest, order: seq<string>): Step
    requires Among(order, s.users)
  {
    match req.kind
    case SendMessage =>
      var (t, b) := Submit(fmt, s, req, order);
      Step(t, username, if b == Stalled then Some(Blocked) else if b == BadPayload then Some(Crashed) else None)
    case Login =>
      if req.data.Account? then Step(LoginSpec(s, out, req.data.name), Some(req.data.name), None)
      else Step(s, username, Some(Crashed))
    case _ => Step(s, username, None)
  }

  /** Whether the loop condition holds: the thread's name is registered (no name never is). */
  predicate Registered(users: map<string, Handle>, username: Option<string>)
  {
    username.Some? && username.value in users
  }

  /**
   * One pass of the thread's loop over the input `inbox`: a failed read signs the
   * thread's name out; an unknown class is skipped; a request is dispatched. The loop
   * then goes on only while the thread's name is registered.
   */
  function Turn(fmt: int -> string, s: ServerState, out: Handle, username: Option<string>, inbox: seq<Incoming>, order: seq<string>): Step
    requires Among(order, s.users)
  {
    if inbox == [] then
      var t := if username.Some? then s.(users := s.users - {username.value}) else s;
      Step(t, username, Some(Finished))
    else
      var step :=
        if inbox[0].UnknownClass? then Step(s, username, None)
        else Dispatch(fmt, s, out, username, inbox[0].request, order);
      if step.exit.None? && !Registered(step.state.users, step.username) then step.(exit := Some(Finished))
      else step
  }

  /** An empty name that nobody holds is refused as invalid: the registry is unchanged. */
  lemma EmptyNameRejected(s: ServerState, out: Handle)
    requires "" !in s.users
    ensures var t := LoginSpec(s, out, "");
      && t.users == s.users && t.transcript == s.transcript && t.broken == s.broken
      && Outbox(t.sent, out) == Outbox(s.sent, out) + if out in s.broken then [] else [InvalidUsernameReply]
  {
  }

  /** A name already registered is refused as taken, and its holder keeps its stream. */
  lemma TakenNameRejected(s: ServerState, out: Handle, name: string)
    requires name in s.users
    ensures var t := LoginSpec(s, out, name);
      && t.users == s.users && t.transcript == s.transcript && t.broken == s.broken
      && Outbox(t.sent, out) == Outbox(s.sent, out) + if out in s.broken then [] else [UserAlreadyExistsReply]
  {
  }

  /**
   * A free non-empty name is registered with the connection's stream, and the stream
   * receives the success reply and then the transcript as it stands.
   */
  lemma FreeNameRegistered(s: ServerState, out: Handle, name: string)
    requires name != "" && name !in s.users
    ensures var t := LoginSpec(s, out, name);
      && t.users == s.users[name := out] && t.transcript == s.transcript && t.broken == s.broken
      && Outbox(t.sent, out) == Outbox(s.sent, out) + if out in s.broken then [] else [LoginSuccessReply, Snapshot(s.transcript)]
  {
  }

  /**
   * A login changes no other stream and sends no ERROR reply: the three guards cover
   * every name, so the branch that would send one cannot run.
   */
  lemma LoginNeverErrors(s: ServerState, out: Handle, name: string)
    ensures var t := LoginSpec(s, out, name);
      && (forall g :: g != out ==> Outbox(t.sent, g) == Outbox(s.sent, g))
      && Outbox(s.sent, out) <= Outbox(t.sent, out)
      && forall r :: r in Outbox(t.sent, out)[|Outbox(s.sent, out)|..] ==> r.kind != Error
  {
  }

  /**
   * A fresh connection that logs in under a free name is in step with the server: its
   * stream holds the success reply and a snapshot equal to the transcript.
   */
  lemma LoginEstablishesSync(fmt: int -> string, s: ServerState, out: Handle, name: string)
    requires name != "" && name !in s.users && out !in s.broken && out !in s.users.Values
    requires Outbox(s.sent, out) == []
    ensures var t := LoginSpec(s, out, name);
      && SoleName(t.users, name)
      && Synced(fmt, Outbox(t.sent, out), t.transcript, s.transcript, [])
  {
  }

  /**
   * When the input ends, the thread's name is deregistered, even when that name is
   * held by another connection, and the loop ends.
   */
  lemma EndOfInput(fmt: int -> string, s: ServerState, out: Handle, username: Option<string>, order: seq<string>)
    requires Among(order, s.users)
    ensures var step := Turn(fmt, s, out, username, [], order);
      && step.exit == Some(Finished)
      && step.state.users == (if username.Some? then s.users - {username.value} else s.users)
      && step.state.sent == s.sent && step.state.transcript == s.transcript
      && !Registered(step.state.users, step.username)
  {
  }

  /**
   * A connection refused as taken goes on reading under the taken name; when its input
   * ends it deregisters that name, so the connection that held it is signed out.
   */
  lemma TakenNameEvictsHolder(fmt: int -> string, s: ServerState, out: Handle, username: Option<string>, name: string, rest: seq<Incoming>, order: seq<string>)
    requires Among(order, s.users) && name in s.users
    ensures var step := Turn(fmt, s, out, username, [Arrived(MessageRequest(Login, Account(name)))] + rest, order);
      && step.exit.None? && step.username == Some(name) && step.state.users == s.users
      && Turn(fmt, step.state, out, step.username, [], []).state.users == s.users - {name}
  {
  }

  /** An invalid name ends the thread's loop after the refusal: the empty name is not registered. */
  lemma InvalidNameEndsLoop(fmt: int -> string, s: ServerState, out: Handle, username: Option<string>, rest: seq<Incoming>, order: seq<string>)
    requires Among(order, s.users) && "" !in s.users
    ensures var step := Turn(fmt, s, out, username, [Arrived(MessageRequest(Login, Account("")))] + rest, order);
      && step.exit == Some(Finished) && step.state.users == s.users
  {
  }

  /**
   * Before a login the thread has no name, so the loop ends after its first read
   * whatever that read brings, unless the request was a login.
   */
  lemma {:induction false} FirstReadWithoutLogin(fmt: int -> string, s: ServerState, out: Handle, inbox: seq<Incoming>, order: seq<string>)
    requires Among(order, s.users)
    requires inbox == [] || inbox[0].UnknownClass? || inbox[0].request.kind != Login
    ensures Turn(fmt, s, out, None, inbox, order).exit.Some?
    ensures Turn(fmt, s, out, None, inbox, order).username == None
  {
  }

  /** Requests other than SEND_MESSAGE and LOGIN change nothing. */
  lemma OtherRequestsIgnored(fmt: int -> string, s: ServerState, out: Handle, username: Option<string>, req: MessageRequest, order: seq<string>)
    requires Among(order, s.users) && req.kind !in {SendMessage, Login}
    ensures Dispatch(fmt, s, out, username, req, order) == Step(s, username, None)
  {
  }

  /** A step of the loop keeps the server's queue empty while its ready flag is set. */
  lemma TurnKeepsValid(fmt: int -> string, s: ServerState, out: Handle, username: Option<string>, inbox: seq<Incoming>, order: seq<string>)
    requires s.Valid() && Among(order, s.users)
    ensures Turn(fmt, s, out, username, inbox, order).state.Valid()
  {
  }

  /** The loop ends as Finished only when the thread's name is not registered. */
  lemma FinishedMeansSignedOut(fmt: int -> string, s: ServerState, out: Handle, username: Option<string>, inbox: seq<Incoming>, order: seq<string>)
    requires Among(order, s.users)
    ensures var step := Turn(fmt, s, out, username, inbox, order);
      (step.exit == Some(Finished) <==> step.exit.Some? && !Registered(step.state.users, step.username) && step.exit != Some(Crashed) && step.exit != Some(Blocked))
      && (step.exit.None? ==> Registered(step.state.users, step.username))
  {
  }

  class ServerThread {
    const server: ChatServer
    /** This connection's output stream. */
    const out: Handle
    /** The reads still to come from this connection's input stream. */
    var inbox: seq<Incoming>
    /** The name of the latest login request, whether or not the login succeeded. */
    var username: Option<string>

    constructor (server: ChatServer, out: Handle, inbox: seq<Incoming>)
      ensures this.server == server && this.out == out && this.inbox == inbox && username == None
    {
      this.server := server;
      this.out := out;
      this.inbox := inbox;
      username := None;
    }

    /** Handles a LOGIN request, as `LoginSpec` describes; a payload that is not a user ends the thread. */
    method Login(req: MessageRequest) returns (ok: bool)
      modifies this`username, server`activeUsers, server.net
      ensures ok == req.data.Account?
      ensures ok ==> username == Some(req.data.name) && server.State() == LoginSpec(old(server.State()), out, req.data.name)
      ensures !ok ==> username == old(username) && server.State() == old(server.State())
    {
      if !req.data.Account? {
        return false;
      }
      var name := req.data.name;
      username := Some(name);
      ghost var s := server.State();
      if !server.UserExists(name) && name == "" {
        var _ := server.net.Write(out, InvalidUsernameReply);
      } else if server.UserExists(name) {
        var _ := server.net.Write(out, UserAlreadyExistsReply);
      } else if !server.UserExists(name) {
        server.AddUser(name, out);
        var written := server.net.Write(out, LoginSuccessReply);
        if written {
          var _ := server.net.Write(out, Snapshot(server.GetChatMessages()));
          assert Outbox(s.sent, out) + [LoginSuccessReply] + [Snapshot(s.transcript)]
              == Outbox(s.sent, out) + [LoginSuccessReply, Snapshot(s.transcript)];
        }
      } else {
        // the ERROR reply and sign-out here are unreachable
        assert false;
      }
      ok := true;
    }

    /** Handles one request, as `Dispatch` describes. */
    method HandleMessageRequest(req: MessageRequest) returns (exit: Option<Exit>, order: seq<string>)
      modifies this`username, server, server.room, server.net
      ensures Among(order, old(server.activeUsers))
      ensures Step(server.State(), username, exit) == Dispatch(server.room.fmt, old(server.State()), out, old(username), req, order)
    {
      order := [];
      exit := None;
      match req.kind
      case SendMessage =>
        var b;
        b, order := server.EnterMessageChanges(req);
        if b == Stalled {
          exit := Some(Blocked);
        } else if b == BadPayload {
          exit := Some(Crashed);
        }
      case Login =>
        var ok := Login(req);
        if !ok {
          exit := Some(Crashed);
        }
      case _ =>
    }

    /** One pass of the thread's loop, as `Turn` describes. */
    method TakeTurn() returns (exit: Option<Exit>, order: seq<string>)
      modifies this, server, server.room, server.net
      ensures Among(order, old(server.activeUsers))
      ensures Step(server.State(), username, exit) == Turn(server.room.fmt, old(server.State()), out, old(username), old(inbox), order)
      ensures inbox == if old(inbox) == [] then [] else old(inbox)[1..]
    {
      order := [];
      exit := None;
      if inbox == [] {
        // the read failed: the client signed out
        if username.Some? {
          server.RemoveUser(username.value);
        }
        exit := Some(Finished);
        return;
      }
      var next := inbox[0];
      inbox := inbox[1..];
      if next.Arrived? {
        exit, order := HandleMessageRequest(next.request);
      }
      if exit.None? && !(username.Some? && server.UserExists(username.value)) {
        exit := Some(Finished);
      }
    }

    /**
     * The thread's loop: take turns until one ends the thread. The server's queue
     * stays empty while its ready flag is set, a Finished thread's name is not
     * registered, and a Blocked thread leaves the ready flag cleared.
     */
    method Run() returns (exit: Exit)
      requires server.State().Valid()
      modifies this, server, server.room, server.net
      ensures server.State().Valid()
      ensures exit == Finished ==> !Registered(server.activeUsers, username)
      ensures exit == Blocked ==> !server.messageReady
    {
      while true
        invariant server.State().Valid()
        decreases |inbox|
      {
        ghost var s := server.State();
        ghost var before := inbox;
        var e, order := TakeTurn();
        TurnKeepsValid(server.room.fmt, s, out, old(username), before, order);
        if e.Some? {
          return e.value;
        }
      }
    }
  }
}
