/**
 * The chat server: the registry of logged-in users, the server transcript, and the
 * broadcast of every submitted message to every registered connection.
 *
 * `ServerState` is the server's state as a value, and `Submit` is the broadcast as a
 * function of it; the `ChatServer` class holds the same state in fields and its
 * methods are proved to follow those functions.
 */
module Server {
  import opened Messages
  import opened Requests
  import opened Transcript
  import opened Wire

  datatype ServerState = ServerState(
    transcript: string,
    users: map<string, Handle>,
    queue: seq<MessageRequest>,
    ready: bool,
    sent: Outboxes,
    broken: set<Handle>)
  {
    /** The queue holds an entry only after a broadcast has been left unfinished. */
    ghost predicate Valid()
    {
      ready ==> queue == []
    }
  }

  /** How one submission ends. */
  datatype Broadcast =
    | Committed    // appended and written to every registered stream
    | WriteFailed  // appended, then a write threw part-way through the recipients
    | Stalled      // waits for the ready flag, which nothing sets again: never returns
    | BadPayload   // the request carries no chat message: the cast throws

  /** The notification the server writes for a submitted request: the same payload as MESSAGE_SENT. */
  function Update(req: MessageRequest): MessageRequest
  {
    MessageRequest(MessageSent, req.data)
  }

  /** The position in `order` of the first name whose stream is broken, or |order| if there is none. */
  function FirstBroken(users: map<string, Handle>, order: seq<string>, broken: set<Handle>): (k: nat)
    requires Among(order, users)
    ensures k <= |order|
    ensures forall i :: 0 <= i < k ==> users[order[i]] !in broken
    ensures k < |order| ==> users[order[k]] in broken
    decreases |order|
  {
    if order == [] then 0
    else if users[order[0]] in broken then 0
    else 1 + FirstBroken(users, order[1..], broken)
  }

  /**
   * One submission of a SEND_MESSAGE request, with the registry's names visited in
   * `order`: queue the notification, then (if the previous submission finished)
   * append the line, write the notification to each name's stream until a write
   * throws, and finally take the notification off the queue again.
   */
  function Submit(fmt: int -> string, s: ServerState, req: MessageRequest, order: seq<string>): (ServerState, Broadcast)
    requires Among(order, s.users)
  {
    var queued := s.queue + [Update(req)];
    if !s.ready then (s.(queue := queued), Stalled)
    else if !req.data.Chat? then (s.(queue := queued, ready := false), BadPayload)
    else
      var k := FirstBroken(s.users, order, s.broken);
      var written := s.(
        transcript := s.transcript + Line(fmt, req.data.message),
        sent := Deliver(s.sent, s.users, order[..k], Update(req)));
      if k < |order| then (written.(queue := queued, ready := false), WriteFailed)
      else (written.(queue := queued[1..], ready := true), Committed)
  }

  /** The characterisation of FirstBroken pins it down. */
  lemma FirstBrokenAt(users: map<string, Handle>, order: seq<string>, broken: set<Handle>, k: nat)
    requires Among(order, users) && k <= |order|
    requires forall i :: 0 <= i < k ==> users[order[i]] !in broken
    requires k < |order| ==> users[order[k]] in broken
    ensures FirstBroken(users, order, broken) == k
  {
  }

  /** Every submission keeps the queue empty while the ready flag is set. */
  lemma SubmitKeepsValid(fmt: int -> string, s: ServerState, req: MessageRequest, order: seq<string>)
    requires s.Valid() && Among(order, s.users)
    ensures Submit(fmt, s, req, order).0.Valid()
  {
  }

  /**
   * A committed submission adds exactly the message's line to the transcript, keeps
   * the registry, leaves the queue as it found it and the ready flag set.
   */
  lemma Committing(fmt: int -> string, s: ServerState, req: MessageRequest, order: seq<string>)
    requires s.Valid() && Among(order, s.users)
    requires Submit(fmt, s, req, order).1 == Committed
    ensures req.data.Chat?
    ensures var t := Submit(fmt, s, req, order).0;
      && t.transcript == s.transcript + Line(fmt, req.data.message)
      && t.users == s.users && t.broken == s.broken
      && t.queue == s.queue && t.ready
  {
  }

  /**
   * A submission whose write fails part-way still adds the message's line, keeps the
   * registry, leaves the notification in the queue and the ready flag cleared; the
   * write that failed went to a broken stream.
   */
  lemma FailingWrite(fmt: int -> string, s: ServerState, req: MessageRequest, order: seq<string>)
    requires Among(order, s.users)
    requires Submit(fmt, s, req, order).1 == WriteFailed
    ensures req.data.Chat?
    ensures var t, k := Submit(fmt, s, req, order).0, FirstBroken(s.users, order, s.broken);
      && t.transcript == s.transcript + Line(fmt, req.data.message)
      && t.users == s.users && t.broken == s.broken
      && t.queue == s.queue + [Update(req)] && !t.ready
      && k < |order| && s.users[order[k]] in s.broken
  {
  }

  /** What a submission writes: the notification, to the names before the first broken stream. */
  lemma Delivered(fmt: int -> string, s: ServerState, req: MessageRequest, order: seq<string>)
    requires Among(order, s.users)
    ensures var (t, b), k := Submit(fmt, s, req, order), FirstBroken(s.users, order, s.broken);
      && (b in {Committed, WriteFailed} ==> t.sent == Deliver(s.sent, s.users, order[..k], Update(req)))
      && (b in {Stalled, BadPayload} ==> t.sent == s.sent)
      && (b == Committed ==> k == |order|)
      && (b == WriteFailed ==> k < |order|)
  {
  }

  /**
   * Who receives a broadcast: a name that is its stream's only registry entry gets
   * exactly one notification at the end of its stream if the writes reached it, and
   * nothing otherwise. A committed submission reaches every name; a failed one reaches
   * the names before the broken stream and none after it.
   */
  lemma {:induction false} Recipient(fmt: int -> string, s: ServerState, req: MessageRequest, order: seq<string>, n: string)
    requires Enumerates(order, s.users.Keys)
    requires SoleName(s.users, n)
    requires Submit(fmt, s, req, order).1 in {Committed, WriteFailed}
    ensures var t, k := Submit(fmt, s, req, order).0, FirstBroken(s.users, order, s.broken);
      Outbox(t.sent, s.users[n]) == Outbox(s.sent, s.users[n]) + if n in order[..k] then [Update(req)] else []
    ensures Submit(fmt, s, req, order).1 == Committed ==> n in order[..FirstBroken(s.users, order, s.broken)]
  {
    var k := FirstBroken(s.users, order, s.broken);
    Delivered(fmt, s, req, order);
    SoleDelivery(s.sent, s.users, order, k, n, Update(req));
    if k == |order| {
      assert order[..k] == order;
    }
  }

  /** A stream that no registry entry maps to receives nothing from a broadcast. */
  lemma {:induction false} Bystander(fmt: int -> string, s: ServerState, req: MessageRequest, order: seq<string>, h: Handle)
    requires Among(order, s.users) && h !in s.users.Values
    ensures Outbox(Submit(fmt, s, req, order).0.sent, h) == Outbox(s.sent, h)
  {
    if s.ready && req.data.Chat? {
      var k := FirstBroken(s.users, order, s.broken);
      DeliverCount(s.sent, s.users, order[..k], Update(req), h);
      Unheld(s.users, order[..k], h);
    }
  }

  /**
   * Once a submission is left unfinished (a failed write or a request without a chat
   * message), the ready flag stays cleared and every later submission waits forever,
   * changing nothing but the queue.
   */
  lemma StallIsPermanent(fmt: int -> string, s: ServerState, req: MessageRequest, order: seq<string>, next: MessageRequest, order': seq<string>)
    requires Among(order, s.users) && Among(order', s.users)
    requires Submit(fmt, s, req, order).1 in {WriteFailed, BadPayload}
    ensures var t := Submit(fmt, s, req, order).0;
      var (u, b) := Submit(fmt, t, next, order');
      && b == Stalled && !u.ready
      && u.transcript == t.transcript && u.users == t.users && u.sent == t.sent
      && u.queue == t.queue + [Update(next)]
  {
  }

  /**
   * A connection is in step with the server transcript `t` when its stream holds the
   * login reply, the snapshot `snapshot`, and then one notification for each of `ms`,
   * and `t` is the snapshot followed by the lines of `ms`.
   */
  ghost predicate Synced(fmt: int -> string, stream: seq<MessageRequest>, t: string, snapshot: string, ms: seq<UserMessage>)
  {
    stream == [LoginSuccessReply, Snapshot(snapshot)] + Sents(ms) && t == snapshot + Lines(fmt, ms)
  }

  /**
   * A committed broadcast keeps every connection that is its stream's only registry
   * entry in step: the stream and the transcript both grow by the same message.
   */
  lemma {:induction false} CommitKeepsSync(fmt: int -> string, s: ServerState, req: MessageRequest, order: seq<string>, n: string, snapshot: string, ms: seq<UserMessage>)
    requires s.Valid() && Enumerates(order, s.users.Keys) && SoleName(s.users, n)
    requires Submit(fmt, s, req, order).1 == Committed
    requires Synced(fmt, Outbox(s.sent, s.users[n]), s.transcript, snapshot, ms)
    ensures req.data.Chat?
    ensures var t := Submit(fmt, s, req, order).0;
      Synced(fmt, Outbox(t.sent, t.users[n]), t.transcript, snapshot, ms + [req.data.message])
  {
    Committing(fmt, s, req, order);
    Recipient(fmt, s, req, order, n);
    var m := req.data.message;
    assert Update(req) == Sent(m);
    assert Sents(ms + [m]) == Sents(ms) + [Sent(m)];
    LinesAppend(fmt, ms, [m]);
    assert [m][..0] == [];
  }

  /** Lists the keys of a registry in the order a walk over its key set visits them. */
  method Enumerate(keys: set<string>) returns (order: seq<string>)
    ensures Enumerates(order, keys)
  {
    order := [];
    var rest := keys;
    while rest != {}
      invariant Distinct(order)
      invariant forall k :: k in keys <==> k in order || k in rest
      invariant forall k :: k in rest ==> k !in order
      decreases rest
    {
      var k :| k in rest;
      order := order + [k];
      rest := rest - {k};
    }
  }

  class ChatServer {
    /** The server transcript. */
    const room: ChatRoom
    /** The output streams of all connections. */
    const net: Network
    /** The registry: each logged-in user's name and the stream the server writes to. */
    var activeUsers: map<string, Handle>
    var messageQueue: seq<MessageRequest>
    var messageReady: bool
    var isRunning: bool

    function State(): ServerState
      reads this, room, net
    {
      ServerState(room.messages, activeUsers, messageQueue, messageReady, net.sent, net.broken)
    }

    /** A fresh server: empty transcript, empty registry, empty queue, ready to broadcast. */
    constructor (fmt: int -> string, net: Network)
      ensures this.net == net && fresh(room) && room.fmt == fmt
      ensures room.messages == "" && activeUsers == map[] && messageQueue == []
      ensures messageReady && isRunning
      ensures State().Valid()
    {
      room := new ChatRoom(fmt);
      this.net := net;
      activeUsers := map[];
      messageQueue := [];
      isRunning := true;
      messageReady := true;
    }

    predicate UserExists(name: string)
      reads this
      ensures UserExists(name) <==> name in activeUsers.Keys
    {
      name in activeUsers
    }

    /** Registers `name` with stream h, replacing any entry the name had; other entries stay. */
    method AddUser(name: string, h: Handle)
      modifies this`activeUsers
      ensures activeUsers == old(activeUsers)[name := h]
    {
      activeUsers := activeUsers[name := h];
    }

    /** Deregisters `name`; other entries stay, and an absent name changes nothing. */
    method RemoveUser(name: string)
      modifies this`activeUsers
      ensures activeUsers == old(activeUsers) - {name}
      ensures name !in old(activeUsers) ==> activeUsers == old(activeUsers)
    {
      activeUsers := activeUsers - {name};
    }

    /** Handles one SEND_MESSAGE request, as `Submit` describes. */
    method EnterMessageChanges(req: MessageRequest) returns (result: Broadcast, order: seq<string>)
      modifies this, room, net
      ensures Among(order, old(activeUsers))
      ensures result in {Committed, WriteFailed} ==> Enumerates(order, old(activeUsers).Keys)
      ensures (State(), result) == Submit(room.fmt, old(State()), req, order)
      ensures isRunning == old(isRunning)
    {
      order := [];
      var update := Update(req);
      messageQueue := messageQueue + [update];
      if !messageReady {
        // waits for the ready flag; no thread ever signals this monitor
        result := Stalled;
        return;
      }
      // updateChatRoom
      messageReady := false;
      if !req.data.Chat? {
        result := BadPayload;
        return;
      }
      room.AddMessage(req.data.message);
      // updateClientChat
      var delivered;
      order, delivered := UpdateClientChat(update);
      if delivered < |order| {
        result := WriteFailed;
        return;
      }
      messageQueue := messageQueue[1..];
      messageReady := true;
      result := Committed;
    }

    /**
     * Writes `update` to the stream of every registered name, in key-set order,
     * stopping at the first write that throws.
     */
    method UpdateClientChat(update: MessageRequest) returns (order: seq<string>, delivered: nat)
      modifies net
      ensures Enumerates(order, activeUsers.Keys) && Among(order, activeUsers)
      ensures delivered == FirstBroken(activeUsers, order, net.broken)
      ensures net.sent == Deliver(old(net.sent), activeUsers, order[..delivered], update)
      ensures net.broken == old(net.broken)
    {
      order := Enumerate(activeUsers.Keys);
      delivered := 0;
      while delivered < |order|
        invariant delivered <= |order|
        invariant forall i :: 0 <= i < delivered ==> activeUsers[order[i]] !in net.broken
        invariant net.sent == Deliver(old(net.sent), activeUsers, order[..delivered], update)
        invariant net.broken == old(net.broken)
      {
        var ok := net.Write(activeUsers[order[delivered]], update);
        if !ok {
          break;
        }
        assert order[..delivered + 1][..delivered] == order[..delivered];
        delivered := delivered + 1;
      }
      FirstBrokenAt(activeUsers, order, net.broken, delivered);
    }

    function GetChatMessages(): (r: string)
      reads this, room
      ensures r == room.GetMessages()
    {
      room.ToString()
    }
  }
}
