/**
 * Server and client agree: a client that logs in under a free name and then reads
 * everything the server writes to its stream ends with the server's transcript, as
 * long as it prints send times as the server does.
 */
module Agreement {
  import opened Wrappers
  import opened Requests
  import opened Transcript
  import opened Wire
  import opened Server
  import opened Handler
  import opened Client

  /**
   * A login under a free name on a fresh stream, followed by a committed broadcast of
   * message m: the client that reads that stream to its end holds exactly the server
   * transcript if and only if the client's formatter prints m's send time as the
   * server's does. Each process prints with its own default time zone, so a client in
   * another zone ends with a different text.
   */
  lemma {:induction false} LoginThenBroadcast(serverFmt: int -> string, clientFmt: int -> string, s: ServerState, out: Handle, name: string, req: MessageRequest, order: seq<string>)
    requires s.Valid() && name != "" && name !in s.users
    requires out !in s.broken && out !in s.users.Values && Outbox(s.sent, out) == []
    requires Enumerates(order, LoginSpec(s, out, name).users.Keys)
    requires Submit(serverFmt, LoginSpec(s, out, name), req, order).1 == Committed
    ensures req.data.Chat?
    ensures var t := Submit(serverFmt, LoginSpec(s, out, name), req, order).0;
      var o := Opening(Arrivals(Outbox(t.sent, out)));
      && o.fate == Alive && o.room == Some(s.transcript)
      && (Listen(clientFmt, Session(o.room, true, o.fate), o.rest) == Session(Some(t.transcript), false, Alive)
          <==> clientFmt(req.data.message.GetTime()) == serverFmt(req.data.message.GetTime()))
  {
    var s1 := LoginSpec(s, out, name);
    LoginEstablishesSync(serverFmt, s, out, name);
    assert s1.Valid() && s1.users[name] == out;
    CommitKeepsSync(serverFmt, s1, req, order, name, s.transcript, []);
    Committing(serverFmt, s1, req, order);
    var t := Submit(serverFmt, s1, req, order).0;
    var m := req.data.message;
    assert t.users[name] == out;
    assert [] + [m] == [m];
    ClientReads(clientFmt, Outbox(t.sent, out), s.transcript, [m]);
    LinesSingle(clientFmt, m);
    LinesSingle(serverFmt, m);
    LineDeterminesTime(clientFmt, serverFmt, m);
    var mine, theirs := s.transcript + Line(clientFmt, m), s.transcript + Line(serverFmt, m);
    assert mine == theirs ==> mine[|s.transcript|..] == theirs[|s.transcript|..];
  }
}
