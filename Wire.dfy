/**
 * The server's object output streams, one per connection, seen as the sequence of
 * requests written to each. A stream counts as broken from the first write that
 * throws; when that happens after the peer has left is up to the transport, so a
 * stream may break between any two steps. A broken stream refuses every later write.
 * A step writes a batch to one stream without a break in between, so the batch either
 * all lands or none of it does.
 */
module Wire {
  import opened Requests

  /** Names one connection's output stream. */
  type Handle = nat

  /** What has been written to each stream, oldest first. */
  type Outboxes = map<Handle, seq<MessageRequest>>

  function Outbox(sent: Outboxes, h: Handle): seq<MessageRequest>
  {
    if h in sent then sent[h] else []
  }

  /** The outboxes after writing `reqs` to stream h, given the set of broken streams. */
  function Written(sent: Outboxes, broken: set<Handle>, h: Handle, reqs: seq<MessageRequest>): (r: Outboxes)
    ensures Outbox(r, h) == if h in broken then Outbox(sent, h) else Outbox(sent, h) + reqs
    ensures forall g :: g != h ==> Outbox(r, g) == Outbox(sent, g)
  {
    if h in broken then sent else sent[h := Outbox(sent, h) + reqs]
  }

  ghost predicate Among(names: seq<string>, users: map<string, Handle>)
  {
    forall i :: 0 <= i < |names| ==> names[i] in users
  }

  ghost predicate Distinct(names: seq<string>)
  {
    forall i, j :: 0 <= i < j < |names| ==> names[i] != names[j]
  }

  /** `order` lists every key of the registry exactly once. */
  ghost predicate Enumerates(order: seq<string>, keys: set<string>)
  {
    Distinct(order) && forall k :: k in keys <==> k in order
  }

  /** The outboxes after `req` is written, in order, to the stream of each of `names`. */
  function Deliver(sent: Outboxes, users: map<string, Handle>, names: seq<string>, req: MessageRequest): Outboxes
    requires Among(names, users)
    decreases |names|
  {
    if names == [] then sent
    else
      var before := Deliver(sent, users, names[..|names| - 1], req);
      var h := users[names[|names| - 1]];
      before[h := Outbox(before, h) + [req]]
  }

  /** How many of `names` the registry maps to stream h. */
  function Holders(users: map<string, Handle>, names: seq<string>, h: Handle): nat
    requires Among(names, users)
    decreases |names|
  {
    if names == [] then 0
    else Holders(users, names[..|names| - 1], h) + if users[names[|names| - 1]] == h then 1 else 0
  }

  /** Stream h receives one copy of `req` per name among `names` that maps to it, and nothing else. */
  lemma {:induction false} DeliverCount(sent: Outboxes, users: map<string, Handle>, names: seq<string>, req: MessageRequest, h: Handle)
    requires Among(names, users)
    ensures Outbox(Deliver(sent, users, names, req), h) == Outbox(sent, h) + seq(Holders(users, names, h), _ => req)
    decreases |names|
  {
    if names != [] {
      var init := names[..|names| - 1];
      DeliverCount(sent, users, init, req, h);
      var k := Holders(users, init, h);
      if users[names[|names| - 1]] == h {
        assert seq(k, _ => req) + [req] == seq(k + 1, _ => req);
      }
    }
  }

  /** n is the only name the registry maps to stream h. */
  ghost predicate SoleName(users: map<string, Handle>, n: string)
  {
    n in users && forall k :: k in users && users[k] == users[n] ==> k == n
  }

  /** Among distinct names, the stream of a name that is its only registry entry is counted once if that name is listed and not at all otherwise. */
  lemma {:induction false} SoleHolder(users: map<string, Handle>, names: seq<string>, n: string)
    requires Among(names, users) && Distinct(names) && SoleName(users, n)
    ensures Holders(users, names, users[n]) == if n in names then 1 else 0
    decreases |names|
  {
    if names != [] {
      var init, last := names[..|names| - 1], names[|names| - 1];
      SoleHolder(users, init, n);
      assert n in names <==> n in init || n == last;
      if last == n {
        assert n !in init by {
          forall i | 0 <= i < |init| ensures init[i] != n {
            assert names[i] != names[|names| - 1];
          }
        }
      }
    }
  }

  /** Writing to a prefix of distinct names reaches a name that is its stream's only entry once if the prefix lists it, and not at all otherwise. */
  lemma {:induction false} SoleDelivery(sent: Outboxes, users: map<string, Handle>, order: seq<string>, k: nat, n: string, req: MessageRequest)
    requires Among(order, users) && Distinct(order) && SoleName(users, n) && k <= |order|
    ensures Among(order[..k], users)
    ensures Outbox(Deliver(sent, users, order[..k], req), users[n]) == Outbox(sent, users[n]) + if n in order[..k] then [req] else []
  {
    var names := order[..k];
    assert Among(names, users) && Distinct(names);
    DeliverCount(sent, users, names, req, users[n]);
    SoleHolder(users, names, n);
  }

  /** A stream no registry entry maps to is counted zero times. */
  lemma {:induction false} Unheld(users: map<string, Handle>, names: seq<string>, h: Handle)
    requires Among(names, users) && h !in users.Values
    ensures Holders(users, names, h) == 0
    decreases |names|
  {
    if names != [] {
      Unheld(users, names[..|names| - 1], h);
      assert users[names[|names| - 1]] in users.Values;
    }
  }

  /** The output streams of all connections. */
  class Network {
    var sent: Outboxes
    var broken: set<Handle>

    constructor ()
      ensures sent == map[] && broken == {}
    {
      sent := map[];
      broken := {};
    }

    /** Writes one request; the write fails, changing nothing, exactly when the stream is broken. */
    method Write(h: Handle, req: MessageRequest) returns (ok: bool)
      modifies this
      ensures ok == (h !in broken)
      ensures sent == Written(old(sent), old(broken), h, [req]) && broken == old(broken)
    {
      ok := h !in broken;
      if ok {
        sent := sent[h := Outbox(sent, h) + [req]];
      }
    }

    /** Stream h breaks: its next write and every later one throw. */
    method Disconnect(h: Handle)
      modifies this
      ensures broken == old(broken) + {h} && sent == old(sent)
    {
      broken := broken + {h};
    }
  }
}
