/**
 * The chat transcript: one string to which every accepted message is appended as a
 * formatted line. The server keeps one; each client keeps its own copy.
 *
 * A line starts with the message's send time printed as `HH:mm:ss` in the default time
 * zone of the process that formats it. That zone is not known to the model, so the
 * formatter is a parameter `fmt` of every function here and a constant of every chat
 * room.
 */
module Transcript {
  import opened Messages

  /**
   * The transcript line of one message: the formatted time, " | ", the author, ": " and
   * the body, with no line break or other separator after the body.
   */
  function Line(fmt: int -> string, m: UserMessage): string
  {
    fmt(m.GetTime()) + " | " + m.GetUsername() + ": " + m.GetMessage()
  }

  /** A line starts with the time and " | ", has the author's name next, and ends exactly with the body. */
  lemma LineLayout(fmt: int -> string, m: UserMessage)
    ensures var r, t := Line(fmt, m), fmt(m.GetTime());
      && |r| == |t| + 5 + |m.GetUsername()| + |m.GetMessage()|
      && r[..|t|] == t
      && r[|t|..|t| + 3] == " | "
      && r[|t| + 3..|t| + 3 + |m.GetUsername()|] == m.GetUsername()
      && r[|r| - |m.GetMessage()|..] == m.GetMessage()
  {
  }

  /** Two formatters give a message the same line exactly when they print its time alike. */
  lemma LineDeterminesTime(f: int -> string, g: int -> string, m: UserMessage)
    ensures Line(f, m) == Line(g, m) <==> f(m.GetTime()) == g(m.GetTime())
  {
    LineLayout(f, m);
    LineLayout(g, m);
  }

  /** The lines of several messages, in order. */
  function Lines(fmt: int -> string, ms: seq<UserMessage>): string
    decreases |ms|
  {
    if ms == [] then "" else Lines(fmt, ms[..|ms| - 1]) + Line(fmt, ms[|ms| - 1])
  }

  /** Adding messages in two batches gives the lines of both batches, in order. */
  lemma {:induction false} LinesAppend(fmt: int -> string, a: seq<UserMessage>, b: seq<UserMessage>)
    ensures Lines(fmt, a + b) == Lines(fmt, a) + Lines(fmt, b)
    decreases |b|
  {
    if b == [] {
      assert a + b == a;
    } else {
      var init := b[..|b| - 1];
      LinesAppend(fmt, a, init);
      assert (a + b)[..|a + b| - 1] == a + init;
      assert (a + b)[|a + b| - 1] == b[|b| - 1];
    }
  }

  /** The lines of a message followed by more messages. */
  lemma LinesCons(fmt: int -> string, m: UserMessage, ms: seq<UserMessage>)
    ensures Lines(fmt, [m] + ms) == Line(fmt, m) + Lines(fmt, ms)
  {
    LinesAppend(fmt, [m], ms);
    assert [m][..0] == [];
  }

  /** Formatters that print the send times of ms alike give ms the same lines. */
  lemma {:induction false} LinesAgree(f: int -> string, g: int -> string, ms: seq<UserMessage>)
    requires forall i :: 0 <= i < |ms| ==> f(ms[i].GetTime()) == g(ms[i].GetTime())
    ensures Lines(f, ms) == Lines(g, ms)
    decreases |ms|
  {
    if ms != [] {
      LinesAgree(f, g, ms[..|ms| - 1]);
    }
  }

  /** A single message's lines are its line. */
  lemma LinesSingle(fmt: int -> string, m: UserMessage)
    ensures Lines(fmt, [m]) == Line(fmt, m)
  {
    assert [m][..0] == [];
  }

  class ChatRoom {
    /** How this process prints a send time. */
    const fmt: int -> string
    /** The whole transcript. */
    var messages: string

    constructor (fmt: int -> string)
      ensures this.fmt == fmt && messages == ""
    {
      this.fmt := fmt;
      messages := "";
    }

    constructor FromText(fmt: int -> string, text: string)
      ensures this.fmt == fmt && messages == text
    {
      this.fmt := fmt;
      messages := text;
    }

    /** Appends the message's line; the old transcript stays a prefix of the new one. */
    method AddMessage(m: UserMessage)
      modifies this
      ensures messages == old(messages) + Line(fmt, m)
      ensures old(messages) <= messages
    {
      messages := messages + Line(fmt, m);
    }

    /** Replaces the whole transcript. */
    method SetMessage(text: string)
      modifies this
      ensures messages == text
    {
      messages := text;
    }

    function GetMessages(): string
      reads this
    {
      messages
    }

    /** A chat room prints as its transcript. */
    function ToString(): (r: string)
      reads this
      ensures r == GetMessages()
    {
      GetMessages()
    }
  }
}
