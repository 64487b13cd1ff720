# PartyChat in Dafny

PartyChat is a small Java chat system. One server keeps a transcript of every chat
message and a registry of logged-in users. Each connected client gets its own server
thread. A client logs in under a user name. The server refuses an empty name and a
name that is already online; otherwise it registers the name with the connection's
output stream and sends a success reply followed by a snapshot of the transcript.
When a client sends a message, the server appends one formatted line to its transcript
and writes a MESSAGE_SENT notification to every registered stream. Each client appends
the message's line to its own copy, with the send time printed by its own process, so
a client that starts from the snapshot holds the server's transcript exactly when it
prints the send times as the server does.

This project models that logic with sockets replaced by sequences of requests and
threads run one step at a time:

- `Messages`, `Accounts`, `Protocol`: the chat message value, the user, and the four
  reply codes.
- `Requests`: the typed request and its payload (a user, a text or a chat message).
  A read from an object stream is `Arrived(request)`, or `UnknownClass` when the
  class of the object read is not known; a failed read is the end of the sequence.
- `Transcript`: the chat room, one string that only grows by whole lines
  `fmt(time) + " | " + author + ": " + body`.
- `Wire`: the server's output streams as one outbox per stream. A stream counts as
  broken from the first write that throws; when that happens after the peer leaves is
  up to the transport, so a stream may break between any two steps.
- `Server`: the chat server. `Submit` describes one broadcast on a value
  `ServerState`; the `ChatServer` class is proved to follow it.
- `Handler`: the per-connection server thread. `LoginSpec`, `Dispatch` and `Turn`
  describe its steps; the `ServerThread` class is proved to follow them.
- `Client`: the client's connection. `Opening` and `Listen` describe the login
  exchange and the read loop; the `ServerConnection` class is proved to follow them.
- `Gui`: the two pieces of logic in the graphical client: how typed text becomes a
  message body, and how the login outcome is read from the chat room's text.
- `Agreement`: a client that logs in and reads its stream ends with the server's
  transcript exactly when it prints the send time of the broadcast message as the
  server does. Client and server each format times in their own default time zone,
  so the two formatters are separate parameters.

Some behaviours of the code are modelled as written, because they are what the
program does:

- The server thread sets its user name from every login request, also a refused one.
  After a "user already exists" refusal its loop keeps running, because the name is
  registered (by another connection). When that connection's input ends, it removes
  the name, which signs out the other connection (`Handler.TakenNameEvictsHolder`).
- The ERROR branch of the server's login cannot run: its three guards cover every
  name (`Handler.ServerThread.Login` holds `assert false` there).
- When a broadcast write throws, the line is already in the transcript, the
  recipients later in key-set order get nothing, the notification stays in the
  queue and the ready flag stays cleared. No thread ever sets the flag again or
  wakes the waiters, so every later broadcast waits forever (`Server.StallIsPermanent`).
- A SEND_MESSAGE request whose payload is not a chat message makes the server's cast
  throw after the ready flag was cleared; the thread dies and later broadcasts wait
  forever too.
- A long typed text (more than 56 characters) loses the character just before its
  middle: the line break takes its place (`Gui.MessageBody`).

## Model

| member | source | states |
|---|---|---|
| Messages.Accessors | src/Chat/UserMessage.java:46-83 | the constructor keeps author, time and body; the getters return them unchanged and `toString` is the body |
| Accounts.Users.constructor | src/Chat/Users.java:32-43 | a new user's name is the given name |
| Accounts.Users.SetUsername | src/Chat/Users.java:50-52 | afterwards the name is the given name; only the name field changes |
| Accounts.Users.ToString | src/Chat/Users.java:60-62 | a user prints as its name |
| Protocol.CodesAreDistinct | src/Chat/MessageProtocol.java:18-39 | each reply code is spelt as its name and no two codes are equal |
| Transcript.LineLayout | src/Chat/ChatRoom.java:54-57 | a line is the formatted time, " \| ", the author, ": " and the body, with nothing after the body |
| Transcript.LinesAppend | src/Chat/ChatRoom.java:54-57 | the lines of a + b are the lines of a followed by the lines of b |
| Transcript.LinesCons | src/Chat/ChatRoom.java:54-57 | the lines of m then ms are m's line followed by the lines of ms |
| Transcript.LinesSingle | src/Chat/ChatRoom.java:54-57 | the lines of one message are that message's line |
| Transcript.LineDeterminesTime | src/Chat/ChatRoom.java:54-57 | two formatters give a message the same line if and only if they print its send time alike |
| Transcript.LinesAgree | src/Chat/ChatRoom.java:54-57 | two formatters that print the send times of ms alike give ms the same lines |
| Transcript.ChatRoom.constructor | src/Chat/ChatRoom.java:27-29 | a new chat room has the empty transcript |
| Transcript.ChatRoom.FromText | src/Chat/ChatRoom.java:36-38 | a chat room built from a text has exactly that text |
| Transcript.ChatRoom.AddMessage | src/Chat/ChatRoom.java:54-57 | the transcript grows by exactly the message's line; the old transcript is a prefix of the new |
| Transcript.ChatRoom.SetMessage | src/Chat/ChatRoom.java:64-66 | the transcript is replaced by the given text |
| Transcript.ChatRoom.ToString | src/Chat/ChatRoom.java:73-85 | `toString` returns the same string as `getMessages`, reading only |
| Wire.Written | src/Chat/Server/ServerThread.java:126-148 | writing a batch to a stream appends it when the stream works and changes nothing when it is broken; no other stream changes |
| Wire.DeliverCount | src/Chat/Server/ChatServer.java:176-182 | writing a request to the streams of a list of names gives each stream one copy per listed name that maps to it, appended at its end |
| Wire.SoleHolder | src/Chat/Server/ChatServer.java:176-182 | among distinct names, a name that is its stream's only entry is counted once if listed and not at all otherwise |
| Wire.SoleDelivery | src/Chat/Server/ChatServer.java:176-182 | writing to a prefix of the names reaches such a name exactly once if the prefix lists it, and not at all otherwise |
| Wire.Unheld | src/Chat/Server/ChatServer.java:176-182 | a stream no registry entry maps to receives no copy |
| Wire.Network.constructor | src/Chat/Server/ChatServer.java:80 | no stream has been written and none is broken |
| Wire.Network.Write | src/Chat/Server/ChatServer.java:179-180 | a write succeeds exactly when the stream is not broken, and then appends the request to that stream alone |
| Wire.Network.Disconnect | src/Chat/Client/Network/ServerConnection.java:136-142 | a broken stream stays broken; nothing written to it before is lost |
| Server.FirstBroken | src/Chat/Server/ChatServer.java:177-181 | the position of the first name whose stream is broken: every earlier stream works, and the one at that position (if any) is broken |
| Server.FirstBrokenAt | src/Chat/Server/ChatServer.java:177-181 | that position is the only one with this property |
| Server.SubmitKeepsValid | src/Chat/Server/ChatServer.java:134-158 | every submission keeps the queue empty while the ready flag is set |
| Server.Committing | src/Chat/Server/ChatServer.java:134-169 | a completed broadcast grows the transcript by exactly the message's line, keeps registry and broken streams, leaves the queue as it was (one add, one poll) and the ready flag set |
| Server.FailingWrite | src/Chat/Server/ChatServer.java:151-157 | when a write throws, the line is already appended, the queue keeps the extra notification, the ready flag stays cleared, and the failed write went to a broken stream |
| Server.Delivered | src/Chat/Server/ChatServer.java:134-182 | a broadcast writes the notification to exactly the names before the first broken stream (all of them when it completes); a stalled or rejected one writes nothing |
| Server.Recipient | src/Chat/Server/ChatServer.java:134-182 | a name that is its stream's only entry gets exactly one MESSAGE_SENT with the request's payload at the end of its stream if reached, nothing otherwise; a completed broadcast reaches every name, the sender included |
| Server.Bystander | src/Chat/Server/ChatServer.java:176-182 | a stream outside the registry receives nothing |
| Server.StallIsPermanent | src/Chat/Server/ChatServer.java:143-157 | after a failed write or a payload that is not a message, the next submission waits forever and changes only the queue |
| Server.CommitKeepsSync | src/Chat/Server/ChatServer.java:150-182 | a completed broadcast keeps a connection in step: its stream and the transcript grow by the same message |
| Server.Enumerate | src/Chat/Server/ChatServer.java:177 | the key-set walk lists every registered name exactly once |
| Server.ChatServer.constructor | src/Chat/Server/ChatServer.java:52-58 | a fresh server has an empty transcript, registry and queue, and the ready flag set |
| Server.ChatServer.UserExists | src/Chat/Server/ChatServer.java:105-107 | holds exactly when the name is registered |
| Server.ChatServer.AddUser | src/Chat/Server/ChatServer.java:115-118 | the name maps to the given stream, an old entry for it is overwritten, other entries stay |
| Server.ChatServer.RemoveUser | src/Chat/Server/ChatServer.java:125-127 | the name is absent afterwards, other entries stay, and an absent name changes nothing |
| Server.ChatServer.EnterMessageChanges | src/Chat/Server/ChatServer.java:134-169 | the server's new state and the outcome are those of `Submit` on its old state |
| Server.ChatServer.UpdateClientChat | src/Chat/Server/ChatServer.java:176-182 | writes the notification in key-set order to every name up to the first broken stream, and stops there |
| Server.ChatServer.GetChatMessages | src/Chat/Server/ChatServer.java:187-189 | returns the transcript |
| Handler.EmptyNameRejected | src/Chat/Server/ServerThread.java:126-130 | an unregistered empty name gets only INVALID_USERNAME and the registry is unchanged |
| Handler.TakenNameRejected | src/Chat/Server/ServerThread.java:132-136 | a registered name gets only USER_ALREADY_EXISTS and the registry, including the holder's stream, is unchanged |
| Handler.FreeNameRegistered | src/Chat/Server/ServerThread.java:138-150 | a free non-empty name is registered with this stream, which receives LOGIN_SUCCESS and then the transcript, in that order |
| Handler.LoginNeverErrors | src/Chat/Server/ServerThread.java:126-158 | a login writes to its own stream only, and never an ERROR reply |
| Handler.LoginEstablishesSync | src/Chat/Server/ServerThread.java:138-150 | a login under a free name on a fresh stream puts that stream in step with the transcript |
| Handler.EndOfInput | src/Chat/Server/ServerThread.java:75-86 | a failed read removes the thread's name from the registry, whoever holds it, and ends the loop |
| Handler.TakenNameEvictsHolder | src/Chat/Server/ServerThread.java:73-136 | after a taken-name refusal the loop goes on under that name, and the end of its input removes the name held by the other connection |
| Handler.InvalidNameEndsLoop | src/Chat/Server/ServerThread.java:83-130 | after an invalid-name refusal the loop ends and the registry is unchanged |
| Handler.FirstReadWithoutLogin | src/Chat/Server/ServerThread.java:73-86 | without a login the loop ends after its first read, whatever it brought |
| Handler.OtherRequestsIgnored | src/Chat/Server/ServerThread.java:95-111 | requests other than SEND_MESSAGE and LOGIN change nothing |
| Handler.TurnKeepsValid | src/Chat/Server/ServerThread.java:73-86 | every pass of the loop keeps the queue empty while the ready flag is set |
| Handler.FinishedMeansSignedOut | src/Chat/Server/ServerThread.java:86 | the loop goes on exactly while the thread's name is registered |
| Handler.ServerThread.constructor | src/Chat/Server/ServerThread.java:59-65 | a new thread has no name yet |
| Handler.ServerThread.Login | src/Chat/Server/ServerThread.java:119-160 | the thread takes the requested name and the server's new state is `LoginSpec` of the old; a payload that is not a user ends the thread |
| Handler.ServerThread.HandleMessageRequest | src/Chat/Server/ServerThread.java:95-111 | the server's new state, the thread's name and its exit are those of `Dispatch` |
| Handler.ServerThread.TakeTurn | src/Chat/Server/ServerThread.java:73-86 | one pass of the do-while loop is `Turn` and consumes one read |
| Handler.ServerThread.Run | src/Chat/Server/ServerThread.java:71-88 | the loop keeps the server's queue invariant; it ends as Finished only with the name unregistered, and as Blocked only with the ready flag cleared |
| Client.LoginSuccessReadsSnapshot | src/Chat/Client/Network/ServerConnection.java:159-162 | after LOGIN_SUCCESS exactly one more request is read and the local transcript is its text |
| Client.ReplyCodes | src/Chat/Client/Network/ServerConnection.java:156-176 | a refusal makes the transcript its code, ERROR ends the program, any other reply leaves no chat room |
| Client.ListenOnlyAppends | src/Chat/Client/Network/ServerConnection.java:183-211 | the read loop keeps the chat room and only appends to its transcript |
| Client.ListenEnds | src/Chat/Client/Network/ServerConnection.java:183-211 | the read loop ends with the run flag cleared or the thread gone |
| Client.ErrorStops | src/Chat/Client/Network/ServerConnection.java:193-196 | an ERROR stops the loop and nothing after it is read |
| Client.UnrecognizedIgnored | src/Chat/Client/Network/ServerConnection.java:197-199 | any other request type is skipped and the loop goes on |
| Client.NotificationWithoutRoom | src/Chat/Client/Network/ServerConnection.java:189-191 | a notification with no chat room ends the read thread |
| Client.ReceiveMessages | src/Chat/Client/Network/ServerConnection.java:189-191 | notifications for ms, in order, append the lines of ms, in order |
| Client.ClientReads | src/Chat/Client/Network/ServerConnection.java:156-211 | a client that reads LOGIN_SUCCESS, a snapshot and notifications for ms ends holding the snapshot followed by the lines of ms in its own time format |
| Client.ClientMatchesServer | src/Chat/Client/Network/ServerConnection.java:156-211 | a client reading a stream in step with the server transcript ends holding exactly that transcript, provided it prints the send times of those messages as the server does |
| Client.ServerConnection.constructor | src/Chat/Client/Network/ServerConnection.java:40-58 | sends one LOGIN request with the user's name and handles the reply as `Opening` describes |
| Client.ServerConnection.IsRunning | src/Chat/Client/Network/ServerConnection.java:63-65 | reports the run flag |
| Client.ServerConnection.SendRequest | src/Chat/Client/Network/ServerConnection.java:105-112 | the request is appended to what the client has sent |
| Client.ServerConnection.Stop | src/Chat/Client/Network/ServerConnection.java:117-119 | clears the run flag and nothing else; a second call changes nothing |
| Client.ServerConnection.ReportError | src/Chat/Client/Network/ServerConnection.java:127-130 | clears the run flag |
| Client.ServerConnection.LogIn | src/Chat/Client/Network/ServerConnection.java:73-89 | sends the LOGIN request, then the reply is handled as `Opening` describes; a failed read leaves no chat room |
| Client.ServerConnection.HandleRequest | src/Chat/Client/Network/ServerConnection.java:156-176 | the new chat room, fate and remaining reads are those of `Answer` |
| Client.ServerConnection.UpdateChat | src/Chat/Client/Network/ServerConnection.java:96-98 | the local transcript grows by the message's line, printed with the connection's own time formatter |
| Client.ServerConnection.Run | src/Chat/Client/Network/ServerConnection.java:183-211 | the client's final state is `Listen` of its state and its reads; the chat room object and the sent requests are unchanged; the connection is closed exactly when the loop ended normally |
| Gui.MessageBody | src/Chat/Client/GUI/ClientGUI.java:409-422 | a text over 56 characters keeps its length with the character at n/2-1 replaced by a line break; a shorter one gets "\n" from the Send button and nothing from Enter |
| Gui.BodyKeepsText | src/Chat/Client/GUI/ClientGUI.java:409-425 | the sent message carries the user's name, the clock reading and the body; the typed text survives in it but for the one replaced character |
| Gui.LoginVerdict | src/Chat/Client/GUI/ClientGUI.java:446-475 | each reply code blocks entry with its own verdict, and every other text, the empty one included, enters |
| Gui.RefusalsBlockEntry | src/Chat/Client/GUI/ClientGUI.java:446-469 | the server's two refusals lead to the matching blocking verdicts |
| Gui.SuccessEnters | src/Chat/Client/GUI/ClientGUI.java:446-474 | after a successful login any transcript that is not a reply code enters the chat view |
| Gui.ErrorVerdictNeedsSnapshot | src/Chat/Client/GUI/ClientGUI.java:448-454 | the server-error verdict arises only from a successful login whose transcript text is "ERROR" |
| Gui.ClientGui.constructor | src/Chat/Client/GUI/ClientGUI.java:44-49 | no user, connection or chat room yet |
| Gui.ClientGui.LoginToServer | src/Chat/Client/GUI/ClientGUI.java:484-488 | creates the user, then the connection, and shares the connection's chat room; when an exception escapes the connection's construction the previous connection and chat room stay |
| Gui.ClientGui.HandleLogin | src/Chat/Client/GUI/ClientGUI.java:442-476 | the verdict is `LoginVerdict` of the chat room's text when the login left one; after an invalid name the chat room is dropped; after an exception in the login the previous connection and chat room stay |
| Gui.ClientGui.HandleMessage | src/Chat/Client/GUI/ClientGUI.java:405-434 | sends exactly one SEND_MESSAGE carrying the user's name, the clock reading and the shaped body |
| Agreement.LoginThenBroadcast | src/Chat/Server/ServerThread.java:138-150 | a client that logs in under a free name and reads its stream after a completed broadcast opens with the server's snapshot, and ends holding exactly the server transcript if and only if it prints the message's send time as the server does |

## Left out

- Sockets and object streams: `ServerSocket.accept` and the thread start in `ChatServer.main`, opening and closing sockets, and flushing are not modelled. Each server-side stream is an outbox in `Wire.Network`. Each client's input is a sequence of reads that ends where a read fails.
- Concurrency: threads run one whole call at a time. `synchronized`, `wait` and `notify` are not modelled. The never-ending wait on the ready flag is the outcome `Stalled`. The `userExists`/`addUser` check in the server's login is not atomic in the code, and the model does not claim it is.
- Time formatting: `SimpleDateFormat("HH:mm:ss")` uses the process's default time zone, so the formatter is the parameter `fmt`, and the server's and a client's formatters are separate parameters `serverFmt` and `clientFmt`. The GUI's `getCurrentTime` reads the clock, so it is the parameter `now` of `HandleMessage`.
- Observer notification (`ChatRoom.messageSent`, `update`), JavaFX layout, alerts, sounds and the mute and own-message flags are UI only.
- The console client `ConsoleApplication` is not part of this model.
- `System.exit` is the terminal fate `Exited`. An uncaught exception is `Crashed`: during the login it escapes the connection's constructor and the GUI's login handler, which leaves the GUI's connection and chat room as they were; in the read loop it ends the reading thread. Printing and stack traces are not modelled.
- Java nulls: the no-argument constructors of `Users` and `UserMessage` are not modelled. The server thread's name before login is `None`. `new ChatRoom(null)` after an invalid name is modelled as dropping the chat room.
- `ChatServer.isRunning` is set by the constructor and read only by `main`'s accept loop, which is not modelled; the model keeps the field, and no modelled operation reads or changes it. `serverIsRunning` in the server thread is always true and is not modelled.
- `InterruptedException` from the wait is not modelled.
- A message's author is the user name at the time the message is built. The message travels by copy, so a later rename of the sender's `Users` object is not seen by receivers.
- Gui.MessageBody: lengths count Dafny characters, while Java counts UTF-16 code units; the two differ for characters outside the Basic Multilingual Plane.
- Gui.ClientGui.HandleMessage: a trigger that is neither the Send button nor the text area (which would send a null body) cannot occur in the program and is not modelled.
- Client.ServerConnection.SendRequest: a failing write on the client side is not modelled; client writes always succeed.
- Handler.ServerThread.Run: the final state is not stated as a function of the whole input; the loop's invariants give the exit conditions, and each pass is tied to `Turn` by `TakeTurn`.
- Agreement.LoginThenBroadcast: agreement holds only when client and server print the send time alike, for instance when they share a default time zone; otherwise the if-and-only-if shows that the client's text differs.
- Client.ClientMatchesServer: requires the client to print the send times of the messages as the server does, for instance a shared default time zone; `Transcript.LineDeterminesTime` shows that a message's line differs otherwise.
