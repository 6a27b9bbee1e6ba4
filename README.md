# net-cat chat server: a Dafny model of its bookkeeping

net-cat is a TCP group chat (in the style of `nc`). A client connects and
gets a banner asking for a name. Once its name is accepted it is registered in
the `users` registry, the server tells everyone else it has joined, and the
client gets the whole `messages` history followed by its own prompt. From then
on every line it sends is either `exit` (announce the leave, say goodbye, end),
an empty line (refused, re-prompted) or a message, which is appended to the
history and delivered to every other participant. An `activeClients` counter
caps the number of running sessions at `maxClients = 10`.

The model follows the source's own structure:

- `chat.dfy`, module `Chat`: the shared values. These are `User`, `Message`,
  the prompt and user-line formats, the history replay (`Replay`), the
  recipient rule (`Recipients`: skip a participant whose name equals the
  sender's non-empty name), and facts about registries whose names are
  distinct.
- `server.dfy`, module `Server`: `main.go`. The class `ChatServer` holds the
  registry, the history, the counter, what has been written to each
  connection (`outbox`, one chunk per `conn.Write`/`Fprintf`/`Fprintln` call),
  the closed connections, and the running `ProcessClient` sessions, each
  still negotiating a name or chatting. `ProcessClient` is cut into the steps
  its loops take: `Accept` (the gate in `main` plus the banner), `SubmitName`
  (one turn of the name loop), `HandleLine` (one turn of the chat loop), and
  the teardown. Every step keeps the invariant `Valid`:
  - the counter equals the number of running sessions and is at most 10;
  - exactly the chatting sessions are registered, each under its own
    connection;
  - registered names are non-empty and pairwise distinct;
  - no running session's connection is closed.
- `messages.dfy`, module `Messages`: `messages.go`. This covers `isASCII` and
  that file's `NotifyAll`/`BroadcastMessage` variant, which runs over the same
  state. Its `SendPreviousMessages` is the same code as `main.go`'s and is
  modelled once, as `ChatServer.SendPreviousMessages`.

Both `NotifyAll` variants share one recipient loop
(`ChatServer.DeliverToRecipients`). Give it the file's per-recipient chunk
function and it writes those chunks to exactly the connections in
`Recipients`, leaving every other connection's output unchanged. The two
files differ in one place: after a system message, `main.go` writes no
prompt, while `messages.go` writes `"\n"` and the recipient's prompt
(`Messages.VariantsCompared`). A live message matches its replay line: a user
message is written as `"\n"`, its replay line and then the prompt, and a
system message as `"\n"` and its replay line minus the final newline.

Two behaviours of the code as written are modelled as they are:

- **The scanner stops during name negotiation.** The peer disconnects, or a
  line is longer than the scanner allows. The name loop then falls through
  to registration with whatever `username` last held: `""`, or a name that
  is already taken. The join is broadcast, history is replayed and a prompt
  is written. The chat loop ends at once, because the scanner stays stopped,
  and the session is torn down. Through the recipient rule this has two
  effects:
  - the participant who already holds that name is not told of the join;
  - with an empty name, everyone is told of it live, the joiner included.

  `ChatServer.AdmitLeftover` and `ChatServer.FallThrough` state this. The
  registry ends up as it was.
- **A disconnect during chat is not announced.** The leave message is sent
  only on `exit`. When the peer disconnects, the session is simply torn down
  (`HandleLine` with no line).

Clock readings are passed in as timestamp strings, one per step. The banner's
logo file contents are a parameter, and each client line is a parameter
(`None` when the scanner stops).

## Model

| member | source | states |
|---|---|---|
| Chat.Replay | messages.go:84-97 | replaying a history writes one chunk per entry, in history order: the content and a newline for a system entry, `[ts][name]:content` and a newline for a user entry |
| Chat.ReplayAppend | main.go:146-151 | replaying a history that grew by one entry writes the old replay and then the new entry's line, so a joiner's replay ends with its own join message |
| Chat.Recipients | main.go:106-109 | a broadcast reaches exactly the registered connections whose user does not hold the sender's non-empty name; every one whose name differs is included; with an empty sender name every registered connection is included |
| Chat.RecipientsOfRegisteredSender | main.go:106-109 | when names are distinct and non-empty, a registered sender's broadcast reaches every other registered connection and never the sender's own |
| Chat.RecipientsOfFreshName | main.go:106-109 | a name nobody holds reaches every registered connection |
| Chat.AdmitKeepsNamesDistinct | main.go:197-224 | admitting a connection under a name no one holds keeps registered names pairwise distinct |
| Server.LiveUserMessageMatchesReplay | main.go:116-118 | a user message written live is `"\n"`, exactly its replay line, then the recipient's prompt |
| Server.LiveSystemMessageMatchesReplay | main.go:112-115 | a system message written live is `"\n"` and its replay line minus the final newline; no prompt follows |
| Server.JoinRecipients | main.go:222-229 | the join announcement for a fresh, non-empty name reaches exactly the participants registered before, never the joiner |
| Server.FallThroughRecipients | main.go:190-229 | the join announcement for a leftover name reaches those who were reached before, plus the joiner exactly when the name is empty |
| Server.AcceptPreserves | main.go:76-86 | accepting below the cap keeps the counter equal to the number of sessions and within the cap |
| Server.RejectPreserves | main.go:77-82 | refusing a connection touches nothing the invariant counts |
| Server.RenegotiatePreserves | main.go:190-213 | a session that keeps negotiating keeps the invariant |
| Server.AdmitPreserves | main.go:215-224 | admitting a negotiating session under a free non-empty name keeps the invariant: names stay distinct, the count is unchanged |
| Server.LeftoverUndone | main.go:222-224 | registering a leftover name and then deleting the same key leaves the registry and the other sessions as they were |
| Server.EndPreserves | main.go:175-184 | ending a session keeps the invariant: the counter drops by one with the set of sessions, and the connection is closed |
| Server.ChatServer.constructor | main.go:32-39 | the server starts with an empty registry, an empty history, a zero counter, no output and no sessions, and satisfies the invariant |
| Server.ChatServer.Write | main.go:112 | a write appends its chunks to that connection's output and to no other |
| Server.ChatServer.DeliverToRecipients | main.go:106-120 | the loop over the registry writes a recipient's chunks to each connection in `Recipients` and leaves every other connection's output as it was |
| Server.ChatServer.NotifyAll | main.go:102-121 | each recipient gets `"\n"` then the bare content for a system message, or `"\n"` then `[ts][sender]:content`, a newline and its own prompt for a user message; non-recipients get nothing |
| Server.ChatServer.BroadcastMessage | main.go:123-140 | exactly one entry, carrying the content, the sender's name and the system flag, is appended at the tail of history; earlier entries are unchanged; then everyone is notified as by `NotifyAll` |
| Server.ChatServer.SendPreviousMessages | main.go:142-153 | the connection gets the replay of the whole history, in order; no other connection gets output and the history is unchanged |
| Server.ChatServer.DisplayPrompt | main.go:155-158 | the connection gets `[ts][name]:` and nothing else changes |
| Server.ChatServer.DisplayLogo | main.go:160-170 | the connection gets the banner: one chunk without a logo, or greeting, logo and name request as three chunks |
| Server.ChatServer.NameTaken | main.go:197-205 | the duplicate scan is true exactly when some registered user holds the name, compared exactly |
| Server.ChatServer.Accept | main.go:76-88 | at 10 or more running sessions, the connection gets the full notice and is closed, the counter is unchanged and no session starts; otherwise the counter rises by exactly one, a negotiating session starts and the banner is written; the invariant holds |
| Server.ChatServer.Admit | main.go:215-231 | the user is stored exactly at key `c`; the join is appended to history and announced; then the joiner gets the replay (ending with the join) and a prompt, in that order |
| Server.ChatServer.Teardown | main.go:175-184 | the registry loses `c` (twice, the second a no-op), `c` is closed, the counter drops by one, the session ends |
| Server.ChatServer.Join | main.go:215-231 | for a free name: the registry gains exactly `c`, every participant registered before gets `"\n"` and the join message, the joiner gets no live copy but the full replay ending with it, then its prompt; the invariant holds |
| Server.ChatServer.AdmitLeftover | main.go:190-231 | after a stop during negotiation, the last line read is registered whatever it is; those holding that name are not told; with an empty name the joiner also gets its own join live |
| Server.ChatServer.FallThrough | main.go:190-256 | a stop during negotiation registers, announces and replays as above, then tears the session down at once; the registry ends as it was; the invariant holds |
| Server.ChatServer.SubmitName | main.go:190-213 | an empty line writes the empty-name notice and a taken name the taken notice, both leaving registry and history unchanged; a free name is admitted as by `Join`; a stopped scanner falls through as by `FallThrough` |
| Server.ChatServer.EndSession | main.go:253-255 | ending a session: the registry, the sessions and the counter lose `c`, `c` is closed, the invariant holds |
| Server.ChatServer.AnnounceLeave | main.go:235-239 | `exit` appends `<name> has left our chat...` as a system entry, delivers it to every other participant and writes `Goodbye!\n` to the leaver |
| Server.ChatServer.Leave | main.go:235-241 | `exit` announces the leave, says goodbye and ends the session; the invariant holds |
| Server.ChatServer.Post | main.go:249-250 | an ordinary line appends one user entry, is delivered to every other participant with their own prompt, and the sender is re-prompted |
| Server.ChatServer.HandleLine | main.go:233-255 | a disconnect ends the session with no announcement and no output; `exit` leaves; an empty line writes the notice and a prompt with history unchanged; anything else is posted |
| Messages.IsAscii | messages.go:22-29 | true exactly when every byte is at most 127 (so true for the empty string) |
| Messages.LiveMatchesReplay | messages.go:55-60 | in this variant every message written live, of either kind, is `"\n"`, exactly its replay line, then the recipient's prompt |
| Messages.VariantsCompared | messages.go:55-61 | the two files' per-recipient output agree on user messages; on system messages, this file's adds `"\n"` and the recipient's prompt |
| Messages.NotifyAll | messages.go:31-63 | same recipient rule as `main.go`; each recipient gets `"\n"`, the content and `"\n"` plus its prompt for a system message, or `"\n"` then `[ts][sender]:msg`, a newline and its prompt for a user message |
| Messages.BroadcastMessage | messages.go:65-81 | exactly one entry is appended at the tail of history before notifying, and earlier history is untouched |

## Left out

- Sockets, the listener and `bufio.Scanner` are left out. Connections are opaque ids, and each line read is a parameter (`None` when the scanner stops). Scanner token limits and read errors are not distinguished from a disconnect.
- Goroutines and the three mutexes are left out. Each step (accept, one name line, one chat line) is atomic. Two consequences:
  - the race between the duplicate scan (main.go:197-205) and the insert (main.go:222-224) cannot be expressed;
  - the invariant that names are distinct holds only in this sequential model.
- Go's random map iteration order in `NotifyAll` is not modelled. Delivery is stated per recipient, and the recipient set is what matters.
- `time.Now()` and date formatting become one opaque timestamp string per step. So within a step, the entry's time, the live line's time and the prompt's time coincide, whereas the source reads the clock for each.
- Write errors, and writes to a closed or disconnected peer, are not modelled. Every write lands in that connection's output.
- The explicit `conn.Close()` at main.go:240 and the deferred close at main.go:176 are modelled by one action, which marks the connection closed.
- `SetupLogging`, `log.Printf`, `fmt.Println` console output and the command-line port argument (main.go:41-67, 92-100) are left out: they are plumbing.
- `DisplayLogo`'s read of `logo.txt` is left out. Its result is the `logo` parameter.
- `conn.RemoteAddr()` is passed to `Accept`.
- Messages.IsAscii works on bytes (`seq<byte>`), while the rest of the model's strings are `seq<char>`. The UTF-8 encoding that links them is not modelled, and neither is `isASCII`'s only caller, which is commented out (messages.go:32-35).
- `SendPreviousMessages` in messages.go is not a separate member, because its text is identical to main.go's. It is `Server.ChatServer.SendPreviousMessages`.
