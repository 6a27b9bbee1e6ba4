/**
 The entities both source files share: connections, registered users, history
 entries, and the text the server writes for them (prompts, user lines, the
 history replay). Everything here is a value; the mutable state lives in
 `Server.ChatServer`.
 */
module Chat {

  /** An accepted connection (a `net.Conn`), identified opaquely. */
  type ConnId = nat

  datatype Option<T> = None | Some(value: T)

  /** How many sessions the accept loop lets run at once (`maxClients`). */
  const MaxClients: int := 10

  /** A registered participant; `connection` is the registry key it is stored under. */
  datatype User = User(username: string, ipAddress: string, joinedAt: string, connection: ConnId)

  /** A history entry; `timeStamp` is the already formatted capture time. */
  datatype Message = Message(content: string, timeStamp: string, clientName: string, systemMessage: bool)

  /** The input prompt `[ts][name]:` shown to `name`. */
  function Prompt(ts: string, name: string): string
  {
    "[" + ts + "][" + name + "]:"
  }

  /** A user message as it is shown to others: `[ts][author]:content`. */
  function UserLine(ts: string, author: string, content: string): string
  {
    "[" + ts + "][" + author + "]:" + content
  }

  /** The one line that history replay writes for an entry. */
  function ReplayLine(m: Message): string
  {
    if m.systemMessage then m.content + "\n"
    else UserLine(m.timeStamp, m.clientName, m.content) + "\n"
  }

  /** What replaying `history` to a connection writes: one chunk per entry, in history order. */
  function Replay(history: seq<Message>): (r: seq<string>)
    ensures |r| == |history|
    ensures forall i {:trigger r[i]} :: 0 <= i < |history| ==> r[i] == ReplayLine(history[i])
  {
    seq(|history|, i requires 0 <= i < |history| => ReplayLine(history[i]))
  }

  /** Replaying a history that grew by one entry writes the old replay and then that entry's line. */
  lemma {:induction false} ReplayAppend(history: seq<Message>, m: Message)
    ensures Replay(history + [m]) == Replay(history) + [ReplayLine(m)]
  {
  }

  /** Appending output in two steps is appending it in one. */
  lemma AppendAssoc<T>(a: seq<T>, b: seq<T>, c: seq<T>)
    ensures a + b + c == a + (b + c)
  {
  }

  /** The text a sequence of written chunks puts on the wire. */
  function Concat(chunks: seq<string>): string
  {
    if chunks == [] then "" else chunks[0] + Concat(chunks[1..])
  }

  /** Whether a broadcast by `senderName` is delivered to `recipient`: only a non-empty sender name excludes anyone. */
  predicate IsRecipient(senderName: string, recipient: User)
  {
    !(senderName != "" && senderName == recipient.username)
  }

  /** The registered connections a broadcast by `senderName` is written to. */
  function Recipients(users: map<ConnId, User>, senderName: string): (r: set<ConnId>)
    ensures r <= users.Keys
    ensures forall c :: c in users && users[c].username != senderName ==> c in r
    ensures senderName != "" ==> forall c :: c in r ==> users[c].username != senderName
    ensures senderName == "" ==> r == users.Keys
  {
    set c | c in users && IsRecipient(senderName, users[c])
  }

  /** Some registered connection holds `name` (exact, case-sensitive). */
  ghost predicate Taken(users: map<ConnId, User>, name: string)
  {
    exists c :: c in users && users[c].username == name
  }

  /** No two registered connections hold the same username. */
  ghost predicate DistinctNames(users: map<ConnId, User>)
  {
    forall c, d :: c in users && d in users && c != d ==> users[c].username != users[d].username
  }

  /** Every registered username is non-empty. */
  ghost predicate NonEmptyNames(users: map<ConnId, User>)
  {
    forall c :: c in users ==> users[c].username != ""
  }

  /**
   When names are distinct and non-empty, a broadcast by a registered sender
   reaches exactly the other registered connections: never the sender's own.
   */
  lemma RecipientsOfRegisteredSender(users: map<ConnId, User>, s: ConnId)
    requires DistinctNames(users) && NonEmptyNames(users) && s in users
    ensures Recipients(users, users[s].username) == users.Keys - {s}
  {
  }

  /** A name that no registered user holds reaches every registered connection. */
  lemma RecipientsOfFreshName(users: map<ConnId, User>, name: string)
    requires forall c :: c in users ==> users[c].username != name
    ensures Recipients(users, name) == users.Keys
  {
  }

  /** Admitting a connection under a name no one holds keeps the usernames pairwise distinct. */
  lemma AdmitKeepsNamesDistinct(users: map<ConnId, User>, c: ConnId, u: User)
    requires DistinctNames(users) && c !in users
    requires forall d :: d in users ==> users[d].username != u.username
    ensures DistinctNames(users[c := u])
  {
  }
}
