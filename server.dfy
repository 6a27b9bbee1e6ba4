/**
 main.go: the shared state of the chat server (the `users` registry, the
 `messages` history, the `activeClients` counter and what has been written to
 each connection), its NotifyAll / BroadcastMessage / SendPreviousMessages, and
 `ProcessClient` cut into the steps a connection goes through: accept, one name
 line, one chat line, teardown. Each step is atomic here.
 */
module Server {
  import opened Chat

  /**
   Where a running `ProcessClient` is: still reading names (holding the last line
   read, which the source keeps in `username`), or admitted as `user`.
   */
  datatype Session = Negotiating(remoteAddr: string, username: string) | Chatting(user: User)

  const ServerFull := "Server is full. Please try again later.\n"
  const EmptyUsername := "Empty username is not allowed! Please enter a valid username: "
  const UsernameTaken := "Username is already taken. Please enter a different username: "
  const EmptyMessage := "Empty messages are not allowed!\n"
  const Goodbye := "Goodbye!\n"
  const Exit := "exit"

  function JoinMessage(name: string): string
  {
    name + " has joined our chat..."
  }

  function LeaveMessage(name: string): string
  {
    name + " has left our chat..."
  }

  /** The banner `DisplayLogo` writes; `logo` is the content of the logo file, `None` when it cannot be read. */
  function Banner(logo: Option<string>): seq<string>
  {
    match logo
    case None => ["Welcome to TCP-Chat!\n[ENTER YOUR NAME]: "]
    case Some(l) => ["Welcome to TCP-Chat!\n", l, "\n[ENTER YOUR NAME]: "]
  }

  /**
   The chunks main.go's NotifyAll writes to one recipient: a newline, then a
   system message bare (no trailing prompt), or a user message followed by the
   recipient's own prompt.
   */
  function NotifyChunks(message: string, senderName: string, isSystemMessage: bool, ts: string, recipientName: string): seq<string>
  {
    if isSystemMessage then ["\n", message]
    else ["\n", UserLine(ts, senderName, message) + "\n" + Prompt(ts, recipientName)]
  }

  /** A user message delivered live reads exactly as its replay line does, between a newline and the recipient's prompt. */
  lemma LiveUserMessageMatchesReplay(m: Message, recipientName: string)
    requires !m.systemMessage
    ensures Concat(NotifyChunks(m.content, m.clientName, false, m.timeStamp, recipientName))
            == "\n" + ReplayLine(m) + Prompt(m.timeStamp, recipientName)
  {
    var line := UserLine(m.timeStamp, m.clientName, m.content);
    var tail := line + "\n" + Prompt(m.timeStamp, recipientName);
    assert ["\n", tail][1..] == [tail] && [tail][1..] == [];
    assert Concat([tail]) == tail;
    assert ReplayLine(m) == line + "\n";
  }

  /** A system message delivered live is its replay line with the newline moved in front, and no prompt follows it. */
  lemma LiveSystemMessageMatchesReplay(m: Message, ts: string, recipientName: string)
    requires m.systemMessage
    ensures Concat(NotifyChunks(m.content, m.clientName, true, ts, recipientName)) + "\n" == "\n" + ReplayLine(m)
  {
    assert ["\n", m.content][1..] == [m.content] && [m.content][1..] == [];
    assert Concat([m.content]) == m.content;
  }

  /** The join announcement for a fresh, non-empty name reaches everyone registered before, and not the joiner. */
  lemma JoinRecipients(users: map<ConnId, User>, u: User)
    requires u.connection !in users && u.username != "" && !Taken(users, u.username)
    ensures Recipients(users[u.connection := u], u.username) == users.Keys
  {
  }

  /**
   The join announcement for whatever name the scanner left behind: it skips
   every participant holding that name, and with an empty name it reaches
   everyone, the joiner included.
   */
  lemma FallThroughRecipients(users: map<ConnId, User>, u: User)
    requires u.connection !in users
    ensures Recipients(users[u.connection := u], u.username)
            == Recipients(users, u.username) + (if u.username == "" then {u.connection} else {})
  {
  }

  /** Everything written to `c` so far, given the server's outbox. */
  function Out(outbox: map<ConnId, seq<string>>, c: ConnId): seq<string>
  {
    if c in outbox then outbox[c] else []
  }

  /**
   The invariant between steps: the counter counts the running sessions and
   never passes the cap, exactly the admitted sessions are registered (each
   under its own connection), registered names are non-empty and pairwise
   distinct, and no running session's connection is closed.
   */
  ghost predicate Consistent(users: map<ConnId, User>, sessions: map<ConnId, Session>, activeClients: int, closed: set<ConnId>)
  {
    && activeClients == |sessions| <= MaxClients
    && (forall c :: c in users <==> c in sessions && sessions[c].Chatting?)
    && (forall c :: c in users ==> sessions[c].user == users[c] && users[c].connection == c)
    && DistinctNames(users)
    && NonEmptyNames(users)
    && sessions.Keys !! closed
  }

  /** A new connection accepted below the cap: the counter stays within the cap and still counts the sessions. */
  lemma AcceptPreserves(users: map<ConnId, User>, sessions: map<ConnId, Session>, activeClients: int, closed: set<ConnId>,
                        c: ConnId, remoteAddr: string)
    requires Consistent(users, sessions, activeClients, closed)
    requires c !in sessions && c !in closed && activeClients < MaxClients
    ensures Consistent(users, sessions[c := Negotiating(remoteAddr, "")], activeClients + 1, closed)
  {
    assert sessions[c := Negotiating(remoteAddr, "")].Keys == sessions.Keys + {c};
  }

  /** A refused connection is closed without touching anything the invariant counts. */
  lemma RejectPreserves(users: map<ConnId, User>, sessions: map<ConnId, Session>, activeClients: int, closed: set<ConnId>, c: ConnId)
    requires Consistent(users, sessions, activeClients, closed) && c !in sessions
    ensures Consistent(users, sessions, activeClients, closed + {c})
  {
  }

  /** A session that keeps negotiating with another remembered name. */
  lemma RenegotiatePreserves(users: map<ConnId, User>, sessions: map<ConnId, Session>, activeClients: int, closed: set<ConnId>,
                             c: ConnId, name: string)
    requires Consistent(users, sessions, activeClients, closed)
    requires c in sessions && sessions[c].Negotiating?
    ensures Consistent(users, sessions[c := Negotiating(sessions[c].remoteAddr, name)], activeClients, closed)
  {
    assert sessions[c := Negotiating(sessions[c].remoteAddr, name)].Keys == sessions.Keys;
  }

  /** Admitting a negotiating session under a non-empty free name keeps names distinct and the count unchanged. */
  lemma AdmitPreserves(users: map<ConnId, User>, sessions: map<ConnId, Session>, activeClients: int, closed: set<ConnId>, u: User)
    requires Consistent(users, sessions, activeClients, closed)
    requires u.connection in sessions && sessions[u.connection].Negotiating?
    requires u.username != "" && !Taken(users, u.username)
    ensures Consistent(users[u.connection := u], sessions[u.connection := Chatting(u)], activeClients, closed)
  {
    var c := u.connection;
    assert sessions[c := Chatting(u)].Keys == sessions.Keys;
    AdmitKeepsNamesDistinct(users, c, u);
  }

  /**
   Registering a leftover name and tearing the session straight down again
   leaves the registry as it was and the other sessions untouched.
   */
  lemma LeftoverUndone(users: map<ConnId, User>, sessions: map<ConnId, Session>, u: User)
    requires u.connection !in users
    ensures users - {u.connection} == users
    ensures users[u.connection := u] - {u.connection} == users
    ensures sessions[u.connection := Chatting(u)] - {u.connection} == sessions - {u.connection}
  {
  }

  /** Ending a session: the counter drops by one together with the set of sessions. */
  lemma EndPreserves(users: map<ConnId, User>, sessions: map<ConnId, Session>, activeClients: int, closed: set<ConnId>, c: ConnId)
    requires Consistent(users, sessions, activeClients, closed) && c in sessions
    ensures Consistent(users - {c}, sessions - {c}, activeClients - 1, closed + {c})
  {
    assert (sessions - {c}).Keys == sessions.Keys - {c};
  }

  class ChatServer {
    /** The registry: who is admitted, keyed by connection. */
    var users: map<ConnId, User>
    /** The history, only ever appended to. */
    var messages: seq<Message>
    var activeClients: int
    /** Every chunk written to each connection so far, in order. */
    var outbox: map<ConnId, seq<string>>
    /** Connections that have been closed. */
    var closed: set<ConnId>
    /** The `ProcessClient` goroutines still running, one per accepted connection. */
    var sessions: map<ConnId, Session>

    /** The server's invariant between steps (see `Consistent`). */
    ghost predicate Valid()
      reads this`users, this`sessions, this`activeClients, this`closed
    {
      Consistent(users, sessions, activeClients, closed)
    }

    constructor ()
      ensures Valid()
      ensures users == map[] && messages == [] && activeClients == 0
      ensures outbox == map[] && closed == {} && sessions == map[]
    {
      users := map[];
      messages := [];
      activeClients := 0;
      outbox := map[];
      closed := {};
      sessions := map[];
    }

    /** Writes `chunks` to `c`, one `conn.Write` each. */
    method Write(c: ConnId, chunks: seq<string>)
      modifies this`outbox
      ensures Out(outbox, c) == Out(old(outbox), c) + chunks
      ensures forall d :: d != c ==> Out(outbox, d) == Out(old(outbox), d)
    {
      outbox := outbox[c := Out(outbox, c) + chunks];
    }

    /**
     The loop both NotifyAll variants share: over every registered connection,
     skipping one whose user has the sender's (non-empty) name, write what
     `chunksFor` gives for that recipient's name. Map order is left open: each
     connection's output depends only on its own entry.
     */
    method DeliverToRecipients(senderName: string, chunksFor: string -> seq<string>)
      modifies this`outbox
      ensures forall d :: Out(outbox, d) == if d in Recipients(users, senderName)
                                            then Out(old(outbox), d) + chunksFor(users[d].username)
                                            else Out(old(outbox), d)
    {
      var pending := users.Keys;
      while pending != {}
        invariant pending <= users.Keys
        invariant forall d :: Out(outbox, d) == if d in Recipients(users, senderName) && d !in pending
                                              then Out(old(outbox), d) + chunksFor(users[d].username)
                                              else Out(old(outbox), d)
        decreases pending
      {
        var c :| c in pending;
        if IsRecipient(senderName, users[c]) {
          Write(c, chunksFor(users[c].username));
        }
        pending := pending - {c};
      }
    }

    /** main.go's NotifyAll. */
    method NotifyAll(message: string, sender: User, isSystemMessage: bool, ts: string)
      modifies this`outbox
      ensures forall d :: Out(outbox, d) == if d in Recipients(users, sender.username)
                                            then Out(old(outbox), d) + NotifyChunks(message, sender.username, isSystemMessage, ts, users[d].username)
                                            else Out(old(outbox), d)
    {
      DeliverToRecipients(sender.username, (name: string) => NotifyChunks(message, sender.username, isSystemMessage, ts, name));
    }

    /** main.go's BroadcastMessage: append one entry at the tail of history, then notify. */
    method BroadcastMessage(user: User, content: string, isSystemMessage: bool, ts: string)
      modifies this`messages, this`outbox
      ensures messages == old(messages) + [Message(content, ts, user.username, isSystemMessage)]
      ensures forall d :: Out(outbox, d) == if d in Recipients(users, user.username)
                                            then Out(old(outbox), d) + NotifyChunks(content, user.username, isSystemMessage, ts, users[d].username)
                                            else Out(old(outbox), d)
    {
      var msg := Message(content, ts, user.username, isSystemMessage);
      messages := messages + [msg];
      if isSystemMessage {
        NotifyAll(content, user, true, ts);
      } else {
        NotifyAll(content, user, false, ts);
      }
    }

    /** Writes the whole history to `conn`, one line per entry in order; the history is left as it was. */
    method SendPreviousMessages(conn: ConnId)
      modifies this`outbox
      ensures Out(outbox, conn) == Out(old(outbox), conn) + Replay(messages)
      ensures forall d :: d != conn ==> Out(outbox, d) == Out(old(outbox), d)
    {
      for i := 0 to |messages|
        invariant Out(outbox, conn) == Out(old(outbox), conn) + Replay(messages)[..i]
        invariant forall d :: d != conn ==> Out(outbox, d) == Out(old(outbox), d)
      {
        var msg := messages[i];
        if msg.systemMessage {
          Write(conn, [msg.content + "\n"]);
        } else {
          Write(conn, [UserLine(msg.timeStamp, msg.clientName, msg.content) + "\n"]);
        }
        assert Replay(messages)[..i + 1] == Replay(messages)[..i] + [ReplayLine(msg)];
        AppendAssoc(Out(old(outbox), conn), Replay(messages)[..i], [ReplayLine(msg)]);
      }
      assert Replay(messages)[..|messages|] == Replay(messages);
    }

    method DisplayPrompt(conn: ConnId, username: string, ts: string)
      modifies this`outbox
      ensures Out(outbox, conn) == Out(old(outbox), conn) + [Prompt(ts, username)]
      ensures forall d :: d != conn ==> Out(outbox, d) == Out(old(outbox), d)
    {
      Write(conn, [Prompt(ts, username)]);
    }

    method DisplayLogo(conn: ConnId, logo: Option<string>)
      modifies this`outbox
      ensures Out(outbox, conn) == Out(old(outbox), conn) + Banner(logo)
      ensures forall d :: d != conn ==> Out(outbox, d) == Out(old(outbox), d)
    {
      match logo
      case None =>
        Write(conn, ["Welcome to TCP-Chat!\n[ENTER YOUR NAME]: "]);
      case Some(l) =>
        Write(conn, ["Welcome to TCP-Chat!\n"]);
        Write(conn, [l]);
        Write(conn, ["\n[ENTER YOUR NAME]: "]);
    }

    /** The duplicate-name scan: exact, case-sensitive comparison against every registered username. */
    method NameTaken(username: string) returns (duplicate: bool)
      ensures duplicate <==> exists c :: c in users && users[c].username == username
    {
      duplicate := false;
      var pending := users.Keys;
      while pending != {}
        invariant pending <= users.Keys
        invariant forall c :: c in users && c !in pending ==> users[c].username != username
        decreases pending
      {
        var c :| c in pending;
        if users[c].username == username {
          duplicate := true;
          break;
        }
        pending := pending - {c};
      }
    }

    /**
     The accept loop's capacity gate, then the start of `ProcessClient`: a full
     server writes the notice and closes the connection without starting a
     session; otherwise the counter goes up by one and the banner is written.
     */
    method Accept(c: ConnId, remoteAddr: string, logo: Option<string>) returns (started: bool)
      requires Valid()
      requires c !in sessions && c !in closed  // a connection the listener has not handed out before
      modifies this
      ensures Valid()
      ensures started <==> old(activeClients) < MaxClients
      ensures users == old(users) && messages == old(messages)
      ensures started ==> && activeClients == old(activeClients) + 1
                          && sessions == old(sessions)[c := Negotiating(remoteAddr, "")]
                          && closed == old(closed)
      ensures !started ==> && activeClients == old(activeClients)
                           && sessions == old(sessions)
                           && closed == old(closed) + {c}
      ensures forall d :: Out(outbox, d) == Out(old(outbox), d) + (if d != c then [] else if started then Banner(logo) else [ServerFull])
    {
      if activeClients >= MaxClients {
        RejectPreserves(users, sessions, activeClients, closed, c);
        Write(c, [ServerFull]);
        closed := closed + {c};
        started := false;
        return;
      }
      AcceptPreserves(users, sessions, activeClients, closed, c, remoteAddr);
      activeClients := activeClients + 1;
      sessions := sessions[c := Negotiating(remoteAddr, "")];
      started := true;
      DisplayLogo(c, logo);
    }

    /**
     Admission: store the user at key `c`, announce the join to everyone else,
     replay the history (which now ends with that announcement) and prompt.
     */
    method Admit(c: ConnId, remoteAddr: string, username: string, ts: string)
      modifies this`users, this`sessions, this`messages, this`outbox
      ensures users == old(users)[c := User(username, remoteAddr, ts, c)]
      ensures sessions == old(sessions)[c := Chatting(users[c])]
      ensures messages == old(messages) + [Message(JoinMessage(username), ts, username, true)]
      ensures Out(outbox, c) == (if c in Recipients(users, username) then Out(old(outbox), c) + ["\n", JoinMessage(username)] else Out(old(outbox), c))
                                + Replay(messages) + [Prompt(ts, username)]
      ensures forall d :: d != c ==>
                Out(outbox, d) == if d in Recipients(users, username) then Out(old(outbox), d) + ["\n", JoinMessage(username)] else Out(old(outbox), d)
    {
      var user := User(username, remoteAddr, ts, c);
      users := users[c := user];
      sessions := sessions[c := Chatting(user)];
      BroadcastMessage(user, JoinMessage(username), true, ts);
      SendPreviousMessages(c);
      DisplayPrompt(c, username, ts);
    }

    /**
     The end of `ProcessClient`: the registry delete after the read loop, then
     the deferred close, a second (no-op) delete and the decrement.
     */
    method Teardown(c: ConnId)
      modifies this`users, this`closed, this`activeClients, this`sessions
      ensures users == old(users) - {c}
      ensures closed == old(closed) + {c}
      ensures activeClients == old(activeClients) - 1
      ensures sessions == old(sessions) - {c}
    {
      users := users - {c};
      closed := closed + {c};
      users := users - {c};
      activeClients := activeClients - 1;
      sessions := sessions - {c};
    }

    /** Admitting a free name: the registry gains exactly `c`, every participant already there sees the join, and the joiner gets the replay and a prompt. */
    method Join(c: ConnId, name: string, ts: string)
      requires Valid() && c in sessions && sessions[c].Negotiating?
      requires name != "" && !Taken(users, name)
      modifies this`users, this`sessions, this`messages, this`outbox
      ensures Valid()
      ensures users == old(users)[c := User(name, old(sessions[c]).remoteAddr, ts, c)]
      ensures sessions == old(sessions)[c := Chatting(users[c])]
      ensures messages == old(messages) + [Message(JoinMessage(name), ts, name, true)]
      ensures Out(outbox, c) == Out(old(outbox), c) + Replay(messages) + [Prompt(ts, name)]
      ensures forall d :: d != c ==>
                Out(outbox, d) == if d in old(users) then Out(old(outbox), d) + ["\n", JoinMessage(name)] else Out(old(outbox), d)
    {
      var u := User(name, sessions[c].remoteAddr, ts, c);
      AdmitPreserves(users, sessions, activeClients, closed, u);
      JoinRecipients(users, u);
      Admit(c, u.ipAddress, name, ts);
    }

    /**
     Registration of whatever name the scanner left behind (possibly empty or
     taken): a participant holding the same name is not told of the join; with
     an empty name every participant, the joiner included, gets it live.
     */
    method AdmitLeftover(c: ConnId, ts: string)
      requires Valid() && c in sessions && sessions[c].Negotiating?
      modifies this`users, this`sessions, this`messages, this`outbox
      ensures var name := old(sessions[c]).username;
              && users == old(users)[c := User(name, old(sessions[c]).remoteAddr, ts, c)]
              && sessions == old(sessions)[c := Chatting(users[c])]
              && messages == old(messages) + [Message(JoinMessage(name), ts, name, true)]
              && Out(outbox, c) == (if name == "" then Out(old(outbox), c) + ["\n", JoinMessage(name)] else Out(old(outbox), c))
                                   + Replay(messages) + [Prompt(ts, name)]
              && forall d :: d != c ==>
                   Out(outbox, d) == if d in Recipients(old(users), name) then Out(old(outbox), d) + ["\n", JoinMessage(name)] else Out(old(outbox), d)
    {
      var s := sessions[c];
      FallThroughRecipients(users, User(s.username, s.remoteAddr, ts, c));
      Admit(c, s.remoteAddr, s.username, ts);
    }

    /**
     The scanner stopped before a name was accepted: registration goes ahead
     with the last line read (see `AdmitLeftover`), then the chat loop ends at
     once, because the scanner stays stopped, and the session is torn down.
     */
    method FallThrough(c: ConnId, ts: string)
      requires Valid() && c in sessions && sessions[c].Negotiating?
      modifies this
      ensures Valid()
      ensures var name := old(sessions[c]).username;
              && users == old(users) && sessions == old(sessions) - {c}
              && activeClients == old(activeClients) - 1 && closed == old(closed) + {c}
              && messages == old(messages) + [Message(JoinMessage(name), ts, name, true)]
              && Out(outbox, c) == (if name == "" then Out(old(outbox), c) + ["\n", JoinMessage(name)] else Out(old(outbox), c))
                                   + Replay(messages) + [Prompt(ts, name)]
              && forall d :: d != c ==>
                   Out(outbox, d) == if d in Recipients(old(users), name) then Out(old(outbox), d) + ["\n", JoinMessage(name)] else Out(old(outbox), d)
    {
      var s := sessions[c];
      EndPreserves(users, sessions, activeClients, closed, c);
      LeftoverUndone(users, sessions, User(s.username, s.remoteAddr, ts, c));
      AdmitLeftover(c, ts);
      Teardown(c);
    }

    /**
     One turn of the name loop: `line` is the next line read, or `None` when the
     scanner stops. An empty line or a taken name writes its notice and keeps
     negotiating (remembering the line in `username`); a free name is admitted.
     */
    method SubmitName(c: ConnId, line: Option<string>, ts: string)
      requires Valid() && c in sessions && sessions[c].Negotiating?
      modifies this
      ensures Valid()
      ensures line == Some("") ==>
                && users == old(users) && messages == old(messages)
                && activeClients == old(activeClients) && closed == old(closed)
                && sessions == old(sessions)[c := Negotiating(old(sessions[c]).remoteAddr, "")]
                && Out(outbox, c) == Out(old(outbox), c) + [EmptyUsername]
                && forall d :: d != c ==> Out(outbox, d) == Out(old(outbox), d)
      ensures line.Some? && line.value != "" && old(Taken(users, line.value)) ==>
                && users == old(users) && messages == old(messages)
                && activeClients == old(activeClients) && closed == old(closed)
                && sessions == old(sessions)[c := Negotiating(old(sessions[c]).remoteAddr, line.value)]
                && Out(outbox, c) == Out(old(outbox), c) + [UsernameTaken]
                && forall d :: d != c ==> Out(outbox, d) == Out(old(outbox), d)
      ensures line.Some? && line.value != "" && !old(Taken(users, line.value)) ==>
                && users == old(users)[c := User(line.value, old(sessions[c]).remoteAddr, ts, c)]
                && sessions == old(sessions)[c := Chatting(users[c])]
                && messages == old(messages) + [Message(JoinMessage(line.value), ts, line.value, true)]
                && activeClients == old(activeClients) && closed == old(closed)
                && Out(outbox, c) == Out(old(outbox), c) + Replay(messages) + [Prompt(ts, line.value)]
                && forall d :: d != c ==>
                     Out(outbox, d) == if d in old(users) then Out(old(outbox), d) + ["\n", JoinMessage(line.value)] else Out(old(outbox), d)
      ensures line == None ==>
                var name := old(sessions[c]).username;
                && users == old(users) && sessions == old(sessions) - {c}
                && activeClients == old(activeClients) - 1 && closed == old(closed) + {c}
                && messages == old(messages) + [Message(JoinMessage(name), ts, name, true)]
                && Out(outbox, c) == (if name == "" then Out(old(outbox), c) + ["\n", JoinMessage(name)] else Out(old(outbox), c))
                                     + Replay(messages) + [Prompt(ts, name)]
                && forall d :: d != c ==>
                     Out(outbox, d) == if d in Recipients(old(users), name) then Out(old(outbox), d) + ["\n", JoinMessage(name)] else Out(old(outbox), d)
    {
      var s := sessions[c];
      match line
      case None =>
        FallThrough(c, ts);
      case Some(name) =>
        if name == "" {
          RenegotiatePreserves(users, sessions, activeClients, closed, c, "");
          sessions := sessions[c := Negotiating(s.remoteAddr, "")];
          Write(c, [EmptyUsername]);
        } else {
          var duplicate := NameTaken(name);
          if duplicate {
            RenegotiatePreserves(users, sessions, activeClients, closed, c, name);
            sessions := sessions[c := Negotiating(s.remoteAddr, name)];
            Write(c, [UsernameTaken]);
          } else {
            Join(c, name, ts);
          }
        }
    }

    /** Ending the session: the registry, the running sessions and the counter all lose `c`, and it is closed. */
    method EndSession(c: ConnId)
      requires Valid() && c in sessions
      modifies this`users, this`sessions, this`activeClients, this`closed
      ensures Valid()
      ensures users == old(users) - {c} && sessions == old(sessions) - {c}
      ensures activeClients == old(activeClients) - 1 && closed == old(closed) + {c}
    {
      EndPreserves(users, sessions, activeClients, closed, c);
      Teardown(c);
    }

    /** The `exit` command's output: the leave announcement to everyone else, then a goodbye to the leaver. */
    method AnnounceLeave(c: ConnId, ts: string)
      requires Valid() && c in sessions && sessions[c].Chatting?
      modifies this`messages, this`outbox
      ensures var name := old(sessions[c]).user.username;
              && messages == old(messages) + [Message(LeaveMessage(name), ts, name, true)]
              && Out(outbox, c) == Out(old(outbox), c) + [Goodbye]
              && forall d :: d != c ==>
                   Out(outbox, d) == if d in old(users) then Out(old(outbox), d) + ["\n", LeaveMessage(name)] else Out(old(outbox), d)
    {
      var user := sessions[c].user;
      RecipientsOfRegisteredSender(users, c);
      BroadcastMessage(user, LeaveMessage(user.username), true, ts);
      Write(c, [Goodbye]);
    }

    /** The `exit` command: announce the leave, say goodbye, close, and end the session. */
    method Leave(c: ConnId, ts: string)
      requires Valid() && c in sessions && sessions[c].Chatting?
      modifies this
      ensures Valid()
      ensures var name := old(sessions[c]).user.username;
              && users == old(users) - {c} && sessions == old(sessions) - {c}
              && activeClients == old(activeClients) - 1 && closed == old(closed) + {c}
              && messages == old(messages) + [Message(LeaveMessage(name), ts, name, true)]
              && Out(outbox, c) == Out(old(outbox), c) + [Goodbye]
              && forall d :: d != c ==>
                   Out(outbox, d) == if d in old(users) then Out(old(outbox), d) + ["\n", LeaveMessage(name)] else Out(old(outbox), d)
    {
      AnnounceLeave(c, ts);
      // The explicit close here and the deferred one in Teardown both just mark `c` closed.
      EndSession(c);
    }

    /** An ordinary line: one user message at the tail of history, delivered to everyone else, and a fresh prompt for the sender. */
    method Post(c: ConnId, msg: string, ts: string)
      requires Valid() && c in sessions && sessions[c].Chatting?
      modifies this`messages, this`outbox
      ensures Valid()
      ensures var name := old(sessions[c]).user.username;
              && messages == old(messages) + [Message(msg, ts, name, false)]
              && Out(outbox, c) == Out(old(outbox), c) + [Prompt(ts, name)]
              && forall d :: d != c ==>
                   Out(outbox, d) == if d in old(users) then Out(old(outbox), d) + NotifyChunks(msg, name, false, ts, old(users)[d].username)
                                     else Out(old(outbox), d)
    {
      var user := sessions[c].user;
      RecipientsOfRegisteredSender(users, c);
      BroadcastMessage(user, msg, false, ts);
      DisplayPrompt(c, user.username, ts);
    }

    /**
     One turn of the chat loop: `line` is the next line read, or `None` when the
     peer disconnects (no leave announcement then). `exit` leaves; an empty
     line is refused and re-prompted; anything else is posted.
     */
    method HandleLine(c: ConnId, line: Option<string>, ts: string)
      requires Valid() && c in sessions && sessions[c].Chatting?
      modifies this
      ensures Valid()
      ensures line == None ==>
                && users == old(users) - {c} && sessions == old(sessions) - {c}
                && activeClients == old(activeClients) - 1 && closed == old(closed) + {c}
                && messages == old(messages) && outbox == old(outbox)
      ensures line == Some(Exit) ==>
                var name := old(sessions[c]).user.username;
                && users == old(users) - {c} && sessions == old(sessions) - {c}
                && activeClients == old(activeClients) - 1 && closed == old(closed) + {c}
                && messages == old(messages) + [Message(LeaveMessage(name), ts, name, true)]
                && Out(outbox, c) == Out(old(outbox), c) + [Goodbye]
                && forall d :: d != c ==>
                     Out(outbox, d) == if d in old(users) then Out(old(outbox), d) + ["\n", LeaveMessage(name)] else Out(old(outbox), d)
      ensures line == Some("") ==>
                var name := old(sessions[c]).user.username;
                && users == old(users) && sessions == old(sessions)
                && activeClients == old(activeClients) && closed == old(closed)
                && messages == old(messages)
                && Out(outbox, c) == Out(old(outbox), c) + [EmptyMessage] + [Prompt(ts, name)]
                && forall d :: d != c ==> Out(outbox, d) == Out(old(outbox), d)
      ensures line.Some? && line.value != Exit && line.value != "" ==>
                var name := old(sessions[c]).user.username;
                && users == old(users) && sessions == old(sessions)
                && activeClients == old(activeClients) && closed == old(closed)
                && messages == old(messages) + [Message(line.value, ts, name, false)]
                && Out(outbox, c) == Out(old(outbox), c) + [Prompt(ts, name)]
                && forall d :: d != c ==>
                     Out(outbox, d) == if d in old(users) then Out(old(outbox), d) + NotifyChunks(line.value, name, false, ts, old(users)[d].username)
                                       else Out(old(outbox), d)
    {
      match line
      case None =>
        EndSession(c);
      case Some(msg) =>
        if msg == Exit {
          Leave(c, ts);
        } else if msg == "" {
          var name := sessions[c].user.username;
          Write(c, [EmptyMessage]);
          DisplayPrompt(c, name, ts);
        } else {
          Post(c, msg, ts);
        }
    }
  }
}
