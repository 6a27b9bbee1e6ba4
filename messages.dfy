/**
 messages.go: the byte-level ASCII check, and the file's own NotifyAll and
 BroadcastMessage, which run over the same registry and history as main.go's
 (`Server.ChatServer`) but format system messages differently: they are
 followed by the recipient's prompt. Its SendPreviousMessages is the same as
 main.go's and is `Server.ChatServer.SendPreviousMessages`.
 */
module Messages {
  import opened Chat
  import Server

  /** A byte of a Go string. */
  newtype byte = x: int | 0 <= x < 256

  /** Every byte of `s` is at most 127. */
  predicate AllAscii(s: seq<byte>)
  {
    forall i :: 0 <= i < |s| ==> s[i] <= 127
  }

  /** isASCII: scan the bytes in order and stop at the first one above 127. */
  method IsAscii(s: seq<byte>) returns (r: bool)
    ensures r <==> AllAscii(s)
  {
    for i := 0 to |s|
      invariant forall j :: 0 <= j < i ==> s[j] <= 127
    {
      if s[i] > 127 {
        return false;
      }
    }
    return true;
  }

  /**
   The chunks messages.go's NotifyAll writes to one recipient: a newline, then a
   system message followed by a newline and the recipient's prompt, or a user
   message followed by the recipient's prompt.
   */
  function NotifyChunks(message: string, senderName: string, isSystemMessage: bool, ts: string, recipientName: string): seq<string>
  {
    if isSystemMessage then ["\n", message, "\n" + Prompt(ts, recipientName)]
    else ["\n", UserLine(ts, senderName, message) + "\n" + Prompt(ts, recipientName)]
  }

  /**
   In this variant every message delivered live, of either kind, reads exactly
   as its replay line does, between a newline and the recipient's prompt.
   */
  lemma LiveMatchesReplay(m: Message, recipientName: string)
    ensures Concat(NotifyChunks(m.content, m.clientName, m.systemMessage, m.timeStamp, recipientName))
            == "\n" + ReplayLine(m) + Prompt(m.timeStamp, recipientName)
  {
    var p := Prompt(m.timeStamp, recipientName);
    if m.systemMessage {
      var chunks := ["\n", m.content, "\n" + p];
      assert chunks[1..] == [m.content, "\n" + p] && chunks[1..][1..] == ["\n" + p] && chunks[1..][1..][1..] == [];
      assert Concat(["\n" + p]) == "\n" + p;
      assert Concat(chunks[1..]) == m.content + ("\n" + p);
    } else {
      var tail := UserLine(m.timeStamp, m.clientName, m.content) + "\n" + p;
      assert ["\n", tail][1..] == [tail] && [tail][1..] == [];
      assert Concat([tail]) == tail;
    }
  }

  /** The two files differ only on system messages, where this one appends `"\n"` and the recipient's prompt. */
  lemma VariantsCompared(message: string, senderName: string, isSystemMessage: bool, ts: string, recipientName: string)
    ensures NotifyChunks(message, senderName, isSystemMessage, ts, recipientName)
            == Server.NotifyChunks(message, senderName, isSystemMessage, ts, recipientName)
               + (if isSystemMessage then ["\n" + Prompt(ts, recipientName)] else [])
  {
  }

  /** messages.go's NotifyAll, over the server's registry and outboxes. */
  method NotifyAll(s: Server.ChatServer, message: string, sender: User, isSystemMessage: bool, ts: string)
    modifies s`outbox
    ensures forall d :: Server.Out(s.outbox, d) == if d in Recipients(s.users, sender.username)
               then Server.Out(old(s.outbox), d) + NotifyChunks(message, sender.username, isSystemMessage, ts, s.users[d].username)
               else Server.Out(old(s.outbox), d)
  {
    s.DeliverToRecipients(sender.username, (name: string) => NotifyChunks(message, sender.username, isSystemMessage, ts, name));
  }

  /** messages.go's BroadcastMessage: append one entry at the tail of history, then notify. */
  method BroadcastMessage(s: Server.ChatServer, user: User, content: string, isSystemMessage: bool, ts: string)
    modifies s`messages, s`outbox
    ensures s.messages == old(s.messages) + [Message(content, ts, user.username, isSystemMessage)]
    ensures forall d :: Server.Out(s.outbox, d) == if d in Recipients(s.users, user.username)
               then Server.Out(old(s.outbox), d) + NotifyChunks(content, user.username, isSystemMessage, ts, s.users[d].username)
               else Server.Out(old(s.outbox), d)
  {
    var msg := Message(content, ts, user.username, isSystemMessage);
    s.messages := s.messages + [msg];
    if isSystemMessage {
      NotifyAll(s, content, user, true, ts);
    } else {
      NotifyAll(s, content, user, false, ts);
    }
  }
}
