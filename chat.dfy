/** The one-to-one chat (web/src/views/ChatView.tsx): the chat id of two
    parties, the per-user unread counters, sending a message and which
    messages are shown as one's own. */
module Chat {
  import opened Types
  import opened Text

  // ----- chat ids -----

  /** The default order of `Array.prototype.sort` on strings: `a` is at or
      before `b` in character-code order. */
  predicate CodeOrderLe(a: string, b: string)
    decreases |a|
  {
    a == [] || (b != [] && (a[0] < b[0] || (a[0] == b[0] && CodeOrderLe(a[1..], b[1..]))))
  }

  /** The order is total. */
  lemma {:induction false} CodeOrderTotal(a: string, b: string)
    ensures CodeOrderLe(a, b) || CodeOrderLe(b, a)
    decreases |a|
  {
    if a != [] && b != [] && a[0] == b[0] {
      CodeOrderTotal(a[1..], b[1..]);
    }
  }

  /** The order is antisymmetric. */
  lemma {:induction false} CodeOrderAntisymmetric(a: string, b: string)
    requires CodeOrderLe(a, b) && CodeOrderLe(b, a)
    ensures a == b
    decreases |a|
  {
    if a != [] {
      CodeOrderAntisymmetric(a[1..], b[1..]);
      assert a == [a[0]] + a[1..] && b == [b[0]] + b[1..];
    }
  }

  /** `[a, b].sort().join('_')`: the joined id names both parties, the
      lower one first. */
  function SortedJoin(a: string, b: string): (r: string)
    ensures || (r == a + "_" + b && CodeOrderLe(a, b))
            || (r == b + "_" + a && CodeOrderLe(b, a))
  {
    CodeOrderTotal(a, b);
    if CodeOrderLe(a, b) then a + "_" + b else b + "_" + a
  }

  /** Both parties derive the same id. */
  lemma SortedJoinSymmetric(a: string, b: string)
    ensures SortedJoin(a, b) == SortedJoin(b, a)
  {
    CodeOrderTotal(a, b);
    if CodeOrderLe(a, b) && CodeOrderLe(b, a) {
      CodeOrderAntisymmetric(a, b);
    }
  }

  /** `chatId`: the sorted join of the user's and the specialist's ids, or
      none when either party is missing. */
  function ChatId(user: Option<User>, specialist: Option<Specialist>): (r: Option<string>)
    ensures r.Some? <==> user.Some? && specialist.Some?
    ensures r.Some? ==> r.value == SortedJoin(user.value.id, specialist.value.id)
  {
    if user.Some? && specialist.Some? then Some(SortedJoin(user.value.id, specialist.value.id)) else None
  }

  // ----- the chat documents -----

  /** A chat document: its participants, the last message and the unread
      counter of each user (`unread_{id}`). */
  datatype ChatDoc = ChatDoc(participants: seq<string>, lastMessage: string, unread: map<string, int>)

  /** A missing counter reads as zero, as `increment` treats it. */
  function Unread(d: ChatDoc, id: string): int
  {
    if id in d.unread then d.unread[id] else 0
  }

  /** Marking read: an existing chat's counter for `me` becomes 0; a chat
      that does not exist yet is left alone (the failed update is
      ignored). */
  function MarkRead(chats: map<string, ChatDoc>, chatId: string, me: string): (r: map<string, ChatDoc>)
    ensures r.Keys == chats.Keys
    ensures chatId in chats ==> Unread(r[chatId], me) == 0
    ensures forall c :: c in chats && c != chatId ==> r[c] == chats[c]
    ensures forall id :: chatId in chats && id != me ==> Unread(r[chatId], id) == Unread(chats[chatId], id)
    ensures chatId in chats ==> r[chatId].participants == chats[chatId].participants
  {
    if chatId in chats then
      chats[chatId := chats[chatId].(unread := chats[chatId].unread[me := 0])]
    else chats
  }

  /** The message shown in the chat list for a send: the text, or `File`
      when it is empty. */
  function LastMessageText(text: string): (r: string)
    ensures r != ""
    ensures text != "" ==> r == text
  {
    if text != "" then text else "File"
  }

  /** The merge write of a send: participants become `[me, other]`, the
      last message is set and the other party's counter goes up by one;
      every other counter is kept, and a missing chat is created. */
  function SendUpdate(chats: map<string, ChatDoc>, chatId: string, me: string, other: string, text: string): (r: map<string, ChatDoc>)
    ensures r.Keys == chats.Keys + {chatId}
    ensures r[chatId].participants == [me, other] && r[chatId].lastMessage == LastMessageText(text)
    ensures Unread(r[chatId], other) == (if chatId in chats then Unread(chats[chatId], other) else 0) + 1
    ensures forall id :: id != other && chatId in chats ==> Unread(r[chatId], id) == Unread(chats[chatId], id)
    ensures forall c :: c in chats && c != chatId ==> r[c] == chats[c]
  {
    var old_ := if chatId in chats then chats[chatId] else ChatDoc([], "", map[]);
    var d := ChatDoc([me, other], LastMessageText(text), old_.unread[other := Unread(old_, other) + 1]);
    chats[chatId := d]
  }

  /** A send followed by the partner opening the chat leaves the partner
      with no unread messages and the sender's counter as it was. */
  lemma SendThenPartnerReads(chats: map<string, ChatDoc>, chatId: string, me: string, other: string, text: string)
    requires me != other && chatId in chats
    ensures var r := MarkRead(SendUpdate(chats, chatId, me, other, text), chatId, other);
      Unread(r[chatId], other) == 0 && Unread(r[chatId], me) == Unread(chats[chatId], me)
  {
  }

  // ----- messages -----

  /** A chat message. `senderId` is absent in messages written before
      senders were recorded. */
  datatype Message = Message(senderId: Option<string>, content: string, timestamp: int)

  /** `isMe`: the message's sender equals the user's id; with no user and
      no sender both sides are `undefined` and compare equal. */
  predicate IsMe(m: Message, user: Option<User>)
  {
    match (m.senderId, user)
    case (Some(s), Some(u)) => s == u.id
    case (None, None) => true
    case _ => false
  }

  /** A message is one's own exactly when sender and user agree, both
      present or both absent. */
  lemma IsMeExactly(m: Message, user: Option<User>)
    ensures IsMe(m, user) <==>
      (m.senderId.Some? && user.Some? && m.senderId.value == user.value.id) || (m.senderId.None? && user.None?)
  {
  }

  /** How many messages the listener asks for. */
  const MessageLimit: nat := 50

  /** The messages the listener shows, as written: the stored messages are
      in timestamp order, and `orderBy('timestamp', 'asc').limit(50)` keeps
      the first fifty, the oldest. */
  function ShownMessagesAsWritten(stored: seq<Message>): (r: seq<Message>)
    ensures |r| <= MessageLimit && |r| <= |stored| && r == stored[..|r|]
  {
    if |stored| <= MessageLimit then stored else stored[..MessageLimit]
  }

  /** Once a chat holds more than fifty messages, a newly sent message is
      not shown. */
  lemma NewestHiddenAsWritten(stored: seq<Message>, m: Message)
    requires |stored| >= MessageLimit && m !in stored
    ensures m !in ShownMessagesAsWritten(stored + [m])
  {
    assert ShownMessagesAsWritten(stored + [m]) == stored[..MessageLimit];
  }

  /** The messages the listener is evidently meant to show: the latest
      fifty. */
  function ShownMessages(stored: seq<Message>): (r: seq<Message>)
    ensures |r| <= MessageLimit && |r| <= |stored| && r == stored[|stored| - |r|..]
    ensures |r| == |stored| || |r| == MessageLimit
  {
    if |stored| <= MessageLimit then stored else stored[|stored| - MessageLimit..]
  }

  /** A newly sent message is always shown, last. */
  lemma NewestShown(stored: seq<Message>, m: Message)
    ensures var r := ShownMessages(stored + [m]); r != [] && r[|r| - 1] == m
  {
  }

  /** `handleSubmit` acts only with a non-blank input or an attachment,
      and with both parties present. */
  predicate CanSend(input: string, attachedFiles: nat, user: Option<User>, specialist: Option<Specialist>)
  {
    !(IsBlank(input) && attachedFiles == 0) && ChatId(user, specialist).Some?
  }

  /** Adding a message to a chat: it goes after the chat's earlier
      messages, and no other chat changes. */
  function AppendMessage(stored: map<string, seq<Message>>, chatId: string, m: Message): (r: map<string, seq<Message>>)
    ensures r.Keys == stored.Keys + {chatId}
    ensures r[chatId] == (if chatId in stored then stored[chatId] else []) + [m]
    ensures forall c :: c in stored && c != chatId ==> r[c] == stored[c]
  {
    stored[chatId := (if chatId in stored then stored[chatId] else []) + [m]]
  }

  /** The chat screen. `chats` holds the chat documents by id and
      `storedMessages` each chat's messages in timestamp order. */
  class ChatScreen {
    var user: Option<User>
    var specialist: Option<Specialist>
    var input: string
    var sending: bool
    const attachedFiles: nat
    var messages: seq<Message>
    var chats: map<string, ChatDoc>
    var storedMessages: map<string, seq<Message>>

    constructor (user: Option<User>, specialist: Option<Specialist>, attachedFiles: nat,
                 chats: map<string, ChatDoc>, storedMessages: map<string, seq<Message>>)
      ensures this.user == user && this.specialist == specialist && this.attachedFiles == attachedFiles
      ensures this.chats == chats && this.storedMessages == storedMessages
      ensures input == "" && !sending && messages == []
    {
      this.user := user;
      this.specialist := specialist;
      this.attachedFiles := attachedFiles;
      this.chats := chats;
      this.storedMessages := storedMessages;
      input := "";
      sending := false;
      messages := [];
    }

    /** Opening the chat marks it read for the user. */
    method OnOpen()
      modifies this
      ensures var id := ChatId(old(user), old(specialist));
        chats == if id.Some? then MarkRead(old(chats), id.value, old(user).value.id) else old(chats)
      ensures storedMessages == old(storedMessages) && messages == old(messages) && input == old(input)
      ensures user == old(user) && specialist == old(specialist) && sending == old(sending)
    {
      var id := ChatId(user, specialist);
      if id.None? || user.None? {
        return;
      }
      chats := MarkRead(chats, id.value, user.value.id);
    }

    /** A new snapshot of the chat's messages is shown and marks the chat
        read again. */
    method OnSnapshot()
      modifies this
      ensures var id := ChatId(old(user), old(specialist));
        && (id.Some? ==> chats == MarkRead(old(chats), id.value, old(user).value.id))
        && (id.Some? && id.value in old(storedMessages) ==> messages == ShownMessagesAsWritten(old(storedMessages)[id.value]))
        && (id.Some? && id.value !in old(storedMessages) ==> messages == [])
        && (id.None? ==> chats == old(chats) && messages == old(messages))
      ensures storedMessages == old(storedMessages) && input == old(input)
      ensures user == old(user) && specialist == old(specialist) && sending == old(sending)
    {
      var id := ChatId(user, specialist);
      if id.None? {
        return;
      }
      messages := if id.value in storedMessages then ShownMessagesAsWritten(storedMessages[id.value]) else [];
      chats := MarkRead(chats, id.value, user.value.id);
    }

    method TypeInput(text: string)
      modifies this
      ensures input == text
      ensures chats == old(chats) && storedMessages == old(storedMessages) && messages == old(messages)
      ensures user == old(user) && specialist == old(specialist) && sending == old(sending)
    {
      input := text;
    }

    /** `handleSubmit`. Nothing happens for a blank input with no files,
        or without a chat id or a user. Otherwise the input is cleared and
        the chat document is written, then the message appended; when
        either write fails the typed text is put back. */
    method HandleSubmit(now: int, setFails: bool, addFails: bool) returns (sent: bool)
      modifies this
      ensures !CanSend(old(input), attachedFiles, old(user), old(specialist)) ==>
        chats == old(chats) && storedMessages == old(storedMessages) && input == old(input) && sending == old(sending) && !sent
      ensures CanSend(old(input), attachedFiles, old(user), old(specialist)) ==>
        && (sent <==> !setFails && !addFails)
        && input == (if sent then "" else old(input)) && !sending
        && chats == (if setFails then old(chats)
                     else SendUpdate(old(chats), ChatId(old(user), old(specialist)).value,
                                     old(user).value.id, old(specialist).value.id, old(input)))
        && storedMessages == (if !sent then old(storedMessages)
                              else AppendMessage(old(storedMessages), ChatId(old(user), old(specialist)).value,
                                                 Message(Some(old(user).value.id), old(input), now)))
      ensures messages == old(messages)
      ensures user == old(user) && specialist == old(specialist)
    {
      sent := false;
      if !CanSend(input, attachedFiles, user, specialist) {
        return;
      }
      var id := ChatId(user, specialist).value;
      var text := input;
      var me := user.value.id;
      var other := specialist.value.id;
      // `sending` is set and the input cleared while the writes are awaited
      if !setFails {
        chats := SendUpdate(chats, id, me, other, text);
      }
      sent := !setFails && !addFails;
      if sent {
        storedMessages := AppendMessage(storedMessages, id, Message(Some(me), text, now));
        input := "";
      } else {
        input := text;
      }
      sending := false;
    }
  }
}
