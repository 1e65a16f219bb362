/**
 * The message controller: `sendMessage` validates the body, creates a message
 * record and makes it the chat's `latestMessage`; `allMessages` lists the
 * messages of one chat. The `populate` steps only shape the response and
 * change no stored record.
 */
module Messages {
  import opened Common

  type Id = string

  /** The fields of the request body the handler reads. */
  datatype SendBody = SendBody(content: Option<string>, chatId: Option<string>, image: Option<string>)

  datatype MessageRecord = MessageRecord(id: Id, sender: Id, content: Option<string>, image: Option<string>, chat: Id)

  datatype ChatRecord = ChatRecord(users: seq<Id>, latestMessage: Option<Id>)

  /** The input guard: some content or image, and a chat id. */
  predicate Accepts(body: SendBody): (ok: bool)
    ensures ok ==> body.chatId.Some? && body.chatId.value != ""
  {
    !((!Truthy(body.content) && !Truthy(body.image)) || !Truthy(body.chatId))
  }

  /** A body is accepted exactly when it has a chat id and something to send. */
  lemma AcceptsIff(body: SendBody)
    ensures Accepts(body) <==> Truthy(body.chatId) && (Truthy(body.content) || Truthy(body.image))
  {
  }

  /**
   * The messages of chat `chatId` (`Message.find({ chat })`), in the order
   * they were stored. MongoDB does not promise that order for an unsorted
   * `find`; the model assumes it.
   */
  function ForChat(ms: seq<MessageRecord>, chatId: Id): (r: seq<MessageRecord>)
    ensures |r| <= |ms|
    ensures forall m :: m in r <==> m in ms && m.chat == chatId
    ensures forall i :: 0 <= i < |r| ==> r[i].chat == chatId
    decreases |ms|
  {
    if ms == [] then []
    else
      var rest := ForChat(ms[..|ms| - 1], chatId);
      var last := ms[|ms| - 1];
      assert forall m :: m in ms <==> m in ms[..|ms| - 1] || m == last;
      if last.chat == chatId then rest + [last] else rest
  }

  /** Storing a message appends it to its own chat's listing and leaves every other listing as it was. */
  lemma {:induction false} ForChatAppend(ms: seq<MessageRecord>, m: MessageRecord, chatId: Id)
    ensures ForChat(ms + [m], chatId) == if m.chat == chatId then ForChat(ms, chatId) + [m] else ForChat(ms, chatId)
  {
  }

  /**
   * The listing keeps the store's order: the listing of an earlier part of the
   * store comes before the listing of a later part.
   */
  lemma {:induction false} ForChatConcat(a: seq<MessageRecord>, b: seq<MessageRecord>, chatId: Id)
    ensures ForChat(a + b, chatId) == ForChat(a, chatId) + ForChat(b, chatId)
    decreases |b|
  {
    if b == [] {
      assert a + b == a;
    } else {
      var b' := b[..|b| - 1];
      var last := b[|b| - 1];
      var tail := if last.chat == chatId then [last] else [];
      assert b == b' + [last];
      assert a + b == (a + b') + [last];
      calc {
        ForChat(a + b, chatId);
        { ForChatAppend(a + b', last, chatId); }
        ForChat(a + b', chatId) + tail;
        { ForChatConcat(a, b', chatId); }
        (ForChat(a, chatId) + ForChat(b', chatId)) + tail;
        ForChat(a, chatId) + (ForChat(b', chatId) + tail);
        { ForChatAppend(b', last, chatId); }
        ForChat(a, chatId) + ForChat(b, chatId);
      }
    }
  }

  class MessageStore {
    var messages: seq<MessageRecord>
    var chats: map<Id, ChatRecord>

    ghost predicate Valid()
      reads this
    {
      forall i, j :: 0 <= i < j < |messages| ==> messages[i].id != messages[j].id
    }

    constructor (chats: map<Id, ChatRecord>)
      ensures Valid() && messages == [] && this.chats == chats
    {
      messages := [];
      this.chats := chats;
    }

    /** Whether `id` names a stored message. */
    predicate Used(id: Id)
      reads this
    {
      exists i :: 0 <= i < |messages| && messages[i].id == id
    }

    /**
     * `sendMessage` by `requester`, with `freshId` standing for the id the
     * store assigns. A rejected body is answered 400 and stores nothing; a
     * chat id naming no chat still stores the message (the update finds nothing).
     */
    method SendMessage(requester: Id, body: SendBody, freshId: Id) returns (r: Result<MessageRecord, int>)
      requires Valid() && !Used(freshId)
      modifies this
      ensures Valid()
      ensures !Accepts(body) ==> r == Err(400) && messages == old(messages) && chats == old(chats)
      ensures Accepts(body) ==>
                && r == Ok(MessageRecord(freshId, requester, body.content, body.image, body.chatId.value))
                && messages == old(messages) + [r.value]
                && var c := body.chatId.value;
                   chats == if c in old(chats) then old(chats)[c := old(chats)[c].(latestMessage := Some(freshId))] else old(chats)
      ensures Accepts(body) && body.chatId.value in chats ==> chats[body.chatId.value].latestMessage == Some(freshId)
      ensures Accepts(body) ==> AllMessages(body.chatId.value) == old(AllMessages(body.chatId.value)) + [r.value]
    {
      if (!Truthy(body.content) && !Truthy(body.image)) || !Truthy(body.chatId) {
        r := Err(400);
        return;
      }
      var record := MessageRecord(freshId, requester, body.content, body.image, body.chatId.value);
      ForChatAppend(messages, record, body.chatId.value);
      messages := messages + [record];
      var c := body.chatId.value;
      if c in chats {
        chats := chats[c := chats[c].(latestMessage := Some(freshId))];
      }
      r := Ok(record);
    }

    /** `allMessages`: exactly the stored messages whose chat is `chatId`. */
    function AllMessages(chatId: Id): (r: seq<MessageRecord>)
      reads this
      ensures forall m :: m in r <==> m in messages && m.chat == chatId
    {
      ForChat(messages, chatId)
    }
  }
}
