/**
 * The client's chat slice: its state, the two plain reducers, the cases for
 * the four async thunks, and the error text the thunks reject with. A reducer
 * is a transition from the state before an action to the state after it.
 */
module ChatSlice {
  import opened Common

  /** A chat as the server returns it; only `_id` is read by the reducers. */
  datatype Chat = Chat(id: string, chatName: string, isGroupChat: bool, users: seq<Blob>, latestMessage: Blob, groupAdmin: Option<Blob>)

  datatype ChatState = ChatState(
    chats: seq<Chat>,
    selectedChat: Option<Chat>,
    messages: seq<Blob>,
    isLoading: bool,
    isError: bool,
    message: string)

  /** The actions the slice handles, and the two thunk actions it has no case for. */
  datatype Action =
    | SetSelectedChat(selection: Option<Chat>)
    | AddMessage(msg: Blob)
    | FetchChatsPending
    | FetchChatsFulfilled(chats: seq<Chat>)
    | FetchChatsRejected(reason: string)
    | AccessChatPending
    | AccessChatFulfilled(chat: Chat)
    | AccessChatRejected(reason: string)
    | FetchMessagesPending
    | FetchMessagesFulfilled(messages: seq<Blob>)
    | FetchMessagesRejected(reason: string)
    | SendMessagePending
    | SendMessageFulfilled(msg: Blob)
    | SendMessageRejected(reason: string)

  predicate IsPending(a: Action)
  {
    a.FetchChatsPending? || a.AccessChatPending? || a.FetchMessagesPending?
  }

  predicate IsRejected(a: Action)
  {
    a.FetchChatsRejected? || a.AccessChatRejected? || a.FetchMessagesRejected?
  }

  predicate Appends(a: Action)
  {
    a.AddMessage? || a.SendMessageFulfilled?
  }

  /** Whether some chat in `chats` has id `id` (`chats.find(c => c._id === id)`). */
  predicate HasChat(chats: seq<Chat>, id: string)
  {
    exists i :: 0 <= i < |chats| && chats[i].id == id
  }

  /** No two chats in the list share an id. */
  predicate UniqueIds(chats: seq<Chat>)
  {
    forall i, j :: 0 <= i < j < |chats| ==> chats[i].id != chats[j].id
  }

  function Initial(): (s: ChatState)
    ensures s.chats == [] && s.messages == [] && s.selectedChat == None
    ensures !s.isLoading && !s.isError && s.message == ""
    ensures UniqueIds(s.chats)
  {
    ChatState([], None, [], false, false, "")
  }

  function Reduce(s: ChatState, a: Action): (r: ChatState)
    // setSelectedChat touches nothing but the selection
    ensures a.SetSelectedChat? ==> r == s.(selectedChat := a.selection)
    // addMessage and sendMessage.fulfilled append the payload and nothing else
    ensures Appends(a) ==> r == s.(messages := s.messages + [a.msg])
    // every pending case only raises isLoading
    ensures IsPending(a) ==> r == s.(isLoading := true)
    // every rejected case clears isLoading, raises isError and stores the payload
    ensures IsRejected(a) ==> r == s.(isLoading := false, isError := true, message := a.reason)
    ensures a.FetchChatsFulfilled? ==> r == s.(isLoading := false, chats := a.chats)
    ensures a.FetchMessagesFulfilled? ==> r == s.(isLoading := false, messages := a.messages)
    ensures a.AccessChatFulfilled? ==>
              && r.selectedChat == Some(a.chat) && !r.isLoading
              && r.messages == s.messages && r.isError == s.isError && r.message == s.message
              && r.chats == (if HasChat(s.chats, a.chat.id) then s.chats else [a.chat] + s.chats)
              && HasChat(r.chats, a.chat.id)
    // the slice has no case for these two
    ensures a.SendMessagePending? || a.SendMessageRejected? ==> r == s
    // nothing ever clears isError
    ensures s.isError ==> r.isError
  {
    match a
    case SetSelectedChat(c) => s.(selectedChat := c)
    case AddMessage(m) => s.(messages := s.messages + [m])
    case FetchChatsPending => s.(isLoading := true)
    case FetchChatsFulfilled(cs) => s.(isLoading := false, chats := cs)
    case FetchChatsRejected(e) => s.(isLoading := false, isError := true, message := e)
    case AccessChatPending => s.(isLoading := true)
    case AccessChatFulfilled(c) =>
      var chats := if HasChat(s.chats, c.id) then s.chats else [c] + s.chats;
      assert chats[0] == c || HasChat(s.chats, c.id);
      s.(isLoading := false, selectedChat := Some(c), chats := chats)
    case AccessChatRejected(e) => s.(isLoading := false, isError := true, message := e)
    case FetchMessagesPending => s.(isLoading := true)
    case FetchMessagesFulfilled(ms) => s.(isLoading := false, messages := ms)
    case FetchMessagesRejected(e) => s.(isLoading := false, isError := true, message := e)
    case SendMessagePending => s
    case SendMessageFulfilled(m) => s.(messages := s.messages + [m])
    case SendMessageRejected(_) => s
  }

  /** The state after dispatching `acts` in order. */
  function ReduceAll(s: ChatState, acts: seq<Action>): ChatState
    decreases |acts|
  {
    if acts == [] then s else ReduceAll(Reduce(s, acts[0]), acts[1..])
  }

  /** `accessChat.fulfilled` keeps chat ids unique. */
  lemma AccessChatKeepsIdsUnique(s: ChatState, c: Chat)
    requires UniqueIds(s.chats)
    ensures UniqueIds(Reduce(s, AccessChatFulfilled(c)).chats)
  {
  }

  /** Accessing the same chat twice leaves the state as accessing it once. */
  lemma AccessChatIdempotent(s: ChatState, c: Chat)
    ensures Reduce(Reduce(s, AccessChatFulfilled(c)), AccessChatFulfilled(c)) == Reduce(s, AccessChatFulfilled(c))
  {
  }

  /** Once set, isError stays set for the rest of any sequence of actions. */
  lemma {:induction false} ErrorIsSticky(s: ChatState, acts: seq<Action>)
    requires s.isError
    ensures ReduceAll(s, acts).isError
    decreases |acts|
  {
    if acts != [] {
      ErrorIsSticky(Reduce(s, acts[0]), acts[1..]);
    }
  }

  /** Chat ids stay unique as long as every server list the state is handed has unique ids. */
  lemma {:induction false} IdsStayUnique(s: ChatState, acts: seq<Action>)
    requires UniqueIds(s.chats)
    requires forall i :: 0 <= i < |acts| && acts[i].FetchChatsFulfilled? ==> UniqueIds(acts[i].chats)
    ensures UniqueIds(ReduceAll(s, acts).chats)
    decreases |acts|
  {
    if acts != [] {
      if acts[0].AccessChatFulfilled? {
        AccessChatKeepsIdsUnique(s, acts[0].chat);
      }
      assert forall i :: 0 <= i < |acts[1..]| ==> acts[1..][i] == acts[i + 1];
      IdsStayUnique(Reduce(s, acts[0]), acts[1..]);
    }
  }

  /** Without a `fetchMessages.fulfilled`, earlier messages are never lost or reordered. */
  lemma {:induction false} MessagesOnlyGrow(s: ChatState, acts: seq<Action>)
    requires forall i :: 0 <= i < |acts| ==> !acts[i].FetchMessagesFulfilled?
    ensures s.messages <= ReduceAll(s, acts).messages
    decreases |acts|
  {
    if acts != [] {
      assert forall i :: 0 <= i < |acts[1..]| ==> acts[1..][i] == acts[i + 1];
      MessagesOnlyGrow(Reduce(s, acts[0]), acts[1..]);
    }
  }

  /** `error.response.data`, when the request got a response. */
  datatype ResponseData = ResponseData(message: Option<string>)
  datatype HttpResponse = HttpResponse(data: Option<ResponseData>)

  /** What a thunk catches: the response (if any), `error.message`, and `error.toString()`. */
  datatype ThunkError = ThunkError(response: Option<HttpResponse>, message: Option<string>, asString: string)

  /** `error.response.data.message`, absent when any link of the chain is. */
  function ServerMessage(e: ThunkError): Option<string>
  {
    if e.response.Some? && e.response.value.data.Some? then e.response.value.data.value.message else None
  }

  /** The text each thunk rejects with: the first truthy of the server's message, the error's message, `toString()`. */
  function ErrorText(e: ThunkError): (t: string)
    ensures Truthy(ServerMessage(e)) ==> t == ServerMessage(e).value
    ensures !Truthy(ServerMessage(e)) && Truthy(e.message) ==> t == e.message.value
    ensures !Truthy(ServerMessage(e)) && !Truthy(e.message) ==> t == e.asString
    ensures t == "" ==> e.asString == ""
  {
    var server := ServerMessage(e);
    if Truthy(server) then server.value
    else if Truthy(e.message) then e.message.value
    else e.asString
  }
}
