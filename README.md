# ProChat core, modelled in Dafny

ProChat is a chat and video-calling application: a Node server (Express and
Socket.IO over MongoDB) and a React client. This project models the parts of it
that hold routing and state logic:

- **Socket relay** (`relay.dfy`, module `Relay`). These are the handlers that the
  server registers for each Socket.IO connection. Class `Relay.Server` holds
  three fields: the connected sockets, the adapter's room table (room name to
  the set of member connections) and an outbox. Each `emit` call appends one
  `Packet` to the outbox, naming the set of connections it reaches. Two kinds of
  addressing are used. `socket.in(room)` and `socket.to(room)` reach the room
  minus the emitting connection and minus every member of the room named by
  the emitter's own id (`Relay.Excluded`). `io.to(room)` reaches every member.
  `Inbox(outbox, x)` is what connection `x` receives, in order.
- **Client chat slice** (`chat_slice.dfy`, module `ChatSlice`). The reducer is a
  transition function over `{chats, selectedChat, messages, isLoading, isError,
  message}`. The module also has the text that the async thunks reject with.
- **Meeting table** (`meetings.dfy`, class `Meetings.MeetingTable`). It covers
  `createMeeting`, and `getMeeting`'s idempotent "add participant if the
  meeting is active".
- **Message controller** (`messages.dfy`, class `Messages.MessageStore`). It
  covers the input guard, the stored record, the chat's `latestMessage` update
  and the per-chat listing.
- **User controller** (`users.dfy`, class `Users.UserTable`). It covers
  registration with unique emails and a default role, login, and the
  shallow-merge updates of `profile` and `settings`. It also covers the
  exclusion of the requester from user listings.

`common.dfy` (module `Common`) holds `Option`, `Result`, `HttpError`, an opaque
`Blob` for untyped JSON values, and JavaScript truthiness of optional strings.

Modelling conventions:

- The database is modelled as in-memory fields. A `map` is used where the
  collection is keyed by a unique index (meetings). A `seq` is used for users
  and messages, kept in insertion order. `findOne` on users and the unsorted
  `Message.find` of `allMessages` are modelled as scans in that order. MongoDB
  does not guarantee this natural order, so it is a modelling assumption.
- Generated ids (the uuid of a meeting, the ObjectIds of users and messages)
  are `freshId` parameters. The caller must supply an id that is not yet used.
- Password checking (bcrypt) is the function parameter `matches` of
  `AuthUser`.
- Socket.IO dispatches events one at a time. The relay is therefore a
  sequential object: each handler is one method call.
- Two library conventions are modelling assumptions, not proved properties.
  First, a connecting socket is put into the room named by its own id;
  `Connect` does this, and `call-user` addresses that room. Second, a
  disconnecting socket is removed from every room; `Disconnect` does this, and
  rooms left empty are dropped. The invariant `Relay.Consistent` says that no
  room holds a gone connection and that every live connection is in its own
  room.

The server holds no identity-to-connection registry apart from rooms, and it
has no handler that leaves a room. The handlers are the ones modelled here:
`setup` joins a room named by the user id, and `call-user` and `answer-call`
send with `io.to(target)` to whatever room the client names. The client emits
`direct-call`, `accept-call` and `reject-call`, which no server handler
receives. `answer-call` emits `call-accepted` (server/src/index.ts:110), while
`client/src/pages/MeetingPage.tsx:58` listens for `call-accepted-signal`,
which the server never emits.

## Model

| member | source | states |
|---|---|---|
| `Relay.Others` | server/src/index.ts:80-102 | The `socket.in(r)` / `socket.to(r)` broadcast of the typing handlers (80-84), the fan-out (94) and `user-joined` (102): room `r` minus the emitter and minus the members of the room named by the emitter's id; every other member of `r` is reached. The `io.to(room)` addressing of `call-user` and `answer-call` (106, 110) is `Relay.Members`, the whole room |
| `Relay.Join` | server/src/index.ts:75-78 | Joining adds exactly the calling connection to the named room; every other room keeps its members |
| `Relay.JoinIdempotent` | server/src/index.ts:99-100 | Membership is a set: joining the same room twice is the same as joining once |
| `Relay.LeaveAll` | server/src/index.ts:67 | Library convention for the connection scope, not code of the handlers. Disconnect cleanup: the connection leaves every room, other memberships stay, and no empty room is kept |
| `Relay.LeaveAllIdempotent` | server/src/index.ts:67 | Library convention: removing a connection from every room a second time changes nothing |
| `Relay.Server.Connect` | server/src/index.ts:67-68 | A new connection is live and in the room named by its own id; nothing is emitted; the table stays consistent |
| `Relay.Server.Disconnect` | server/src/index.ts:67 | Library convention for the end of the connection scope: the connection is no longer live and is in no room; nothing is emitted; the table stays consistent |
| `Relay.Server.Setup` | server/src/index.ts:70-73 | The connection joins the room named `userData._id`, and only that connection receives `connected` |
| `Relay.Server.JoinChat` | server/src/index.ts:75-78 | Only the caller joins the named room; nothing is emitted |
| `Relay.Server.Typing` | server/src/index.ts:80-84 | Because the handler is registered twice, every room member outside `Relay.Excluded` receives the bare event twice; the originator's inbox is unchanged |
| `Relay.TypingDelivery` | server/src/index.ts:80-84 | The two emitted packets give each room member outside `Relay.Excluded` two payload-less events, and give the originator nothing |
| `Relay.FanOut` | server/src/index.ts:91-95 | The forEach emits at most one packet per listed user; each is `message received` carrying the unchanged message object, and none reaches the emitter |
| `Relay.FanOutReaches` | server/src/index.ts:91-95 | A connection is reached iff it is neither the emitter nor in the emitter's own-id room, and it is in the room of some listed user whose id differs from the sender's; connections only in the chat room are not reached |
| `Relay.TwoUserChatScenario` | server/src/index.ts:86-96 | A on c1 and B on c2 and c3 are all in chat42; A's message reaches c2 and c3 and not c1 |
| `Relay.Server.NewMessageEvent` | server/src/index.ts:86-96 | Without `chat.users` nothing is emitted (only logged); otherwise the loop emits exactly `FanOut` of the listed users; rooms are unchanged |
| `Relay.UserJoinedReachesEarlierMembers` | server/src/index.ts:99-103 | After the join, `socket.to(meetingId)` addresses exactly the earlier members of the room outside `Relay.Excluded` (the joiner and the members of the room named by its socket id): joining does not change who is addressed |
| `Relay.Server.JoinMeeting` | server/src/index.ts:99-103 | The joiner enters the meeting room, and `user-joined` carrying its socket id goes to the earlier members outside `Relay.Excluded`, never to the joiner |
| `Relay.Server.CallUser` | server/src/index.ts:105-107 | `{signal, from, name}` is relayed uninspected to every member of room `userToCall`; a live socket id target is reached |
| `Relay.Server.AnswerCall` | server/src/index.ts:109-111 | `data.signal` is relayed uninspected as `call-accepted` to every member of room `data.to` |
| `ChatSlice.Initial` | client/src/features/chat/chatSlice.ts:22-29 | No chats, no messages, no selection, not loading, no error, empty message |
| `ChatSlice.Reduce` | client/src/features/chat/chatSlice.ts:78-131 | `setSelectedChat` changes only the selection. Appending cases add the payload as the last message. Every pending case only raises `isLoading`. Every rejected case clears `isLoading`, sets `isError` and stores the payload. The two fulfilled list cases replace the list. `accessChat.fulfilled` selects the payload and prepends it only when no chat has its id. The sendMessage pending/rejected cases change nothing. `isError` is never cleared |
| `ChatSlice.AccessChatKeepsIdsUnique` | client/src/features/chat/chatSlice.ts:103-110 | The de-duplicating prepend keeps chat ids unique |
| `ChatSlice.AccessChatIdempotent` | client/src/features/chat/chatSlice.ts:103-110 | Accessing the same chat twice gives the same state as accessing it once |
| `ChatSlice.ErrorIsSticky` | client/src/features/chat/chatSlice.ts:86-131 | Once `isError` is set, it stays set through any sequence of actions |
| `ChatSlice.IdsStayUnique` | client/src/features/chat/chatSlice.ts:86-131 | Chat ids stay unique through any sequence of actions, provided each fetched list has unique ids |
| `ChatSlice.MessagesOnlyGrow` | client/src/features/chat/chatSlice.ts:82-84 | Without `fetchMessages.fulfilled`, the earlier messages remain a prefix of the messages |
| `ChatSlice.ErrorText` | client/src/features/chat/chatSlice.ts:37 | The error text is `response.data.message` if truthy, else `error.message` if truthy, else `error.toString()`; it is empty only when `toString()` is |
| `Meetings.Admit` | server/src/controllers/meetingController.ts:28-33 | Afterwards the requester is a participant. An absent requester is appended at the end, and an existing one leaves the meeting unchanged. Prior participants keep their order, and "no duplicates" is preserved |
| `Meetings.AdmitIdempotent` | server/src/controllers/meetingController.ts:29 | A second join by the same user changes nothing |
| `Meetings.AdmitAllParticipants` | server/src/controllers/meetingController.ts:24-38 | After any sequence of joins, earlier participants are a prefix, the participants are exactly the earlier ones plus the joiners, and none is duplicated |
| `Meetings.MeetingTable.CreateMeeting` | server/src/controllers/meetingController.ts:9-19 | Status 201; under the fresh id, a meeting whose host is the requester and whose participants are exactly the requester; other meetings untouched |
| `Meetings.MeetingTable.GetMeeting` | server/src/controllers/meetingController.ts:24-38 | An unknown or inactive meeting gives 404 "Meeting not found or ended" and changes nothing. Otherwise only that meeting changes, and the requester is admitted to it |
| `Messages.Accepts` | server/src/controllers/messageController.ts:13 | The guard expression; a body it accepts carries a non-empty `chatId`, which the stored record uses |
| `Messages.AcceptsIff` | server/src/controllers/messageController.ts:13-17 | A body passes the guard iff `chatId` is truthy and `content` or `image` is truthy |
| `Messages.MessageStore.SendMessage` | server/src/controllers/messageController.ts:10-43 | A rejected body gives 400 and stores nothing. Otherwise a record is stored with the requester as sender, the given content and image, and chat `chatId`. That chat's `latestMessage` becomes the new message, and the chat's listing gains it at the end |
| `Messages.ForChat` | server/src/controllers/messageController.ts:50 | The listing holds a message iff it is stored and its `chat` is the requested id |
| `Messages.ForChatAppend` | server/src/controllers/messageController.ts:19-27 | A stored message extends only its own chat's listing, at the end |
| `Messages.ForChatConcat` | server/src/controllers/messageController.ts:50 | The listing keeps insertion order: messages of the chat stored earlier are listed before those stored later |
| `Messages.MessageStore.AllMessages` | server/src/controllers/messageController.ts:48-58 | The listing holds exactly the stored messages of that chat |
| `Users.Find` | server/src/controllers/userController.ts:16 | Returns the first user whose field equals the value, and nothing iff no user has it |
| `Users.DefaultRole` | server/src/controllers/userController.ts:49 | The supplied role if truthy, else `'student'`; never empty |
| `Users.Overlay` | server/src/controllers/userController.ts:116-119 | The request's keys take the request's values, every other key keeps its old value, no other key appears |
| `Users.OverlayIdempotent` | server/src/controllers/userController.ts:116-119 | Applying the same patch twice equals applying it once |
| `Users.Merged` | server/src/controllers/userController.ts:115-120 | With an object in the body the stored map is overlaid; without one it is unchanged |
| `Users.OtherUsers` | server/src/controllers/userController.ts:99 | Exactly the users whose id is not the requester's, in order |
| `Users.UserTable.RegisterUser` | server/src/controllers/userController.ts:35-64 | A taken email gives 400 "User already exists" and leaves the table unchanged. Otherwise a user with the given fields and the default role is appended, and the answer has status 201 and the new user's fields. Emails and ids stay unique |
| `Users.UserTable.AuthUser` | server/src/controllers/userController.ts:13-30 | Succeeds iff a user with that email exists and the password matches, and then answers with that user's fields; otherwise 401 "Invalid email or password" |
| `Users.UserTable.UpdateProfile` | server/src/controllers/userController.ts:106-130 | An unknown requester gives 404 "User not found" with no change. Otherwise only that user changes, and only its profile, by the merge |
| `Users.UserTable.UpdateSettings` | server/src/controllers/userController.ts:149-170 | An unknown requester gives 404 "User not found" with no change. Otherwise only that user changes, and only its settings, by the merge |
| `Users.UserTable.AllUsers` | server/src/controllers/userController.ts:89-101 | The listing never contains the requester |

## Left out

- Express, HTTP and Mongo wiring: startup, middleware, routes, the database connection, static serving, logging. The routes in `server/src/routes/userRoutes.ts` do not even reach `updateProfile` and `updateSettings`.
- The client's call handshake (`direct-call`, `accept-call`, `reject-call`, `call-error`, `call-rejected`) has no handler on the server. It is not modelled as server behaviour.
- The `updateLatestMessage` reducer that `ChatPage.tsx` imports is not defined in the slice, so it is not modelled.
- All React pages and components, the typing debounce timer, SimplePeer/WebRTC and media capture.
- Foreign calls: bcrypt hashing, JWT `generateToken` (responses omit the token), `uuidv4`, and Mongoose `populate`.
- Mongoose schema behaviour in `server/src/models/userModel.ts`: required and enum validation, and strict mode dropping undeclared keys (`settings` is not in the schema). Also not modelled: the subdocument defaults of `profile` (stored as an empty map) and the unreachable "Invalid user data" branch after `User.create`.
- Store failures: a failing `Message.create` and cast errors for malformed ids (the 400 of the catch block). No message and chat schema is part of this model.
- `Users.UserTable.AllUsers`: the keyword search (`User.findById(keyword)` with a query object) is not modelled. The listing is modelled over the whole table, and only the requester exclusion is stated.
- `passport.ts` OAuth callbacks, and the meeting's `startTime` and `endTime` (clock values). Nothing in the core sets `isActive` to false.
- `socket.off('setup', ...)` removes a listener that was never registered, so it has no effect and is not modelled.
- Malformed socket payloads that would throw inside a handler (a `new message` without `chat`, a `setup` without `userData`) are not modelled. Only the handled case, an absent `chat.users`, is.
- The Socket.IO version is not shown; the import of `Server` at `server/src/index.ts:8` points to version 3 or later. The model takes version 4's broadcast rule: `socket.in` and `socket.to` leave out every member of the room named by the emitter's id (version 3 leaves out only the emitter).
- Concurrency: events are a sequential trace of method calls.
