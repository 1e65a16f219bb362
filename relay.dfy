/**
 * The Socket.IO relay of the server: the connection handlers registered in
 * `io.on('connection', ...)`. The shared state is the adapter's room table
 * (room name to the set of member connections) and, standing in for the
 * network, an outbox of emitted packets. Every `emit` call appends one packet
 * that names the whole set of connections it is delivered to.
 *
 * Connection ids, room names and user ids are all strings: rooms are named by
 * chat ids, meeting ids, user ids (`setup`) and connection ids (`call-user`).
 */
module Relay {
  import opened Common

  type ConnId = string
  type RoomId = string
  type RoomTable = map<RoomId, set<ConnId>>

  /** One element of `chat.users`, or the message's `sender`: only `_id` is read. */
  datatype UserRef = UserRef(id: string, rest: Blob)

  /** The message's `chat`; `users` is absent when the client did not populate it. */
  datatype ChatRef = ChatRef(users: Option<seq<UserRef>>, rest: Blob)

  /** The persisted message object a client hands to `new message`. */
  datatype NewMessage = NewMessage(sender: UserRef, chat: ChatRef, rest: Blob)

  /** The payload of an emitted event. */
  datatype Payload =
    | NoPayload                                        // connected, typing, stop typing
    | Message(msg: NewMessage)                         // message received
    | SocketId(id: ConnId)                             // user-joined
    | Offer(signal: Blob, from: Blob, name: Blob)      // call-user
    | Signal(signal: Blob)                             // call-accepted

  /** The arguments of a `call-user` event. */
  datatype CallUserRequest = CallUserRequest(userToCall: RoomId, signalData: Blob, from: Blob, name: Blob)

  /** The argument of an `answer-call` event. */
  datatype AnswerRequest = AnswerRequest(to: RoomId, signal: Blob)

  /** One `emit` call: the connections it reaches, the event name and the payload. */
  datatype Packet = Packet(to: set<ConnId>, event: string, payload: Payload)

  /** The members of room `r`; a room nobody joined has none. */
  function Members(rooms: RoomTable, r: RoomId): set<ConnId>
  {
    if r in rooms then rooms[r] else {}
  }

  /**
   * The connections a broadcast from `emitter` with `socket.in` or
   * `socket.to` leaves out: the emitter, and every member of the room named
   * by its own id (Socket.IO excludes that room, not only the socket).
   */
  function Excluded(rooms: RoomTable, emitter: ConnId): set<ConnId>
  {
    Members(rooms, emitter) + {emitter}
  }

  /** `socket.in(r)` / `socket.to(r)` emitted by `emitter`: room `r` minus the excluded connections. */
  function Others(rooms: RoomTable, r: RoomId, emitter: ConnId): (to: set<ConnId>)
    ensures to <= Members(rooms, r)
    ensures emitter !in to && to !! Members(rooms, emitter)
    ensures forall x :: x in Members(rooms, r) && x != emitter && x !in Members(rooms, emitter) ==> x in to
  {
    Members(rooms, r) - Excluded(rooms, emitter)
  }

  /** `socket.join(r)` by connection `c`. */
  function Join(rooms: RoomTable, c: ConnId, r: RoomId): (rooms': RoomTable)
    ensures Members(rooms', r) == Members(rooms, r) + {c}
    ensures forall q :: q != r ==> Members(rooms', q) == Members(rooms, q)
  {
    rooms[r := Members(rooms, r) + {c}]
  }

  /** The adapter's clean-up on disconnect: `c` leaves every room; rooms left empty are dropped. */
  function LeaveAll(rooms: RoomTable, c: ConnId): (rooms': RoomTable)
    ensures forall q :: Members(rooms', q) == Members(rooms, q) - {c}
    ensures forall q :: q in rooms' ==> rooms'[q] != {}
  {
    map q | q in rooms && rooms[q] - {c} != {} :: rooms[q] - {c}
  }

  lemma JoinIdempotent(rooms: RoomTable, c: ConnId, r: RoomId)
    ensures Join(Join(rooms, c, r), c, r) == Join(rooms, c, r)
  {
  }

  lemma LeaveAllIdempotent(rooms: RoomTable, c: ConnId)
    ensures LeaveAll(LeaveAll(rooms, c), c) == LeaveAll(rooms, c)
  {
    var once := LeaveAll(rooms, c);
    var twice := LeaveAll(once, c);
    forall q | q in once ensures q in twice && twice[q] == once[q] {
      assert once[q] == rooms[q] - {c};
    }
    assert twice.Keys == once.Keys;
  }

  /**
   * The messages connection `x` receives, in emission order: (event name,
   * payload). Each one was emitted in a packet addressed to `x`.
   */
  function Inbox(out: seq<Packet>, x: ConnId): (r: seq<(string, Payload)>)
    ensures forall k :: 0 <= k < |r| ==>
              exists i :: 0 <= i < |out| && x in out[i].to && r[k] == (out[i].event, out[i].payload)
    decreases |out|
  {
    if out == [] then []
    else
      var last := out[|out| - 1];
      Inbox(out[..|out| - 1], x) + (if x in last.to then [(last.event, last.payload)] else [])
  }

  /** Emitting more packets only appends to each inbox. */
  lemma {:induction false} InboxAppend(a: seq<Packet>, b: seq<Packet>, x: ConnId)
    ensures Inbox(a + b, x) == Inbox(a, x) + Inbox(b, x)
    decreases |b|
  {
    if b == [] {
      assert a + b == a;
    } else {
      var b' := b[..|b| - 1];
      assert (a + b)[..|a + b| - 1] == a + b';
      InboxAppend(a, b', x);
    }
  }

  /** Whether some packet of `out` reaches connection `x`. */
  ghost predicate Reaches(out: seq<Packet>, x: ConnId)
  {
    exists i :: 0 <= i < |out| && x in out[i].to
  }

  /**
   * The `forEach` of the `new message` handler over `users`: one packet per
   * entry whose id differs from the sender's, addressed with `socket.in` to
   * that user's room, i.e. excluding the emitting connection and its own-id room.
   */
  function FanOut(rooms: RoomTable, emitter: ConnId, users: seq<UserRef>, m: NewMessage): (out: seq<Packet>)
    ensures |out| <= |users|
    ensures forall i :: 0 <= i < |out| ==>
              && out[i].event == "message received" && out[i].payload == Message(m)
              && emitter !in out[i].to && out[i].to !! Members(rooms, emitter)
    decreases |users|
  {
    if users == [] then []
    else
      var u := users[|users| - 1];
      FanOut(rooms, emitter, users[..|users| - 1], m)
      + (if u.id == m.sender.id then [] else [Packet(Others(rooms, u.id, emitter), "message received", Message(m))])
  }

  /**
   * `x` is addressed by the fan-out: neither the emitter nor in the emitter's
   * own-id room, and in the room of a listed user other than the sender.
   */
  ghost predicate Addressee(rooms: RoomTable, emitter: ConnId, users: seq<UserRef>, m: NewMessage, x: ConnId)
  {
    x != emitter && x !in Members(rooms, emitter) && exists i :: 0 <= i < |users| && users[i].id != m.sender.id && x in Members(rooms, users[i].id)
  }

  /** Exactly the addressees receive a message; connections merely in the chat room do not. */
  lemma {:induction false} FanOutReaches(rooms: RoomTable, emitter: ConnId, users: seq<UserRef>, m: NewMessage, x: ConnId)
    ensures Reaches(FanOut(rooms, emitter, users, m), x) <==> Addressee(rooms, emitter, users, m, x)
    decreases |users|
  {
    if users != [] {
      var init := users[..|users| - 1];
      var u := users[|users| - 1];
      var head := FanOut(rooms, emitter, init, m);
      var tail: seq<Packet> := if u.id == m.sender.id then [] else [Packet(Others(rooms, u.id, emitter), "message received", Message(m))];
      assert FanOut(rooms, emitter, users, m) == head + tail;
      FanOutReaches(rooms, emitter, init, m, x);
      assert Reaches(head + tail, x) ==> Addressee(rooms, emitter, users, m, x) by {
        if Reaches(head + tail, x) {
          var i :| 0 <= i < |head + tail| && x in (head + tail)[i].to;
          if i < |head| {
            assert Reaches(head, x);
            var j :| 0 <= j < |init| && init[j].id != m.sender.id && x in Members(rooms, init[j].id);
            assert users[j] == init[j];
          } else {
            assert users[|users| - 1] == u;
          }
        }
      }
      assert Addressee(rooms, emitter, users, m, x) ==> Reaches(head + tail, x) by {
        if Addressee(rooms, emitter, users, m, x) {
          var j :| 0 <= j < |users| && users[j].id != m.sender.id && x in Members(rooms, users[j].id);
          if j < |users| - 1 {
            assert init[j] == users[j];
            var i :| 0 <= i < |head| && x in head[i].to;
            assert (head + tail)[i] == head[i];
          } else {
            assert (head + tail)[|head|] == tail[0];
          }
        }
      }
    }
  }

  /**
   * User A on connection c1 and user B on c2 and c3, all in chat room
   * chat42: a message A sends from c1 reaches c2 and c3 and not c1.
   */
  lemma TwoUserChatScenario(b: Blob)
    ensures var rooms := map["c1" := {"c1"}, "c2" := {"c2"}, "c3" := {"c3"},
                             "A" := {"c1"}, "B" := {"c2", "c3"}, "chat42" := {"c1", "c2", "c3"}];
            var users := [UserRef("A", b), UserRef("B", b)];
            var m := NewMessage(UserRef("A", b), ChatRef(Some(users), b), b);
            var out := FanOut(rooms, "c1", users, m);
            Reaches(out, "c2") && Reaches(out, "c3") && !Reaches(out, "c1")
  {
    var rooms := map["c1" := {"c1"}, "c2" := {"c2"}, "c3" := {"c3"},
                     "A" := {"c1"}, "B" := {"c2", "c3"}, "chat42" := {"c1", "c2", "c3"}];
    var users := [UserRef("A", b), UserRef("B", b)];
    var m := NewMessage(UserRef("A", b), ChatRef(Some(users), b), b);
    assert users[1].id != m.sender.id && "c2" in Members(rooms, users[1].id) && "c3" in Members(rooms, users[1].id);
    FanOutReaches(rooms, "c1", users, m, "c2");
    FanOutReaches(rooms, "c1", users, m, "c3");
    FanOutReaches(rooms, "c1", users, m, "c1");
  }

  /** Both registrations of the typing handler deliver a bare event to every other member, never to the originator. */
  lemma TypingDelivery(rooms: RoomTable, room: RoomId, c: ConnId, event: string, x: ConnId)
    ensures var p := Packet(Others(rooms, room, c), event, NoPayload);
            Inbox([p, p], x) == if x in Members(rooms, room) && x !in Excluded(rooms, c) then [(event, NoPayload), (event, NoPayload)] else []
  {
    var p := Packet(Others(rooms, room, c), event, NoPayload);
    var got := if x in p.to then [(event, NoPayload)] else [];
    assert [p, p][..1] == [p] && [p][..0] == [];
    assert Inbox([p], x) == got;
    assert Inbox([p, p], x) == got + got;
    assert x in p.to <==> x in Members(rooms, room) && x !in Excluded(rooms, c);
  }

  /** `user-joined`, emitted with `socket.to` after the join, reaches exactly the connections that were already in the room. */
  lemma UserJoinedReachesEarlierMembers(rooms: RoomTable, c: ConnId, meetingId: RoomId)
    ensures Others(Join(rooms, c, meetingId), meetingId, c) == Others(rooms, meetingId, c)
  {
    if meetingId != c {
      assert Excluded(Join(rooms, c, meetingId), c) == Excluded(rooms, c);
    }
  }

  /** The adapter's table is consistent with the live connections. */
  ghost predicate Consistent(live: set<ConnId>, rooms: RoomTable)
  {
    // no room holds a connection that is gone
    && (forall r, x :: x in Members(rooms, r) ==> x in live)
    // every live connection is in the room named by its own id
    && (forall x :: x in live ==> x in Members(rooms, x))
  }

  class Server {
    /** The connected sockets. */
    var live: set<ConnId>
    /** The adapter's room table. */
    var rooms: RoomTable
    /** Every packet emitted so far, in order. */
    var outbox: seq<Packet>

    ghost predicate Valid()
      reads this
    {
      Consistent(live, rooms)
    }

    constructor ()
      ensures Valid() && live == {} && rooms == map[] && outbox == []
    {
      live := {};
      rooms := map[];
      outbox := [];
    }

    /** Transport connect with a fresh socket id: the library puts the socket in its own-id room. */
    method Connect(c: ConnId)
      requires Valid() && c !in live
      modifies this
      ensures Valid()
      ensures live == old(live) + {c} && rooms == Join(old(rooms), c, c) && outbox == old(outbox)
    {
      live := live + {c};
      rooms := Join(rooms, c, c);
    }

    /** Transport disconnect: the library removes the socket from every room. */
    method Disconnect(c: ConnId)
      requires Valid()
      modifies this
      ensures Valid()
      ensures live == old(live) - {c} && rooms == LeaveAll(old(rooms), c) && outbox == old(outbox)
      ensures forall r :: c !in Members(rooms, r)
    {
      live := live - {c};
      rooms := LeaveAll(rooms, c);
    }

    /** `setup`: join the room named by the user id, and answer `connected` to this socket only. */
    method Setup(c: ConnId, userData: UserRef)
      requires Valid() && c in live
      modifies this
      ensures Valid() && live == old(live)
      ensures rooms == Join(old(rooms), c, userData.id)
      ensures c in Members(rooms, userData.id)
      ensures outbox == old(outbox) + [Packet({c}, "connected", NoPayload)]
      ensures forall x :: Inbox(outbox, x) == Inbox(old(outbox), x) + (if x == c then [("connected", NoPayload)] else [])
    {
      rooms := Join(rooms, c, userData.id);
      var sent := [Packet({c}, "connected", NoPayload)];
      forall x ensures Inbox(outbox + sent, x) == Inbox(outbox, x) + (if x == c then [("connected", NoPayload)] else []) {
        InboxAppend(outbox, sent, x);
      }
      outbox := outbox + sent;
    }

    /** `join chat`: only the calling connection joins; nothing is emitted. */
    method JoinChat(c: ConnId, room: RoomId)
      requires Valid() && c in live
      modifies this
      ensures Valid() && live == old(live) && outbox == old(outbox)
      ensures rooms == Join(old(rooms), c, room)
    {
      rooms := Join(rooms, c, room);
    }

    /**
     * `typing` and `stop typing`: the handler is registered twice, so one
     * event emits the bare event twice to the room minus the originator.
     */
    method Typing(c: ConnId, room: RoomId, event: string)
      requires Valid() && c in live
      requires event == "typing" || event == "stop typing"
      modifies this
      ensures Valid() && live == old(live) && rooms == old(rooms)
      ensures var p := Packet(Others(rooms, room, c), event, NoPayload);
              outbox == old(outbox) + [p, p]
      ensures forall x :: Inbox(outbox, x) == Inbox(old(outbox), x) +
                (if x in Members(rooms, room) && x !in Excluded(rooms, c) then [(event, NoPayload), (event, NoPayload)] else [])
      ensures Inbox(outbox, c) == Inbox(old(outbox), c)
    {
      var p := Packet(Others(rooms, room, c), event, NoPayload);
      forall x ensures Inbox(outbox + [p, p], x) == Inbox(outbox, x) +
                (if x in Members(rooms, room) && x !in Excluded(rooms, c) then [(event, NoPayload), (event, NoPayload)] else []) {
        InboxAppend(outbox, [p, p], x);
        TypingDelivery(rooms, room, c, event, x);
      }
      outbox := outbox + [p, p];
    }

    /**
     * `new message`: without `chat.users` the event is only logged; otherwise
     * the fan-out loop emits once per listed user other than the sender.
     */
    method NewMessageEvent(c: ConnId, m: NewMessage)
      requires Valid() && c in live
      modifies this
      ensures Valid() && live == old(live) && rooms == old(rooms)
      ensures m.chat.users.None? ==> outbox == old(outbox)
      ensures m.chat.users.Some? ==> outbox == old(outbox) + FanOut(rooms, c, m.chat.users.value, m)
    {
      if m.chat.users.None? {
        return;
      }
      var users := m.chat.users.value;
      var i := 0;
      while i < |users|
        invariant 0 <= i <= |users|
        invariant live == old(live) && rooms == old(rooms)
        invariant outbox == old(outbox) + FanOut(rooms, c, users[..i], m)
      {
        assert users[..i + 1][..i] == users[..i];
        if users[i].id != m.sender.id {
          outbox := outbox + [Packet(Others(rooms, users[i].id, c), "message received", Message(m))];
        }
        i := i + 1;
      }
      assert users[..i] == users;
    }

    /** `join meeting`: join, then tell the connections already there the joiner's socket id. */
    method JoinMeeting(c: ConnId, meetingId: RoomId)
      requires Valid() && c in live
      modifies this
      ensures Valid() && live == old(live)
      ensures rooms == Join(old(rooms), c, meetingId)
      ensures outbox == old(outbox) + [Packet(Others(old(rooms), meetingId, c), "user-joined", SocketId(c))]
    {
      rooms := Join(rooms, c, meetingId);
      UserJoinedReachesEarlierMembers(old(rooms), c, meetingId);
      outbox := outbox + [Packet(Others(rooms, meetingId, c), "user-joined", SocketId(c))];
    }

    /** `call-user`: relay the offer, unread, to every member of room `userToCall` (a socket id). */
    method CallUser(c: ConnId, req: CallUserRequest)
      requires Valid() && c in live
      modifies this
      ensures Valid() && live == old(live) && rooms == old(rooms)
      ensures outbox == old(outbox) + [Packet(Members(rooms, req.userToCall), "call-user", Offer(req.signalData, req.from, req.name))]
      ensures req.userToCall in live ==> req.userToCall in outbox[|outbox| - 1].to
    {
      outbox := outbox + [Packet(Members(rooms, req.userToCall), "call-user", Offer(req.signalData, req.from, req.name))];
    }

    /** `answer-call`: relay `data.signal`, unread, as `call-accepted` to every member of room `data.to`. */
    method AnswerCall(c: ConnId, data: AnswerRequest)
      requires Valid() && c in live
      modifies this
      ensures Valid() && live == old(live) && rooms == old(rooms)
      ensures outbox == old(outbox) + [Packet(Members(rooms, data.to), "call-accepted", Signal(data.signal))]
    {
      outbox := outbox + [Packet(Members(rooms, data.to), "call-accepted", Signal(data.signal))];
    }
  }
}
