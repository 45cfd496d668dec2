/** The hub of one process: a nested chat -> user -> sockets index, changed in place. */
module ChatRealtimeHub {
  import opened ChatPresence

  type Room = map<User, set<Socket>>

  /** The pairs that the nested index stands for. */
  function Pairs(rooms: map<Chat, Room>): set<(Socket, Chat)> {
    set chat, u, ws | chat in rooms && u in rooms[chat] && ws in rooms[chat][u] :: (ws, chat)
  }

  /** No empty room or user entry survives, and every socket sits only under the user it is registered for. */
  predicate Tidy(rooms: map<Chat, Room>, users: map<Socket, User>) {
    forall chat :: chat in rooms ==> TidyRoom(rooms[chat], users)
  }

  predicate TidyRoom(room: Room, users: map<Socket, User>) {
    && room != map[]
    && forall u :: u in room ==> room[u] != {} && forall ws :: ws in room[u] ==> ws in users && users[ws] == u
  }

  predicate Holds(rooms: map<Chat, Room>, ws: Socket, chat: Chat, u: User) {
    chat in rooms && u in rooms[chat] && ws in rooms[chat][u]
  }

  lemma PairsHold(rooms: map<Chat, Room>, ws: Socket, chat: Chat)
    ensures (ws, chat) in Pairs(rooms) <==> exists u :: Holds(rooms, ws, chat, u)
  {
    if u :| Holds(rooms, ws, chat, u) {
      assert (ws, chat) in Pairs(rooms);
    }
    if (ws, chat) in Pairs(rooms) {
      var c, u, x :| c in rooms && u in rooms[c] && x in rooms[c][u] && (x, c) == (ws, chat);
      assert Holds(rooms, ws, chat, u);
    }
  }

  /** In a tidy index a pair is found under the registered user, and presence is a room's key. */
  lemma TidyPairs(rooms: map<Chat, Room>, users: map<Socket, User>)
    requires Tidy(rooms, users)
    ensures forall ws, chat :: (ws, chat) in Pairs(rooms) <==> ws in users && Holds(rooms, ws, chat, users[ws])
    ensures WellFormed(Presence(users, Pairs(rooms)))
  {
    forall ws, chat
      ensures (ws, chat) in Pairs(rooms) <==> ws in users && Holds(rooms, ws, chat, users[ws])
    {
      PairsHold(rooms, ws, chat);
    }
  }

  lemma TidyPresence(rooms: map<Chat, Room>, users: map<Socket, User>, u: User, chat: Chat)
    requires Tidy(rooms, users)
    ensures InRoom(Presence(users, Pairs(rooms)), u, chat) <==> chat in rooms && u in rooms[chat]
  {
    TidyPairs(rooms, users);
    if chat in rooms && u in rooms[chat] {
      assert TidyRoom(rooms[chat], users);
      var sockets := rooms[chat][u];
      assert (forall ws :: ws !in sockets) ==> sockets == {};
      var ws :| ws in sockets;
      assert Holds(rooms, ws, chat, u) && (ws, chat) in Pairs(rooms);
    }
  }

  /** The next element of an iteration over a set, in no particular order. */
  method Pick<T>(s: set<T>) returns (x: T)
    requires s != {}
    ensures x in s
  {
    x :| x in s;
  }

  predicate StrictlySorted(xs: seq<int>) {
    forall i, j :: 0 <= i < j < |xs| ==> xs[i] < xs[j]
  }

  /** `sorted(...)` over distinct ids. */
  method Sorted(ids: set<int>) returns (xs: seq<int>)
    ensures StrictlySorted(xs)
    ensures forall x :: x in xs <==> x in ids
  {
    xs := [];
    var rest := ids;
    while rest != {}
      invariant rest <= ids && StrictlySorted(xs)
      invariant forall x :: x in ids <==> x in xs || x in rest
      invariant forall x, y :: x in xs && y in rest ==> x < y
      decreases |rest|
    {
      var least := Least(rest);
      forall i | 0 <= i < |xs|
        ensures xs[i] < least
      {
        assert xs[i] in xs;
      }
      xs, rest := xs + [least], rest - {least};
    }
  }

  method Least(ids: set<int>) returns (least: int)
    requires ids != {}
    ensures least in ids && forall x :: x in ids ==> least <= x
  {
    least := Pick(ids);
    var rest := ids - {least};
    while rest != {}
      invariant rest <= ids && least in ids
      invariant forall x :: x in ids ==> x in rest || least <= x
      decreases |rest|
    {
      var x := Pick(rest);
      least, rest := if x < least then x else least, rest - {x};
    }
  }

  class Hub {
    var roomUsers: map<Chat, Room>
    var socketUser: map<Socket, User>

    predicate Valid()
      reads this
    {
      Tidy(roomUsers, socketUser)
    }

    ghost function Model(): Presence
      reads this
    {
      Presence(socketUser, Pairs(roomUsers))
    }

    constructor ()
      ensures Valid() && Model() == Nobody
    {
      roomUsers, socketUser := map[], map[];
    }

    /** Registration keeps the index tidy exactly when the socket is not handed to another user while joined. */
    method Register(ws: Socket, u: User)
      requires Valid()
      modifies this
      ensures Model() == Next(old(Model()), ChatPresence.Register(ws, u))
      ensures Valid() <==> Allowed(old(Model()), ChatPresence.Register(ws, u))
    {
      socketUser := socketUser[ws := u];
      RegisterTidy(roomUsers, old(socketUser), ws, u);
    }

    method Join(ws: Socket, chat: Chat) returns (wasMember: bool, becameOnline: bool)
      requires Valid()
      modifies this
      ensures Valid() && Model() == Next(old(Model()), ChatPresence.Join(ws, chat))
      ensures wasMember <==> (ws, chat) in old(Model()).joined
      ensures becameOnline <==>
                ws in old(socketUser)
                && BecameOnline(old(Model()), ChatPresence.Join(ws, chat), old(socketUser)[ws], chat)
    {
      TidyPairs(roomUsers, socketUser);
      if ws !in socketUser {
        return false, false;
      }
      var u := socketUser[ws];
      TidyPresence(roomUsers, socketUser, u, chat);
      var users: Room := if chat in roomUsers then roomUsers[chat] else map[];
      becameOnline := u !in users;
      var sockets := if u in users then users[u] else {};
      wasMember := ws in sockets;
      roomUsers := roomUsers[chat := users[u := sockets + {ws}]];
      JoinTidy(old(roomUsers), roomUsers, socketUser, ws, chat);
    }

    method Leave(ws: Socket, chat: Chat) returns (wasMember: bool, wentOffline: bool)
      requires Valid()
      modifies this
      ensures Valid() && Model() == Next(old(Model()), ChatPresence.Leave(ws, chat))
      ensures wasMember <==> (ws, chat) in old(Model()).joined
      ensures wentOffline <==>
                ws in old(socketUser)
                && WentOffline(old(Model()), ChatPresence.Leave(ws, chat), old(socketUser)[ws], chat)
    {
      TidyPairs(roomUsers, socketUser);
      if ws !in socketUser {
        return false, false;
      }
      var u := socketUser[ws];
      TidyPresence(roomUsers, socketUser, u, chat);
      if chat !in roomUsers || u !in roomUsers[chat] {
        assert old(Model()).joined - {(ws, chat)} == old(Model()).joined;
        return false, false;
      }
      var users := roomUsers[chat];
      wasMember := ws in users[u];
      var users' := Drop(users, u, ws);
      wentOffline := u !in users';
      roomUsers := if users' == map[] then roomUsers - {chat} else roomUsers[chat := users'];
      DropTidy(old(roomUsers), roomUsers, socketUser, ws, chat);
      TidyPresence(roomUsers, socketUser, u, chat);
    }

    /**
     One pair per room where the socket's user is present, whether or not this socket was in it; the
     flag is True exactly where it was the user's last socket.
     */
    method Unregister(ws: Socket) returns (transitions: seq<(Chat, bool)>)
      requires Valid()
      modifies this
      ensures Valid() && Model() == Next(old(Model()), ChatPresence.Unregister(ws))
      ensures ws !in old(socketUser) ==> transitions == []
      ensures ws in old(socketUser) ==> forall chat ::
                && ((chat, true) in transitions <==>
                     WentOffline(old(Model()), ChatPresence.Unregister(ws), old(socketUser)[ws], chat))
                && ((chat, false) in transitions <==> InRoom(Model(), old(socketUser)[ws], chat))
      ensures forall i, j :: 0 <= i < j < |transitions| ==> transitions[i].0 != transitions[j].0
    {
      if ws !in socketUser {
        return [];
      }
      var u := socketUser[ws];
      socketUser := socketUser - {ws};
      assert forall chat :: chat in roomUsers ==> TidyRoom(roomUsers[chat], old(socketUser));
      transitions := LeaveEveryRoom(ws, u);
      UnregisterTidy(old(roomUsers), roomUsers, old(socketUser), ws);
    }

    /** The loop over a snapshot of the rooms. */
    method LeaveEveryRoom(ws: Socket, u: User) returns (transitions: seq<(Chat, bool)>)
      requires forall chat :: chat in roomUsers ==> roomUsers[chat] != map[]
      modifies this`roomUsers
      ensures forall chat :: chat in old(roomUsers) ==> Cleared(old(roomUsers)[chat], roomUsers, chat, u, ws)
      ensures forall chat :: chat in roomUsers ==> chat in old(roomUsers)
      ensures forall chat, last: bool ::
                (chat, last) in transitions <==>
                  && chat in old(roomUsers) && u in old(roomUsers)[chat]
                  && last == (old(roomUsers)[chat][u] <= {ws})
      ensures forall i, j :: 0 <= i < j < |transitions| ==> transitions[i].0 != transitions[j].0
    {
      transitions := [];
      var pending := roomUsers.Keys;
      while pending != {}
        invariant LeftSoFar(old(roomUsers), roomUsers, pending, u, ws)
        invariant ReportedSoFar(old(roomUsers), transitions, pending, u, ws)
        decreases |pending|
      {
        var chat := Pick(pending);
        var users := roomUsers[chat];
        ghost var before, reported := roomUsers, transitions;
        if u in users {
          var users' := Drop(users, u, ws);
          transitions := transitions + [(chat, u !in users')];
          roomUsers := if users' == map[] then roomUsers - {chat} else roomUsers[chat := users'];
        }
        OneRoomLeft(old(roomUsers), before, roomUsers, pending, chat, u, ws);
        OneRoomReported(old(roomUsers), reported, transitions, pending, chat, u, ws);
        pending := pending - {chat};
      }
    }

    method JoinedChats(ws: Socket) returns (chats: seq<Chat>)
      requires Valid()
      ensures StrictlySorted(chats)
      ensures forall chat :: chat in chats <==> (ws, chat) in Model().joined
    {
      TidyPairs(roomUsers, socketUser);
      if ws !in socketUser {
        return [];
      }
      chats := Sorted(set chat | chat in roomUsers && Holds(roomUsers, ws, chat, socketUser[ws]));
    }

    method OnlineOthers(chat: Chat, u: User) returns (others: seq<User>)
      requires Valid()
      ensures StrictlySorted(others)
      ensures forall other :: other in others <==> other != u && InRoom(Model(), other, chat)
    {
      forall other ensures InRoom(Model(), other, chat) <==> chat in roomUsers && other in roomUsers[chat] {
        TidyPresence(roomUsers, socketUser, other, chat);
      }
      if chat !in roomUsers {
        return [];
      }
      others := Sorted(set other | other in roomUsers[chat] && other != u);
    }

    /** The sockets one local delivery writes to: everyone joined to the chat here, each once. */
    method LocalRecipients(chat: Chat) returns (sockets: seq<Socket>)
      requires Valid()
      ensures forall ws :: ws in sockets <==> (ws, chat) in Model().joined
      ensures forall i, j :: 0 <= i < j < |sockets| ==> sockets[i] != sockets[j]
    {
      TidyPairs(roomUsers, socketUser);
      if chat !in roomUsers {
        return [];
      }
      var users := roomUsers[chat];
      assert TidyRoom(users, socketUser);
      sockets := [];
      var pending := users.Keys;
      while pending != {}
        invariant pending <= users.Keys
        invariant forall ws :: ws in sockets <==>
                    && ws in socketUser && socketUser[ws] in users && socketUser[ws] !in pending
                    && ws in users[socketUser[ws]]
        invariant forall i, j :: 0 <= i < j < |sockets| ==> sockets[i] != sockets[j]
        decreases |pending|
      {
        var u := Pick(pending);
        pending := pending - {u};
        var more := Sorted(users[u]);
        assert forall i :: 0 <= i < |sockets| ==> sockets[i] in sockets && sockets[i] !in users[u];
        assert forall i :: 0 <= i < |more| ==> more[i] in more;
        sockets := sockets + more;
      }
    }
  }

  /** `sockets.discard(ws)`, and the user's entry goes with the last socket. */
  function Drop(users: Room, u: User, ws: Socket): Room
    requires u in users
  {
    if users[u] <= {ws} then users - {u} else users[u := users[u] - {ws}]
  }

  lemma DropKeepsTheRest(users: Room, u: User, ws: Socket, v: User, x: Socket)
    requires u in users
    ensures v in Drop(users, u, ws) && x in Drop(users, u, ws)[v] <==>
              v in users && x in users[v] && !(v == u && x == ws)
  {
  }

  /** What the unregister loop leaves of one room. */
  predicate Cleared(users: Room, rooms: map<Chat, Room>, chat: Chat, u: User, ws: Socket) {
    var left := if u in users then Drop(users, u, ws) else users;
    if left == map[] then chat !in rooms else chat in rooms && rooms[chat] == left
  }

  /** The unregister loop with the pending rooms still untouched and all others cleared. */
  ghost predicate LeftSoFar(was: map<Chat, Room>, now: map<Chat, Room>, pending: set<Chat>, u: User, ws: Socket) {
    && pending <= was.Keys && now.Keys <= was.Keys
    && (forall chat :: chat in pending ==> chat in now && now[chat] == was[chat])
    && (forall chat :: chat in was && chat !in pending ==> Cleared(was[chat], now, chat, u, ws))
  }

  /** One pair for every room done that the user was in, saying whether the socket was the user's last there. */
  ghost predicate ReportedSoFar(was: map<Chat, Room>, transitions: seq<(Chat, bool)>, pending: set<Chat>, u: User,
                                ws: Socket) {
    && (forall i, j :: 0 <= i < j < |transitions| ==> transitions[i].0 != transitions[j].0)
    && (forall chat, last: bool ::
          (chat, last) in transitions <==>
            chat in was && chat !in pending && u in was[chat] && last == (was[chat][u] <= {ws}))
  }

  lemma OneRoomLeft(was: map<Chat, Room>, before: map<Chat, Room>, now: map<Chat, Room>, pending: set<Chat>, chat: Chat,
                    u: User, ws: Socket)
    requires LeftSoFar(was, before, pending, u, ws) && chat in pending && was[chat] != map[]
    requires now == if u !in was[chat] then before
                    else if Drop(was[chat], u, ws) == map[] then before - {chat}
                      else before[chat := Drop(was[chat], u, ws)]
    ensures LeftSoFar(was, now, pending - {chat}, u, ws)
  {
  }

  lemma OneRoomReported(was: map<Chat, Room>, before: seq<(Chat, bool)>, now: seq<(Chat, bool)>, pending: set<Chat>,
                        chat: Chat, u: User, ws: Socket)
    requires ReportedSoFar(was, before, pending, u, ws) && chat in pending && chat in was
    requires now == if u in was[chat] then before + [(chat, was[chat][u] <= {ws})] else before
    ensures ReportedSoFar(was, now, pending - {chat}, u, ws)
  {
    forall i | 0 <= i < |before|
      ensures before[i].0 != chat
    {
      var (done, last) := before[i];
      assert (done, last) in before;
    }
  }

  // ---------- Each change of the index, as a change of the relation ----------

  lemma RegisterTidy(rooms: map<Chat, Room>, users: map<Socket, User>, ws: Socket, u: User)
    requires Tidy(rooms, users)
    ensures Tidy(rooms, users[ws := u]) <==> Allowed(Presence(users, Pairs(rooms)), ChatPresence.Register(ws, u))
  {
    TidyPairs(rooms, users);
    if JoinedAnywhere(Presence(users, Pairs(rooms)), ws) {
      var chat :| (ws, chat) in Pairs(rooms);
      assert Holds(rooms, ws, chat, users[ws]) && TidyRoom(rooms[chat], users);
      assert Tidy(rooms, users[ws := u]) ==> TidyRoom(rooms[chat], users[ws := u]);
    }
    forall chat | chat in rooms
      ensures TidyRoom(rooms[chat], users)
      ensures Allowed(Presence(users, Pairs(rooms)), ChatPresence.Register(ws, u)) ==>
                TidyRoom(rooms[chat], users[ws := u])
    {
      forall v, x | v in rooms[chat] && x in rooms[chat][v]
        ensures x in users && users[x] == v && (x, chat) in Pairs(rooms)
      {
        assert Holds(rooms, x, chat, v);
      }
    }
  }

  lemma JoinTidy(rooms: map<Chat, Room>, rooms': map<Chat, Room>, users: map<Socket, User>, ws: Socket, chat: Chat)
    requires Tidy(rooms, users) && ws in users
    requires
      var room: Room := if chat in rooms then rooms[chat] else map[];
      var sockets := if users[ws] in room then room[users[ws]] else {};
      rooms' == rooms[chat := room[users[ws] := sockets + {ws}]]
    ensures Tidy(rooms', users) && Pairs(rooms') == Pairs(rooms) + {(ws, chat)}
  {
    assert chat in rooms ==> TidyRoom(rooms[chat], users);
    assert TidyRoom(rooms'[chat], users);
    TidyPairs(rooms, users);
    TidyPairs(rooms', users);
    forall x, c ensures (x, c) in Pairs(rooms') <==> (x, c) in Pairs(rooms) || (x, c) == (ws, chat) {
    }
  }

  lemma DropTidy(rooms: map<Chat, Room>, rooms': map<Chat, Room>, users: map<Socket, User>, ws: Socket, chat: Chat)
    requires Tidy(rooms, users) && ws in users && chat in rooms && users[ws] in rooms[chat]
    requires
      var left := Drop(rooms[chat], users[ws], ws);
      rooms' == if left == map[] then rooms - {chat} else rooms[chat := left]
    ensures Tidy(rooms', users) && Pairs(rooms') == Pairs(rooms) - {(ws, chat)}
  {
    assert TidyRoom(rooms[chat], users);
    assert chat in rooms' ==> TidyRoom(rooms'[chat], users);
    TidyPairs(rooms, users);
    TidyPairs(rooms', users);
    forall x, c ensures (x, c) in Pairs(rooms') <==> (x, c) in Pairs(rooms) && (x, c) != (ws, chat) {
      if x in users {
        DropKeepsTheRest(rooms[chat], users[ws], ws, users[x], x);
      }
    }
  }

  lemma UnregisterTidy(rooms: map<Chat, Room>, rooms': map<Chat, Room>, users: map<Socket, User>, ws: Socket)
    requires Tidy(rooms, users) && ws in users
    requires forall chat :: chat in rooms ==> Cleared(rooms[chat], rooms', chat, users[ws], ws)
    requires forall chat :: chat in rooms' ==> chat in rooms
    ensures Tidy(rooms', users - {ws}) && Pairs(rooms') == Without(Pairs(rooms), ws)
    ensures forall u, chat :: InRoom(Presence(users, Pairs(rooms)), u, chat) <==> chat in rooms && u in rooms[chat]
    ensures forall u, chat :: InRoom(Presence(users - {ws}, Pairs(rooms')), u, chat) <==>
              chat in rooms' && u in rooms'[chat]
  {
    forall chat | chat in rooms'
      ensures TidyRoom(rooms'[chat], users - {ws})
    {
      assert TidyRoom(rooms[chat], users) && Cleared(rooms[chat], rooms', chat, users[ws], ws);
    }
    TidyPairs(rooms, users);
    TidyPairs(rooms', users - {ws});
    forall x, c ensures (x, c) in Pairs(rooms') <==> (x, c) in Pairs(rooms) && x != ws {
      if x in users && c in rooms {
        assert Cleared(rooms[c], rooms', c, users[ws], ws);
        if users[ws] in rooms[c] {
          DropKeepsTheRest(rooms[c], users[ws], ws, users[x], x);
        }
      }
    }
    forall u, chat
      ensures InRoom(Presence(users, Pairs(rooms)), u, chat) <==> chat in rooms && u in rooms[chat]
      ensures InRoom(Presence(users - {ws}, Pairs(rooms')), u, chat) <==> chat in rooms' && u in rooms'[chat]
    {
      TidyPresence(rooms, users, u, chat);
      TidyPresence(rooms', users - {ws}, u, chat);
    }
  }
}
