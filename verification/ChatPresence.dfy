/**
 What the chat hub is about, without its index: which sockets are joined to which chats, and on
 whose behalf. The hub's nested dictionaries are proved to agree with this plain relation.
 */
module ChatPresence {

  type Socket = int
  type User = int
  type Chat = int   // 0 stands for the empty chat id

  /** `users` is the socket registry; `joined` is the plain set of (socket, chat) pairs. */
  datatype Presence = Presence(users: map<Socket, User>, joined: set<(Socket, Chat)>)

  /** Every joined socket is registered. */
  predicate WellFormed(m: Presence) {
    forall pair :: pair in m.joined ==> pair.0 in m.users
  }

  /** A user is in a room while at least one socket of theirs is joined to it. */
  predicate InRoom(m: Presence, u: User, chat: Chat) {
    exists ws :: ws in m.users && m.users[ws] == u && (ws, chat) in m.joined
  }

  ghost predicate JoinedAnywhere(m: Presence, ws: Socket) {
    exists chat: Chat :: (ws, chat) in m.joined
  }

  // ---------- The operations ----------

  datatype Op =
    | Register(ws: Socket, user: User)
    | Unregister(ws: Socket)
    | Join(ws: Socket, chat: Chat)
    | Leave(ws: Socket, chat: Chat)

  /** A socket that is joined somewhere may only be registered again for the same user. */
  ghost predicate Allowed(m: Presence, op: Op) {
    op.Register? && JoinedAnywhere(m, op.ws) ==> op.ws in m.users && m.users[op.ws] == op.user
  }

  function Without(joined: set<(Socket, Chat)>, ws: Socket): set<(Socket, Chat)> {
    set pair | pair in joined && pair.0 != ws
  }

  function Next(m: Presence, op: Op): Presence {
    match op
    case Register(ws, u) => m.(users := m.users[ws := u])
    case Unregister(ws) => if ws in m.users then Presence(m.users - {ws}, Without(m.joined, ws)) else m
    case Join(ws, chat) => if ws in m.users then m.(joined := m.joined + {(ws, chat)}) else m
    case Leave(ws, chat) => if ws in m.users then m.(joined := m.joined - {(ws, chat)}) else m
  }

  /** The online announcement that an operation's answer makes for (u, chat). */
  predicate BecameOnline(m: Presence, op: Op, u: User, chat: Chat) {
    op.Join? && op.chat == chat && op.ws in m.users && m.users[op.ws] == u && !InRoom(m, u, chat)
  }

  /** The offline announcement that an operation's answer makes for (u, chat). */
  predicate WentOffline(m: Presence, op: Op, u: User, chat: Chat) {
    && (op.Unregister? || (op.Leave? && op.chat == chat))
    && op.ws in m.users && m.users[op.ws] == u
    && InRoom(m, u, chat)
    && !InRoom(Next(m, op), u, chat)
  }

  lemma NextIsWellFormed(m: Presence, op: Op)
    requires WellFormed(m)
    ensures WellFormed(Next(m, op))
  {
  }

  /** Announcements are exactly the changes of presence: nothing is announced twice, missed or made up. */
  lemma AnnouncementsAreTheChanges(m: Presence, op: Op, u: User, chat: Chat)
    requires WellFormed(m) && Allowed(m, op)
    ensures BecameOnline(m, op, u, chat) <==> !InRoom(m, u, chat) && InRoom(Next(m, op), u, chat)
    ensures WentOffline(m, op, u, chat) <==> InRoom(m, u, chat) && !InRoom(Next(m, op), u, chat)
  {
    match op
    case Join(ws, c) => assert BecameOnline(m, op, u, chat) ==> (ws, chat) in Next(m, op).joined;
    case Register(_, _) =>
      if InRoom(m, u, chat) {
        RegisteringKeepsPresence(m, op, u, chat);
      }
    case _ =>
  }

  lemma RegisteringKeepsPresence(m: Presence, op: Op, u: User, chat: Chat)
    requires Allowed(m, op) && op.Register? && InRoom(m, u, chat)
    ensures InRoom(Next(m, op), u, chat)
  {
    var ws :| ws in m.users && m.users[ws] == u && (ws, chat) in m.joined;
    assert Next(m, op).users[ws] == u;
  }

  // ---------- Runs ----------

  function Run(m: Presence, ops: seq<Op>): Presence
    decreases |ops|
  {
    if ops == [] then m else Next(Run(m, ops[..|ops| - 1]), ops[|ops| - 1])
  }

  ghost predicate AllAllowed(m: Presence, ops: seq<Op>) {
    forall i :: 0 <= i < |ops| ==> Allowed(Run(m, ops[..i]), ops[i])
  }

  /** The announcements about (u, chat) along a run: true for online, false for offline. */
  function Announcements(m: Presence, ops: seq<Op>, u: User, chat: Chat): seq<bool>
    decreases |ops|
  {
    if ops == [] then []
    else
      var before := Run(m, ops[..|ops| - 1]);
      var op := ops[|ops| - 1];
      Announcements(m, ops[..|ops| - 1], u, chat)
      + (if BecameOnline(before, op, u, chat) then [true] else if WentOffline(before, op, u, chat) then [false] else [])
  }

  const Nobody := Presence(map[], {})

  /** Online and offline strictly alternate, starting with online. */
  predicate Alternates(flags: seq<bool>) {
    forall i :: 0 <= i < |flags| ==> flags[i] == (i % 2 == 0)
  }

  function Count(flags: seq<bool>, value: bool): nat {
    if flags == [] then 0 else Count(flags[..|flags| - 1], value) + (if flags[|flags| - 1] == value then 1 else 0)
  }

  /**
   Over any run from an empty hub, the announcements about a user in a room strictly alternate from
   online, and onlines exceed offlines by one exactly while that user has a socket in the room.
   */
  lemma {:induction false} PresenceAlternates(ops: seq<Op>, u: User, chat: Chat)
    requires AllAllowed(Nobody, ops)
    ensures WellFormed(Run(Nobody, ops))
    ensures Alternates(Announcements(Nobody, ops, u, chat))
    ensures
      var flags := Announcements(Nobody, ops, u, chat);
      Count(flags, true) - Count(flags, false) == (if InRoom(Run(Nobody, ops), u, chat) then 1 else 0)
    decreases |ops|
  {
    if ops == [] {
      assert !InRoom(Nobody, u, chat);
    } else {
      var shorter := ops[..|ops| - 1];
      assert AllAllowed(Nobody, shorter) by {
        forall i | 0 <= i < |shorter| ensures Allowed(Run(Nobody, shorter[..i]), shorter[i]) {
          assert shorter[..i] == ops[..i];
        }
      }
      PresenceAlternates(shorter, u, chat);
      AnnouncementsAreTheChanges(Run(Nobody, shorter), ops[|ops| - 1], u, chat);
      NextIsWellFormed(Run(Nobody, shorter), ops[|ops| - 1]);
      var flags := Announcements(Nobody, shorter, u, chat);
      AlternatingCounts(flags);
      var all := Announcements(Nobody, ops, u, chat);
      if all != flags {
        assert all[..|all| - 1] == flags;
      }
    }
  }

  lemma {:induction false} AlternatingCounts(flags: seq<bool>)
    requires Alternates(flags)
    ensures Count(flags, true) - Count(flags, false) == |flags| % 2
  {
    if flags != [] {
      AlternatingCounts(flags[..|flags| - 1]);
    }
  }
}
