/**
 * The signaling service's room bookkeeping (apps/signaling/src/index.ts) as pure
 * transitions over an abstract Redis store.
 *
 * The store is three maps keyed by room id: the JSON room record under
 * `roomKey(id)`, the member set under `membersKey(id)` and the socket-id -> user-id
 * hash under `socketsKey(id)`; a fourth map holds the refresh tokens stored under
 * `rt:<userId>`. Redis deletes a set or hash that becomes empty, and an absent key
 * reads as an empty set or hash. Redis holds only strings, so a numeric id is
 * stored as its text (`Text`). Every handler is one atomic step here.
 */
module Presence {
  import opened Common
  import opened Auth
  import Roles

  type RoomId = string
  /** A user id as Redis stores it: the text of the id the request or token carried. */
  type UserId = string
  type SocketId = string

  /** Member count at which `ensureRoomMode` switches a room to the SFU. */
  const SFU_THRESHOLD := 5
  /** Prefix of the ids minted by room creation: `"room_" + randomBytes(3).hex`. */
  const ROOM_ID_PREFIX := "room_"

  const BAD_REQUEST := 400
  const NOT_FOUND := 404

  datatype Mode = Mesh | Sfu

  /** The `Room` record of apps/signaling/src/models.ts. */
  datatype Room = Room(id: RoomId, hostId: Json, mode: Mode, createdAt: string, locked: Option<bool>)

  /** Who an emitted event is addressed to (delivery itself is Socket.IO's). */
  datatype Target =
    | ToRoom(roomId: RoomId)                          // io.to(roomId)
    | ToRoomExcept(roomId: RoomId, sender: SocketId)  // socket.to(roomId): the room without the sender
    | ToName(name: string)                            // io.to(name) for a client-chosen name

  datatype Event =
    | RoomModeChanged(mode: Mode)
    | ParticipantJoined(userId: Json, socketId: SocketId)
    | ParticipantLeft(userId: Json, socketId: SocketId)
    | RoomLocked(locked: bool)
    | Signal(fromSocketId: SocketId, fromUserId: Json, data: string)

  datatype Emit = Emit(to: Target, event: Event)

  /** HTTP responses of the room endpoints. */
  datatype Response =
    | Failure(status: int, error: string)
    | RoomCreated(room: Room, token: Claims, refresh: string)
    | Joined(token: Claims, refresh: string)
    | Refreshed(token: Claims)
    | Acknowledged
    | Removed(count: nat)

  datatype Store = Store(
    rooms: map<RoomId, Room>,
    members: map<RoomId, set<UserId>>,
    sockets: map<RoomId, map<SocketId, UserId>>,
    refresh: map<string, string>)

  /** The result of a socket handler: the new store and what it emitted, in order. */
  datatype Step = Step(store: Store, emits: seq<Emit>)

  /** The result of an HTTP handler. */
  datatype Reply = Reply(store: Store, response: Response, emits: seq<Emit>)

  // ---------------------------------------------------------------------------
  // Redis commands on the member sets and socket hashes
  // ---------------------------------------------------------------------------

  /** SMEMBERS: an absent key reads as the empty set. */
  function MembersOf(m: map<RoomId, set<UserId>>, r: RoomId): set<UserId> {
    if r in m then m[r] else {}
  }

  /** HGETALL: an absent key reads as the empty hash. */
  function SocketsOf(h: map<RoomId, map<SocketId, UserId>>, r: RoomId): map<SocketId, UserId> {
    if r in h then h[r] else map[]
  }

  /** HVALS as a set: the users some socket of the hash maps to. */
  function Users(hash: map<SocketId, UserId>): set<UserId> {
    hash.Values
  }

  function SAdd(m: map<RoomId, set<UserId>>, r: RoomId, u: UserId): (m': map<RoomId, set<UserId>>)
    ensures MembersOf(m', r) == MembersOf(m, r) + {u}
    ensures forall q :: q != r ==> MembersOf(m', q) == MembersOf(m, q)
  {
    m[r := MembersOf(m, r) + {u}]
  }

  function SRem(m: map<RoomId, set<UserId>>, r: RoomId, u: UserId): (m': map<RoomId, set<UserId>>)
    ensures MembersOf(m', r) == MembersOf(m, r) - {u}
    ensures forall q :: q != r ==> MembersOf(m', q) == MembersOf(m, q)
  {
    var rest := MembersOf(m, r) - {u};
    if rest == {} then m - {r} else m[r := rest]
  }

  function HSet(h: map<RoomId, map<SocketId, UserId>>, r: RoomId, sid: SocketId, u: UserId)
    : (h': map<RoomId, map<SocketId, UserId>>)
    ensures SocketsOf(h', r) == SocketsOf(h, r)[sid := u]
    ensures forall q :: q != r ==> SocketsOf(h', q) == SocketsOf(h, q)
  {
    h[r := SocketsOf(h, r)[sid := u]]
  }

  function HDel(h: map<RoomId, map<SocketId, UserId>>, r: RoomId, sid: SocketId)
    : (h': map<RoomId, map<SocketId, UserId>>)
    ensures SocketsOf(h', r) == SocketsOf(h, r) - {sid}
    ensures forall q :: q != r ==> SocketsOf(h', q) == SocketsOf(h, q)
  {
    var rest := SocketsOf(h, r) - {sid};
    if rest == map[] then h - {r} else h[r := rest]
  }

  lemma {:induction false} UsersInsert(hash: map<SocketId, UserId>, sid: SocketId, u: UserId)
    requires sid !in hash
    ensures Users(hash[sid := u]) == Users(hash) + {u}
  {
    var after := hash[sid := u];
    forall v | v in Users(hash) ensures v in Users(after) {
      var x :| x in hash && hash[x] == v;
      assert after[x] == v;
    }
    assert after[sid] == u;
  }

  lemma {:induction false} UsersRemove(hash: map<SocketId, UserId>, sid: SocketId)
    requires sid in hash
    ensures Users(hash - {sid}) <= Users(hash)
    ensures Users(hash) <= Users(hash - {sid}) + {hash[sid]}
  {
    var after := hash - {sid};
    forall v | v in Users(after) ensures v in Users(hash) {
      var x :| x in after && after[x] == v;
      assert hash[x] == v;
    }
    forall v | v in Users(hash) && v != hash[sid] ensures v in Users(after) {
      var x :| x in hash && hash[x] == v;
      assert x != sid;
      assert after[x] == v;
    }
  }

  // ---------------------------------------------------------------------------
  // The handlers
  // ---------------------------------------------------------------------------

  /**
   * `ensureRoomMode(roomId)`: promote a mesh room to the SFU once it has
   * SFU_THRESHOLD members; never demote, and do nothing without a room record.
   */
  function EnsureRoomMode(s: Store, r: RoomId): (t: Step)
    ensures t.store.members == s.members && t.store.sockets == s.sockets && t.store.refresh == s.refresh
    ensures t.store.rooms.Keys == s.rooms.Keys
    ensures forall q | q in s.rooms && q != r :: t.store.rooms[q] == s.rooms[q]
    ensures r in s.rooms ==> t.store.rooms[r] == s.rooms[r].(mode := t.store.rooms[r].mode)
    ensures r in s.rooms ==>
      (t.store.rooms[r].mode == Sfu <==> s.rooms[r].mode == Sfu || |MembersOf(s.members, r)| >= SFU_THRESHOLD)
    ensures t.emits != [] <==> t.store != s
    ensures t.emits != [] ==> t.emits == [Emit(ToRoom(r), RoomModeChanged(Sfu))]
  {
    var memberCount := |MembersOf(s.members, r)|;
    if r !in s.rooms then Step(s, [])
    else if memberCount >= SFU_THRESHOLD && s.rooms[r].mode != Sfu then
      var promoted := s.rooms[r].(mode := Sfu);
      assert promoted != s.rooms[r];
      Step(s.(rooms := s.rooms[r := promoted]), [Emit(ToRoom(r), RoomModeChanged(Sfu))])
    else Step(s, [])
  }

  /** `POST /v1/rooms`; `nonce` is the random hex, `createdAt` the clock, `refreshToken` the random refresh token. */
  function CreateRoom(s: Store, hostId: Option<Json>, mode: Option<string>, nonce: string,
                      createdAt: string, refreshToken: string): (t: Reply)
    ensures t.emits == []
    ensures !TruthyJson(hostId) ==> t == Reply(s, Failure(BAD_REQUEST, "hostId required"), [])
    ensures TruthyJson(hostId) ==>
      var id := ROOM_ID_PREFIX + nonce;
      && id in t.store.rooms
      && t.store.rooms == s.rooms[id := Room(id, hostId.value, t.store.rooms[id].mode, createdAt, None)]
      && (t.store.rooms[id].mode == Sfu <==> mode == Some("sfu"))
      && MembersOf(t.store.members, id) == {} && SocketsOf(t.store.sockets, id) == map[]
      && (forall q :: q != id ==> MembersOf(t.store.members, q) == MembersOf(s.members, q))
      && (forall q :: q != id ==> SocketsOf(t.store.sockets, q) == SocketsOf(s.sockets, q))
      && t.store.refresh == s.refresh[Text(hostId.value) := refreshToken]
      && t.response == RoomCreated(t.store.rooms[id],
                                   Minted(hostId.value, id, "host", Roles.RolePerms(Roles.Role.Host)), refreshToken)
  {
    if !TruthyJson(hostId) then Reply(s, Failure(BAD_REQUEST, "hostId required"), [])
    else
      var id := ROOM_ID_PREFIX + nonce;
      var room := Room(id, hostId.value, if mode == Some("sfu") then Sfu else Mesh, createdAt, None);
      var s' := Store(s.rooms[id := room], s.members - {id}, s.sockets - {id}, s.refresh[Text(hostId.value) := refreshToken]);
      var access := Minted(hostId.value, id, Roles.Role.Host.Name(), Roles.RolePerms(Roles.Role.Host));
      Reply(s', RoomCreated(room, access, refreshToken), [])
  }

  /** `POST /v1/rooms/:id/join`: needs a user id and a room record; `locked` is not read. */
  function Join(s: Store, roomId: RoomId, userId: Option<Json>, refreshToken: string): (t: Reply)
    ensures t.store.rooms == s.rooms && t.store.members == s.members && t.store.sockets == s.sockets
    ensures t.emits == []
    ensures t.response.Joined? <==> TruthyJson(userId) && roomId in s.rooms
    ensures !TruthyJson(userId) ==> t == Reply(s, Failure(BAD_REQUEST, "userId required"), [])
    ensures TruthyJson(userId) && roomId !in s.rooms ==> t == Reply(s, Failure(NOT_FOUND, "room not found"), [])
    ensures t.response.Joined? ==>
      && t.store.refresh == s.refresh[Text(userId.value) := refreshToken]
      && t.response.token == Minted(userId.value, roomId, "participant", Roles.RolePerms(Roles.Role.Participant))
      && t.response.refresh == refreshToken
  {
    if !TruthyJson(userId) then Reply(s, Failure(BAD_REQUEST, "userId required"), [])
    else if roomId !in s.rooms then Reply(s, Failure(NOT_FOUND, "room not found"), [])
    else
      var access := Minted(userId.value, roomId, Roles.Role.Participant.Name(), Roles.RolePerms(Roles.Role.Participant));
      Reply(s.(refresh := s.refresh[Text(userId.value) := refreshToken]), Joined(access, refreshToken), [])
  }

  /** `POST /v1/rooms/:id/lock` (`locked` true) and `/unlock` (`locked` false), past their middleware. */
  function SetLocked(s: Store, roomId: RoomId, locked: bool): (t: Reply)
    ensures t.store.members == s.members && t.store.sockets == s.sockets && t.store.refresh == s.refresh
    ensures t.store.rooms.Keys == s.rooms.Keys
    ensures roomId !in s.rooms ==> t == Reply(s, Failure(NOT_FOUND, "room not found"), [])
    ensures roomId in s.rooms ==>
      && t.store.rooms == s.rooms[roomId := s.rooms[roomId].(locked := Some(locked))]
      && t.response == Acknowledged
      && t.emits == [Emit(ToRoom(roomId), RoomLocked(locked))]
  {
    if roomId !in s.rooms then Reply(s, Failure(NOT_FOUND, "room not found"), [])
    else
      var room := s.rooms[roomId].(locked := Some(locked));
      Reply(s.(rooms := s.rooms[roomId := room]), Acknowledged, [Emit(ToRoom(roomId), RoomLocked(locked))])
  }

  /**
   * The `connection` handler up to `ensureRoomMode`: a socket whose claims lack a
   * room id or subject is disconnected; otherwise its user (as text) becomes a
   * member, its socket is mapped to that text, the others hear of it and the mode
   * is checked.
   */
  function Connect(s: Store, sid: SocketId, claims: Claims): (t: Step)
    ensures !Truthy(claims.roomId) || !TruthyJson(claims.sub) ==> t == Step(s, [])
    ensures Truthy(claims.roomId) && TruthyJson(claims.sub) ==>
      var r, u := claims.roomId.value, claims.sub.value;
      && MembersOf(t.store.members, r) == MembersOf(s.members, r) + {Text(u)}
      && SocketsOf(t.store.sockets, r) == SocketsOf(s.sockets, r)[sid := Text(u)]
      && (forall q :: q != r ==> MembersOf(t.store.members, q) == MembersOf(s.members, q))
      && (forall q :: q != r ==> SocketsOf(t.store.sockets, q) == SocketsOf(s.sockets, q))
      && t.store.refresh == s.refresh
      && |t.emits| >= 1 && t.emits[0] == Emit(ToRoomExcept(r, sid), ParticipantJoined(u, sid))
      && var checked := EnsureRoomMode(s.(members := t.store.members, sockets := t.store.sockets), r);
         t.store.rooms == checked.store.rooms && t.emits[1..] == checked.emits
  {
    if !Truthy(claims.roomId) || !TruthyJson(claims.sub) then Step(s, [])
    else
      var r, u := claims.roomId.value, claims.sub.value;
      var s1 := s.(members := SAdd(s.members, r, Text(u)));
      var s2 := s1.(sockets := HSet(s1.sockets, r, sid, Text(u)));
      var checked := EnsureRoomMode(s2, r);
      Step(checked.store, [Emit(ToRoomExcept(r, sid), ParticipantJoined(u, sid))] + checked.emits)
  }

  /**
   * `(await redis.hvals(key)).includes(userId)`: `includes` compares strictly, so
   * only a string id can equal one of the stored strings.
   */
  predicate Includes(vals: set<UserId>, u: Json) {
    u.JStr? && u.str in vals
  }

  /**
   * The common body of the `leaveRoom` and `disconnect` handlers of socket `sid`,
   * joined to room `r` as user `u` (the raw `sub` claim).
   */
  function Cleanup(s: Store, r: RoomId, sid: SocketId, u: Json): (t: Step)
    ensures SocketsOf(t.store.sockets, r) == SocketsOf(s.sockets, r) - {sid}
    ensures MembersOf(t.store.members, r) ==
      if Includes(Users(SocketsOf(t.store.sockets, r)), u) then MembersOf(s.members, r)
      else MembersOf(s.members, r) - {Text(u)}
    ensures forall q :: q != r ==> MembersOf(t.store.members, q) == MembersOf(s.members, q)
    ensures forall q :: q != r ==> SocketsOf(t.store.sockets, q) == SocketsOf(s.sockets, q)
    ensures t.store.refresh == s.refresh && t.store.rooms.Keys == s.rooms.Keys
    ensures |t.emits| >= 1 && t.emits[0] == Emit(ToRoomExcept(r, sid), ParticipantLeft(u, sid))
  {
    var s1 := s.(sockets := HDel(s.sockets, r, sid));
    var left := [Emit(ToRoomExcept(r, sid), ParticipantLeft(u, sid))];
    var userStillPresent := Includes(Users(SocketsOf(s1.sockets, r)), u);
    if userStillPresent then Step(s1, left)
    else
      var checked := EnsureRoomMode(s1.(members := SRem(s1.members, r, Text(u))), r);
      Step(checked.store, left + checked.emits)
  }

  /**
   * The room record and the emits after `participantLeft`: untouched while the user
   * is still found, otherwise those of the mode check on the updated sets.
   */
  lemma CleanupChecksMode(s: Store, r: RoomId, sid: SocketId, u: Json)
    ensures var t := Cleanup(s, r, sid, u);
      Includes(Users(SocketsOf(t.store.sockets, r)), u) ==> t.store.rooms == s.rooms && t.emits[1..] == []
    ensures var t := Cleanup(s, r, sid, u);
      !Includes(Users(SocketsOf(t.store.sockets, r)), u) ==>
        var checked := EnsureRoomMode(s.(members := t.store.members, sockets := t.store.sockets), r);
        t.store.rooms == checked.store.rooms && t.emits[1..] == checked.emits
  {
  }

  /**
   * The cleanup with the evidently intended presence test, which looks for the
   * stored text of the id (`includes(String(userId))`).
   */
  function CleanupIntended(s: Store, r: RoomId, sid: SocketId, u: Json): (t: Step)
    ensures SocketsOf(t.store.sockets, r) == SocketsOf(s.sockets, r) - {sid}
    ensures MembersOf(t.store.members, r) ==
      if Text(u) in Users(SocketsOf(t.store.sockets, r)) then MembersOf(s.members, r)
      else MembersOf(s.members, r) - {Text(u)}
    ensures forall q :: q != r ==> MembersOf(t.store.members, q) == MembersOf(s.members, q)
    ensures forall q :: q != r ==> SocketsOf(t.store.sockets, q) == SocketsOf(s.sockets, q)
    ensures |t.emits| >= 1 && t.emits[0] == Emit(ToRoomExcept(r, sid), ParticipantLeft(u, sid))
  {
    var s1 := s.(sockets := HDel(s.sockets, r, sid));
    var left := [Emit(ToRoomExcept(r, sid), ParticipantLeft(u, sid))];
    if Text(u) in Users(SocketsOf(s1.sockets, r)) then Step(s1, left)
    else
      var checked := EnsureRoomMode(s1.(members := SRem(s1.members, r, Text(u))), r);
      Step(checked.store, left + checked.emits)
  }

  /**
   * What `POST /v1/rooms/:id/remove` computes: a response and the socket ids it
   * addresses `removedByHost` to (each reached only if connected to this instance).
   */
  datatype Removal = Removal(response: Response, addressed: set<SocketId>)

  /** The sockets of a hash that map to `u`. */
  function SocketsOfUser(hash: map<SocketId, UserId>, u: UserId): set<SocketId> {
    set sid | sid in hash && hash[sid] == u
  }

  /**
   * `POST /v1/rooms/:id/remove`, past its middleware: reports and addresses the
   * sockets whose stored user is strictly equal (`===`) to the target; changes nothing.
   */
  function Remove(s: Store, roomId: RoomId, targetUserId: Option<Json>): (t: Removal)
    ensures !TruthyJson(targetUserId) ==> t == Removal(Failure(BAD_REQUEST, "targetUserId required"), {})
    ensures TruthyJson(targetUserId) ==>
      && t.addressed <= SocketsOf(s.sockets, roomId).Keys
      && (forall sid :: sid in t.addressed <==>
            sid in SocketsOf(s.sockets, roomId) && JStr(SocketsOf(s.sockets, roomId)[sid]) == targetUserId.value)
      && t.response == Removed(|t.addressed|)
  {
    if !TruthyJson(targetUserId) then Removal(Failure(BAD_REQUEST, "targetUserId required"), {})
    else
      var targets := match targetUserId.value
        case JStr(x) => SocketsOfUser(SocketsOf(s.sockets, roomId), x)
        case JNum(_) => {};
      Removal(Removed(|targets|), targets)
  }

  /** `checkRefreshToken(userId, refresh)`: the token stored under `rt:<userId>` is strictly equal to the one sent. */
  predicate RefreshMatches(s: Store, userId: Json, refresh: Json) {
    Text(userId) in s.refresh && refresh == JStr(s.refresh[Text(userId)])
  }

  /** The refresh request passes every rung before the role lookup. */
  predicate RefreshAdmitted(s: Store, userId: Option<Json>, refresh: Option<Json>,
                            roomId: Option<string>, role: Option<string>) {
    && TruthyJson(userId) && TruthyJson(refresh) && RefreshMatches(s, userId.value, refresh.value)
    && Truthy(roomId) && Truthy(role)
  }

  /** The `perms` claim a looked-up value becomes once signed: an array stays, a function is dropped, `Object.prototype` is `{}`. */
  function SignedPerms(v: Roles.Lookup): (p: PermsClaim)
    ensures v.OwnEntry? <==> p.PermList?
    ensures v.OwnEntry? ==> p == PermList(v.perms)
  {
    match v
    case OwnEntry(perms) => PermList(perms)
    case InheritedMember(name) => if name == "__proto__" then PermObject else NoPerms
    case Undefined => NoPerms
  }

  /** `POST /auth/refresh` as written: the role is looked up as a JavaScript property. */
  function RefreshAsWritten(s: Store, userId: Option<Json>, refresh: Option<Json>,
                            roomId: Option<string>, role: Option<string>): (r: Response)
    ensures !TruthyJson(userId) || !TruthyJson(refresh) ==> r == Failure(BAD_REQUEST, "missing fields")
    ensures TruthyJson(userId) && TruthyJson(refresh) && !RefreshMatches(s, userId.value, refresh.value) ==>
      r == Failure(Auth.UNAUTHORIZED, "invalid refresh")
    ensures TruthyJson(userId) && TruthyJson(refresh) && RefreshMatches(s, userId.value, refresh.value)
            && (!Truthy(roomId) || !Truthy(role)) ==>
      r == Failure(BAD_REQUEST, "missing room context")
    ensures RefreshAdmitted(s, userId, refresh, roomId, role) && !Roles.IsTruthy(Roles.LookupPerms(role.value)) ==>
      r == Failure(BAD_REQUEST, "unknown role")
    ensures r.Refreshed? <==>
      RefreshAdmitted(s, userId, refresh, roomId, role) && Roles.IsTruthy(Roles.LookupPerms(role.value))
    ensures r.Refreshed? ==> r.token == Claims(userId, roomId, role, SignedPerms(Roles.LookupPerms(role.value)), None)
  {
    if !TruthyJson(userId) || !TruthyJson(refresh) then Failure(BAD_REQUEST, "missing fields")
    else if !RefreshMatches(s, userId.value, refresh.value) then Failure(Auth.UNAUTHORIZED, "invalid refresh")
    else if !Truthy(roomId) || !Truthy(role) then Failure(BAD_REQUEST, "missing room context")
    else
      var perms := Roles.LookupPerms(role.value);
      if !Roles.IsTruthy(perms) then Failure(BAD_REQUEST, "unknown role")
      else Refreshed(Claims(userId, roomId, role, SignedPerms(perms), None))
  }

  /** `POST /auth/refresh` with the evidently intended role check: only the table's own roles. */
  function Refresh(s: Store, userId: Option<Json>, refresh: Option<Json>,
                   roomId: Option<string>, role: Option<string>): (r: Response)
    ensures !TruthyJson(userId) || !TruthyJson(refresh) ==> r == Failure(BAD_REQUEST, "missing fields")
    ensures TruthyJson(userId) && TruthyJson(refresh) && !RefreshMatches(s, userId.value, refresh.value) ==>
      r == Failure(Auth.UNAUTHORIZED, "invalid refresh")
    ensures TruthyJson(userId) && TruthyJson(refresh) && RefreshMatches(s, userId.value, refresh.value)
            && (!Truthy(roomId) || !Truthy(role)) ==>
      r == Failure(BAD_REQUEST, "missing room context")
    ensures RefreshAdmitted(s, userId, refresh, roomId, role) && Roles.ParseRole(role.value).None? ==>
      r == Failure(BAD_REQUEST, "unknown role")
    ensures r.Refreshed? <==> RefreshAdmitted(s, userId, refresh, roomId, role) && Roles.ParseRole(role.value).Some?
    ensures r.Refreshed? ==>
      r.token == Minted(userId.value, roomId.value, role.value, Roles.RolePerms(Roles.ParseRole(role.value).value))
  {
    if !TruthyJson(userId) || !TruthyJson(refresh) then Failure(BAD_REQUEST, "missing fields")
    else if !RefreshMatches(s, userId.value, refresh.value) then Failure(Auth.UNAUTHORIZED, "invalid refresh")
    else if !Truthy(roomId) || !Truthy(role) then Failure(BAD_REQUEST, "missing room context")
    else
      match Roles.ParseRole(role.value)
      case None => Failure(BAD_REQUEST, "unknown role")
      case Some(r) => Refreshed(Minted(userId.value, roomId.value, r.Name(), Roles.RolePerms(r)))
  }

  /** The argument of a `signal` event that is an object: its `toSocketId` and `data` fields. */
  datatype SignalPayload = SignalPayload(toSocketId: Option<string>, data: string)

  /**
   * What the `signal` handler does: nothing, one emit, or throw a TypeError. The
   * handler runs in Socket.IO's event dispatch, outside any `try`, so a throw is
   * an uncaught exception of the process.
   */
  datatype SignalOutcome = Dropped | Emitted(emit: Emit) | Throws

  /** `a?.perms?.includes("signal:send")` for a `perms` claim that has an `includes` method. */
  predicate MaySignal(c: Claims) {
    c.perms.PermList? && Roles.SIGNAL_SEND in c.perms.list
  }

  /**
   * The `signal` handler of socket `sid` (room `roomId`, user `userId`) for an
   * argument that is `undefined`/`null` (`None`) or an object. Destructuring
   * `{ toSocketId, data }` of a missing argument throws; so does `perms.includes`
   * when `perms` is a plain object, which has no `includes`; absent perms or a list
   * without `signal:send` drop the signal.
   */
  function SignalRoute(c: Claims, sid: SocketId, roomId: RoomId, userId: Json,
                       payload: Option<SignalPayload>): (o: SignalOutcome)
    ensures o.Throws? <==> payload.None? || c.perms.PermObject?
    ensures o.Emitted? <==> payload.Some? && MaySignal(c)
    ensures o.Emitted? ==> o.emit.event == Signal(sid, userId, payload.value.data)
  {
    if payload.None? then Throws
    else if c.perms.PermObject? then Throws
    else if !MaySignal(c) then Dropped
    else if Truthy(payload.value.toSocketId) then
      Emitted(Emit(ToName(payload.value.toSocketId.value), Signal(sid, userId, payload.value.data)))
    else Emitted(Emit(ToRoomExcept(roomId, sid), Signal(sid, userId, payload.value.data)))
  }

  // ---------------------------------------------------------------------------
  // Delivery, as Socket.IO performs it
  // ---------------------------------------------------------------------------

  /** The Socket.IO rooms (names) each connected socket has joined. */
  type Channels = map<SocketId, set<string>>

  /** Every connected socket is in the room named by its own id, and in no other socket's. */
  predicate OwnRoomsPrivate(ch: Channels) {
    && (forall x | x in ch :: x in ch[x])
    && (forall x, y | x in ch && y in ch && x in ch[y] :: x == y)
  }

  function InRoom(ch: Channels, name: string): set<SocketId> {
    set x | x in ch && name in ch[x]
  }

  function Recipients(to: Target, ch: Channels): set<SocketId> {
    match to
    case ToRoom(r) => InRoom(ch, r)
    case ToRoomExcept(r, sender) => InRoom(ch, r) - {sender}
    case ToName(n) => InRoom(ch, n)
  }

  // ---------------------------------------------------------------------------
  // Properties
  // ---------------------------------------------------------------------------

  /** Tokens minted from the role table never pass the signal gate: a well-formed signal is dropped. */
  lemma MintedTokensNeverSignal(sub: Json, roomId: string, role: Roles.Role, sid: SocketId, p: SignalPayload)
    ensures SignalRoute(Minted(sub, roomId, role.Name(), Roles.RolePerms(role)), sid, roomId, sub, Some(p)) == Dropped
  {
  }

  /**
   * A permitted signal with a target reaches every socket in the Socket.IO room of
   * that name: the target itself and any socket that joined a room of that name.
   * Only when no socket is in another socket's id room is that exactly the target.
   * Without a target it reaches every other socket in the sender's room, never the sender.
   */
  lemma {:induction false} SignalDelivery(c: Claims, sid: SocketId, roomId: RoomId, userId: Json,
                                          p: SignalPayload, ch: Channels)
    ensures var o := SignalRoute(c, sid, roomId, userId, Some(p));
      o.Emitted? && Truthy(p.toSocketId) ==> Recipients(o.emit.to, ch) == InRoom(ch, p.toSocketId.value)
    ensures var o := SignalRoute(c, sid, roomId, userId, Some(p));
      o.Emitted? && Truthy(p.toSocketId) && OwnRoomsPrivate(ch) && p.toSocketId.value in ch ==>
        Recipients(o.emit.to, ch) == {p.toSocketId.value}
    ensures var o := SignalRoute(c, sid, roomId, userId, Some(p));
      o.Emitted? && !Truthy(p.toSocketId) ==>
        Recipients(o.emit.to, ch) == InRoom(ch, roomId) - {sid} && sid !in Recipients(o.emit.to, ch)
  {
  }

  /**
   * A signal addressed to socket "a" also reaches socket "b" once "b" has joined
   * the room named "a" (its token's `roomId` was "a", as refresh allows).
   */
  lemma SignalToSocketReachesNamesakeRoom(data: string)
    ensures var c := Claims(None, None, None, PermList([Roles.SIGNAL_SEND]), None);
      var ch: Channels := map["a" := {"a", "r"}, "b" := {"b", "a"}, "s" := {"s", "r"}];
      var o := SignalRoute(c, "s", "r", JStr("u"), Some(SignalPayload(Some("a"), data)));
      o.Emitted? && Recipients(o.emit.to, ch) == {"a", "b"}
  {
    var ch: Channels := map["a" := {"a", "r"}, "b" := {"b", "a"}, "s" := {"s", "r"}];
    assert "b" in InRoom(ch, "a") && "a" in InRoom(ch, "a");
  }

  /** The member set of every room is the set of users its socket hash maps to. */
  ghost predicate Consistent(s: Store) {
    forall r :: MembersOf(s.members, r) == Users(SocketsOf(s.sockets, r))
  }

  /** The state changes of the signaling service, one per handler that writes the store. */
  datatype Action =
    | CreateA(hostId: Option<Json>, mode: Option<string>, nonce: string, createdAt: string, rt: string)
    | JoinA(roomId: RoomId, userId: Option<Json>, rt: string)
    | LockA(roomId: RoomId, locked: bool)
    | ConnectA(sid: SocketId, claims: Claims)
    | CleanupA(roomId: RoomId, sid: SocketId, user: Json)

  function Apply(s: Store, a: Action): Store {
    match a
    case CreateA(h, m, n, at, rt) => CreateRoom(s, h, m, n, at, rt).store
    case JoinA(r, u, rt) => Join(s, r, u, rt).store
    case LockA(r, l) => SetLocked(s, r, l).store
    case ConnectA(sid, c) => Connect(s, sid, c).store
    case CleanupA(r, sid, u) => Cleanup(s, r, sid, u).store
  }

  /**
   * What Socket.IO guarantees of the steps: a connecting socket's id is new, and a
   * cleanup runs for a socket whose hash entry, if still there, holds its own user.
   */
  predicate Admissible(s: Store, a: Action) {
    match a
    case ConnectA(sid, c) => Truthy(c.roomId) ==> sid !in SocketsOf(s.sockets, c.roomId.value)
    case CleanupA(r, sid, u) => sid in SocketsOf(s.sockets, r) ==> SocketsOf(s.sockets, r)[sid] == Text(u)
    case _ => true
  }

  /**
   * The step removes a user who still has a socket: a cleanup for a numeric id
   * while another socket of the same user remains, since `includes` cannot find
   * the number among the stored strings.
   */
  predicate DropsLiveMember(s: Store, a: Action) {
    a.CleanupA? && !a.user.JStr? && Text(a.user) in Users(SocketsOf(s.sockets, a.roomId) - {a.sid})
  }

  /** A connection whose socket id is new to its room keeps the member sets equal to the users of the hashes. */
  lemma {:induction false} ConnectKeepsConsistency(s: Store, sid: SocketId, c: Claims)
    requires Consistent(s) && Admissible(s, ConnectA(sid, c))
    ensures Consistent(Connect(s, sid, c).store)
  {
    if Truthy(c.roomId) && TruthyJson(c.sub) {
      var s' := Connect(s, sid, c).store;
      var r, u := c.roomId.value, Text(c.sub.value);
      UsersInsert(SocketsOf(s.sockets, r), sid, u);
      forall q ensures MembersOf(s'.members, q) == Users(SocketsOf(s'.sockets, q)) {
        assert MembersOf(s.members, q) == Users(SocketsOf(s.sockets, q));
      }
    }
  }

  /** The users of a hash after one socket owned by `u` (if present) is deleted. */
  lemma {:induction false} UsersAfterDelete(before: map<SocketId, UserId>, sid: SocketId, u: UserId)
    requires sid in before ==> before[sid] == u
    ensures Users(before - {sid}) <= Users(before) <= Users(before - {sid}) + {u}
  {
    if sid in before {
      UsersRemove(before, sid);
    } else {
      assert before - {sid} == before;
    }
  }

  /**
   * A cleanup of a socket owned by its user keeps the member sets equal to the users
   * of the hashes exactly when it does not drop a member who still has a socket.
   */
  lemma {:induction false} CleanupKeepsConsistency(s: Store, r: RoomId, sid: SocketId, u: Json)
    requires Consistent(s) && Admissible(s, CleanupA(r, sid, u))
    ensures Consistent(Cleanup(s, r, sid, u).store) <==> !DropsLiveMember(s, CleanupA(r, sid, u))
  {
    var s' := Cleanup(s, r, sid, u).store;
    var before := SocketsOf(s.sockets, r);
    var after := before - {sid};
    UsersAfterDelete(before, sid, Text(u));
    assert MembersOf(s.members, r) == Users(before);
    assert SocketsOf(s'.sockets, r) == after;
    assert MembersOf(s'.members, r) ==
      if Includes(Users(after), u) then Users(before) else Users(before) - {Text(u)};
    if DropsLiveMember(s, CleanupA(r, sid, u)) {
      assert Text(u) in Users(after);
      assert MembersOf(s'.members, r) != Users(SocketsOf(s'.sockets, r));
    } else {
      assert MembersOf(s'.members, r) == Users(SocketsOf(s'.sockets, r));
      forall q | q != r ensures MembersOf(s'.members, q) == Users(SocketsOf(s'.sockets, q)) {
        assert MembersOf(s.members, q) == Users(SocketsOf(s.sockets, q));
      }
    }
  }

  /** The corrected cleanup keeps the member sets equal to the users of the hashes for every id. */
  lemma {:induction false} CleanupIntendedKeepsConsistency(s: Store, r: RoomId, sid: SocketId, u: Json)
    requires Consistent(s) && Admissible(s, CleanupA(r, sid, u))
    ensures Consistent(CleanupIntended(s, r, sid, u).store)
  {
    var s' := CleanupIntended(s, r, sid, u).store;
    UsersAfterDelete(SocketsOf(s.sockets, r), sid, Text(u));
    forall q ensures MembersOf(s'.members, q) == Users(SocketsOf(s'.sockets, q)) {
      assert MembersOf(s.members, q) == Users(SocketsOf(s.sockets, q));
    }
  }

  /** For a string id the corrected cleanup is the cleanup as written. */
  lemma CleanupIntendedAgreesOnStrings(s: Store, r: RoomId, sid: SocketId, u: string)
    ensures CleanupIntended(s, r, sid, JStr(u)) == Cleanup(s, r, sid, JStr(u))
  {
  }

  /**
   * With handlers run one at a time, a step keeps every member set equal to the
   * users of its socket hash exactly when it does not drop a member who still has a
   * socket (which only a numeric id can cause).
   */
  lemma {:induction false} ConsistencyInvariant(s: Store, a: Action)
    requires Consistent(s) && Admissible(s, a)
    ensures Consistent(Apply(s, a)) <==> !DropsLiveMember(s, a)
  {
    match a
    case CreateA(h, m, n, at, rt) =>
    case JoinA(r, u, rt) =>
    case LockA(r, l) =>
    case ConnectA(sid, c) => ConnectKeepsConsistency(s, sid, c);
    case CleanupA(r, sid, u) => CleanupKeepsConsistency(s, r, sid, u);
  }

  /** The empty store, before any room exists. */
  const EMPTY := Store(map[], map[], map[], map[])

  /**
   * User 7, a number as a JSON body may carry, connects twice and leaves with one
   * socket: the member set loses "7" while the other socket still maps to "7".
   */
  lemma NumericUserLeavingOneSocketBreaksConsistency()
    ensures var c := Claims(Some(JNum(7)), Some("r"), None, NoPerms, None);
      var s := Connect(Connect(EMPTY, "a", c).store, "b", c).store;
      && Consistent(s)
      && Admissible(s, CleanupA("r", "a", JNum(7)))
      && !Consistent(Cleanup(s, "r", "a", JNum(7)).store)
  {
    var c := Claims(Some(JNum(7)), Some("r"), None, NoPerms, None);
    assert Text(JNum(7)) == "7";
    var s1 := Connect(EMPTY, "a", c).store;
    ConnectKeepsConsistency(EMPTY, "a", c);
    var s := Connect(s1, "b", c).store;
    ConnectKeepsConsistency(s1, "b", c);
    assert SocketsOf(s.sockets, "r") == map["a" := "7", "b" := "7"];
    assert SocketsOf(s.sockets, "r") - {"a"} == map["b" := "7"];
    assert "7" in Users(map["b" := "7"]);
    CleanupKeepsConsistency(s, "r", "a", JNum(7));
  }

  /** Every room a step keeps is still there after it, and an SFU room stays one. */
  ghost predicate ModesKept(s: Store, s': Store) {
    forall r | r in s.rooms :: r in s'.rooms && (s.rooms[r].mode == Sfu ==> s'.rooms[r].mode == Sfu)
  }

  /**
   * Room mode only moves from mesh to SFU: no step demotes a room, no step deletes
   * one, and only creation adds one (with a fresh id, as the random id normally is).
   */
  lemma {:induction false} ModeMonotonic(s: Store, a: Action)
    requires a.CreateA? ==> ROOM_ID_PREFIX + a.nonce !in s.rooms
    ensures ModesKept(s, Apply(s, a))
    ensures !a.CreateA? ==> Apply(s, a).rooms.Keys == s.rooms.Keys
  {
    match a
    case CreateA(h, m, n, at, rt) =>
    case JoinA(r, u, rt) =>
    case LockA(r, l) =>
    case ConnectA(sid, c) =>
      if Truthy(c.roomId) && TruthyJson(c.sub) {
        var r := c.roomId.value;
        var s1 := s.(members := SAdd(s.members, r, Text(c.sub.value)));
        var s2 := s1.(sockets := HSet(s1.sockets, r, sid, Text(c.sub.value)));
        assert Apply(s, a) == EnsureRoomMode(s2, r).store;
      }
    case CleanupA(r, sid, u) =>
  }

  /** A creation whose random id is already taken overwrites that room, so it can demote it. */
  lemma CreateOverCollidingIdDemotes(s: Store, hostId: string, nonce: string, createdAt: string, rt: string)
    requires hostId != ""
    requires ROOM_ID_PREFIX + nonce in s.rooms && s.rooms[ROOM_ID_PREFIX + nonce].mode == Sfu
    ensures CreateRoom(s, Some(JStr(hostId)), None, nonce, createdAt, rt).store.rooms[ROOM_ID_PREFIX + nonce].mode == Mesh
  {
  }

  lemma {:induction false} EnsureRoomModeIdempotent(s: Store, r: RoomId)
    ensures EnsureRoomMode(EnsureRoomMode(s, r).store, r) == Step(EnsureRoomMode(s, r).store, [])
  {
  }

  /** HDEL of a field the hash lacks changes nothing once the command has dropped empty hashes. */
  lemma {:induction false} HDelAbsent(h: map<RoomId, map<SocketId, UserId>>, r: RoomId, sid: SocketId)
    requires sid !in SocketsOf(h, r) && (r in h ==> h[r] != map[])
    ensures HDel(h, r, sid) == h
  {
    assert SocketsOf(h, r) - {sid} == SocketsOf(h, r);
    if r in h {
      assert h[r := h[r]] == h;
    } else {
      assert h - {r} == h;
    }
  }

  /** SREM of a value the set lacks changes nothing once the command has dropped empty sets. */
  lemma {:induction false} SRemAbsent(m: map<RoomId, set<UserId>>, r: RoomId, u: UserId)
    requires u !in MembersOf(m, r) && (r in m ==> m[r] != {})
    ensures SRem(m, r, u) == m
  {
    assert MembersOf(m, r) - {u} == MembersOf(m, r);
    if r in m {
      assert m[r := m[r]] == m;
    } else {
      assert m - {r} == m;
    }
  }

  /**
   * Running the cleanup of one socket a second time (`leaveRoom`, then `disconnect`)
   * leaves the store as the first run left it.
   */
  lemma {:induction false} CleanupIdempotent(s: Store, r: RoomId, sid: SocketId, u: Json)
    ensures Cleanup(Cleanup(s, r, sid, u).store, r, sid, u).store == Cleanup(s, r, sid, u).store
  {
    var s1 := Cleanup(s, r, sid, u).store;
    var h := HDel(s.sockets, r, sid);
    HDelAbsent(h, r, sid);
    if !Includes(Users(SocketsOf(h, r)), u) {
      var m := SRem(s.members, r, Text(u));
      SRemAbsent(m, r, Text(u));
      EnsureRoomModeIdempotent(s.(sockets := h, members := m), r);
    }
  }

  /** A user who connects and then cleans up that socket, with no other socket in the room, is gone from both. */
  lemma {:induction false} ConnectThenCleanupRemovesUser(s: Store, sid: SocketId, c: Claims)
    requires Truthy(c.roomId) && TruthyJson(c.sub)
    requires Text(c.sub.value) !in Users(SocketsOf(s.sockets, c.roomId.value))
    ensures var s' := Cleanup(Connect(s, sid, c).store, c.roomId.value, sid, c.sub.value).store;
      && Text(c.sub.value) !in MembersOf(s'.members, c.roomId.value)
      && Text(c.sub.value) !in Users(SocketsOf(s'.sockets, c.roomId.value))
  {
  }

  /** After a connection the user's text is both a member and the user of the new socket's entry. */
  lemma ConnectRecordsPresence(s: Store, sid: SocketId, c: Claims)
    requires Truthy(c.roomId) && TruthyJson(c.sub)
    ensures Text(c.sub.value) in MembersOf(Connect(s, sid, c).store.members, c.roomId.value)
    ensures SocketsOf(Connect(s, sid, c).store.sockets, c.roomId.value)[sid] == Text(c.sub.value)
  {
  }

  /**
   * In a consistent store, `remove` reports a positive count exactly for a string
   * target that is a member; a numeric target never matches a stored string.
   */
  lemma {:induction false} RemoveCountsMembers(s: Store, roomId: RoomId, target: Json)
    requires Consistent(s) && TruthyJson(Some(target))
    ensures Remove(s, roomId, Some(target)).response.count > 0 <==>
      target.JStr? && target.str in MembersOf(s.members, roomId)
  {
  }

  /** The join endpoint answers the same for a locked and an unlocked room. */
  lemma JoinIgnoresLock(s: Store, roomId: RoomId, userId: Option<Json>, rt: string, locked: Option<bool>)
    requires roomId in s.rooms
    ensures Join(s.(rooms := s.rooms[roomId := s.rooms[roomId].(locked := locked)]), roomId, userId, rt).response
         == Join(s, roomId, userId, rt).response
  {
  }

  /** The fifth distinct member connecting to a mesh room switches it to the SFU and announces it. */
  lemma {:induction false} FifthMemberPromotes(s: Store, sid: SocketId, c: Claims)
    requires Truthy(c.roomId) && TruthyJson(c.sub)
    requires c.roomId.value in s.rooms && s.rooms[c.roomId.value].mode == Mesh
    requires |MembersOf(s.members, c.roomId.value)| == SFU_THRESHOLD - 1
    requires Text(c.sub.value) !in MembersOf(s.members, c.roomId.value)
    ensures Connect(s, sid, c).store.rooms[c.roomId.value].mode == Sfu
    ensures Emit(ToRoom(c.roomId.value), RoomModeChanged(Sfu)) in Connect(s, sid, c).emits
  {
  }

  /** The role name "constructor" passes the as-written refresh ladder and yields a token. */
  lemma RefreshAsWrittenAcceptsInheritedName(s: Store, userId: string, rt: string, roomId: string)
    requires userId != "" && rt != "" && roomId != ""
    requires userId in s.refresh && s.refresh[userId] == rt
    ensures RefreshAsWritten(s, Some(JStr(userId)), Some(JStr(rt)), Some(roomId), Some("constructor")).Refreshed?
  {
  }

  /**
   * The role name "__proto__" yields a token whose `perms` is `{}`, and the first
   * signal its holder sends makes the gate throw.
   */
  lemma ProtoRoleTokenCrashesSignalGate(s: Store, userId: string, rt: string, roomId: string,
                                        sid: SocketId, p: SignalPayload)
    requires userId != "" && rt != "" && roomId != ""
    requires userId in s.refresh && s.refresh[userId] == rt
    ensures var r := RefreshAsWritten(s, Some(JStr(userId)), Some(JStr(rt)), Some(roomId), Some("__proto__"));
      && r.Refreshed? && r.token.perms == PermObject
      && SignalRoute(r.token, sid, roomId, JStr(userId), Some(p)) == Throws
  {
  }

  /** The corrected ladder issues tokens only for the table's roles, with that role's permissions. */
  lemma {:induction false} RefreshIssuesTableRoles(s: Store, userId: Option<Json>, rt: Option<Json>,
                                                  roomId: Option<string>, role: Option<string>)
    ensures Refresh(s, userId, rt, roomId, role).Refreshed? ==>
      var c := Refresh(s, userId, rt, roomId, role).token;
      && c.role.Some? && c.role.value in {"host", "participant"}
      && c.perms == PermList(Roles.RolePerms(Roles.ParseRole(c.role.value).value))
      && !MaySignal(c)
  {
  }

  /** A token from the corrected ladder never makes the signal gate throw: a well-formed signal is dropped. */
  lemma RefreshedTokenSignalsAreDropped(s: Store, userId: Option<Json>, rt: Option<Json>,
                                        roomId: Option<string>, role: Option<string>,
                                        sid: SocketId, room: RoomId, user: Json, p: SignalPayload)
    requires Refresh(s, userId, rt, roomId, role).Refreshed?
    ensures SignalRoute(Refresh(s, userId, rt, roomId, role).token, sid, room, user, Some(p)) == Dropped
  {
  }

  /** On the table's own roles the two ladders agree. */
  lemma RefreshAgreesOnTableRoles(s: Store, userId: Option<Json>, rt: Option<Json>,
                                  roomId: Option<string>, role: string)
    requires Roles.ParseRole(role).Some?
    ensures RefreshAsWritten(s, userId, rt, roomId, Some(role)) == Refresh(s, userId, rt, roomId, Some(role))
  {
  }

  /**
   * The refresh token a join hands back is accepted by a later refresh of the same
   * user for that room as a participant, and yields the participant's claims again.
   */
  lemma JoinRefreshRoundTrip(s: Store, roomId: RoomId, userId: Option<Json>, refreshToken: string)
    requires Join(s, roomId, userId, refreshToken).response.Joined?
    requires refreshToken != "" && roomId != ""
    ensures var t := Join(s, roomId, userId, refreshToken);
      Refresh(t.store, userId, Some(JStr(t.response.refresh)), Some(roomId), Some("participant"))
        == Refreshed(t.response.token)
  {
    var t := Join(s, roomId, userId, refreshToken);
    assert RefreshMatches(t.store, userId.value, JStr(t.response.refresh));
    assert Roles.ParseRole("participant") == Some(Roles.Role.Participant);
  }
}
