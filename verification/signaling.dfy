/**
 * The signaling server's mutable state (apps/signaling/src/index.ts): the Redis
 * keys the handlers write step by step and the in-process per-IP connection
 * counter. Every handler is proved to leave the store exactly as the matching
 * transition of `Presence` describes.
 */
module Signaling {
  import opened Common
  import opened Auth
  import Roles
  import opened Presence

  /** The most connections one address may hold and still pass the socket middleware. */
  const MAX_CONNECTIONS_PER_IP := 20

  /** The key of the per-IP counter: the remote address, or "unknown" when there is none. */
  function IpOf(remoteAddress: Option<string>): (ip: string)
    ensures ip != ""
    ensures Truthy(remoteAddress) ==> ip == remoteAddress.value
    ensures !Truthy(remoteAddress) ==> ip == "unknown"
  {
    if Truthy(remoteAddress) then remoteAddress.value else "unknown"
  }

  /** `ipConn[ip] || 0`: an absent counter reads as zero. */
  function Count(ipConn: map<string, nat>, ip: string): nat {
    if ip in ipConn then ipConn[ip] else 0
  }

  /** The socket middleware's test `(ipConn[ip] || 0) > 20`, negated. */
  predicate AdmitsIp(ipConn: map<string, nat>, ip: string) {
    Count(ipConn, ip) <= MAX_CONNECTIONS_PER_IP
  }

  /** The engine `connection` listener: one more connection from `ip`. */
  function Opened(ipConn: map<string, nat>, ip: string): (m: map<string, nat>)
    ensures Count(m, ip) == Count(ipConn, ip) + 1
    ensures forall other :: other != ip ==> Count(m, other) == Count(ipConn, other)
  {
    ipConn[ip := Count(ipConn, ip) + 1]
  }

  /** `Math.max(0, x)`. */
  function Max0(x: int): (r: nat)
    ensures r >= x && (r == 0 || r == x)
  {
    if x < 0 then 0 else x
  }

  /** The engine `close` listener: `Math.max(0, (ipConn[ip] || 1) - 1)`, so a zero or absent counter stays at zero. */
  function Closed(ipConn: map<string, nat>, ip: string): (m: map<string, nat>)
    ensures Count(m, ip) == if Count(ipConn, ip) == 0 then 0 else Count(ipConn, ip) - 1
    ensures ip in m
    ensures forall other :: other != ip ==> Count(m, other) == Count(ipConn, other)
  {
    var v := if ip in ipConn && ipConn[ip] != 0 then ipConn[ip] else 1;
    ipConn[ip := Max0(v - 1)]
  }

  /** Closing a connection undoes opening it, for every address's count. */
  lemma {:induction false} CloseUndoesOpen(ipConn: map<string, nat>, ip: string, other: string)
    ensures Count(Closed(Opened(ipConn, ip), ip), other) == Count(ipConn, other)
  {
  }

  /** The counter is bumped before the middleware runs, so a connection is refused once 20 are already open. */
  lemma AdmitsFreshConnection(ipConn: map<string, nat>, ip: string)
    ensures AdmitsIp(Opened(ipConn, ip), ip) <==> Count(ipConn, ip) < MAX_CONNECTIONS_PER_IP
  {
  }

  /** Why a socket is refused by the token middleware, or the claims it is admitted with. */
  datatype Handshake = Refused(reason: string) | Accepted(claims: Claims)

  /**
   * The token middleware of the socket server: the token comes from the handshake's
   * `auth` and, failing that, from its query; `verify` stands for `jwt.verify`.
   */
  function TokenMiddleware(authToken: Option<string>, queryToken: Option<string>,
                           verify: string -> Option<Claims>): (h: Handshake)
    ensures !Truthy(authToken) && !Truthy(queryToken) ==> h == Refused("missing token")
    ensures Truthy(authToken) ==>
      h == if verify(authToken.value).Some? then Accepted(verify(authToken.value).value) else Refused("invalid token")
    ensures !Truthy(authToken) && Truthy(queryToken) ==>
      h == if verify(queryToken.value).Some? then Accepted(verify(queryToken.value).value) else Refused("invalid token")
  {
    var token := if Truthy(authToken) then authToken else queryToken;
    if !Truthy(token) then Refused("missing token")
    else match verify(token.value)
      case None => Refused("invalid token")
      case Some(claims) => Accepted(claims)
  }

  class SignalingServer {
    /** `room:<id>` records. */
    var rooms: map<RoomId, Room>
    /** `room:<id>:members` sets. */
    var members: map<RoomId, set<UserId>>
    /** `room:<id>:sockets` hashes. */
    var sockets: map<RoomId, map<SocketId, UserId>>
    /** `rt:<userId>` refresh tokens. */
    var refresh: map<UserId, string>
    /** Open engine connections per remote address. */
    var ipConn: map<string, nat>

    /** The Redis part of the state. */
    function State(): Store
      reads this
    {
      Store(rooms, members, sockets, refresh)
    }

    constructor()
      ensures State() == Store(map[], map[], map[], map[]) && ipConn == map[]
      ensures Consistent(State())
    {
      rooms, members, sockets, refresh, ipConn := map[], map[], map[], map[], map[];
    }

    method EnsureRoomMode(roomId: RoomId) returns (emits: seq<Emit>)
      modifies this
      ensures Step(State(), emits) == Presence.EnsureRoomMode(old(State()), roomId)
      ensures ipConn == old(ipConn)
    {
      var memberCount := |MembersOf(members, roomId)|;
      if roomId !in rooms {
        return [];
      }
      var room := rooms[roomId];
      if memberCount >= SFU_THRESHOLD && room.mode != Sfu {
        rooms := rooms[roomId := room.(mode := Sfu)];
        emits := [Emit(ToRoom(roomId), RoomModeChanged(Sfu))];
      } else {
        emits := [];
      }
    }

    /** `POST /v1/rooms`, with the random id suffix, the clock and the refresh token as parameters. */
    method CreateRoom(hostId: Option<Json>, mode: Option<string>, nonce: string, createdAt: string,
                      refreshToken: string) returns (response: Response)
      modifies this
      ensures Reply(State(), response, []) == Presence.CreateRoom(old(State()), hostId, mode, nonce, createdAt, refreshToken)
      ensures old(Consistent(State())) ==> Consistent(State())
      ensures ipConn == old(ipConn)
    {
      ghost var before := State();
      if !TruthyJson(hostId) {
        return Failure(BAD_REQUEST, "hostId required");
      }
      var id := ROOM_ID_PREFIX + nonce;
      var room := Room(id, hostId.value, if mode == Some("sfu") then Sfu else Mesh, createdAt, None);
      rooms := rooms[id := room];
      members := members - {id};
      sockets := sockets - {id};
      var access := Minted(hostId.value, id, Roles.Role.Host.Name(), Roles.RolePerms(Roles.Role.Host));
      refresh := refresh[Text(hostId.value) := refreshToken];
      response := RoomCreated(room, access, refreshToken);
      if Consistent(before) {
        ConsistencyInvariant(before, CreateA(hostId, mode, nonce, createdAt, refreshToken));
      }
    }

    /** `POST /v1/rooms/:id/join`. */
    method Join(roomId: RoomId, userId: Option<Json>, refreshToken: string) returns (response: Response)
      modifies this
      ensures Reply(State(), response, []) == Presence.Join(old(State()), roomId, userId, refreshToken)
      ensures ipConn == old(ipConn)
    {
      if !TruthyJson(userId) {
        return Failure(BAD_REQUEST, "userId required");
      }
      if roomId !in rooms {
        return Failure(NOT_FOUND, "room not found");
      }
      var access := Minted(userId.value, roomId, Roles.Role.Participant.Name(), Roles.RolePerms(Roles.Role.Participant));
      refresh := refresh[Text(userId.value) := refreshToken];
      response := Joined(access, refreshToken);
    }

    /** `POST /v1/rooms/:id/lock` (`locked` true) and `/unlock` (`locked` false), past their middleware. */
    method SetLocked(roomId: RoomId, locked: bool) returns (response: Response, emits: seq<Emit>)
      modifies this
      ensures Reply(State(), response, emits) == Presence.SetLocked(old(State()), roomId, locked)
      ensures ipConn == old(ipConn)
    {
      if roomId !in rooms {
        return Failure(NOT_FOUND, "room not found"), [];
      }
      var room := rooms[roomId];
      room := room.(locked := Some(locked));
      rooms := rooms[roomId := room];
      emits := [Emit(ToRoom(roomId), RoomLocked(locked))];
      response := Acknowledged;
    }

    /**
     * The `connection` handler for socket `sid` with verified `claims`: `admitted`
     * is false when the socket is disconnected for lacking a room id or subject.
     */
    method Connect(sid: SocketId, claims: Claims) returns (admitted: bool, emits: seq<Emit>)
      modifies this
      ensures admitted <==> Truthy(claims.roomId) && TruthyJson(claims.sub)
      ensures Step(State(), emits) == Presence.Connect(old(State()), sid, claims)
      ensures old(Consistent(State()) && Admissible(State(), ConnectA(sid, claims))) ==> Consistent(State())
      ensures ipConn == old(ipConn)
    {
      ghost var before := State();
      if !Truthy(claims.roomId) || !TruthyJson(claims.sub) {
        return false, [];
      }
      var roomId, userId := claims.roomId.value, claims.sub.value;
      members := SAdd(members, roomId, Text(userId));
      sockets := HSet(sockets, roomId, sid, Text(userId));
      var joined := [Emit(ToRoomExcept(roomId, sid), ParticipantJoined(userId, sid))];
      var modeEmits := EnsureRoomMode(roomId);
      admitted, emits := true, joined + modeEmits;
      if Consistent(before) && Admissible(before, ConnectA(sid, claims)) {
        ConnectKeepsConsistency(before, sid, claims);
      }
    }

    /**
     * The `leaveRoom` and `disconnect` handlers of socket `sid`, joined to `roomId`
     * as `userId` (the raw `sub` claim).
     */
    method Cleanup(roomId: RoomId, sid: SocketId, userId: Json) returns (emits: seq<Emit>)
      modifies this
      ensures Step(State(), emits) == Presence.Cleanup(old(State()), roomId, sid, userId)
      ensures old(Consistent(State()) && Admissible(State(), CleanupA(roomId, sid, userId))) ==>
        (Consistent(State()) <==> !old(DropsLiveMember(State(), CleanupA(roomId, sid, userId))))
      ensures ipConn == old(ipConn)
    {
      ghost var before := State();
      sockets := HDel(sockets, roomId, sid);
      ghost var s1 := State();
      assert s1 == before.(sockets := HDel(before.sockets, roomId, sid));
      emits := [Emit(ToRoomExcept(roomId, sid), ParticipantLeft(userId, sid))];
      var userStillPresent := Includes(Users(SocketsOf(sockets, roomId)), userId);
      if !userStillPresent {
        members := SRem(members, roomId, Text(userId));
        ghost var s2 := State();
        assert s2 == s1.(members := SRem(s1.members, roomId, Text(userId)));
        var modeEmits := EnsureRoomMode(roomId);
        emits := emits + modeEmits;
        assert Step(State(), modeEmits) == Presence.EnsureRoomMode(s2, roomId);
      }
      if Consistent(before) && Admissible(before, CleanupA(roomId, sid, userId)) {
        CleanupKeepsConsistency(before, roomId, sid, userId);
      }
    }

    /** The engine `connection` listener for a peer at `remoteAddress`. */
    method OnEngineOpen(remoteAddress: Option<string>)
      modifies this
      ensures ipConn == Opened(old(ipConn), IpOf(remoteAddress))
      ensures State() == old(State())
    {
      var ip := IpOf(remoteAddress);
      var current := if ip in ipConn then ipConn[ip] else 0;
      ipConn := ipConn[ip := current + 1];
    }

    /** The engine `close` listener registered for that peer. */
    method OnEngineClose(remoteAddress: Option<string>)
      modifies this
      ensures ipConn == Closed(old(ipConn), IpOf(remoteAddress))
      ensures State() == old(State())
    {
      var ip := IpOf(remoteAddress);
      var current := if ip in ipConn && ipConn[ip] != 0 then ipConn[ip] else 1;
      ipConn := ipConn[ip := Max0(current - 1)];
    }

    /** The per-IP socket middleware: whether a socket from `remoteAddress` may proceed. */
    method AdmitSocket(remoteAddress: Option<string>) returns (ok: bool)
      ensures ok <==> Count(ipConn, IpOf(remoteAddress)) <= MAX_CONNECTIONS_PER_IP
    {
      var ip := IpOf(remoteAddress);
      var current := if ip in ipConn then ipConn[ip] else 0;
      ok := !(current > MAX_CONNECTIONS_PER_IP);
    }
  }
}
