# Car-Connect session coordination, modelled in Dafny

This project models the session bookkeeping of Car-Connect's two back-end services.

The **signaling service** (`apps/signaling`):
- creates and joins rooms and mints session tokens from its role table;
- tracks presence in Redis: a room record, a member set and a socket-id → user-id hash per room;
- relays WebRTC `signal` messages behind a permission gate;
- switches a room from mesh to SFU mode once it has five members;
- counts open connections per remote address.

The **SFU** (`apps/sfu`) keeps a per-room registry of each user's transports, producers and consumers. It elects an active speaker from the media engine's audio-level batches and tears a user down on disconnect.

The model is built in layers:
- `common.dfy`: `Option`, JavaScript truthiness, and `Json`, an id that is a string or a number, with `Text`, the string Redis stores for it (JavaScript's `String` for strings and for numbers below 10^21 in magnitude).
- `roles.dfy`: the `ROLE_PERMS` table, and what `ROLE_PERMS[name]` evaluates to for any string.
- `redis_keys.dfy`: the three Redis key builders, with their injectivity, distinctness and cross-id collision.
- `auth.dfy`: the claims a token carries, the header expression `/^Bearer\s+(.+)$/i` as a function, and `requireBearer` as a method on a request/response `Exchange`.
- `presence.dfy`: every signaling handler as a pure transition over an abstract `Store`, plus Socket.IO delivery (`Recipients`).
  - The central invariant `Consistent` says each room's member set equals the set of users in its socket hash. With handlers run one at a time, every handler preserves it except one case. A cleanup for a numeric user id breaks it when another socket of that user remains (see Findings).
- `signaling.dfy`: the `SignalingServer` class. Each handler updates its fields step by step and is proved to leave the store exactly as the `Presence` transition says. The class also holds the `ipConn` counter and the token middleware.
- `sfu.dfy`: the `SfuServer` class, whose maps are updated in place. Pure functions describe each update, and lemmas cover key selection and the stable-sort speaker pick.

Each handler is modelled as one atomic step. The real handlers are `async` and interleave at every `await`, so a concurrent run can interleave between, for example, `sadd`/`hset` and `ensureRoomMode`. The model does not cover those interleavings.

Engine objects (transports, producers, consumers), random ids, clocks, and token signing and verification are parameters of the operations that use them.

Behaviour of the code that the model keeps and states:
- **Locked rooms:** the join endpoint never reads `locked`, so a locked room still hands out tokens (`Presence.JoinIgnoresLock`).
- **`signal:send`:** the role table gives neither role this permission. Every token minted from the role table is therefore refused by the `signal` gate (`Presence.MintedTokensNeverSignal`). The lists `HOST_PERMS`/`PARTICIPANT_PERMS` at apps/signaling/src/index.ts:70-78 hold it but are never used.
- **SFU threshold:** the switch happens when the member count reaches 5, so the fifth distinct member's connection promotes the room (`Presence.FifthMemberPromotes`).
- **Members:** membership counts users with a live socket. The host is not a member until they connect.
- **User ids:** a JSON body may carry a numeric `hostId` or `userId`. The token then carries the number as `sub`, while Redis stores its text. The `includes` and `===` tests of cleanup and `remove` compare the raw value with the stored strings, so they never match a numeric id.
- **Signal targets:** `io.to(toSocketId)` addresses a Socket.IO room by name. A socket whose token names another socket's id as its `roomId` has joined that room, so it receives that socket's signals too (`Presence.SignalToSocketReachesNamesakeRoom`).
- **Signal gate:** a `signal` event with no argument, or from a token whose `perms` is a plain object, throws a TypeError outside any `try` (`Presence.SignalRoute`).
- **Speaker reset and broadcast:**
  - a `silence` report resets every room that has a speaker entry;
  - the broadcast tick covers exactly the rooms in the SFU's `rooms` map.
- **SFU user key:** the SFU reads the user from the token's `userId` claim (apps/sfu/src/index.ts:130), but signaling tokens carry `sub`. Every signaling-issued token therefore maps to the undefined user key: `Auth.Minted` states that such a token has a `sub` claim and no `userId` claim.

## Model

| member | source | states |
|---|---|---|
| Roles.RolePerms | apps/signaling/src/roles.ts:5-8 | the table is total over both roles; every role may read the room; no role holds `signal:send`; no list repeats an entry |
| Roles.HostPerms | apps/signaling/src/roles.ts:6 | the host's list is exactly `room:read`, `room:write`, `member:manage` |
| Roles.ParticipantPerms | apps/signaling/src/roles.ts:7 | the participant's list is exactly `room:read` |
| Roles.ParticipantPermsWithinHost | apps/signaling/src/roles.ts:6-7 | every participant permission is a host permission |
| Roles.NoRoleMaySignal | apps/signaling/src/roles.ts:6-7 | neither role's list contains `signal:send` |
| Roles.ParseRole | apps/signaling/src/roles.ts:1 | a name parses to a role exactly when it is "host" or "participant", and the role's name is that name |
| Roles.LookupPerms | apps/signaling/src/index.ts:174 | `ROLE_PERMS[name]` is an own entry (that role's list) exactly for the two roles, an inherited member exactly for the Object.prototype names, undefined otherwise |
| RedisKeys.RoomKey | apps/signaling/src/redis.ts:4 | the key is `room:` followed by the id |
| RedisKeys.MembersKey | apps/signaling/src/redis.ts:5 | the key is the room key followed by `:members` |
| RedisKeys.SocketsKey | apps/signaling/src/redis.ts:6 | the key is the room key followed by `:sockets` |
| RedisKeys.IdOfMembersKey | apps/signaling/src/redis.ts:5 | the id is recovered from a members key between prefix and suffix |
| RedisKeys.IdOfSocketsKey | apps/signaling/src/redis.ts:6 | the id is recovered from a sockets key between prefix and suffix |
| RedisKeys.RoomKeyInjective | apps/signaling/src/redis.ts:4 | different ids give different record keys |
| RedisKeys.MembersKeyInjective | apps/signaling/src/redis.ts:5 | different ids give different member-set keys |
| RedisKeys.SocketsKeyInjective | apps/signaling/src/redis.ts:6 | different ids give different socket-hash keys |
| RedisKeys.KeysDistinct | apps/signaling/src/redis.ts:4-6 | for one id the three keys are pairwise different |
| RedisKeys.RoomKeyCollidesWithMembersKey | apps/signaling/src/redis.ts:4-5 | the record key of `id + ":members"` is the member-set key of `id` |
| RedisKeys.ColonFreeIdsDoNotCollide | apps/signaling/src/redis.ts:4-6 | a record key of a colon-free id is never another id's member-set or socket-hash key |
| Auth.Minted | apps/signaling/src/index.ts:121 | a minted token carries sub, roomId, role and the perms list, and no `userId` |
| Auth.MatchBearer | apps/signaling/src/auth.ts:20 | a captured token is non-empty, free of line terminators, and is the header's tail after the scheme and a whitespace run of one or more characters |
| Auth.MatchBearerComplete | apps/signaling/src/auth.ts:20 | whenever the expression can match the header, the function finds a token |
| Auth.MatchBearerGreedy | apps/signaling/src/auth.ts:20 | the token follows the longest whitespace run any match can take |
| Auth.MatchBearerExample | apps/signaling/src/auth.ts:20-21 | `"bearer   abc"` gives `"abc"`; `"Bearer"` and `"Basic abc"` give no match |
| Auth.MatchBearerBlankTail | apps/signaling/src/auth.ts:20 | `"Bearer  "` backtracks and captures `" "` |
| Auth.Exchange.RequireBearer | apps/signaling/src/auth.ts:18-28 | no match: 401 "missing bearer", `next` not called; failed verification: 401 "invalid token", `next` not called; otherwise `req.auth` is the verified payload and `next` is called once |
| Presence.EnsureRoomMode | apps/signaling/src/index.ts:80-94 | no record: nothing changes; otherwise the mode becomes SFU exactly when it was SFU or the member count is at least 5; every other field, room, set and hash is unchanged; `roomMode` is emitted exactly when the store changes |
| Presence.CreateRoom | apps/signaling/src/index.ts:105-126 | falsy host id: 400, store unchanged; otherwise the record `room_<nonce>` is written, with mode SFU iff "sfu" was asked for, unlocked, its member set and socket hash empty, other rooms' sets untouched, the host's refresh token stored, a host token returned and nothing emitted |
| Presence.Join | apps/signaling/src/index.ts:129-145 | a token is issued exactly for a truthy user id and an existing room; otherwise 400 or 404 with the store unchanged; rooms, sets and hashes never change and nothing is emitted; the reply's refresh token is the one stored for the user |
| Presence.JoinRefreshRoundTrip | apps/signaling/src/index.ts:139-176 | the refresh token a successful join returns is accepted by a refresh for that room with role "participant", which issues the same participant claims as the join |
| Presence.SetLocked | apps/signaling/src/index.ts:189-217 | missing room: 404 and no change; otherwise only the room's `locked` becomes the given value and `roomLocked` is emitted to the room |
| Presence.Connect | apps/signaling/src/index.ts:269-288 | a socket without room id or subject changes nothing; otherwise the text of the user id joins the member set, the socket maps to that text, other rooms are untouched and `participantJoined` (with the raw id) goes to the room without the sender; the room record and the later emits are those of the mode check `Presence.EnsureRoomMode` on the updated sets |
| Presence.Cleanup | apps/signaling/src/index.ts:320-342 | the socket leaves the hash; the user's text leaves the member set exactly when no remaining socket's stored string is strictly equal to the raw id, which is always the case for a numeric id; other rooms are untouched; `participantLeft` is emitted first |
| Presence.CleanupChecksMode | apps/signaling/src/index.ts:327-337 | after cleanup, a user still found keeps the room record and nothing more is emitted; otherwise the room record and the later emits are those of the mode check `Presence.EnsureRoomMode` on the updated sets |
| Presence.CleanupIntended | apps/signaling/src/index.ts:327-329 | the corrected cleanup: the user's text leaves the member set exactly when no remaining socket maps to that text |
| Presence.Remove | apps/signaling/src/index.ts:229-247 | falsy target: 400; otherwise the addressed sockets (those of them connected to this instance receive `removedByHost`) are exactly the hash entries whose stored string is strictly equal to the target (none for a numeric target) and the count is their number; the store is never changed |
| Presence.RefreshAsWritten | apps/signaling/src/index.ts:161-178 | falsy user id or refresh token: 400 "missing fields"; stored token under the id's text not strictly equal: 401 "invalid refresh"; falsy room id or role: 400 "missing room context"; `ROLE_PERMS[role]` undefined: 400 "unknown role"; otherwise a token with the sent `sub`, `roomId` and `role`, no `userId`, and the looked-up value as signed perms |
| Presence.SignedPerms | apps/signaling/src/index.ts:174-176 | the looked-up value becomes a perms list exactly when it is one of the table's arrays, and then that array |
| Presence.Refresh | apps/signaling/src/index.ts:161-178 | the same four error rungs, with "unknown role" for every name other than the table's roles; otherwise the minted token of the sent user, room and role with that role's list |
| Presence.SignalRoute | apps/signaling/src/index.ts:295-303 | the handler throws exactly when the argument is missing or the perms claim is a plain object; it emits exactly when the argument is present and the perms list holds `signal:send`, carrying the sender's socket, raw user id and data; otherwise the signal is dropped |
| Presence.MintedTokensNeverSignal | apps/signaling/src/index.ts:297 | a well-formed signal from a token minted from the role table is dropped |
| Presence.SignalDelivery | apps/signaling/src/index.ts:298-302 | with a target, the signal reaches every socket in the Socket.IO room of that name, and exactly the target when no socket is in another socket's id room; without one, every socket in the sender's room except the sender |
| Presence.SignalToSocketReachesNamesakeRoom | apps/signaling/src/index.ts:269-303 | a signal to socket "a" also reaches socket "b" once "b" has joined the room named "a" |
| Presence.ConnectKeepsConsistency | apps/signaling/src/index.ts:280-281 | a connection with a socket id new to its room keeps every member set equal to the users of its socket hash |
| Presence.CleanupKeepsConsistency | apps/signaling/src/index.ts:320-342 | cleanup of a socket that maps to its own user keeps every member set equal to the users of its socket hash exactly when it is not a numeric id with another socket still mapping to its text |
| Presence.CleanupIntendedKeepsConsistency | apps/signaling/src/index.ts:327-329 | the corrected cleanup keeps every member set equal to the users of its socket hash for every id |
| Presence.CleanupIntendedAgreesOnStrings | apps/signaling/src/index.ts:327-329 | for a string id the corrected cleanup is the cleanup as written |
| Presence.ConsistencyInvariant | apps/signaling/src/index.ts:105-342 | creation, join, lock, connection and cleanup each keep every room's member set equal to the users of its socket hash, exactly unless the step is a cleanup of a numeric id whose user still has another socket |
| Presence.NumericUserLeavingOneSocketBreaksConsistency | apps/signaling/src/index.ts:269-342 | user 7 (a number) connecting sockets "a" and "b" gives a consistent store; the cleanup of "a" then breaks it |
| Presence.ModeMonotonic | apps/signaling/src/index.ts:89-91 | for a creation whose id is not already taken, and for every other step, no step deletes a room or turns an SFU room back to mesh, and only creation adds rooms |
| Presence.CreateOverCollidingIdDemotes | apps/signaling/src/index.ts:109-116 | creating a room whose random id is taken overwrites it as mesh |
| Presence.EnsureRoomModeIdempotent | apps/signaling/src/index.ts:89-93 | a second mode check right after the first changes and emits nothing |
| Presence.CleanupIdempotent | apps/signaling/src/index.ts:320-342 | `leaveRoom` followed by `disconnect` of the same socket leaves the store as the first cleanup left it |
| Presence.ConnectThenCleanupRemovesUser | apps/signaling/src/index.ts:269-342 | a user's only socket connecting then cleaning up leaves the user in neither the member set nor the hash |
| Presence.ConnectRecordsPresence | apps/signaling/src/index.ts:280-281 | after a connection the user is a member and the socket maps to the user |
| Presence.RemoveCountsMembers | apps/signaling/src/index.ts:235-246 | in a consistent store the count is positive exactly when the target is a string and a member |
| Presence.JoinIgnoresLock | apps/signaling/src/index.ts:129-145 | the join answer is the same whatever the room's `locked` value |
| Presence.FifthMemberPromotes | apps/signaling/src/index.ts:280-288 | the fifth distinct member's connection to a mesh room switches it to SFU and emits `roomMode` |
| Presence.RefreshAsWrittenAcceptsInheritedName | apps/signaling/src/index.ts:174-175 | with a valid refresh pair, role "constructor" is issued a token |
| Presence.ProtoRoleTokenCrashesSignalGate | apps/signaling/src/index.ts:295-297 | with a valid refresh pair, role "__proto__" is issued a token whose perms is `{}`, and its first well-formed signal throws |
| Presence.RefreshIssuesTableRoles | apps/signaling/src/index.ts:174-176 | the corrected ladder issues tokens only for "host" or "participant", with that role's list, never able to signal |
| Presence.RefreshAgreesOnTableRoles | apps/signaling/src/index.ts:174-176 | for the table's roles both ladders answer the same |
| Presence.RefreshedTokenSignalsAreDropped | apps/signaling/src/index.ts:174-176 | a well-formed signal from a token of the corrected ladder is dropped, never a throw |
| Signaling.IpOf | apps/signaling/src/index.ts:58 | the counter key is the remote address, or "unknown" when it is falsy |
| Signaling.Opened | apps/signaling/src/index.ts:59 | an open raises that address's count by one and no other |
| Signaling.Closed | apps/signaling/src/index.ts:61 | a close lowers that address's count by one, not below zero, and no other |
| Signaling.CloseUndoesOpen | apps/signaling/src/index.ts:57-62 | closing right after opening restores every address's count |
| Signaling.AdmitsFreshConnection | apps/signaling/src/index.ts:57-67 | a new connection passes the middleware exactly when fewer than 20 were open from its address |
| Signaling.TokenMiddleware | apps/signaling/src/index.ts:250-267 | no token: "missing token"; the handshake `auth` token is preferred over the query token; a failed verification gives "invalid token"; otherwise the verified claims |
| Signaling.SignalingServer.EnsureRoomMode | apps/signaling/src/index.ts:80-94 | the new fields and emits are those of `Presence.EnsureRoomMode`; `ipConn` unchanged |
| Signaling.SignalingServer.CreateRoom | apps/signaling/src/index.ts:105-126 | the new fields and response are those of `Presence.CreateRoom`, and the central invariant is kept |
| Signaling.SignalingServer.Join | apps/signaling/src/index.ts:129-145 | the new fields and response are those of `Presence.Join` |
| Signaling.SignalingServer.SetLocked | apps/signaling/src/index.ts:189-217 | the new fields, response and emits are those of `Presence.SetLocked` |
| Signaling.SignalingServer.Connect | apps/signaling/src/index.ts:269-288 | admitted exactly with a room id and subject; the new fields and emits are those of `Presence.Connect`; the central invariant is kept for a fresh socket id |
| Signaling.SignalingServer.Cleanup | apps/signaling/src/index.ts:320-342 | the new fields and emits are those of `Presence.Cleanup`; the central invariant is kept exactly unless a numeric id's user still has another socket |
| Signaling.SignalingServer.OnEngineOpen | apps/signaling/src/index.ts:57-59 | the counter map becomes `Opened` of the old one; the store is unchanged |
| Signaling.SignalingServer.OnEngineClose | apps/signaling/src/index.ts:60-62 | the counter map becomes `Closed` of the old one; the store is unchanged |
| Signaling.SignalingServer.AdmitSocket | apps/signaling/src/index.ts:64-68 | the socket passes exactly when its address's count is at most 20 |
| Sfu.FindKid | apps/sfu/src/index.ts:22 | the index found holds the `kid` and no earlier entry does; none means no entry holds it |
| Sfu.SelectKey | apps/sfu/src/index.ts:17-22 | no key exactly for an empty keyset; a matching `kid` selects an entry with that `kid`; with no match, `KEYSET[0]` |
| Sfu.SelectKeyPicksFirst | apps/sfu/src/index.ts:22 | the first entry holding the `kid` is the one used |
| Sfu.VerifyToken | apps/sfu/src/index.ts:19-24 | a missing token or empty keyset is refused; otherwise the claims are what verification with the selected key's secret returns |
| Sfu.WithRoom | apps/sfu/src/index.ts:105-106 | the room is added empty only when absent; existing rooms are untouched |
| Sfu.WithSpeaker | apps/sfu/src/index.ts:107 | the speaker is set to none only when the room has no entry; existing entries are untouched |
| Sfu.WithUser | apps/sfu/src/index.ts:111-115 | the user is added empty only when absent; every existing user and room is untouched |
| Sfu.WithRoomIdempotent | apps/sfu/src/index.ts:105-109 | a second `ensureRoom` changes nothing |
| Sfu.WithUserIdempotent | apps/sfu/src/index.ts:111-115 | a second `ensureUser` changes nothing |
| Sfu.WithTransport | apps/sfu/src/index.ts:150-151 | "send" fills the send slot and anything else the recv slot; the other slots stay |
| Sfu.ResolveTransport | apps/sfu/src/index.ts:171-174 | the send slot is chosen exactly when it holds the id; the recv slot exactly when it holds the id and the send slot does not |
| Sfu.CreatedTransportResolves | apps/sfu/src/index.ts:150-174 | a transport just created is found again by its id, in its own slot unless the send slot holds the same id |
| Sfu.WithProducer | apps/sfu/src/index.ts:183-184 | "audio" fills only the audio slot, "video" only the video slot, any other kind nothing |
| Sfu.WithConsumer | apps/sfu/src/index.ts:214 | the consumer is recorded under its own id; the slots stay |
| Sfu.ConsumersNotKeyedByProducer | apps/sfu/src/index.ts:214 | two consumers of one producer keep two entries |
| Sfu.OwnedIds | apps/sfu/src/index.ts:234-238 | the ids closed are exactly the consumers and the filled producer and transport slots |
| Sfu.FirstLoudest | apps/sfu/src/index.ts:85-86 | the index holds the maximum volume and every earlier sample is strictly quieter |
| Sfu.StableSortHead | apps/sfu/src/index.ts:85-86 | the head of any stable loudest-first sort of the batch is its first loudest sample |
| Sfu.Loudest | apps/sfu/src/index.ts:84-86 | none exactly for an empty batch; otherwise the producer of the first sample of maximal volume |
| Sfu.LoudestIsSortedHead | apps/sfu/src/index.ts:85-86 | the producer picked is that of the head of any stable loudest-first sort of the batch |
| Sfu.AfterVolumes | apps/sfu/src/index.ts:83-90 | an empty batch or an unregistered loudest producer changes nothing; otherwise only the owner's room gets the owner's user as speaker |
| Sfu.SfuServer.EnsureRoom | apps/sfu/src/index.ts:105-109 | rooms and speakers become `WithRoom` and `WithSpeaker` of the old maps |
| Sfu.SfuServer.EnsureUser | apps/sfu/src/index.ts:111-115 | rooms become `WithUser` of the old map and the room's speaker entry is ensured |
| Sfu.SfuServer.Connect | apps/sfu/src/index.ts:129-132 | the socket's room and user (its `roomId` and `userId` claims) are ensured |
| Sfu.SfuServer.CreateTransport | apps/sfu/src/index.ts:140-167 | an engine failure is reported and changes nothing; otherwise the user is ensured and the new transport id fills the slot `WithTransport` chooses |
| Sfu.SfuServer.ConnectTransport | apps/sfu/src/index.ts:169-177 | the user is ensured; an id in neither slot gives "transport not found"; a resolved one is acknowledged when the engine connects |
| Sfu.SfuServer.Produce | apps/sfu/src/index.ts:179-206 | the user is ensured; without a send transport or on engine failure nothing else changes and no answer is sent; otherwise `WithProducer` fills the slot, an audio producer is registered with its room and user, `newProducer` is announced and the id returned |
| Sfu.SfuServer.OnProducerClose | apps/sfu/src/index.ts:199-204 | an audio producer leaves the registry; rooms and speakers stay |
| Sfu.SfuServer.Consume | apps/sfu/src/index.ts:208-226 | refused by the router: "cant consume" and no change; otherwise the user is ensured, and the consumer is recorded under its own id when a recv transport exists and the engine succeeds, else the error is reported |
| Sfu.SfuServer.OnVolumes | apps/sfu/src/index.ts:83-90 | speakers become `AfterVolumes` of the old map |
| Sfu.SfuServer.Silence | apps/sfu/src/index.ts:92-96 | the speaker map keeps its keys and every value becomes none |
| Sfu.SfuServer.SpeakerTick | apps/sfu/src/index.ts:98-103 | one announcement per room in the registry, carrying its speaker or none |
| Sfu.SfuServer.Disconnect | apps/sfu/src/index.ts:228-247 | absent room or user: nothing; otherwise the user's objects are closed and only that user removed; an emptied room is deleted with its speaker reset; otherwise the speaker is reset exactly when no remaining user has an audio producer |

## Left out

- HTTP and socket plumbing is not modelled, as it is I/O with no stateable logic:
  - Express middleware (helmet, rate limit, slow-down, cors);
  - TLS and server setup, `/health`, `/metrics`;
  - the `ping`, `mute`, `videoToggle` and `audioLevel` relays;
  - `muteAll`, the e2ee endpoints, `GET /v1/rooms/:id` and `sfu.getRouterRtpCapabilities`.
- `requirePerm` is not part of this model, because its definition is not available. The lock, unlock and remove handlers are modelled from the point after their middleware.
- Socket.IO delivery is modelled only as the addressed emits plus the `Recipients` function. The Socket.IO rooms a socket joins or leaves (`socket.join`, `socket.leave`) are not state here.
- Token signing, verification and expiry are oracles. So are the random room-id suffix, the refresh tokens and the clock. The refresh tokens' seven-day TTL is not modelled.
- mediasoup is opaque:
  - worker and router setup, and the `died` exit, are left out;
  - transports, producers and consumers are ids, and each engine call is an `Outcome` parameter;
  - whether closing an object triggers its own `close` or `transportclose` listeners is engine behaviour. `OnProducerClose` is offered as a separate step instead;
  - the audio-observer add and remove calls change no state here.
- Volumes are `real` numbers. NaN and floating-point rounding are not modelled.
- Sfu.SfuServer.Consume: the text of the TypeError thrown when the recv transport is missing is a parameter, because it depends on the JavaScript engine.
- Concurrency: handlers are atomic steps. The interleavings at each `await`, such as two concurrent `ensureRoomMode` runs both emitting `roomMode`, are not modelled.
- All Redis keys share one keyspace in the source. The model keeps records, sets and hashes in separate maps, so a record written under a colliding key does not overwrite a set, and a GET of a record key that holds a set (the WRONGTYPE error of index.ts:83 and 134) does not fail; `Presence.Join` answers 404 there instead. `RedisKeys.RoomKeyCollidesWithMembersKey` states the collision itself.
- Rejected promises that nothing handles are not modelled, and neither is the process exit they cause under Node's default handling: a Redis command that fails (such as the WRONGTYPE reads above), `transport.connect` rejecting in `sfu.connectTransport` (apps/sfu/src/index.ts:175), and `transport.produce` on a missing send transport (apps/sfu/src/index.ts:181-182). `Sfu.SfuServer.ConnectTransport` and `Sfu.SfuServer.Produce` model these as steps that send no answer.
- Ids are strings or integers (`Json`). Non-integer numbers, booleans, objects and arrays in a request body or claim are not modelled.
- RefreshAsWritten and Refresh: a `roomId` or `role` in the request body that is not a string is not modelled; such values would reach the token or `ROLE_PERMS[...]` through JavaScript's string conversion.
- Sfu.SfuServer.Connect: the SFU's room and user keys are the string-or-undefined `roomId` and `userId` claims; a numeric claim, which a JavaScript `Map` keeps apart from its text, is not modelled.
- The `audit` calls are not modelled (they only log).
- Text: a `JNum` of magnitude 10^21 or more is written by JavaScript in exponent form ("1e+21"); the model writes its decimal digits, so such ids are stored under a different text than the source's.
- Presence.Remove: the `removedByHost` emits to the addressed sockets are not modelled as events, because they go only to sockets connected to this instance, which the store does not record; the model returns the addressed set.

## Findings

| source | as written | input that shows it | evidently intended | confidence | as-written member | corrected member |
|---|---|---|---|---|---|---|
| apps/signaling/src/index.ts:174-175 | `ROLE_PERMS[role]` is a plain property lookup, so a name inherited from Object.prototype is truthy and passes the "unknown role" check | a valid user id and refresh token with `roomId` "r" and `role` "constructor": a token is issued with role "constructor" and no usable perms | only "host" and "participant" get a token; any other role gets 400 "unknown role" | high; not executed | Presence.RefreshAsWrittenAcceptsInheritedName | Presence.RefreshIssuesTableRoles |
| apps/signaling/src/index.ts:174-176 | role "__proto__" looks up Object.prototype, which is signed as `perms: {}`; the gate's `perms?.includes` then calls `undefined` | a valid refresh pair with `role` "__proto__", then any `signal` event from a socket holding the token: an uncaught TypeError | the refresh is refused, so no token with non-array perms exists and the gate only drops or emits | high; not executed | Presence.ProtoRoleTokenCrashesSignalGate | Presence.RefreshedTokenSignalsAreDropped |
| apps/signaling/src/index.ts:327-337 | `hvals(...).includes(userId)` compares the stored strings with the raw `sub` claim, which is a number when the join or create body sent one | `{"userId": 7}` joins, connects sockets "a" and "b", and "a" leaves: "7" leaves the member set while "b" still maps to "7" | the presence test looks for the stored text of the id, so a user stays a member while any socket maps to them | medium; not executed | Presence.NumericUserLeavingOneSocketBreaksConsistency | Presence.CleanupIntendedKeepsConsistency |
