/**
 * The SFU's per-room media registry (apps/sfu/src/index.ts). The media engine is
 * opaque: transports, producers and consumers are ids it hands out, and each of
 * its calls is an `Outcome` parameter. Room and user keys are the `roomId` and
 * `userId` claims of the socket's token, either of which may be undefined
 * (`None`); JavaScript maps accept `undefined` as a key.
 */
module Sfu {
  import opened Common
  import opened Auth

  /** A room or user key as read from the token: possibly undefined. */
  type Key = Option<string>
  /** An engine object id. */
  type Id = string

  /** `PerUser`: transport slots, producer slots, and consumers keyed by consumer id (consumer id -> producer id). */
  datatype PerUser = PerUser(send: Option<Id>, recv: Option<Id>, audio: Option<Id>, video: Option<Id>,
                             consumers: map<Id, Id>)

  const EMPTY_USER := PerUser(None, None, None, None, map[])

  /** The value `audioProducerRooms` keeps for an audio producer. */
  datatype Owner = Owner(roomId: Key, userId: Key)

  /** One entry of an audio-level `volumes` batch. */
  datatype Sample = Sample(producerId: Id, volume: real)

  /** A keyset entry. */
  datatype Jwk = Jwk(kid: string, secret: string)

  /** The result of an engine call: the id it creates, or the error it throws. */
  datatype Outcome = Made(id: Id) | Failed(message: string)

  /** What a handler passes to the client's callback, if it calls it at all. */
  datatype Ack = NoAck | AckError(message: string) | AckOk | AckId(id: Id) | AckConsumer(id: Id, producerId: Id)

  /** `sfu.newProducer`, sent to the rest of the room. */
  datatype Notice = NewProducer(roomId: Key, userId: Key, producerId: Id, kind: string)

  type Rooms = map<Key, map<Key, PerUser>>

  // ---------------------------------------------------------------------------
  // Token key selection
  // ---------------------------------------------------------------------------

  /** `KEYSET.find((k) => k.kid === kid)`: the index of the first entry with that `kid`. */
  function FindKid(keyset: seq<Jwk>, kid: Option<string>): (i: Option<nat>)
    ensures i.Some? ==> i.value < |keyset| && Some(keyset[i.value].kid) == kid
    ensures i.Some? ==> forall j | 0 <= j < i.value :: Some(keyset[j].kid) != kid
    ensures i.None? ==> forall j | 0 <= j < |keyset| :: Some(keyset[j].kid) != kid
    decreases |keyset|
  {
    if |keyset| == 0 then None
    else if Some(keyset[0].kid) == kid then Some(0)
    else match FindKid(keyset[1..], kid)
      case None => None
      case Some(j) => Some(j + 1)
  }

  /**
   * The key `verifyToken` checks with: the first entry whose `kid` is the token
   * header's (section 4.1.4 of RFC 7515), else `KEYSET[0]`; none for an empty keyset.
   */
  function SelectKey(keyset: seq<Jwk>, kid: Option<string>): (k: Option<Jwk>)
    ensures k.None? <==> |keyset| == 0
    ensures k.Some? ==> k.value in keyset
    ensures (exists j :: 0 <= j < |keyset| && Some(keyset[j].kid) == kid) ==>
      k.Some? && Some(k.value.kid) == kid
    ensures (forall j | 0 <= j < |keyset| :: Some(keyset[j].kid) != kid) && |keyset| > 0 ==> k == Some(keyset[0])
  {
    match FindKid(keyset, kid)
    case Some(i) => Some(keyset[i])
    case None => if |keyset| == 0 then None else Some(keyset[0])
  }

  /** Among several entries with the token's `kid`, the first one is used. */
  lemma {:induction false} SelectKeyPicksFirst(keyset: seq<Jwk>, kid: Option<string>, i: nat)
    requires i < |keyset| && Some(keyset[i].kid) == kid
    requires forall j | 0 <= j < i :: Some(keyset[j].kid) != kid
    ensures SelectKey(keyset, kid) == Some(keyset[i])
  {
  }

  /**
   * `verifyToken` followed by the socket gate: `headerKid` stands for `jwt.decode`'s
   * header and `verify` for `jwt.verify` with a secret; a missing token or key fails.
   */
  function VerifyToken(token: Option<string>, keyset: seq<Jwk>, headerKid: string -> Option<string>,
                       verify: (string, string) -> Option<Claims>): (c: Option<Claims>)
    ensures token.None? || |keyset| == 0 ==> c.None?
    ensures token.Some? && |keyset| > 0 ==>
      c == verify(token.value, SelectKey(keyset, headerKid(token.value)).value.secret)
  {
    if token.None? then None
    else match SelectKey(keyset, headerKid(token.value))
      case None => None
      case Some(key) => verify(token.value, key.secret)
  }

  // ---------------------------------------------------------------------------
  // Registry updates
  // ---------------------------------------------------------------------------

  /** The room map after `ensureRoom(r)`. */
  function WithRoom(rooms: Rooms, r: Key): (m: Rooms)
    ensures m.Keys == rooms.Keys + {r}
    ensures forall q | q in rooms :: m[q] == rooms[q]
    ensures r !in rooms ==> m[r] == map[]
  {
    if r in rooms then rooms else rooms[r := map[]]
  }

  /** The speaker map after `ensureRoom(r)`. */
  function WithSpeaker(speaker: map<Key, Key>, r: Key): (m: map<Key, Key>)
    ensures m.Keys == speaker.Keys + {r}
    ensures forall q | q in speaker :: m[q] == speaker[q]
    ensures r !in speaker ==> m[r] == None
  {
    if r in speaker then speaker else speaker[r := None]
  }

  /** The room map after `ensureUser(r, u)`. */
  function WithUser(rooms: Rooms, r: Key, u: Key): (m: Rooms)
    ensures m.Keys == rooms.Keys + {r}
    ensures forall q | q in rooms && q != r :: m[q] == rooms[q]
    ensures m[r].Keys == (if r in rooms then rooms[r].Keys else {}) + {u}
    ensures r in rooms ==> forall v | v in rooms[r] :: m[r][v] == rooms[r][v]
    ensures r !in rooms || u !in rooms[r] ==> m[r][u] == EMPTY_USER
  {
    var withRoom := WithRoom(rooms, r);
    if u in withRoom[r] then withRoom else withRoom[r := withRoom[r][u := EMPTY_USER]]
  }

  lemma WithRoomIdempotent(rooms: Rooms, speaker: map<Key, Key>, r: Key)
    ensures WithRoom(WithRoom(rooms, r), r) == WithRoom(rooms, r)
    ensures WithSpeaker(WithSpeaker(speaker, r), r) == WithSpeaker(speaker, r)
  {
  }

  lemma WithUserIdempotent(rooms: Rooms, r: Key, u: Key)
    ensures WithUser(WithUser(rooms, r, u), r, u) == WithUser(rooms, r, u)
  {
  }

  /** Replace user `u`'s record in room `r`. */
  function SetUser(rooms: Rooms, r: Key, u: Key, p: PerUser): (m: Rooms)
    requires r in rooms
    ensures m.Keys == rooms.Keys && m[r].Keys == rooms[r].Keys + {u} && m[r][u] == p
    ensures forall q | q in rooms && q != r :: m[q] == rooms[q]
    ensures forall v | v in rooms[r] && v != u :: m[r][v] == rooms[r][v]
  {
    rooms[r := rooms[r][u := p]]
  }

  /** `sfu.createWebRtcTransport`'s slot choice: "send" fills the send slot, anything else the recv slot. */
  function WithTransport(p: PerUser, direction: Option<string>, t: Id): (q: PerUser)
    ensures direction == Some("send") ==> q.send == Some(t) && q.recv == p.recv
    ensures direction != Some("send") ==> q.recv == Some(t) && q.send == p.send
    ensures q.audio == p.audio && q.video == p.video && q.consumers == p.consumers
  {
    if direction == Some("send") then p.(send := Some(t)) else p.(recv := Some(t))
  }

  datatype Slot = SendSlot | RecvSlot

  /** `sfu.connectTransport`'s lookup: the send slot first, then the recv slot. */
  function ResolveTransport(p: PerUser, transportId: Id): (s: Option<Slot>)
    ensures s == Some(SendSlot) <==> p.send == Some(transportId)
    ensures s == Some(RecvSlot) <==> p.send != Some(transportId) && p.recv == Some(transportId)
  {
    if p.send == Some(transportId) then Some(SendSlot)
    else if p.recv == Some(transportId) then Some(RecvSlot)
    else None
  }

  /** A transport just created is found again by its id, in the slot it was put in unless the send slot holds the same id. */
  lemma {:induction false} CreatedTransportResolves(p: PerUser, direction: Option<string>, t: Id)
    ensures ResolveTransport(WithTransport(p, direction, t), t).Some?
    ensures direction == Some("send") ==> ResolveTransport(WithTransport(p, direction, t), t) == Some(SendSlot)
    ensures direction != Some("send") && p.send != Some(t) ==>
      ResolveTransport(WithTransport(p, direction, t), t) == Some(RecvSlot)
  {
  }

  /** `sfu.produce`'s slot update: an "audio" or "video" producer fills that slot and only that slot. */
  function WithProducer(p: PerUser, kind: string, id: Id): (q: PerUser)
    ensures q.send == p.send && q.recv == p.recv && q.consumers == p.consumers
    ensures q.audio == (if kind == "audio" then Some(id) else p.audio)
    ensures q.video == (if kind == "video" then Some(id) else p.video)
  {
    if kind == "audio" then p.(audio := Some(id))
    else if kind == "video" then p.(video := Some(id))
    else p
  }

  /** `user.consumers.set(consumer.id, consumer)`: keyed by the consumer's id, not the producer's. */
  function WithConsumer(p: PerUser, consumerId: Id, producerId: Id): (q: PerUser)
    ensures q.consumers == p.consumers[consumerId := producerId]
    ensures q.send == p.send && q.recv == p.recv && q.audio == p.audio && q.video == p.video
  {
    p.(consumers := p.consumers[consumerId := producerId])
  }

  /** Consuming the same producer twice keeps two consumer entries. */
  lemma ConsumersNotKeyedByProducer(p: PerUser, c1: Id, c2: Id, producerId: Id)
    requires c1 != c2
    ensures var q := WithConsumer(WithConsumer(p, c1, producerId), c2, producerId);
      c1 in q.consumers && c2 in q.consumers && q.consumers[c1] == q.consumers[c2] == producerId
  {
  }

  /** The engine ids a user's teardown closes. */
  function OwnedIds(p: PerUser): (ids: set<Id>)
    ensures p.consumers.Keys <= ids
    ensures forall id :: id in ids <==>
      id in p.consumers || Some(id) in {p.audio, p.video, p.send, p.recv}
  {
    p.consumers.Keys
      + (if p.audio.Some? then {p.audio.value} else {})
      + (if p.video.Some? then {p.video.value} else {})
      + (if p.send.Some? then {p.send.value} else {})
      + (if p.recv.Some? then {p.recv.value} else {})
  }

  /** `Array.from(roomMap.values()).some((p) => p.producers.audio)`. */
  predicate AnyAudio(room: map<Key, PerUser>) {
    exists u :: u in room && room[u].audio.Some?
  }

  // ---------------------------------------------------------------------------
  // Active speaker
  // ---------------------------------------------------------------------------

  /** The index of the loudest sample, the earliest one among equals. */
  function FirstLoudest(v: seq<Sample>): (i: nat)
    requires |v| > 0
    ensures i < |v|
    ensures forall j | 0 <= j < |v| :: v[j].volume <= v[i].volume
    ensures forall j | 0 <= j < i :: v[j].volume < v[i].volume
  {
    if |v| == 1 then 0
    else
      var k := FirstLoudest(v[..|v| - 1]);
      assert forall j | 0 <= j < |v| - 1 :: v[..|v| - 1][j] == v[j];
      if v[|v| - 1].volume > v[k].volume then |v| - 1 else k
  }

  /**
   * `sorted` is `v` reordered through the index permutation `perm`, loudest first,
   * with equal volumes kept in their original order (a stable sort by `b.volume - a.volume`).
   */
  ghost predicate IsStableDescendingSort(v: seq<Sample>, sorted: seq<Sample>, perm: seq<nat>) {
    && |perm| == |v| == |sorted|
    && (forall k | 0 <= k < |perm| :: perm[k] < |v| && sorted[k] == v[perm[k]])
    && (forall i | 0 <= i < |v| :: i in perm)
    && (forall k, l | 0 <= k < l < |sorted| :: sorted[k].volume >= sorted[l].volume)
    && (forall k, l | 0 <= k < l < |sorted| && sorted[k].volume == sorted[l].volume :: perm[k] < perm[l])
  }

  /** The head of any stable descending sort of a batch is its first loudest sample. */
  lemma {:induction false} StableSortHead(v: seq<Sample>, sorted: seq<Sample>, perm: seq<nat>)
    requires |v| > 0 && IsStableDescendingSort(v, sorted, perm)
    ensures perm[0] == FirstLoudest(v)
    ensures sorted[0] == v[FirstLoudest(v)]
  {
    var m := FirstLoudest(v);
    assert m in perm;
    var k :| 0 <= k < |perm| && perm[k] == m;
    forall l | 0 <= l < |sorted|
      ensures sorted[0].volume >= sorted[l].volume
      ensures sorted[0].volume == sorted[l].volume ==> perm[0] <= perm[l]
    {
    }
    assert sorted[k] == v[m];
    assert v[perm[0]].volume == v[m].volume;
  }

  /** The producer the `volumes` handler looks up: `sorted[0].producer`, if the batch is not empty. */
  function Loudest(volumes: seq<Sample>): (p: Option<Id>)
    ensures p.None? <==> |volumes| == 0
    ensures p.Some? ==>
      exists i :: (0 <= i < |volumes| && volumes[i].producerId == p.value &&
                   (forall j | 0 <= j < |volumes| :: volumes[j].volume <= volumes[i].volume) &&
                   (forall j | 0 <= j < i :: volumes[j].volume < volumes[i].volume))
  {
    if |volumes| == 0 then None else Some(volumes[FirstLoudest(volumes)].producerId)
  }

  /** The producer `Loudest` picks is the head of any stable loudest-first sort of the batch, as `sorted[0]` is. */
  lemma {:induction false} LoudestIsSortedHead(volumes: seq<Sample>, sorted: seq<Sample>, perm: seq<nat>)
    requires |volumes| > 0 && IsStableDescendingSort(volumes, sorted, perm)
    ensures Loudest(volumes) == Some(sorted[0].producerId)
  {
    StableSortHead(volumes, sorted, perm);
  }

  /** The speaker map after a `volumes` batch. */
  function AfterVolumes(speaker: map<Key, Key>, owners: map<Id, Owner>, volumes: seq<Sample>): (m: map<Key, Key>)
    ensures Loudest(volumes).None? || Loudest(volumes).value !in owners ==> m == speaker
    ensures Loudest(volumes).Some? && Loudest(volumes).value in owners ==>
      var o := owners[Loudest(volumes).value];
      && m.Keys == speaker.Keys + {o.roomId}
      && m[o.roomId] == o.userId
      && (forall r | r in speaker && r != o.roomId :: m[r] == speaker[r])
  {
    match Loudest(volumes)
    case None => speaker
    case Some(p) => if p in owners then speaker[owners[p].roomId := owners[p].userId] else speaker
  }

  class SfuServer {
    /** `rooms`: room key -> user key -> `PerUser`. */
    var rooms: Rooms
    /** `audioProducerRooms`: audio producer id -> its room and user. */
    var audioProducerRooms: map<Id, Owner>
    /** `roomActiveSpeaker`: room key -> current speaker (`None` for undefined). */
    var speaker: map<Key, Key>

    constructor()
      ensures rooms == map[] && audioProducerRooms == map[] && speaker == map[]
    {
      rooms, audioProducerRooms, speaker := map[], map[], map[];
    }

    method EnsureRoom(r: Key)
      modifies this
      ensures rooms == WithRoom(old(rooms), r) && speaker == WithSpeaker(old(speaker), r)
      ensures audioProducerRooms == old(audioProducerRooms)
    {
      if r !in rooms {
        rooms := rooms[r := map[]];
      }
      if r !in speaker {
        speaker := speaker[r := None];
      }
    }

    method EnsureUser(r: Key, u: Key)
      modifies this
      ensures rooms == WithUser(old(rooms), r, u) && speaker == WithSpeaker(old(speaker), r)
      ensures audioProducerRooms == old(audioProducerRooms)
    {
      EnsureRoom(r);
      var room := rooms[r];
      if u !in room {
        rooms := rooms[r := room[u := EMPTY_USER]];
      }
    }

    /** The `connection` handler for a socket admitted with `claims`. */
    method Connect(claims: Claims)
      modifies this
      ensures rooms == WithUser(old(rooms), claims.roomId, claims.userId)
      ensures speaker == WithSpeaker(old(speaker), claims.roomId)
      ensures audioProducerRooms == old(audioProducerRooms)
    {
      var r, u := claims.roomId, claims.userId;
      EnsureRoom(r);
      EnsureUser(r, u);
    }

    /** `sfu.createWebRtcTransport`; `created` is the engine's answer, awaited before `ensureUser` runs. */
    method CreateTransport(r: Key, u: Key, direction: Option<string>, created: Outcome) returns (ack: Ack)
      modifies this
      ensures created.Failed? ==>
        ack == AckError(created.message) && rooms == old(rooms) && speaker == old(speaker)
      ensures created.Made? ==>
        var base := WithUser(old(rooms), r, u);
        && ack == AckId(created.id)
        && rooms == SetUser(base, r, u, WithTransport(base[r][u], direction, created.id))
        && speaker == WithSpeaker(old(speaker), r)
      ensures audioProducerRooms == old(audioProducerRooms)
    {
      if created.Failed? {
        return AckError(created.message);
      }
      EnsureUser(r, u);
      var user := rooms[r][u];
      if direction == Some("send") {
        user := user.(send := Some(created.id));
      } else {
        user := user.(recv := Some(created.id));
      }
      rooms := rooms[r := rooms[r][u := user]];
      ack := AckId(created.id);
    }

    /**
     * `sfu.connectTransport`: `connected` is whether the engine's `connect` resolves;
     * when it rejects, the callback is never called.
     */
    method ConnectTransport(r: Key, u: Key, transportId: Id, connected: bool) returns (ack: Ack)
      modifies this
      ensures rooms == WithUser(old(rooms), r, u) && speaker == WithSpeaker(old(speaker), r)
      ensures audioProducerRooms == old(audioProducerRooms)
      ensures ResolveTransport(rooms[r][u], transportId).None? ==> ack == AckError("transport not found")
      ensures ResolveTransport(rooms[r][u], transportId).Some? ==> ack == if connected then AckOk else NoAck
    {
      EnsureUser(r, u);
      var user := rooms[r][u];
      var found := user.send == Some(transportId) || user.recv == Some(transportId);
      if !found {
        return AckError("transport not found");
      }
      ack := if connected then AckOk else NoAck;
    }

    /**
     * `sfu.produce`: `produced` is the send transport's answer. Without a send
     * transport, or when producing fails, the handler throws after `ensureUser`
     * and never answers.
     */
    method Produce(r: Key, u: Key, kind: string, produced: Outcome) returns (ack: Ack, notice: Option<Notice>)
      modifies this
      ensures speaker == WithSpeaker(old(speaker), r)
      ensures var base := WithUser(old(rooms), r, u);
        if base[r][u].send.None? || produced.Failed? then
          && rooms == base && audioProducerRooms == old(audioProducerRooms)
          && ack == NoAck && notice == None
        else
          && rooms == SetUser(base, r, u, WithProducer(base[r][u], kind, produced.id))
          && audioProducerRooms ==
               (if kind == "audio" then old(audioProducerRooms)[produced.id := Owner(r, u)] else old(audioProducerRooms))
          && ack == AckId(produced.id)
          && notice == Some(NewProducer(r, u, produced.id, kind))
    {
      EnsureUser(r, u);
      var user := rooms[r][u];
      if user.send.None? || produced.Failed? {
        return NoAck, None;
      }
      var id := produced.id;
      if kind == "audio" {
        user := user.(audio := Some(id));
      }
      if kind == "video" {
        user := user.(video := Some(id));
      }
      rooms := rooms[r := rooms[r][u := user]];
      if kind == "audio" {
        audioProducerRooms := audioProducerRooms[id := Owner(r, u)];
      }
      notice := Some(NewProducer(r, u, id, kind));
      ack := AckId(id);
    }

    /** The producer's `close` listener: an audio producer leaves the speaker registry; its slot is kept. */
    method OnProducerClose(producerId: Id, kind: string)
      modifies this
      ensures audioProducerRooms == if kind == "audio" then old(audioProducerRooms) - {producerId} else old(audioProducerRooms)
      ensures rooms == old(rooms) && speaker == old(speaker)
    {
      if kind == "audio" {
        audioProducerRooms := audioProducerRooms - {producerId};
      }
    }

    /**
     * `sfu.consume`: `canConsume` is the router's check and `consumed` the recv
     * transport's answer. A missing recv transport throws inside the handler's
     * `try`, after `ensureUser`, and is reported with `missingTransportError`.
     */
    method Consume(r: Key, u: Key, producerId: Id, canConsume: bool, consumed: Outcome, missingTransportError: string)
      returns (ack: Ack)
      modifies this
      ensures !canConsume ==> ack == AckError("cant consume") && rooms == old(rooms) && speaker == old(speaker)
      ensures canConsume ==> speaker == WithSpeaker(old(speaker), r)
      ensures canConsume ==>
        var base := WithUser(old(rooms), r, u);
        if base[r][u].recv.None? then rooms == base && ack == AckError(missingTransportError)
        else if consumed.Failed? then rooms == base && ack == AckError(consumed.message)
        else
          && rooms == SetUser(base, r, u, WithConsumer(base[r][u], consumed.id, producerId))
          && ack == AckConsumer(consumed.id, producerId)
      ensures audioProducerRooms == old(audioProducerRooms)
    {
      if !canConsume {
        return AckError("cant consume");
      }
      EnsureUser(r, u);
      var user := rooms[r][u];
      if user.recv.None? {
        return AckError(missingTransportError);
      }
      if consumed.Failed? {
        return AckError(consumed.message);
      }
      user := user.(consumers := user.consumers[consumed.id := producerId]);
      rooms := rooms[r := rooms[r][u := user]];
      ack := AckConsumer(consumed.id, producerId);
    }

    /** The audio-level observer's `volumes` event. */
    method OnVolumes(volumes: seq<Sample>)
      modifies this
      ensures speaker == AfterVolumes(old(speaker), audioProducerRooms, volumes)
      ensures rooms == old(rooms) && audioProducerRooms == old(audioProducerRooms)
    {
      if |volumes| == 0 {
        return;
      }
      var loudest := volumes[FirstLoudest(volumes)].producerId;
      if loudest !in audioProducerRooms {
        return;
      }
      var info := audioProducerRooms[loudest];
      speaker := speaker[info.roomId := info.userId];
    }

    /** The audio-level observer's `silence` event: every known room's speaker becomes undefined. */
    method Silence()
      modifies this
      ensures speaker.Keys == old(speaker).Keys
      ensures forall r | r in speaker :: speaker[r] == None
      ensures rooms == old(rooms) && audioProducerRooms == old(audioProducerRooms)
    {
      var pending := speaker.Keys;
      while pending != {}
        invariant pending <= speaker.Keys == old(speaker).Keys
        invariant forall r | r in speaker && r !in pending :: speaker[r] == None
        invariant rooms == old(rooms) && audioProducerRooms == old(audioProducerRooms)
        decreases pending
      {
        var r :| r in pending;
        speaker := speaker[r := None];
        pending := pending - {r};
      }
    }

    /** One tick of the broadcast timer: the `sfu.activeSpeaker` payload sent to each room (`None` for null). */
    method SpeakerTick() returns (announced: map<Key, Key>)
      ensures announced.Keys == rooms.Keys
      ensures forall r | r in announced :: announced[r] == (if r in speaker then speaker[r] else None)
    {
      announced := map[];
      var pending := rooms.Keys;
      while pending != {}
        invariant pending <= rooms.Keys
        invariant announced.Keys == rooms.Keys - pending
        invariant forall r | r in announced :: announced[r] == (if r in speaker then speaker[r] else None)
        decreases pending
      {
        var r :| r in pending;
        var active := if r in speaker then speaker[r] else None;
        announced := announced[r := active];
        pending := pending - {r};
      }
    }

    /**
     * The `disconnect` handler of a socket keyed (`r`, `u`): `closed` is every
     * engine object it closes.
     */
    method Disconnect(r: Key, u: Key) returns (closed: set<Id>)
      modifies this
      ensures !(r in old(rooms) && u in old(rooms)[r]) ==>
        closed == {} && rooms == old(rooms) && speaker == old(speaker)
      ensures r in old(rooms) && u in old(rooms)[r] ==>
        var rest := old(rooms)[r] - {u};
        && closed == OwnedIds(old(rooms)[r][u])
        && (|rest| == 0 ==> rooms == old(rooms) - {r} && speaker == old(speaker)[r := None])
        && (|rest| != 0 ==> rooms == old(rooms)[r := rest])
        && (|rest| != 0 ==> speaker == if AnyAudio(rest) then old(speaker) else old(speaker)[r := None])
      ensures audioProducerRooms == old(audioProducerRooms)
    {
      if r !in rooms {
        return {};
      }
      var roomMap := rooms[r];
      if u !in roomMap {
        return {};
      }
      closed := OwnedIds(roomMap[u]);
      var rest := roomMap - {u};
      if |rest| == 0 {
        rooms := rooms - {r};
        speaker := speaker[r := None];
      } else {
        rooms := rooms[r := rest];
        var anyAudio := AnyAudio(rest);
        if !anyAudio {
          speaker := speaker[r := None];
        }
      }
    }
  }
}
