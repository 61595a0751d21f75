/** Redis key construction of the signaling service (apps/signaling/src/redis.ts). */
module RedisKeys {

  const ROOM_PREFIX := "room:"
  const MEMBERS_SUFFIX := ":members"
  const SOCKETS_SUFFIX := ":sockets"

  /** Key of the room record: `room:${id}`. */
  function RoomKey(id: string): (k: string)
    ensures |k| == |ROOM_PREFIX| + |id|
    ensures k[..|ROOM_PREFIX|] == ROOM_PREFIX && k[|ROOM_PREFIX|..] == id
  {
    "room:" + id
  }

  /** Key of the room's member set: `room:${id}:members`. */
  function MembersKey(id: string): (k: string)
    ensures k == RoomKey(id) + MEMBERS_SUFFIX
  {
    "room:" + id + ":members"
  }

  /** Key of the room's socket-id -> user-id hash: `room:${id}:sockets`. */
  function SocketsKey(id: string): (k: string)
    ensures k == RoomKey(id) + SOCKETS_SUFFIX
  {
    "room:" + id + ":sockets"
  }

  /** The id is what follows the fixed prefix and precedes the fixed suffix. */
  lemma {:induction false} IdOfMembersKey(id: string)
    ensures MembersKey(id)[|ROOM_PREFIX|..|MembersKey(id)| - |MEMBERS_SUFFIX|] == id
  {
  }

  lemma {:induction false} IdOfSocketsKey(id: string)
    ensures SocketsKey(id)[|ROOM_PREFIX|..|SocketsKey(id)| - |SOCKETS_SUFFIX|] == id
  {
  }

  lemma RoomKeyInjective(a: string, b: string)
    ensures RoomKey(a) == RoomKey(b) ==> a == b
  {
  }

  lemma MembersKeyInjective(a: string, b: string)
    ensures MembersKey(a) == MembersKey(b) ==> a == b
  {
    IdOfMembersKey(a);
    IdOfMembersKey(b);
  }

  lemma SocketsKeyInjective(a: string, b: string)
    ensures SocketsKey(a) == SocketsKey(b) ==> a == b
  {
    IdOfSocketsKey(a);
    IdOfSocketsKey(b);
  }

  /** For one id the three keys name three different Redis entries. */
  lemma {:induction false} KeysDistinct(id: string)
    ensures RoomKey(id) != MembersKey(id)
    ensures RoomKey(id) != SocketsKey(id)
    ensures MembersKey(id) != SocketsKey(id)
  {
    var n := |ROOM_PREFIX| + |id| + 1;
    assert MembersKey(id)[n] == 'm';
    assert SocketsKey(id)[n] == 's';
  }

  /** Across ids the keys collide: the record key of one id is the member-set key of another. */
  lemma RoomKeyCollidesWithMembersKey(id: string)
    ensures RoomKey(id + MEMBERS_SUFFIX) == MembersKey(id)
  {
  }

  /**
   * Ids without a colon (such as the `room_<hex>` ids minted at room creation)
   * never have a record key that is another id's member-set or socket-hash key.
   */
  lemma {:induction false} ColonFreeIdsDoNotCollide(a: string, b: string)
    requires ':' !in a
    ensures RoomKey(a) != MembersKey(b)
    ensures RoomKey(a) != SocketsKey(b)
  {
    if |a| == |b| + |MEMBERS_SUFFIX| {
      // the character after b in a members key is the suffix's leading colon
      assert MembersKey(b)[|ROOM_PREFIX| + |b|] == ':';
      assert RoomKey(a)[|ROOM_PREFIX| + |b|] == a[|b|];
    }
  }

}
