/**
 * The role -> permission table of the signaling service (apps/signaling/src/roles.ts),
 * and the JavaScript property lookup `ROLE_PERMS[name]` that the refresh endpoint
 * performs with a client-supplied role name.
 */
module Roles {
  import opened Common

  /** `type Role = "host" | "participant"`. */
  datatype Role = Host | Participant {
    /** The string the role is written as in tokens and requests. */
    function Name(): string {
      match this
      case Host => "host"
      case Participant => "participant"
    }
  }

  const ROOM_READ := "room:read"
  const ROOM_WRITE := "room:write"
  const MEMBER_MANAGE := "member:manage"
  /** The permission the socket `signal` handler checks; no role of this table holds it. */
  const SIGNAL_SEND := "signal:send"

  /** `ROLE_PERMS[role]`: a total table over the two roles. */
  function RolePerms(role: Role): (perms: seq<string>)
    ensures ROOM_READ in perms
    ensures SIGNAL_SEND !in perms
    ensures forall i, j :: 0 <= i < j < |perms| ==> perms[i] != perms[j]
  {
    match role
    case Host => [ROOM_READ, ROOM_WRITE, MEMBER_MANAGE]
    case Participant => [ROOM_READ]
  }

  lemma HostPerms()
    ensures RolePerms(Host) == ["room:read", "room:write", "member:manage"]
  {
  }

  lemma ParticipantPerms()
    ensures RolePerms(Participant) == ["room:read"]
  {
  }

  /** Whatever a participant may do, a host may do too. */
  lemma ParticipantPermsWithinHost(p: string)
    ensures p in RolePerms(Participant) ==> p in RolePerms(Host)
  {
  }

  /** Neither role of the table carries the permission the signal gate asks for. */
  lemma NoRoleMaySignal(role: Role)
    ensures SIGNAL_SEND !in RolePerms(role)
  {
  }

  /**
   * The names under which every plain JavaScript object, `ROLE_PERMS` included,
   * inherits a member from `Object.prototype`.
   */
  const INHERITED_NAMES: set<string> := {
    "constructor", "hasOwnProperty", "isPrototypeOf", "propertyIsEnumerable",
    "toLocaleString", "toString", "valueOf", "__proto__",
    "__defineGetter__", "__defineSetter__", "__lookupGetter__", "__lookupSetter__"
  }

  /** What `ROLE_PERMS[name]` evaluates to. */
  datatype Lookup =
    | OwnEntry(perms: seq<string>)   // one of the table's two arrays
    | InheritedMember(name: string)  // a function (or, for `__proto__`, Object.prototype itself)
    | Undefined

  /** Parses a role name exactly: only the table's own keys. */
  function ParseRole(name: string): (r: Option<Role>)
    ensures r.Some? <==> name in {"host", "participant"}
    ensures r.Some? ==> r.value.Name() == name
  {
    if name == "host" then Some(Host)
    else if name == "participant" then Some(Participant)
    else None
  }

  /** `ROLE_PERMS[name]` with JavaScript's property lookup through the prototype chain. */
  function LookupPerms(name: string): (v: Lookup)
    ensures v.OwnEntry? <==> ParseRole(name).Some?
    ensures v.OwnEntry? ==> v.perms == RolePerms(ParseRole(name).value)
    ensures v.InheritedMember? <==> name in INHERITED_NAMES
  {
    match ParseRole(name)
    case Some(role) => OwnEntry(RolePerms(role))
    case None => if name in INHERITED_NAMES then InheritedMember(name) else Undefined
  }

  /** `!perms` is false for every value except `undefined`: arrays, functions and objects are truthy. */
  predicate IsTruthy(v: Lookup) {
    !v.Undefined?
  }
}
