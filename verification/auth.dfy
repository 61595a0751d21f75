/**
 * Session claims and the `requireBearer` middleware of the signaling service
 * (apps/signaling/src/auth.ts). Signing and verifying a token are cryptographic
 * oracles: verification is a function from the token text to the claims it
 * carries, or `None` when it fails.
 */
module Auth {
  import opened Common

  /** The `perms` claim as it arrives after a JSON round trip. */
  datatype PermsClaim =
    | NoPerms                     // absent (a function value is dropped by JSON.stringify)
    | PermList(list: seq<string>) // an array of permission names
    | PermObject                  // a plain object such as `{}`, which has no `includes` method

  /** The claims of a verified token; every field may be missing, and `sub` is whatever id the token was minted for. */
  datatype Claims = Claims(
    sub: Option<Json>,
    roomId: Option<string>,
    role: Option<string>,
    perms: PermsClaim,
    userId: Option<string>)

  /** The claims of `signToken({ sub, roomId, role, perms }, "1h")`; expiry is not modelled. */
  function Minted(sub: Json, roomId: string, role: string, perms: seq<string>): (c: Claims)
    ensures c.sub == Some(sub) && c.roomId == Some(roomId) && c.role == Some(role)
    ensures c.perms == PermList(perms)
    ensures c.userId.None?
  {
    Claims(Some(sub), Some(roomId), Some(role), PermList(perms), None)
  }

  // ---------------------------------------------------------------------------
  // The header regular expression /^Bearer\s+(.+)$/i
  // ---------------------------------------------------------------------------

  /** The scheme word, compared after ASCII case folding (the `i` flag). */
  const SCHEME := "bearer"

  /** Characters matched by `\s`: ECMAScript WhiteSpace and LineTerminator. */
  predicate IsSpace(c: char) {
    c in {'\t', '\n', '\U{000B}', '\U{000C}', '\r', ' ', '\U{00A0}', '\U{1680}',
          '\U{2028}', '\U{2029}', '\U{202F}', '\U{205F}', '\U{3000}', '\U{FEFF}'}
    || ('\U{2000}' <= c <= '\U{200A}')
  }

  /** Characters that `.` does not match. */
  predicate IsLineTerminator(c: char) {
    c in {'\n', '\r', '\U{2028}', '\U{2029}'}
  }

  function AsciiLower(c: char): char {
    if 'A' <= c <= 'Z' then (c as int + 32) as char else c
  }

  predicate IsScheme(s: string) {
    |s| == |SCHEME| && forall i :: 0 <= i < |s| ==> AsciiLower(s[i]) == SCHEME[i]
  }

  predicate AllSpace(s: string) {
    forall i :: 0 <= i < |s| ==> IsSpace(s[i])
  }

  predicate NoLineTerminator(s: string) {
    forall i :: 0 <= i < |s| ==> !IsLineTerminator(s[i])
  }

  /**
   * One way the expression matches `hdr`: the scheme, then `\s+` taking the
   * `k` characters after it, then `(.+)$` taking the non-empty rest.
   */
  predicate MatchesAt(hdr: string, k: nat) {
    && 1 <= k
    && |SCHEME| + k < |hdr|
    && IsScheme(hdr[..|SCHEME|])
    && AllSpace(hdr[|SCHEME|..|SCHEME| + k])
    && NoLineTerminator(hdr[|SCHEME| + k..])
  }

  /** Length of the whitespace run at the start of `s`. */
  function SpaceRun(s: string): (n: nat)
    ensures n <= |s|
    ensures AllSpace(s[..n])
    ensures n < |s| ==> !IsSpace(s[n])
  {
    if s == [] || !IsSpace(s[0]) then 0
    else
      var n := 1 + SpaceRun(s[1..]);
      assert s[..n] == [s[0]] + s[1..][..n - 1];
      n
  }

  function Min(a: int, b: int): int {
    if a <= b then a else b
  }

  /**
   * `hdr.match(/^Bearer\s+(.+)$/i)?.[1]`. The greedy `\s+` keeps the longest
   * whitespace run that still leaves `(.+)` a character, so an all-blank tail
   * gives back its last character.
   */
  function MatchBearer(hdr: string): (token: Option<string>)
    ensures token.Some? ==> token.value != [] && NoLineTerminator(token.value)
    ensures token.Some? ==> exists k :: MatchesAt(hdr, k) && token.value == hdr[|SCHEME| + k..]
  {
    if |hdr| <= |SCHEME| || !IsScheme(hdr[..|SCHEME|]) then None
    else
      var rest := hdr[|SCHEME|..];
      var k := Min(SpaceRun(rest), |rest| - 1);
      if 1 <= k && NoLineTerminator(rest[k..]) then
        assert hdr[|SCHEME|..|SCHEME| + k] == rest[..k];
        assert MatchesAt(hdr, k);
        Some(rest[k..])
      else None
  }

  /** Every way the expression can match is found: no match is missed. */
  lemma {:induction false} MatchBearerComplete(hdr: string, j: nat)
    requires MatchesAt(hdr, j)
    ensures MatchBearer(hdr).Some?
  {
    var rest := hdr[|SCHEME|..];
    var w := SpaceRun(rest);
    assert rest[..j] == hdr[|SCHEME|..|SCHEME| + j];
    assert j <= w;
    var k := Min(w, |rest| - 1);
    assert j <= k;
    forall i | 0 <= i < |rest[k..]|
      ensures !IsLineTerminator(rest[k..][i])
    {
      assert rest[k..][i] == hdr[|SCHEME| + j..][i + k - j];
    }
  }

  /** The captured token follows the longest whitespace run any match can take. */
  lemma {:induction false} MatchBearerGreedy(hdr: string, j: nat)
    requires MatchesAt(hdr, j)
    ensures |MatchBearer(hdr).value| <= |hdr| - |SCHEME| - j
  {
    MatchBearerComplete(hdr, j);
    var rest := hdr[|SCHEME|..];
    var w := SpaceRun(rest);
    assert rest[..j] == hdr[|SCHEME|..|SCHEME| + j];
    assert j <= w;
  }

  /** The worked example `"bearer   abc"`: case-insensitive scheme, the run of blanks skipped. */
  lemma MatchBearerExample()
    ensures MatchBearer("bearer   abc") == Some("abc")
    ensures MatchBearer("Bearer") == None
    ensures MatchBearer("Basic abc") == None
  {
    var rest := "   abc";
    assert SpaceRun(rest[3..]) == 0;
    assert SpaceRun(rest) == 3;
    assert "bearer   abc"[6..] == rest;
    assert rest[3..] == "abc";
  }

  /** A blank-only tail backtracks: `"Bearer  "` yields the token `" "`. */
  lemma MatchBearerBlankTail()
    ensures MatchBearer("Bearer  ") == Some(" ")
  {
    var rest := "  ";
    assert SpaceRun(rest[2..]) == 0;
    assert SpaceRun(rest[1..]) == 1;
    assert SpaceRun(rest) == 2;
    assert "Bearer  "[6..] == rest;
  }

  // ---------------------------------------------------------------------------
  // requireBearer
  // ---------------------------------------------------------------------------

  const UNAUTHORIZED := 401
  const MISSING_BEARER := "missing bearer"
  const INVALID_TOKEN := "invalid token"

  /** `req.headers.authorization || ""`. */
  function HeaderText(header: Option<string>): string {
    if header.Some? then header.value else ""
  }

  /**
   * The request/response pair a middleware works on: `req.auth`, the status and
   * error body written to the response, and how often `next()` was called.
   */
  class Exchange {
    var auth: Option<Claims>
    var status: Option<int>
    var error: Option<string>
    var nextCalls: nat

    constructor ()
      ensures auth.None? && status.None? && error.None? && nextCalls == 0
    {
      auth, status, error, nextCalls := None, None, None, 0;
    }

    /** `requireBearer(req, res, next)` with the token verifier as an oracle. */
    method RequireBearer(header: Option<string>, verify: string -> Option<Claims>)
      modifies this
      ensures MatchBearer(HeaderText(header)).None? ==>
        && status == Some(UNAUTHORIZED) && error == Some(MISSING_BEARER)
        && auth == old(auth) && nextCalls == old(nextCalls)
      ensures MatchBearer(HeaderText(header)).Some? && verify(MatchBearer(HeaderText(header)).value).None? ==>
        && status == Some(UNAUTHORIZED) && error == Some(INVALID_TOKEN)
        && auth == old(auth) && nextCalls == old(nextCalls)
      ensures MatchBearer(HeaderText(header)).Some? && verify(MatchBearer(HeaderText(header)).value).Some? ==>
        && auth == verify(MatchBearer(HeaderText(header)).value)
        && nextCalls == old(nextCalls) + 1
        && status == old(status) && error == old(error)
    {
      var hdr := HeaderText(header);
      var m := MatchBearer(hdr);
      if m.None? {
        status, error := Some(UNAUTHORIZED), Some(MISSING_BEARER);
        return;
      }
      var payload := verify(m.value);
      if payload.None? {
        status, error := Some(UNAUTHORIZED), Some(INVALID_TOKEN);
        return;
      }
      auth := payload;
      nextCalls := nextCalls + 1;
    }
  }
}
