/**
 * The request guard of the API (banking-api/middleware/authMiddleware.js):
 * the bearer header, the signature check, the expiry check and the user
 * lookup, in that order, each with its own refusal.
 */
module AuthMiddleware {
  import opened Common
  import opened Text
  import opened UserModel

  /** The claims of a verified token: the user id and the expiry, in seconds. */
  datatype Claims = Claims(id: Option<ObjectId>, exp: Option<int>)

  /**
   * The user attached to the request. The schema has no `name` and no `email`
   * paths, so those two are always absent.
   */
  datatype Actor = Actor(id: ObjectId, name: Option<string>, email: Option<string>, role: Role)

  datatype AuthResult = Denied(status: int, error: string) | Admitted(actor: Actor)

  const BearerPrefix: string := "Bearer "

  /** The header begins with the word "Bearer" and a space. */
  lemma {:induction false} BearerShape(h: string)
    requires StartsWith(h, BearerPrefix)
    ensures h == "Bearer" + [' '] + h[7..]
    ensures ' ' !in "Bearer"
  {
    assert h[..7] == BearerPrefix;
    assert h == h[..7] + h[7..];
  }

  /**
   * The token carried by the header: refused when the header is absent or
   * blank or lacks the "Bearer " prefix, otherwise `authHeader.split(" ")[1]`.
   */
  function BearerToken(header: Option<string>): (r: Option<string>)
    ensures r.Some? <==> Present(header) && StartsWith(header.value, BearerPrefix)
    ensures r.Some? ==> |Split(header.value, ' ')| >= 2 && r.value == Split(header.value, ' ')[1]
    ensures r.Some? ==> ' ' !in r.value
  {
    if header.Some? && StartsWith(header.value, BearerPrefix) then
      var rest := header.value[7..];
      BearerShape(header.value);
      SplitAfterSeparator("Bearer", rest, ' ');
      SplitFirst(rest, ' ');
      Some(TakeUntil(rest, ' '))
    else None
  }

  /** `Date.now() >= decoded.exp * 1000`; a missing `exp` makes the comparison with NaN false. */
  predicate Expired(exp: Option<int>, nowMs: int) {
    exp.Some? && nowMs >= exp.value * 1000
  }

  /**
   * `authMiddleware` on one request. `verify` is `jwt.verify` with the
   * server's secret at the current time: it yields the claims of a token it
   * accepts and nothing when it throws.
   */
  function Authenticate(header: Option<string>, verify: string -> Option<Claims>, nowMs: int, users: seq<User>): (r: AuthResult)
    ensures BearerToken(header).None? ==> r == Denied(401, "No token provided")
    ensures BearerToken(header).Some? && verify(BearerToken(header).value).None? ==> r == Denied(401, "Unauthorized request")
    ensures r.Admitted? <==>
              && BearerToken(header).Some?
              && verify(BearerToken(header).value).Some?
              && !Expired(verify(BearerToken(header).value).value.exp, nowMs)
              && verify(BearerToken(header).value).value.id.Some?
              && FindById(users, verify(BearerToken(header).value).value.id.value).Some?
    ensures BearerToken(header).Some? && verify(BearerToken(header).value).Some?
            && Expired(verify(BearerToken(header).value).value.exp, nowMs) ==>
              r == Denied(401, "Token expired")
    ensures BearerToken(header).Some? && verify(BearerToken(header).value).Some?
            && !Expired(verify(BearerToken(header).value).value.exp, nowMs)
            && (verify(BearerToken(header).value).value.id.None?
                || FindById(users, verify(BearerToken(header).value).value.id.value).None?) ==>
              r == Denied(404, "User not found")
    ensures r.Admitted? ==>
              exists u :: u in users && verify(BearerToken(header).value).value.id == Some(u.id)
                          && r.actor == Actor(u.id, None, None, u.role)
    ensures r.Denied? ==> r.status in {401, 404}
  {
    var token := BearerToken(header);
    if token.None? then Denied(401, "No token provided")
    else
      var decoded := verify(token.value);
      if decoded.None? then Denied(401, "Unauthorized request")
      else if Expired(decoded.value.exp, nowMs) then Denied(401, "Token expired")
      else
        var user := if decoded.value.id.Some? then FindById(users, decoded.value.id.value) else None;
        if user.None? then Denied(404, "User not found")
        else Admitted(Actor(user.value.id, None, None, user.value.role))
  }

  /** A malformed header is refused before the token, the clock or the users are consulted. */
  lemma {:induction false} BadHeaderShortCircuits(header: Option<string>,
      verify1: string -> Option<Claims>, now1: int, users1: seq<User>,
      verify2: string -> Option<Claims>, now2: int, users2: seq<User>)
    requires !Present(header) || !StartsWith(header.value, BearerPrefix)
    ensures Authenticate(header, verify1, now1, users1) == Authenticate(header, verify2, now2, users2)
    ensures Authenticate(header, verify1, now1, users1) == Denied(401, "No token provided")
  {
  }

  /** An expired token is refused whatever the user collection holds. */
  lemma {:induction false} ExpiryBeforeLookup(header: Option<string>, verify: string -> Option<Claims>, nowMs: int,
      users1: seq<User>, users2: seq<User>)
    requires BearerToken(header).Some? && verify(BearerToken(header).value).Some?
    requires Expired(verify(BearerToken(header).value).value.exp, nowMs)
    ensures Authenticate(header, verify, nowMs, users1) == Denied(401, "Token expired")
    ensures Authenticate(header, verify, nowMs, users2) == Denied(401, "Token expired")
  {
  }

  /** A token whose user has left the collection is refused with 404 even though it verifies. */
  lemma {:induction false} UnknownUserRefused(header: Option<string>, verify: string -> Option<Claims>, nowMs: int, users: seq<User>)
    requires BearerToken(header).Some? && verify(BearerToken(header).value).Some?
    requires !Expired(verify(BearerToken(header).value).value.exp, nowMs)
    requires forall u :: u in users ==> Some(u.id) != verify(BearerToken(header).value).value.id
    ensures Authenticate(header, verify, nowMs, users) == Denied(404, "User not found")
  {
  }

  /**
   * `jwt.verify` refuses a token whose `exp` is not after the current second,
   * `Math.floor(Date.now() / 1000)`.
   */
  ghost predicate HonestVerifier(verify: string -> Option<Claims>, nowMs: nat) {
    forall t :: verify(t).Some? && verify(t).value.exp.Some? ==> nowMs / 1000 < verify(t).value.exp.value
  }

  /** Seconds strictly after the current second are also strictly after the current millisecond. */
  lemma {:induction false} SecondsBound(nowMs: nat, exp: int)
    requires nowMs / 1000 < exp
    ensures nowMs < exp * 1000
  {
    assert nowMs == (nowMs / 1000) * 1000 + nowMs % 1000;
    assert nowMs / 1000 + 1 <= exp;
  }

  /** Under a verifier that checks expiry itself, the "Token expired" refusal is never given. */
  lemma {:induction false} HonestVerifierNeverReportsExpired(header: Option<string>, verify: string -> Option<Claims>,
      nowMs: nat, users: seq<User>)
    requires HonestVerifier(verify, nowMs)
    ensures Authenticate(header, verify, nowMs, users) != Denied(401, "Token expired")
  {
    var token := BearerToken(header);
    if token.Some? && verify(token.value).Some? && verify(token.value).value.exp.Some? {
      SecondsBound(nowMs, verify(token.value).value.exp.value);
    }
  }
}
