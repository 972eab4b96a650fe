/**
 * Registration and login (banking-api/routes/authRoutes.js): the token
 * generator, `POST /register` on the user store and `POST /login` as a
 * decision over the stored users.
 */
module AuthRoutes {
  import opened Common
  import opened Text
  import opened UserModel
  import opened AuthMiddleware

  /** `expiresIn: "1d"`, in seconds. */
  const TokenLifetime: nat := 86400

  /** The user fields a successful reply carries: never the password or the id number. */
  datatype PublicUser = PublicUser(id: ObjectId, fullName: string, accountNumber: string)

  datatype Reply =
    | Failure(status: int, error: string)
    | Success(status: int, message: string, token: string, user: PublicUser)

  function Public(u: User): PublicUser {
    PublicUser(u.id, u.fullName, u.accountNumber)
  }

  /** The claims `jwt.sign({ id }, secret, { expiresIn: "1d" })` writes at `nowMs`: `exp` is one day after `iat`. */
  function TokenClaims(id: ObjectId, nowMs: nat): (c: Claims)
    ensures c.id == Some(id) && c.exp.Some?
    ensures c.exp.value * 1000 > nowMs + 86399000
    ensures c.exp.value * 1000 <= nowMs + TokenLifetime * 1000
  {
    Claims(Some(id), Some(nowMs / 1000 + TokenLifetime))
  }

  /**
   * `generateToken(id)`: no token without a secret (an unset or empty
   * `JWT_SECRET` throws). `sign` stands for `jwt.sign`.
   */
  function GenerateToken(id: ObjectId, secret: Option<string>, nowMs: nat, sign: (Claims, string) -> string): (r: Option<string>)
    ensures r.Some? <==> Present(secret)
    ensures r.Some? ==> r.value == sign(TokenClaims(id, nowMs), secret.value)
  {
    if !Present(secret) then None
    else Some(sign(TokenClaims(id, nowMs), secret.value))
  }

  /**
   * `sign` and `verify` belong together under `secret` at time `nowMs`: a
   * token signed with unexpired claims verifies to those claims, and tokens
   * (base64url parts joined by dots) contain no space.
   */
  ghost predicate SignsFor(sign: (Claims, string) -> string, verify: string -> Option<Claims>, secret: string, nowMs: nat) {
    && (forall c: Claims :: c.exp.Some? && nowMs / 1000 < c.exp.value ==> verify(sign(c, secret)) == Some(c))
    && (forall c: Claims :: ' ' !in sign(c, secret))
  }

  /** A generated token verifies, until its day is over, to the id it was made for. */
  lemma {:induction false} TokenRoundTrip(id: ObjectId, secret: Option<string>, t0: nat, t1: nat,
      sign: (Claims, string) -> string, verify: string -> Option<Claims>)
    requires Present(secret)
    requires t1 / 1000 < t0 / 1000 + TokenLifetime
    requires SignsFor(sign, verify, secret.value, t1)
    ensures verify(GenerateToken(id, secret, t0, sign).value) == Some(TokenClaims(id, t0))
    ensures !Expired(TokenClaims(id, t0).exp, t1)
  {
    SecondsBound(t1, t0 / 1000 + TokenLifetime);
  }

  /** `fullName.trim().toLowerCase() === user.fullName.trim().toLowerCase()` */
  predicate NamesMatch(typed: string, stored: string) {
    Lower(Trim(typed)) == Lower(Trim(stored))
  }

  /**
   * `POST /login`: the three fields are required; the account number finds
   * the user; the full name must match ignoring case and surrounding white
   * space; the trimmed password must match the stored hash.
   */
  function Login(accountNumber: Option<string>, password: Option<string>, fullName: Option<string>,
      users: seq<User>, secret: Option<string>, nowMs: nat, sign: (Claims, string) -> string): (r: Reply)
    ensures !(Present(accountNumber) && Present(password) && Present(fullName)) ==>
              r == Failure(400, "All fields are required.")
    ensures Present(accountNumber) && Present(password) && Present(fullName) && FindByAccount(users, accountNumber.value).None? ==>
              r == Failure(404, "Invalid credentials.")
    ensures Present(accountNumber) && Present(password) && Present(fullName) && FindByAccount(users, accountNumber.value).Some?
            && !NamesMatch(fullName.value, FindByAccount(users, accountNumber.value).value.fullName) ==>
              r == Failure(401, "Full name does not match.")
    ensures Present(accountNumber) && Present(password) && Present(fullName) && FindByAccount(users, accountNumber.value).Some?
            && NamesMatch(fullName.value, FindByAccount(users, accountNumber.value).value.fullName)
            && !BcryptCompare(Trim(password.value), FindByAccount(users, accountNumber.value).value.password) ==>
              r == Failure(401, "Invalid credentials.")
    ensures Present(accountNumber) && Present(password) && Present(fullName) && FindByAccount(users, accountNumber.value).Some?
            && NamesMatch(fullName.value, FindByAccount(users, accountNumber.value).value.fullName)
            && BcryptCompare(Trim(password.value), FindByAccount(users, accountNumber.value).value.password)
            && !Present(secret) ==>
              r == Failure(500, "Internal server error.")
    ensures r.Success? <==>
              && Present(accountNumber) && Present(password) && Present(fullName)
              && FindByAccount(users, accountNumber.value).Some?
              && NamesMatch(fullName.value, FindByAccount(users, accountNumber.value).value.fullName)
              && BcryptCompare(Trim(password.value), FindByAccount(users, accountNumber.value).value.password)
              && Present(secret)
    ensures r.Success? ==>
              var u := FindByAccount(users, accountNumber.value).value;
              && u in users && u.accountNumber == accountNumber.value
              && r.status == 200 && r.message == "Login successful." && r.user == Public(u)
              && r.token == GenerateToken(u.id, secret, nowMs, sign).value
    ensures r.Failure? ==> r.status in {400, 401, 404, 500}
  {
    if !(Present(accountNumber) && Present(password) && Present(fullName)) then
      Failure(400, "All fields are required.")
    else
      var user := FindByAccount(users, accountNumber.value);
      if user.None? then Failure(404, "Invalid credentials.")
      else if !NamesMatch(fullName.value, user.value.fullName) then Failure(401, "Full name does not match.")
      else if !BcryptCompare(Trim(password.value), user.value.password) then Failure(401, "Invalid credentials.")
      else
        var token := GenerateToken(user.value.id, secret, nowMs, sign);
        if token.None? then Failure(500, "Internal server error.")
        else Success(200, "Login successful.", token.value, Public(user.value))
  }

  /** The name check ignores the case of the typed name and any white space around it. */
  lemma {:induction false} NameCheckIgnoresCaseAndPadding(typed: string, stored: string, pad1: string, pad2: string)
    requires AllSpace(pad1) && AllSpace(pad2)
    ensures NamesMatch(pad1 + Upper(Trim(typed)) + pad2, stored) <==> NamesMatch(typed, stored)
  {
    var t := Trim(typed);
    if t != [] {
      UpperKeepsSpace(t, 0);
      UpperKeepsSpace(t, |t| - 1);
    }
    TrimPadded(pad1, Upper(t), pad2);
    LowerUpper(t);
    TrimIdempotent(typed);
  }

  /**
   * A password stored with trailing white space can never be entered: the
   * typed password is trimmed before the comparison, so the stored user is
   * locked out whatever is typed.
   */
  lemma {:induction false} PaddedPasswordLocksOut(accountNumber: string, password: Option<string>, fullName: Option<string>,
      users: seq<User>, secret: Option<string>, nowMs: nat, sign: (Claims, string) -> string, pw: string)
    requires FindByAccount(users, accountNumber).Some?
    requires FindByAccount(users, accountNumber).value.password == BcryptHash(Plain(pw))
    requires pw != [] && IsSpace(pw[|pw| - 1])
    ensures !Login(Some(accountNumber), password, fullName, users, secret, nowMs, sign).Success?
  {
    if password.Some? {
      TrimmedNeverPadded(password.value, pw);
      var u := FindByAccount(users, accountNumber).value;
      assert !BcryptCompare(Trim(password.value), u.password);
    }
  }

  /** A trimmed string never ends in white space, so it is never `pw`. */
  lemma TrimmedNeverPadded(typed: string, pw: string)
    requires pw != [] && IsSpace(pw[|pw| - 1])
    ensures Trim(typed) != pw
  {
  }

  /**
   * An unknown account and a wrong password give the same message, but the
   * status code (404 against 401) still tells them apart.
   */
  lemma {:induction false} AccountProbeByStatus(accountNumber: string, fullName: string, password: string,
      known: seq<User>, unknown: seq<User>, secret: Option<string>, nowMs: nat, sign: (Claims, string) -> string)
    requires accountNumber != "" && fullName != "" && password != ""
    requires FindByAccount(unknown, accountNumber).None?
    requires FindByAccount(known, accountNumber).Some?
    requires NamesMatch(fullName, FindByAccount(known, accountNumber).value.fullName)
    requires !BcryptCompare(Trim(password), FindByAccount(known, accountNumber).value.password)
    ensures Login(Some(accountNumber), Some(password), Some(fullName), unknown, secret, nowMs, sign) == Failure(404, "Invalid credentials.")
    ensures Login(Some(accountNumber), Some(password), Some(fullName), known, secret, nowMs, sign) == Failure(401, "Invalid credentials.")
  {
  }

  /** A stored user's id finds that user when ids are unique. */
  lemma {:induction false} FindByIdOfMember(users: seq<User>, u: User)
    requires UniqueIds(users) && u in users
    ensures FindById(users, u.id) == Some(u)
  {
    var k :| 0 <= k < |users| && users[k] == u;
    FindByIdFindsMember(users, k);
  }

  /** The header `"Bearer " + token` carries `token` when the token has no space. */
  lemma {:induction false} BearerTokenOf(token: string)
    requires ' ' !in token
    ensures BearerToken(Some(BearerPrefix + token)) == Some(token)
  {
    var h := BearerPrefix + token;
    assert h[..7] == BearerPrefix;
    assert h[7..] == token;
    var r := TakeUntil(token, ' ');
    assert r == token;
  }

  /**
   * Logging in and then presenting the token as a bearer header, within the
   * token's day, admits the user who logged in with that user's role.
   */
  lemma {:induction false} LoginThenAuthenticate(accountNumber: Option<string>, password: Option<string>, fullName: Option<string>,
      users: seq<User>, secret: Option<string>, t0: nat, t1: nat,
      sign: (Claims, string) -> string, verify: string -> Option<Claims>)
    requires UniqueIds(users)
    requires Login(accountNumber, password, fullName, users, secret, t0, sign).Success?
    requires t1 / 1000 < t0 / 1000 + TokenLifetime
    requires SignsFor(sign, verify, secret.value, t1)
    ensures var r := Login(accountNumber, password, fullName, users, secret, t0, sign);
            var u := FindByAccount(users, accountNumber.value).value;
            Authenticate(Some(BearerPrefix + r.token), verify, t1, users) == Admitted(Actor(u.id, None, None, u.role))
  {
    var r := Login(accountNumber, password, fullName, users, secret, t0, sign);
    var u := FindByAccount(users, accountNumber.value).value;
    TokenRoundTrip(u.id, secret, t0, t1, sign, verify);
    assert ' ' !in sign(TokenClaims(u.id, t0), secret.value);
    BearerTokenOf(r.token);
    FindByIdOfMember(users, u);
  }

  /**
   * `POST /register`: the four fields are required and the account number
   * must be new; the new user is a customer whose password the pre-save hook
   * hashes. The user is saved before the token is made, so a missing secret
   * answers 500 with the user already stored.
   */
  method Register(store: UserStore, fullName: Option<string>, idNumber: Option<string>, accountNumber: Option<string>,
      password: Option<string>, secret: Option<string>, nowMs: nat, sign: (Claims, string) -> string) returns (r: Reply)
    requires store.Valid()
    modifies store
    ensures store.Valid()
    ensures !(Present(fullName) && Present(idNumber) && Present(accountNumber) && Present(password)) ==>
              r == Failure(400, "All fields are required.") && store.users == old(store.users)
              && store.nextSerial == old(store.nextSerial)
    ensures Present(fullName) && Present(idNumber) && Present(accountNumber) && Present(password)
            && accountNumber.value in Accounts(old(store.users)) ==>
              r == Failure(400, "Account number already registered.") && store.users == old(store.users)
              && store.nextSerial == old(store.nextSerial)
    ensures Present(fullName) && Present(idNumber) && Present(accountNumber) && Present(password)
            && accountNumber.value !in Accounts(old(store.users)) ==>
              var u := User(ObjectId(old(store.nextSerial)), fullName.value, idNumber.value, accountNumber.value,
                            BcryptHash(Plain(password.value)), Customer);
              && store.users == old(store.users) + [u]
              && store.nextSerial == old(store.nextSerial) + 1
              && r == (if Present(secret) then Success(201, "Registration successful.", GenerateToken(u.id, secret, nowMs, sign).value, Public(u))
                       else Failure(500, "Internal server error."))
  {
    if !(Present(fullName) && Present(idNumber) && Present(accountNumber) && Present(password)) {
      return Failure(400, "All fields are required.");
    }
    if FindByAccount(store.users, accountNumber.value).Some? {
      return Failure(400, "Account number already registered.");
    }
    var doc := new UserDocument(fullName.value, idNumber.value, accountNumber.value, Plain(password.value), Customer);
    var saved := store.Save(doc);
    assert saved.Ok?;
    var token := GenerateToken(saved.value.id, secret, nowMs, sign);
    if token.None? {
      return Failure(500, "Internal server error.");
    }
    r := Success(201, "Registration successful.", token.value, Public(saved.value));
  }

  /**
   * Registering and then logging in with the same account number, name and
   * password succeeds, provided the password has no surrounding white space.
   */
  lemma {:induction false} RegisterThenLogin(users: seq<User>, serial: nat, fullName: string, idNumber: string,
      accountNumber: string, password: string, secret: Option<string>, nowMs: nat, sign: (Claims, string) -> string)
    requires fullName != "" && accountNumber != "" && password != ""
    requires accountNumber !in Accounts(users)
    requires Present(secret)
    requires Trim(password) == password
    ensures var u := User(ObjectId(serial), fullName, idNumber, accountNumber, BcryptHash(Plain(password)), Customer);
            Login(Some(accountNumber), Some(password), Some(fullName), users + [u], secret, nowMs, sign)
              == Success(200, "Login successful.", GenerateToken(u.id, secret, nowMs, sign).value, Public(u))
  {
    var u := User(ObjectId(serial), fullName, idNumber, accountNumber, BcryptHash(Plain(password)), Customer);
    FindByAccountAppended(users, u);
  }

  /** Looking up an appended user's account number, new to the collection, finds that user. */
  lemma {:induction false} FindByAccountAppended(users: seq<User>, u: User)
    requires u.accountNumber !in Accounts(users)
    ensures FindByAccount(users + [u], u.accountNumber) == Some(u)
  {
    if users == [] {
      assert users + [u] == [u];
    } else {
      assert users[0] in users;
      assert (users + [u])[1..] == users[1..] + [u];
      assert u.accountNumber !in Accounts(users[1..]) by {
        forall v | v in users[1..] ensures v in users { }
      }
      FindByAccountAppended(users[1..], u);
    }
  }
}
