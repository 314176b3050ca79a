/**
 * The account endpoints (nitrous-backend/handlers/auth.go): registration,
 * login and the current-user lookup over the store's users.
 *
 * The foreign calls are oracles. Password hashing and checking (bcrypt) and
 * token issue (`utils.GenerateJWT`) are the functions of a `Crypto` value;
 * the fresh id (`uuid.New()`) and the current time (`time.Now()`) are
 * parameters; the validator's e-mail syntax check is `isEmail`.
 */
module AuthHandlers {
  import opened Wrappers
  import opened Seqs
  import opened Models
  import opened Http
  import opened Database

  datatype Crypto = Crypto(
    hashPassword: string -> Option<string>,     // GenerateFromPassword at the default cost; None on error
    passwordMatches: (string, string) -> bool,  // CompareHashAndPassword(hash, password) returns nil
    generateToken: string -> Option<string>)    // GenerateJWT(userID); None on error

  /** The `{"user", "token"}` body of a successful registration or login. */
  datatype Session = Session(user: User, token: string)

  function RegisterRules(isEmail: string -> bool): RegisterRequest -> seq<FieldError>
  {
    req => RegisterErrors(req, isEmail)
  }

  function LoginRules(isEmail: string -> bool): LoginRequest -> seq<FieldError>
  {
    req => LoginErrors(req, isEmail)
  }

  /** A registration's reply together with the users it leaves behind. */
  datatype Enrolment = Enrolment(response: Response<Session>, users: seq<User>)

  /**
   * POST /auth/register over the users before it: bind, refuse a taken
   * e-mail (exact match), hash, append the new user, then issue a token.
   * A token failure comes after the append, so the user stays registered.
   */
  function Enrol(users: seq<User>, body: Payload<RegisterRequest>, isEmail: string -> bool,
                 crypto: Crypto, newId: string, now: Instant): (e: Enrolment)
    ensures e.response.Created? || e.response == ServerError("Failed to generate token") || e.users == users
    ensures e.users != users ==>
      && ShouldBind(body, RegisterRules(isEmail)).Success?
      && body.value.email !in UserEmails(users)
      && |e.users| == |users| + 1 && e.users[..|users|] == users
      && crypto.hashPassword(body.value.password).Some?
      && e.users[|users|] == User(newId, body.value.email, crypto.hashPassword(body.value.password).value,
                                  body.value.name, now)
    ensures e.response.Created? ==> e.users != users && e.response.value.user == e.users[|users|]
    ensures ShouldBind(body, RegisterRules(isEmail)).Failure? ==>
      e == Enrolment(BadRequest(ShouldBind(body, RegisterRules(isEmail)).error), users)
    ensures
      && ShouldBind(body, RegisterRules(isEmail)).Success?
      && body.value.email !in UserEmails(users)
      && crypto.hashPassword(body.value.password).Some?
      && crypto.generateToken(newId).Some?
      ==> e.response.Created?
  {
    match ShouldBind(body, RegisterRules(isEmail))
    case Failure(err) => Enrolment(BadRequest(err), users)
    case Success(req) =>
      if req.email in UserEmails(users) then Enrolment(Conflict("Email already registered"), users)
      else
        match crypto.hashPassword(req.password)
        case None => Enrolment(ServerError("Failed to hash password"), users)
        case Some(hash) =>
          var user := User(newId, req.email, hash, req.name, now);
          match crypto.generateToken(user.id)
          case None => Enrolment(ServerError("Failed to generate token"), users + [user])
          case Some(token) => Enrolment(Created(Session(user, token)), users + [user])
  }

  /** POST /auth/register. */
  method Register(db: Store, body: Payload<RegisterRequest>, isEmail: string -> bool,
                  crypto: Crypto, newId: string, now: Instant) returns (r: Response<Session>)
    modifies db`users
    ensures Enrolment(r, db.users) == Enrol(old(db.users), body, isEmail, crypto, newId, now)
    ensures old(db.Consistent()) ==> db.Consistent()
  {
    var bound := ShouldBind(body, RegisterRules(isEmail));
    if bound.Failure? {
      return BadRequest(bound.error);
    }
    var req := bound.value;
    var users := db.users;
    var i := 0;
    while i < |users|
      invariant 0 <= i <= |users|
      invariant req.email !in UserEmails(users)[..i]
    {
      if users[i].email == req.email {
        assert UserEmails(users)[i] == req.email;
        return Conflict("Email already registered");
      }
      assert UserEmails(users)[..i + 1] == UserEmails(users)[..i] + [users[i].email];
      i := i + 1;
    }
    assert UserEmails(users)[..i] == UserEmails(users);
    var hashed := crypto.hashPassword(req.password);
    if hashed.None? {
      return ServerError("Failed to hash password");
    }
    var newUser := User(newId, req.email, hashed.value, req.name, now);
    db.users := db.users + [newUser];
    if Distinct(UserEmails(users)) {
      RegisterKeepsEmailsDistinct(users, body, isEmail, crypto, newId, now);
    }
    var token := crypto.generateToken(newUser.id);
    if token.None? {
      return ServerError("Failed to generate token");
    }
    r := Created(Session(newUser, token.value));
  }

  /**
   * POST /auth/login over the users: the password is checked against the
   * first user with the e-mail; an unknown e-mail and a wrong password get
   * the same reply.
   */
  function Authenticate(users: seq<User>, body: Payload<LoginRequest>, isEmail: string -> bool,
                        crypto: Crypto): (r: Response<Session>)
    ensures r.Unauthorized? ==> r == Unauthorized("Invalid credentials")
    ensures r.Unauthorized? <==>
      && ShouldBind(body, LoginRules(isEmail)).Success?
      && var k := IndexOf(UserEmails(users), body.value.email);
         k < 0 || !crypto.passwordMatches(users[k].passwordHash, body.value.password)
    ensures r.Ok? ==>
      && ShouldBind(body, LoginRules(isEmail)).Success?
      && var k := IndexOf(UserEmails(users), body.value.email);
         0 <= k && r.value.user == users[k]
         && crypto.passwordMatches(users[k].passwordHash, body.value.password)
         && crypto.generateToken(users[k].id) == Some(r.value.token)
    ensures ShouldBind(body, LoginRules(isEmail)).Failure? ==>
      r == BadRequest(ShouldBind(body, LoginRules(isEmail)).error)
    ensures ShouldBind(body, LoginRules(isEmail)).Success? ==>
      var k := IndexOf(UserEmails(users), body.value.email);
      0 <= k && crypto.passwordMatches(users[k].passwordHash, body.value.password) ==>
        r == match crypto.generateToken(users[k].id)
             case None => ServerError("Failed to generate token")
             case Some(token) => Ok(Session(users[k], token))
  {
    match ShouldBind(body, LoginRules(isEmail))
    case Failure(err) => BadRequest(err)
    case Success(req) =>
      var k := IndexOf(UserEmails(users), req.email);
      if k < 0 then Unauthorized("Invalid credentials")
      else if !crypto.passwordMatches(users[k].passwordHash, req.password) then Unauthorized("Invalid credentials")
      else
        match crypto.generateToken(users[k].id)
        case None => ServerError("Failed to generate token")
        case Some(token) => Ok(Session(users[k], token))
  }

  /** POST /auth/login: never changes the users. */
  method Login(db: Store, body: Payload<LoginRequest>, isEmail: string -> bool, crypto: Crypto)
    returns (r: Response<Session>)
    ensures r == Authenticate(db.users, body, isEmail, crypto)
  {
    var bound := ShouldBind(body, LoginRules(isEmail));
    if bound.Failure? {
      return BadRequest(bound.error);
    }
    var req := bound.value;
    var foundUser: Option<User> := None;
    var users := db.users;
    var i := 0;
    while i < |users|
      invariant 0 <= i <= |users|
      invariant foundUser.None? && req.email !in UserEmails(users)[..i]
    {
      if users[i].email == req.email {
        IndexOfIs(UserEmails(users), req.email, i);
        foundUser := Some(users[i]);
        break;
      }
      assert UserEmails(users)[..i + 1] == UserEmails(users)[..i] + [users[i].email];
      i := i + 1;
    }
    if foundUser.None? {
      assert UserEmails(users)[..i] == UserEmails(users);
      return Unauthorized("Invalid credentials");
    }
    var user := foundUser.value;
    if !crypto.passwordMatches(user.passwordHash, req.password) {
      return Unauthorized("Invalid credentials");
    }
    var token := crypto.generateToken(user.id);
    if token.None? {
      return ServerError("Failed to generate token");
    }
    r := Ok(Session(user, token.value));
  }

  /**
   * GET /auth/me: `userId` is what the authentication middleware put in the
   * request context, if anything; the reply is the first user with that id.
   */
  method GetCurrentUser(db: Store, userId: Option<string>) returns (r: Response<User>)
    ensures userId.None? ==> r == Unauthorized("User not authenticated")
    ensures userId.Some? ==>
      var k := IndexOf(UserIds(db.users), userId.value);
      r == if k < 0 then NotFound("User not found") else Ok(db.users[k])
  {
    if userId.None? {
      return Unauthorized("User not authenticated");
    }
    var id := userId.value;
    var users := db.users;
    var i := 0;
    while i < |users|
      invariant 0 <= i <= |users|
      invariant id !in UserIds(users)[..i]
    {
      if users[i].id == id {
        IndexOfIs(UserIds(users), id, i);
        return Ok(users[i]);
      }
      assert UserIds(users)[..i + 1] == UserIds(users)[..i] + [users[i].id];
      i := i + 1;
    }
    assert UserIds(users)[..i] == UserIds(users);
    return NotFound("User not found");
  }

  /** A taken e-mail (exact match) is refused with Conflict, whatever the password and name, and nothing is added. */
  lemma RegisterConflicts(users: seq<User>, body: Payload<RegisterRequest>, isEmail: string -> bool,
                          crypto: Crypto, newId: string, now: Instant)
    ensures var e := Enrol(users, body, isEmail, crypto, newId, now);
      e.response.Conflict? <==>
        ShouldBind(body, RegisterRules(isEmail)).Success? && body.value.email in UserEmails(users)
    ensures var e := Enrol(users, body, isEmail, crypto, newId, now);
      !e.response.Created? && !(e.response == ServerError("Failed to generate token")) ==> e.users == users
  {
  }

  /**
   * A successful registration appends exactly one user, with the request's
   * e-mail and name, the fresh id, and the oracle's hash of the password,
   * and replies with that user and the token issued for it.
   */
  lemma RegisterAppendsUser(users: seq<User>, body: Payload<RegisterRequest>, isEmail: string -> bool,
                            crypto: Crypto, newId: string, now: Instant)
    requires Enrol(users, body, isEmail, crypto, newId, now).response.Created?
    ensures var e := Enrol(users, body, isEmail, crypto, newId, now);
      var req := body.value;
      && |e.users| == |users| + 1 && e.users[..|users|] == users
      && var u := e.users[|users|];
         && u.id == newId && u.email == req.email && u.name == req.name && u.createdAt == now
         && crypto.hashPassword(req.password) == Some(u.passwordHash)
         && e.response.value == Session(u, crypto.generateToken(newId).value)
  {
    var e := Enrol(users, body, isEmail, crypto, newId, now);
    assert e.users[..|users|] == users;
  }

  /** Registration's two internal failures: a hash failure adds nobody, a token failure keeps the new user. */
  lemma RegisterServerErrors(users: seq<User>, body: Payload<RegisterRequest>, isEmail: string -> bool,
                             crypto: Crypto, newId: string, now: Instant)
    requires ShouldBind(body, RegisterRules(isEmail)).Success? && body.value.email !in UserEmails(users)
    ensures var e := Enrol(users, body, isEmail, crypto, newId, now);
      crypto.hashPassword(body.value.password).None? ==>
        e == Enrolment(ServerError("Failed to hash password"), users)
    ensures var e := Enrol(users, body, isEmail, crypto, newId, now);
      crypto.hashPassword(body.value.password).Some? && crypto.generateToken(newId).None? ==>
        e.response == ServerError("Failed to generate token") && |e.users| == |users| + 1
        && e.users[|users|].email == body.value.email
  {
  }

  /** Registration keeps the stored e-mails pairwise distinct. */
  lemma RegisterKeepsEmailsDistinct(users: seq<User>, body: Payload<RegisterRequest>, isEmail: string -> bool,
                                    crypto: Crypto, newId: string, now: Instant)
    requires Distinct(UserEmails(users))
    ensures Distinct(UserEmails(Enrol(users, body, isEmail, crypto, newId, now).users))
  {
    var e := Enrol(users, body, isEmail, crypto, newId, now);
    if e.users != users {
      var u := e.users[|users|];
      assert e.users == users + [u];
      assert UserEmails(e.users) == UserEmails(users) + [u.email];
    }
  }

  /** Registering an e-mail that was just registered is refused, whatever the password and name. */
  lemma RegisterTwiceConflicts(users: seq<User>, first: Payload<RegisterRequest>, second: Payload<RegisterRequest>,
                               isEmail: string -> bool, crypto: Crypto, id1: string, id2: string,
                               t1: Instant, t2: Instant)
    requires Enrol(users, first, isEmail, crypto, id1, t1).response.Created?
    requires ShouldBind(second, RegisterRules(isEmail)).Success?
    requires second.value.email == first.value.email
    ensures var after := Enrol(users, first, isEmail, crypto, id1, t1).users;
      Enrol(after, second, isEmail, crypto, id2, t2) == Enrolment(Conflict("Email already registered"), after)
  {
    var after := Enrol(users, first, isEmail, crypto, id1, t1).users;
    RegisterAppendsUser(users, first, isEmail, crypto, id1, t1);
    assert UserEmails(after)[|users|] == first.value.email;
  }

  /**
   * Logging in with the e-mail and password just registered finds the new
   * user, provided the login-time bcrypt (`crypto2`) accepts the hash made at
   * registration. The token is issued afresh at login, so the reply is that
   * user with `crypto2`'s token for it, or the token failure.
   */
  lemma RegisterThenLogin(users: seq<User>, body: Payload<RegisterRequest>, isEmail: string -> bool,
                          crypto: Crypto, newId: string, now: Instant, crypto2: Crypto)
    requires Enrol(users, body, isEmail, crypto, newId, now).response.Created?
    requires var req := body.value;
      crypto2.passwordMatches(crypto.hashPassword(req.password).value, req.password)
    ensures var e := Enrol(users, body, isEmail, crypto, newId, now);
      var req := body.value;
      var u := e.response.value.user;
      u == e.users[|users|] && u.id == newId &&
      Authenticate(e.users, Decoded(LoginRequest(req.email, req.password)), isEmail, crypto2)
        == match crypto2.generateToken(newId)
           case None => ServerError("Failed to generate token")
           case Some(token) => Ok(Session(u, token))
  {
    var e := Enrol(users, body, isEmail, crypto, newId, now);
    var req := body.value;
    RegisterAppendsUser(users, body, isEmail, crypto, newId, now);
    assert UserEmails(e.users) == UserEmails(users) + [req.email];
    assert UserEmails(e.users)[..|users|] == UserEmails(users);
    IndexOfIs(UserEmails(e.users), req.email, |users|);
  }

  /** With a fresh id, the user just registered is the one GET /auth/me finds by that id. */
  lemma RegisterThenCurrentUser(users: seq<User>, body: Payload<RegisterRequest>, isEmail: string -> bool,
                                crypto: Crypto, newId: string, now: Instant)
    requires Enrol(users, body, isEmail, crypto, newId, now).response.Created?
    requires newId !in UserIds(users)
    ensures var e := Enrol(users, body, isEmail, crypto, newId, now);
      IndexOf(UserIds(e.users), newId) == |users| && e.users[|users|].email == body.value.email
  {
    var e := Enrol(users, body, isEmail, crypto, newId, now);
    RegisterAppendsUser(users, body, isEmail, crypto, newId, now);
    assert UserIds(e.users) == UserIds(users) + [newId];
    assert UserIds(e.users)[..|users|] == UserIds(users);
    IndexOfIs(UserIds(e.users), newId, |users|);
  }
}
