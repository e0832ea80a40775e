/**
 * The `register` and `login` handlers of the authentication controller.
 *
 * The user collection is a map from e-mail address (exact, case-sensitive, as
 * stored) to the user document; the role collection a map from role name to
 * role id, which the handlers only read. The code the handlers call but that
 * is not part of this model (bcrypt, jsonwebtoken, zod's e-mail check and the
 * default avatar of the user schema) is supplied as a `Config` value. Each
 * handler runs as one atomic step, and what it would write to the HTTP
 * response is its result: `NoResponse` when it only logs an exception.
 */
module Auth {
  import opened JsText
  import opened Validation

  datatype Option<T> = None | Some(value: T)

  type RoleId = string
  type Token = string

  /** The payload signed into the token: e-mail, role id, first and last name. */
  datatype Claims = Claims(email: string, roleId: RoleId, firstName: string, lastName: string)

  datatype Config = Config(
    hash: (string, string) -> string,   // bcrypt.hash(password, salt), salt of cost 10
    compare: (string, string) -> bool,  // bcrypt.compare(password, stored hash)
    sign: (Claims, int) -> Token,       // jwt.sign(payload, JWT_SECRET), which adds `iat`: the clock in seconds
    validEmail: string -> bool,         // zod's e-mail syntax check
    avatarDefault: Option<string>)      // avatarURL the user schema gives a new document

  /** bcrypt accepts the password a hash was made from, whatever the salt. */
  ghost predicate HashSound(cfg: Config) {
    forall p, salt :: cfg.compare(p, cfg.hash(p, salt))
  }

  /** bcrypt accepts no other password (no collisions): an idealisation of the
      one-way function, used only where a wrong password must be refused. */
  ghost predicate HashBinding(cfg: Config) {
    forall p, q, salt :: cfg.compare(q, cfg.hash(p, salt)) ==> q == p
  }

  /** A user document: `password` holds the bcrypt hash, never the plaintext. */
  datatype User = User(
    firstName: string, lastName: string, email: string,
    password: string, roleId: RoleId, token: Token, avatarURL: Option<string>)

  /** The user as the handlers send it back: no password. */
  datatype UserView = UserView(
    firstName: string, lastName: string, email: string, avatarURL: Option<string>, roleId: RoleId)

  function View(u: User): (v: UserView)
    ensures v.firstName == u.firstName && v.lastName == u.lastName && v.email == u.email
    ensures v.avatarURL == u.avatarURL && v.roleId == u.roleId
  {
    UserView(u.firstName, u.lastName, u.email, u.avatarURL, u.roleId)
  }

  function ClaimsOf(u: User): Claims {
    Claims(u.email, u.roleId, u.firstName, u.lastName)
  }

  datatype Payload =
    | Failure(error: string)
    | Created(message: string, user: UserView, auth: Token)
    | LoggedIn(message: string, user: UserView, token: Token)

  datatype Response = NoResponse | Respond(status: int, payload: Payload)

  const UserExists := Respond(402, Failure("User already exist"))
  const RoleMissing := Respond(404, Failure("Role 'user' does not exist"))
  const UnknownEmail := Respond(404, Failure("Email or password is wrong"))
  const BadPassword := Respond(401, Failure("Email or password is invalid"))

  /** 201: the document without its password, and its stored token. */
  function CreatedResponse(u: User): (r: Response)
    ensures r.Respond? && r.status == 201 && r.payload.Created?
    ensures r.payload.user == View(u) && r.payload.auth == u.token
  {
    Respond(201, Created("User created successfully", View(u), u.token))
  }

  /** 200: the document without its password, and its stored token. */
  function LoggedInResponse(u: User): (r: Response)
    ensures r.Respond? && r.status == 200 && r.payload.LoggedIn?
    ensures r.payload.user == View(u) && r.payload.token == u.token
  {
    Respond(200, LoggedIn("User logged in succesfully", View(u), u.token))
  }

  /** The document `User.create` receives for a validated registration: the
      trimmed names and e-mail, the hash of the trimmed password, the role id,
      and the token signed over e-mail, role id and names at time `now`. */
  function NewUser(cfg: Config, reg: Registration, roleId: RoleId, salt: string, now: int): (u: User)
    ensures u.email == reg.email && u.firstName == reg.firstName && u.lastName == reg.lastName
    ensures u.password == cfg.hash(reg.password, salt) && u.roleId == roleId
    ensures u.token == cfg.sign(Claims(reg.email, roleId, reg.firstName, reg.lastName), now)
    ensures u.token == cfg.sign(ClaimsOf(u), now)
  {
    var token := cfg.sign(Claims(reg.email, roleId, reg.firstName, reg.lastName), now);
    User(reg.firstName, reg.lastName, reg.email, cfg.hash(reg.password, salt), roleId, token, cfg.avatarDefault)
  }

  /** Every document sits under its own e-mail address. */
  ghost predicate KeyedByEmail(users: map<string, User>) {
    forall e | e in users :: users[e].email == e
  }

  /** Every stored token is the signature of its own document's claims, issued
      at some moment. */
  ghost predicate TokensSigned(cfg: Config, users: map<string, User>) {
    forall e | e in users :: exists iat :: users[e].token == cfg.sign(ClaimsOf(users[e]), iat)
  }

  /** The password a registration stores is accepted at login; with a binding
      hash, it is the only one. */
  lemma StoredHashAcceptsOnlyItsPassword(cfg: Config, reg: Registration, roleId: RoleId, salt: string, now: int, attempt: string)
    requires HashSound(cfg)
    ensures cfg.compare(reg.password, NewUser(cfg, reg, roleId, salt, now).password)
    ensures HashBinding(cfg) ==>
      (cfg.compare(attempt, NewUser(cfg, reg, roleId, salt, now).password) <==> attempt == reg.password)
  {
  }

  class AuthController {
    const cfg: Config
    const roles: map<string, RoleId>
    var users: map<string, User>

    ghost predicate Valid()
      reads this
    {
      KeyedByEmail(users)
    }

    constructor (cfg: Config, roles: map<string, RoleId>, users: map<string, User>)
      requires KeyedByEmail(users)
      ensures Valid()
      ensures this.cfg == cfg && this.roles == roles && this.users == users
    {
      this.cfg := cfg;
      this.roles := roles;
      this.users := users;
    }

    /** POST /sign-up. `salt` is the random salt bcrypt draws for this call and
        `now` the clock `jwt.sign` reads. */
    method Register(body: Json, salt: string, now: int) returns (resp: Response)
      requires Valid()
      modifies this
      ensures Valid()
      // a body the schema refuses: the ZodError is only logged
      ensures ValidateRegister(body, cfg.validEmail).Err? ==> resp == NoResponse && users == old(users)
      ensures ValidateRegister(body, cfg.validEmail).Ok? ==>
        var reg := ValidateRegister(body, cfg.validEmail).value;
        if reg.email in old(users) then
          resp == UserExists && users == old(users)
        else if "user" !in roles then
          resp == RoleMissing && users == old(users)
        else
          var u := NewUser(cfg, reg, roles["user"], salt, now);
          users == old(users)[reg.email := u] && resp == CreatedResponse(u)
      // the store changes exactly when 201 is sent, and then by one new key
      ensures (resp.Respond? && resp.status == 201) <==> users != old(users)
      ensures users != old(users) ==> |users| == |old(users)| + 1
      // no existing document is ever overwritten
      ensures forall e | e in old(users) :: e in users && users[e] == old(users)[e]
      ensures TokensSigned(cfg, old(users)) ==> TokensSigned(cfg, users)
    {
      var parsed := ValidateRegister(body, cfg.validEmail);
      if parsed.Err? {
        return NoResponse;
      }
      var reg := parsed.value;
      if reg.email in users {
        return UserExists;
      }
      if "user" !in roles {
        return RoleMissing;
      }
      var roleId := roles["user"];
      var encryptPassword := cfg.hash(reg.password, salt);
      var token := cfg.sign(Claims(reg.email, roleId, reg.firstName, reg.lastName), now);
      var user := User(reg.firstName, reg.lastName, reg.email, encryptPassword, roleId, token, cfg.avatarDefault);
      users := users[reg.email := user];
      resp := CreatedResponse(user);
    }

    /** POST /sign-in. Reads the store and never changes it. */
    method Login(body: Json) returns (resp: Response)
      requires Valid()
      ensures ValidateLogin(body, cfg.validEmail).Err? ==> resp == NoResponse
      ensures ValidateLogin(body, cfg.validEmail).Ok? ==>
        var cred := ValidateLogin(body, cfg.validEmail).value;
        if cred.email !in users then
          resp == UnknownEmail
        else if !cfg.compare(cred.password, users[cred.email].password) then
          resp == BadPassword
        else
          resp == LoggedInResponse(users[cred.email])
      // 200 is sent only for a stored user whose hash accepts the password,
      // and carries that user, with the e-mail asked for, and its stored token,
      // not a new one
      ensures resp.Respond? && resp.status == 200 ==>
        var cred := ValidateLogin(body, cfg.validEmail).value;
        && ValidateLogin(body, cfg.validEmail).Ok?
        && cred.email in users
        && cfg.compare(cred.password, users[cred.email].password)
        && resp.payload.user.email == cred.email
        && resp.payload.token == users[cred.email].token
    {
      var parsed := ValidateLogin(body, cfg.validEmail);
      if parsed.Err? {
        return NoResponse;
      }
      var cred := parsed.value;
      if cred.email !in users {
        return UnknownEmail;
      }
      var user := users[cred.email];
      var validateUser := cfg.compare(cred.password, user.password);
      if !validateUser {
        return BadPassword;
      }
      resp := LoggedInResponse(user);
    }
  }

  // ---------------------------------------------------------------------------
  // What a client sees across several requests

  /** A successful sign-up followed by a sign-in with the same body answers 200
      with the very token and user view the sign-up returned. */
  method RegisterThenLogin(c: AuthController, body: Json, salt: string, now: int) returns (created: Response, loggedIn: Response)
    requires c.Valid() && HashSound(c.cfg)
    requires ValidateRegister(body, c.cfg.validEmail).Ok?
    requires ValidateRegister(body, c.cfg.validEmail).value.email !in c.users
    requires "user" in c.roles
    modifies c
    ensures created.Respond? && created.status == 201 && created.payload.Created?
    ensures loggedIn == Respond(200, LoggedIn("User logged in succesfully", created.payload.user, created.payload.auth))
  {
    created := c.Register(body, salt, now);
    RegisterBodyPassesLogin(body, c.cfg.validEmail);
    loggedIn := c.Login(body);
  }

  /** Signing up twice with the same e-mail: the second attempt answers 402 and
      the store keeps the single document the first attempt left under it. */
  method RegisterTwice(c: AuthController, body: Json, again: Json, salt1: string, now1: int, salt2: string, now2: int)
    returns (first: Response, second: Response)
    requires c.Valid()
    requires ValidateRegister(body, c.cfg.validEmail).Ok?
    requires ValidateRegister(again, c.cfg.validEmail).Ok?
    requires ValidateRegister(again, c.cfg.validEmail).value.email == ValidateRegister(body, c.cfg.validEmail).value.email
    requires "user" in c.roles
    modifies c
    ensures second == UserExists
    // the first attempt alone decides the store: the second one changes nothing
    ensures
      var reg := ValidateRegister(body, c.cfg.validEmail).value;
      var u := NewUser(c.cfg, reg, c.roles["user"], salt1, now1);
      if reg.email in old(c.users) then
        first == UserExists && c.users == old(c.users)
      else
        first == CreatedResponse(u) && c.users == old(c.users)[reg.email := u]
  {
    first := c.Register(body, salt1, now1);
    ghost var between := c.users;
    second := c.Register(again, salt2, now2);
    assert c.users == between;
  }

  /** Once registered, a sign-in whose trimmed password differs from the one
      registered is refused with 401 (for a binding hash), and changes nothing. */
  method RegisterThenWrongPassword(c: AuthController, body: Json, attempt: Json, salt: string, now: int)
    returns (created: Response, refused: Response)
    requires c.Valid() && HashBinding(c.cfg)
    requires ValidateRegister(body, c.cfg.validEmail).Ok?
    requires ValidateRegister(body, c.cfg.validEmail).value.email !in c.users
    requires "user" in c.roles
    requires ValidateLogin(attempt, c.cfg.validEmail).Ok?
    requires ValidateLogin(attempt, c.cfg.validEmail).value.email == ValidateRegister(body, c.cfg.validEmail).value.email
    requires ValidateLogin(attempt, c.cfg.validEmail).value.password != ValidateRegister(body, c.cfg.validEmail).value.password
    modifies c
    ensures created.Respond? && created.status == 201
    ensures refused == BadPassword
    // the store holds the new document and nothing else changed
    ensures
      var reg := ValidateRegister(body, c.cfg.validEmail).value;
      c.users == old(c.users)[reg.email := NewUser(c.cfg, reg, c.roles["user"], salt, now)]
  {
    created := c.Register(body, salt, now);
    refused := c.Login(attempt);
  }
}
