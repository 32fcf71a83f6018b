/**
 * `auth.service.ts`: registration and login. Registration refuses a taken email, stores a
 * new student with a hashed password, creates that student's empty profile and issues
 * an access and a refresh token. Login is a chain of guards over the user found by email,
 * then the same two tokens. Hashing, comparing and signing are parameters of the model.
 */
module AuthService {
  import opened Wrappers
  import opened Text
  import opened Queries
  import opened ObjectIds
  import opened Records
  import opened Database
  import opened StudentService

  // ---- tokens (jwt.util.ts) ----

  datatype TokenType = AccessToken | RefreshToken

  /** The claims of a signed token: the user's id as a string, the role and the token type. */
  datatype JwtPayload = JwtPayload(sub: string, role: Role, kind: TokenType)

  /** `JWT_ACCESS_SECRET` and `JWT_REFRESH_SECRET` from the environment. */
  datatype Secrets = Secrets(access: Option<string>, refresh: Option<string>)

  const AccessSecretMissingMessage: string := "JWT_ACCESS_SECRET not set"
  const RefreshSecretMissingMessage: string := "JWT_REFRESH_SECRET not set"

  datatype Tokens = Tokens(accessToken: string, refreshToken: string)

  /**
   * `signAccessToken(id, role)` then `signRefreshToken(id, role)`: each signs its payload
   * with its own secret and throws when that secret is unset or empty.
   */
  function IssueTokens(secrets: Secrets, sign: (JwtPayload, string) -> string, user: User): (r: Result<Tokens>)
    ensures !Given(secrets.access) ==> r == Failure(AccessSecretMissingMessage)
    ensures Given(secrets.access) && !Given(secrets.refresh) ==> r == Failure(RefreshSecretMissingMessage)
    ensures r.Success? <==> Given(secrets.access) && Given(secrets.refresh)
    ensures r.Success? ==>
      && r.value.accessToken == sign(JwtPayload(FormatObjectId(user.id), user.role, AccessToken), secrets.access.value)
      && r.value.refreshToken == sign(JwtPayload(FormatObjectId(user.id), user.role, RefreshToken), secrets.refresh.value)
  {
    if !Given(secrets.access) then Failure(AccessSecretMissingMessage)
    else if !Given(secrets.refresh) then Failure(RefreshSecretMissingMessage)
    else
      var sub := FormatObjectId(user.id);
      Success(Tokens(sign(JwtPayload(sub, user.role, AccessToken), secrets.access.value),
                     sign(JwtPayload(sub, user.role, RefreshToken), secrets.refresh.value)))
  }

  // ---- shared ----

  /** `{ user, accessToken, refreshToken }`. */
  datatype AuthResult = AuthResult(user: User, accessToken: string, refreshToken: string)

  function WithResult(user: User, tokens: Result<Tokens>): (r: Result<AuthResult>)
    ensures r.Success? <==> tokens.Success?
    ensures r.Failure? ==> r.error == tokens.error
    ensures r.Success? ==> r.value == AuthResult(user, tokens.value.accessToken, tokens.value.refreshToken)
  {
    match tokens
    case Failure(e) => Failure(e)
    case Success(t) => Success(AuthResult(user, t.accessToken, t.refreshToken))
  }

  /** `findOne({ email })`: the schema lowercases emails, both when storing and when querying. */
  function WithEmail(email: string): User -> bool {
    (u: User) => u.email == ToLower(email)
  }

  predicate EmailTaken(users: seq<User>, email: string) {
    exists k :: 0 <= k < |users| && users[k].email == ToLower(email)
  }

  /** `findOne({ email })` finds a user exactly when the email is taken. */
  lemma EmailTakenFound(users: seq<User>, email: string)
    ensures FirstIndex(users, WithEmail(email)) != -1 <==> EmailTaken(users, email)
  {
    var k := FirstIndex(users, WithEmail(email));
    if k != -1 {
      assert WithEmail(email)(users[k]);
    }
  }

  // ---- registerUser ----

  /** The request body; `role` is accepted but never used. */
  datatype RegisterInput = RegisterInput(name: string, email: string, password: string, role: string)

  const EmailInUseMessage: string := "Email already in use"

  /** The `User` schema's required paths after `trim` and `lowercase`, in schema order. */
  function UserRequiredError(name: string, email: string, passwordHash: string): (r: Option<string>)
    ensures r.None? <==> Trim(name) != "" && email != "" && passwordHash != ""
  {
    ValidationError("User",
      (if Trim(name) == "" then ["name"] else [])
      + (if email == "" then ["email"] else [])
      + (if passwordHash == "" then ["passwordHash"] else []))
  }

  /** The user `User.create` stores: always a student, active, email not verified. */
  function NewStudent(id: Id, input: RegisterInput, passwordHash: string, now: Time): (u: User)
    ensures u.id == id && u.role == Student && u.status == Active && !u.isEmailVerified
    ensures u.name == Trim(input.name) && u.email == ToLower(input.email) && u.passwordHash == passwordHash
    ensures u.createdAt == now
  {
    User(id, Trim(input.name), ToLower(input.email), passwordHash, Student, false, Active, now)
  }

  /**
   * `registerUser(input)`. The user is stored before the profile and the tokens: a clash on
   * the profile's unique `userId` or an unset secret fails the call after the user (and,
   * for the secret, the profile) has been written.
   */
  method RegisterUser(db: Db, input: RegisterInput, hash: string -> string, secrets: Secrets,
                      sign: (JwtPayload, string) -> string, now: Time) returns (r: Result<AuthResult>)
    modifies db`users, db`studentProfiles, db`nextId
    ensures EmailTaken(old(db.users), input.email) ==>
      && r == Failure(EmailInUseMessage)
      && db.users == old(db.users) && db.studentProfiles == old(db.studentProfiles) && db.nextId == old(db.nextId)
    ensures !EmailTaken(old(db.users), input.email) && UserRequiredError(input.name, ToLower(input.email), hash(input.password)).Some? ==>
      && r == Failure(UserRequiredError(input.name, ToLower(input.email), hash(input.password)).value)
      && db.users == old(db.users) && db.studentProfiles == old(db.studentProfiles) && db.nextId == old(db.nextId)
    ensures !EmailTaken(old(db.users), input.email) && UserRequiredError(input.name, ToLower(input.email), hash(input.password)).None? ==>
      var user := NewStudent(old(db.nextId), input, hash(input.password), now);
      && db.users == old(db.users) + [user]
      && (HasProfile(old(db.studentProfiles), user.id) ==>
            r == Failure(DuplicateKeyMessage) && db.studentProfiles == old(db.studentProfiles) && db.nextId == old(db.nextId) + 1)
      && (!HasProfile(old(db.studentProfiles), user.id) ==>
            && db.studentProfiles == old(db.studentProfiles) + [StudentProfile(old(db.nextId) + 1, user.id, EmptyProfileFields())]
            && db.nextId == old(db.nextId) + 2
            && r == WithResult(user, IssueTokens(secrets, sign, user)))
  {
    EmailTakenFound(db.users, input.email);
    if FirstIndex(db.users, WithEmail(input.email)) != -1 {
      return Failure(EmailInUseMessage);
    }
    var passwordHash := hash(input.password);
    var error := UserRequiredError(input.name, ToLower(input.email), passwordHash);
    if error.Some? {
      return Failure(error.value);
    }
    var user := NewStudent(db.nextId, input, passwordHash, now);
    db.users := db.users + [user];
    db.nextId := db.nextId + 1;
    if HasProfile(db.studentProfiles, user.id) {
      return Failure(DuplicateKeyMessage);
    }
    db.studentProfiles := db.studentProfiles + [StudentProfile(db.nextId, user.id, EmptyProfileFields())];
    db.nextId := db.nextId + 1;
    r := WithResult(user, IssueTokens(secrets, sign, user));
  }

  // ---- loginUser ----

  datatype LoginInput = LoginInput(email: string, password: string)

  const InvalidCredentialsMessage: string := "Invalid email or password"
  const NotActiveMessage: string := "Account is not active"

  /** `loginUser(input)`: find by email, refuse a non-active account, check the password, then sign. */
  function LoginUser(users: seq<User>, input: LoginInput, compare: (string, string) -> bool,
                     secrets: Secrets, sign: (JwtPayload, string) -> string): (r: Result<AuthResult>)
    ensures !EmailTaken(users, input.email) ==> r == Failure(InvalidCredentialsMessage)
  {
    match FindFirst(users, WithEmail(input.email))
    case None => Failure(InvalidCredentialsMessage)
    case Some(u) =>
      if u.status != Active then Failure(NotActiveMessage)
      else if !compare(input.password, u.passwordHash) then Failure(InvalidCredentialsMessage)
      else WithResult(u, IssueTokens(secrets, sign, u))
  }

  // ---- properties ----

  /** The account a login attempt is judged on: the first stored user with that email. */
  function LoginAccount(users: seq<User>, email: string): (r: Option<User>)
    ensures r.Some? <==> EmailTaken(users, email)
    ensures r.Some? ==> r.value in users && r.value.email == ToLower(email)
  {
    FindFirst(users, WithEmail(email))
  }

  /**
   * "Invalid email or password" is the answer exactly when no account has the email or the
   * account is active and the password does not match: a caller cannot tell the two apart.
   */
  lemma InvalidCredentialsCases(users: seq<User>, input: LoginInput, compare: (string, string) -> bool,
                                secrets: Secrets, sign: (JwtPayload, string) -> string)
    ensures var account := LoginAccount(users, input.email);
            (LoginUser(users, input, compare, secrets, sign) == Failure(InvalidCredentialsMessage))
              <==> (account.None? || (account.value.status == Active && !compare(input.password, account.value.passwordHash)))
  {
  }

  /** A non-active account is refused before the password is looked at: any password, any comparison, the same answer. */
  lemma NotActiveBeforePassword(users: seq<User>, email: string, password: string, password': string,
                                compare: (string, string) -> bool, compare': (string, string) -> bool,
                                secrets: Secrets, sign: (JwtPayload, string) -> string)
    requires LoginAccount(users, email).Some? && LoginAccount(users, email).value.status != Active
    ensures LoginUser(users, LoginInput(email, password), compare, secrets, sign) == Failure(NotActiveMessage)
    ensures LoginUser(users, LoginInput(email, password), compare, secrets, sign)
         == LoginUser(users, LoginInput(email, password'), compare', secrets, sign)
  {
  }

  /** A successful login is for a stored, active account whose password matched, with tokens for that account. */
  lemma LoginSuccess(users: seq<User>, input: LoginInput, compare: (string, string) -> bool,
                     secrets: Secrets, sign: (JwtPayload, string) -> string)
    requires LoginUser(users, input, compare, secrets, sign).Success?
    ensures var r := LoginUser(users, input, compare, secrets, sign).value;
            && r.user in users && r.user.email == ToLower(input.email)
            && r.user.status == Active && compare(input.password, r.user.passwordHash)
            && Given(secrets.access) && Given(secrets.refresh)
            && r.accessToken == sign(JwtPayload(FormatObjectId(r.user.id), r.user.role, AccessToken), secrets.access.value)
  {
  }

  /** Whoever registers can log in with the same email and password, as the student just stored. */
  lemma RegisterThenLogin(users: seq<User>, input: RegisterInput, id: Id, hash: string -> string,
                          compare: (string, string) -> bool, secrets: Secrets,
                          sign: (JwtPayload, string) -> string, now: Time)
    requires !EmailTaken(users, input.email)
    requires compare(input.password, hash(input.password))
    ensures var user := NewStudent(id, input, hash(input.password), now);
            LoginUser(users + [user], LoginInput(input.email, input.password), compare, secrets, sign)
              == WithResult(user, IssueTokens(secrets, sign, user))
  {
    var user := NewStudent(id, input, hash(input.password), now);
    FirstIndexAppend(users, WithEmail(input.email), user);
  }
}
