/** `AuthService`: registration, login, refresh, two-factor enrolment and verification, and the
    session upsert `set_token`, over the user and token tables. */
module Auth {
  import opened Base
  import opened Jwt
  import opened Http
  import opened Js
  import opened Store
  import opened ResponseUtil

  const HOUR_MS := 60 * 60 * 1000
  const CONFIRMATION_TTL_MS := 24 * HOUR_MS
  const REFRESH_TTL_MS := 48 * HOUR_MS
  /** The access cookie lives two hours although the token it carries expires after one. */
  const ACCESS_COOKIE_MAX_AGE_MS := 60 * 60 * 2000
  const REFRESH_COOKIE_MAX_AGE_MS := 48 * HOUR_MS
  /** `speakeasy.generateSecret({ length: 25, ... })`. */
  const TOTP_SECRET_LENGTH := 25

  datatype CreateAuthDto = CreateAuthDto(name: string, email: string, password: string)

  /** The `data` of an auth response: a message, or the QR code of a new TOTP secret. */
  datatype AuthData = Message(text: string) | QrCode(qrCodeUrl: string)

  /** One `res.cookie(name, value, { maxAge })` call (the other attributes are HTTP plumbing). */
  datatype SetCookie = SetCookie(name: string, value: string, maxAgeMs: int)

  /** The `{ id, email }` that `set_token` reads from the user it is given. */
  datatype SessionUser = SessionUser(id: Id, email: string)

  /** What `speakeasy.generateSecret` returns: the base32 secret and its otpauth URI. */
  datatype TotpSecret = TotpSecret(base32: string, otpauthUrl: string)

  predicate EmailTaken(users: map<Id, User>, email: string) {
    exists k :: k in users && users[k].email == email
  }

  /** `findFirst({ where: { email } })`; the unique constraint on email makes the row unique. */
  ghost function UserWithEmail(users: map<Id, User>, email: string): (r: Option<Id>)
    ensures r.Some? <==> EmailTaken(users, email)
    ensures r.Some? ==> r.value in users && users[r.value].email == email
  {
    if EmailTaken(users, email) then var k :| k in users && users[k].email == email; Some(k) else None
  }

  /** The row `user.create` inserts on registration: the hashed password and the schema defaults
      (role USER, status PENDING, two-factor off, no family). */
  function NewUser(dto: CreateAuthDto, hash: string -> string): User {
    User(dto.name, dto.email, hash(dto.password), UserRole, Pending, false, None, None)
  }

  /** Some row already holds the key (`value`, `kind`) of the compound unique constraint. */
  predicate KeyTaken(tokens: map<Id, Token>, value: string, kind: TokenType) {
    exists k :: k in tokens && tokens[k].value == value && tokens[k].kind == kind
  }

  /** Some row other than `except` holds the key (`value`, `kind`). */
  predicate KeyTakenByOther(tokens: map<Id, Token>, value: string, kind: TokenType, except: Id) {
    exists k :: k in tokens && k != except && tokens[k].value == value && tokens[k].kind == kind
  }

  /** Inserting a non-REFRESH token under a free id with a free (value, type) key keeps the token
      table's constraints. */
  lemma InsertKeepsTokenInvariants(tokens: map<Id, Token>, id: Id, t: Token)
    requires UniqueTokenKeys(tokens) && AtMostOneRefresh(tokens)
    requires id !in tokens && !KeyTaken(tokens, t.value, t.kind) && t.kind != Refresh
    ensures UniqueTokenKeys(tokens[id := t]) && AtMostOneRefresh(tokens[id := t])
  {
  }

  /** `token.findFirst({ where: { user_id, type: 'REFRESH' } })`. */
  ghost function RefreshRowOf(tokens: map<Id, Token>, user: Id): (r: Option<Id>)
    ensures r.Some? ==> r.value in tokens && IsRefreshOf(tokens[r.value], user)
    ensures r.None? ==> forall k :: k in tokens ==> !IsRefreshOf(tokens[k], user)
  {
    if exists k :: k in tokens && IsRefreshOf(tokens[k], user)
    then var k :| k in tokens && IsRefreshOf(tokens[k], user); Some(k)
    else None
  }

  /** The refresh upsert of `set_token`: overwrite the value and expiry of the user's REFRESH row in
      place, or create one under `newId`; `None` when the write breaks a unique constraint (the
      nonce already used by another REFRESH row, or the new id taken), which throws. */
  ghost function UpsertRefresh(tokens: map<Id, Token>, user: Id, nonce: string, expiresAt: int, newId: Id): Option<map<Id, Token>> {
    match RefreshRowOf(tokens, user)
    case Some(k) =>
      if KeyTakenByOther(tokens, nonce, Refresh, k) then None
      else Some(tokens[k := tokens[k].(value := nonce, expiresAt := expiresAt)])
    case None =>
      if newId in tokens || KeyTaken(tokens, nonce, Refresh) then None
      else Some(tokens[newId := Token(Some(user), nonce, Refresh, expiresAt, None, None)])
  }

  /** The upsert keeps the database constraints and the one-refresh-row-per-user invariant, leaves
      the user holding exactly one REFRESH row with the new nonce and expiry, and touches no row
      that is not that user's REFRESH row. */
  lemma UpsertKeepsOneRefreshRow(tokens: map<Id, Token>, user: Id, nonce: string, expiresAt: int, newId: Id)
    requires AtMostOneRefresh(tokens) && UniqueTokenKeys(tokens)
    ensures var r := UpsertRefresh(tokens, user, nonce, expiresAt, newId);
            r.Some? ==>
              && AtMostOneRefresh(r.value)
              && UniqueTokenKeys(r.value)
              && (exists k :: k in r.value && IsRefreshOf(r.value[k], user) && r.value[k].value == nonce && r.value[k].expiresAt == expiresAt)
              && (forall k :: k in tokens && !IsRefreshOf(tokens[k], user) ==> k in r.value && r.value[k] == tokens[k])
              && (forall k :: k in r.value && !IsRefreshOf(r.value[k], user) ==> k in tokens)
  {
    var r := UpsertRefresh(tokens, user, nonce, expiresAt, newId);
    if r.Some? {
      var t := r.value;
      match RefreshRowOf(tokens, user)
      case Some(k) =>
        assert t == tokens[k := tokens[k].(value := nonce, expiresAt := expiresAt)];
        assert k in t && IsRefreshOf(t[k], user) && t[k].value == nonce;
        forall i, j | i in t && j in t && t[i].value == t[j].value && t[i].kind == t[j].kind
          ensures i == j
        {
          if i != k && j != k {
            assert tokens[i] == t[i] && tokens[j] == t[j];
          }
        }
      case None =>
        assert t == tokens[newId := Token(Some(user), nonce, Refresh, expiresAt, None, None)];
        assert newId in t && IsRefreshOf(t[newId], user);
        forall i, j | i in t && j in t && t[i].value == t[j].value && t[i].kind == t[j].kind
          ensures i == j
        {
          if i != newId && j != newId {
            assert tokens[i] == t[i] && tokens[j] == t[j];
          }
        }
    }
  }

  /** The token table after `set_token(user)`. `storeBound` says whether `this` inside the free
      function reaches the store: under the module's strict-mode compilation it is `undefined`, so
      `this.prisma` throws, the catch swallows it and nothing is written. A missing user (`user.id`
      of null) throws likewise. */
  ghost function SessionTokens(storeBound: bool, tokens: map<Id, Token>, user: Option<SessionUser>, nonce: string, expiresAt: int, newId: Id): map<Id, Token> {
    if !storeBound || user.None? then tokens
    else UpsertRefresh(tokens, user.value.id, nonce, expiresAt, newId).GetOr(tokens)
  }

  /** The claims `set_token` signs: subject and email, no role. */
  function SessionClaims(user: SessionUser): (c: Claims)
    ensures c.sub == Some(user.id) && c.role.None?
  {
    Claims(Some(user.id), Some(user.email), None)
  }

  /** The cookies `set_token(user)` sets: both, after a successful upsert and a successful signature
      (signing throws without a secret); none otherwise. */
  ghost function SessionCookies(storeBound: bool, tokens: map<Id, Token>, user: Option<SessionUser>, nonce: string, newId: Id, env: Env, sign: (Claims, string) -> string): seq<SetCookie> {
    if storeBound && user.Some? && UpsertRefresh(tokens, user.value.id, nonce, env.now.ms + REFRESH_TTL_MS, newId).Some? && env.jwtSecret != ""
    then [SetCookie("access_token", sign(SessionClaims(user.value), env.jwtSecret), ACCESS_COOKIE_MAX_AGE_MS),
          SetCookie("refresh_token", nonce, REFRESH_COOKIE_MAX_AGE_MS)]
    else []
  }

  /** The four-way decision of `login`, with the outcome of the password comparison as a parameter. */
  datatype LoginStep = UnknownEmail | BadCredentials | VerifyEmailFirst | NoConfirmationToken | TwoFactorRequired | IssueSession(user: SessionUser)

  /** The user owns at least one token (`userExists.tokens[0]` exists). */
  predicate HasAnyToken(tokens: map<Id, Token>, user: Id) {
    exists k :: k in tokens && tokens[k].userId == Some(user)
  }

  ghost function LoginDecision(users: map<Id, User>, tokens: map<Id, Token>, email: string, passwordAccepted: bool): LoginStep {
    match UserWithEmail(users, email)
    case None => UnknownEmail
    case Some(id) =>
      var u := users[id];
      if !passwordAccepted then BadCredentials
      else if u.status == Pending then (if HasAnyToken(tokens, id) then VerifyEmailFirst else NoConfirmationToken)
      else if u.is2FAEnabled then TwoFactorRequired
      else IssueSession(SessionUser(id, u.email))
  }

  /** The envelope `login` returns for each step (a PENDING user without tokens makes
      `tokens[0].token` throw, which the catch reports). */
  function LoginResponse(step: LoginStep, now: Time): ApiResponse<AuthData> {
    match step
    case UnknownEmail => Fail("User does not exist", now)
    case BadCredentials => Fail("Invalid Credentials", now)
    case VerifyEmailFirst => Fail("Verify email", now)
    case NoConfirmationToken => Fail("Error logging in", now)
    case TwoFactorRequired => Ok(Message("2FA Enabled"), now)
    case IssueSession(_) => Ok(Message("Login successful"), now)
  }

  /** A session is issued exactly for a known email whose password is accepted, whose account is
      ACTIVE and whose two-factor flag is off. */
  lemma SessionOnlyForActiveUsersWithout2FA(users: map<Id, User>, tokens: map<Id, Token>, email: string, passwordAccepted: bool)
    requires UniqueEmails(users)
    ensures LoginDecision(users, tokens, email, passwordAccepted).IssueSession? <==>
              exists k :: k in users && users[k].email == email && passwordAccepted
                          && users[k].status == Active && !users[k].is2FAEnabled
  {
    if exists k :: k in users && users[k].email == email && passwordAccepted && users[k].status == Active && !users[k].is2FAEnabled {
      var k :| k in users && users[k].email == email && passwordAccepted && users[k].status == Active && !users[k].is2FAEnabled;
      assert UserWithEmail(users, email) == Some(k);
    }
  }

  /** `bcrypt.compare` is not awaited, so `pass` is a Promise and always truthy: `login` runs the
      decision with every password accepted, and "Invalid Credentials" is never its answer. */
  lemma LoginAcceptsAnyPassword(users: map<Id, User>, tokens: map<Id, Token>, email: string)
    ensures LoginDecision(users, tokens, email, true) != BadCredentials
    ensures EmailTaken(users, email) ==> LoginResponse(LoginDecision(users, tokens, email, true), Time(0, "")).errors != Some([ErrorItem("Invalid Credentials", None)])
  {
  }

  /** With the comparison awaited, a wrong password for a known email ends in "Invalid Credentials",
      before the status or two-factor checks. */
  lemma AwaitedCompareRejectsWrongPassword(users: map<Id, User>, tokens: map<Id, Token>, email: string, now: Time)
    requires EmailTaken(users, email)
    ensures LoginDecision(users, tokens, email, false) == BadCredentials
    ensures LoginResponse(LoginDecision(users, tokens, email, false), now) == Fail("Invalid Credentials", now)
  {
  }

  /** The token a refresh row belongs to, as `include: { user: true }` loads it. */
  function TokenOwner(users: map<Id, User>, t: Token): Option<SessionUser> {
    if t.userId.Some? && t.userId.value in users then Some(SessionUser(t.userId.value, users[t.userId.value].email)) else None
  }

  /** A token with that value, of any type. */
  predicate HasTokenValue(tokens: map<Id, Token>, value: string) {
    exists k :: k in tokens && tokens[k].value == value
  }

  /** Two-factor verification calls the TOTP library with the stored secret as the token. When the
      library accepts only six-digit codes and the secret is not one (a base32 secret has letters),
      verification fails whatever the caller does. */
  predicate IsSixDigitCode(s: string) {
    |s| == 6 && forall i :: 0 <= i < 6 ==> '0' <= s[i] <= '9'
  }

  class AuthService {
    const prisma: Prisma

    constructor (prisma: Prisma)
      ensures this.prisma == prisma
    {
      this.prisma := prisma;
    }

    /** `set_token`, the module-level function that both issues the session cookies and upserts the
        REFRESH row; every failure inside it is swallowed, so callers report success either way. */
    method SetToken(storeBound: bool, user: Option<SessionUser>, nonce: string, newTokenId: Id, env: Env, sign: (Claims, string) -> string)
      returns (cookies: seq<SetCookie>)
      requires prisma.Valid()
      modifies prisma`tokens
      ensures prisma.Valid()
      ensures prisma.tokens == SessionTokens(storeBound, old(prisma.tokens), user, nonce, env.now.ms + REFRESH_TTL_MS, newTokenId)
      ensures cookies == SessionCookies(storeBound, old(prisma.tokens), user, nonce, newTokenId, env, sign)
    {
      if !storeBound || user.None? {
        return [];
      }
      var id := user.value.id;
      var expiresAt := env.now.ms + REFRESH_TTL_MS;
      UpsertKeepsOneRefreshRow(prisma.tokens, id, nonce, expiresAt, newTokenId);
      if exists k :: k in prisma.tokens && IsRefreshOf(prisma.tokens[k], id) {
        var k :| k in prisma.tokens && IsRefreshOf(prisma.tokens[k], id);
        assert RefreshRowOf(prisma.tokens, id) == Some(k);
        if exists j :: j in prisma.tokens && j != k && prisma.tokens[j].value == nonce && prisma.tokens[j].kind == TokenType.Refresh {
          return [];
        }
        prisma.tokens := prisma.tokens[k := prisma.tokens[k].(value := nonce, expiresAt := expiresAt)];
      } else {
        if newTokenId in prisma.tokens || exists j :: j in prisma.tokens && prisma.tokens[j].value == nonce && prisma.tokens[j].kind == TokenType.Refresh {
          return [];
        }
        prisma.tokens := prisma.tokens[newTokenId := Token(Some(id), nonce, TokenType.Refresh, expiresAt, None, None)];
      }
      if env.jwtSecret == "" {
        return [];
      }
      cookies := [SetCookie("access_token", sign(SessionClaims(user.value), env.jwtSecret), ACCESS_COOKIE_MAX_AGE_MS),
                  SetCookie("refresh_token", nonce, REFRESH_COOKIE_MAX_AGE_MS)];
    }

    /** `create` (register). An existing email is refused before anything is written; otherwise one
        PENDING user is inserted and then one CONFIRMATION token bound to it, expiring 24 hours from
        now. A failing insert (an id or the nonce already taken) is reported as "Error creating
        email"; a failing token insert leaves the new user in place. */
    method Create(dto: CreateAuthDto, hash: string -> string, newUserId: Id, nonce: string, newTokenId: Id, now: Time)
      returns (r: ApiResponse<AuthData>)
      requires prisma.Valid()
      modifies prisma`users, prisma`tokens
      ensures prisma.Valid()
      ensures EmailTaken(old(prisma.users), dto.email) ==>
                r == Fail("User already exists", now) && prisma.users == old(prisma.users) && prisma.tokens == old(prisma.tokens)
      ensures !EmailTaken(old(prisma.users), dto.email) && newUserId in old(prisma.users) ==>
                r == Fail("Error creating email", now) && prisma.users == old(prisma.users) && prisma.tokens == old(prisma.tokens)
      ensures !EmailTaken(old(prisma.users), dto.email) && newUserId !in old(prisma.users) ==>
                prisma.users == old(prisma.users)[newUserId := NewUser(dto, hash)]
      ensures !EmailTaken(old(prisma.users), dto.email) && newUserId !in old(prisma.users)
              && (newTokenId in old(prisma.tokens) || KeyTaken(old(prisma.tokens), nonce, Confirmation)) ==>
                r == Fail("Error creating email", now) && prisma.tokens == old(prisma.tokens)
      ensures !EmailTaken(old(prisma.users), dto.email) && newUserId !in old(prisma.users)
              && !(newTokenId in old(prisma.tokens) || KeyTaken(old(prisma.tokens), nonce, Confirmation)) ==>
                && r == Ok(Message("Verify Email"), now)
                && prisma.tokens == old(prisma.tokens)[newTokenId := Token(Some(newUserId), nonce, Confirmation, now.ms + CONFIRMATION_TTL_MS, None, None)]
    {
      if exists k :: k in prisma.users && prisma.users[k].email == dto.email {
        return Fail("User already exists", now);
      }
      if newUserId in prisma.users {
        return Fail("Error creating email", now);
      }
      prisma.users := prisma.users[newUserId := NewUser(dto, hash)];
      if newTokenId in prisma.tokens || exists j :: j in prisma.tokens && prisma.tokens[j].value == nonce && prisma.tokens[j].kind == Confirmation {
        return Fail("Error creating email", now);
      }
      var confirmation := Token(Some(newUserId), nonce, Confirmation, now.ms + CONFIRMATION_TTL_MS, None, None);
      InsertKeepsTokenInvariants(prisma.tokens, newTokenId, confirmation);
      prisma.tokens := prisma.tokens[newTokenId := confirmation];
      r := Ok(Message("Verify Email"), now);
    }

    /** `login`. The password is not checked (see `LoginAcceptsAnyPassword`); an unknown email, a
        PENDING account and a two-factor account change nothing and set no cookie; only an ACTIVE
        account without two-factor reaches `set_token`. */
    method Login(email: string, password: string, env: Env, sign: (Claims, string) -> string, storeBound: bool, nonce: string, newTokenId: Id)
      returns (r: ApiResponse<AuthData>, cookies: seq<SetCookie>)
      requires prisma.Valid()
      modifies prisma`tokens
      ensures prisma.Valid()
      ensures var step := LoginDecision(old(prisma.users), old(prisma.tokens), email, true);
              && r == LoginResponse(step, env.now)
              && (step.IssueSession? ==>
                    && prisma.tokens == SessionTokens(storeBound, old(prisma.tokens), Some(step.user), nonce, env.now.ms + REFRESH_TTL_MS, newTokenId)
                    && cookies == SessionCookies(storeBound, old(prisma.tokens), Some(step.user), nonce, newTokenId, env, sign))
              && (!step.IssueSession? ==> prisma.tokens == old(prisma.tokens) && cookies == [])
    {
      if !exists k :: k in prisma.users && prisma.users[k].email == email {
        return Fail("User does not exist", env.now), [];
      }
      var id :| id in prisma.users && prisma.users[id].email == email;
      assert UserWithEmail(prisma.users, email) == Some(id);
      var u := prisma.users[id];
      if u.status == Pending {
        if exists k :: k in prisma.tokens && prisma.tokens[k].userId == Some(id) {
          return Fail("Verify email", env.now), [];
        }
        return Fail("Error logging in", env.now), [];
      }
      if u.is2FAEnabled {
        return Ok(Message("2FA Enabled"), env.now), [];
      }
      cookies := SetToken(storeBound, Some(SessionUser(id, u.email)), nonce, newTokenId, env, sign);
      r := Ok(Message("Login successful"), env.now);
    }

    /** `refresh`. No jar: the read throws; a falsy cookie: "No refresh token"; a non-string cookie
        makes the query throw. Otherwise some token with that value is looked up — of any type, not
        only REFRESH — and none, or an expired one, gives "Invalid or Expired token" with nothing
        changed; a live one runs `set_token` for its owner and reports success. */
    method Refresh(req: Request, env: Env, sign: (Claims, string) -> string, storeBound: bool, nonce: string, newTokenId: Id)
      returns (r: ApiResponse<AuthData>, cookies: seq<SetCookie>)
      requires prisma.Valid()
      modifies prisma`tokens
      ensures prisma.Valid()
      ensures r.errors.Some? ==> prisma.tokens == old(prisma.tokens) && cookies == []
      ensures req.cookies.None? ==> r == Fail("Error returning access token", env.now)
      ensures var c := CookieProperty(req, "refresh_token");
              c.Some? && !Truthy(c.value) ==> r == Fail("No refresh token", env.now)
      ensures var c := CookieProperty(req, "refresh_token");
              c.Some? && Truthy(c.value) && !c.value.Str? ==> r == Fail("Error returning access token", env.now)
      ensures var c := CookieProperty(req, "refresh_token");
              c.Some? && Truthy(c.value) && c.value.Str? && !HasTokenValue(old(prisma.tokens), c.value.s) ==>
                r == Fail("Invalid or Expired token", env.now)
      ensures var c := CookieProperty(req, "refresh_token");
              c.Some? && Truthy(c.value) && c.value.Str? && HasTokenValue(old(prisma.tokens), c.value.s) ==>
                exists k :: k in old(prisma.tokens) && old(prisma.tokens)[k].value == c.value.s &&
                  if old(prisma.tokens)[k].expiresAt < env.now.ms then r == Fail("Invalid or Expired token", env.now)
                  else
                    var owner := TokenOwner(prisma.users, old(prisma.tokens)[k]);
                    && r == Ok(Message("Tokens refreshed"), env.now)
                    && prisma.tokens == SessionTokens(storeBound, old(prisma.tokens), owner, nonce, env.now.ms + REFRESH_TTL_MS, newTokenId)
                    && cookies == SessionCookies(storeBound, old(prisma.tokens), owner, nonce, newTokenId, env, sign)
    {
      var c := CookieProperty(req, "refresh_token");
      if c.None? {
        return Fail("Error returning access token", env.now), [];
      }
      var refresh := c.value;
      if !Truthy(refresh) {
        return Fail("No refresh token", env.now), [];
      }
      if !refresh.Str? {
        return Fail("Error returning access token", env.now), [];
      }
      if !exists k :: k in prisma.tokens && prisma.tokens[k].value == refresh.s {
        return Fail("Invalid or Expired token", env.now), [];
      }
      var k :| k in prisma.tokens && prisma.tokens[k].value == refresh.s;
      if prisma.tokens[k].expiresAt < env.now.ms {
        return Fail("Invalid or Expired token", env.now), [];
      }
      ghost var before := prisma.tokens;
      cookies := SetToken(storeBound, TokenOwner(prisma.users, prisma.tokens[k]), nonce, newTokenId, env, sign);
      r := Ok(Message("Tokens refreshed"), env.now);
      assert k in before && before[k].value == refresh.s && !(before[k].expiresAt < env.now.ms);
    }

    /** `enable_two_factor_auth` as written. A missing user gives "User does not exist". Otherwise a
        secret is generated and only its QR code (never the secret) is returned; the update that
        would store the secret and set the flag is not awaited, and a Prisma query runs only when
        awaited, so no table changes on any path. */
    method EnableTwoFactorAuth(userId: Id, generateSecret: (nat, string) -> TotpSecret, toDataUrl: string -> string, now: Time)
      returns (r: ApiResponse<AuthData>)
      ensures userId !in prisma.users ==> r == Fail("User does not exist", now)
      ensures userId in prisma.users ==>
                r == Ok(QrCode(toDataUrl(generateSecret(TOTP_SECRET_LENGTH, "Wealth Wave " + prisma.users[userId].email).otpauthUrl)), now)
    {
      if userId !in prisma.users {
        return Fail("User does not exist", now);
      }
      var secret := generateSecret(TOTP_SECRET_LENGTH, "Wealth Wave " + prisma.users[userId].email);
      r := Ok(QrCode(toDataUrl(secret.otpauthUrl)), now);
    }

    /** The same operation with the update awaited: the user row gets the flag and the base32
        secret, nothing else changes, and the response is the same. */
    method EnableTwoFactorAuthAwaited(userId: Id, generateSecret: (nat, string) -> TotpSecret, toDataUrl: string -> string, now: Time)
      returns (r: ApiResponse<AuthData>)
      requires prisma.Valid()
      modifies prisma`users
      ensures prisma.Valid()
      ensures userId !in old(prisma.users) ==> r == Fail("User does not exist", now) && prisma.users == old(prisma.users)
      ensures userId in old(prisma.users) ==>
                var secret := generateSecret(TOTP_SECRET_LENGTH, "Wealth Wave " + old(prisma.users)[userId].email);
                && r == Ok(QrCode(toDataUrl(secret.otpauthUrl)), now)
                && prisma.users == old(prisma.users)[userId := old(prisma.users)[userId].(is2FAEnabled := true, twoFactorSecret := Some(secret.base32))]
    {
      if userId !in prisma.users {
        return Fail("User does not exist", now);
      }
      var secret := generateSecret(TOTP_SECRET_LENGTH, "Wealth Wave " + prisma.users[userId].email);
      prisma.users := prisma.users[userId := prisma.users[userId].(is2FAEnabled := true, twoFactorSecret := Some(secret.base32))];
      r := Ok(QrCode(toDataUrl(secret.otpauthUrl)), now);
    }

    /** `verify_2fa(email)`. No user, two-factor off, or no (or an empty) secret: "2FA not enabled"
        and `set_token` is not called. Otherwise the TOTP library is asked to check the stored
        secret against itself — the caller supplies no code — and only a positive answer runs
        `set_token`. */
    method VerifyTwoFactor(email: string, totpVerify: (string, string, int) -> bool, env: Env, sign: (Claims, string) -> string, storeBound: bool, nonce: string, newTokenId: Id)
      returns (r: ApiResponse<AuthData>, cookies: seq<SetCookie>)
      requires prisma.Valid()
      modifies prisma`tokens
      ensures prisma.Valid()
      ensures r.errors.Some? ==> prisma.tokens == old(prisma.tokens) && cookies == []
      ensures var id := UserWithEmail(prisma.users, email);
              && ((id.None? || !prisma.users[id.value].is2FAEnabled || !TruthyStr(prisma.users[id.value].twoFactorSecret)) ==>
                    r == Fail("2FA not enabled", env.now))
              && (id.Some? && prisma.users[id.value].is2FAEnabled && TruthyStr(prisma.users[id.value].twoFactorSecret) ==>
                    var secret := prisma.users[id.value].twoFactorSecret.value;
                    var user := SessionUser(id.value, email);
                    && (!totpVerify(secret, secret, env.now.ms) ==> r == Fail("Invalid 2FA code", env.now))
                    && (totpVerify(secret, secret, env.now.ms) ==>
                          && r == Ok(Message("2FA Enabled"), env.now)
                          && prisma.tokens == SessionTokens(storeBound, old(prisma.tokens), Some(user), nonce, env.now.ms + REFRESH_TTL_MS, newTokenId)
                          && cookies == SessionCookies(storeBound, old(prisma.tokens), Some(user), nonce, newTokenId, env, sign)))
      ensures (forall s, t, n :: totpVerify(s, t, n) ==> IsSixDigitCode(t))
              && (forall k :: k in prisma.users && prisma.users[k].twoFactorSecret.Some? ==> !IsSixDigitCode(prisma.users[k].twoFactorSecret.value))
              ==> r.errors.Some?
    {
      if !exists k :: k in prisma.users && prisma.users[k].email == email {
        return Fail("2FA not enabled", env.now), [];
      }
      var id :| id in prisma.users && prisma.users[id].email == email;
      assert UserWithEmail(prisma.users, email) == Some(id);
      var u := prisma.users[id];
      if !u.is2FAEnabled || !TruthyStr(u.twoFactorSecret) {
        return Fail("2FA not enabled", env.now), [];
      }
      var secret := u.twoFactorSecret.value;
      if !totpVerify(secret, secret, env.now.ms) {
        return Fail("Invalid 2FA code", env.now), [];
      }
      cookies := SetToken(storeBound, Some(SessionUser(id, u.email)), nonce, newTokenId, env, sign);
      r := Ok(Message("2FA Enabled"), env.now);
    }
  }
}
