/**
 * Accounts and sessions: registration, login with a rotating refresh token
 * whose SHA-256 is the only copy kept, logout, and the password-reset flow
 * (a random token mailed as a link, stored only as its hash, usable once and
 * until it expires). The users collection is a sequence in insertion order,
 * so that `findOne` is the first matching document. bcrypt, jwt, SHA-256 and
 * the mail transport are supplied functions; the clock, the new document id
 * and the random reset token are parameters of each call.
 */
module AuthService {
  import opened Wrappers
  import opened Strings
  import opened Js
  import opened Common

  // ---------------------------------------------------------------------
  // Durations: `parseDurationToMs`
  // ---------------------------------------------------------------------

  /** A unit letter of `[smhd]`, after lower-casing. */
  predicate IsUnit(c: char) {
    c == 's' || c == 'm' || c == 'h' || c == 'd'
  }

  /** Milliseconds per unit. */
  function UnitMs(u: char): nat
    requires IsUnit(u)
  {
    match u
    case 's' => 1000
    case 'm' => 60000
    case 'h' => 3600000
    case 'd' => 86400000
  }

  /** `t.match(/^(\d+)\s*([smhd])$/i)`: the number the digits spell and the
      lower-cased unit, or `None` when `t` does not have that shape. */
  function MatchDuration(t: string): (r: Option<(nat, char)>)
    ensures r.Some? ==> IsUnit(r.value.1)
  {
    if |t| == 0 || !IsUnit(LowerChar(t[|t| - 1])) then None
    else
      var body := t[..|t| - 1];
      var digits := body[..|body| - TrailingSpaces(body)];
      if IsDigits(digits) then Some((DigitsValue(digits), LowerChar(t[|t| - 1]))) else None
  }

  /** Digits, then whitespace, then one unit letter in either case. */
  function DurationText(digits: string, gap: string, u: char): string {
    digits + gap + [u]
  }

  /** The language of the regular expression `^(\d+)\s*([smhd])$` with the `i` flag. */
  ghost predicate DurationSyntax(t: string) {
    exists digits: string, gap: string, u: char ::
      IsDigits(digits) && AllSpace(gap) && IsUnit(LowerChar(u)) && t == DurationText(digits, gap, u)
  }

  /** Whitespace after a non-space character is exactly the trailing whitespace. */
  lemma {:induction false} TrailingSpacesAfter(d: string, gap: string)
    requires |d| > 0 && !IsSpace(d[|d| - 1]) && AllSpace(gap)
    ensures TrailingSpaces(d + gap) == |gap|
    decreases |gap|
  {
    if |gap| == 0 {
      assert d + gap == d;
    } else {
      var s := d + gap;
      assert s[..|s| - 1] == d + gap[..|gap| - 1];
      TrailingSpacesAfter(d, gap[..|gap| - 1]);
    }
  }

  /** Every text of the regular expression's shape matches, with the value its digits spell. */
  lemma MatchDurationOfText(digits: string, gap: string, u: char)
    requires IsDigits(digits) && AllSpace(gap) && IsUnit(LowerChar(u))
    ensures MatchDuration(DurationText(digits, gap, u)) == Some((DigitsValue(digits), LowerChar(u)))
  {
    var t := DurationText(digits, gap, u);
    var body := t[..|t| - 1];
    assert body == digits + gap;
    assert IsDigit(digits[|digits| - 1]);
    TrailingSpacesAfter(digits, gap);
    assert body[..|body| - TrailingSpaces(body)] == digits;
  }

  /** The matcher accepts exactly the language of the regular expression. */
  lemma MatchDurationIff(t: string)
    ensures MatchDuration(t).Some? <==> DurationSyntax(t)
  {
    if MatchDuration(t).Some? {
      var body := t[..|t| - 1];
      var k := |body| - TrailingSpaces(body);
      var digits, gap, u := body[..k], body[k..], t[|t| - 1];
      assert AllSpace(gap) by {
        forall i | 0 <= i < |gap| ensures IsSpace(gap[i]) {
          assert gap[i] == body[k + i];
        }
      }
      assert t == DurationText(digits, gap, u);
    }
    if DurationSyntax(t) {
      var digits: string, gap: string, u: char :|
        IsDigits(digits) && AllSpace(gap) && IsUnit(LowerChar(u)) && t == DurationText(digits, gap, u);
      MatchDurationOfText(digits, gap, u);
    }
  }

  /** `parseDurationToMs(input, fallbackMs)`: a non-string or empty input,
      or a trimmed text outside the regular expression, gives the fallback. */
  function ParseDurationToMs(input: JsValue, fallbackMs: int): (ms: int)
    ensures !Truthy(input) || !input.Str? ==> ms == fallbackMs
    ensures input.Str? && !DurationSyntax(Trim(input.s)) ==> ms == fallbackMs
  {
    MatchDurationIff(if input.Str? then Trim(input.s) else "");
    if !Truthy(input) || !input.Str? then fallbackMs
    else
      match MatchDuration(Trim(input.s))
      case None => fallbackMs
      case Some((n, unit)) => n * UnitMs(unit)
  }

  /** A count written in decimal, optional whitespace and a unit letter
      (either case) parse to that many units. */
  lemma ParseDurationRoundTrip(n: nat, gap: string, u: char, fallbackMs: int)
    requires AllSpace(gap) && IsUnit(LowerChar(u))
    ensures ParseDurationToMs(Str(DurationText(NatToString(n), gap, u)), fallbackMs) == n * UnitMs(LowerChar(u))
  {
    var digits := NatToString(n);
    var t := DurationText(digits, gap, u);
    assert t[0] == digits[0] && IsDigit(digits[0]);
    assert t[|t| - 1] == u;
    TrimUnpadded(t);
    MatchDurationOfText(digits, gap, u);
    NatToStringValue(n);
  }

  /** Any text of the regular expression's shape, with any surrounding
      whitespace, parses to the number its digits spell (leading zeros
      included) times the unit's milliseconds. */
  lemma ParseDurationValue(input: string, digits: string, gap: string, u: char, fallbackMs: int)
    requires IsDigits(digits) && AllSpace(gap) && IsUnit(LowerChar(u))
    requires Trim(input) == DurationText(digits, gap, u)
    ensures ParseDurationToMs(Str(input), fallbackMs) == DigitsValue(digits) * UnitMs(LowerChar(u))
  {
    MatchDurationOfText(digits, gap, u);
  }

  const AccessFallbackMs: int := 15 * 60 * 1000
  const RefreshFallbackMs: int := 7 * 24 * 60 * 60 * 1000

  /** The cookie lifetimes `setAuthCookies` computes from
      `ACCESS_TOKEN_EXPIRES_IN || "15m"` and `REFRESH_TOKEN_EXPIRES_IN || "7d"`. */
  function CookieMaxAges(vars: Vars): (r: (int, int))
    ensures !("ACCESS_TOKEN_EXPIRES_IN" in vars && vars["ACCESS_TOKEN_EXPIRES_IN"] != "") ==>
              r.0 == ParseDurationToMs(Str("15m"), AccessFallbackMs)
  {
    (ParseDurationToMs(Str(EnvOr(vars, "ACCESS_TOKEN_EXPIRES_IN", "15m")), AccessFallbackMs),
     ParseDurationToMs(Str(EnvOr(vars, "REFRESH_TOKEN_EXPIRES_IN", "7d")), RefreshFallbackMs))
  }

  /** The default lifetimes and the fallbacks agree: without configuration
      the access cookie lives 15 minutes and the refresh cookie 7 days, and
      an unparseable setting gives the same. */
  lemma CookieDefaultsAgree(vars: Vars)
    requires "ACCESS_TOKEN_EXPIRES_IN" !in vars && "REFRESH_TOKEN_EXPIRES_IN" !in vars
    ensures CookieMaxAges(vars) == (AccessFallbackMs, RefreshFallbackMs)
  {
    assert NatToString(15) == "15";
    assert DurationText(NatToString(15), "", 'm') == "15m";
    ParseDurationRoundTrip(15, "", 'm', AccessFallbackMs);
    assert NatToString(7) == "7";
    assert DurationText(NatToString(7), "", 'd') == "7d";
    ParseDurationRoundTrip(7, "", 'd', RefreshFallbackMs);
  }

  // ---------------------------------------------------------------------
  // Users
  // ---------------------------------------------------------------------

  /** A User document. `null` fields are `None`; dates are milliseconds. */
  datatype User = User(
    id: string,
    email: string,
    passwordHash: string,
    refreshTokenHash: Option<string>,
    isAdmin: bool,
    resetTokenHash: Option<string>,
    resetExpiresAt: Option<int>,
    resetUsedAt: Option<int>)

  /** A new account: the schema defaults for everything but email and hash. */
  function NewUser(id: string, email: string, passwordHash: string): (u: User)
    ensures u.refreshTokenHash.None? && !u.isAdmin && u.resetTokenHash.None? && u.resetUsedAt.None?
  {
    User(id, email, passwordHash, None, false, None, None, None)
  }

  /** What `EmailService.sendPasswordReset` is given. */
  datatype ResetMail = ResetMail(to: string, resetUrl: string, expiresMinutes: real)

  /** The users collection in insertion order, and the reset mails sent. */
  datatype Tables = Tables(users: seq<User>, outbox: seq<ResetMail>)

  datatype Tokens = Tokens(accessToken: string, refreshToken: string)
  datatype Account = Account(id: string, email: string)

  /** `{ ok: false, status, message }` or `{ ok: true, status, data, tokens? }`. */
  datatype Reply =
    | Refused(status: int, message: string)
    | Granted(status: int, message: string, account: Option<Account>, tokens: Option<Tokens>)

  /** The collections after a call and what the call returned or threw. */
  datatype Step = Step(tables: Tables, result: Outcome<Reply>)

  /** `jwt.sign(payload, secret, { expiresIn })` */
  type TokenSigner = (JsValue, string, string) -> string

  /** The supplied primitives: environment, bcrypt (hash with cost 12 and
      compare), jwt (sign, and verify at the current time: the payload or
      `None` when it throws), SHA-256 in hex, and the mail transport's error
      for a message, if any. */
  datatype Crypto = Crypto(
    vars: Vars,
    hashPassword: string -> string,
    comparePassword: (string, string) -> bool,
    sign: TokenSigner,
    verify: (string, string) -> Option<JsValue>,
    sha256: string -> string,
    mailError: ResetMail -> Option<string>)

  /** The filters the service queries with. */
  datatype Query =
    | ByEmail(email: string)
    | ById(id: string)
    | Resettable(tokenHash: string, now: int)  // hash matches, expiry after now, not used

  predicate Matches(u: User, q: Query) {
    match q
    case ByEmail(e) => u.email == e
    case ById(id) => u.id == id
    case Resettable(h, now) =>
      u.resetTokenHash == Some(h) && u.resetExpiresAt.Some? && u.resetExpiresAt.value > now && u.resetUsedAt.None?
  }

  /** `User.findOne(filter)`: the first matching document's position. */
  function FindOne(users: seq<User>, q: Query): (r: Option<nat>)
    ensures r.Some? ==> r.value < |users| && Matches(users[r.value], q)
    ensures r.Some? ==> forall j :: 0 <= j < r.value ==> !Matches(users[j], q)
    ensures r.None? ==> forall j :: 0 <= j < |users| ==> !Matches(users[j], q)
  {
    if |users| == 0 then None
    else if Matches(users[0], q) then Some(0)
    else
      match FindOne(users[1..], q)
      case None => None
      case Some(k) => Some(k + 1)
  }

  /** No two accounts share an email (the schema's unique index). */
  ghost predicate UniqueEmails(users: seq<User>) {
    forall i, j :: 0 <= i < j < |users| ==> users[i].email != users[j].email
  }

  /** The same accounts: same ids, emails and roles, position by position. */
  ghost predicate SameAccounts(a: seq<User>, b: seq<User>) {
    |a| == |b| && forall j :: 0 <= j < |a| ==> a[j].id == b[j].id && a[j].email == b[j].email && a[j].isAdmin == b[j].isAdmin
  }

  /** `String(email).trim().toLowerCase()` */
  function NormalizeEmail(email: JsValue): string {
    Lower(Trim(ToStr(email)))
  }

  /** `a !== b` negated for request-body values: arrays and objects parsed
      from JSON are distinct references, so never strictly equal. */
  predicate StrictEquals(a: JsValue, b: JsValue) {
    a == b && !a.Arr? && !a.Obj?
  }

  /** `v.length < n`: only strings and arrays have a length, a string's in
      UTF-16 units; `undefined < n` is false. */
  predicate ShorterThan(v: JsValue, n: nat) {
    (v.Str? && Utf16Length(v.s) < n) || (v.Arr? && |v.items| < n)
  }

  /** `typeof v` */
  function TypeOf(v: JsValue): string {
    match v
    case Undefined => "undefined"
    case Null => "object"
    case Bool(_) => "boolean"
    case Num(_) => "number"
    case Str(_) => "string"
    case Arr(_) => "object"
    case Obj(_) => "object"
  }

  /** What bcryptjs throws for a password that is not a string. */
  function IllegalArguments(v: JsValue, second: string): Error {
    ScriptError("Error", "Illegal arguments: " + TypeOf(v) + ", " + second)
  }

  const CastFailure: Error := ScriptError("CastError", "Cast to ObjectId failed for value at path \"_id\" for model \"User\"")

  const EmailRequired: Error :=
    ValidationFailed("User validation failed: email: Path `email` is required.",
                     Obj(map["email" := Str("Path `email` is required.")]))

  /** `!process.env[k]` */
  predicate EnvSet(vars: Vars, k: string) {
    k in vars && vars[k] != ""
  }

  /** `mustEnv()`: the first of the two secrets that is unset. */
  function MustSecrets(vars: Vars): (r: Outcome<()>)
    ensures r.Ok? <==> EnvSet(vars, "ACCESS_TOKEN_SECRET") && EnvSet(vars, "REFRESH_TOKEN_SECRET")
    ensures !EnvSet(vars, "ACCESS_TOKEN_SECRET") ==> r == Err(ScriptError("Error", "ACCESS_TOKEN_SECRET missing in .env"))
  {
    if !EnvSet(vars, "ACCESS_TOKEN_SECRET") then Err(ScriptError("Error", "ACCESS_TOKEN_SECRET missing in .env"))
    else if !EnvSet(vars, "REFRESH_TOKEN_SECRET") then Err(ScriptError("Error", "REFRESH_TOKEN_SECRET missing in .env"))
    else Ok(())
  }

  function AccessClaims(u: User): JsValue {
    Obj(map["sub" := Str(u.id), "email" := Str(u.email)])
  }

  function RefreshClaims(u: User): JsValue {
    Obj(map["sub" := Str(u.id)])
  }

  /** `signAccessToken(user)` and `signRefreshToken(user)`: the access token
      carries the id and email, the refresh token only the id, each under its
      own secret and lifetime. */
  function IssueTokens(c: Crypto, u: User): (r: Outcome<Tokens>)
    ensures r.Ok? <==> MustSecrets(c.vars).Ok?
    ensures r.Ok? ==>
              r.value.refreshToken == c.sign(RefreshClaims(u), c.vars["REFRESH_TOKEN_SECRET"], EnvOr(c.vars, "REFRESH_TOKEN_EXPIRES_IN", "7d"))
    ensures r.Ok? ==>
              r.value.accessToken == c.sign(AccessClaims(u), c.vars["ACCESS_TOKEN_SECRET"], EnvOr(c.vars, "ACCESS_TOKEN_EXPIRES_IN", "15m"))
  {
    match MustSecrets(c.vars)
    case Err(e) => Err(e)
    case Ok(_) =>
      Ok(Tokens(
        c.sign(AccessClaims(u), c.vars["ACCESS_TOKEN_SECRET"], EnvOr(c.vars, "ACCESS_TOKEN_EXPIRES_IN", "15m")),
        c.sign(RefreshClaims(u), c.vars["REFRESH_TOKEN_SECRET"], EnvOr(c.vars, "REFRESH_TOKEN_EXPIRES_IN", "7d"))))
  }

  /** `verifyRefreshToken(token)` inside its try block: an unset secret and a
      non-string token throw as a bad signature does. */
  function VerifyRefreshToken(c: Crypto, token: JsValue): (r: Option<JsValue>)
    ensures r.Some? ==> MustSecrets(c.vars).Ok? && token.Str?
    ensures r.Some? ==> r == c.verify(token.s, c.vars["REFRESH_TOKEN_SECRET"])
  {
    if MustSecrets(c.vars).Err? || !token.Str? then None
    else c.verify(token.s, c.vars["REFRESH_TOKEN_SECRET"])
  }

  // ---------------------------------------------------------------------
  // register
  // ---------------------------------------------------------------------

  const RegisterFieldsMessage: string := "email, password, confirmPassword are required"
  const RegisterMismatchMessage: string := "password and confirmPassword do not match"
  const RegisterShortMessage: string := "password must be at least 8 characters"
  const EmailTakenMessage: string := "email already in use"
  const RegisteredMessage: string := "registered"

  /** `register({ email, password, confirmPassword })` with `newId` the id
      the database assigns. Only a successful registration changes the
      collection, by appending the new account. */
  function RegisterOutcome(t: Tables, c: Crypto, email: JsValue, password: JsValue, confirm: JsValue, newId: string): (s: Step)
    ensures s.result.Ok? && s.result.value.Granted? ==>
              && password.Str?
              && FindOne(t.users, ByEmail(NormalizeEmail(email))).None?
              && s.tables == t.(users := t.users + [NewUser(newId, NormalizeEmail(email), c.hashPassword(password.s))])
              && s.result.value == Granted(201, RegisteredMessage, Some(Account(newId, NormalizeEmail(email))), None)
    ensures !(s.result.Ok? && s.result.value.Granted?) ==> s.tables == t
  {
    if !Truthy(email) || !Truthy(password) || !Truthy(confirm) then Step(t, Ok(Refused(400, RegisterFieldsMessage)))
    else
      var normalized := NormalizeEmail(email);
      if !StrictEquals(password, confirm) then Step(t, Ok(Refused(400, RegisterMismatchMessage)))
      else if ShorterThan(password, 8) then Step(t, Ok(Refused(400, RegisterShortMessage)))
      else if FindOne(t.users, ByEmail(normalized)).Some? then Step(t, Ok(Refused(409, EmailTakenMessage)))
      else if !password.Str? then Step(t, Err(IllegalArguments(password, "number")))
      else if normalized == "" then Step(t, Err(EmailRequired))
      else
        var user := NewUser(newId, normalized, c.hashPassword(password.s));
        Step(t.(users := t.users + [user]), Ok(Granted(201, RegisteredMessage, Some(Account(newId, normalized)), None)))
  }

  /** The refusals come in the source's order: missing fields, then the
      mismatch, then the length, then the taken email. */
  lemma RegisterRefusals(t: Tables, c: Crypto, email: JsValue, password: JsValue, confirm: JsValue, newId: string)
    ensures var r := RegisterOutcome(t, c, email, password, confirm, newId).result;
            && (!Truthy(email) || !Truthy(password) || !Truthy(confirm) ==> r == Ok(Refused(400, RegisterFieldsMessage)))
            && (Truthy(email) && Truthy(password) && Truthy(confirm) && !StrictEquals(password, confirm) ==>
                  r == Ok(Refused(400, RegisterMismatchMessage)))
            && (Truthy(email) && StrictEquals(password, confirm) && Truthy(password) && password.Str? && Utf16Length(password.s) < 8 ==>
                  r == Ok(Refused(400, RegisterShortMessage)))
            && ((Truthy(email) && StrictEquals(password, confirm) && Truthy(password) && !ShorterThan(password, 8)
                 && FindOne(t.users, ByEmail(NormalizeEmail(email))).Some?) ==> r == Ok(Refused(409, EmailTakenMessage)))
  {
  }

  /** Registration keeps emails unique, and the new account can be found by
      any spelling of its email that trims and lower-cases to the same text. */
  lemma RegisterKeepsEmailsUnique(t: Tables, c: Crypto, email: JsValue, password: JsValue, confirm: JsValue, newId: string)
    requires UniqueEmails(t.users)
    ensures var s := RegisterOutcome(t, c, email, password, confirm, newId);
            && UniqueEmails(s.tables.users)
            && (s.result.Ok? && s.result.value.Granted? ==>
                  FindOne(s.tables.users, ByEmail(NormalizeEmail(email))) == Some(|t.users|))
  {
    var s := RegisterOutcome(t, c, email, password, confirm, newId);
    if s.result.Ok? && s.result.value.Granted? {
      var e := NormalizeEmail(email);
      FindAppended(t.users, s.tables.users[|t.users|], ByEmail(e));
    }
  }

  /** Searching a collection grown by one document finds the new document
      when nothing before it matched. */
  lemma FindAppended(users: seq<User>, u: User, q: Query)
    requires FindOne(users, q).None? && Matches(u, q)
    ensures FindOne(users + [u], q) == Some(|users|)
  {
    var r := FindOne(users + [u], q);
    assert (users + [u])[|users|] == u;
  }

  // ---------------------------------------------------------------------
  // login
  // ---------------------------------------------------------------------

  const LoginFieldsMessage: string := "email and password are required"
  const InvalidCredentials: string := "invalid credentials"
  const LoggedInMessage: string := "logged in"

  /** `login({ email, password })`: on success the account's stored refresh
      hash is the hash of the refresh token handed out, and nothing else changes. */
  function LoginOutcome(t: Tables, c: Crypto, email: JsValue, password: JsValue): (s: Step)
    ensures SameAccounts(t.users, s.tables.users) && s.tables.outbox == t.outbox
    ensures s.result.Ok? && s.result.value.Granted? ==>
              && FindOne(t.users, ByEmail(NormalizeEmail(email))).Some?
              && var i := FindOne(t.users, ByEmail(NormalizeEmail(email))).value;
                 && password.Str? && c.comparePassword(password.s, t.users[i].passwordHash)
                 && s.result.value.tokens.Some?
                 && s.tables.users == t.users[i := t.users[i].(refreshTokenHash := Some(c.sha256(s.result.value.tokens.value.refreshToken)))]
                 && s.result.value.account == Some(Account(t.users[i].id, t.users[i].email))
    ensures !(s.result.Ok? && s.result.value.Granted?) ==> s.tables == t
  {
    if !Truthy(email) || !Truthy(password) then Step(t, Ok(Refused(400, LoginFieldsMessage)))
    else
      match FindOne(t.users, ByEmail(NormalizeEmail(email)))
      case None => Step(t, Ok(Refused(401, InvalidCredentials)))
      case Some(i) =>
        if !password.Str? then Step(t, Err(IllegalArguments(password, "string")))
        else if !c.comparePassword(password.s, t.users[i].passwordHash) then Step(t, Ok(Refused(401, InvalidCredentials)))
        else
          match IssueTokens(c, t.users[i])
          case Err(e) => Step(t, Err(e))
          case Ok(tokens) =>
            var user := t.users[i].(refreshTokenHash := Some(c.sha256(tokens.refreshToken)));
            Step(t.(users := t.users[i := user]), Ok(Granted(200, LoggedInMessage, Some(Account(user.id, user.email)), Some(tokens))))
  }

  /** No account enumeration: an unknown email and a wrong password for a
      known one get the same reply and change nothing. */
  lemma LoginRefusalsAlike(t: Tables, c: Crypto, unknown: JsValue, known: JsValue, password: string)
    requires Truthy(unknown) && Truthy(known) && password != ""
    requires FindOne(t.users, ByEmail(NormalizeEmail(unknown))).None?
    requires var found := FindOne(t.users, ByEmail(NormalizeEmail(known)));
             found.Some? && !c.comparePassword(password, t.users[found.value].passwordHash)
    ensures LoginOutcome(t, c, unknown, Str(password)) == LoginOutcome(t, c, known, Str(password))
    ensures LoginOutcome(t, c, known, Str(password)) == Step(t, Ok(Refused(401, InvalidCredentials)))
  {
  }

  /** An account just registered can log in with its password, whatever the
      case and surrounding whitespace of the email, given that bcrypt accepts
      a password against its own hash and both secrets are set. */
  lemma RegisterThenLogin(t: Tables, c: Crypto, email: JsValue, password: JsValue, confirm: JsValue, newId: string, again: JsValue)
    requires UniqueEmails(t.users)
    requires RegisterOutcome(t, c, email, password, confirm, newId).result == Ok(Granted(201, RegisteredMessage, Some(Account(newId, NormalizeEmail(email))), None))
    requires Truthy(again) && NormalizeEmail(again) == NormalizeEmail(email)
    requires c.comparePassword(password.s, c.hashPassword(password.s))
    requires MustSecrets(c.vars).Ok?
    ensures var after := RegisterOutcome(t, c, email, password, confirm, newId).tables;
            var s := LoginOutcome(after, c, again, password);
            s.result.Ok? && s.result.value.Granted? && s.result.value.account == Some(Account(newId, NormalizeEmail(email)))
  {
    var after := RegisterOutcome(t, c, email, password, confirm, newId).tables;
    RegisterKeepsEmailsUnique(t, c, email, password, confirm, newId);
    var i := |t.users|;
    assert FindOne(after.users, ByEmail(NormalizeEmail(again))) == Some(i);
    assert after.users[i] == NewUser(newId, NormalizeEmail(email), c.hashPassword(password.s));
  }

  // ---------------------------------------------------------------------
  // refreshSession
  // ---------------------------------------------------------------------

  const MissingTokenMessage: string := "missing refresh token"
  const BadTokenMessage: string := "invalid or expired refresh token"
  const NoSessionMessage: string := "session not found"
  const RevokedMessage: string := "refresh token mismatch (session revoked)"
  const RefreshedMessage: string := "refreshed"

  /** `User.findById(payload.sub)`: `null` and `undefined` find nothing, a
      value that is not an ObjectId string is a cast error. */
  function FindSubject(users: seq<User>, sub: JsValue): (r: Outcome<Option<nat>>)
    ensures r.Err? <==> !IsNullish(sub) && !(sub.Str? && IsObjectId(sub.s))
    ensures r.Ok? && sub.Str? ==> r.value == FindOne(users, ById(sub.s))
    ensures r.Ok? && !sub.Str? ==> r.value.None?
  {
    if IsNullish(sub) then Ok(None)
    else if !(sub.Str? && IsObjectId(sub.s)) then Err(CastFailure)
    else Ok(FindOne(users, ById(sub.s)))
  }

  /** `!user.refreshTokenHash` */
  predicate NoSession(u: User) {
    u.refreshTokenHash.None? || u.refreshTokenHash.value == ""
  }

  /** `refreshSession(refreshToken)`: the token must verify, name an account
      with a live session, and hash to the stored hash; then both tokens are
      reissued and the stored hash replaced by the new refresh token's. */
  function RefreshOutcome(t: Tables, c: Crypto, token: JsValue): (s: Step)
    ensures SameAccounts(t.users, s.tables.users) && s.tables.outbox == t.outbox
    ensures !(s.result.Ok? && s.result.value.Granted?) ==> s.tables == t
    ensures s.result.Ok? && s.result.value.Granted? ==>
              && token.Str? && VerifyRefreshToken(c, token).Some?
              && var sub := Get(VerifyRefreshToken(c, token).value, "sub");
                 && sub.Str? && FindOne(t.users, ById(sub.s)).Some?
                 && var i := FindOne(t.users, ById(sub.s)).value;
                    && t.users[i].refreshTokenHash == Some(c.sha256(token.s))
                    && s.result.value.tokens.Some?
                    && s.tables.users == t.users[i := t.users[i].(refreshTokenHash := Some(c.sha256(s.result.value.tokens.value.refreshToken)))]
  {
    if !Truthy(token) then Step(t, Ok(Refused(401, MissingTokenMessage)))
    else
      match VerifyRefreshToken(c, token)
      case None => Step(t, Ok(Refused(401, BadTokenMessage)))
      case Some(payload) =>
        match FindSubject(t.users, Get(payload, "sub"))
        case Err(e) => Step(t, Err(e))
        case Ok(found) =>
          if found.None? || NoSession(t.users[found.value]) then Step(t, Ok(Refused(401, NoSessionMessage)))
          else if t.users[found.value].refreshTokenHash.value != c.sha256(token.s) then Step(t, Ok(Refused(401, RevokedMessage)))
          else RotateSession(t, c, found.value)
  }

  /** The rotation that ends `refreshSession`, for the account at `i`: the
      secrets were already needed to verify the token, so signing succeeds. */
  function RotateSession(t: Tables, c: Crypto, i: nat): (s: Step)
    requires i < |t.users| && MustSecrets(c.vars).Ok?
    ensures SameAccounts(t.users, s.tables.users) && s.tables.outbox == t.outbox
    ensures s.result.Ok? && s.result.value.Granted? && s.result.value.tokens.Some?
    ensures s.tables.users == t.users[i := t.users[i].(refreshTokenHash := Some(c.sha256(s.result.value.tokens.value.refreshToken)))]
  {
    var tokens := IssueTokens(c, t.users[i]).value;
    var user := t.users[i].(refreshTokenHash := Some(c.sha256(tokens.refreshToken)));
    Step(t.(users := t.users[i := user]), Ok(Granted(200, RefreshedMessage, None, Some(tokens))))
  }

  /** Rotation: once a refresh token has been exchanged, presenting it again
      is refused as revoked (unless the new token hashes the same), while the
      new token, verifying to the same account, is accepted. A SHA-256 digest
      in hex is never empty; the supplied digest is assumed so only here. */
  lemma RefreshRotates(t: Tables, c: Crypto, token: JsValue)
    requires var s := RefreshOutcome(t, c, token); s.result.Ok? && s.result.value.Granted?
    ensures var s := RefreshOutcome(t, c, token);
            var next := s.result.value.tokens.value.refreshToken;
            && (c.sha256(next) != c.sha256(token.s) && c.sha256(next) != "" ==>
                  RefreshOutcome(s.tables, c, token).result == Ok(Refused(401, RevokedMessage)))
            && (VerifyRefreshToken(c, Str(next)) == VerifyRefreshToken(c, token) && next != "" && c.sha256(next) != "" ==>
                  RefreshOutcome(s.tables, c, Str(next)).result.Ok?
                  && RefreshOutcome(s.tables, c, Str(next)).result.value.Granted?)
  {
    var s := RefreshOutcome(t, c, token);
    var sub := Get(VerifyRefreshToken(c, token).value, "sub");
    var i := FindOne(t.users, ById(sub.s)).value;
    FindOneSameAccounts(t.users, s.tables.users, sub.s);
    assert s.tables.users[i].refreshTokenHash == Some(c.sha256(s.result.value.tokens.value.refreshToken));
  }

  /** Collections with the same accounts answer an id query alike. */
  lemma FindOneSameAccounts(a: seq<User>, b: seq<User>, id: string)
    requires SameAccounts(a, b)
    ensures FindOne(a, ById(id)) == FindOne(b, ById(id))
  {
    var ra, rb := FindOne(a, ById(id)), FindOne(b, ById(id));
    if ra.Some? { assert Matches(b[ra.value], ById(id)); }
    if rb.Some? { assert Matches(a[rb.value], ById(id)); }
  }

  // ---------------------------------------------------------------------
  // logout
  // ---------------------------------------------------------------------

  /** `logout(userId)`: clears the stored refresh hash of that account; a
      falsy id does nothing, and an id that is not an ObjectId string throws. */
  function LogoutOutcome(t: Tables, userId: JsValue): (r: Outcome<Tables>)
    ensures !Truthy(userId) ==> r == Ok(t)
    ensures r.Ok? ==> SameAccounts(t.users, r.value.users) && r.value.outbox == t.outbox
    ensures r.Ok? && Truthy(userId) ==>
              userId.Str? && (FindOne(t.users, ById(userId.s)).None? ==> r.value == t)
    ensures r.Ok? && Truthy(userId) && FindOne(t.users, ById(userId.s)).Some? ==>
              var i := FindOne(t.users, ById(userId.s)).value;
              r.value.users == t.users[i := t.users[i].(refreshTokenHash := None)]
  {
    if !Truthy(userId) then Ok(t)
    else if !(userId.Str? && IsObjectId(userId.s)) then Err(CastFailure)
    else
      match FindOne(t.users, ById(userId.s))
      case None => Ok(t)
      case Some(i) => Ok(t.(users := t.users[i := t.users[i].(refreshTokenHash := None)]))
  }

  /** After logout no refresh token for that account is honoured, whatever
      its signature. */
  lemma LogoutEndsSession(t: Tables, c: Crypto, id: string, token: JsValue)
    requires LogoutOutcome(t, Str(id)).Ok? && id != "" && Truthy(token)
    requires VerifyRefreshToken(c, token).Some? && Get(VerifyRefreshToken(c, token).value, "sub") == Str(id)
    ensures RefreshOutcome(LogoutOutcome(t, Str(id)).value, c, token).result == Ok(Refused(401, NoSessionMessage))
  {
    var after := LogoutOutcome(t, Str(id)).value;
    FindOneSameAccounts(t.users, after.users, id);
  }

  // ---------------------------------------------------------------------
  // requestPasswordReset
  // ---------------------------------------------------------------------

  const ResetRequestedMessage: string := "If this email exists, a reset link has been sent."
  const ResetRequested: Reply := Granted(200, ResetRequestedMessage, None, None)

  const ExpiryCastFailure: Error :=
    ValidationFailed("User validation failed: passwordResetExpiresAt: Cast to date failed",
                     Obj(map["passwordResetExpiresAt" := Str("Cast to date failed")]))

  /** `Number(process.env.PASSWORD_RESET_EXPIRES_MINUTES || 30)`; NaN is `None`. */
  function ExpiresMinutes(vars: Vars): (m: Option<real>)
    ensures !EnvSet(vars, "PASSWORD_RESET_EXPIRES_MINUTES") ==> m == Some(30.0)
  {
    if EnvSet(vars, "PASSWORD_RESET_EXPIRES_MINUTES") then StringToNumber(vars["PASSWORD_RESET_EXPIRES_MINUTES"])
    else Some(30.0)
  }

  /** `new Date(x)` keeps the integral part of a millisecond count. */
  function TruncateMs(x: real): (ms: int)
    ensures x >= 0.0 ==> ms as real <= x < ms as real + 1.0
    ensures x < 0.0 ==> ms as real - 1.0 < x <= ms as real
  {
    if x >= 0.0 then x.Floor else -((-x).Floor)
  }

  /** `${CLIENT_ORIGIN}/reset-password?token=${rawToken}` */
  function ResetUrl(origin: string, rawToken: string): (url: string)
    ensures StartsWith(url, origin + "/reset-password?token=")
    ensures url[|origin| + 22..] == rawToken
  {
    origin + "/reset-password?token=" + rawToken
  }

  /** The account `requestPasswordReset` saves: a fresh token hash, an
      expiry `minutes` after now, and not used. */
  function ArmReset(u: User, tokenHash: string, now: int, minutes: real): (v: User)
    ensures v.resetTokenHash == Some(tokenHash) && v.resetUsedAt.None?
    ensures v.resetExpiresAt == Some(TruncateMs(now as real + minutes * 60000.0))
    ensures v.id == u.id && v.email == u.email && v.passwordHash == u.passwordHash
    ensures v.refreshTokenHash == u.refreshTokenHash && v.isAdmin == u.isAdmin
  {
    u.(resetTokenHash := Some(tokenHash), resetExpiresAt := Some(TruncateMs(now as real + minutes * 60000.0)), resetUsedAt := None)
  }

  /** `requestPasswordReset({ email })` at time `now` with `rawToken` the hex
      of the 32 random bytes. The reply is the same whether or not the
      account exists; only for an existing account is the reset armed and
      the link mailed to its stored address. A mail failure throws after the
      save. */
  function RequestResetOutcome(t: Tables, c: Crypto, email: JsValue, now: int, rawToken: string): (s: Step)
    ensures s.result.Ok? ==> s.result.value == ResetRequested && Truthy(email) && EnvSet(c.vars, "CLIENT_ORIGIN")
    ensures SameAccounts(t.users, s.tables.users)
    ensures s.tables != t ==> FindOne(t.users, ByEmail(NormalizeEmail(email))).Some?
    ensures s.result.Ok? && FindOne(t.users, ByEmail(NormalizeEmail(email))).Some? ==>
              var i := FindOne(t.users, ByEmail(NormalizeEmail(email))).value;
              && ExpiresMinutes(c.vars).Some? && EnvSet(c.vars, "CLIENT_ORIGIN")
              && s.tables.users == t.users[i := ArmReset(t.users[i], c.sha256(rawToken), now, ExpiresMinutes(c.vars).value)]
              && s.tables.outbox == t.outbox + [ResetMail(t.users[i].email, ResetUrl(c.vars["CLIENT_ORIGIN"], rawToken), ExpiresMinutes(c.vars).value)]
  {
    if !Truthy(email) then Step(t, Err(Http(400, "email is required")))
    else if !EnvSet(c.vars, "CLIENT_ORIGIN") then Step(t, Err(ScriptError("Error", "CLIENT_ORIGIN missing in .env")))
    else
      match FindOne(t.users, ByEmail(NormalizeEmail(email)))
      case None => Step(t, Ok(ResetRequested))
      case Some(i) =>
        match ExpiresMinutes(c.vars)
        case None => Step(t, Err(ExpiryCastFailure))
        case Some(minutes) => ArmAndMail(t, c, i, now, rawToken, minutes)
  }

  /** The save and the mail of `requestPasswordReset` for the account at `i`. */
  function ArmAndMail(t: Tables, c: Crypto, i: nat, now: int, rawToken: string, minutes: real): (s: Step)
    requires i < |t.users| && EnvSet(c.vars, "CLIENT_ORIGIN")
    ensures s.result.Ok? ==> s.result.value == ResetRequested
    ensures s.tables.users == t.users[i := ArmReset(t.users[i], c.sha256(rawToken), now, minutes)]
    ensures s.result.Ok? ==> s.tables.outbox == t.outbox + [ResetMail(t.users[i].email, ResetUrl(c.vars["CLIENT_ORIGIN"], rawToken), minutes)]
    ensures s.result.Err? ==> s.tables.outbox == t.outbox
  {
    var user := ArmReset(t.users[i], c.sha256(rawToken), now, minutes);
    var saved := t.(users := t.users[i := user]);
    var mail := ResetMail(user.email, ResetUrl(c.vars["CLIENT_ORIGIN"], rawToken), minutes);
    match c.mailError(mail)
    case Some(m) => Step(saved, Err(ScriptError("Error", m)))
    case None => Step(saved.(outbox := saved.outbox + [mail]), Ok(ResetRequested))
  }

  /** No account enumeration: asking for an unknown email and for a known
      one give the same reply when both succeed, and the unknown one changes
      nothing and mails nobody. */
  lemma ResetRequestsAlike(t: Tables, c: Crypto, unknown: JsValue, known: JsValue, now: int, rawToken: string)
    requires FindOne(t.users, ByEmail(NormalizeEmail(unknown))).None?
    requires RequestResetOutcome(t, c, known, now, rawToken).result.Ok?
    requires Truthy(unknown)
    ensures RequestResetOutcome(t, c, unknown, now, rawToken).result == RequestResetOutcome(t, c, known, now, rawToken).result
    ensures RequestResetOutcome(t, c, unknown, now, rawToken).tables == t
  {
  }

  // ---------------------------------------------------------------------
  // resetPassword
  // ---------------------------------------------------------------------

  const ResetFieldsMessage: string := "token, newPassword, confirmPassword are required"
  const ResetMismatchMessage: string := "newPassword and confirmPassword do not match"
  const ResetShortMessage: string := "newPassword must be at least 6 characters"
  const ResetInvalidMessage: string := "Invalid or expired reset token"
  const ResetDoneMessage: string := "Password reset successful. Please login again."

  /** The account `resetPassword` saves: the new password hash, the reset
      marked used and disarmed, and every session revoked. */
  function Redeem(u: User, passwordHash: string, now: int): (v: User)
    ensures v.id == u.id && v.email == u.email && v.isAdmin == u.isAdmin && v.passwordHash == passwordHash
    ensures v.resetUsedAt == Some(now) && v.resetTokenHash.None? && v.resetExpiresAt.None? && v.refreshTokenHash.None?
  {
    u.(passwordHash := passwordHash, resetUsedAt := Some(now), resetTokenHash := None, resetExpiresAt := None, refreshTokenHash := None)
  }

  /** `resetPassword({ token, newPassword, confirmPassword })` at time `now`:
      the first account whose stored hash is the token's, unexpired and
      unused, gets the new password. */
  function ResetOutcome(t: Tables, c: Crypto, token: JsValue, newPassword: JsValue, confirm: JsValue, now: int): (s: Step)
    ensures SameAccounts(t.users, s.tables.users) && s.tables.outbox == t.outbox
    ensures !(s.result.Ok? && s.result.value.Granted?) ==> s.tables == t
    ensures s.result.Err? ==> !s.result.error.HttpError? || s.result.error.status == 400
    ensures s.result.Ok? ==>
              && s.result.value == Granted(200, ResetDoneMessage, None, None)
              && newPassword.Str? && Utf16Length(newPassword.s) >= 6 && newPassword == confirm
              && FindOne(t.users, Resettable(c.sha256(ToStr(token)), now)).Some?
              && var i := FindOne(t.users, Resettable(c.sha256(ToStr(token)), now)).value;
                 s.tables.users == t.users[i := Redeem(t.users[i], c.hashPassword(newPassword.s), now)]
  {
    if !Truthy(token) || !Truthy(newPassword) || !Truthy(confirm) then Step(t, Err(Http(400, ResetFieldsMessage)))
    else if !StrictEquals(newPassword, confirm) then Step(t, Err(Http(400, ResetMismatchMessage)))
    else if ShorterThan(newPassword, 6) then Step(t, Err(Http(400, ResetShortMessage)))
    else
      match FindOne(t.users, Resettable(c.sha256(ToStr(token)), now))
      case None => Step(t, Err(Http(400, ResetInvalidMessage)))
      case Some(i) =>
        if !newPassword.Str? then Step(t, Err(IllegalArguments(newPassword, "number")))
        else
          var user := Redeem(t.users[i], c.hashPassword(newPassword.s), now);
          Step(t.(users := t.users[i := user]), Ok(Granted(200, ResetDoneMessage, None, None)))
  }

  /** Request and reset fit together: the token mailed for an account resets
      that account's password until the expiry, provided no earlier account
      holds the same live token hash. */
  lemma RequestThenReset(t: Tables, c: Crypto, email: JsValue, requested: int, rawToken: string,
                         newPassword: string, later: int)
    requires RequestResetOutcome(t, c, email, requested, rawToken).result.Ok?
    requires FindOne(t.users, ByEmail(NormalizeEmail(email))).Some?
    requires var i := FindOne(t.users, ByEmail(NormalizeEmail(email))).value;
             forall j :: 0 <= j < i ==> !Matches(t.users[j], Resettable(c.sha256(rawToken), later))
    requires rawToken != "" && Utf16Length(newPassword) >= 6
    requires later < TruncateMs(requested as real + ExpiresMinutes(c.vars).value * 60000.0)
    ensures var after := RequestResetOutcome(t, c, email, requested, rawToken).tables;
            var i := FindOne(t.users, ByEmail(NormalizeEmail(email))).value;
            var s := ResetOutcome(after, c, Str(rawToken), Str(newPassword), Str(newPassword), later);
            && s.result == Ok(Granted(200, ResetDoneMessage, None, None))
            && s.tables.users[i].passwordHash == c.hashPassword(newPassword)
  {
    var after := RequestResetOutcome(t, c, email, requested, rawToken).tables;
    var i := FindOne(t.users, ByEmail(NormalizeEmail(email))).value;
    ArmedTokenFound(t, c, email, requested, rawToken, later);
    ResetWithFoundToken(after, c, rawToken, newPassword, later, i);
  }

  /** A token whose hash an account holds, unexpired and unused, resets that
      account's password. */
  lemma ResetWithFoundToken(t: Tables, c: Crypto, rawToken: string, newPassword: string, now: int, i: nat)
    requires rawToken != "" && Utf16Length(newPassword) >= 6
    requires FindOne(t.users, Resettable(c.sha256(rawToken), now)) == Some(i)
    ensures i < |t.users|
    ensures var s := ResetOutcome(t, c, Str(rawToken), Str(newPassword), Str(newPassword), now);
            && s.result == Ok(Granted(200, ResetDoneMessage, None, None))
            && s.tables.users[i].passwordHash == c.hashPassword(newPassword)
  {
    assert ToStr(Str(rawToken)) == rawToken;
    assert StrictEquals(Str(newPassword), Str(newPassword));
  }

  /** The account a reset was requested for is the one its token finds. */
  lemma ArmedTokenFound(t: Tables, c: Crypto, email: JsValue, requested: int, rawToken: string, later: int)
    requires RequestResetOutcome(t, c, email, requested, rawToken).result.Ok?
    requires FindOne(t.users, ByEmail(NormalizeEmail(email))).Some?
    requires var i := FindOne(t.users, ByEmail(NormalizeEmail(email))).value;
             forall j :: 0 <= j < i ==> !Matches(t.users[j], Resettable(c.sha256(rawToken), later))
    requires later < TruncateMs(requested as real + ExpiresMinutes(c.vars).value * 60000.0)
    ensures var after := RequestResetOutcome(t, c, email, requested, rawToken).tables;
            FindOne(after.users, Resettable(c.sha256(rawToken), later)) == FindOne(t.users, ByEmail(NormalizeEmail(email)))
  {
    var after := RequestResetOutcome(t, c, email, requested, rawToken).tables;
    var i := FindOne(t.users, ByEmail(NormalizeEmail(email))).value;
    var q := Resettable(c.sha256(rawToken), later);
    assert Matches(after.users[i], q);
    forall j | 0 <= j < i
      ensures !Matches(after.users[j], q)
    {
      assert after.users[j] == t.users[j];
    }
    FindOneAt(after.users, q, i);
  }

  /** The first matching position is what `findOne` returns. */
  lemma FindOneAt(users: seq<User>, q: Query, i: nat)
    requires i < |users| && Matches(users[i], q)
    requires forall j :: 0 <= j < i ==> !Matches(users[j], q)
    ensures FindOne(users, q) == Some(i)
  {
  }

  /** A reset token works once: after a successful reset the account it
      redeemed no longer matches that token at any later time, and if no
      other account holds the same token the second attempt is refused. */
  lemma ResetSingleUse(t: Tables, c: Crypto, token: JsValue, newPassword: JsValue, confirm: JsValue, now: int,
                       again: JsValue, later: int)
    requires ResetOutcome(t, c, token, newPassword, confirm, now).result.Ok?
    requires forall j :: 0 <= j < |t.users| ==>
               (t.users[j].resetTokenHash != Some(c.sha256(ToStr(token))) ||
                FindOne(t.users, Resettable(c.sha256(ToStr(token)), now)) == Some(j))
    requires Truthy(again) && StrictEquals(again, newPassword) && Truthy(newPassword) && Truthy(confirm)
    ensures var after := ResetOutcome(t, c, token, newPassword, confirm, now).tables;
            ResetOutcome(after, c, token, newPassword, again, later) == Step(after, Err(Http(400, ResetInvalidMessage)))
  {
    var after := ResetOutcome(t, c, token, newPassword, confirm, now).tables;
    var h := c.sha256(ToStr(token));
    var i := FindOne(t.users, Resettable(h, now)).value;
    forall j | 0 <= j < |after.users|
      ensures !Matches(after.users[j], Resettable(h, later))
    {
      if j != i {
        assert after.users[j] == t.users[j];
      }
    }
  }

  /** A password reset revokes the account's session: no refresh token
      naming the account is honoured afterwards. */
  lemma ResetRevokesSessions(t: Tables, c: Crypto, token: JsValue, newPassword: JsValue, confirm: JsValue, now: int,
                             refresh: JsValue)
    requires ResetOutcome(t, c, token, newPassword, confirm, now).result.Ok?
    requires Truthy(refresh) && VerifyRefreshToken(c, refresh).Some?
    requires var i := FindOne(t.users, Resettable(c.sha256(ToStr(token)), now)).value;
             Get(VerifyRefreshToken(c, refresh).value, "sub") == Str(t.users[i].id) && IsObjectId(t.users[i].id)
    requires forall j, k :: 0 <= j < k < |t.users| ==> t.users[j].id != t.users[k].id
    ensures var after := ResetOutcome(t, c, token, newPassword, confirm, now).tables;
            RefreshOutcome(after, c, refresh).result == Ok(Refused(401, NoSessionMessage))
  {
    var after := ResetOutcome(t, c, token, newPassword, confirm, now).tables;
    var i := FindOne(t.users, Resettable(c.sha256(ToStr(token)), now)).value;
    var id := t.users[i].id;
    FindOneSameAccounts(t.users, after.users, id);
    var k := FindOne(t.users, ById(id)).value;
    assert k == i;
  }

  // ---------------------------------------------------------------------
  // The collection, updated in place
  // ---------------------------------------------------------------------

  /** The users collection and the mail outbox as the service mutates them:
      each operation looks documents up, assigns their fields and saves. */
  class Accounts {
    var users: seq<User>
    var outbox: seq<ResetMail>

    function Snapshot(): Tables
      reads this
    {
      Tables(users, outbox)
    }

    constructor (t: Tables)
      ensures Snapshot() == t
    {
      users := t.users;
      outbox := t.outbox;
    }

    method Register(c: Crypto, email: JsValue, password: JsValue, confirm: JsValue, newId: string) returns (r: Outcome<Reply>)
      modifies this
      ensures Step(Snapshot(), r) == RegisterOutcome(old(Snapshot()), c, email, password, confirm, newId)
    {
      if !Truthy(email) || !Truthy(password) || !Truthy(confirm) {
        return Ok(Refused(400, RegisterFieldsMessage));
      }
      var normalized := NormalizeEmail(email);
      if !StrictEquals(password, confirm) {
        return Ok(Refused(400, RegisterMismatchMessage));
      }
      if ShorterThan(password, 8) {
        return Ok(Refused(400, RegisterShortMessage));
      }
      var existing := FindOne(users, ByEmail(normalized));
      if existing.Some? {
        return Ok(Refused(409, EmailTakenMessage));
      }
      if !password.Str? {
        return Err(IllegalArguments(password, "number"));
      }
      if normalized == "" {
        return Err(EmailRequired);
      }
      var user := NewUser(newId, normalized, c.hashPassword(password.s));
      users := users + [user];
      return Ok(Granted(201, RegisteredMessage, Some(Account(newId, normalized)), None));
    }

    method Login(c: Crypto, email: JsValue, password: JsValue) returns (r: Outcome<Reply>)
      modifies this
      ensures Step(Snapshot(), r) == LoginOutcome(old(Snapshot()), c, email, password)
    {
      if !Truthy(email) || !Truthy(password) {
        return Ok(Refused(400, LoginFieldsMessage));
      }
      var found := FindOne(users, ByEmail(NormalizeEmail(email)));
      if found.None? {
        return Ok(Refused(401, InvalidCredentials));
      }
      var i := found.value;
      if !password.Str? {
        return Err(IllegalArguments(password, "string"));
      }
      if !c.comparePassword(password.s, users[i].passwordHash) {
        return Ok(Refused(401, InvalidCredentials));
      }
      var tokens := IssueTokens(c, users[i]);
      if tokens.Err? {
        return Err(tokens.error);
      }
      var user := users[i];
      user := user.(refreshTokenHash := Some(c.sha256(tokens.value.refreshToken)));
      users := users[i := user];
      return Ok(Granted(200, LoggedInMessage, Some(Account(user.id, user.email)), Some(tokens.value)));
    }

    method RefreshSession(c: Crypto, token: JsValue) returns (r: Outcome<Reply>)
      modifies this
      ensures Step(Snapshot(), r) == RefreshOutcome(old(Snapshot()), c, token)
    {
      if !Truthy(token) {
        return Ok(Refused(401, MissingTokenMessage));
      }
      var payload := VerifyRefreshToken(c, token);
      if payload.None? {
        return Ok(Refused(401, BadTokenMessage));
      }
      var found := FindSubject(users, Get(payload.value, "sub"));
      if found.Err? {
        return Err(found.error);
      }
      if found.value.None? || NoSession(users[found.value.value]) {
        return Ok(Refused(401, NoSessionMessage));
      }
      var i := found.value.value;
      if users[i].refreshTokenHash.value != c.sha256(token.s) {
        return Ok(Refused(401, RevokedMessage));
      }
      var tokens := IssueTokens(c, users[i]).value;
      var user := users[i];
      user := user.(refreshTokenHash := Some(c.sha256(tokens.refreshToken)));
      users := users[i := user];
      return Ok(Granted(200, RefreshedMessage, None, Some(tokens)));
    }

    method Logout(userId: JsValue) returns (r: Outcome<()>)
      modifies this
      ensures LogoutOutcome(old(Snapshot()), userId) == (if r.Ok? then Ok(Snapshot()) else Err(r.error))
      ensures r.Err? ==> Snapshot() == old(Snapshot())
    {
      if !Truthy(userId) {
        return Ok(());
      }
      if !(userId.Str? && IsObjectId(userId.s)) {
        return Err(CastFailure);
      }
      var found := FindOne(users, ById(userId.s));
      if found.Some? {
        var i := found.value;
        users := users[i := users[i].(refreshTokenHash := None)];
      }
      return Ok(());
    }

    method RequestPasswordReset(c: Crypto, email: JsValue, now: int, rawToken: string) returns (r: Outcome<Reply>)
      modifies this
      ensures Step(Snapshot(), r) == RequestResetOutcome(old(Snapshot()), c, email, now, rawToken)
    {
      if !Truthy(email) {
        return Err(Http(400, "email is required"));
      }
      if !EnvSet(c.vars, "CLIENT_ORIGIN") {
        return Err(ScriptError("Error", "CLIENT_ORIGIN missing in .env"));
      }
      var minutes := ExpiresMinutes(c.vars);
      var found := FindOne(users, ByEmail(NormalizeEmail(email)));
      if found.None? {
        return Ok(ResetRequested);
      }
      if minutes.None? {
        return Err(ExpiryCastFailure);
      }
      var i := found.value;
      var user := ArmReset(users[i], c.sha256(rawToken), now, minutes.value);
      users := users[i := user];
      var mail := ResetMail(user.email, ResetUrl(c.vars["CLIENT_ORIGIN"], rawToken), minutes.value);
      var failure := c.mailError(mail);
      if failure.Some? {
        return Err(ScriptError("Error", failure.value));
      }
      outbox := outbox + [mail];
      return Ok(ResetRequested);
    }

    method ResetPassword(c: Crypto, token: JsValue, newPassword: JsValue, confirm: JsValue, now: int) returns (r: Outcome<Reply>)
      modifies this
      ensures Step(Snapshot(), r) == ResetOutcome(old(Snapshot()), c, token, newPassword, confirm, now)
    {
      if !Truthy(token) || !Truthy(newPassword) || !Truthy(confirm) {
        return Err(Http(400, ResetFieldsMessage));
      }
      if !StrictEquals(newPassword, confirm) {
        return Err(Http(400, ResetMismatchMessage));
      }
      if ShorterThan(newPassword, 6) {
        return Err(Http(400, ResetShortMessage));
      }
      var tokenHash := c.sha256(ToStr(token));
      var found := FindOne(users, Resettable(tokenHash, now));
      if found.None? {
        return Err(Http(400, ResetInvalidMessage));
      }
      if !newPassword.Str? {
        return Err(IllegalArguments(newPassword, "number"));
      }
      var i := found.value;
      var user := users[i];
      user := user.(passwordHash := c.hashPassword(newPassword.s));
      user := user.(resetUsedAt := Some(now), resetTokenHash := None, resetExpiresAt := None);
      user := user.(refreshTokenHash := None);
      users := users[i := user];
      return Ok(Granted(200, ResetDoneMessage, None, None));
    }
  }
}
