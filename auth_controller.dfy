/** The account handlers of controllers/authController.js: registration with its
    duplicate check, login, the password-reset token machine (issue with a throttle,
    verify, consume) and logout. The user collection is a sequence in stored order,
    so a lookup meets the first matching record as `findOne` does. bcrypt, sha256
    and JWT signing are parameters; so are the clock and the random reset token. */
module AuthController {
  import opened Common
  import Email

  const EmailTaken := "Email already registered."
  const UsernameTaken := "Username already taken."
  const Registered := "Registration successful"
  const InvalidCredentials := "Invalid credentials."
  const LoggedIn := "Login successful"
  const ForgotUnknown := "If an account exists, a password reset link will be generated."
  const ForgotIssued := "If an account exists, a reset link will be generated."
  const ResetThrottled := "A reset link has already been generated. Please wait before requesting another."
  const InvalidResetToken := "Invalid or expired reset token."
  const ValidResetToken := "Valid reset token."
  const PasswordReset := "Password has been reset successfully."
  const UserNotFound := "User not found"
  const LoggedOut := "Logged out successfully"

  /** A reset token is valid for one hour. */
  const ResetWindow := 3600000

  datatype UserRecord = UserRecord(
    id: UserId,
    username: string,
    email: string,
    password: string,
    resetPasswordToken: Option<string>,
    resetPasswordExpires: Option<int>,
    isOnline: bool,
    lastSeen: Option<int>)

  /** The fields the register and login replies show of a user. */
  datatype Profile = Profile(id: UserId, username: string, email: string)

  function ProfileOf(u: UserRecord): Profile {
    Profile(u.id, u.username, u.email)
  }

  /** A record read with `.select('-password')`: every field but the password hash,
      the reset fields included. */
  datatype UserView = UserView(
    id: UserId,
    username: string,
    email: string,
    resetPasswordToken: Option<string>,
    resetPasswordExpires: Option<int>,
    isOnline: bool,
    lastSeen: Option<int>)

  function WithoutPassword(u: UserRecord): UserView {
    UserView(u.id, u.username, u.email, u.resetPasswordToken, u.resetPasswordExpires, u.isOnline, u.lastSeen)
  }

  datatype Body =
    | Note(message: string)
    | ValidationErrors
    | Account(message: string, user: Profile)
    | ResetIssued(message: string, resetUrl: string)
    | UserBody(record: UserView)

  /** A reply; `cookie` is the `token` cookie set with it. */
  datatype AuthReply = AuthReply(status: nat, body: Body, cookie: Option<string>)

  /** `findOne({ resetPasswordToken: hashed, resetPasswordExpires: { $gt: now } })`. */
  predicate HoldsResetToken(u: UserRecord, hashed: string, now: int) {
    u.resetPasswordToken == Some(hashed) && u.resetPasswordExpires.Some? && u.resetPasswordExpires.value > now
  }

  /** `user.resetPasswordToken && user.resetPasswordExpires > Date.now()`. */
  predicate ResetPending(u: UserRecord, now: int) {
    Truthy(u.resetPasswordToken) && u.resetPasswordExpires.Some? && u.resetPasswordExpires.value > now
  }

  function FindByEmail(users: seq<UserRecord>, email: string): Option<nat> {
    FirstIndex(users, (u: UserRecord) => u.email == email)
  }

  function FindByResetToken(users: seq<UserRecord>, hashed: string, now: int): Option<nat> {
    FirstIndex(users, (u: UserRecord) => HoldsResetToken(u, hashed, now))
  }

  function FindById(users: seq<UserRecord>, id: UserId): Option<nat> {
    FirstIndex(users, (u: UserRecord) => u.id == id)
  }

  /** The record after `findByIdAndUpdate` with `$set: { password, resetPasswordToken:
      undefined, resetPasswordExpires: undefined }` on a driver that writes `undefined`
      as null (Mongoose 5): new hash, no token, no expiry. */
  function ClearedReset(u: UserRecord, newHash: string): (v: UserRecord)
    ensures v.password == newHash && v.resetPasswordToken == None && v.resetPasswordExpires == None
    ensures v.id == u.id && v.username == u.username && v.email == u.email
    ensures v.isOnline == u.isOnline && v.lastSeen == u.lastSeen
  {
    u.(password := newHash, resetPasswordToken := None, resetPasswordExpires := None)
  }

  /** A consumed token opens nothing: once the record that held it is cleared, and no
      other record holds the same hash, the lookup fails at any later time. */
  lemma ConsumedTokenRejected(users: seq<UserRecord>, k: nat, hashed: string, newHash: string, now: int, later: int)
    requires k < |users|
    requires forall j :: 0 <= j < |users| && j != k ==> users[j].resetPasswordToken != Some(hashed)
    ensures FindByResetToken(users[k := ClearedReset(users[k], newHash)], hashed, later).None?
  {
    var after := users[k := ClearedReset(users[k], newHash)];
    forall j | 0 <= j < |after| ensures !HoldsResetToken(after[j], hashed, later) {
      if j != k {
        assert after[j] == users[j];
      }
    }
  }

  /** The same update on a driver that drops `undefined` keys from an update
      (Mongoose 6 and later): only the hash changes, and the token and its expiry stay. */
  function StrippedReset(u: UserRecord, newHash: string): (v: UserRecord)
    ensures v.password == newHash
    ensures v.resetPasswordToken == u.resetPasswordToken && v.resetPasswordExpires == u.resetPasswordExpires
    ensures v.id == u.id && v.username == u.username && v.email == u.email
    ensures v.isOnline == u.isOnline && v.lastSeen == u.lastSeen
  {
    u.(password := newHash)
  }

  /** The record a successful reset leaves, on either kind of driver. */
  function AfterReset(u: UserRecord, newHash: string, stripsUndefined: bool): UserRecord {
    if stripsUndefined then StrippedReset(u, newHash) else ClearedReset(u, newHash)
  }

  /** When the driver drops the `undefined` keys, a used token is not consumed: until
      it expires it still finds a record, which therefore stays pending, so a new
      reset request is throttled. */
  lemma StrippedTokenSurvives(users: seq<UserRecord>, k: nat, hashed: string, newHash: string, now: int, later: int)
    requires k < |users| && HoldsResetToken(users[k], hashed, now)
    requires later < users[k].resetPasswordExpires.value
    ensures FindByResetToken(users[k := StrippedReset(users[k], newHash)], hashed, later).Some?
    ensures hashed != "" ==> ResetPending(StrippedReset(users[k], newHash), later)
  {
    var after := users[k := StrippedReset(users[k], newHash)];
    assert HoldsResetToken(after[k], hashed, later);
  }

  class AuthApi {
    var users: seq<UserRecord>
    /** Whether the database driver drops `undefined` keys from an update (Mongoose 6
        and later) instead of writing them as null (Mongoose 5). The installed version
        is not fixed by the repository, so it is a parameter. */
    const stripsUndefined: bool

    /** Record ids are unique. */
    ghost predicate Valid()
      reads this
    {
      forall i, j :: 0 <= i < j < |users| ==> users[i].id != users[j].id
    }

    constructor (users: seq<UserRecord>, stripsUndefined: bool)
      ensures this.users == users && this.stripsUndefined == stripsUndefined
    {
      this.users := users;
      this.stripsUndefined := stripsUndefined;
    }

    /** `register`. `valid` is the outcome of the request's validation rules, `id` the
        new record's identifier, `hash` bcrypt with its salt, `sign` the JWT signer.
        A record sharing the email or the username (the first such) blocks it; the
        message names the email exactly when that record's email is the one given.
        The new record's other fields are taken as unset (the User schema is not part
        of this model). */
    method Register(valid: bool, username: string, email: string, password: string, id: UserId,
                    hash: string -> string, sign: UserId -> string) returns (r: AuthReply)
      requires Valid()
      requires forall i :: 0 <= i < |users| ==> users[i].id != id
      modifies this
      ensures Valid()
      ensures !valid ==> r == AuthReply(400, ValidationErrors, None) && users == old(users)
      ensures valid ==>
                match FirstIndex(old(users), (u: UserRecord) => u.email == email || u.username == username)
                case Some(k) =>
                  users == old(users)
                  && r == AuthReply(400, Note(if old(users)[k].email == email then EmailTaken else UsernameTaken), None)
                case None =>
                  var u := UserRecord(id, username, email, hash(password), None, None, false, None);
                  users == old(users) + [u] && r == AuthReply(201, Account(Registered, ProfileOf(u)), Some(sign(id)))
    {
      if !valid {
        return AuthReply(400, ValidationErrors, None);
      }
      var existing := FirstIndex(users, (u: UserRecord) => u.email == email || u.username == username);
      if existing.Some? {
        var k := existing.value;
        return AuthReply(400, Note(if users[k].email == email then EmailTaken else UsernameTaken), None);
      }
      var u := UserRecord(id, username, email, hash(password), None, None, false, None);
      users := users + [u];
      r := AuthReply(201, Account(Registered, ProfileOf(u)), Some(sign(id)));
    }

    /** `login`: an unknown email and a wrong password get the same 401 reply.
        `matches(password, hash)` is `bcrypt.compare`. */
    method Login(email: string, password: string, matches: (string, string) -> bool, sign: UserId -> string)
      returns (r: AuthReply)
      ensures match FindByEmail(users, email)
              case None => r == AuthReply(401, Note(InvalidCredentials), None)
              case Some(k) =>
                if matches(password, users[k].password)
                then r == AuthReply(200, Account(LoggedIn, ProfileOf(users[k])), Some(sign(users[k].id)))
                else r == AuthReply(401, Note(InvalidCredentials), None)
      ensures r.status == 401 <==> FindByEmail(users, email).None? || !matches(password, users[FindByEmail(users, email).value].password)
    {
      var found := FindByEmail(users, email);
      if found.None? {
        return AuthReply(401, Note(InvalidCredentials), None);
      }
      var u := users[found.value];
      if !matches(password, u.password) {
        return AuthReply(401, Note(InvalidCredentials), None);
      }
      r := AuthReply(200, Account(LoggedIn, ProfileOf(u)), Some(sign(u.id)));
    }

    /** `forgotPassword`. An unknown email changes nothing. A pending, unexpired token
        blocks a new one. Otherwise the sha256 of the fresh `resetToken` is stored with
        an expiry one hour from `now`, and the reply carries the link with the raw token. */
    method ForgotPassword(email: string, resetToken: string, now: int, sha: string -> string,
                          frontendUrl: Option<string>) returns (r: AuthReply)
      modifies this
      ensures FindByEmail(old(users), email).None? ==> users == old(users) && r == AuthReply(200, Note(ForgotUnknown), None)
      ensures FindByEmail(old(users), email).Some? && ResetPending(old(users)[FindByEmail(old(users), email).value], now) ==>
                users == old(users) && r == AuthReply(429, Note(ResetThrottled), None)
      ensures FindByEmail(old(users), email).Some? && !ResetPending(old(users)[FindByEmail(old(users), email).value], now) ==>
                var k := FindByEmail(old(users), email).value;
                && users == old(users)[k := old(users)[k].(resetPasswordToken := Some(sha(resetToken)),
                                                          resetPasswordExpires := Some(now + ResetWindow))]
                && r == AuthReply(200, ResetIssued(ForgotIssued, Email.GenerateResetUrl(frontendUrl, email, resetToken).resetUrl), None)
    {
      var found := FindByEmail(users, email);
      if found.None? {
        return AuthReply(200, Note(ForgotUnknown), None);
      }
      var k := found.value;
      if ResetPending(users[k], now) {
        return AuthReply(429, Note(ResetThrottled), None);
      }
      users := users[k := users[k].(resetPasswordToken := Some(sha(resetToken)), resetPasswordExpires := Some(now + ResetWindow))];
      var link := Email.GenerateResetUrl(frontendUrl, email, resetToken);
      r := AuthReply(200, ResetIssued(ForgotIssued, link.resetUrl), None);
    }

    /** `verifyResetToken`. */
    method VerifyResetToken(token: string, now: int, sha: string -> string) returns (r: AuthReply)
      ensures FindByResetToken(users, sha(token), now).None? <==> r == AuthReply(400, Note(InvalidResetToken), None)
      ensures FindByResetToken(users, sha(token), now).Some? <==> r == AuthReply(200, Note(ValidResetToken), None)
    {
      var found := FindByResetToken(users, sha(token), now);
      r := if found.None? then AuthReply(400, Note(InvalidResetToken), None) else AuthReply(200, Note(ValidResetToken), None);
    }

    /** `resetPassword`: a valid token replaces the hash. The token and its expiry are
        cleared only on a driver that writes `undefined` as null. */
    method ResetPassword(token: string, password: string, now: int, sha: string -> string, hash: string -> string)
      returns (r: AuthReply)
      modifies this
      ensures FindByResetToken(old(users), sha(token), now).None? ==>
                users == old(users) && r == AuthReply(400, Note(InvalidResetToken), None)
      ensures FindByResetToken(old(users), sha(token), now).Some? ==>
                var k := FindByResetToken(old(users), sha(token), now).value;
                users == old(users)[k := AfterReset(old(users)[k], hash(password), stripsUndefined)]
                && r == AuthReply(200, Note(PasswordReset), None)
    {
      var found := FindByResetToken(users, sha(token), now);
      if found.None? {
        return AuthReply(400, Note(InvalidResetToken), None);
      }
      var k := found.value;
      users := users[k := AfterReset(users[k], hash(password), stripsUndefined)];
      r := AuthReply(200, Note(PasswordReset), None);
    }

    /** `verifyToken`: the caller's record less its password, or 404 when the record
        is gone. */
    method VerifyToken(callerId: UserId) returns (r: AuthReply)
      ensures FindById(users, callerId).None? <==> r == AuthReply(404, Note(UserNotFound), None)
      ensures FindById(users, callerId).Some? ==> r == AuthReply(200, UserBody(WithoutPassword(users[FindById(users, callerId).value])), None)
    {
      var found := FindById(users, callerId);
      r := if found.None? then AuthReply(404, Note(UserNotFound), None)
           else AuthReply(200, UserBody(WithoutPassword(users[found.value])), None);
    }

    /** `logout`: the caller's record, if any, goes offline with `lastSeen` set to `now`. */
    method Logout(callerId: UserId, now: int) returns (r: AuthReply)
      modifies this
      ensures r == AuthReply(200, Note(LoggedOut), None)
      ensures FindById(old(users), callerId).None? ==> users == old(users)
      ensures FindById(old(users), callerId).Some? ==>
                var k := FindById(old(users), callerId).value;
                users == old(users)[k := old(users)[k].(isOnline := false, lastSeen := Some(now))]
    {
      var found := FindById(users, callerId);
      if found.Some? {
        var k := found.value;
        users := users[k := users[k].(isOnline := false, lastSeen := Some(now))];
      }
      r := AuthReply(200, Note(LoggedOut), None);
    }
  }

  /** The token machine end to end on one account: a token issued at `t0` verifies
      before it expires and resets the password. On a driver that writes `undefined`
      as null it is then refused and a new request is served; on one that drops
      `undefined` keys the same token resets the password again and a new request
      is throttled for the rest of the hour. */
  method ResetLifecycle(u: UserRecord, stripsUndefined: bool, resetToken: string, t0: int, t1: int,
                        password: string, sha: string -> string, hash: string -> string, frontendUrl: Option<string>)
    returns (issued: AuthReply, verified: AuthReply, reset: AuthReply, reused: AuthReply, reissued: AuthReply)
    requires !ResetPending(u, t0)
    requires t0 <= t1 < t0 + ResetWindow
    ensures issued.status == 200 && verified.status == 200 && reset.status == 200
    ensures !stripsUndefined ==> reused == AuthReply(400, Note(InvalidResetToken), None) && reissued.status == 200
    ensures stripsUndefined ==> reused == AuthReply(200, Note(PasswordReset), None)
    ensures stripsUndefined && sha(resetToken) != "" ==> reissued == AuthReply(429, Note(ResetThrottled), None)
  {
    var api := new AuthApi([u], stripsUndefined);
    issued := api.ForgotPassword(u.email, resetToken, t0, sha, frontendUrl);
    assert api.users[0].resetPasswordToken == Some(sha(resetToken));
    verified := api.VerifyResetToken(resetToken, t1, sha);
    var before := api.users;
    reset := api.ResetPassword(resetToken, password, t1, sha, hash);
    if stripsUndefined {
      StrippedTokenSurvives(before, 0, sha(resetToken), hash(password), t1, t1);
    } else {
      ConsumedTokenRejected(before, 0, sha(resetToken), hash(password), t1, t1);
    }
    reused := api.ResetPassword(resetToken, password, t1, sha, hash);
    reissued := api.ForgotPassword(u.email, resetToken, t1, sha, frontendUrl);
  }

  /** `forgotPassword` answers an unknown email and a known one with different
      messages, and only the known one with a link: the reply tells whether an
      account exists. */
  method ForgotRevealsAccount(u: UserRecord, stripsUndefined: bool, other: string, resetToken: string, now: int,
                              sha: string -> string, frontendUrl: Option<string>)
    returns (known: AuthReply, unknown: AuthReply)
    requires other != u.email && !ResetPending(u, now)
    ensures known.status == unknown.status == 200
    ensures known.body.ResetIssued? && unknown.body.Note?
    ensures known.body.message != unknown.body.message
  {
    var api := new AuthApi([u], stripsUndefined);
    unknown := api.ForgotPassword(other, resetToken, now, sha, frontendUrl);
    known := api.ForgotPassword(u.email, resetToken, now, sha, frontendUrl);
  }
}
