/** The older account routes of routes/auth.js. Compared with the controller, a
    duplicate is judged by email alone, the reset token is stored raw, a new token
    always overwrites the old one, and the reset email goes through
    `sendPasswordResetEmail`. That function is imported from utils/email.js, which
    does not export it, so the call throws after the token has been saved; the
    `mailSent` parameter stands for the outcome of that call. The user record, its
    lookups and `ClearedReset` are declared here and not shared with AuthController
    on purpose: the two files store different records. */
module AuthRoutes {
  import opened Common

  const UserExists := "User already exists"
  const InvalidCredentials := "Invalid credentials"
  const ForgotReply := "If an account exists with this email, you will receive password reset instructions."
  const ForgotFailed := "An error occurred while processing your request."
  const InvalidResetToken := "Invalid or expired reset token."
  const ValidResetToken := "Valid reset token."
  const PasswordReset := "Password has been reset successfully."

  /** A reset token is valid for one hour. */
  const ResetWindow := 3600000

  datatype RouteUser = RouteUser(
    id: UserId,
    email: string,
    password: string,
    name: string,
    resetPasswordToken: Option<string>,
    resetPasswordExpires: Option<int>)

  datatype Profile = Profile(id: UserId, email: string, name: string)

  function ProfileOf(u: RouteUser): Profile {
    Profile(u.id, u.email, u.name)
  }

  /** A record read with `.select('-password')`: every field but the password hash,
      the raw reset token and its expiry included. */
  datatype UserView = UserView(
    id: UserId,
    email: string,
    name: string,
    resetPasswordToken: Option<string>,
    resetPasswordExpires: Option<int>)

  function WithoutPassword(u: RouteUser): UserView {
    UserView(u.id, u.email, u.name, u.resetPasswordToken, u.resetPasswordExpires)
  }

  datatype Body =
    | Note(message: string)
    | Session(token: string, user: Profile)
    | UserBody(found: Option<UserView>)

  datatype RouteReply = RouteReply(status: nat, body: Body)

  predicate HoldsResetToken(u: RouteUser, token: string, now: int) {
    u.resetPasswordToken == Some(token) && u.resetPasswordExpires.Some? && u.resetPasswordExpires.value > now
  }

  function FindByEmail(users: seq<RouteUser>, email: string): Option<nat> {
    FirstIndex(users, (u: RouteUser) => u.email == email)
  }

  function FindByResetToken(users: seq<RouteUser>, token: string, now: int): Option<nat> {
    FirstIndex(users, (u: RouteUser) => HoldsResetToken(u, token, now))
  }

  function FindById(users: seq<RouteUser>, id: UserId): Option<nat> {
    FirstIndex(users, (u: RouteUser) => u.id == id)
  }

  /** The record after a successful reset: new hash, no token, no expiry. */
  function ClearedReset(u: RouteUser, newHash: string): (v: RouteUser)
    ensures v.password == newHash && v.resetPasswordToken == None && v.resetPasswordExpires == None
    ensures v.id == u.id && v.email == u.email && v.name == u.name
  {
    u.(password := newHash, resetPasswordToken := None, resetPasswordExpires := None)
  }

  class AuthRouter {
    var users: seq<RouteUser>

    constructor (users: seq<RouteUser>)
      ensures this.users == users
    {
      this.users := users;
    }

    /** `POST /register`: a record with the same email blocks it; otherwise the record
        is stored and the signed token is returned in the body. */
    method Register(email: string, password: string, name: string, id: UserId,
                    hash: string -> string, sign: UserId -> string) returns (r: RouteReply)
      modifies this
      ensures FindByEmail(old(users), email).Some? ==> users == old(users) && r == RouteReply(400, Note(UserExists))
      ensures FindByEmail(old(users), email).None? ==>
                var u := RouteUser(id, email, hash(password), name, None, None);
                users == old(users) + [u] && r == RouteReply(201, Session(sign(id), ProfileOf(u)))
    {
      if FindByEmail(users, email).Some? {
        return RouteReply(400, Note(UserExists));
      }
      var u := RouteUser(id, email, hash(password), name, None, None);
      users := users + [u];
      r := RouteReply(201, Session(sign(id), ProfileOf(u)));
    }

    /** `POST /login`: an unknown email and a wrong password get the same 400 reply. */
    method Login(email: string, password: string, matches: (string, string) -> bool, sign: UserId -> string)
      returns (r: RouteReply)
      ensures match FindByEmail(users, email)
              case None => r == RouteReply(400, Note(InvalidCredentials))
              case Some(k) =>
                if matches(password, users[k].password)
                then r == RouteReply(200, Session(sign(users[k].id), ProfileOf(users[k])))
                else r == RouteReply(400, Note(InvalidCredentials))
    {
      var found := FindByEmail(users, email);
      if found.None? {
        return RouteReply(400, Note(InvalidCredentials));
      }
      var u := users[found.value];
      if !matches(password, u.password) {
        return RouteReply(400, Note(InvalidCredentials));
      }
      r := RouteReply(200, Session(sign(u.id), ProfileOf(u)));
    }

    /** `POST /forgot-password`: for a known email the raw token and an expiry one
        hour from `now` replace whatever was stored, with no throttle; the reply then
        depends on the email call. */
    method ForgotPassword(email: string, resetToken: string, now: int, mailSent: bool) returns (r: RouteReply)
      modifies this
      ensures FindByEmail(old(users), email).None? ==> users == old(users) && r == RouteReply(200, Note(ForgotReply))
      ensures FindByEmail(old(users), email).Some? ==>
                var k := FindByEmail(old(users), email).value;
                && users == old(users)[k := old(users)[k].(resetPasswordToken := Some(resetToken),
                                                          resetPasswordExpires := Some(now + ResetWindow))]
                && r == (if mailSent then RouteReply(200, Note(ForgotReply)) else RouteReply(500, Note(ForgotFailed)))
    {
      var found := FindByEmail(users, email);
      if found.None? {
        return RouteReply(200, Note(ForgotReply));
      }
      var k := found.value;
      users := users[k := users[k].(resetPasswordToken := Some(resetToken), resetPasswordExpires := Some(now + ResetWindow))];
      r := if mailSent then RouteReply(200, Note(ForgotReply)) else RouteReply(500, Note(ForgotFailed));
    }

    /** `GET /verify-reset-token`. */
    method VerifyResetToken(token: string, now: int) returns (r: RouteReply)
      ensures FindByResetToken(users, token, now).None? <==> r == RouteReply(400, Note(InvalidResetToken))
      ensures FindByResetToken(users, token, now).Some? <==> r == RouteReply(200, Note(ValidResetToken))
    {
      var found := FindByResetToken(users, token, now);
      r := if found.None? then RouteReply(400, Note(InvalidResetToken)) else RouteReply(200, Note(ValidResetToken));
    }

    /** `POST /reset-password`: a valid token is consumed. */
    method ResetPassword(token: string, password: string, now: int, hash: string -> string) returns (r: RouteReply)
      modifies this
      ensures FindByResetToken(old(users), token, now).None? ==>
                users == old(users) && r == RouteReply(400, Note(InvalidResetToken))
      ensures FindByResetToken(old(users), token, now).Some? ==>
                var k := FindByResetToken(old(users), token, now).value;
                users == old(users)[k := ClearedReset(old(users)[k], hash(password))]
                && r == RouteReply(200, Note(PasswordReset))
    {
      var found := FindByResetToken(users, token, now);
      if found.None? {
        return RouteReply(400, Note(InvalidResetToken));
      }
      var k := found.value;
      users := users[k := ClearedReset(users[k], hash(password))];
      r := RouteReply(200, Note(PasswordReset));
    }

    /** `GET /verify`: the caller's record less its password, or `null` when the
        record is gone. */
    method Verify(callerId: UserId) returns (r: RouteReply)
      ensures FindById(users, callerId).None? ==> r == RouteReply(200, UserBody(None))
      ensures FindById(users, callerId).Some? ==>
                r == RouteReply(200, UserBody(Some(WithoutPassword(users[FindById(users, callerId).value]))))
    {
      var found := FindById(users, callerId);
      r := RouteReply(200, UserBody(if found.None? then None else Some(WithoutPassword(users[found.value]))));
    }
  }

  /** A second request replaces the first token: the older one no longer verifies,
      even before it would have expired. */
  method NewTokenReplacesOld(u: RouteUser, first: string, second: string, t0: int, t1: int, t2: int, mailSent: bool)
    returns (oldTokenCheck: RouteReply, newTokenCheck: RouteReply)
    requires first != second
    requires t0 <= t1 <= t2 < t0 + ResetWindow
    ensures oldTokenCheck == RouteReply(400, Note(InvalidResetToken))
    ensures newTokenCheck == RouteReply(200, Note(ValidResetToken))
  {
    var router := new AuthRouter([u]);
    var r1 := router.ForgotPassword(u.email, first, t0, mailSent);
    var r2 := router.ForgotPassword(u.email, second, t1, mailSent);
    oldTokenCheck := router.VerifyResetToken(first, t2);
    newTokenCheck := router.VerifyResetToken(second, t2);
  }

  /** A consumed token is refused afterwards. */
  method ResetThenReuse(u: RouteUser, token: string, t0: int, t1: int, password: string, hash: string -> string)
    returns (reset: RouteReply, reused: RouteReply)
    requires t0 <= t1 < t0 + ResetWindow
    ensures reset == RouteReply(200, Note(PasswordReset))
    ensures reused == RouteReply(400, Note(InvalidResetToken))
  {
    var router := new AuthRouter([u]);
    var issued := router.ForgotPassword(u.email, token, t0, false);
    reset := router.ResetPassword(token, password, t1, hash);
    reused := router.ResetPassword(token, password, t1, hash);
  }

  /** `/verify` hands out the live raw reset token: after a reset request, the
      account's own session reads back a token that `/reset-password` accepts. */
  method VerifyRevealsResetToken(u: RouteUser, token: string, t0: int, t1: int, mailSent: bool)
    returns (shown: RouteReply, check: RouteReply)
    requires t0 <= t1 < t0 + ResetWindow
    ensures shown.body.UserBody? && shown.body.found.Some?
    ensures shown.body.found.value.resetPasswordToken == Some(token)
    ensures check == RouteReply(200, Note(ValidResetToken))
  {
    var router := new AuthRouter([u]);
    var issued := router.ForgotPassword(u.email, token, t0, mailSent);
    shown := router.Verify(u.id);
    check := router.VerifyResetToken(shown.body.found.value.resetPasswordToken.value, t1);
  }
}
