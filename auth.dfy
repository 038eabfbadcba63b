/** The authentication state machine: registration, the login gate chain, the stand-alone
    second-factor check, the two password changes and the admin-existence probe. Each
    operation fetches at most one row and walks an ordered list of early exits. */
module Auth {
  import opened Optional
  import opened PasswordHashing
  import opened OneTimePassword
  import opened Tokens
  import opened Accounts

  const MsgEmailRequired := "Email is required!"
  const MsgAdminLimit := "Admin limit reached! Only one admin is allowed."
  const MsgEmailTaken := "Email already registered!"
  const MsgRegistered := "Registration successful!"

  const MsgLoginFieldsRequired := "Email, password, and role are required!"
  const MsgUserNotFound := "User not found!"
  const MsgAccountRejected := "Your account has been rejected!"
  const NoReasonGiven := "No specific reason provided"
  const MsgNotApproved := "Your account is not approved yet!"
  const MsgWrongLocation := "Location does not match!"
  const MsgWrongPassword := "Invalid password!"
  // Split in two so that the verifier can index the literal: GateRepliesDistinct reads character 8.
  const MsgDefaultPassword := "You are using " + "the default password. Please reset your password before logging in."
  const MsgOtpRequired := "2FA Code required!"
  const MsgOtpInvalid := "Invalid 2FA Code!"
  const MsgLoggedIn := "Login successful!"

  const MsgVerifyFieldsRequired := "Email and OTP code are required!"
  const MsgVerified := "2FA verification successful!"

  const MsgResetFieldsRequired := "Email, old password, and new password are required!"
  const MsgWrongOldPassword := "Invalid old password!"
  const MsgResetDone := "Password reset successful! Scan the new QR code to set up 2FA."

  const MsgForgotFieldsRequired := "Email, new password, and 2FA code are required!"
  const MsgPasswordUpdated := "Password updated successfully!"

  /** The password an account gets when the registration request carries none. */
  const DefaultPassword := "Admin@123"

  /** The message naming the role an account actually holds. */
  function RoleMismatchMessage(actualRole: string): string {
    "Invalid role! You are registered as a " + actualRole + "."
  }

  /** The reason a rejected account is shown: the stored one, or a stock text when there is none. */
  function ReasonShown(stored: Option<string>): string {
    if Given(stored) then stored.value else NoReasonGiven
  }

  // ---------------------------------------------------------------- registration

  datatype RegisterRequest = RegisterRequest(
    email: Option<string>, password: Option<string>, role: Option<string>, location: Option<string>)

  function RequestedRole(req: RegisterRequest): string {
    req.role.GetOr(UserRole)
  }

  function InitialPassword(req: RegisterRequest): string {
    req.password.GetOr(DefaultPassword)
  }

  /** What a freshly registered row must hold: status and pwdchanged follow from the role,
      the password hash accepts the registered password, the OTP secret is the fresh one,
      and nothing has been approved or rejected yet. */
  predicate FreshAccount(u: User, req: RegisterRequest, clientIp: string, secret: string) {
    && u.role == RequestedRole(req)
    && u.status == (if RequestedRole(req) == AdminRole then Approved else Pending)
    && u.pwdChanged == (RequestedRole(req) != AdminRole)
    && CheckHash(u.passwordHash, InitialPassword(req))
    && u.otpSecret == secret
    && u.ipAddress == clientIp
    && u.location == req.location
    && u.rejectReason.None?
    && u.approvedAt.None?
  }

  /** The reply to a request that raises an error no handler catches: the framework's own
      error page, which carries no message of the service's. */
  const UncaughtError := Reply(500, "", NoBody)

  /** Registration: a missing email fails first, then the admin limit, then the hashing of an
      empty password (an uncaught error), then a duplicate email (the unique key of the table).
      Only a successful call adds a row, and it adds exactly one. */
  function Register(t: Table, req: RegisterRequest, clientIp: string, salt: string, freshSecret: string): (out: Outcome)
    ensures out.reply.status in {200, 400, 500}
    ensures out.reply.status == 200 <==>
              Given(req.email) && req.email.value !in t
              && !(RequestedRole(req) == AdminRole && AdminCount(t) >= 1)
              && Hashable(InitialPassword(req))
    ensures !Given(req.email) ==> out.reply == Reply(400, MsgEmailRequired, NoBody)
    ensures Given(req.email) && RequestedRole(req) == AdminRole && AdminCount(t) >= 1 ==>
              out.reply == Reply(400, MsgAdminLimit, NoBody)
    ensures Given(req.email) && !(RequestedRole(req) == AdminRole && AdminCount(t) >= 1)
            && !Hashable(InitialPassword(req)) ==>
              out.reply == UncaughtError
    ensures Given(req.email) && req.email.value in t
            && !(RequestedRole(req) == AdminRole && AdminCount(t) >= 1)
            && Hashable(InitialPassword(req)) ==>
              out.reply == Reply(400, MsgEmailTaken, NoBody)
    ensures out.reply.status != 200 ==> out.users == t
    ensures out.reply.status == 200 ==>
              && out.users.Keys == t.Keys + {req.email.value}
              && (forall e :: e in t ==> out.users[e] == t[e])
              && FreshAccount(out.users[req.email.value], req, clientIp, freshSecret)
              && out.reply.body == Enrollment(Provisioning(freshSecret, req.email.value, Issuer))
  {
    if !Given(req.email) then
      Outcome(Reply(400, MsgEmailRequired, NoBody), t)
    else
      var email, role := req.email.value, RequestedRole(req);
      if role == AdminRole && AdminCount(t) >= 1 then
        Outcome(Reply(400, MsgAdminLimit, NoBody), t)
      else
        var status := if role == AdminRole then Approved else Pending;
        var pwdChanged := role != AdminRole;
        if !Hashable(InitialPassword(req)) then
          Outcome(UncaughtError, t)
        else
          var hashed := Hash(InitialPassword(req), salt);
          if email in t then
            Outcome(Reply(400, MsgEmailTaken, NoBody), t)
          else
            var row := User(hashed, role, status, freshSecret, clientIp, req.location, pwdChanged, None, None);
            Outcome(Reply(200, MsgRegistered, Enrollment(ProvisioningFor(freshSecret, email))), t[email := row])
  }

  /** A registration that succeeds keeps the single-admin rule. */
  lemma RegisterKeepsSingleAdmin(t: Table, req: RegisterRequest, clientIp: string, salt: string, freshSecret: string)
    requires AtMostOneAdmin(t)
    ensures AtMostOneAdmin(Register(t, req, clientIp, salt, freshSecret).users)
  {
    var out := Register(t, req, clientIp, salt, freshSecret);
    if out.reply.status == 200 {
      var email := req.email.value;
      if RequestedRole(req) == AdminRole {
        assert Admins(t) == {} by {
          assert AdminCount(t) == 0;
        }
        assert Admins(out.users) == {email};
      } else {
        assert Admins(out.users) == Admins(t);
      }
    }
  }

  // ---------------------------------------------------------------- login

  datatype LoginRequest = LoginRequest(
    email: Option<string>, password: Option<string>, otpCode: Option<string>,
    role: Option<string>, location: Option<string>)

  /** The reply of a login that passed every gate: two tokens carrying the email as identity
      and the stored role as claim, the stored role, and the stored pwdchanged flag. */
  function SessionReply(email: string, u: User): Reply {
    Reply(200, MsgLoggedIn,
          Session(Token(Access, email, u.role), Token(Refresh, email, u.role), u.role, u.pwdChanged))
  }

  /** Login: the gates in the order the source evaluates them, each an early return. */
  function Login(t: Table, req: LoginRequest, otpOk: Verifier): (r: Reply)
    ensures r.status in {200, 400, 403}
    ensures r.status == 200 ==>
              && req.email.Some? && req.email.value in t
              && var u := t[req.email.value];
              && u.status == Approved
              && req.role == Some(u.role)
              && req.location == u.location
              && req.password.Some? && CheckHash(u.passwordHash, req.password.value)
              && (u.role == AdminRole ==> u.pwdChanged)
              && Given(req.otpCode) && otpOk(u.otpSecret, req.otpCode.value)
              && r.body.Session?
              && r.body.token == Token(Access, req.email.value, u.role)
              && r.body.refreshToken == Token(Refresh, req.email.value, u.role)
              && r.body.role == u.role && r.body.pwdChanged == u.pwdChanged
  {
    if !(Given(req.email) && Given(req.password) && Given(req.role)) then
      Reply(400, MsgLoginFieldsRequired, NoBody)
    else if req.email.value !in t then
      Reply(400, MsgUserNotFound, NoBody)
    else
      var u := t[req.email.value];
      if u.status == Rejected then
        Reply(403, MsgAccountRejected, Rejection(ReasonShown(u.rejectReason)))
      else if u.status != Approved then
        Reply(403, MsgNotApproved, NoBody)
      else if req.role.value != u.role then
        Reply(403, RoleMismatchMessage(u.role), NoBody)
      else if u.location != req.location then
        Reply(403, MsgWrongLocation, NoBody)
      else if !CheckHash(u.passwordHash, req.password.value) then
        Reply(400, MsgWrongPassword, NoBody)
      else if u.role == AdminRole && !u.pwdChanged then
        Reply(403, MsgDefaultPassword, NoBody)
      else if !Given(req.otpCode) then
        Reply(400, MsgOtpRequired, NoBody)
      else if !otpOk(u.otpSecret, req.otpCode.value) then
        Reply(400, MsgOtpInvalid, NoBody)
      else
        SessionReply(req.email.value, u)
  }

  // ---------------------------------------------------------------- second factor alone

  /** The stand-alone second-factor check: no password, only the code against the stored secret. */
  function VerifyTwoFactor(t: Table, email: Option<string>, otpCode: Option<string>, otpOk: Verifier): (r: Reply)
    ensures r.status in {200, 400, 404}
    ensures r.status == 200 <==>
              Given(email) && Given(otpCode) && email.value in t && otpOk(t[email.value].otpSecret, otpCode.value)
    ensures r.status == 404 <==> Given(email) && Given(otpCode) && email.value !in t
    ensures r.status == 200 ==> r.body == Verified
  {
    if !Given(email) || !Given(otpCode) then
      Reply(400, MsgVerifyFieldsRequired, NoBody)
    else if email.value !in t then
      Reply(404, MsgUserNotFound, NoBody)
    else if !otpOk(t[email.value].otpSecret, otpCode.value) then
      Reply(400, MsgOtpInvalid, NoBody)
    else
      Reply(200, MsgVerified, Verified)
  }

  // ---------------------------------------------------------------- reset password

  datatype ResetRequest = ResetRequest(email: Option<string>, oldPassword: Option<string>, newPassword: Option<string>)

  /** Reset with the old password: on success the hash accepts the new password, the OTP secret
      is the freshly drawn one, pwdchanged is set and every other column and row is as before. */
  function ResetPassword(t: Table, req: ResetRequest, salt: string, freshSecret: string): (out: Outcome)
    ensures out.reply.status in {200, 400, 404}
    ensures out.reply.status == 200 <==>
              Given(req.email) && Given(req.oldPassword) && Given(req.newPassword)
              && req.email.value in t && CheckHash(t[req.email.value].passwordHash, req.oldPassword.value)
    ensures out.reply.status == 404 <==>
              Given(req.email) && Given(req.oldPassword) && Given(req.newPassword) && req.email.value !in t
    ensures out.reply.status != 200 ==> out.users == t
    ensures out.reply.status == 200 ==>
              && var e := req.email.value;
              && out.users.Keys == t.Keys
              && (forall other :: other in t && other != e ==> out.users[other] == t[other])
              && CheckHash(out.users[e].passwordHash, req.newPassword.value)
              && out.users[e].otpSecret == freshSecret
              && out.users[e].pwdChanged
              && out.users[e].(passwordHash := t[e].passwordHash, otpSecret := t[e].otpSecret,
                               pwdChanged := t[e].pwdChanged) == t[e]
              && out.reply.body == Enrollment(Provisioning(freshSecret, e, Issuer))
  {
    if !Given(req.email) || !Given(req.oldPassword) || !Given(req.newPassword) then
      Outcome(Reply(400, MsgResetFieldsRequired, NoBody), t)
    else if req.email.value !in t then
      Outcome(Reply(404, MsgUserNotFound, NoBody), t)
    else
      var e := req.email.value;
      if !CheckHash(t[e].passwordHash, req.oldPassword.value) then
        Outcome(Reply(400, MsgWrongOldPassword, NoBody), t)
      else
        var row := t[e].(passwordHash := Hash(req.newPassword.value, salt), otpSecret := freshSecret, pwdChanged := true);
        Outcome(Reply(200, MsgResetDone, Enrollment(ProvisioningFor(freshSecret, e))), t[e := row])
  }

  // ---------------------------------------------------------------- forgot password

  datatype ForgotRequest = ForgotRequest(email: Option<string>, newPassword: Option<string>, otpCode: Option<string>)

  /** Reset with the second factor instead of the old password: succeeds exactly when the
      stand-alone second-factor check would, and then changes the password hash and nothing else. */
  function ForgotPassword(t: Table, req: ForgotRequest, salt: string, otpOk: Verifier): (out: Outcome)
    ensures out.reply.status in {200, 400, 404}
    ensures !Given(req.newPassword) ==> out.reply == Reply(400, MsgForgotFieldsRequired, NoBody)
    ensures out.reply.status == 200 <==>
              Given(req.newPassword) && VerifyTwoFactor(t, req.email, req.otpCode, otpOk).status == 200
    ensures Given(req.newPassword) ==>
              out.reply.status == VerifyTwoFactor(t, req.email, req.otpCode, otpOk).status
    ensures out.reply.status != 200 ==> out.users == t
    ensures out.reply.status == 200 ==>
              && var e := req.email.value;
              && out.users.Keys == t.Keys
              && (forall other :: other in t && other != e ==> out.users[other] == t[other])
              && CheckHash(out.users[e].passwordHash, req.newPassword.value)
              && out.users[e].(passwordHash := t[e].passwordHash) == t[e]
  {
    if !Given(req.email) || !Given(req.newPassword) || !Given(req.otpCode) then
      Outcome(Reply(400, MsgForgotFieldsRequired, NoBody), t)
    else if req.email.value !in t then
      Outcome(Reply(404, MsgUserNotFound, NoBody), t)
    else
      var e := req.email.value;
      if !otpOk(t[e].otpSecret, req.otpCode.value) then
        Outcome(Reply(400, MsgOtpInvalid, NoBody), t)
      else
        Outcome(Reply(200, MsgPasswordUpdated, NoBody), t[e := t[e].(passwordHash := Hash(req.newPassword.value, salt))])
  }

  // ---------------------------------------------------------------- admin probe

  lemma {:induction false} AdminCountPositive(t: Table)
    ensures AdminCount(t) > 0 <==> exists e :: e in t && t[e].role == AdminRole
  {
    if e :| e in t && t[e].role == AdminRole {
      assert e in Admins(t);
    }
  }

  /** Whether some row holds the admin role (the count of admin rows is positive). */
  function CheckAdminRole(t: Table): (r: Reply)
    ensures r.status == 200 && r.body.AdminStatus?
    ensures r.body.adminExists <==> exists e :: e in t && t[e].role == AdminRole
  {
    AdminCountPositive(t);
    Reply(200, "", AdminStatus(AdminCount(t) > 0))
  }
}
