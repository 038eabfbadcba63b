/** How the operations compose over an account's life: registration decides where an account
    starts, moderation and the password changes move it, and login reads the result. Also the
    table-wide rules that every sequence of writes keeps. */
module Lifecycle {
  import opened Optional
  import opened PasswordHashing
  import opened OneTimePassword
  import opened Accounts
  import opened Auth
  import opened LoginGates
  import opened Moderation

  /** A newly registered non-admin account cannot log in until an admin approves it. */
  lemma NewUserAwaitsApproval(t: Table, req: RegisterRequest, clientIp: string, salt: string, secret: string,
                              login: LoginRequest, otpOk: Verifier)
    requires Register(t, req, clientIp, salt, secret).reply.status == 200
    requires RequestedRole(req) != AdminRole
    requires login.email == req.email && Given(login.password) && Given(login.role)
    ensures Login(Register(t, req, clientIp, salt, secret).users, login, otpOk) == Reply(403, MsgNotApproved, NoBody)
  {
  }

  /** A newly registered admin is approved at once, yet even with the right password, role and
      location cannot log in before resetting the password. */
  lemma NewAdminMustResetPassword(t: Table, req: RegisterRequest, clientIp: string, salt: string, secret: string,
                                  login: LoginRequest, otpOk: Verifier)
    requires Register(t, req, clientIp, salt, secret).reply.status == 200
    requires RequestedRole(req) == AdminRole
    requires login.email == req.email && login.password == Some(InitialPassword(req)) && Given(login.password)
    requires login.role == Some(AdminRole) && login.location == req.location
    ensures Login(Register(t, req, clientIp, salt, secret).users, login, otpOk) == Reply(403, Auth.MsgDefaultPassword, NoBody)
  {
  }

  /** After a reset, the new password, the unchanged role and location and a code for the
      freshly enrolled secret are enough to log in, and the session reports pwdchanged. */
  lemma ResetUnlocksLogin(t: Table, reset: ResetRequest, salt: string, secret: string,
                          login: LoginRequest, otpOk: Verifier)
    requires ResetPassword(t, reset, salt, secret).reply.status == 200
    requires t[reset.email.value].status == Approved
    requires login.email == reset.email && login.password == reset.newPassword
    requires login.role == Some(t[reset.email.value].role) && Given(login.role)
    requires login.location == t[reset.email.value].location
    requires Given(login.otpCode) && otpOk(secret, login.otpCode.value)
    ensures var t' := ResetPassword(t, reset, salt, secret).users;
            Login(t', login, otpOk) == SessionReply(reset.email.value, t'[reset.email.value])
            && t'[reset.email.value].pwdChanged
  {
  }

  /** A reset re-enrolls the second factor: afterwards the stand-alone check accepts a code
      exactly when it is valid for the secret in the new provisioning payload. */
  lemma ResetRotatesSecondFactor(t: Table, reset: ResetRequest, salt: string, secret: string,
                                 code: Option<string>, otpOk: Verifier)
    requires ResetPassword(t, reset, salt, secret).reply.status == 200
    ensures var out := ResetPassword(t, reset, salt, secret);
            VerifyTwoFactor(out.users, reset.email, code, otpOk).status == 200
            <==> Given(code) && otpOk(out.reply.body.qrCode.secret, code.value)
  {
  }

  /** The forgotten-password path leaves the second factor alone: every stand-alone check
      answers afterwards exactly as before. */
  lemma ForgotKeepsSecondFactor(t: Table, req: ForgotRequest, salt: string, otpOk: Verifier,
                                email: Option<string>, code: Option<string>)
    ensures VerifyTwoFactor(ForgotPassword(t, req, salt, otpOk).users, email, code, otpOk)
            == VerifyTwoFactor(t, email, code, otpOk)
  {
  }

  /** After the forgotten-password path, login's password gate accepts the new password and,
      given the bcrypt relation, no other. */
  lemma ForgotReplacesLoginPassword(t: Table, req: ForgotRequest, salt: string, otpOk: Verifier, login: LoginRequest)
    requires ForgotPassword(t, req, salt, otpOk).reply.status == 200
    requires login.email == req.email
    ensures Trips(WrongPassword, ForgotPassword(t, req, salt, otpOk).users, login, otpOk)
            <==> login.password != req.newPassword
  {
  }

  /** A rejected account that tries to log in is shown the reason the admin gave, before any
      password is checked. */
  lemma RejectionReachesLogin(t: Table, claimRole: Option<string>, email: Option<string>, reason: Option<string>,
                              login: LoginRequest, otpOk: Verifier)
    requires AdminClaim(claimRole) && Given(reason) && Targets(t, email)
    requires login.email == email && Given(email) && Given(login.password) && Given(login.role)
    ensures Login(RejectUser(t, claimRole, email, reason).users, login, otpOk)
            == Reply(403, Auth.MsgAccountRejected, Rejection(reason.value))
  {
  }

  /** A disabled account is told it is not approved, whatever credentials it brings. */
  lemma DisabledCannotLogin(t: Table, claimRole: Option<string>, email: Option<string>,
                            login: LoginRequest, otpOk: Verifier)
    requires AdminClaim(claimRole) && Targets(t, email)
    requires login.email == email && Given(email) && Given(login.password) && Given(login.role)
    ensures Login(DisableUser(t, claimRole, email).users, login, otpOk) == Reply(403, MsgNotApproved, NoBody)
  {
  }

  /** Once approved, an account with matching credentials and a valid code logs in. */
  lemma ApprovalOpensLogin(t: Table, claimRole: Option<string>, email: Option<string>, now: Timestamp,
                           login: LoginRequest, otpOk: Verifier)
    requires AdminClaim(claimRole) && Targets(t, email)
    requires var u := t[email.value];
             && login.email == email && Given(email) && Given(login.password) && CheckHash(u.passwordHash, login.password.value)
             && login.role == Some(u.role) && Given(login.role) && login.location == u.location
             && (u.role == AdminRole ==> u.pwdChanged)
             && Given(login.otpCode) && otpOk(u.otpSecret, login.otpCode.value)
    ensures var t' := ApproveUser(t, claimRole, email, now).users;
            Login(t', login, otpOk) == SessionReply(email.value, t'[email.value])
  {
  }

  /** The admin limit fires for an admin registration exactly when the admin probe reports
      that an admin exists. */
  lemma AdminLimitMatchesProbe(t: Table, req: RegisterRequest, clientIp: string, salt: string, secret: string)
    requires Given(req.email) && RequestedRole(req) == AdminRole
    ensures Register(t, req, clientIp, salt, secret).reply.message == MsgAdminLimit
            <==> CheckAdminRole(t).body.adminExists
  {
  }

  /** Once one admin registration succeeds, every later admin registration is refused with the
      admin-limit reply, whatever email it uses. */
  lemma SecondAdminRefused(t: Table, first: RegisterRequest, ip: string, salt: string, secret: string,
                           second: RegisterRequest, ip2: string, salt2: string, secret2: string)
    requires Register(t, first, ip, salt, secret).reply.status == 200
    requires RequestedRole(first) == AdminRole && RequestedRole(second) == AdminRole && Given(second.email)
    ensures Register(Register(t, first, ip, salt, secret).users, second, ip2, salt2, secret2).reply
            == Reply(400, MsgAdminLimit, NoBody)
  {
    var t' := Register(t, first, ip, salt, secret).users;
    assert first.email.value in Admins(t');
  }

  // ---------------------------------------------------------------- sequences of writes

  /** One write to the users table, with the values the environment supplies for it. */
  datatype Op =
    | RegisterOp(registration: RegisterRequest, clientIp: string, salt: string, secret: string)
    | ResetOp(reset: ResetRequest, salt: string, secret: string)
    | ForgotOp(forgot: ForgotRequest, salt: string)
    | ApproveOp(claimRole: Option<string>, email: Option<string>, now: Timestamp)
    | RejectOp(claimRole: Option<string>, email: Option<string>, reason: Option<string>)
    | DisableOp(claimRole: Option<string>, email: Option<string>)

  function Step(t: Table, op: Op, otpOk: Verifier): Table {
    match op
    case RegisterOp(req, ip, salt, secret) => Register(t, req, ip, salt, secret).users
    case ResetOp(req, salt, secret) => ResetPassword(t, req, salt, secret).users
    case ForgotOp(req, salt) => ForgotPassword(t, req, salt, otpOk).users
    case ApproveOp(claim, email, now) => ApproveUser(t, claim, email, now).users
    case RejectOp(claim, email, reason) => RejectUser(t, claim, email, reason).users
    case DisableOp(claim, email) => DisableUser(t, claim, email).users
  }

  /** The table after the writes in `ops`, in order. */
  function Run(t: Table, ops: seq<Op>, otpOk: Verifier): Table
    decreases |ops|
  {
    if ops == [] then t else Run(Step(t, ops[0], otpOk), ops[1..], otpOk)
  }

  /** What every write keeps: no row disappears and no row changes its role. */
  predicate Keeps(t: Table, t': Table) {
    t.Keys <= t'.Keys && forall e :: e in t ==> t'[e].role == t[e].role
  }

  lemma StepKeeps(t: Table, op: Op, otpOk: Verifier)
    ensures Keeps(t, Step(t, op, otpOk))
    ensures AtMostOneAdmin(t) ==> AtMostOneAdmin(Step(t, op, otpOk))
  {
    var t' := Step(t, op, otpOk);
    match op
    case RegisterOp(req, ip, salt, secret) =>
      if AtMostOneAdmin(t) { RegisterKeepsSingleAdmin(t, req, ip, salt, secret); }
    case ResetOp(req, salt, secret) =>
      var out := ResetPassword(t, req, salt, secret);
      if out.reply.status == 200 {
        var e := req.email.value;
        assert t'[e].role == t[e].role;
        assert SameRoles(t, t');
        SameRolesSameAdmins(t, t');
      }
    case ForgotOp(req, salt) =>
      var out := ForgotPassword(t, req, salt, otpOk);
      if out.reply.status == 200 {
        var e := req.email.value;
        assert t'[e].role == t[e].role;
        assert SameRoles(t, t');
        SameRolesSameAdmins(t, t');
      }
    case ApproveOp(claim, email, now) =>
      ModerationKeepsRoles(t, t', email);
    case RejectOp(claim, email, reason) =>
      ModerationKeepsRoles(t, t', email);
    case DisableOp(claim, email) =>
      ModerationKeepsRoles(t, t', email);
  }

  /** Any sequence of writes keeps every account with its role and, starting from a table with
      at most one admin, never produces a second admin. */
  lemma {:induction false} RunKeeps(t: Table, ops: seq<Op>, otpOk: Verifier)
    ensures Keeps(t, Run(t, ops, otpOk))
    ensures AtMostOneAdmin(t) ==> AtMostOneAdmin(Run(t, ops, otpOk))
    decreases |ops|
  {
    if ops != [] {
      var t1 := Step(t, ops[0], otpOk);
      StepKeeps(t, ops[0], otpOk);
      RunKeeps(t1, ops[1..], otpOk);
    }
  }
}
