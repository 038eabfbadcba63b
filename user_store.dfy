/** The users table as the service holds it: one mutable map from email to row, written in
    place by the endpoints that INSERT or UPDATE. Each method does its early exits and its
    single write in the order the endpoint does, and is proved to leave exactly the table and
    reply that the corresponding function of Auth or Moderation describes. */
module UserStore {
  import opened Optional
  import opened PasswordHashing
  import opened OneTimePassword
  import opened Accounts
  import opened Auth
  import opened Moderation

  class UserTable {
    var users: Table

    /** The single-admin rule holds of the table between requests. */
    ghost predicate Valid()
      reads this
    {
      AtMostOneAdmin(users)
    }

    constructor ()
      ensures Valid() && users == map[]
    {
      users := map[];
    }

    /** Registration: the INSERT of one new row. */
    method Register(req: RegisterRequest, clientIp: string, salt: string, freshSecret: string) returns (r: Reply)
      requires Valid()
      modifies this
      ensures Valid()
      ensures r == Auth.Register(old(users), req, clientIp, salt, freshSecret).reply
      ensures users == Auth.Register(old(users), req, clientIp, salt, freshSecret).users
    {
      RegisterKeepsSingleAdmin(users, req, clientIp, salt, freshSecret);
      if !Given(req.email) {
        return Reply(400, MsgEmailRequired, NoBody);
      }
      var email := req.email.value;
      var role := req.role.GetOr(UserRole);
      var adminCount := AdminCount(users);
      if role == AdminRole && adminCount >= 1 {
        return Reply(400, MsgAdminLimit, NoBody);
      }
      var status := if role == AdminRole then Approved else Pending;
      var pwdChanged := role != AdminRole;
      var password := req.password.GetOr(DefaultPassword);
      if !Hashable(password) {
        return UncaughtError;
      }
      var hashed := Hash(password, salt);
      if email in users {
        return Reply(400, MsgEmailTaken, NoBody);
      }
      users := users[email := User(hashed, role, status, freshSecret, clientIp, req.location, pwdChanged, None, None)];
      r := Reply(200, MsgRegistered, Enrollment(ProvisioningFor(freshSecret, email)));
    }

    /** Reset with the old password: the UPDATE of the hash, the OTP secret and pwdchanged. */
    method ResetPassword(req: ResetRequest, salt: string, freshSecret: string) returns (r: Reply)
      requires Valid()
      modifies this
      ensures Valid()
      ensures r == Auth.ResetPassword(old(users), req, salt, freshSecret).reply
      ensures users == Auth.ResetPassword(old(users), req, salt, freshSecret).users
    {
      if !Given(req.email) || !Given(req.oldPassword) || !Given(req.newPassword) {
        return Reply(400, MsgResetFieldsRequired, NoBody);
      }
      var email := req.email.value;
      if email !in users {
        return Reply(404, MsgUserNotFound, NoBody);
      }
      var row := users[email];
      if !CheckHash(row.passwordHash, req.oldPassword.value) {
        return Reply(400, MsgWrongOldPassword, NoBody);
      }
      var hashed := Hash(req.newPassword.value, salt);
      ghost var before := users;
      users := users[email := row.(passwordHash := hashed, otpSecret := freshSecret, pwdChanged := true)];
      assert SameRoles(before, users);
      SameRolesSameAdmins(before, users);
      r := Reply(200, MsgResetDone, Enrollment(ProvisioningFor(freshSecret, email)));
    }

    /** Reset with the second factor: the UPDATE of the password hash alone. */
    method ForgotPassword(req: ForgotRequest, salt: string, otpOk: Verifier) returns (r: Reply)
      requires Valid()
      modifies this
      ensures Valid()
      ensures r == Auth.ForgotPassword(old(users), req, salt, otpOk).reply
      ensures users == Auth.ForgotPassword(old(users), req, salt, otpOk).users
    {
      if !Given(req.email) || !Given(req.newPassword) || !Given(req.otpCode) {
        return Reply(400, MsgForgotFieldsRequired, NoBody);
      }
      var email := req.email.value;
      if email !in users {
        return Reply(404, MsgUserNotFound, NoBody);
      }
      var row := users[email];
      if !otpOk(row.otpSecret, req.otpCode.value) {
        return Reply(400, MsgOtpInvalid, NoBody);
      }
      ghost var before := users;
      users := users[email := row.(passwordHash := Hash(req.newPassword.value, salt))];
      assert SameRoles(before, users);
      SameRolesSameAdmins(before, users);
      r := Reply(200, MsgPasswordUpdated, NoBody);
    }

    /** Approve: after the admin-claim gate, the UPDATE of status and approval time of the row
        the email names (an email naming no row updates nothing). */
    method ApproveUser(claimRole: Option<string>, email: Option<string>, now: Timestamp) returns (r: Reply)
      requires Valid()
      modifies this
      ensures Valid()
      ensures r == Moderation.ApproveUser(old(users), claimRole, email, now).reply
      ensures users == Moderation.ApproveUser(old(users), claimRole, email, now).users
    {
      if !AdminClaim(claimRole) {
        return AccessDenied;
      }
      if email.Some? && email.value in users {
        ghost var before := users;
        var e := email.value;
        users := users[e := users[e].(status := Approved, approvedAt := Some(now))];
        ModerationKeepsRoles(before, users, email);
      }
      r := Reply(200, MsgApproved, NoBody);
    }

    /** Reject: after the admin-claim gate and the reason check, the UPDATE of status and reason. */
    method RejectUser(claimRole: Option<string>, email: Option<string>, reason: Option<string>) returns (r: Reply)
      requires Valid()
      modifies this
      ensures Valid()
      ensures r == Moderation.RejectUser(old(users), claimRole, email, reason).reply
      ensures users == Moderation.RejectUser(old(users), claimRole, email, reason).users
    {
      if !AdminClaim(claimRole) {
        return AccessDenied;
      }
      if !Given(reason) {
        return Reply(400, MsgReasonRequired, NoBody);
      }
      if email.Some? && email.value in users {
        ghost var before := users;
        var e := email.value;
        users := users[e := users[e].(status := Rejected, rejectReason := reason)];
        ModerationKeepsRoles(before, users, email);
      }
      r := Reply(200, MsgRejected, NoBody);
    }

    /** Disable: after the admin-claim gate, the UPDATE of the status alone. */
    method DisableUser(claimRole: Option<string>, email: Option<string>) returns (r: Reply)
      requires Valid()
      modifies this
      ensures Valid()
      ensures r == Moderation.DisableUser(old(users), claimRole, email).reply
      ensures users == Moderation.DisableUser(old(users), claimRole, email).users
    {
      if !AdminClaim(claimRole) {
        return AccessDenied;
      }
      if email.Some? && email.value in users {
        ghost var before := users;
        var e := email.value;
        users := users[e := users[e].(status := Disabled)];
        ModerationKeepsRoles(before, users, email);
      }
      r := Reply(200, MsgDisabled, NoBody);
    }
  }
}
