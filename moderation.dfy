/** Admin moderation: every admin endpoint first checks the role claim of the caller's token;
    the three writing endpoints then update the status of the row the email names, and the
    two reading endpoints list rows. */
module Moderation {
  import opened Optional
  import opened Accounts

  const MsgAccessDenied := "Access denied! Admins only."
  const MsgApproved := "User approved successfully!"
  const MsgReasonRequired := "Reject reason is required!"
  const MsgRejected := "User rejected successfully!"
  const MsgDisabled := "User disabled successfully!"

  /** The reply to every admin endpoint called with a token whose role claim is not admin. */
  const AccessDenied := Reply(403, MsgAccessDenied, NoBody)

  /** The shared admin-claim gate: the token's role claim (absent when the token has none)
      must be exactly the admin role. */
  predicate AdminClaim(claimRole: Option<string>) {
    claimRole == Some(AdminRole)
  }

  /** Whether `email` names an existing row (a missing email updates nothing). */
  predicate Targets(t: Table, email: Option<string>) {
    email.Some? && email.value in t
  }

  /** What moderation may do to the table: keep every email, and leave every row but the
      targeted one as it was. */
  predicate OnlyTargetChanged(t: Table, t': Table, email: Option<string>) {
    t'.Keys == t.Keys && forall e :: e in t && Some(e) != email ==> t'[e] == t[e]
  }

  /** Approve: status becomes approved and the approval time is recorded. */
  function ApproveUser(t: Table, claimRole: Option<string>, email: Option<string>, now: Timestamp): (out: Outcome)
    ensures !AdminClaim(claimRole) ==> out == Outcome(AccessDenied, t)
    ensures AdminClaim(claimRole) ==> out.reply == Reply(200, MsgApproved, NoBody)
    ensures OnlyTargetChanged(t, out.users, email)
    ensures !Targets(t, email) ==> out.users == t
    ensures AdminClaim(claimRole) && Targets(t, email) ==>
              var u, u' := t[email.value], out.users[email.value];
              u'.status == Approved && u'.approvedAt == Some(now)
              && u'.(status := u.status, approvedAt := u.approvedAt) == u
  {
    if !AdminClaim(claimRole) then
      Outcome(AccessDenied, t)
    else if Targets(t, email) then
      var e := email.value;
      Outcome(Reply(200, MsgApproved, NoBody), t[e := t[e].(status := Approved, approvedAt := Some(now))])
    else
      Outcome(Reply(200, MsgApproved, NoBody), t)
  }

  /** Reject: refused without a reason; otherwise status becomes rejected and the reason is stored. */
  function RejectUser(t: Table, claimRole: Option<string>, email: Option<string>, reason: Option<string>): (out: Outcome)
    ensures !AdminClaim(claimRole) ==> out == Outcome(AccessDenied, t)
    ensures AdminClaim(claimRole) && !Given(reason) ==> out == Outcome(Reply(400, MsgReasonRequired, NoBody), t)
    ensures AdminClaim(claimRole) && Given(reason) ==> out.reply == Reply(200, MsgRejected, NoBody)
    ensures OnlyTargetChanged(t, out.users, email)
    ensures !Targets(t, email) ==> out.users == t
    ensures out.reply.status == 200 && Targets(t, email) ==>
              var u, u' := t[email.value], out.users[email.value];
              u'.status == Rejected && u'.rejectReason == reason
              && u'.(status := u.status, rejectReason := u.rejectReason) == u
  {
    if !AdminClaim(claimRole) then
      Outcome(AccessDenied, t)
    else if !Given(reason) then
      Outcome(Reply(400, MsgReasonRequired, NoBody), t)
    else if Targets(t, email) then
      var e := email.value;
      Outcome(Reply(200, MsgRejected, NoBody), t[e := t[e].(status := Rejected, rejectReason := reason)])
    else
      Outcome(Reply(200, MsgRejected, NoBody), t)
  }

  /** Disable: status becomes disabled, nothing else changes. */
  function DisableUser(t: Table, claimRole: Option<string>, email: Option<string>): (out: Outcome)
    ensures !AdminClaim(claimRole) ==> out == Outcome(AccessDenied, t)
    ensures AdminClaim(claimRole) ==> out.reply == Reply(200, MsgDisabled, NoBody)
    ensures OnlyTargetChanged(t, out.users, email)
    ensures !Targets(t, email) ==> out.users == t
    ensures AdminClaim(claimRole) && Targets(t, email) ==>
              out.users[email.value] == t[email.value].(status := Disabled)
  {
    if !AdminClaim(claimRole) then
      Outcome(AccessDenied, t)
    else if Targets(t, email) then
      var e := email.value;
      Outcome(Reply(200, MsgDisabled, NoBody), t[e := t[e].(status := Disabled)])
    else
      Outcome(Reply(200, MsgDisabled, NoBody), t)
  }

  /** The pending-users listing: every row with status pending and role user, and no other. */
  function PendingUsers(t: Table, claimRole: Option<string>): (r: Reply)
    ensures !AdminClaim(claimRole) ==> r == AccessDenied
    ensures AdminClaim(claimRole) ==>
              r.status == 200 && r.body.PendingList?
              && (forall e :: e in t && t[e].status == Pending && t[e].role == UserRole ==>
                    PendingEntry(e, t[e].ipAddress, t[e].location) in r.body.pendingUsers)
              && (forall p :: p in r.body.pendingUsers ==>
                    p.email in t && t[p.email].status == Pending && t[p.email].role == UserRole
                    && p == PendingEntry(p.email, t[p.email].ipAddress, t[p.email].location))
  {
    if !AdminClaim(claimRole) then
      AccessDenied
    else
      Reply(200, "", PendingList(set e | e in t && t[e].status == Pending && t[e].role == UserRole
                                       :: PendingEntry(e, t[e].ipAddress, t[e].location)))
  }

  /** The all-users listing: one summary per row. */
  function AllUsers(t: Table, claimRole: Option<string>): (r: Reply)
    ensures !AdminClaim(claimRole) ==> r == AccessDenied
    ensures AdminClaim(claimRole) ==>
              r.status == 200 && r.body.UserList?
              && (forall e :: e in t ==> UserSummary(e, t[e].role, t[e].status, t[e].location) in r.body.allUsers)
              && (forall s :: s in r.body.allUsers ==>
                    s.email in t && s == UserSummary(s.email, t[s.email].role, t[s.email].status, t[s.email].location))
  {
    if !AdminClaim(claimRole) then
      AccessDenied
    else
      Reply(200, "", UserList(set e | e in t :: UserSummary(e, t[e].role, t[e].status, t[e].location)))
  }

  /** No moderation step changes who holds which role, so none can break the single-admin rule. */
  lemma {:induction false} ModerationKeepsRoles(t: Table, t': Table, email: Option<string>)
    requires OnlyTargetChanged(t, t', email)
    requires Targets(t, email) ==> t'[email.value].role == t[email.value].role
    ensures SameRoles(t, t')
    ensures AtMostOneAdmin(t) ==> AtMostOneAdmin(t')
  {
    forall e | e in t ensures t'[e].role == t[e].role {
      if Some(e) != email {
        assert t'[e] == t[e];
      }
    }
    SameRolesSameAdmins(t, t');
  }
}
