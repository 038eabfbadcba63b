/** The users table and the replies the endpoints send back. */
module Accounts {
  import opened Optional
  import opened PasswordHashing
  import opened OneTimePassword
  import opened Tokens

  datatype Status = Pending | Approved | Rejected | Disabled

  /** The moment an account was approved (a UTC clock reading, passed in by the caller). */
  type Timestamp = int

  /** One row of the users table. The role is the string the client registered with. */
  datatype User = User(
    passwordHash: Digest,
    role: string,
    status: Status,
    otpSecret: string,
    ipAddress: string,
    location: Option<string>,
    pwdChanged: bool,
    rejectReason: Option<string>,
    approvedAt: Option<Timestamp>)

  /** The users table, keyed by email (the email column is unique). */
  type Table = map<string, User>

  const AdminRole: string := "admin"
  const UserRole: string := "user"

  /** A request field counts as given when it is present and not the empty string. */
  predicate Given(field: Option<string>) {
    field.Some? && field.value != ""
  }

  /** The emails whose row holds the admin role. */
  function Admins(t: Table): set<string> {
    set e | e in t && t[e].role == AdminRole
  }

  /** The number of admin rows, as counted before an admin registration. */
  function AdminCount(t: Table): nat {
    |Admins(t)|
  }

  /** The single-admin rule. */
  predicate AtMostOneAdmin(t: Table) {
    AdminCount(t) <= 1
  }

  /** The row `email` points at, if the field is present and the row exists. */
  function Account(t: Table, email: Option<string>): Option<User> {
    if email.Some? && email.value in t then Some(t[email.value]) else None
  }

  /** One row of the pending-users listing. */
  datatype PendingEntry = PendingEntry(email: string, ipAddress: string, location: Option<string>)

  /** One row of the all-users listing. */
  datatype UserSummary = UserSummary(email: string, role: string, status: Status, location: Option<string>)

  /** The JSON payload of a reply beyond its message. */
  datatype Body =
    | NoBody
    | Rejection(reason: string)
    | Session(token: Token, refreshToken: Token, role: string, pwdChanged: bool)
    | Enrollment(qrCode: Provisioning)
    | Verified
    | AdminStatus(adminExists: bool)
    | PendingList(pendingUsers: set<PendingEntry>)
    | UserList(allUsers: set<UserSummary>)

  /** An HTTP status code, the message field and the rest of the payload. */
  datatype Reply = Reply(status: int, message: string, body: Body)

  /** The reply of an operation that may write, together with the table it leaves behind. */
  datatype Outcome = Outcome(reply: Reply, users: Table)

  /** Whether two tables hold the same emails and the same role for each. */
  predicate SameRoles(t: Table, t': Table) {
    t.Keys == t'.Keys && forall e :: e in t ==> t'[e].role == t[e].role
  }

  lemma SameRolesSameAdmins(t: Table, t': Table)
    requires SameRoles(t, t')
    ensures Admins(t') == Admins(t)
  {
  }
}
