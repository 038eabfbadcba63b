/** The login gate sequence as data: an ordered list of gates, what makes each gate trip, and
    what each one answers. The login function is proved to answer with the first gate in this
    list that trips, so no later gate can influence the reply. */
module LoginGates {
  import opened Optional
  import opened PasswordHashing
  import opened OneTimePassword
  import opened Accounts
  import opened Auth

  datatype Gate =
    | MissingFields
    | UnknownUser
    | AccountRejected
    | AccountNotApproved
    | RoleMismatch
    | LocationMismatch
    | WrongPassword
    | DefaultPassword
    | OtpMissing
    | OtpInvalid

  /** The order in which login evaluates its gates. */
  const Order: seq<Gate> := [MissingFields, UnknownUser, AccountRejected, AccountNotApproved,
                              RoleMismatch, LocationMismatch, WrongPassword, DefaultPassword,
                              OtpMissing, OtpInvalid]

  /** Whether gate `g` objects to the request, judged on its own. Gates that look at the
      stored row trip only when there is a row to look at. */
  predicate Trips(g: Gate, t: Table, req: LoginRequest, otpOk: Verifier) {
    var acct := Account(t, req.email);
    match g
    case MissingFields => !(Given(req.email) && Given(req.password) && Given(req.role))
    case UnknownUser => acct.None?
    case AccountRejected => acct.Some? && acct.value.status == Rejected
    case AccountNotApproved => acct.Some? && acct.value.status != Approved
    case RoleMismatch => acct.Some? && req.role != Some(acct.value.role)
    case LocationMismatch => acct.Some? && acct.value.location != req.location
    case WrongPassword =>
      acct.Some? && !(req.password.Some? && CheckHash(acct.value.passwordHash, req.password.value))
    case DefaultPassword => acct.Some? && acct.value.role == AdminRole && !acct.value.pwdChanged
    case OtpMissing => !Given(req.otpCode)
    case OtpInvalid =>
      acct.Some? && !(Given(req.otpCode) && otpOk(acct.value.otpSecret, req.otpCode.value))
  }

  /** The status code and message of each gate; the rejection reason and the role named in the
      role-mismatch message come from the stored row. */
  function GateReply(g: Gate, acct: Option<User>): Reply {
    match g
    case MissingFields => Reply(400, MsgLoginFieldsRequired, NoBody)
    case UnknownUser => Reply(400, MsgUserNotFound, NoBody)
    case AccountRejected =>
      Reply(403, MsgAccountRejected, Rejection(if acct.Some? then ReasonShown(acct.value.rejectReason) else NoReasonGiven))
    case AccountNotApproved => Reply(403, MsgNotApproved, NoBody)
    case RoleMismatch => Reply(403, RoleMismatchMessage(if acct.Some? then acct.value.role else ""), NoBody)
    case LocationMismatch => Reply(403, MsgWrongLocation, NoBody)
    case WrongPassword => Reply(400, MsgWrongPassword, NoBody)
    case DefaultPassword => Reply(403, MsgDefaultPassword, NoBody)
    case OtpMissing => Reply(400, MsgOtpRequired, NoBody)
    case OtpInvalid => Reply(400, MsgOtpInvalid, NoBody)
  }

  /** The position of the first gate in `gates` that trips, or |gates| when none does. */
  function FirstTripped(gates: seq<Gate>, t: Table, req: LoginRequest, otpOk: Verifier): (i: nat)
    ensures i <= |gates|
    ensures forall j :: 0 <= j < i ==> !Trips(gates[j], t, req, otpOk)
    ensures i < |gates| ==> Trips(gates[i], t, req, otpOk)
  {
    if gates == [] then 0
    else if Trips(gates[0], t, req, otpOk) then 0
    else 1 + FirstTripped(gates[1..], t, req, otpOk)
  }

  /** Login answers with the reply of the first gate that trips, and with a session exactly
      when no gate trips. */
  lemma LoginAnswersFirstTrippedGate(t: Table, req: LoginRequest, otpOk: Verifier)
    ensures var i := FirstTripped(Order, t, req, otpOk);
            i < |Order| ==> Login(t, req, otpOk) == GateReply(Order[i], Account(t, req.email))
    ensures var i := FirstTripped(Order, t, req, otpOk);
            i == |Order| ==>
              Account(t, req.email).Some?
              && Login(t, req, otpOk) == SessionReply(req.email.value, Account(t, req.email).value)
  {
    var i := FirstTripped(Order, t, req, otpOk);
    var acct := Account(t, req.email);
    if i > 0 { assert !Trips(Order[0], t, req, otpOk); }
    if i > 1 { assert !Trips(Order[1], t, req, otpOk); }
    if i > 2 { assert !Trips(Order[2], t, req, otpOk); }
    if i > 3 { assert !Trips(Order[3], t, req, otpOk); }
    if i > 4 { assert !Trips(Order[4], t, req, otpOk); }
    if i > 5 { assert !Trips(Order[5], t, req, otpOk); }
    if i > 6 { assert !Trips(Order[6], t, req, otpOk); }
    if i > 7 { assert !Trips(Order[7], t, req, otpOk); }
    if i > 8 { assert !Trips(Order[8], t, req, otpOk); }
    if i > 9 { assert !Trips(Order[9], t, req, otpOk); }
  }

  /** A login succeeds exactly when none of the gates trips. */
  lemma LoginSucceedsIffNoGateTrips(t: Table, req: LoginRequest, otpOk: Verifier)
    ensures Login(t, req, otpOk).status == 200 <==> forall g :: g in Order ==> !Trips(g, t, req, otpOk)
  {
    LoginAnswersFirstTrippedGate(t, req, otpOk);
    var i := FirstTripped(Order, t, req, otpOk);
    if i < |Order| {
      assert GateReply(Order[i], Account(t, req.email)).status != 200;
      assert Order[i] in Order;
    } else {
      forall g | g in Order ensures !Trips(g, t, req, otpOk) {
        var j :| 0 <= j < |Order| && Order[j] == g;
      }
    }
  }

  /** When gate k trips and every gate before it passes, login answers with gate k's reply,
      whatever the later gates would have said. */
  lemma GateDecides(k: nat, t: Table, req: LoginRequest, otpOk: Verifier)
    requires k < |Order|
    requires forall j :: 0 <= j < k ==> !Trips(Order[j], t, req, otpOk)
    requires Trips(Order[k], t, req, otpOk)
    ensures Login(t, req, otpOk) == GateReply(Order[k], Account(t, req.email))
  {
    LoginAnswersFirstTrippedGate(t, req, otpOk);
  }

  /** Every gate answers differently, so a client can tell which gate stopped the login. */
  lemma GateRepliesDistinct(g: Gate, h: Gate, acct: Option<User>)
    requires g != h
    ensures GateReply(g, acct) != GateReply(h, acct)
  {
    if g == RoleMismatch || h == RoleMismatch {
      var m := GateReply(RoleMismatch, acct).message;
      assert m[8] == 'r';
      var other := if g == RoleMismatch then h else g;
      match other
      case MissingFields => assert MsgLoginFieldsRequired[8] == 'a';
      case UnknownUser => assert MsgUserNotFound[8] == ' ';
      case AccountRejected => assert MsgAccountRejected[8] == 'o';
      case AccountNotApproved => assert MsgNotApproved[8] == 'o';
      case LocationMismatch => assert MsgWrongLocation[8] == ' ';
      case WrongPassword => assert MsgWrongPassword[8] == 'p';
      case DefaultPassword => assert MsgDefaultPassword[8] == 'u';
      case OtpMissing => assert MsgOtpRequired[8] == ' ';
      case OtpInvalid => assert MsgOtpInvalid[8] == '2';
    }
  }

  /** A rejected account is told so before any other check on its row, with the stored reason
      when there is one and a stock text otherwise; every other status but approved, disabled
      included, is told it is not approved yet. */
  lemma StatusAnsweredBeforeCredentials(t: Table, req: LoginRequest, otpOk: Verifier)
    requires Given(req.email) && Given(req.password) && Given(req.role) && req.email.value in t
    ensures var u := t[req.email.value];
            u.status == Rejected ==>
              Login(t, req, otpOk) == Reply(403, MsgAccountRejected,
                                            Rejection(if Given(u.rejectReason) then u.rejectReason.value else NoReasonGiven))
    ensures var u := t[req.email.value];
            u.status != Rejected && u.status != Approved ==>
              Login(t, req, otpOk) == Reply(403, MsgNotApproved, NoBody)
  {
  }

  /** The password is checked before the code is asked for: with a wrong password and no code,
      an otherwise acceptable login is told its password is wrong, not that a code is required. */
  lemma WrongPasswordBeforeMissingCode(t: Table, req: LoginRequest, otpOk: Verifier)
    requires Given(req.email) && Given(req.password) && Given(req.role) && req.email.value in t
    requires var u := t[req.email.value];
             u.status == Approved && req.role == Some(u.role) && req.location == u.location
             && !CheckHash(u.passwordHash, req.password.value)
    requires !Given(req.otpCode)
    ensures Login(t, req, otpOk) == Reply(400, MsgWrongPassword, NoBody)
    ensures Trips(OtpMissing, t, req, otpOk)
  {
  }
}
