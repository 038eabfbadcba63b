# Account state machine of the login service

This project models the core of `login.py`, the Flask service that registers users, logs them in with
a password and a time-based one-time code, lets them change their password, and lets an admin moderate
accounts. With the web framework, the database driver and the crypto libraries stripped away, the core
is a set of deterministic operations over one table of user rows keyed by email. Each row holds:

- a password hash and a role (`admin`, `user`, or whatever role string the client registered with);
- a status: pending, approved, rejected or disabled;
- an OTP secret, the client address and the location;
- the `pwdchanged` flag, a reject reason and an approval time.

The model is laid out as follows:

- `wrappers.dfy` (`Optional`): `Option`, for request fields that may be absent and nullable columns.
- `services.dfy`: the collaborators the core relies on. `PasswordHashing` is bcrypt reduced to `Hash`
  and `CheckHash`. `OneTimePassword` holds the code verifier (a parameter), the issuer and the
  provisioning payload. `Tokens` holds tokens as identity and role records.
- `accounts.dfy` (`Accounts`): the row, the table, the replies (status code, message, payload) and the
  single-admin rule.
- `auth.dfy` (`Auth`): registration, login, the stand-alone 2FA check, reset password, forgot password
  and the admin-existence probe. Each is a pure function over the table. The writing operations return
  the new table beside the reply.
- `login_gates.dfy` (`LoginGates`): the ten login gates as an ordered list of data. A lemma proves that
  login answers with the reply of the first gate that trips, so no later gate can influence the reply.
- `moderation.dfy` (`Moderation`): the admin-claim gate, then approve, reject and disable, and the two
  read-only listings.
- `lifecycle.dfy` (`Lifecycle`): how the operations compose. It covers register then login, reset then
  login or verify, and reject, disable or approve then login. It also proves that any sequence of writes
  keeps every account and its role, and never creates a second admin.
- `user_store.dfy` (`UserStore`): the class `UserTable`. Its field `users: map<string, User>` is
  rewritten in place by the endpoints that INSERT or UPDATE. Each method does its early exits in the
  source's order. Each is proved to keep the single-admin rule and to leave exactly the reply and table
  that the matching function describes.

The model abstracts the source as follows:

- Request fields are `Option<string>`, where `None` means the key is absent. Python's `not x` on such a
  field becomes `Given`: present and not the empty string.
- bcrypt is a salted digest whose check accepts exactly the hashed password. The salt is a parameter.
- TOTP verification is a parameter `otpOk(secret, code)` that holds the clock.
- The fresh OTP secret, the client address and the approval time are also parameters.
- Tokens are records `Token(kind, identity, role)`.

Login checks the password before it asks for a code. `LoginGates.WrongPasswordBeforeMissingCode` proves
that a wrong password with no code is told "Invalid password!".

## Model

| member | source | states |
|---|---|---|
| `PasswordHashing.Hash` | login.py:77 | a digest made from a non-empty password under a salt accepts that password (the library refuses an empty one) |
| `Accounts.SameRolesSameAdmins` | login.py:64-65 | two tables with the same emails and the same role per email count the same admins |
| `Auth.Register` | login.py:45-105 | registration succeeds iff the email is given, the request is not an admin registration while an admin exists, the password to hash is not empty, and the email is not yet a key. The checks run in that order. A missing email answers 400 "Email is required!". The admin limit answers 400 "Admin limit reached! Only one admin is allowed.". An empty password makes the hashing library raise an error no handler catches, so the answer is a bare 500. A duplicate answers 400 "Email already registered!". Failure leaves the table unchanged. Success adds exactly one row: admin gets approved and pwdchanged false, any other role gets pending and pwdchanged true. The new row's hash accepts the given password (default "Admin@123"), it carries the fresh OTP secret, and the payload provisions that secret for that email |
| `Auth.RegisterKeepsSingleAdmin` | login.py:63-71 | registration never takes the table from at most one admin to two |
| `Auth.Login` | login.py:107-179 | login answers only 200, 400 or 403. A 200 means every check holds: the account is approved, the role, location and password match, an admin has changed the default password, and the code is valid. The session then holds access and refresh tokens whose identity is the email and whose role claim is the stored role, plus the stored role and the stored pwdchanged |
| `Auth.VerifyTwoFactor` | login.py:188-211 | the stand-alone 2FA check answers 200 iff both fields are given, the user exists and the code is valid for the stored secret. It answers 404 iff the fields are given but the user is unknown |
| `Auth.ResetPassword` | login.py:218-262 | reset succeeds iff all three fields are given, the user exists and the old password is accepted. It answers 404 exactly for an unknown user. Failure changes nothing. Success changes only the target row: its hash accepts the new password, its OTP secret is the fresh one and pwdchanged is true. Role, status, location, reason and approval time are untouched, and the payload provisions the new secret |
| `Auth.ForgotPassword` | login.py:271-303 | a missing new password answers 400 "Email, new password, and 2FA code are required!" before any lookup. Forgot-password succeeds iff the new password is given and the stand-alone 2FA check succeeds for the same email and code. It answers the same status as that check whenever the new password is given. Failure changes nothing. Success changes only the target row's password hash, to one accepting the new password: the OTP secret and pwdchanged stay as they were |
| `Auth.AdminCountPositive` | login.py:317-319 | the count of admin rows is positive iff some row holds the admin role |
| `Auth.CheckAdminRole` | login.py:312-319 | the probe reports that an admin exists iff some row holds the admin role |
| `LoginGates.FirstTripped` | login.py:117-167 | the least position in a gate list whose gate trips: every earlier gate passes and the gate at that position trips, or no gate trips |
| `LoginGates.LoginAnswersFirstTrippedGate` | login.py:117-179 | login's reply is the reply of the first gate that trips, in the order: missing fields, unknown user, rejected, not approved, role, location, password, default admin password, missing code, invalid code. When none trips, the reply is the session for the stored row |
| `LoginGates.LoginSucceedsIffNoGateTrips` | login.py:117-179 | login succeeds iff no gate trips |
| `LoginGates.GateDecides` | login.py:117-167 | when gate k trips and all earlier gates pass, login answers gate k's reply whatever the later gates would say |
| `LoginGates.GateRepliesDistinct` | login.py:117-167 | two different gates never give the same reply |
| `LoginGates.StatusAnsweredBeforeCredentials` | login.py:138-147 | with the three fields given and the row present, a rejected account gets 403 with its stored reason, or "No specific reason provided" when none is stored. Any other status but approved, disabled included, gets 403 "Your account is not approved yet!". Both answers come whatever the role, location, password and code |
| `LoginGates.WrongPasswordBeforeMissingCode` | login.py:156-164 | with a wrong password and no code, an approved, matching account is told "Invalid password!" (400), even though the missing-code gate trips too |
| `Moderation.ApproveUser` | login.py:353-375 | without the admin claim: 403 "Access denied! Admins only." and no change. With it: success whatever the email. Only the targeted row may change: its status becomes approved and its approval time is the given one. An email naming no row changes nothing |
| `Moderation.RejectUser` | login.py:385-411 | without the admin claim: 403 and no change. Without a reason: 400 "Reject reason is required!" and no change. Otherwise: success, and only the targeted row changes, to status rejected with the given reason. An unknown email is a no-op |
| `Moderation.DisableUser` | login.py:445-462 | without the admin claim: 403 and no change. Otherwise: success, and only the targeted row changes, its status becoming disabled |
| `Moderation.PendingUsers` | login.py:329-343 | without the admin claim: 403. Otherwise the listing holds exactly the rows with status pending and role user, each with its email, address and location |
| `Moderation.AllUsers` | login.py:421-435 | without the admin claim: 403. Otherwise the listing holds exactly one summary per row: email, role, status and location |
| `Moderation.ModerationKeepsRoles` | login.py:368-373 | an update that keeps the emails, touches only the target row and keeps its role keeps every role, and with it the single-admin rule |
| `Lifecycle.NewUserAwaitsApproval` | login.py:70-71 | right after a non-admin registration, login with that email answers 403 "Your account is not approved yet!" |
| `Lifecycle.NewAdminMustResetPassword` | login.py:159-161 | right after an admin registration, login with the registered password, role and location answers 403 with the default-password message |
| `Lifecycle.ResetUnlocksLogin` | login.py:245-249 | after a reset of an approved account, the new password plus a code valid for the fresh secret log in, and the session reports pwdchanged |
| `Lifecycle.ResetRotatesSecondFactor` | login.py:243-253 | after a reset, the stand-alone 2FA check accepts a code iff it is valid for the secret in the new provisioning payload |
| `Lifecycle.ForgotKeepsSecondFactor` | login.py:296-300 | after forgot-password, every stand-alone 2FA check answers exactly as before |
| `Lifecycle.ForgotReplacesLoginPassword` | login.py:295-300 | after forgot-password, login's password gate trips iff the password offered is not the new one |
| `Lifecycle.RejectionReachesLogin` | login.py:139-144 | after an admin rejects an account with a reason, its login answers 403 with that reason |
| `Lifecycle.DisabledCannotLogin` | login.py:145-147 | after an admin disables an account, its login answers 403 "Your account is not approved yet!" |
| `Lifecycle.ApprovalOpensLogin` | login.py:368-373 | after approval, matching credentials and a valid code log in |
| `Lifecycle.AdminLimitMatchesProbe` | login.py:64-68 | an admin registration gets the admin-limit reply iff the admin probe reports an admin |
| `Lifecycle.SecondAdminRefused` | login.py:67-68 | once one admin registration succeeds, every later admin registration gets 400 "Admin limit reached! Only one admin is allowed." |
| `Lifecycle.StepKeeps` | login.py:63-71 | every single write keeps every email and every role, and keeps the single-admin rule |
| `Lifecycle.RunKeeps` | login.py:63-71 | every sequence of writes keeps every email and every role (rows are never deleted), and keeps the single-admin rule |
| `UserStore.UserTable.Register` | login.py:57-102 | the in-place INSERT leaves the reply and table that `Auth.Register` gives, and keeps the single-admin rule |
| `UserStore.UserTable.ResetPassword` | login.py:225-250 | the in-place UPDATE leaves the reply and table that `Auth.ResetPassword` gives |
| `UserStore.UserTable.ForgotPassword` | login.py:278-301 | the in-place UPDATE leaves the reply and table that `Auth.ForgotPassword` gives |
| `UserStore.UserTable.ApproveUser` | login.py:357-375 | the in-place UPDATE leaves the reply and table that `Moderation.ApproveUser` gives |
| `UserStore.UserTable.RejectUser` | login.py:389-411 | the in-place UPDATE leaves the reply and table that `Moderation.RejectUser` gives |
| `UserStore.UserTable.DisableUser` | login.py:449-462 | the in-place UPDATE leaves the reply and table that `Moderation.DisableUser` gives |

## Left out

- HTTP plumbing: routing, the CORS preflight answer of `/register`, parsing `request.json`, `jsonify`
  and the `__main__` runner.
- JSON `null` and non-string field values are not modelled. A field is a string or absent.
- Database I/O: connections, cursors, commit and close. The `except Exception` paths that answer 500
  are left out too. The table is an in-memory map. The one uncaught error that the model does keep is
  the hashing of an empty password at registration. It is answered as a bare 500 whose content (the
  framework's error page) is not modelled.
- Registration treats an integrity error as a duplicate email only. Other constraints the database
  might enforce are not part of this model.
- bcrypt internals and salting cost: the digest records its salt and accepts exactly the hashed
  password, which idealises away collisions.
- bcrypt's 72-byte limit is not modelled. Older bcrypt releases cut a longer password to its first
  72 bytes, so any password sharing those bytes passes the check. bcrypt 5 refuses such a password:
  a bare 500 when hashing at registration, and a 500 through the error handler at login, reset and
  forgot-password. The model hashes and checks the whole string.
- Lifecycle.ForgotReplacesLoginPassword: its "trips exactly for passwords other than the new one"
  rests on the exact check above. Under the 72-byte cut, a longer password sharing the new one's
  first 72 bytes would also pass.
- TOTP code derivation, time steps and the drift window: the verifier is a parameter.
- The provisioning URI text, the QR PNG image and its base64 encoding: the payload is the record
  (secret, email, issuer "MyApp").
- JWT signing, expiry and the `/refresh-token` endpoint (login.py:470-478) are left out. The
  `@jwt_required` rejection of a missing or invalid token is left out too. The admin endpoints receive
  the token's role claim as a parameter.
- Logging and environment loading.
- The check-then-insert race on the admin count is not modelled: each operation runs to completion
  on its own.
- The admin-probe and listing replies carry no message in the source. The model gives them the empty
  message.
- The listings are sets: the source's row order is whatever the database returns.
