# Account lifecycle of the avo-api users service

This project models the account handlers of `src/users/users.js` in Dafny:
sign-up (new account, verified duplicate, role flip of an unverified business
admin, upgrade of an unverified account to business admin), OTP resend and
verification, password sign-in, the forgot/reset password link, profile update,
and Google registration and sign-in.

The two tables the handlers touch live in a class, `Users.UserStore`:

- `users` is a `seq<UserRow>`. The model numbers the rows by position: the
  row at position `k` has id `k + 1`. This is a relabelling of the real
  auto-increment ids, which can have gaps (see "## Left out").
- `businesses` is a `map<nat, Business>` keyed by id. `nextBusinessId` is the
  table's auto-increment counter.

Each handler is a method that changes these fields step by step, as the SQL
statements of the source do. Its postconditions give the status code and the
whole new state of both tables for every branch. Every method keeps the
invariant `ValidTables`:

- e-mails are unique (the database's unique constraint on `users.email`);
- business ids are below the counter;
- every business has an existing owner;
- no user owns two businesses.

`SELECT ... WHERE column = ?` is `Users.Lookup`, which returns the first
matching row. Its contract is proved by induction.

The external collaborators are parameters of the handlers that use them:

- `isValidEmail` is `emailValid`;
- `generateOTP` is `otp`;
- `bcrypt.hash` is `hashed`, and `bcrypt.compare` is `compare`;
- `jwt.sign` is the token string, and `jwt.verify` is `verify`, which gives the
  payload's id or `None` when verification throws;
- the success of `sendOTP` or `sendResetEmail` is `mailOk`;
- the Google userinfo answer is `google`: `(email, verified_email)`, or `None`
  when the request fails.

A request field the body leaves out is `None`. JavaScript truthiness of a
string field is `Present`, `x || null` is `OrNull` and `x || "default"` is
`OrElse`.

The module `Lifecycle` chains handlers on a store built from any tables that
satisfy the invariant. It states what a sequence of requests ends with:

- a new account signs up, cannot sign in before verification, verifies, signs
  in, and can no longer be registered;
- a reset link works once;
- a sign-in revokes a pending reset link;
- a session token is also accepted as a reset token;
- the business that a role flip removes is gone;
- the OTP mailed on an upgrade cannot verify the account;
- an upgrade that inserts a business leaves the sign-in without it;
- Google registration leads to Google sign-in.

Behaviour of the source that the model reproduces as written:

- **Upgrade with a new business loses the link.** The upgrade path inserts a
  business and then links the user with `businessResult.id`
  (src/users/users.js:144). An INSERT result carries `insertId` and no `id`, so
  the user's `business_id` becomes NULL. The row for the new business itself
  stays in the table (`PromoteToBusinessAdmin`), so after verification a
  sign-in succeeds without the business the user owns
  (`Lifecycle.UpgradeLosesLink`).
- **Upgrade stores no OTP.** The upgrade path writes only `role` and
  `business_id` (src/users/users.js:141-147) but mails the freshly generated
  OTP (src/users/users.js:150). That OTP was never stored, so it fails
  `VerifyOTP` (`Lifecycle.UpgradeOtpCannotVerify`).
- **Unverified plain user's re-sign-up fails.** An unverified plain user who
  signs up again as a plain user matches neither branch. Control falls through
  to the INSERT, which the unique e-mail rejects, and the caught error is a
  500 with no change (`Lifecycle.PlainResignUpFails`). The constraint is not
  declared in the application code; the model assumes it.
- **Mail failures surface after the writes.** When mail delivery fails after
  the tables were written, the handler answers 500 and the writes stay.

In these places the code does something other than what the handlers' names
suggest, and the model follows the code:

- `UpdateUserProfile` reads back only `id` and `number` (src/users/users.js:487).
  So `name || user[0].name` is `name || undefined`, which the MySQL driver
  writes as NULL. Only the phone number keeps its old value when the request
  leaves it empty. Name, address and photo become NULL.
- Sign-up does not overwrite every unverified duplicate: the plain-user case
  above ends in 500.
- `ResetPasswordLink` updates the row named by the token's payload, not the row
  that stores the token. A payload id with no row gives 200 and no change.

## Model

| member | source | states |
|---|---|---|
| `Users.Lookup` | src/users/users.js:52-55 | the result is the position of the first row matching the `WHERE` condition, and `None` exactly when no row matches |
| `Users.LookupEmailExact` | src/users/users.js:52-62 | under the unique e-mail constraint, looking up a row's e-mail finds that row and no other |
| `Users.UserStore.SignUp` | src/users/users.js:16-228 | 400 with no change when name, e-mail or password is missing or the e-mail is malformed; 409 with no change for a verified e-mail; the role-flip, upgrade, fall-through (500, no change) and new-account outcomes with the full new state of both tables; the invariant is kept |
| `Users.UserStore.DemoteToPlainUser` | src/users/users.js:66-83 | the unverified business admin's row gets the new name, password, number, address (default "Not Provided"), photo and OTP, role user and a NULL `business_id`; exactly the businesses it owns are deleted; the invariant is kept |
| `Users.UserStore.PromoteToBusinessAdmin` | src/users/users.js:97-147 | the business the user owns is overwritten from the form and linked; if the user owns none, one is inserted under the next id and the link becomes NULL; only role and link of the user change; the invariant is kept |
| `Users.UserStore.InsertUser` | src/users/users.js:169-209 | one row is appended; for a business admin exactly one business owned by the new user is inserted and the new row links to it; the invariant is kept |
| `Users.UserStore.ResendOTP` | src/users/users.js:230-257 | 400 without an e-mail, 404 for an unknown one, both with no change; otherwise only that account's OTP changes, to the new one |
| `Users.UserStore.VerifyOTP` | src/users/users.js:259-296 | 400 or 404 with no change when a field is missing, the account is unknown or the stored OTP differs; on a match the account becomes verified, its OTP is cleared and nothing else changes |
| `Users.UserStore.SignIn` | src/users/users.js:298-384 | an unverified account gets 403 whatever the password; a wrong password gets 401; no failed sign-in changes anything; on success the stored `auth_token` is the returned token, and a business is attached only to a business admin, and it is the one its `business_id` names |
| `Users.UserStore.ForgotPasswordLink` | src/users/users.js:386-424 | 400 or 404 with no change when the e-mail is missing or unknown; otherwise that account's `auth_token` becomes the reset token and nothing else changes |
| `Users.UserStore.ResetPasswordLink` | src/users/users.js:426-479 | a token that no row stores is rejected with 400 even if it verifies, and so is a token that fails verification; on success the row the payload names gets the new hash and a cleared `auth_token` |
| `Users.UserStore.UpdateUserProfile` | src/users/users.js:481-545 | 404 for an unknown id; 409 with no change when a new, different number belongs to some row; otherwise only that user's row changes, an empty number keeps the stored one, and an empty name, address or photo becomes NULL |
| `Users.UserStore.GoogleSignIn` | src/users/users.js:547-622 | 400 without a token or an e-mail that Google has not verified, 500 when the userinfo request fails, 404 for an unknown account and 403 for an unverified one, all with no change; on success the stored token is the returned one and the business rule of sign-in applies |
| `Users.UserStore.GoogleRegister` | src/users/users.js:624-769 | 409 with no change for an existing e-mail; otherwise a verified row with password "GOOGLE_AUTH_USER", no OTP, defaults "0000000000" and "Signed up with Google" and the returned session token, plus a linked business for a business admin |
| `Lifecycle.SignUpVerifySignIn` | src/users/users.js:169-346 | for a new e-mail: sign-up 200, sign-in before verification 403, verification with the mailed OTP 200, sign-in 200 with the stored token, a second sign-up 409 |
| `Lifecycle.PlainResignUpFails` | src/users/users.js:61-187 | signing up the same new e-mail twice as a plain user gives 200 and then 500 |
| `Lifecycle.UpgradeOtpCannotVerify` | src/users/users.js:141-150 | after an unverified account is upgraded to business admin, verifying with the OTP just mailed gives 400 |
| `Lifecycle.UpgradeLosesLink` | src/users/users.js:124-367 | an unverified account owning no business upgrades to business admin, verifies with its stored OTP and signs in with 200, and the sign-in carries no business although a business it owns exists |
| `Lifecycle.RoleFlipDropsBusiness` | src/users/users.js:66-83 | a new business admin owns a business after sign-up and owns none after signing up again as a plain user |
| `Lifecycle.ResetLinkIsSingleUse` | src/users/users.js:399-466 | the reset link is sent, the reset succeeds, and replaying the same token gives 400 |
| `Lifecycle.SignInRevokesResetLink` | src/users/users.js:343-446 | a sign-in after the reset link was sent overwrites the stored token, so the reset link is then rejected with 400 |
| `Lifecycle.SessionTokenResetsPassword` | src/users/users.js:334-466 | a session token stored at sign-in whose payload names the account is accepted by the reset handler, which stores the new hash |
| `Lifecycle.GoogleRegisterThenSignIn` | src/users/users.js:547-743 | Google registration of a new e-mail gives 200, Google sign-in then gives 200 with a business exactly when registered as a business admin, and a password sign-up of that e-mail gives 409 |

## Left out

- Routing (src/Routes/routes.js), the connection pool (src/DB/db.js) and the
  server bootstrap (app.js): wiring and I/O with no account logic.
- The authentication middleware that supplies `req.user.id` to
  `UpdateUserProfile`: the id is a parameter.
- bcrypt, JWT signing, expiry and verification, the mail sender, the Google
  userinfo request, `isValidEmail` and `generateOTP`: these are external
  collaborators, and the model takes their results as parameters. Token expiry
  is inside `verify`.
- Database failures other than the unique e-mail constraint, and a throwing
  `bcrypt.hash`, `bcrypt.compare` or `jwt.sign`: every such failure is caught
  and answered with 500, and the model does not enumerate them. The
  parameters stand for the collaborators' results, and a throw is not one.
- User ids are modelled as position + 1 in the table. Real auto-increment ids
  can have gaps: a failed INSERT (such as the sign-up fall-through) still uses
  up a value, and other modules delete user rows.
- Column constraints that the application code does not declare, such as NOT NULL on
  `users.name` or a unique phone number. With such constraints, some writes
  modelled as succeeding would fail with 500.
- MySQL's collation when it compares strings (case and trailing spaces):
  the model compares strings exactly.
- JavaScript truthiness of non-string values: `is_businessadmin` is a boolean
  here, so a string such as "false" does not count as true.
- Non-string request values and column types: every body field and stored
  column is a string here. An OTP posted as a JSON number never equals the
  stored string under `!==` (src/users/users.js:276) and gets 400 in the code.
  The model cannot express that case. The `number !== user[0].number` test
  of `UpdateUserProfile` (src/users/users.js:498) is modelled as a string
  comparison; its outcome depends on the column type, which the application
  code does not declare.
- Concurrency between requests: sign-up and profile update check and then
  write, and the model runs each request alone.
- The JSON body of the responses: messages, the returned user fields, and the
  `userId` of sign-up. The HTTP status also differs from the body's status.
  The model gives the status code, the session token and the id of the
  attached business.
- The coupon, business, offer and transaction handlers named in
  src/Routes/routes.js:5-9 are not part of this model.
