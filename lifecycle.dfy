/** Properties of the account lifecycle that span several requests. Each
    method starts from arbitrary tables that satisfy the store's invariant,
    runs a sequence of handlers on them and states the statuses they end with. */
module Lifecycle {
  import opened Users

  /** Sign-up of a new e-mail, then sign-in, verification, sign-in again and a
      second sign-up: the account cannot sign in before its OTP is verified,
      signs in afterwards, and the e-mail can no longer be registered. */
  method SignUpVerifySignIn(users0: seq<UserRow>, businesses0: map<nat, Business>, next0: nat,
                            req: SignUpRequest, emailValid: bool, otp: string, hashed: string,
                            compare: (string, string) -> bool, sessionToken: string, otpAgain: string)
    returns (signedUp: int, early: int, verified: int, signedIn: int, token: Option<string>, again: int)
    requires ValidTables(users0, businesses0, next0)
    requires Accepted(req, emailValid) && Lookup(users0, Email(req.email.value)).None?
    requires otp != "" && compare(req.password.value, hashed)
    ensures signedUp == 200 && early == 403 && verified == 200 && signedIn == 200 && again == 409
    ensures token == Some(sessionToken)
  {
    var s := new UserStore(users0, businesses0, next0);
    signedUp := s.SignUp(req, emailValid, otp, hashed, true);
    LookupEmailExact(s.users, |users0|);
    var noToken, noBusiness;
    early, noToken, noBusiness := s.SignIn(req.email, req.password, compare, sessionToken);
    verified := s.VerifyOTP(req.email, Some(otp));
    LookupEmailExact(s.users, |users0|);
    var business;
    signedIn, token, business := s.SignIn(req.email, req.password, compare, sessionToken);
    LookupEmailExact(s.users, |users0|);
    again := s.SignUp(req, emailValid, otpAgain, hashed, true);
  }

  /** A new e-mail signed up twice as a plain user: the second request finds
      the unverified row, matches neither the role-flip nor the upgrade branch,
      and its INSERT fails on the unique e-mail. */
  method PlainResignUpFails(users0: seq<UserRow>, businesses0: map<nat, Business>, next0: nat,
                            req: SignUpRequest, emailValid: bool, otp: string, hashed: string,
                            otpAgain: string, hashedAgain: string)
    returns (first: int, second: int)
    requires ValidTables(users0, businesses0, next0)
    requires Accepted(req, emailValid) && !req.isBusinessAdmin
    requires Lookup(users0, Email(req.email.value)).None?
    ensures first == 200 && second == 500
  {
    var s := new UserStore(users0, businesses0, next0);
    first := s.SignUp(req, emailValid, otp, hashed, true);
    LookupEmailExact(s.users, |users0|);
    second := s.SignUp(req, emailValid, otpAgain, hashedAgain, true);
  }

  /** An unverified account upgraded to business admin is mailed a fresh OTP
      that is never stored, so verifying with it fails (unless it happens to
      equal the OTP already stored). */
  method UpgradeOtpCannotVerify(users0: seq<UserRow>, businesses0: map<nat, Business>, next0: nat,
                                req: SignUpRequest, emailValid: bool, otp: string, hashed: string)
    returns (upgraded: int, verified: int)
    requires ValidTables(users0, businesses0, next0)
    requires Accepted(req, emailValid) && req.isBusinessAdmin && otp != ""
    requires var k := Lookup(users0, Email(req.email.value));
             k.Some? && !users0[k.value].isVerified && users0[k.value].otp != Some(otp)
    ensures upgraded == 200 && verified == 400
  {
    var s := new UserStore(users0, businesses0, next0);
    var k := Lookup(users0, Email(req.email.value)).value;
    upgraded := s.SignUp(req, emailValid, otp, hashed, true);
    LookupEmailExact(s.users, k);
    verified := s.VerifyOTP(req.email, Some(otp));
  }

  /** An unverified account that owns no business upgrades to business admin,
      verifies with the OTP it already stores and signs in: the sign-in
      succeeds but carries no business, although a business it owns exists,
      because the upgrade linked the user to an id the INSERT result lacks. */
  method UpgradeLosesLink(users0: seq<UserRow>, businesses0: map<nat, Business>, next0: nat,
                          req: SignUpRequest, emailValid: bool, otp: string, hashed: string,
                          password: string, compare: (string, string) -> bool, sessionToken: string)
    returns (upgraded: int, verified: int, signedIn: int, business: Option<nat>, owned: bool)
    requires ValidTables(users0, businesses0, next0)
    requires Accepted(req, emailValid) && req.isBusinessAdmin && password != ""
    requires var k := Lookup(users0, Email(req.email.value));
             && k.Some?
             && !users0[k.value].isVerified
             && Present(users0[k.value].otp)
             && compare(password, users0[k.value].password)
             && forall b :: b in businesses0 ==> businesses0[b].ownerId != k.value + 1
    ensures upgraded == 200 && verified == 200 && signedIn == 200
    ensures business.None? && owned
  {
    var s := new UserStore(users0, businesses0, next0);
    var k := Lookup(users0, Email(req.email.value)).value;
    var stored := users0[k].otp;
    upgraded := s.SignUp(req, emailValid, otp, hashed, true);
    LookupEmailExact(s.users, k);
    verified := s.VerifyOTP(req.email, stored);
    LookupEmailExact(s.users, k);
    var token;
    signedIn, token, business := s.SignIn(req.email, Some(password), compare, sessionToken);
    owned := exists b :: b in s.businesses && s.businesses[b].ownerId == k + 1;
    assert s.businesses[next0].ownerId == k + 1;
  }

  /** A new business admin that signs up again as a plain user before
      verifying loses its business: no business row is owned by it afterwards. */
  method RoleFlipDropsBusiness(users0: seq<UserRow>, businesses0: map<nat, Business>, next0: nat,
                               req: SignUpRequest, emailValid: bool, otp: string, hashed: string,
                               otpAgain: string, hashedAgain: string)
    returns (asAdmin: int, asUser: int, ownedBefore: bool, ownedAfter: bool)
    requires ValidTables(users0, businesses0, next0)
    requires Accepted(req, emailValid) && req.isBusinessAdmin
    requires Lookup(users0, Email(req.email.value)).None?
    ensures asAdmin == 200 && asUser == 200
    ensures ownedBefore && !ownedAfter
  {
    var s := new UserStore(users0, businesses0, next0);
    var id := |users0| + 1;
    asAdmin := s.SignUp(req, emailValid, otp, hashed, true);
    ownedBefore := exists b :: b in s.businesses && s.businesses[b].ownerId == id;
    assert s.businesses[next0].ownerId == id;
    LookupEmailExact(s.users, |users0|);
    asUser := s.SignUp(req.(isBusinessAdmin := false), emailValid, otpAgain, hashedAgain, true);
    ownedAfter := exists b :: b in s.businesses && s.businesses[b].ownerId == id;
  }

  /** A reset link works once: after the reset clears the stored token,
      replaying the same token is rejected. The token's payload names the
      account it was issued for, and no other account stores it. */
  method ResetLinkIsSingleUse(users0: seq<UserRow>, businesses0: map<nat, Business>, next0: nat,
                              email: string, resetToken: string, newPassword: string,
                              verify: string -> Option<nat>, hashed: string)
    returns (sent: int, reset: int, replay: int)
    requires ValidTables(users0, businesses0, next0)
    requires email != "" && resetToken != "" && newPassword != ""
    requires var k := Lookup(users0, Email(email));
             && k.Some?
             && verify(resetToken) == Some(k.value + 1)
             && forall j :: 0 <= j < |users0| && j != k.value ==> users0[j].authToken != Some(resetToken)
    ensures sent == 200 && reset == 200 && replay == 400
  {
    var s := new UserStore(users0, businesses0, next0);
    var k := Lookup(users0, Email(email)).value;
    sent := s.ForgotPasswordLink(Some(email), resetToken, true);
    assert s.users[k].authToken == Some(resetToken);
    reset := s.ResetPasswordLink(Some(resetToken), Some(newPassword), verify, hashed);
    assert forall j :: 0 <= j < |s.users| ==> s.users[j].authToken != Some(resetToken);
    replay := s.ResetPasswordLink(Some(resetToken), Some(newPassword), verify, hashed);
  }

  /** Signing in overwrites the stored reset token with the session token, so
      a reset link issued before the sign-in no longer works. */
  method SignInRevokesResetLink(users0: seq<UserRow>, businesses0: map<nat, Business>, next0: nat,
                                email: string, password: string, compare: (string, string) -> bool,
                                resetToken: string, sessionToken: string,
                                verify: string -> Option<nat>, newPassword: string, hashed: string)
    returns (sent: int, signedIn: int, reset: int)
    requires ValidTables(users0, businesses0, next0)
    requires email != "" && password != "" && newPassword != ""
    requires resetToken != "" && resetToken != sessionToken
    requires var k := Lookup(users0, Email(email));
             && k.Some?
             && users0[k.value].isVerified
             && compare(password, users0[k.value].password)
             && forall j :: 0 <= j < |users0| && j != k.value ==> users0[j].authToken != Some(resetToken)
    ensures sent == 200 && signedIn == 200 && reset == 400
  {
    var s := new UserStore(users0, businesses0, next0);
    var k := Lookup(users0, Email(email)).value;
    sent := s.ForgotPasswordLink(Some(email), resetToken, true);
    LookupEmailExact(s.users, k);
    var token, business;
    signedIn, token, business := s.SignIn(Some(email), Some(password), compare, sessionToken);
    assert forall j :: 0 <= j < |s.users| ==> s.users[j].authToken != Some(resetToken);
    reset := s.ResetPasswordLink(Some(resetToken), Some(newPassword), verify, hashed);
  }

  /** The session token stored at sign-in is signed with the same key and kept
      in the same column as a reset token, so it is accepted as a reset link. */
  method SessionTokenResetsPassword(users0: seq<UserRow>, businesses0: map<nat, Business>, next0: nat,
                                    email: string, password: string, compare: (string, string) -> bool,
                                    sessionToken: string, verify: string -> Option<nat>,
                                    newPassword: string, hashed: string)
    returns (signedIn: int, reset: int, newHash: string)
    requires ValidTables(users0, businesses0, next0)
    requires email != "" && password != "" && sessionToken != "" && newPassword != ""
    requires var k := Lookup(users0, Email(email));
             && k.Some?
             && users0[k.value].isVerified
             && compare(password, users0[k.value].password)
             && verify(sessionToken) == Some(k.value + 1)
    ensures signedIn == 200 && reset == 200 && newHash == hashed
  {
    var s := new UserStore(users0, businesses0, next0);
    var k := Lookup(users0, Email(email)).value;
    var token, business;
    signedIn, token, business := s.SignIn(Some(email), Some(password), compare, sessionToken);
    assert s.users[k].authToken == Some(sessionToken);
    reset := s.ResetPasswordLink(Some(sessionToken), Some(newPassword), verify, hashed);
    newHash := s.users[k].password;
  }

  /** Google registration of a new e-mail signs the account in; it can then
      sign in with Google, carries its business exactly when it registered as a
      business admin, and the e-mail can no longer be registered. */
  method GoogleRegisterThenSignIn(users0: seq<UserRow>, businesses0: map<nat, Business>, next0: nat,
                                  req: GoogleRegisterRequest, email: string, sessionToken: string,
                                  secondToken: string, again: SignUpRequest, emailValid: bool,
                                  otp: string, hashed: string)
    returns (registered: int, signedIn: int, business: Option<nat>, signUp: int)
    requires ValidTables(users0, businesses0, next0)
    requires Present(req.name) && Present(req.token)
    requires Lookup(users0, Email(email)).None?
    requires Accepted(again, emailValid) && again.email == Some(email)
    ensures registered == 200 && signedIn == 200 && signUp == 409
    ensures business.Some? <==> req.isBusinessAdmin
  {
    var s := new UserStore(users0, businesses0, next0);
    var google := Some(GoogleInfo(email, true));
    var session, attached;
    registered, session, attached := s.GoogleRegister(req, google, sessionToken);
    LookupEmailExact(s.users, |users0|);
    var session2;
    signedIn, session2, business := s.GoogleSignIn(req.token, google, secondToken);
    LookupEmailExact(s.users, |users0|);
    signUp := s.SignUp(again, emailValid, otp, hashed, true);
  }
}
