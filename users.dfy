/** The account lifecycle of the users service: the `users` and `businesses`
    tables and the request handlers of src/users/users.js that read and update
    them (sign-up, OTP resend and verification, sign-in, password reset,
    profile update, Google registration and sign-in).

    Every external collaborator is a parameter of the handler that uses it:
    the e-mail format check, the OTP generator, bcrypt, JWT signing and
    verification, the mail sender and the Google userinfo request. */
module Users {

  /** SQL NULL for a column, or an absent (undefined or null) request field. */
  datatype Option<T> = None | Some(value: T)

  datatype Role = PlainUser | BusinessAdmin

  /** A row of the `users` table. The model numbers the rows by position: the
      row at position k has id k + 1 (real ids can have gaps). */
  datatype UserRow = UserRow(
    name: Option<string>,
    email: string,
    password: string,
    number: Option<string>,
    address: Option<string>,
    profilePhoto: Option<string>,
    role: Role,
    otp: Option<string>,
    isVerified: bool,
    authToken: Option<string>,
    refreshToken: Option<string>,
    businessId: Option<nat>)

  /** A row of the `businesses` table (its id is its key in the table). */
  datatype Business = Business(
    ownerId: nat,
    name: Option<string>,
    address: Option<string>,
    city: Option<string>,
    state: Option<string>,
    country: Option<string>,
    pincode: Option<string>,
    logo: Option<string>)

  /** The business part of a registration request body. */
  datatype BusinessForm = BusinessForm(
    name: Option<string>,
    address: Option<string>,
    city: Option<string>,
    state: Option<string>,
    country: Option<string>,
    pincode: Option<string>,
    logo: Option<string>)

  /** The body of a sign-up request. */
  datatype SignUpRequest = SignUpRequest(
    name: Option<string>,
    email: Option<string>,
    password: Option<string>,
    number: Option<string>,
    address: Option<string>,
    profilePhoto: Option<string>,
    isBusinessAdmin: bool,
    business: BusinessForm)

  /** The body of a Google registration request. */
  datatype GoogleRegisterRequest = GoogleRegisterRequest(
    name: Option<string>,
    token: Option<string>,
    number: Option<string>,
    address: Option<string>,
    profilePhoto: Option<string>,
    isBusinessAdmin: bool,
    business: BusinessForm)

  /** The answer of Google's userinfo endpoint for a bearer token. */
  datatype GoogleInfo = GoogleInfo(email: string, verifiedEmail: bool)

  /** A `WHERE column = ?` condition on the `users` table. */
  datatype Key = Email(email: string) | AuthToken(token: string) | Number(number: string)

  predicate Matches(u: UserRow, key: Key) {
    match key
    case Email(e) => u.email == e
    case AuthToken(t) => u.authToken == Some(t)
    case Number(n) => u.number == Some(n)
  }

  /** JavaScript truthiness of a string field: present and not empty. */
  predicate Present(o: Option<string>) {
    o.Some? && o.value != ""
  }

  /** `field || null` */
  function OrNull(o: Option<string>): Option<string> {
    if Present(o) then o else None
  }

  /** `field || fallback` */
  function OrElse(o: Option<string>, fallback: string): string {
    if Present(o) then o.value else fallback
  }

  /** Sign-up's checks before any lookup: name, e-mail and password given,
      and the e-mail well formed. */
  predicate Accepted(req: SignUpRequest, emailValid: bool) {
    Present(req.name) && Present(req.email) && Present(req.password) && emailValid
  }

  const GoogleAuthPassword: string := "GOOGLE_AUTH_USER"

  /** The status a handler ends with once its last table write is done:
      a failing mail delivery is caught and reported as 500. */
  function AfterMail(mailOk: bool): int {
    if mailOk then 200 else 500
  }

  /** `SELECT ... FROM users WHERE key`: the position of the first matching row. */
  function Lookup(users: seq<UserRow>, key: Key): (r: Option<nat>)
    ensures r.Some? ==> r.value < |users| && Matches(users[r.value], key)
    ensures r.Some? ==> forall j :: 0 <= j < r.value ==> !Matches(users[j], key)
    ensures r.None? ==> forall j :: 0 <= j < |users| ==> !Matches(users[j], key)
  {
    if |users| == 0 then None
    else if Matches(users[0], key) then Some(0)
    else match Lookup(users[1..], key)
      case None => None
      case Some(j) => Some(j + 1)
  }

  /** A business row built from the request form; the insert and the update
      statements treat the logo differently, so it is passed separately. */
  function FormBusiness(owner: nat, form: BusinessForm, logo: Option<string>): Business {
    Business(owner, form.name, form.address, form.city, form.state, form.country, form.pincode, logo)
  }

  /** `DELETE FROM businesses WHERE owner_id = owner` */
  function WithoutOwner(businesses: map<nat, Business>, owner: nat): map<nat, Business> {
    map b | b in businesses && businesses[b].ownerId != owner :: businesses[b]
  }

  /** The database's unique constraint on `users.email`. */
  ghost predicate EmailsUnique(users: seq<UserRow>) {
    forall i, j :: 0 <= i < j < |users| ==> users[i].email != users[j].email
  }

  /** Under the unique constraint a lookup by e-mail finds exactly the row
      that has that e-mail. */
  lemma LookupEmailExact(users: seq<UserRow>, k: nat)
    requires EmailsUnique(users) && k < |users|
    ensures Lookup(users, Email(users[k].email)) == Some(k)
  {
  }

  /** What the tables keep between requests: e-mails are unique (the database's
      constraint), business ids come from the auto-increment counter, every
      business has an existing owner, and no user owns two businesses. */
  ghost predicate ValidTables(users: seq<UserRow>, businesses: map<nat, Business>, nextBusinessId: nat) {
    && 1 <= nextBusinessId
    && EmailsUnique(users)
    && (forall b :: b in businesses ==> 1 <= b < nextBusinessId && 1 <= businesses[b].ownerId <= |users|)
    && (forall b, c :: b in businesses && c in businesses && b != c ==>
          businesses[b].ownerId != businesses[c].ownerId)
  }

  /** Rewriting one user row without touching its e-mail keeps the invariant. */
  lemma RowUpdateKeepsValid(users: seq<UserRow>, businesses: map<nat, Business>, next: nat, k: nat, row: UserRow)
    requires ValidTables(users, businesses, next) && k < |users| && row.email == users[k].email
    ensures ValidTables(users[k := row], businesses, next)
  {
  }

  /** Overwriting a business row for the same owner keeps the invariant. */
  lemma BusinessUpdateKeepsValid(users: seq<UserRow>, businesses: map<nat, Business>, next: nat, b: nat, row: Business)
    requires ValidTables(users, businesses, next) && b in businesses && row.ownerId == businesses[b].ownerId
    ensures ValidTables(users, businesses[b := row], next)
  {
  }

  /** Inserting a business under the next id for an existing user who owns
      none keeps the invariant. */
  lemma BusinessInsertKeepsValid(users: seq<UserRow>, businesses: map<nat, Business>, next: nat, row: Business)
    requires ValidTables(users, businesses, next) && 1 <= row.ownerId <= |users|
    requires forall c :: c in businesses ==> businesses[c].ownerId != row.ownerId
    ensures ValidTables(users, businesses[next := row], next + 1)
  {
  }

  /** The business a sign-in response carries: the row `business_id` names,
      when the user is a business admin, the id is set and the row exists. */
  function AttachedBusiness(u: UserRow, businesses: map<nat, Business>): Option<nat> {
    if u.role == BusinessAdmin && u.businessId.Some? && u.businessId.value != 0 && u.businessId.value in businesses
    then u.businessId
    else None
  }

  class UserStore {
    var users: seq<UserRow>
    var businesses: map<nat, Business>
    var nextBusinessId: nat

    ghost predicate Valid()
      reads this
    {
      ValidTables(users, businesses, nextBusinessId)
    }

    constructor (users0: seq<UserRow>, businesses0: map<nat, Business>, nextBusinessId0: nat)
      requires ValidTables(users0, businesses0, nextBusinessId0)
      ensures Valid()
      ensures users == users0 && businesses == businesses0 && nextBusinessId == nextBusinessId0
    {
      users, businesses, nextBusinessId := users0, businesses0, nextBusinessId0;
    }

    /** The role-flip branch of sign-up: the unverified row at position k is
        rewritten with the new details and OTP as a plain user, and every
        business it owns is deleted. */
    method DemoteToPlainUser(k: nat, req: SignUpRequest, otp: string, hashed: string)
      requires Valid() && k < |users|
      modifies this
      ensures Valid()
      ensures users == old(users)[k := old(users)[k].(
                name := req.name, password := hashed, number := OrNull(req.number),
                address := Some(OrElse(req.address, "Not Provided")),
                profilePhoto := OrNull(req.profilePhoto), otp := Some(otp),
                role := PlainUser, businessId := None)]
      ensures forall b :: b in businesses <==> b in old(businesses) && old(businesses)[b].ownerId != k + 1
      ensures forall b :: b in businesses ==> businesses[b] == old(businesses)[b]
      ensures nextBusinessId == old(nextBusinessId)
    {
      users := users[k := users[k].(
        name := req.name, password := hashed, number := OrNull(req.number),
        address := Some(OrElse(req.address, "Not Provided")),
        profilePhoto := OrNull(req.profilePhoto), otp := Some(otp),
        role := PlainUser, businessId := None)];
      businesses := WithoutOwner(businesses, k + 1);
    }

    /** The upgrade branch of sign-up for the row at position k: the business
        it owns is overwritten from the form and linked, or, when it owns none,
        a business is inserted and the link is read from the INSERT result's
        `id`, which such a result does not have, so it becomes NULL. Name,
        password and OTP of the row stay as they were. */
    method PromoteToBusinessAdmin(k: nat, form: BusinessForm)
      requires Valid() && k < |users|
      modifies this
      ensures Valid()
      ensures forall b :: b in old(businesses) && old(businesses)[b].ownerId == k + 1 ==>
                && businesses == old(businesses)[b := FormBusiness(k + 1, form, form.logo)]
                && users == old(users)[k := old(users)[k].(role := BusinessAdmin, businessId := Some(b))]
                && nextBusinessId == old(nextBusinessId)
      ensures (forall b :: b in old(businesses) ==> old(businesses)[b].ownerId != k + 1) ==>
                && businesses == old(businesses)[old(nextBusinessId) := FormBusiness(k + 1, form, OrNull(form.logo))]
                && nextBusinessId == old(nextBusinessId) + 1
                && users == old(users)[k := old(users)[k].(role := BusinessAdmin, businessId := None)]
    {
      var owned := set b | b in businesses && businesses[b].ownerId == k + 1;
      var link: Option<nat>;
      if owned != {} {
        var b :| b in owned;
        assert forall c :: c in businesses && businesses[c].ownerId == k + 1 ==> c == b;
        BusinessUpdateKeepsValid(users, businesses, nextBusinessId, b, FormBusiness(k + 1, form, form.logo));
        businesses := businesses[b := FormBusiness(k + 1, form, form.logo)];
        link := Some(b);
      } else {
        assert forall c :: c in businesses ==> businesses[c].ownerId != k + 1 by {
          forall c | c in businesses ensures businesses[c].ownerId != k + 1 {
            assert c !in owned;
          }
        }
        BusinessInsertKeepsValid(users, businesses, nextBusinessId, FormBusiness(k + 1, form, OrNull(form.logo)));
        businesses := businesses[nextBusinessId := FormBusiness(k + 1, form, OrNull(form.logo))];
        nextBusinessId := nextBusinessId + 1;
        // `businessResult.id` of an INSERT result is undefined
        link := None;
      }
      RowUpdateKeepsValid(users, businesses, nextBusinessId, k, users[k].(role := BusinessAdmin, businessId := link));
      users := users[k := users[k].(role := BusinessAdmin, businessId := link)];
    }

    /** Appends `row` as a new user and, for a business admin, inserts the
        business it owns and links the row to it. */
    method InsertUser(row: UserRow, isBusinessAdmin: bool, form: BusinessForm)
      requires Valid() && Lookup(users, Email(row.email)).None? && row.businessId.None?
      modifies this
      ensures Valid()
      ensures users == old(users) + [row.(businessId := if isBusinessAdmin then Some(old(nextBusinessId)) else None)]
      ensures businesses == (if isBusinessAdmin
                             then old(businesses)[old(nextBusinessId) :=
                               FormBusiness(|old(users)| + 1, form, OrNull(form.logo))]
                             else old(businesses))
      ensures nextBusinessId == old(nextBusinessId) + (if isBusinessAdmin then 1 else 0)
    {
      var newId := |users| + 1;
      users := users + [row];
      if isBusinessAdmin {
        var businessId := nextBusinessId;
        businesses := businesses[businessId := FormBusiness(newId, form, OrNull(form.logo))];
        nextBusinessId := nextBusinessId + 1;
        users := users[newId - 1 := users[newId - 1].(businessId := Some(businessId))];
      }
    }

    /** Registration with e-mail and password. */
    method SignUp(req: SignUpRequest, emailValid: bool, otp: string, hashed: string, mailOk: bool)
      returns (status: int)
      requires Valid()
      modifies this
      ensures Valid()
      // Missing fields and a malformed e-mail are rejected before any lookup.
      ensures !Accepted(req, emailValid) ==> status == 400 && unchanged(this)
      // A verified account with this e-mail: conflict.
      ensures Accepted(req, emailValid) ==>
                var k := Lookup(old(users), Email(req.email.value));
                (k.Some? && old(users)[k.value].isVerified) ==> status == 409 && unchanged(this)
      // An unverified business admin signing up as a plain user: the row is
      // rewritten with the new details and OTP, and its businesses are deleted.
      ensures Accepted(req, emailValid) ==>
                var k := Lookup(old(users), Email(req.email.value));
                (k.Some? && !old(users)[k.value].isVerified && old(users)[k.value].role == BusinessAdmin
                 && !req.isBusinessAdmin) ==>
                  && status == AfterMail(mailOk)
                  && users == old(users)[k.value := old(users)[k.value].(
                       name := req.name, password := hashed, number := OrNull(req.number),
                       address := Some(OrElse(req.address, "Not Provided")),
                       profilePhoto := OrNull(req.profilePhoto), otp := Some(otp),
                       role := PlainUser, businessId := None)]
                  && (forall b :: b in businesses <==> b in old(businesses) && old(businesses)[b].ownerId != k.value + 1)
                  && (forall b :: b in businesses ==> businesses[b] == old(businesses)[b])
                  && nextBusinessId == old(nextBusinessId)
      // An unverified account asking for business admin, owning a business:
      // the business is overwritten and linked; only role and link change on the user.
      ensures Accepted(req, emailValid) ==>
                var k := Lookup(old(users), Email(req.email.value));
                (k.Some? && !old(users)[k.value].isVerified && req.isBusinessAdmin) ==>
                  forall b :: b in old(businesses) && old(businesses)[b].ownerId == k.value + 1 ==>
                    && status == AfterMail(mailOk)
                    && businesses == old(businesses)[b := FormBusiness(k.value + 1, req.business, req.business.logo)]
                    && users == old(users)[k.value := old(users)[k.value].(role := BusinessAdmin, businessId := Some(b))]
                    && nextBusinessId == old(nextBusinessId)
      // The same, owning no business: a business is inserted, but the user's
      // link becomes NULL.
      ensures Accepted(req, emailValid) ==>
                var k := Lookup(old(users), Email(req.email.value));
                (k.Some? && !old(users)[k.value].isVerified && req.isBusinessAdmin
                 && (forall b :: b in old(businesses) ==> old(businesses)[b].ownerId != k.value + 1)) ==>
                  && status == AfterMail(mailOk)
                  && businesses == old(businesses)[old(nextBusinessId) :=
                       FormBusiness(k.value + 1, req.business, OrNull(req.business.logo))]
                  && nextBusinessId == old(nextBusinessId) + 1
                  && users == old(users)[k.value := old(users)[k.value].(role := BusinessAdmin, businessId := None)]
      // An unverified plain user signing up as a plain user falls through to
      // the INSERT, which the unique e-mail rejects.
      ensures Accepted(req, emailValid) ==>
                var k := Lookup(old(users), Email(req.email.value));
                (k.Some? && !old(users)[k.value].isVerified && old(users)[k.value].role == PlainUser
                 && !req.isBusinessAdmin) ==> status == 500 && unchanged(this)
      // A new e-mail: one unverified user is appended, and for a business
      // admin one business owned by that user, which the user links to.
      ensures Accepted(req, emailValid) && Lookup(old(users), Email(req.email.value)).None? ==>
                && status == AfterMail(mailOk)
                && users == old(users) + [UserRow(
                     req.name, req.email.value, hashed, OrNull(req.number),
                     Some(OrElse(req.address, "Not Provided")), OrNull(req.profilePhoto),
                     if req.isBusinessAdmin then BusinessAdmin else PlainUser,
                     Some(otp), false, None, None,
                     if req.isBusinessAdmin then Some(old(nextBusinessId)) else None)]
                && businesses == (if req.isBusinessAdmin
                                  then old(businesses)[old(nextBusinessId) :=
                                    FormBusiness(|old(users)| + 1, req.business, OrNull(req.business.logo))]
                                  else old(businesses))
                && nextBusinessId == old(nextBusinessId) + (if req.isBusinessAdmin then 1 else 0)
    {
      if !Present(req.name) || !Present(req.email) || !Present(req.password) {
        return 400;
      }
      if !emailValid {
        return 400;
      }
      var email := req.email.value;
      var existing := Lookup(users, Email(email));
      if existing.Some? {
        var k := existing.value;
        if !users[k].isVerified {
          if users[k].role == BusinessAdmin && !req.isBusinessAdmin {
            DemoteToPlainUser(k, req, otp, hashed);
            return AfterMail(mailOk);
          }
          if req.isBusinessAdmin {
            PromoteToBusinessAdmin(k, req.business);
            return AfterMail(mailOk);
          }
        } else {
          return 409;
        }
      }
      if existing.Some? {
        // the INSERT below would duplicate a unique e-mail; the error is caught
        return 500;
      }
      InsertUser(UserRow(
        req.name, email, hashed, OrNull(req.number), Some(OrElse(req.address, "Not Provided")),
        OrNull(req.profilePhoto), if req.isBusinessAdmin then BusinessAdmin else PlainUser,
        Some(otp), false, None, None, None), req.isBusinessAdmin, req.business);
      return AfterMail(mailOk);
    }

    /** Stores a fresh OTP on the account and mails it. */
    method ResendOTP(email: Option<string>, otp: string, mailOk: bool) returns (status: int)
      requires Valid()
      modifies this
      ensures Valid()
      ensures businesses == old(businesses) && nextBusinessId == old(nextBusinessId)
      ensures !Present(email) ==> status == 400 && users == old(users)
      ensures Present(email) ==>
                var k := Lookup(old(users), Email(email.value));
                && (k.None? ==> status == 404 && users == old(users))
                && (k.Some? ==> status == AfterMail(mailOk)
                                && users == old(users)[k.value := old(users)[k.value].(otp := Some(otp))])
    {
      if !Present(email) {
        return 400;
      }
      var k := Lookup(users, Email(email.value));
      if k.None? {
        return 404;
      }
      users := users[k.value := users[k.value].(otp := Some(otp))];
      return AfterMail(mailOk);
    }

    /** Activates the account whose stored OTP equals the one given. */
    method VerifyOTP(email: Option<string>, otp: Option<string>) returns (status: int)
      requires Valid()
      modifies this
      ensures Valid()
      ensures businesses == old(businesses) && nextBusinessId == old(nextBusinessId)
      ensures !Present(email) || !Present(otp) ==> status == 400 && users == old(users)
      ensures Present(email) && Present(otp) ==>
                var k := Lookup(old(users), Email(email.value));
                && (k.None? ==> status == 404 && users == old(users))
                && (k.Some? && old(users)[k.value].otp != Some(otp.value) ==> status == 400 && users == old(users))
                && (k.Some? && old(users)[k.value].otp == Some(otp.value) ==>
                      status == 200
                      && users == old(users)[k.value := old(users)[k.value].(isVerified := true, otp := None)])
    {
      if !Present(email) || !Present(otp) {
        return 400;
      }
      var k := Lookup(users, Email(email.value));
      if k.None? {
        return 404;
      }
      if users[k.value].otp != Some(otp.value) {
        return 400;
      }
      users := users[k.value := users[k.value].(isVerified := true, otp := None)];
      return 200;
    }

    /** Password sign-in of a verified account. `compare(password, stored)` is
        bcrypt's verdict; `sessionToken` is the JWT signed for the account. */
    method SignIn(email: Option<string>, password: Option<string>, compare: (string, string) -> bool,
                  sessionToken: string)
      returns (status: int, token: Option<string>, business: Option<nat>)
      requires Valid()
      modifies this
      ensures Valid()
      ensures businesses == old(businesses) && nextBusinessId == old(nextBusinessId)
      ensures status != 200 ==> users == old(users) && token.None? && business.None?
      ensures !Present(email) || !Present(password) ==> status == 400
      ensures Present(email) && Present(password) ==>
                var k := Lookup(old(users), Email(email.value));
                && (k.None? ==> status == 404)
                && (k.Some? && !old(users)[k.value].isVerified ==> status == 403)
                && (k.Some? && old(users)[k.value].isVerified && !compare(password.value, old(users)[k.value].password) ==>
                      status == 401)
                && (k.Some? && old(users)[k.value].isVerified && compare(password.value, old(users)[k.value].password) ==>
                      && status == 200
                      && token == Some(sessionToken)
                      && users == old(users)[k.value := old(users)[k.value].(authToken := token)]
                      && business == AttachedBusiness(old(users)[k.value], businesses))
      // a business is attached only to a business admin, and it is the one
      // the account's `business_id` names
      ensures business.Some? ==>
                && Present(email)
                && var k := Lookup(old(users), Email(email.value));
                && k.Some? && old(users)[k.value].role == BusinessAdmin
                && old(users)[k.value].businessId == business && business.value in businesses
    {
      status, token, business := 0, None, None;
      if !Present(email) || !Present(password) {
        return 400, None, None;
      }
      var k := Lookup(users, Email(email.value));
      if k.None? {
        return 404, None, None;
      }
      var user := users[k.value];
      if !user.isVerified {
        return 403, None, None;
      }
      if !compare(password.value, user.password) {
        return 401, None, None;
      }
      users := users[k.value := user.(authToken := Some(sessionToken))];
      token := Some(sessionToken);
      business := AttachedBusiness(user, businesses);
      status := 200;
    }

    /** Stores a reset token in `auth_token` and mails the reset link. */
    method ForgotPasswordLink(email: Option<string>, resetToken: string, mailOk: bool) returns (status: int)
      requires Valid()
      modifies this
      ensures Valid()
      ensures businesses == old(businesses) && nextBusinessId == old(nextBusinessId)
      ensures !Present(email) ==> status == 400 && users == old(users)
      ensures Present(email) ==>
                var k := Lookup(old(users), Email(email.value));
                && (k.None? ==> status == 404 && users == old(users))
                && (k.Some? ==> status == AfterMail(mailOk)
                                && users == old(users)[k.value := old(users)[k.value].(authToken := Some(resetToken))])
    {
      if !Present(email) {
        return 400;
      }
      var k := Lookup(users, Email(email.value));
      if k.None? {
        return 404;
      }
      users := users[k.value := users[k.value].(authToken := Some(resetToken))];
      return AfterMail(mailOk);
    }

    /** Sets a new password for the account a stored, verifying token names.
        `verify(token)` is the id in the token's payload, or None when JWT
        verification throws; `hashed` is bcrypt's hash of the new password. */
    method ResetPasswordLink(token: Option<string>, newPassword: Option<string>,
                             verify: string -> Option<nat>, hashed: string)
      returns (status: int)
      requires Valid()
      modifies this
      ensures Valid()
      ensures businesses == old(businesses) && nextBusinessId == old(nextBusinessId)
      ensures !Present(token) || !Present(newPassword) ==> status == 400 && users == old(users)
      // a token no row stores is rejected, whether or not it verifies
      ensures Present(token) && Present(newPassword)
              && (forall j :: 0 <= j < |old(users)| ==> old(users)[j].authToken != Some(token.value)) ==>
                status == 400 && users == old(users)
      // a token that fails verification is rejected
      ensures Present(token) && Present(newPassword) && verify(token.value).None? ==>
                status == 400 && users == old(users)
      ensures Present(token) && Present(newPassword)
              && (exists j :: 0 <= j < |old(users)| && old(users)[j].authToken == Some(token.value))
              && verify(token.value).Some? ==>
                var id := verify(token.value).value;
                && status == 200
                && (1 <= id <= |old(users)| ==>
                      users == old(users)[id - 1 := old(users)[id - 1].(password := hashed, authToken := None)])
                && (!(1 <= id <= |old(users)|) ==> users == old(users))
    {
      if !Present(token) || !Present(newPassword) {
        return 400;
      }
      var holder := Lookup(users, AuthToken(token.value));
      if holder.None? {
        return 400;
      }
      var decoded := verify(token.value);
      if decoded.None? {
        return 400;
      }
      var id := decoded.value;
      // `UPDATE ... WHERE id = ?` touches the row the payload names, if any
      if 1 <= id <= |users| {
        users := users[id - 1 := users[id - 1].(password := hashed, authToken := None)];
      }
      return 200;
    }

    /** Partial profile update of the signed-in user `userId`. Only `id` and
        `number` are read back before the update, so an empty name, address or
        photo is written as NULL; an empty number keeps the stored one. */
    method UpdateUserProfile(userId: nat, name: Option<string>, number: Option<string>,
                             address: Option<string>, profilePhoto: Option<string>)
      returns (status: int)
      requires Valid()
      modifies this
      ensures Valid()
      ensures businesses == old(businesses) && nextBusinessId == old(nextBusinessId)
      ensures !(1 <= userId <= |old(users)|) ==> status == 404 && users == old(users)
      ensures 1 <= userId <= |old(users)| ==>
                var u := old(users)[userId - 1];
                var taken := Present(number) && Some(number.value) != u.number
                             && exists j :: 0 <= j < |old(users)| && old(users)[j].number == number;
                && (taken ==> status == 409 && users == old(users))
                && (!taken ==>
                      && status == 200
                      && users == old(users)[userId - 1 := u.(
                           name := OrNull(name),
                           number := if Present(number) then number else u.number,
                           address := OrNull(address),
                           profilePhoto := OrNull(profilePhoto))])
    {
      if !(1 <= userId <= |users|) {
        return 404;
      }
      var u := users[userId - 1];
      if Present(number) && Some(number.value) != u.number {
        var owner := Lookup(users, Number(number.value));
        if owner.Some? {
          return 409;
        }
      }
      users := users[userId - 1 := u.(
        name := OrNull(name),
        number := if Present(number) then number else u.number,
        address := OrNull(address),
        profilePhoto := OrNull(profilePhoto))];
      return 200;
    }

    /** Sign-in with a Google access token. `google` is the userinfo answer,
        None when the request fails. */
    method GoogleSignIn(token: Option<string>, google: Option<GoogleInfo>, sessionToken: string)
      returns (status: int, session: Option<string>, business: Option<nat>)
      requires Valid()
      modifies this
      ensures Valid()
      ensures businesses == old(businesses) && nextBusinessId == old(nextBusinessId)
      ensures status != 200 ==> users == old(users) && session.None? && business.None?
      ensures !Present(token) ==> status == 400
      ensures Present(token) && google.None? ==> status == 500
      ensures Present(token) && google.Some? && !google.value.verifiedEmail ==> status == 400
      ensures Present(token) && google.Some? && google.value.verifiedEmail ==>
                var k := Lookup(old(users), Email(google.value.email));
                && (k.None? ==> status == 404)
                && (k.Some? && !old(users)[k.value].isVerified ==> status == 403)
                && (k.Some? && old(users)[k.value].isVerified ==>
                      && status == 200
                      && session == Some(sessionToken)
                      && users == old(users)[k.value := old(users)[k.value].(authToken := session)]
                      && business == AttachedBusiness(old(users)[k.value], businesses))
    {
      status, session, business := 0, None, None;
      if !Present(token) {
        return 400, None, None;
      }
      if google.None? {
        return 500, None, None;
      }
      if !google.value.verifiedEmail {
        return 400, None, None;
      }
      var k := Lookup(users, Email(google.value.email));
      if k.None? {
        return 404, None, None;
      }
      var user := users[k.value];
      if !user.isVerified {
        return 403, None, None;
      }
      users := users[k.value := user.(authToken := Some(sessionToken))];
      session := Some(sessionToken);
      business := AttachedBusiness(user, businesses);
      status := 200;
    }

    /** Registration with a Google access token: a verified account without a
        password, signed in at once. */
    method GoogleRegister(req: GoogleRegisterRequest, google: Option<GoogleInfo>, sessionToken: string)
      returns (status: int, session: Option<string>, business: Option<nat>)
      requires Valid()
      modifies this
      ensures Valid()
      ensures status != 200 ==> unchanged(this) && session.None? && business.None?
      ensures !Present(req.name) || !Present(req.token) ==> status == 400
      ensures Present(req.name) && Present(req.token) && google.None? ==> status == 500
      ensures Present(req.name) && Present(req.token) && google.Some? && !google.value.verifiedEmail ==>
                status == 400
      ensures Present(req.name) && Present(req.token) && google.Some? && google.value.verifiedEmail ==>
                var k := Lookup(old(users), Email(google.value.email));
                && (k.Some? ==> status == 409)
                && (k.None? ==>
                      && status == 200
                      && session == Some(sessionToken)
                      && users == old(users) + [UserRow(
                           req.name, google.value.email, GoogleAuthPassword,
                           Some(OrElse(req.number, "0000000000")),
                           Some(OrElse(req.address, "Signed up with Google")),
                           OrNull(req.profilePhoto),
                           if req.isBusinessAdmin then BusinessAdmin else PlainUser,
                           None, true, session, None,
                           if req.isBusinessAdmin then Some(old(nextBusinessId)) else None)]
                      && business == (if req.isBusinessAdmin then Some(old(nextBusinessId)) else None)
                      && businesses == (if req.isBusinessAdmin
                                        then old(businesses)[old(nextBusinessId) :=
                                          FormBusiness(|old(users)| + 1, req.business, OrNull(req.business.logo))]
                                        else old(businesses))
                      && nextBusinessId == old(nextBusinessId) + (if req.isBusinessAdmin then 1 else 0))
    {
      status, session, business := 0, None, None;
      if !Present(req.name) || !Present(req.token) {
        return 400, None, None;
      }
      if google.None? {
        return 500, None, None;
      }
      if !google.value.verifiedEmail {
        return 400, None, None;
      }
      var email := google.value.email;
      var existing := Lookup(users, Email(email));
      if existing.Some? {
        return 409, None, None;
      }
      var newId := |users| + 1;
      users := users + [UserRow(
        req.name, email, GoogleAuthPassword, Some(OrElse(req.number, "0000000000")),
        Some(OrElse(req.address, "Signed up with Google")), OrNull(req.profilePhoto),
        if req.isBusinessAdmin then BusinessAdmin else PlainUser,
        None, true, None, None, None)];
      if req.isBusinessAdmin {
        var businessId := nextBusinessId;
        businesses := businesses[businessId := FormBusiness(newId, req.business, OrNull(req.business.logo))];
        nextBusinessId := nextBusinessId + 1;
        users := users[newId - 1 := users[newId - 1].(businessId := Some(businessId))];
        business := Some(businessId);
      }
      users := users[newId - 1 := users[newId - 1].(authToken := Some(sessionToken))];
      session := Some(sessionToken);
      status := 200;
    }
  }
}
