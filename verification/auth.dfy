/** Accounts: signup with its ordered checks and verification mail, signin
    with its null-free user payload, and the verification and password-reset
    token lifecycles. */
module AuthService {
  import opened Common
  import opened SignupDto
  import opened Store

  /** What an account operation returns, with the user table and outbox it
      leaves behind. */
  datatype AccountOutcome = AccountOutcome(result: Result<string>, users: map<Id, User>, outbox: seq<Mail>)

  /** What an account operation that sends no mail returns, with the user
      table it leaves behind. */
  datatype UsersOutcome = UsersOutcome(result: Result<string>, users: map<Id, User>)

  // ---------------------------------------------------------------------
  // Mail

  const VerifyLinkBase := "http://yourfrontend.com/verify-email?token="
  const ResetLinkBase := "http://yourfrontend.com/reset-password?token="
  const ResetTextLead := "You requested a password reset. Use the following token: "

  /** The verification mail; it has no plain-text body. */
  function VerificationMail(email: string, token: Token): (m: Mail)
    ensures m.to == email && m.subject == "Verify Your Email" && m.body == VerificationBody(token)
  {
    Mail(email, "Verify Your Email", VerificationBody(token))
  }

  /** The HTML body of the verification mail, reduced to the link it carries. */
  function VerificationHtml(token: Token): (html: string)
    ensures Contains(html, token)
  {
    ContainsEnd(VerifyLinkBase, token);
    VerifyLinkBase + token
  }

  function ResetMail(email: string, token: Token): (m: Mail)
    ensures m.to == email && m.subject == "\U{1F512} Password Reset Request" && m.body == ResetBody(token)
  {
    Mail(email, "\U{1F512} Password Reset Request", ResetBody(token))
  }

  /** The plain-text body of the reset mail. */
  function ResetText(token: Token): (text: string)
    ensures Contains(text, token)
  {
    ContainsEnd(ResetTextLead, token);
    ResetTextLead + token
  }

  /** The HTML body of the reset mail, reduced to the reset link. */
  function ResetHtml(token: Token): (html: string)
    ensures Contains(html, token)
  {
    ContainsEnd(ResetLinkBase, token);
    ResetLinkBase + token
  }

  /** The token a verification or reset mail is built around reaches the
      reader: every body rendered from the mail carries it. */
  lemma AccountMailsCarryToken(email: string, token: Token)
    ensures var m := VerificationMail(email, token);
      m.body.VerificationBody? && Contains(VerificationHtml(m.body.verificationToken), token)
    ensures var m := ResetMail(email, token);
      && m.body.ResetBody?
      && Contains(ResetText(m.body.resetToken), token) && Contains(ResetHtml(m.body.resetToken), token)
  {
  }

  // ---------------------------------------------------------------------
  // Signup

  const SignupRejectsAdmin := BadRequest("You cannot sign up as an ADMIN")
  const SignupDuplicate := BadRequest("User already exists")
  const SignupShortPassword := BadRequest("Password must be at least 6 characters long")
  const SignupFailed := BadRequest("Error creating user. Please try again.")

  /** The row signup writes: unverified, holding the verification token. */
  function NewUser(dto: Signup, role: Role, token: Token): (u: User)
    ensures u.email == dto.email && PasswordMatches(dto.password, u.password)
    ensures u.role == role && !u.verified && u.verificationToken == Some(token)
    ensures u.resetToken.None? && u.resetTokenExpiry.None? && u.deletedAt.None?
  {
    User(dto.email, HashPassword(dto.password), dto.firstName, dto.lastName,
         dto.phoneNumber, dto.profilePicture, dto.bio, dto.website,
         role, false, Some(token), None, None, None)
  }

  /** The whole effect of `signup`: `userId` is the id the database assigns,
      `token` the verification token drawn, `bounces` the addresses the
      mail transport refuses. The checks run in the service's order; the
      role string is stored as given, so a name outside the enumeration makes
      the insert fail, and that failure and a failed mail (sent after the
      user row is written) both surface as the same generic error. */
  function SignupOutcome(
    users: map<Id, User>, outbox: seq<Mail>, dto: Signup, userId: Id, token: Token, bounces: set<string>
  ): AccountOutcome
    requires UniqueEmails(users)
  {
    if dto.role == "ADMIN" then AccountOutcome(Err(SignupRejectsAdmin), users, outbox)
    else if UserByEmail(users, dto.email).Some? then AccountOutcome(Err(SignupDuplicate), users, outbox)
    else if |dto.password| < MinPasswordLength then AccountOutcome(Err(SignupShortPassword), users, outbox)
    else if ParseRole(dto.role).None? then AccountOutcome(Err(SignupFailed), users, outbox)
    else
      var created := users[userId := NewUser(dto, ParseRole(dto.role).value, token)];
      if dto.email in bounces then AccountOutcome(Err(SignupFailed), created, outbox)
      else
        AccountOutcome(Ok("User created successfully. Please verify your email."), created,
                       outbox + [VerificationMail(dto.email, token)])
  }

  /** The checks come in order, ADMIN first, then an existing address, then
      the password length; a signup any of them rejects changes nothing. */
  lemma SignupCheckOrder(users: map<Id, User>, outbox: seq<Mail>, dto: Signup, userId: Id, token: Token, bounces: set<string>)
    requires UniqueEmails(users)
    ensures var o := SignupOutcome(users, outbox, dto, userId, token, bounces);
      && (dto.role == "ADMIN" ==> o == AccountOutcome(Err(SignupRejectsAdmin), users, outbox))
      && (dto.role != "ADMIN" && (exists id :: id in users && users[id].email == dto.email) ==>
            o == AccountOutcome(Err(SignupDuplicate), users, outbox))
      && (dto.role != "ADMIN" && (forall id :: id in users ==> users[id].email != dto.email) && |dto.password| < 6 ==>
            o == AccountOutcome(Err(SignupShortPassword), users, outbox))
  {
  }

  /** Signup succeeds exactly when it passes the three checks, names a role
      and the mail goes out; then it adds one unverified user holding the
      token and sends one verification mail to the new address. */
  lemma SignupSuccess(users: map<Id, User>, outbox: seq<Mail>, dto: Signup, userId: Id, token: Token, bounces: set<string>)
    requires UniqueEmails(users) && userId !in users
    ensures var o := SignupOutcome(users, outbox, dto, userId, token, bounces);
      o.result.Ok? <==>
        && dto.role != "ADMIN" && (forall id :: id in users ==> users[id].email != dto.email)
        && |dto.password| >= 6 && ParseRole(dto.role).Some? && dto.email !in bounces
    ensures var o := SignupOutcome(users, outbox, dto, userId, token, bounces);
      o.result.Ok? ==>
        && o.users.Keys == users.Keys + {userId}
        && (forall id :: id in users ==> o.users[id] == users[id])
        && o.users[userId].email == dto.email && !o.users[userId].verified
        && o.users[userId].verificationToken == Some(token)
        && RoleName(o.users[userId].role) == dto.role
        && o.outbox == outbox + [VerificationMail(dto.email, token)]
  {
  }

  /** Every failure after the three checks, whether the insert or the mail,
      is reported as the one generic error. */
  lemma SignupFailuresCollapse(users: map<Id, User>, outbox: seq<Mail>, dto: Signup, userId: Id, token: Token, bounces: set<string>)
    requires UniqueEmails(users)
    requires dto.role != "ADMIN" && UserByEmail(users, dto.email).None? && |dto.password| >= 6
    requires ParseRole(dto.role).None? || dto.email in bounces
    ensures SignupOutcome(users, outbox, dto, userId, token, bounces).result == Err(SignupFailed)
  {
  }

  /** A payload that passed validation never meets the service's length
      check: that check repeats the DTO's own rule. */
  lemma ValidDtoPassesLengthCheck(users: map<Id, User>, outbox: seq<Mail>, dto: Signup, userId: Id, token: Token, bounces: set<string>)
    requires UniqueEmails(users) && IsValid(dto)
    ensures SignupOutcome(users, outbox, dto, userId, token, bounces).result != Err(SignupShortPassword)
  {
  }

  /** `signup`. `userId` must be new and `token` must be held by no one. */
  method SignupUser(db: Db, dto: Signup, userId: Id, token: Token, bounces: set<string>) returns (r: Result<string>)
    requires db.Valid() && userId !in db.users && !TokenInUse(db.users, db.approvals, token)
    modifies db`users, db`outbox
    ensures db.Valid()
    ensures var o := SignupOutcome(old(db.users), old(db.outbox), dto, userId, token, bounces);
      r == o.result && db.users == o.users && db.outbox == o.outbox
  {
    if dto.role == "ADMIN" {
      return Err(SignupRejectsAdmin);
    }
    if UserByEmail(db.users, dto.email).Some? {
      return Err(SignupDuplicate);
    }
    if |dto.password| < MinPasswordLength {
      return Err(SignupShortPassword);
    }
    var role := ParseRole(dto.role);
    if role.None? {
      return Err(SignupFailed);
    }
    InsertKeepsUniqueness(db.users, userId, NewUser(dto, role.value, token));
    db.users := db.users[userId := NewUser(dto, role.value, token)];
    if dto.email in bounces {
      return Err(SignupFailed);
    }
    db.outbox := db.outbox + [VerificationMail(dto.email, token)];
    r := Ok("User created successfully. Please verify your email.");
  }

  // ---------------------------------------------------------------------
  // Signin

  /** What the signed token carries (signing itself is not modelled). */
  datatype JwtPayload = JwtPayload(id: Id, email: string)

  /** The user part of the response, an object from field names to values. */
  datatype SigninResponse = SigninResponse(message: string, token: JwtPayload, user: map<string, string>)

  /** The fields the signin response lists, the optional ones possibly
      null. */
  function UserEntries(id: Id, u: User): map<string, Option<string>> {
    map[ "id" := Some(id), "email" := Some(u.email), "firstName" := Some(u.firstName), "lastName" := Some(u.lastName),
         "phoneNumber" := u.phoneNumber, "profilePicture" := u.profilePicture, "bio" := u.bio,
         "website" := u.website, "role" := Some(RoleName(u.role)) ]
  }

  /** Dropping the entries whose value is null and unwrapping the others. */
  function StripNulls(entries: map<string, Option<string>>): (r: map<string, string>)
    ensures forall k :: k in r <==> k in entries && entries[k].Some?
    ensures forall k :: k in r ==> entries[k] == Some(r[k])
  {
    map k | k in entries && entries[k].Some? :: entries[k].value
  }

  const InvalidCredentials := "Invalid credentials"

  /** `signin`: an unknown address and a wrong password are refused alike. */
  function Signin(users: map<Id, User>, email: string, password: string): (r: Result<SigninResponse>)
    requires UniqueEmails(users)
    ensures r.Err? ==> r.error == BadRequest(InvalidCredentials)
    ensures r.Ok? <==> exists id :: id in users && users[id].email == email && PasswordMatches(password, users[id].password)
  {
    match UserByEmail(users, email)
    case None => Err(BadRequest(InvalidCredentials))
    case Some(id) =>
      var u := users[id];
      if !PasswordMatches(password, u.password) then Err(BadRequest(InvalidCredentials))
      else Ok(SigninResponse("Login successful", JwtPayload(id, u.email), StripNulls(UserEntries(id, u))))
  }

  /** The payload of a user lists only the signin fields, and always its
      id, address, names and role. */
  lemma PayloadFields(id: Id, u: User)
    ensures var p := StripNulls(UserEntries(id, u));
      && p.Keys <= {"id", "email", "firstName", "lastName", "phoneNumber", "profilePicture", "bio", "website", "role"}
      && "id" in p && p["id"] == id && "email" in p && p["email"] == u.email
      && "firstName" in p && p["firstName"] == u.firstName
      && "lastName" in p && p["lastName"] == u.lastName
      && "role" in p && p["role"] == RoleName(u.role)
  {
  }

  /** An optional field is in the payload exactly when it is set, with its
      value. */
  lemma PayloadOptionalFields(id: Id, u: User)
    ensures var p := StripNulls(UserEntries(id, u));
      && ("phoneNumber" in p <==> u.phoneNumber.Some?) && (u.phoneNumber.Some? ==> p["phoneNumber"] == u.phoneNumber.value)
      && ("profilePicture" in p <==> u.profilePicture.Some?)
      && (u.profilePicture.Some? ==> p["profilePicture"] == u.profilePicture.value)
      && ("bio" in p <==> u.bio.Some?) && (u.bio.Some? ==> p["bio"] == u.bio.value)
      && ("website" in p <==> u.website.Some?) && (u.website.Some? ==> p["website"] == u.website.value)
  {
  }

  /** A successful signin answers with a token for the user the address
      belongs to, and that user's payload. */
  lemma SigninPayload(users: map<Id, User>, email: string, password: string)
    requires UniqueEmails(users)
    ensures var r := Signin(users, email, password);
      r.Ok? ==>
        && r.value.message == "Login successful"
        && r.value.token.id in users && users[r.value.token.id].email == email && r.value.token.email == email
        && PasswordMatches(password, users[r.value.token.id].password)
        && r.value.user == StripNulls(UserEntries(r.value.token.id, users[r.value.token.id]))
  {
  }

  /** `validateUser`: the user an address and password identify. */
  function ValidateUser(users: map<Id, User>, email: string, password: string): (r: Result<Id>)
    requires UniqueEmails(users)
    ensures r.Ok? ==> r.value in users && users[r.value].email == email && PasswordMatches(password, users[r.value].password)
    ensures r.Err? ==> r.error == Unauthorized(InvalidCredentials)
    ensures r.Ok? <==> Signin(users, email, password).Ok?
  {
    match UserByEmail(users, email)
    case None => Err(Unauthorized(InvalidCredentials))
    case Some(id) => if PasswordMatches(password, users[id].password) then Ok(id) else Err(Unauthorized(InvalidCredentials))
  }

  // ---------------------------------------------------------------------
  // Password reset

  /** Fifteen minutes, in milliseconds. */
  const ResetWindow := 15 * 60 * 1000

  /** The whole effect of `forgotPassword`: the token and its expiry are
      stored before the mail is sent, so they stay when sending fails. */
  function ForgotPassword(users: map<Id, User>, outbox: seq<Mail>, email: string, token: Token, now: Millis, bounces: set<string>)
    : AccountOutcome
    requires UniqueEmails(users)
  {
    match UserByEmail(users, email)
    case None => AccountOutcome(Err(BadRequest("User not found")), users, outbox)
    case Some(id) =>
      var updated := users[id := users[id].(resetToken := Some(token), resetTokenExpiry := Some(now + ResetWindow))];
      if email in bounces then AccountOutcome(Err(BadRequest("Failed to send password reset email")), updated, outbox)
      else AccountOutcome(Ok("Password reset email sent"), updated, outbox + [ResetMail(email, token)])
  }

  /** An unknown address is refused and nothing changes; a known one gets the
      token and an expiry fifteen minutes ahead, and nothing else about any
      user changes. */
  lemma ForgotPasswordEffect(users: map<Id, User>, outbox: seq<Mail>, email: string, token: Token, now: Millis, bounces: set<string>)
    requires UniqueEmails(users)
    ensures var o := ForgotPassword(users, outbox, email, token, now, bounces);
      && ((forall id :: id in users ==> users[id].email != email) ==>
            o == AccountOutcome(Err(BadRequest("User not found")), users, outbox))
      && (forall id :: id in users && users[id].email == email ==>
            && o.users.Keys == users.Keys
            && o.users[id] == users[id].(resetToken := Some(token), resetTokenExpiry := Some(now + 900000))
            && (forall other :: other in users && other != id ==> o.users[other] == users[other])
            && (o.result.Ok? <==> email !in bounces)
            && (o.result.Ok? ==> o.outbox == outbox + [ResetMail(email, token)]))
  {
  }

  /** The whole effect of `resetPassword`. */
  function ResetPassword(users: map<Id, User>, token: Token, newPassword: string, now: Millis): (o: UsersOutcome)
    requires UniqueResetTokens(users)
    ensures o.result.Err? ==> o.users == users
  {
    match UserByResetToken(users, token)
    case None => UsersOutcome(Err(BadRequest("Invalid or expired reset token")), users)
    case Some(id) =>
      var u := users[id];
      if u.resetTokenExpiry.None? || now > u.resetTokenExpiry.value then
        UsersOutcome(Err(BadRequest("Invalid or expired reset token")), users)
      else
        UsersOutcome(Ok("Password reset successfully"),
                     users[id := u.(password := HashPassword(newPassword), resetToken := None, resetTokenExpiry := None)])
  }

  /** A reset succeeds exactly when some user holds the token with an expiry
      not yet passed; it then sets that user's password and clears the token
      and expiry, and changes nothing else. */
  lemma ResetPasswordEffect(users: map<Id, User>, token: Token, newPassword: string, now: Millis)
    requires UniqueResetTokens(users)
    ensures var o := ResetPassword(users, token, newPassword, now);
      o.result.Ok? <==>
        exists id :: id in users && users[id].resetToken == Some(token)
          && users[id].resetTokenExpiry.Some? && now <= users[id].resetTokenExpiry.value
    ensures var o := ResetPassword(users, token, newPassword, now);
      forall id :: id in users && users[id].resetToken == Some(token) && o.result.Ok? ==>
        && o.users.Keys == users.Keys
        && PasswordMatches(newPassword, o.users[id].password)
        && o.users[id] == users[id].(password := o.users[id].password, resetToken := None, resetTokenExpiry := None)
        && (forall other :: other in users && other != id ==> o.users[other] == users[other])
  {
  }

  /** A reset token works once: after a successful reset the same token is
      refused. */
  lemma ResetTokenSingleUse(users: map<Id, User>, token: Token, newPassword: string, now: Millis, again: string, later: Millis)
    requires UniqueResetTokens(users)
    ensures var o := ResetPassword(users, token, newPassword, now);
      o.result.Ok? ==>
        UniqueResetTokens(o.users) && ResetPassword(o.users, token, again, later).result.Err?
  {
  }

  /** The reset cycle: after `forgotPassword` at `t0` stored a fresh token,
      a reset with that token at `now` succeeds exactly when `now` is at most
      fifteen minutes after `t0`. */
  lemma ForgotThenReset(
    users: map<Id, User>, outbox: seq<Mail>, email: string, token: Token, t0: Millis, bounces: set<string>,
    newPassword: string, now: Millis)
    requires UniqueEmails(users) && UniqueResetTokens(users)
    requires forall id :: id in users ==> users[id].resetToken != Some(token)
    requires exists id :: id in users && users[id].email == email
    ensures var o := ForgotPassword(users, outbox, email, token, t0, bounces);
      && UniqueResetTokens(o.users)
      && (ResetPassword(o.users, token, newPassword, now).result.Ok? <==> now <= t0 + ResetWindow)
  {
    var o := ForgotPassword(users, outbox, email, token, t0, bounces);
    var id := UserByEmail(users, email).value;
    assert o.users[id].resetToken == Some(token);
  }

  /** `forgotPassword`. `token` must be held by no one. */
  method ForgotPasswordRequest(db: Db, email: string, token: Token, now: Millis, bounces: set<string>) returns (r: Result<string>)
    requires db.Valid() && !TokenInUse(db.users, db.approvals, token)
    modifies db`users, db`outbox
    ensures db.Valid()
    ensures var o := ForgotPassword(old(db.users), old(db.outbox), email, token, now, bounces);
      r == o.result && db.users == o.users && db.outbox == o.outbox
  {
    var user := UserByEmail(db.users, email);
    if user.None? {
      return Err(BadRequest("User not found"));
    }
    var id := user.value;
    db.users := db.users[id := db.users[id].(resetToken := Some(token), resetTokenExpiry := Some(now + ResetWindow))];
    if email in bounces {
      return Err(BadRequest("Failed to send password reset email"));
    }
    db.outbox := db.outbox + [ResetMail(email, token)];
    r := Ok("Password reset email sent");
  }

  /** `resetPassword`. */
  method ResetPasswordRequest(db: Db, token: Token, newPassword: string, now: Millis) returns (r: Result<string>)
    requires db.Valid()
    modifies db`users
    ensures db.Valid()
    ensures var o := ResetPassword(old(db.users), token, newPassword, now);
      r == o.result && db.users == o.users
  {
    var user := UserByResetToken(db.users, token);
    if user.None? {
      return Err(BadRequest("Invalid or expired reset token"));
    }
    var id := user.value;
    var u := db.users[id];
    if u.resetTokenExpiry.None? || now > u.resetTokenExpiry.value {
      return Err(BadRequest("Invalid or expired reset token"));
    }
    db.users := db.users[id := u.(password := HashPassword(newPassword), resetToken := None, resetTokenExpiry := None)];
    r := Ok("Password reset successfully");
  }

  // ---------------------------------------------------------------------
  // Email verification

  /** The whole effect of `verifyEmail`. */
  function VerifyEmail(users: map<Id, User>, token: Token): (o: UsersOutcome)
    requires UniqueVerificationTokens(users)
    ensures o.result.Err? ==> o.users == users
  {
    match UserByVerificationToken(users, token)
    case None => UsersOutcome(Err(BadRequest("Invalid or expired verification token")), users)
    case Some(id) =>
      UsersOutcome(Ok("Email verified successfully!"), users[id := users[id].(verified := true, verificationToken := None)])
  }

  /** Verification succeeds exactly when some user holds the token; it marks
      that user verified and clears the token, so the token works once. */
  lemma VerifyEmailEffect(users: map<Id, User>, token: Token)
    requires UniqueVerificationTokens(users)
    ensures var o := VerifyEmail(users, token);
      o.result.Ok? <==> exists id :: id in users && users[id].verificationToken == Some(token)
    ensures var o := VerifyEmail(users, token);
      forall id :: id in users && users[id].verificationToken == Some(token) ==>
        && o.users.Keys == users.Keys
        && o.users[id] == users[id].(verified := true, verificationToken := None)
        && (forall other :: other in users && other != id ==> o.users[other] == users[other])
    ensures var o := VerifyEmail(users, token);
      o.result.Ok? ==> UniqueVerificationTokens(o.users) && VerifyEmail(o.users, token).result.Err?
  {
  }

  /** The signup cycle: the token a successful signup mails out verifies the
      new user. */
  lemma SignupThenVerify(users: map<Id, User>, outbox: seq<Mail>, dto: Signup, userId: Id, token: Token, bounces: set<string>)
    requires UniqueEmails(users) && UniqueVerificationTokens(users) && userId !in users
    requires forall id :: id in users ==> users[id].verificationToken != Some(token)
    ensures var o := SignupOutcome(users, outbox, dto, userId, token, bounces);
      o.result.Ok? ==>
        && UniqueVerificationTokens(o.users)
        && o.outbox[|o.outbox| - 1].body == VerificationBody(token)
        && VerifyEmail(o.users, token).result.Ok?
        && VerifyEmail(o.users, token).users[userId].verified
  {
    var o := SignupOutcome(users, outbox, dto, userId, token, bounces);
    if o.result.Ok? {
      assert o.users[userId].verificationToken == Some(token);
    }
  }

  /** `verifyEmail`. */
  method VerifyEmailRequest(db: Db, token: Token) returns (r: Result<string>)
    requires db.Valid()
    modifies db`users
    ensures db.Valid()
    ensures var o := VerifyEmail(old(db.users), token);
      r == o.result && db.users == o.users
  {
    var user := UserByVerificationToken(db.users, token);
    if user.None? {
      return Err(BadRequest("Invalid or expired verification token"));
    }
    var id := user.value;
    db.users := db.users[id := db.users[id].(verified := true, verificationToken := None)];
    r := Ok("Email verified successfully!");
  }
}
