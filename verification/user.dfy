/** Per-user maintenance: password change, soft delete, the one-hour reset
    token and its check, verification by address and token, and role
    changes. */
module UserService {
  import opened Common
  import opened SignupDto
  import opened Store

  datatype UserOutcome<T> = UserOutcome(result: Result<T>, users: map<Id, User>)

  /** `users` with the row `id` replaced, everything else kept. */
  function Replace(users: map<Id, User>, id: Id, u: User): (r: map<Id, User>)
    requires id in users
    ensures r.Keys == users.Keys && r[id] == u
    ensures forall other :: other in users && other != id ==> r[other] == users[other]
  {
    users[id := u]
  }

  const UserNotFound := NotFound("User not found")

  /** `updateUserPassword`: only the password of the address's user changes. */
  function UpdateUserPassword(users: map<Id, User>, email: string, newPassword: string): (o: UserOutcome<string>)
    requires UniqueEmails(users)
    ensures (forall id :: id in users ==> users[id].email != email) <==> o.result == Err(UserNotFound)
    ensures o.result.Err? ==> o.users == users
    ensures forall id :: id in users && users[id].email == email ==>
      && o.result == Ok("Password updated successfully")
      && o.users == Replace(users, id, users[id].(password := HashPassword(newPassword)))
      && PasswordMatches(newPassword, o.users[id].password)
  {
    match UserByEmail(users, email)
    case None => UserOutcome(Err(UserNotFound), users)
    case Some(id) =>
      UserOutcome(Ok("Password updated successfully"), Replace(users, id, users[id].(password := HashPassword(newPassword))))
  }

  /** `deleteUser`: a soft delete; the row stays and only its deletion time
      is set. */
  function DeleteUser(users: map<Id, User>, id: Id, now: Millis): (o: UserOutcome<User>)
    ensures id !in users <==> o.result == Err(UserNotFound)
    ensures o.result.Err? ==> o.users == users
    ensures id in users ==>
      && o.users.Keys == users.Keys
      && o.result == Ok(o.users[id])
      && o.users[id].deletedAt == Some(now)
      && o.users[id] == users[id].(deletedAt := o.users[id].deletedAt)
      && forall other :: other in users && other != id ==> o.users[other] == users[other]
  {
    if id !in users then UserOutcome(Err(UserNotFound), users)
    else
      var deleted := users[id].(deletedAt := Some(now));
      UserOutcome(Ok(deleted), Replace(users, id, deleted))
  }

  /** One hour, in milliseconds. */
  const ResetTokenLifetime := 3600000

  /** `generateResetToken`: store a fresh token with an expiry one hour ahead
      and hand the same token back. */
  function GenerateResetToken(users: map<Id, User>, email: string, token: Token, now: Millis): (o: UserOutcome<Token>)
    requires UniqueEmails(users)
    ensures (forall id :: id in users ==> users[id].email != email) <==> o.result == Err(UserNotFound)
    ensures o.result.Err? ==> o.users == users
    ensures forall id :: id in users && users[id].email == email ==>
      && o.result == Ok(token)
      && o.users == Replace(users, id, users[id].(resetToken := Some(token), resetTokenExpiry := Some(now + ResetTokenLifetime)))
  {
    match UserByEmail(users, email)
    case None => UserOutcome(Err(UserNotFound), users)
    case Some(id) =>
      UserOutcome(Ok(token), Replace(users, id, users[id].(resetToken := Some(token), resetTokenExpiry := Some(now + ResetTokenLifetime))))
  }

  /** `validateResetToken`. A missing expiry compares as the epoch, so it
      counts as expired at any later instant. */
  function ValidateResetToken(users: map<Id, User>, email: string, token: Token, now: Millis): (r: Result<bool>)
    requires UniqueEmails(users)
    ensures r.Ok? ==> r.value
    ensures r.Err? ==> r.error == BadRequest("Invalid or expired reset token")
    ensures r.Ok? <==> exists id :: id in users && users[id].email == email && users[id].resetToken == Some(token)
                                   && now <= users[id].resetTokenExpiry.GetOr(0)
  {
    match UserByEmail(users, email)
    case None => Err(BadRequest("Invalid or expired reset token"))
    case Some(id) =>
      var u := users[id];
      if u.resetToken != Some(token) || now > u.resetTokenExpiry.GetOr(0) then Err(BadRequest("Invalid or expired reset token"))
      else Ok(true)
  }

  /** The token `generateResetToken` hands out at `t0` validates exactly up to
      one hour later, and no other token validates for that address. */
  lemma GenerateThenValidate(users: map<Id, User>, email: string, token: Token, t0: Millis, other: Token, now: Millis)
    requires UniqueEmails(users)
    requires exists id :: id in users && users[id].email == email
    ensures var o := GenerateResetToken(users, email, token, t0);
      && UniqueEmails(o.users)
      && (ValidateResetToken(o.users, email, token, now).Ok? <==> now <= t0 + ResetTokenLifetime)
      && (other != token ==> ValidateResetToken(o.users, email, other, now).Err?)
  {
    var id := UserByEmail(users, email).value;
    var o := GenerateResetToken(users, email, token, t0);
    assert o.users[id].email == email;
  }

  /** `verifyUser`: the address's user must hold exactly this token; it is
      then marked verified and the token cleared. */
  function VerifyUser(users: map<Id, User>, email: string, token: Token): (o: UserOutcome<string>)
    requires UniqueEmails(users)
    ensures o.result.Err? ==> o.result == Err(BadRequest("Invalid verification token")) && o.users == users
    ensures o.result.Ok? <==> exists id :: id in users && users[id].email == email && users[id].verificationToken == Some(token)
    ensures forall id :: id in users && users[id].email == email && o.result.Ok? ==>
      o.users == Replace(users, id, users[id].(verified := true, verificationToken := None))
  {
    match UserByEmail(users, email)
    case None => UserOutcome(Err(BadRequest("Invalid verification token")), users)
    case Some(id) =>
      if users[id].verificationToken != Some(token) then UserOutcome(Err(BadRequest("Invalid verification token")), users)
      else UserOutcome(Ok("User verified successfully"), Replace(users, id, users[id].(verified := true, verificationToken := None)))
  }

  /** A verification token works once. */
  lemma VerifyUserOnce(users: map<Id, User>, email: string, token: Token)
    requires UniqueEmails(users)
    ensures var o := VerifyUser(users, email, token);
      o.result.Ok? ==> UniqueEmails(o.users) && VerifyUser(o.users, email, token).result.Err?
  {
    var o := VerifyUser(users, email, token);
    if o.result.Ok? {
      var id := UserByEmail(users, email).value;
      assert o.users[id].email == email;
    }
  }

  /** `updateUserRole`: only the role changes; an unknown id makes the update
      fail. */
  function UpdateUserRole(users: map<Id, User>, id: Id, role: Role): (o: UserOutcome<User>)
    ensures id !in users <==> o.result == Err(RecordNotFound)
    ensures o.result.Err? ==> o.users == users
    ensures id in users ==> o.result == Ok(users[id].(role := role)) && o.users == Replace(users, id, o.result.value)
  {
    if id !in users then UserOutcome(Err(RecordNotFound), users)
    else UserOutcome(Ok(users[id].(role := role)), Replace(users, id, users[id].(role := role)))
  }

  // ---------------------------------------------------------------------
  // The operations on the store

  method UpdateUserPasswordRequest(db: Db, email: string, newPassword: string) returns (r: Result<string>)
    requires db.Valid()
    modifies db`users
    ensures db.Valid()
    ensures var o := UpdateUserPassword(old(db.users), email, newPassword); r == o.result && db.users == o.users
  {
    var user := UserByEmail(db.users, email);
    if user.None? {
      return Err(UserNotFound);
    }
    var updated := db.users[user.value].(password := HashPassword(newPassword));
    KeepsUniqueness(db.users, user.value, updated);
    db.users := Replace(db.users, user.value, updated);
    r := Ok("Password updated successfully");
  }

  method DeleteUserRequest(db: Db, id: Id, now: Millis) returns (r: Result<User>)
    requires db.Valid()
    modifies db`users
    ensures db.Valid()
    ensures var o := DeleteUser(old(db.users), id, now); r == o.result && db.users == o.users
  {
    if id !in db.users {
      return Err(UserNotFound);
    }
    var deleted := db.users[id].(deletedAt := Some(now));
    KeepsUniqueness(db.users, id, deleted);
    db.users := Replace(db.users, id, deleted);
    r := Ok(deleted);
  }

  /** `token` must be held by no one. */
  method GenerateResetTokenRequest(db: Db, email: string, token: Token, now: Millis) returns (r: Result<Token>)
    requires db.Valid() && !TokenInUse(db.users, db.approvals, token)
    modifies db`users
    ensures db.Valid()
    ensures var o := GenerateResetToken(old(db.users), email, token, now); r == o.result && db.users == o.users
  {
    var user := UserByEmail(db.users, email);
    if user.None? {
      return Err(UserNotFound);
    }
    var id := user.value;
    db.users := Replace(db.users, id, db.users[id].(resetToken := Some(token), resetTokenExpiry := Some(now + ResetTokenLifetime)));
    r := Ok(token);
  }

  method VerifyUserRequest(db: Db, email: string, token: Token) returns (r: Result<string>)
    requires db.Valid()
    modifies db`users
    ensures db.Valid()
    ensures var o := VerifyUser(old(db.users), email, token); r == o.result && db.users == o.users
  {
    var user := UserByEmail(db.users, email);
    if user.None? || db.users[user.value].verificationToken != Some(token) {
      return Err(BadRequest("Invalid verification token"));
    }
    var id := user.value;
    db.users := Replace(db.users, id, db.users[id].(verified := true, verificationToken := None));
    r := Ok("User verified successfully");
  }

  method UpdateUserRoleRequest(db: Db, id: Id, role: Role) returns (r: Result<User>)
    requires db.Valid()
    modifies db`users
    ensures db.Valid()
    ensures var o := UpdateUserRole(old(db.users), id, role); r == o.result && db.users == o.users
  {
    if id !in db.users {
      return Err(RecordNotFound);
    }
    var updated := db.users[id].(role := role);
    KeepsUniqueness(db.users, id, updated);
    db.users := Replace(db.users, id, updated);
    r := Ok(updated);
  }
}
