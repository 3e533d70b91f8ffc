/** The verified-email guard: a request goes through only for an address
    whose owner has confirmed it. */
module IsVerifiedGuard {
  import opened Common
  import opened Store

  /** The authenticated user's address when there is a user, otherwise the
      one in the request body. */
  function RequestEmail(user: Option<RequestUser>, bodyEmail: Option<string>): (r: Option<string>)
    ensures user.Some? ==> r == Some(user.value.email)
    ensures user.None? ==> r == bodyEmail
  {
    if user.Some? then Some(user.value.email) else bodyEmail
  }

  const NoEmail := Forbidden("Email must be provided")
  const NotVerified := Forbidden("Your email is not verified. Please verify your email first.")

  /** `canActivate`. */
  function CanActivate(users: map<Id, User>, user: Option<RequestUser>, bodyEmail: Option<string>): (d: Decision)
    requires UniqueEmails(users)
    ensures !Truthy(RequestEmail(user, bodyEmail)) <==> d == Deny(NoEmail)
    ensures d.Deny? ==> d.error == NoEmail || d.error == NotVerified
  {
    var email := RequestEmail(user, bodyEmail);
    if !Truthy(email) then Deny(NoEmail)
    else
      match UserByEmail(users, email.value)
      case None => Deny(NotVerified)
      case Some(id) => if users[id].verified then Allow else Deny(NotVerified)
  }

  /** The guard admits exactly the requests whose address belongs to a
      verified user; an unknown address is refused like an unverified one. */
  lemma AllowExactlyVerified(users: map<Id, User>, user: Option<RequestUser>, bodyEmail: Option<string>)
    requires UniqueEmails(users)
    ensures var email := RequestEmail(user, bodyEmail);
      CanActivate(users, user, bodyEmail) == Allow <==>
        Truthy(email) && exists id :: id in users && users[id].email == email.value && users[id].verified
  {
  }

  /** With a user on the request, the body's address is ignored. */
  lemma UserEmailWins(users: map<Id, User>, user: RequestUser, bodyEmail: Option<string>)
    requires UniqueEmails(users)
    ensures CanActivate(users, Some(user), bodyEmail) == CanActivate(users, Some(user), None)
  {
  }
}
