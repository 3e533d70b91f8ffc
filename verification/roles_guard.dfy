/** The roles guard: a handler may name the roles allowed to call it, and
    the guard admits a request only when its user holds one of them. */
module RolesGuard {
  import opened Common
  import opened SignupDto
  import opened Store

  /** `xs` joined with `sep` between consecutive elements, as `Array.join`. */
  function Join(xs: seq<string>, sep: string): (r: string)
    ensures |xs| == 0 ==> r == ""
    ensures |xs| == 1 ==> r == xs[0]
  {
    if |xs| == 0 then ""
    else if |xs| == 1 then xs[0]
    else Join(xs[..|xs| - 1], sep) + sep + xs[|xs| - 1]
  }

  /** Joining one more element appends the separator and that element. */
  lemma {:induction false} JoinAppend(xs: seq<string>, x: string, sep: string)
    requires |xs| > 0
    ensures Join(xs + [x], sep) == Join(xs, sep) + sep + x
  {
    assert (xs + [x])[..|xs|] == xs;
  }

  /** Every joined element appears in the joined string. */
  lemma {:induction false} JoinContainsEach(xs: seq<string>, sep: string, i: nat)
    requires i < |xs|
    ensures Contains(Join(xs, sep), xs[i])
  {
    if |xs| == 1 {
      ContainsSelf(xs[0]);
    } else {
      var init := xs[..|xs| - 1];
      if i == |xs| - 1 {
        ContainsEnd(Join(init, sep) + sep, xs[i]);
      } else {
        assert init[i] == xs[i];
        JoinContainsEach(init, sep, i);
        ContainsExtend(Join(init, sep), sep, xs[i]);
        ContainsExtend(Join(init, sep) + sep, xs[|xs| - 1], xs[i]);
      }
    }
  }

  function RoleNames(roles: seq<Role>): (names: seq<string>)
    ensures |names| == |roles| && forall i :: 0 <= i < |roles| ==> names[i] == RoleName(roles[i])
  {
    seq(|roles|, i requires 0 <= i < |roles| => RoleName(roles[i]))
  }

  const NoUser := Forbidden("User not found in request. Ensure authentication is implemented.")
  const NoRole := Forbidden("User role not set. Ensure role is assigned correctly.")

  function AccessDenied(required: seq<Role>): Error {
    Forbidden("Access denied. Required roles: " + Join(RoleNames(required), ", "))
  }

  /** `canActivate`. `required` is the handler's role metadata (absent when
      the handler declares none); `user` is what authentication attached. */
  function CanActivate(required: Option<seq<Role>>, user: Option<RequestUser>): (d: Decision)
    ensures (required.None? || required.value == []) ==> d == Allow
    ensures required.Some? && required.value != [] && user.None? ==> d == Deny(NoUser)
    ensures required.Some? && required.value != [] && user.Some? && user.value.role.None? ==> d == Deny(NoRole)
    ensures d.Deny? ==> d.error.Forbidden?
  {
    if required.None? || |required.value| == 0 then Allow
    else if user.None? then Deny(NoUser)
    else if user.value.role.None? then Deny(NoRole)
    else if user.value.role.value !in required.value then Deny(AccessDenied(required.value))
    else Allow
  }

  /** The guard admits exactly the requests of users holding one of the
      required roles, or every request when no role is required. */
  lemma AllowExactlyRequiredRoles(required: Option<seq<Role>>, user: Option<RequestUser>)
    ensures CanActivate(required, user) == Allow <==>
      || required.None? || required.value == []
      || (user.Some? && user.value.role.Some? && user.value.role.value in required.value)
  {
  }

  /** The refusal for a role outside the list names every required role. */
  lemma {:induction false} DenialNamesRequiredRoles(required: seq<Role>, user: RequestUser, i: nat)
    requires i < |required| && user.role.Some? && user.role.value !in required
    ensures var d := CanActivate(Some(required), Some(user));
      && d.Deny?
      && IsPrefix("Access denied. Required roles: ", d.error.message)
      && Contains(d.error.message, RoleName(required[i]))
  {
    var names := RoleNames(required);
    JoinContainsEach(names, ", ", i);
    ContainsShift("Access denied. Required roles: ", Join(names, ", "), names[i]);
  }

  /** A piece of `t` is a piece of `s + t`. */
  lemma ContainsShift(s: string, t: string, needle: string)
    requires Contains(t, needle)
    ensures Contains(s + t, needle)
  {
    var i :| 0 <= i <= |t| && IsPrefix(needle, t[i..]);
    assert (s + t)[|s| + i..] == t[i..];
  }
}
