/** Shared vocabulary: optional values, the error taxonomy the services throw,
    and the few string operations the services rely on. */
module Common {

  /** Database identifiers and tokens are opaque strings (UUIDs in the system). */
  type Id = string
  type Token = string

  /** Instants are milliseconds since the epoch, as JavaScript `Date` values are. */
  type Millis = int

  datatype Option<+T> = None | Some(value: T) {
    function GetOr(default: T): T {
      match this
      case Some(v) => v
      case None => default
    }
  }

  /** What a service call can fail with. The first four are the NestJS HTTP
      exceptions the services throw themselves; the rest are failures raised
      by the collaborators the services call without guarding. */
  datatype Error =
    | NotFound(message: string)
    | BadRequest(message: string)
    | Forbidden(message: string)
    | Unauthorized(message: string)
      // Prisma's "record to update/delete/connect not found" (P2025)
    | RecordNotFound
      // Prisma's unique-constraint violation on the named field (P2002)
    | UniqueViolation(field: string)
      // Prisma's foreign-key violation on the named field (P2003)
    | ForeignKeyViolation(field: string)
      // Prisma's validation error for a relation field the Project model does not have
    | UnknownRelation(name: string)
      // Prisma's validation error for a `select` naming fields the related model does not have
    | InvalidSelection(relation: string)
      // the mail transport refused to deliver to this address
    | MailFailed(to: string)
      // a property read on a lookup result that was null (a JavaScript TypeError)
    | NullDereference

  datatype Result<+T> = Ok(value: T) | Err(error: Error)

  /** JavaScript truthiness of an optional string: present and non-empty. */
  predicate Truthy(s: Option<string>) {
    s.Some? && s.value != ""
  }

  predicate IsPrefix(p: string, s: string) {
    |p| <= |s| && s[..|p|] == p
  }

  /** `s` contains `needle` as a contiguous piece. */
  predicate Contains(s: string, needle: string) {
    exists i :: 0 <= i <= |s| && IsPrefix(needle, s[i..])
  }

  lemma ContainsEnd(a: string, b: string)
    ensures Contains(a + b, b)
  {
    assert IsPrefix(b, (a + b)[|a|..]);
  }

  lemma ContainsExtend(s: string, t: string, needle: string)
    requires Contains(s, needle)
    ensures Contains(s + t, needle)
  {
    var i :| 0 <= i <= |s| && IsPrefix(needle, s[i..]);
    assert (s + t)[i..][..|needle|] == s[i..][..|needle|];
  }

  lemma ContainsSelf(s: string)
    ensures Contains(s, s)
  {
    assert IsPrefix(s, s[0..]);
  }

  /** ASCII lower-casing, the model of Prisma's case-insensitive comparison. */
  function LowerChar(c: char): char {
    if 'A' <= c <= 'Z' then (c as int - 'A' as int + 'a' as int) as char else c
  }

  function ToLower(s: string): (r: string)
    ensures |r| == |s|
    ensures forall i :: 0 <= i < |s| ==> r[i] == LowerChar(s[i])
  {
    seq(|s|, i requires 0 <= i < |s| => LowerChar(s[i]))
  }
}
