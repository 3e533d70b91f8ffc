/** The signup payload: the `Role` enumeration and the field constraints the
    validation pipe enforces before the signup service runs. */
module SignupDto {
  import opened Common

  datatype Role =
    | Admin | StageService | ProjectOwner | CommitteeMember
    | JuryMember | Supervisor | Member | Leader

  /** The enumeration's wire names. */
  function RoleName(r: Role): string {
    match r
    case Admin => "ADMIN"
    case StageService => "STAGE_SERVICE"
    case ProjectOwner => "PROJECT_OWNER"
    case CommitteeMember => "COMMITTEE_MEMBER"
    case JuryMember => "JURY_MEMBER"
    case Supervisor => "SUPERVISOR"
    case Member => "MEMBER"
    case Leader => "LEADER"
  }

  /** `@IsEnum(Role)`: a wire string is accepted exactly when it is one of the
      eight names, and then denotes that role. */
  function ParseRole(s: string): (r: Option<Role>)
    ensures r.Some? ==> RoleName(r.value) == s
    ensures forall role: Role :: RoleName(role) == s ==> r == Some(role)
  {
    if s == "ADMIN" then Some(Admin)
    else if s == "STAGE_SERVICE" then Some(StageService)
    else if s == "PROJECT_OWNER" then Some(ProjectOwner)
    else if s == "COMMITTEE_MEMBER" then Some(CommitteeMember)
    else if s == "JURY_MEMBER" then Some(JuryMember)
    else if s == "SUPERVISOR" then Some(Supervisor)
    else if s == "MEMBER" then Some(Member)
    else if s == "LEADER" then Some(Leader)
    else None
  }

  datatype Signup = Signup(
    email: string,
    password: string,
    firstName: string,
    lastName: string,
    phoneNumber: Option<string>,
    profilePicture: Option<string>,
    bio: Option<string>,
    website: Option<string>,
    role: string)

  const MinPasswordLength := 6
  const MaxPhoneDigits := 15

  predicate IsDigit(c: char) {
    '0' <= c <= '9'
  }

  /** The phone pattern `^\+[1-9]\d{1,14}$`, read off position by position:
      a plus sign, a non-zero digit, then one to fourteen more digits. */
  predicate IsPhoneNumber(s: string) {
    && 3 <= |s| <= MaxPhoneDigits + 1
    && s[0] == '+'
    && '1' <= s[1] <= '9'
    && forall i :: 2 <= i < |s| ==> IsDigit(s[i])
  }

  /** The DTO constraints (email and URL syntax are not modelled). */
  predicate IsValid(dto: Signup) {
    && |dto.password| >= MinPasswordLength
    && dto.firstName != ""
    && dto.lastName != ""
    && (dto.phoneNumber.Some? ==> IsPhoneNumber(dto.phoneNumber.value))
    && ParseRole(dto.role).Some?
  }

  /** The enumeration admits ADMIN: a fully valid DTO may ask for that role,
      which only the service turns away. */
  lemma AdminPassesValidation()
    ensures exists dto :: IsValid(dto) && ParseRole(dto.role) == Some(Admin)
  {
    var dto := Signup("a@b.c", "secret", "Ada", "Admin", Some("+12"), None, None, None, "ADMIN");
    assert IsPhoneNumber("+12");
    assert IsValid(dto);
  }

  // ---------------------------------------------------------------------
  // An independent reading of the phone pattern: the strings it accepts are
  // exactly "+" followed by the canonical decimal numeral of a number with
  // two to fifteen digits.

  function Pow10(k: nat): (r: nat)
    ensures r >= 1
  {
    if k == 0 then 1 else 10 * Pow10(k - 1)
  }

  function DigitChar(d: nat): char
    requires d < 10
  {
    ('0' as int + d) as char
  }

  function DigitValue(c: char): nat
    requires IsDigit(c)
  {
    c as int - '0' as int
  }

  predicate AllDigits(s: string) {
    forall i :: 0 <= i < |s| ==> IsDigit(s[i])
  }

  /** The number a string of digits denotes. */
  function Value(s: string): nat
    requires AllDigits(s)
  {
    if s == [] then 0 else 10 * Value(s[..|s| - 1]) + DigitValue(s[|s| - 1])
  }

  /** The canonical decimal numeral of `n` (no leading zeros). */
  function Numeral(n: nat): (r: string)
  {
    if n < 10 then [DigitChar(n)] else Numeral(n / 10) + [DigitChar(n % 10)]
  }

  function FormatPhone(n: nat): string {
    "+" + Numeral(n)
  }

  function ParsePhone(s: string): nat
    requires IsPhoneNumber(s)
  {
    Value(s[1..])
  }

  lemma {:induction false} NumeralFacts(n: nat, k: nat)
    requires 1 <= k && Pow10(k - 1) <= n < Pow10(k)
    ensures |Numeral(n)| == k
    ensures AllDigits(Numeral(n)) && Value(Numeral(n)) == n
    ensures n > 0 ==> Numeral(n)[0] != '0'
  {
    if n >= 10 {
      assert Pow10(k - 2) <= n / 10 < Pow10(k - 1) by {
        assert Pow10(k - 1) == 10 * Pow10(k - 2);
        assert Pow10(k) == 10 * Pow10(k - 1);
      }
      NumeralFacts(n / 10, k - 1);
      var s := Numeral(n);
      assert s[..|s| - 1] == Numeral(n / 10);
    }
  }

  lemma Pow10Grows(k: nat)
    requires k >= 1
    ensures Pow10(k) >= 10
  {
    if k > 1 { Pow10Grows(k - 1); }
  }

  lemma {:induction false} ValueBounds(s: string)
    requires s != [] && AllDigits(s) && s[0] != '0'
    ensures Pow10(|s| - 1) <= Value(s) < Pow10(|s|)
  {
    if |s| == 1 {
    } else {
      var init := s[..|s| - 1];
      assert init[0] == s[0];
      ValueBounds(init);
    }
  }

  lemma {:induction false} NumeralOfValue(s: string)
    requires s != [] && AllDigits(s) && (s[0] != '0' || |s| == 1)
    ensures Numeral(Value(s)) == s
  {
    if |s| == 1 {
      assert Value(s) == DigitValue(s[0]);
    } else {
      var init := s[..|s| - 1];
      assert init[0] == s[0];
      ValueBounds(init);
      NumeralOfValue(init);
      var v := Value(s);
      assert v / 10 == Value(init) && v % 10 == DigitValue(s[|s| - 1]);
      assert v >= 10;
      assert s == init + [s[|s| - 1]];
    }
  }

  /** Every string the pattern accepts is the formatted numeral of the number
      it spells, and that number has two to fifteen digits. */
  lemma PhoneRoundTrip(s: string)
    requires IsPhoneNumber(s)
    ensures Pow10(1) <= ParsePhone(s) < Pow10(MaxPhoneDigits)
    ensures FormatPhone(ParsePhone(s)) == s
  {
    var d := s[1..];
    PhoneDigits(s);
    Pow10Monotone(|d|, MaxPhoneDigits);
    Pow10Monotone(1, |d| - 1);
  }

  /** The digits after the plus sign: a canonical numeral of two to fifteen
      digits whose value lies between the matching powers of ten. */
  lemma PhoneDigits(s: string)
    requires IsPhoneNumber(s)
    ensures 2 <= |s[1..]| <= MaxPhoneDigits
    ensures Pow10(|s[1..]| - 1) <= ParsePhone(s) < Pow10(|s[1..]|)
    ensures FormatPhone(ParsePhone(s)) == s
  {
    var d := s[1..];
    assert d[0] == s[1];
    assert AllDigits(d);
    ValueBounds(d);
    NumeralOfValue(d);
    assert s == "+" + d;
  }

  /** Conversely, every number with two to fifteen digits, formatted, is
      accepted by the pattern and parses back to itself. */
  lemma FormatRoundTrip(n: nat)
    requires Pow10(1) <= n < Pow10(MaxPhoneDigits)
    ensures IsPhoneNumber(FormatPhone(n))
    ensures ParsePhone(FormatPhone(n)) == n
  {
    DigitCountInRange(n);
    FormatInRange(n);
  }

  lemma FormatInRange(n: nat)
    requires n >= 1 && 2 <= DigitCount(n) <= MaxPhoneDigits
    ensures IsPhoneNumber(FormatPhone(n))
    ensures ParsePhone(FormatPhone(n)) == n
  {
    var k := DigitCount(n);
    NumeralFacts(n, k);
    var s := FormatPhone(n);
    var d := Numeral(n);
    assert |s| == k + 1;
    assert s[1..] == d;
    assert s[1] == d[0] && IsDigit(d[0]) && d[0] != '0';
    assert forall i :: 2 <= i < |s| ==> s[i] == d[i - 1] && IsDigit(d[i - 1]);
  }

  lemma DigitCountInRange(n: nat)
    requires Pow10(1) <= n < Pow10(MaxPhoneDigits)
    ensures 2 <= DigitCount(n) <= MaxPhoneDigits
  {
    DigitCountBelow(n, MaxPhoneDigits);
  }

  /** A number below `10^m` has at most `m` digits. */
  lemma {:induction false} DigitCountBelow(n: nat, m: nat)
    requires 1 <= n < Pow10(m)
    ensures DigitCount(n) <= m
  {
    if n >= 10 {
      assert m >= 1;
      DigitCountBelow(n / 10, m - 1);
    }
  }

  /** The number of decimal digits of a positive number. */
  function DigitCount(n: nat): (k: nat)
    requires n >= 1
    ensures 1 <= k && Pow10(k - 1) <= n < Pow10(k)
  {
    if n < 10 then 1 else DigitCount(n / 10) + 1
  }

  lemma Pow10Monotone(i: nat, j: nat)
    requires i <= j
    ensures Pow10(i) <= Pow10(j)
  {
    if i < j { Pow10Monotone(i, j - 1); }
  }
}
