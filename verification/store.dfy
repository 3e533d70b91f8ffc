/** The database the services talk to through Prisma, as an in-memory store:
    one map per table keyed by the row's identifier, and the outgoing mail as
    an append-only outbox. */
module Store {
  import opened Common
  import opened SignupDto

  datatype ProjectStatus = Pending | Approved | Rejected
  datatype ProjectStage = Idea | Prototype | Launched | Scaling
  datatype MilestoneStatus = NotStarted | InProgress | Completed
  datatype WorkshopType = OnSite | Online

  /** A password digest. Hashing is a foreign library; the model only needs
      a function from passwords to digests and the check that a password
      matches a digest. */
  datatype Hash = Digest(secret: string)

  function HashPassword(plain: string): Hash {
    Digest(plain)
  }

  predicate PasswordMatches(plain: string, digest: Hash) {
    HashPassword(plain) == digest
  }

  /** A user row (its id is the key it is stored under). */
  datatype User = User(
    email: string,
    password: Hash,
    firstName: string,
    lastName: string,
    phoneNumber: Option<string>,
    profilePicture: Option<string>,
    bio: Option<string>,
    website: Option<string>,
    role: Role,
    verified: bool,
    verificationToken: Option<Token>,
    resetToken: Option<Token>,
    resetTokenExpiry: Option<Millis>,
    deletedAt: Option<Millis>)

  /** The many-to-many relations of a project, by their field names. */
  datatype Relation = Members | Encadrants | JuryMembers | Owners | ScientificReviewers | Modules

  function RelationName(r: Relation): string {
    match r
    case Members => "members"
    case Encadrants => "encadrants"
    case JuryMembers => "juryMembers"
    case Owners => "owners"
    case ScientificReviewers => "scientificReviewers"
    case Modules => "modules"
  }

  /** The relation a field name denotes, if it names one. */
  function ParseRelation(s: string): (r: Option<Relation>)
    ensures r.Some? ==> RelationName(r.value) == s
    ensures forall rel: Relation :: RelationName(rel) == s ==> r == Some(rel)
  {
    if s == "members" then Some(Members)
    else if s == "encadrants" then Some(Encadrants)
    else if s == "juryMembers" then Some(JuryMembers)
    else if s == "owners" then Some(Owners)
    else if s == "scientificReviewers" then Some(ScientificReviewers)
    else if s == "modules" then Some(Modules)
    else None
  }

  datatype ProjectDetails = ProjectDetails(
    industry: string,
    about: string,
    problem: string,
    solution: string,
    idea: string,
    targetAudience: string,
    competitiveAdvantage: string,
    motivation: string)

  /** A project row with its relation sets (user ids, module ids for `modules`). */
  datatype Project = Project(
    name: string,
    details: ProjectDetails,
    status: ProjectStatus,
    stage: ProjectStage,
    owners: set<Id>,
    members: set<Id>,
    encadrants: set<Id>,
    juryMembers: set<Id>,
    scientificReviewers: set<Id>,
    modules: set<Id>)
  {
    function Related(r: Relation): set<Id> {
      match r
      case Members => members
      case Encadrants => encadrants
      case JuryMembers => juryMembers
      case Owners => owners
      case ScientificReviewers => scientificReviewers
      case Modules => modules
    }

    /** Prisma's `connect`: the id joins relation `r`; nothing else changes. */
    function Connect(r: Relation, id: Id): (p: Project)
      ensures p.Related(r) == Related(r) + {id}
      ensures forall q :: q != r ==> p.Related(q) == Related(q)
      ensures p.name == name && p.details == details && p.status == status && p.stage == stage
    {
      match r
      case Members => this.(members := members + {id})
      case Encadrants => this.(encadrants := encadrants + {id})
      case JuryMembers => this.(juryMembers := juryMembers + {id})
      case Owners => this.(owners := owners + {id})
      case ScientificReviewers => this.(scientificReviewers := scientificReviewers + {id})
      case Modules => this.(modules := modules + {id})
    }

    /** Prisma's `disconnect`: the id leaves relation `r`; nothing else changes. */
    function Disconnect(r: Relation, id: Id): (p: Project)
      ensures p.Related(r) == Related(r) - {id}
      ensures forall q :: q != r ==> p.Related(q) == Related(q)
      ensures p.name == name && p.details == details && p.status == status && p.stage == stage
    {
      match r
      case Members => this.(members := members - {id})
      case Encadrants => this.(encadrants := encadrants - {id})
      case JuryMembers => this.(juryMembers := juryMembers - {id})
      case Owners => this.(owners := owners - {id})
      case ScientificReviewers => this.(scientificReviewers := scientificReviewers - {id})
      case Modules => this.(modules := modules - {id})
    }
  }

  /** An approval row; the table is keyed by the row's token. */
  datatype ApprovalStatus = ApprovalStatus(
    projectId: Id,
    status: ProjectStatus,
    approvedById: Id,
    createdAt: Millis,
    token: Token)

  datatype Milestone = Milestone(
    name: string,
    description: string,
    status: MilestoneStatus,
    dueDate: Option<Millis>,
    projectId: Id,
    createdAt: Millis)

  datatype Feedback = Feedback(
    content: string,
    rating: Option<int>,
    milestoneId: Id,
    projectId: Id,
    givenById: Id)

  datatype Workshop = Workshop(
    title: string,
    description: string,
    mentor: string,
    date: Millis,
    time: string,
    kind: WorkshopType,
    location: Option<string>,
    onlineLink: Option<string>)

  /** What a mail's bodies are rendered from: the template and the values
      interpolated into it. Each service renders its own templates. */
  datatype MailBody =
    | InvitationBody(projectName: string, message: string, approvalLink: string)
    | VerificationBody(verificationToken: Token)
    | ResetBody(resetToken: Token)

  /** One message handed to the mail transport. */
  datatype Mail = Mail(to: string, subject: string, body: MailBody)

  /** The authenticated user a guard finds on the request. */
  datatype RequestUser = RequestUser(id: Id, email: string, role: Option<Role>)

  /** A guard's verdict: let the request through, or throw. */
  datatype Decision = Allow | Deny(error: Error)

  // ---------------------------------------------------------------------
  // Table invariants that the database's unique constraints and the
  // freshness of generated tokens maintain.

  predicate UniqueEmails(users: map<Id, User>) {
    forall a, b :: a in users && b in users && users[a].email == users[b].email ==> a == b
  }

  predicate UniqueResetTokens(users: map<Id, User>) {
    forall a, b ::
      a in users && b in users && users[a].resetToken.Some? && users[a].resetToken == users[b].resetToken
      ==> a == b
  }

  predicate UniqueVerificationTokens(users: map<Id, User>) {
    forall a, b ::
      a in users && b in users && users[a].verificationToken.Some? &&
      users[a].verificationToken == users[b].verificationToken
      ==> a == b
  }

  predicate KeyedByToken(approvals: map<Token, ApprovalStatus>) {
    forall t :: t in approvals ==> approvals[t].token == t
  }

  predicate UniqueTitles(workshops: map<Id, Workshop>) {
    forall a, b :: a in workshops && b in workshops && workshops[a].title == workshops[b].title ==> a == b
  }

  /** Replacing a user row by one with the same address and tokens keeps
      the table's uniqueness constraints. */
  lemma KeepsUniqueness(users: map<Id, User>, id: Id, u: User)
    requires id in users && UniqueEmails(users) && UniqueResetTokens(users) && UniqueVerificationTokens(users)
    requires u.email == users[id].email && u.resetToken == users[id].resetToken
    requires u.verificationToken == users[id].verificationToken
    ensures UniqueEmails(users[id := u]) && UniqueResetTokens(users[id := u]) && UniqueVerificationTokens(users[id := u])
  {
  }

  /** Inserting a row under a new id keeps the uniqueness constraints when
      its address is unused, it holds no reset token, and its verification
      token is held by no one. */
  lemma InsertKeepsUniqueness(users: map<Id, User>, id: Id, u: User)
    requires id !in users && UniqueEmails(users) && UniqueResetTokens(users) && UniqueVerificationTokens(users)
    requires forall other :: other in users ==> users[other].email != u.email
    requires u.resetToken.None?
    requires forall other :: other in users ==> users[other].verificationToken != u.verificationToken
    ensures UniqueEmails(users[id := u]) && UniqueResetTokens(users[id := u]) && UniqueVerificationTokens(users[id := u])
  {
  }

  /** `findUnique({ where: { email } })`. */
  function UserByEmail(users: map<Id, User>, email: string): (r: Option<Id>)
    requires UniqueEmails(users)
    ensures r.Some? ==> r.value in users && users[r.value].email == email
    ensures r.None? ==> forall id :: id in users ==> users[id].email != email
  {
    if exists id :: id in users && users[id].email == email then
      Some(var id :| id in users && users[id].email == email; id)
    else None
  }

  /** `findFirst({ where: { resetToken: token } })`. */
  function UserByResetToken(users: map<Id, User>, token: Token): (r: Option<Id>)
    requires UniqueResetTokens(users)
    ensures r.Some? ==> r.value in users && users[r.value].resetToken == Some(token)
    ensures r.None? ==> forall id :: id in users ==> users[id].resetToken != Some(token)
  {
    if exists id :: id in users && users[id].resetToken == Some(token) then
      Some(var id :| id in users && users[id].resetToken == Some(token); id)
    else None
  }

  /** `findFirst({ where: { verificationToken: token } })`. */
  function UserByVerificationToken(users: map<Id, User>, token: Token): (r: Option<Id>)
    requires UniqueVerificationTokens(users)
    ensures r.Some? ==> r.value in users && users[r.value].verificationToken == Some(token)
    ensures r.None? ==> forall id :: id in users ==> users[id].verificationToken != Some(token)
  {
    if exists id :: id in users && users[id].verificationToken == Some(token) then
      Some(var id :| id in users && users[id].verificationToken == Some(token); id)
    else None
  }

  /** A token some row already holds; the token generator never returns one. */
  predicate TokenInUse(users: map<Id, User>, approvals: map<Token, ApprovalStatus>, t: Token) {
    || t in approvals
    || exists id :: id in users && (users[id].resetToken == Some(t) || users[id].verificationToken == Some(t))
  }

  /** Pairwise distinct and not in use: what a run of the token generator yields. */
  predicate FreshTokens(users: map<Id, User>, approvals: map<Token, ApprovalStatus>, ts: seq<Token>) {
    && (forall i, j :: 0 <= i < j < |ts| ==> ts[i] != ts[j])
    && (forall i :: 0 <= i < |ts| ==> !TokenInUse(users, approvals, ts[i]))
  }

  /** Splitting a run of fresh tokens gives two fresh runs that share no
      token. */
  lemma {:induction false} FreshSplit(users: map<Id, User>, approvals: map<Token, ApprovalStatus>, ts: seq<Token>, rest: seq<Token>)
    requires FreshTokens(users, approvals, ts + rest)
    ensures FreshTokens(users, approvals, ts) && FreshTokens(users, approvals, rest)
    ensures forall i, j :: 0 <= i < |ts| && 0 <= j < |rest| ==> ts[i] != rest[j]
  {
    var all := ts + rest;
    assert forall i :: 0 <= i < |ts| ==> ts[i] == all[i];
    assert forall j :: 0 <= j < |rest| ==> rest[j] == all[|ts| + j];
  }

  /** Tokens stay fresh when the approval table only gains other tokens. */
  lemma {:induction false} FreshAfterStoring(
    users: map<Id, User>, approvals: map<Token, ApprovalStatus>, stored: map<Token, ApprovalStatus>,
    ts: seq<Token>, rest: seq<Token>)
    requires FreshTokens(users, approvals, rest)
    requires forall t :: t in stored ==> t in approvals || t in ts
    requires forall i, j :: 0 <= i < |ts| && 0 <= j < |rest| ==> ts[i] != rest[j]
    ensures FreshTokens(users, stored, rest)
  {
    forall j | 0 <= j < |rest| ensures !TokenInUse(users, stored, rest[j]) {
      assert !TokenInUse(users, approvals, rest[j]);
    }
  }

  /** The Prisma client: every table the services read or write. */
  class Db {
    var users: map<Id, User>
    var projects: map<Id, Project>
    var approvals: map<Token, ApprovalStatus>
    var milestones: map<Id, Milestone>
    var feedback: map<Id, Feedback>
    var workshops: map<Id, Workshop>
    var outbox: seq<Mail>

    ghost predicate Valid()
      reads this
    {
      && UniqueEmails(users)
      && UniqueResetTokens(users)
      && UniqueVerificationTokens(users)
      && KeyedByToken(approvals)
      && UniqueTitles(workshops)
    }

    constructor ()
      ensures Valid()
      ensures users == map[] && projects == map[] && approvals == map[]
      ensures milestones == map[] && feedback == map[] && workshops == map[] && outbox == []
    {
      users, projects, approvals := map[], map[], map[];
      milestones, feedback, workshops := map[], map[], map[];
      outbox := [];
    }
  }
}
