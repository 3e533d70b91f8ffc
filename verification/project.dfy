/** Projects and their relation sets: creation with its defaults and the
    invitations it triggers, attaching and detaching users, and the queries
    over relations and names. */
module ProjectService {
  import opened Common
  import opened Store
  import opened ApprovalStatusService

  /** The relation names `attachUserToProject` accepts. */
  const AttachableRelations := ["members", "encadrants", "juryMembers", "owners", "scientificReviewers"]

  /** The relation names `getProjectRelation` accepts. */
  const ListableRelations := AttachableRelations + ["modules"]

  /** The accepted names are exactly the names of the five user relations. */
  lemma AttachableRelationsAreUserRelations(s: string)
    ensures s in AttachableRelations <==> ParseRelation(s).Some? && ParseRelation(s).value != Modules
  {
  }

  /** The listable names are exactly the names of all six relations. */
  lemma ListableRelationsAreRelations(s: string)
    ensures s in ListableRelations <==> ParseRelation(s).Some?
  {
    assert ListableRelations == ["members", "encadrants", "juryMembers", "owners", "scientificReviewers", "modules"];
  }

  // ---------------------------------------------------------------------
  // Creation

  datatype CreateProjectDto = CreateProjectDto(
    name: string,
    details: ProjectDetails,
    stage: Option<ProjectStage>,
    memberEmails: Option<seq<string>>,
    encadrantEmails: Option<seq<string>>)

  /** The row `createProject` writes: PENDING, the requested stage or IDEA,
      the creator as sole owner and every other relation empty. */
  function NewProject(userId: Id, dto: CreateProjectDto): (p: Project)
    ensures p.status == Pending
    ensures dto.stage.Some? ==> p.stage == dto.stage.value
    ensures dto.stage.None? ==> p.stage == Idea
    ensures p.Related(Owners) == {userId}
    ensures forall r :: r != Owners ==> p.Related(r) == {}
    ensures p.name == dto.name && p.details == dto.details
  {
    Project(dto.name, dto.details, Pending, dto.stage.GetOr(Idea), {userId}, {}, {}, {}, {}, {})
  }

  /** The addresses of an optional list (an absent list invites nobody). */
  function Listed(emails: Option<seq<string>>): seq<string> {
    emails.GetOr([])
  }

  /** One invitation step of `createProject`: a batch for the relation when
      its list is present and non-empty, nothing otherwise. */
  function InviteStep(
    users: map<Id, User>, projects: map<Id, Project>, approvals: map<Token, ApprovalStatus>, outbox: seq<Mail>,
    emails: Option<seq<string>>, projectId: Id, relationName: string, tokens: seq<Token>, now: Millis, bounces: set<string>
  ): (o: BatchOutcome)
    requires UniqueEmails(users) && |tokens| == |Listed(emails)|
    ensures |Listed(emails)| == 0 ==> o == BatchOutcome(Ok([]), approvals, outbox)
  {
    if |Listed(emails)| == 0 then BatchOutcome(Ok([]), approvals, outbox)
    else ApprovalBatch(users, projects, approvals, outbox, Listed(emails), projectId, relationName, tokens, now, bounces)
  }

  datatype CreateOutcome = CreateOutcome(
    result: Result<Project>,
    projects: map<Id, Project>,
    approvals: map<Token, ApprovalStatus>,
    outbox: seq<Mail>)

  /** The whole effect of `createProject`: `projectId` is the id the database
      assigns; `memberTokens` and `encadrantTokens` the tokens drawn for the
      two invitation batches. */
  function ProjectCreation(
    users: map<Id, User>, projects: map<Id, Project>, approvals: map<Token, ApprovalStatus>, outbox: seq<Mail>,
    userId: Id, dto: CreateProjectDto, projectId: Id,
    memberTokens: seq<Token>, encadrantTokens: seq<Token>, now: Millis, bounces: set<string>
  ): CreateOutcome
    requires UniqueEmails(users)
    requires |memberTokens| == |Listed(dto.memberEmails)| && |encadrantTokens| == |Listed(dto.encadrantEmails)|
  {
    if userId !in users then CreateOutcome(Err(Forbidden("User not found")), projects, approvals, outbox)
    else
      var project := NewProject(userId, dto);
      var withProject := projects[projectId := project];
      var m := InviteStep(users, withProject, approvals, outbox, dto.memberEmails, projectId, "members",
                          memberTokens, now, bounces);
      if m.result.Err? then CreateOutcome(Err(m.result.error), withProject, m.approvals, m.outbox)
      else
        var e := InviteStep(users, withProject, m.approvals, m.outbox, dto.encadrantEmails, projectId, "encadrants",
                            encadrantTokens, now, bounces);
        if e.result.Err? then CreateOutcome(Err(e.result.error), withProject, e.approvals, e.outbox)
        else CreateOutcome(Ok(project), withProject, e.approvals, e.outbox)
  }

  /** An unknown creator is refused with Forbidden and nothing is created,
      sent or stored. */
  lemma CreateUnknownUser(
    users: map<Id, User>, projects: map<Id, Project>, approvals: map<Token, ApprovalStatus>, outbox: seq<Mail>,
    userId: Id, dto: CreateProjectDto, projectId: Id,
    memberTokens: seq<Token>, encadrantTokens: seq<Token>, now: Millis, bounces: set<string>)
    requires UniqueEmails(users)
    requires |memberTokens| == |Listed(dto.memberEmails)| && |encadrantTokens| == |Listed(dto.encadrantEmails)|
    requires userId !in users
    ensures ProjectCreation(users, projects, approvals, outbox, userId, dto, projectId, memberTokens, encadrantTokens, now, bounces)
         == CreateOutcome(Err(Forbidden("User not found")), projects, approvals, outbox)
  {
  }

  /** With a known creator the project row is written before any invitation
      goes out, so it stays even when an invitation batch then fails; the
      other projects are untouched. */
  lemma CreateKeepsProject(
    users: map<Id, User>, projects: map<Id, Project>, approvals: map<Token, ApprovalStatus>, outbox: seq<Mail>,
    userId: Id, dto: CreateProjectDto, projectId: Id,
    memberTokens: seq<Token>, encadrantTokens: seq<Token>, now: Millis, bounces: set<string>)
    requires UniqueEmails(users)
    requires |memberTokens| == |Listed(dto.memberEmails)| && |encadrantTokens| == |Listed(dto.encadrantEmails)|
    requires userId in users
    ensures var o := ProjectCreation(users, projects, approvals, outbox, userId, dto, projectId,
                                     memberTokens, encadrantTokens, now, bounces);
      && projectId in o.projects && o.projects[projectId] == NewProject(userId, dto)
      && (forall p :: p in projects && p != projectId ==> p in o.projects && o.projects[p] == projects[p])
      && (o.result.Ok? ==> o.result.value == NewProject(userId, dto))
  {
  }

  /** Invitations are generated only for the lists that are present and
      non-empty: with neither, creation sends and stores nothing beyond the
      project itself. */
  lemma CreateWithoutInvitations(
    users: map<Id, User>, projects: map<Id, Project>, approvals: map<Token, ApprovalStatus>, outbox: seq<Mail>,
    userId: Id, dto: CreateProjectDto, projectId: Id,
    memberTokens: seq<Token>, encadrantTokens: seq<Token>, now: Millis, bounces: set<string>)
    requires UniqueEmails(users)
    requires |memberTokens| == |Listed(dto.memberEmails)| && |encadrantTokens| == |Listed(dto.encadrantEmails)|
    requires |Listed(dto.memberEmails)| == 0 && |Listed(dto.encadrantEmails)| == 0
    requires userId in users
    ensures var o := ProjectCreation(users, projects, approvals, outbox, userId, dto, projectId,
                                     memberTokens, encadrantTokens, now, bounces);
      o.result == Ok(NewProject(userId, dto)) && o.approvals == approvals && o.outbox == outbox
  {
  }

  /** With both lists non-empty, the member batch runs first and the
      encadrant batch only after it succeeded: the member invitations are
      the ones at the head of the new mail. */
  lemma CreateMembersFirst(
    users: map<Id, User>, projects: map<Id, Project>, approvals: map<Token, ApprovalStatus>, outbox: seq<Mail>,
    userId: Id, dto: CreateProjectDto, projectId: Id,
    memberTokens: seq<Token>, encadrantTokens: seq<Token>, now: Millis, bounces: set<string>)
    requires UniqueEmails(users)
    requires |memberTokens| == |Listed(dto.memberEmails)| && |encadrantTokens| == |Listed(dto.encadrantEmails)|
    requires userId in users && |Listed(dto.memberEmails)| > 0
    ensures var o := ProjectCreation(users, projects, approvals, outbox, userId, dto, projectId,
                                     memberTokens, encadrantTokens, now, bounces);
      var emails := Listed(dto.memberEmails);
      o.result.Ok? ==>
        && |o.outbox| >= |outbox| + |emails|
        && forall i :: 0 <= i < |emails| ==>
             o.outbox[|outbox| + i] == InvitationMail(dto.name, "members", emails[i], memberTokens[i])
  {
    var withProject := projects[projectId := NewProject(userId, dto)];
    var emails := Listed(dto.memberEmails);
    var m := InviteStep(users, withProject, approvals, outbox, dto.memberEmails, projectId, "members",
                        memberTokens, now, bounces);
    BatchSuccessSent(users, withProject, approvals, outbox, emails, projectId, "members", memberTokens, now, bounces);
    if m.result.Ok? {
      var e := InviteStep(users, withProject, m.approvals, m.outbox, dto.encadrantEmails, projectId, "encadrants",
                          encadrantTokens, now, bounces);
      InviteStepKeepsSent(users, withProject, m.approvals, m.outbox, dto.encadrantEmails, projectId, "encadrants",
                          encadrantTokens, now, bounces);
      var o := ProjectCreation(users, projects, approvals, outbox, userId, dto, projectId,
                               memberTokens, encadrantTokens, now, bounces);
      if o.result.Ok? {
        assert o.outbox == e.outbox;
        forall i | 0 <= i < |emails|
          ensures o.outbox[|outbox| + i] == InvitationMail(dto.name, "members", emails[i], memberTokens[i])
        {
          assert e.outbox[|outbox| + i] == m.outbox[|outbox| + i];
        }
      }
    }
  }

  /** A successful invitation step only appends to the mail already sent. */
  lemma InviteStepKeepsSent(
    users: map<Id, User>, projects: map<Id, Project>, approvals: map<Token, ApprovalStatus>, outbox: seq<Mail>,
    emails: Option<seq<string>>, projectId: Id, relationName: string, tokens: seq<Token>, now: Millis, bounces: set<string>)
    requires UniqueEmails(users) && |tokens| == |Listed(emails)|
    ensures var o := InviteStep(users, projects, approvals, outbox, emails, projectId, relationName, tokens, now, bounces);
      o.result.Ok? ==> |o.outbox| >= |outbox| && o.outbox[..|outbox|] == outbox
  {
    if |Listed(emails)| > 0 {
      BatchSuccessSent(users, projects, approvals, outbox, Listed(emails), projectId, relationName, tokens, now, bounces);
    }
  }

  /** Tokens left over after a batch stored its own stay fresh. */
  lemma {:induction false} FreshAfterBatch(
    users: map<Id, User>, projects: map<Id, Project>, approvals: map<Token, ApprovalStatus>, outbox: seq<Mail>,
    emails: Option<seq<string>>, projectId: Id, relationName: string,
    tokens: seq<Token>, rest: seq<Token>, now: Millis, bounces: set<string>)
    requires UniqueEmails(users) && |tokens| == |Listed(emails)|
    requires FreshTokens(users, approvals, tokens + rest)
    ensures FreshTokens(users, approvals, tokens)
    ensures var o := InviteStep(users, projects, approvals, outbox, emails, projectId, relationName, tokens, now, bounces);
      o.result.Ok? ==> FreshTokens(users, o.approvals, rest)
  {
    FreshSplit(users, approvals, tokens, rest);
    var o := InviteStep(users, projects, approvals, outbox, emails, projectId, relationName, tokens, now, bounces);
    if |Listed(emails)| > 0 {
      BatchSuccessStored(users, projects, approvals, outbox, Listed(emails), projectId, relationName,
                         tokens, now, bounces);
    }
    if o.result.Ok? {
      FreshAfterStoring(users, approvals, o.approvals, tokens, rest);
    }
  }

  /** One invitation step on the store; `rest` are the tokens still to be
      drawn after this step, and they stay fresh when it succeeds. */
  method Invite(
    db: Db, emails: Option<seq<string>>, projectId: Id, relationName: string,
    tokens: seq<Token>, rest: seq<Token>, now: Millis, bounces: set<string>
  ) returns (r: Result<seq<ApprovalStatus>>)
    requires db.Valid() && |tokens| == |Listed(emails)| && FreshTokens(db.users, db.approvals, tokens + rest)
    modifies db`approvals, db`outbox
    ensures db.Valid()
    ensures var o := InviteStep(db.users, db.projects, old(db.approvals), old(db.outbox), emails, projectId, relationName,
                                tokens, now, bounces);
      r == o.result && db.approvals == o.approvals && db.outbox == o.outbox
    ensures r.Ok? ==> FreshTokens(db.users, db.approvals, rest)
  {
    FreshAfterBatch(db.users, db.projects, db.approvals, db.outbox, emails, projectId, relationName,
                    tokens, rest, now, bounces);
    if |Listed(emails)| == 0 {
      return Ok([]);
    }
    r := GenerateApprovalRequests(db, Listed(emails), projectId, relationName, tokens, now, bounces);
  }

  /** `createProject`, step by step as the service runs it. */
  method CreateProject(
    db: Db, userId: Id, dto: CreateProjectDto, projectId: Id,
    memberTokens: seq<Token>, encadrantTokens: seq<Token>, now: Millis, bounces: set<string>
  ) returns (r: Result<Project>)
    requires db.Valid() && projectId !in db.projects
    requires |memberTokens| == |Listed(dto.memberEmails)| && |encadrantTokens| == |Listed(dto.encadrantEmails)|
    requires FreshTokens(db.users, db.approvals, memberTokens + encadrantTokens)
    modifies db`projects, db`approvals, db`outbox
    ensures db.Valid()
    ensures var o := ProjectCreation(old(db.users), old(db.projects), old(db.approvals), old(db.outbox),
                                     userId, dto, projectId, memberTokens, encadrantTokens, now, bounces);
      r == o.result && db.projects == o.projects && db.approvals == o.approvals && db.outbox == o.outbox
  {
    if userId !in db.users {
      return Err(Forbidden("User not found"));
    }
    var project := NewProject(userId, dto);
    db.projects := db.projects[projectId := project];

    var m := Invite(db, dto.memberEmails, projectId, "members", memberTokens, encadrantTokens, now, bounces);
    if m.Err? {
      return Err(m.error);
    }
    assert encadrantTokens + [] == encadrantTokens;
    var e := Invite(db, dto.encadrantEmails, projectId, "encadrants", encadrantTokens, [], now, bounces);
    if e.Err? {
      return Err(e.error);
    }
    r := Ok(project);
  }

  // ---------------------------------------------------------------------
  // Attaching and detaching users

  /** `findFirst` with `OR: [{ id }, { email }]`: a user whose id is the
      identifier, else the user whose address it is. */
  function FindUserByIdOrEmail(users: map<Id, User>, identifier: string): (r: Option<Id>)
    requires UniqueEmails(users)
    ensures r.Some? ==> r.value in users && (r.value == identifier || users[r.value].email == identifier)
    ensures r.None? ==> identifier !in users && forall id :: id in users ==> users[id].email != identifier
  {
    if identifier in users then Some(identifier) else UserByEmail(users, identifier)
  }

  datatype AttachOutcome = AttachOutcome(result: Result<Project>, projects: map<Id, Project>)

  /** The whole effect of `attachUserToProject`. */
  function Attachment(users: map<Id, User>, projects: map<Id, Project>, projectId: Id, identifier: string, relationType: string)
    : AttachOutcome
    requires UniqueEmails(users)
  {
    match FindUserByIdOrEmail(users, identifier)
    case None => AttachOutcome(Err(NotFound("User not found")), projects)
    case Some(uid) =>
      if relationType !in AttachableRelations then AttachOutcome(Err(BadRequest("Invalid relation type")), projects)
      else if projectId !in projects then AttachOutcome(Err(RecordNotFound), projects)
      else
        var updated := projects[projectId].Connect(ParseRelation(relationType).value, uid);
        AttachOutcome(Ok(updated), projects[projectId := updated])
  }

  /** An identifier that matches no user fails with NotFound whatever the
      relation type, valid or not: the user is looked up first. */
  lemma AttachUnknownUser(users: map<Id, User>, projects: map<Id, Project>, projectId: Id, identifier: string, relationType: string)
    requires UniqueEmails(users)
    requires identifier !in users && forall id :: id in users ==> users[id].email != identifier
    ensures Attachment(users, projects, projectId, identifier, relationType)
         == AttachOutcome(Err(NotFound("User not found")), projects)
  {
  }

  /** A relation type outside the five user relations fails with BadRequest
      and leaves every project as it was. */
  lemma AttachInvalidRelation(users: map<Id, User>, projects: map<Id, Project>, projectId: Id, identifier: string, relationType: string)
    requires UniqueEmails(users)
    requires FindUserByIdOrEmail(users, identifier).Some?
    requires ParseRelation(relationType).None? || ParseRelation(relationType) == Some(Modules)
    ensures Attachment(users, projects, projectId, identifier, relationType)
         == AttachOutcome(Err(BadRequest("Invalid relation type")), projects)
  {
    AttachableRelationsAreUserRelations(relationType);
  }

  /** A successful attach inserts the matched user into the chosen relation
      of that project only. */
  lemma AttachSuccess(users: map<Id, User>, projects: map<Id, Project>, projectId: Id, identifier: string, relationType: string)
    requires UniqueEmails(users)
    ensures var o := Attachment(users, projects, projectId, identifier, relationType);
      o.result.Ok? ==>
        var uid := FindUserByIdOrEmail(users, identifier).value;
        var rel := ParseRelation(relationType).value;
        && rel != Modules && RelationName(rel) == relationType
        && projectId in projects && o.projects.Keys == projects.Keys
        && o.projects[projectId] == o.result.value
        && o.result.value.Related(rel) == projects[projectId].Related(rel) + {uid}
        && (forall q :: q != rel ==> o.result.value.Related(q) == projects[projectId].Related(q))
        && (forall p :: p in projects && p != projectId ==> o.projects[p] == projects[p])
  {
    AttachableRelationsAreUserRelations(relationType);
  }

  /** `attachUserToProject`. */
  method AttachUserToProject(db: Db, projectId: Id, identifier: string, relationType: string) returns (r: Result<Project>)
    requires db.Valid()
    modifies db`projects
    ensures db.Valid()
    ensures var o := Attachment(db.users, old(db.projects), projectId, identifier, relationType);
      r == o.result && db.projects == o.projects
  {
    var user := FindUserByIdOrEmail(db.users, identifier);
    if user.None? {
      return Err(NotFound("User not found"));
    }
    if relationType !in AttachableRelations {
      return Err(BadRequest("Invalid relation type"));
    }
    if projectId !in db.projects {
      return Err(RecordNotFound);
    }
    var updated := db.projects[projectId].Connect(ParseRelation(relationType).value, user.value);
    db.projects := db.projects[projectId := updated];
    r := Ok(updated);
  }

  /** `addMember`: connect the user into `members`; a missing project or
      user makes the update fail. */
  method AddMember(db: Db, projectId: Id, userId: Id) returns (r: Result<Project>)
    modifies db`projects
    ensures projectId !in old(db.projects) || userId !in db.users ==>
      r == Err(RecordNotFound) && db.projects == old(db.projects)
    ensures projectId in old(db.projects) && userId in db.users ==>
      && r == Ok(old(db.projects)[projectId].Connect(Members, userId))
      && db.projects == old(db.projects)[projectId := r.value]
  {
    if projectId !in db.projects || userId !in db.users {
      return Err(RecordNotFound);
    }
    var updated := db.projects[projectId].Connect(Members, userId);
    db.projects := db.projects[projectId := updated];
    r := Ok(updated);
  }

  /** `removeMember`: disconnect the user from `members`; a missing project
      makes the update fail. */
  method RemoveMember(db: Db, projectId: Id, userId: Id) returns (r: Result<Project>)
    modifies db`projects
    ensures projectId !in old(db.projects) ==> r == Err(RecordNotFound) && db.projects == old(db.projects)
    ensures projectId in old(db.projects) ==>
      && r == Ok(old(db.projects)[projectId].Disconnect(Members, userId))
      && db.projects == old(db.projects)[projectId := r.value]
  {
    if projectId !in db.projects {
      return Err(RecordNotFound);
    }
    var updated := db.projects[projectId].Disconnect(Members, userId);
    db.projects := db.projects[projectId := updated];
    r := Ok(updated);
  }

  /** Removing a member undoes adding one who was not a member before; other
      relations are untouched by either. */
  lemma {:induction false} RemoveUndoesAdd(p: Project, userId: Id)
    requires userId !in p.members
    ensures p.Connect(Members, userId).Disconnect(Members, userId) == p
  {
    var q := p.Connect(Members, userId).Disconnect(Members, userId);
    assert q.members == q.Related(Members) == p.Related(Members);
  }

  // ---------------------------------------------------------------------
  // Queries

  /** `getProjectRelation` as intended: the ids in one relation of a project,
      modules included; the name is checked before the project is looked up.
      See ModulesListingRejected for the query as written. */
  function GetProjectRelation(projects: map<Id, Project>, projectId: Id, relationType: string): (r: Result<set<Id>>)
    ensures relationType !in ListableRelations ==> r == Err(BadRequest("Invalid relation type: " + relationType))
    ensures relationType in ListableRelations && projectId !in projects ==> r == Err(NotFound("Project not found"))
    ensures relationType == "modules" && projectId in projects ==> r == Ok(projects[projectId].modules)
    ensures r.Ok? ==>
      && ParseRelation(relationType).Some? && projectId in projects
      && r.value == projects[projectId].Related(ParseRelation(relationType).value)
  {
    ListableRelationsAreRelations(relationType);
    if relationType !in ListableRelations then Err(BadRequest("Invalid relation type: " + relationType))
    else if projectId !in projects then Err(NotFound("Project not found"))
    else Ok(projects[projectId].Related(ParseRelation(relationType).value))
  }

  /** The fields `getProjectRelation` selects from every related record. */
  const RelationSelection: set<string> := {"id", "firstName", "lastName", "email"}

  /** The fields of the records a relation holds, as far as the selection
      goes: a user has all four selected fields, while a module has an id, a
      name, a progress percentage and its project (its create and update
      DTOs). */
  function RecordFields(r: Relation): set<string> {
    if r == Modules then {"id", "name", "progressPercentage", "projectId"}
    else RelationSelection
  }

  /** `getProjectRelation` as written: the same selection applies to every
      relation, and Prisma rejects a query selecting a field the related model
      does not have before running it, so a project's modules cannot be
      listed. It agrees with the intended query on every other name. */
  function GetProjectRelationAsWritten(projects: map<Id, Project>, projectId: Id, relationType: string)
    : (r: Result<set<Id>>)
    ensures relationType == "modules" ==> r == Err(InvalidSelection("modules"))
    ensures relationType != "modules" ==> r == GetProjectRelation(projects, projectId, relationType)
  {
    ListableRelationsAreRelations(relationType);
    if relationType !in ListableRelations then Err(BadRequest("Invalid relation type: " + relationType))
    else if !(RelationSelection <= RecordFields(ParseRelation(relationType).value)) then Err(InvalidSelection(relationType))
    else if projectId !in projects then Err(NotFound("Project not found"))
    else Ok(projects[projectId].Related(ParseRelation(relationType).value))
  }

  /** Listing the modules of an existing project fails as written, where the
      intended query returns exactly its modules. */
  lemma {:induction false} ModulesListingRejected(projects: map<Id, Project>, projectId: Id)
    requires projectId in projects
    ensures GetProjectRelationAsWritten(projects, projectId, "modules").Err?
    ensures GetProjectRelation(projects, projectId, "modules") == Ok(projects[projectId].modules)
  {
  }

  /** What is attached can be listed: after a successful attach the relation
      lists the user, and every other relation lists what it did before. */
  lemma AttachThenList(
    users: map<Id, User>, projects: map<Id, Project>, projectId: Id, identifier: string, relationType: string, other: string)
    requires UniqueEmails(users)
    ensures var o := Attachment(users, projects, projectId, identifier, relationType);
      o.result.Ok? ==>
        && GetProjectRelation(o.projects, projectId, relationType).Ok?
        && FindUserByIdOrEmail(users, identifier).value in GetProjectRelation(o.projects, projectId, relationType).value
        && (other != relationType ==>
              GetProjectRelation(o.projects, projectId, other) == GetProjectRelation(projects, projectId, other))
  {
    AttachSuccess(users, projects, projectId, identifier, relationType);
    AttachableRelationsAreUserRelations(relationType);
    ListableRelationsAreRelations(relationType);
    ListableRelationsAreRelations(other);
    if ParseRelation(other).Some? && ParseRelation(relationType).Some? {
      assert other != relationType ==> ParseRelation(other) != ParseRelation(relationType);
    }
  }

  /** `getProjectsWithoutEncadrants`: the projects whose `encadrants` relation
      is empty. */
  function ProjectsWithoutEncadrants(projects: map<Id, Project>): (r: map<Id, Project>)
    ensures forall id :: id in r <==> id in projects && projects[id].encadrants == {}
    ensures forall id :: id in r ==> r[id] == projects[id]
  {
    map id | id in projects && projects[id].encadrants == {} :: projects[id]
  }

  /** Attaching an encadrant takes the project off that list. */
  lemma AttachedEncadrantLeavesList(
    users: map<Id, User>, projects: map<Id, Project>, projectId: Id, identifier: string)
    requires UniqueEmails(users)
    ensures var o := Attachment(users, projects, projectId, identifier, "encadrants");
      o.result.Ok? ==> projectId !in ProjectsWithoutEncadrants(o.projects)
  {
    AttachSuccess(users, projects, projectId, identifier, "encadrants");
  }

  /** Prisma's case-insensitive `contains` on the name, with ASCII case
      folding. */
  predicate NameMatches(p: Project, name: string) {
    Contains(ToLower(p.name), ToLower(name))
  }

  /** `searchProjectByName`. */
  function SearchProjectByName(projects: map<Id, Project>, name: string): (r: map<Id, Project>)
    ensures forall id :: id in r <==> id in projects && NameMatches(projects[id], name)
    ensures forall id :: id in r ==> r[id] == projects[id]
  {
    map id | id in projects && NameMatches(projects[id], name) :: projects[id]
  }

  /** A project is found by its full name, and the empty search finds every
      project. */
  lemma SearchFindsExactName(projects: map<Id, Project>, id: Id)
    requires id in projects
    ensures id in SearchProjectByName(projects, projects[id].name)
    ensures id in SearchProjectByName(projects, "")
  {
    ContainsSelf(ToLower(projects[id].name));
    assert IsPrefix(ToLower(""), ToLower(projects[id].name)[0..]);
  }

  lemma ToLowerIdempotent(s: string)
    ensures ToLower(ToLower(s)) == ToLower(s)
  {
  }

  /** The search ignores the case of the query. */
  lemma SearchIgnoresCase(projects: map<Id, Project>, name: string)
    ensures SearchProjectByName(projects, ToLower(name)) == SearchProjectByName(projects, name)
  {
    ToLowerIdempotent(name);
  }
}
