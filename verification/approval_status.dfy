/** The invitation / approval workflow: a batch of invitations creates one
    PENDING approval per invitee, each with its own token and an e-mail
    carrying a link with that token; redeeming a token marks its approval
    APPROVED and connects the invitee into a project relation named by the
    caller. */
module ApprovalStatusService {
  import opened Common
  import opened Store

  // ---------------------------------------------------------------------
  // Invitation content

  const ApprovalLinkBase := "http://localhost:3000/approval-status/approve-page?token="

  /** The redemption link: the fixed page address with the bare token as the
      value of its `token` query parameter, so the token is the link's suffix. */
  function GenerateApprovalLink(token: Token): (link: string)
    ensures IsPrefix(ApprovalLinkBase, link)
    ensures link[|ApprovalLinkBase|..] == token
  {
    ApprovalLinkBase + token
  }

  /** Reading the token back out of a redemption link. */
  function TokenOfLink(link: string): Option<Token> {
    if IsPrefix(ApprovalLinkBase, link) then Some(link[|ApprovalLinkBase|..]) else None
  }

  lemma LinkRoundTrip(token: Token)
    ensures TokenOfLink(GenerateApprovalLink(token)) == Some(token)
  {
  }

  /** Distinct tokens give distinct links. */
  lemma LinkInjective(a: Token, b: Token)
    requires GenerateApprovalLink(a) == GenerateApprovalLink(b)
    ensures a == b
  {
    LinkRoundTrip(a);
    LinkRoundTrip(b);
  }

  /** The relation-specific line of the invitation; only three relation names
      have one. */
  function RelationMessage(relationName: string): (m: Option<string>)
    ensures m.Some? <==> relationName in {"members", "encadrants", "juryMembers"}
  {
    if relationName == "members" then Some("You are invited to join as a member.")
    else if relationName == "encadrants" then Some("You are invited to participate as an encadrant.")
    else if relationName == "juryMembers" then Some("You are invited to join as a jury member.")
    else None
  }

  const FallbackMessage := "You are invited to collaborate on the project."

  /** The line the plain-text body uses: the relation's own, else the fallback. */
  function InvitationMessage(relationName: string): string {
    RelationMessage(relationName).GetOr(FallbackMessage)
  }

  function InvitationSubject(projectName: string): string {
    "Invitation to Join Project: " + projectName
  }

  // The fixed pieces of the two invitation bodies, between the interpolated parts.
  const TextOpening := "\n      Hello,\n      \n      You have been invited to join the project: "
  const TextAfterName := ".\n      "
  const TextAfterMessage := "\n      \n      Please click the link below to approve your participation:\n      \n      "
  const TextClosing := "\n      \n      Thank you!\n    "

  const HtmlOpening := "\n    <p>Hello,</p>\n    <p>You have been invited to join the project: <strong>"
  const HtmlAfterName := "</strong>.</p>\n    <p>"
  const HtmlAfterMessage := "</p>\n    <p>Please click the link below to approve your participation:</p>\n    <a href=\""
  const HtmlBetweenLinks := "\">"
  const HtmlClosing := "</a>\n    <p>Thank you!</p>\n  "

  /** The plain-text body of an invitation. */
  function InvitationText(projectName: string, message: string, approvalLink: string): (text: string)
    ensures Contains(text, message) && Contains(text, approvalLink)
  {
    var head := TextOpening + projectName + TextAfterName;
    ContainsEnd(head, message);
    ContainsExtend(head + message, TextAfterMessage, message);
    ContainsExtend(head + message + TextAfterMessage, approvalLink, message);
    ContainsExtend(head + message + TextAfterMessage + approvalLink, TextClosing, message);
    ContainsEnd(head + message + TextAfterMessage, approvalLink);
    ContainsExtend(head + message + TextAfterMessage + approvalLink, TextClosing, approvalLink);
    head + message + TextAfterMessage + approvalLink + TextClosing
  }

  /** `generateHtmlEmail`: the HTML body of an invitation, with the link both
      as the anchor's target and as its text. */
  function GenerateHtmlEmail(projectName: string, relationMessage: string, approvalLink: string): (html: string)
    ensures Contains(html, relationMessage) && Contains(html, approvalLink)
    ensures |html| == |HtmlOpening + HtmlAfterName + HtmlAfterMessage + HtmlBetweenLinks + HtmlClosing|
                      + |projectName| + |relationMessage| + 2 * |approvalLink|
  {
    var head := HtmlOpening + projectName + HtmlAfterName;
    var upToLink := head + relationMessage + HtmlAfterMessage;
    ContainsEnd(head, relationMessage);
    ContainsExtend(head + relationMessage, HtmlAfterMessage, relationMessage);
    ContainsExtend(upToLink, approvalLink, relationMessage);
    ContainsExtend(upToLink + approvalLink, HtmlBetweenLinks, relationMessage);
    ContainsExtend(upToLink + approvalLink + HtmlBetweenLinks, approvalLink, relationMessage);
    ContainsExtend(upToLink + approvalLink + HtmlBetweenLinks + approvalLink, HtmlClosing, relationMessage);
    ContainsEnd(upToLink, approvalLink);
    ContainsExtend(upToLink + approvalLink, HtmlBetweenLinks, approvalLink);
    ContainsExtend(upToLink + approvalLink + HtmlBetweenLinks, approvalLink, approvalLink);
    ContainsExtend(upToLink + approvalLink + HtmlBetweenLinks + approvalLink, HtmlClosing, approvalLink);
    upToLink + approvalLink + HtmlBetweenLinks + approvalLink + HtmlClosing
  }

  /** The line the HTML body receives as written: the raw table lookup, which
      a JavaScript template renders as "undefined" when the name is missing. */
  function HtmlRelationMessageAsWritten(relationName: string): (m: string)
    ensures RelationMessage(relationName).Some? ==> m == InvitationMessage(relationName)
  {
    match RelationMessage(relationName)
    case Some(m) => m
    case None => "undefined"
  }

  /** As written, the two bodies of an invitation into any relation other than
      the three with their own line disagree: the text body falls back to the
      generic line, while the HTML body shows "undefined" and differs from the
      HTML body built with the line the text uses. */
  lemma {:induction false} HtmlMessageDiscrepancy(projectName: string, relationName: string, link: string)
    requires RelationMessage(relationName).None?
    ensures InvitationMessage(relationName) == FallbackMessage
    ensures Contains(GenerateHtmlEmail(projectName, HtmlRelationMessageAsWritten(relationName), link), "undefined")
    ensures GenerateHtmlEmail(projectName, HtmlRelationMessageAsWritten(relationName), link)
            != GenerateHtmlEmail(projectName, InvitationMessage(relationName), link)
  {
    assert |"undefined"| != |FallbackMessage|;
  }

  /** The invitation sent to one invitee, with the HTML body given the same
      line as the text body (see HtmlMessageDiscrepancy). For members,
      encadrants and juryMembers this is also the line the HTML receives as
      written (see HtmlRelationMessageAsWritten). */
  function InvitationMail(projectName: string, relationName: string, email: string, token: Token): (m: Mail)
    ensures m.to == email && m.subject == InvitationSubject(projectName)
    ensures m.body == InvitationBody(projectName, InvitationMessage(relationName), GenerateApprovalLink(token))
  {
    Mail(email, InvitationSubject(projectName),
         InvitationBody(projectName, InvitationMessage(relationName), GenerateApprovalLink(token)))
  }

  /** The invitation names the project in its subject, and both of its
      rendered bodies carry the approval link and the relation's message. */
  lemma InvitationMailContents(projectName: string, relationName: string, email: string, token: Token)
    ensures var m := InvitationMail(projectName, relationName, email, token);
      var text := InvitationText(m.body.projectName, m.body.message, m.body.approvalLink);
      var html := GenerateHtmlEmail(m.body.projectName, m.body.message, m.body.approvalLink);
      && Contains(m.subject, projectName)
      && Contains(text, GenerateApprovalLink(token)) && Contains(html, GenerateApprovalLink(token))
      && Contains(text, InvitationMessage(relationName)) && Contains(html, InvitationMessage(relationName))
  {
    ContainsEnd("Invitation to Join Project: ", projectName);
  }

  // ---------------------------------------------------------------------
  // Invitation batch

  /** One validated invitee: its address, the token drawn for it, its user id. */
  datatype Invitee = Invitee(email: string, token: Token, userId: Id)

  function UnknownEmail(email: string): Error {
    BadRequest("User with email " + email + " does not exist.")
  }

  function UnknownProject(projectId: Id): Error {
    NotFound("Project with ID " + projectId + " not found.")
  }

  /** The position of the first address that belongs to no user, or the
      number of addresses when all of them do. */
  function FirstUnknown(users: map<Id, User>, emails: seq<string>): (k: nat)
    requires UniqueEmails(users)
    ensures k <= |emails|
    ensures forall j :: 0 <= j < k ==> UserByEmail(users, emails[j]).Some?
    ensures k < |emails| ==> UserByEmail(users, emails[k]).None?
  {
    if emails == [] then 0
    else if UserByEmail(users, emails[0]).None? then 0
    else 1 + FirstUnknown(users, emails[1..])
  }

  /** The validation loop: every address must belong to a user, and the
      first one that does not aborts the batch; invitee i gets token i. */
  function ResolveInvitees(users: map<Id, User>, emails: seq<string>, tokens: seq<Token>): (r: Result<seq<Invitee>>)
    requires UniqueEmails(users) && |tokens| == |emails|
    ensures r.Ok? <==> forall i :: 0 <= i < |emails| ==> UserByEmail(users, emails[i]).Some?
    ensures r.Ok? ==> |r.value| == |emails|
    ensures r.Ok? ==> forall i :: 0 <= i < |emails| ==>
      && r.value[i].email == emails[i] && r.value[i].token == tokens[i]
      && r.value[i].userId in users && users[r.value[i].userId].email == emails[i]
    ensures r.Err? ==> exists i :: 0 <= i < |emails| && UserByEmail(users, emails[i]).None? && r.error == UnknownEmail(emails[i])
  {
    var k := FirstUnknown(users, emails);
    if k < |emails| then Err(UnknownEmail(emails[k]))
    else Ok(seq(|emails|, i requires 0 <= i < |emails| =>
              Invitee(emails[i], tokens[i], UserByEmail(users, emails[i]).value)))
  }

  /** The position of the first address the mail transport refuses, or the
      number of addresses when it refuses none. */
  function FirstBounce(emails: seq<string>, bounces: set<string>): (k: nat)
    ensures k <= |emails|
    ensures forall j :: 0 <= j < k ==> emails[j] !in bounces
    ensures k < |emails| ==> emails[k] in bounces
  {
    if emails == [] then 0
    else if emails[0] in bounces then 0
    else 1 + FirstBounce(emails[1..], bounces)
  }

  function InvitationMails(projectName: string, relationName: string, invitees: seq<Invitee>): seq<Mail> {
    seq(|invitees|, i requires 0 <= i < |invitees| =>
      InvitationMail(projectName, relationName, invitees[i].email, invitees[i].token))
  }

  function PendingRecord(projectId: Id, invitee: Invitee, now: Millis): ApprovalStatus {
    ApprovalStatus(projectId, Pending, invitee.userId, now, invitee.token)
  }

  function PendingRecords(projectId: Id, invitees: seq<Invitee>, now: Millis): seq<ApprovalStatus> {
    seq(|invitees|, i requires 0 <= i < |invitees| => PendingRecord(projectId, invitees[i], now))
  }

  function Tokens(records: seq<ApprovalStatus>): seq<Token> {
    seq(|records|, i requires 0 <= i < |records| => records[i].token)
  }

  predicate DistinctTokens(records: seq<ApprovalStatus>) {
    forall i, j :: 0 <= i < j < |records| ==> records[i].token != records[j].token
  }

  /** The transaction: every record is written, keyed by its token. */
  function Persist(approvals: map<Token, ApprovalStatus>, records: seq<ApprovalStatus>): map<Token, ApprovalStatus>
  {
    if records == [] then approvals
    else
      var last := records[|records| - 1];
      Persist(approvals, records[..|records| - 1])[last.token := last]
  }

  /** What the transaction leaves in the table: every record of the batch
      under its token, and otherwise exactly the old rows. */
  lemma {:induction false} PersistContents(approvals: map<Token, ApprovalStatus>, records: seq<ApprovalStatus>)
    requires DistinctTokens(records)
    ensures forall i :: 0 <= i < |records| ==>
      records[i].token in Persist(approvals, records) && Persist(approvals, records)[records[i].token] == records[i]
    ensures forall t :: t in Persist(approvals, records) <==> t in approvals || t in Tokens(records)
    ensures forall t :: t in approvals && t !in Tokens(records) ==> Persist(approvals, records)[t] == approvals[t]
  {
    if records != [] {
      var n := |records| - 1;
      var init := records[..n];
      PersistContents(approvals, init);
      assert Tokens(records) == Tokens(init) + [records[n].token];
    }
  }

  lemma {:induction false} PersistKeepsKeyed(approvals: map<Token, ApprovalStatus>, records: seq<ApprovalStatus>)
    requires KeyedByToken(approvals)
    ensures KeyedByToken(Persist(approvals, records))
  {
    if records != [] {
      PersistKeepsKeyed(approvals, records[..|records| - 1]);
    }
  }

  /** The whole effect of `generateApprovalRequests` on the approval table and
      the outbox, with its result. */
  datatype BatchOutcome = BatchOutcome(
    result: Result<seq<ApprovalStatus>>,
    approvals: map<Token, ApprovalStatus>,
    outbox: seq<Mail>)

  function ApprovalBatch(
    users: map<Id, User>, projects: map<Id, Project>, approvals: map<Token, ApprovalStatus>, outbox: seq<Mail>,
    emails: seq<string>, projectId: Id, relationName: string, tokens: seq<Token>, now: Millis, bounces: set<string>
  ): BatchOutcome
    requires UniqueEmails(users) && |tokens| == |emails|
  {
    if projectId !in projects then BatchOutcome(Err(UnknownProject(projectId)), approvals, outbox)
    else
      match ResolveInvitees(users, emails, tokens)
      case Err(e) => BatchOutcome(Err(e), approvals, outbox)
      case Ok(invitees) =>
        var mails := InvitationMails(projects[projectId].name, relationName, invitees);
        var k := FirstBounce(emails, bounces);
        if k < |emails| then BatchOutcome(Err(MailFailed(emails[k])), approvals, outbox + mails[..k])
        else
          var records := PendingRecords(projectId, invitees, now);
          BatchOutcome(Ok(records), Persist(approvals, records), outbox + mails)
  }

  /** An unknown project fails before anything is sent or stored. */
  lemma BatchUnknownProject(
    users: map<Id, User>, projects: map<Id, Project>, approvals: map<Token, ApprovalStatus>, outbox: seq<Mail>,
    emails: seq<string>, projectId: Id, relationName: string, tokens: seq<Token>, now: Millis, bounces: set<string>)
    requires UniqueEmails(users) && |tokens| == |emails|
    requires projectId !in projects
    ensures ApprovalBatch(users, projects, approvals, outbox, emails, projectId, relationName, tokens, now, bounces)
      == BatchOutcome(Err(NotFound("Project with ID " + projectId + " not found.")), approvals, outbox)
  {
  }

  /** An address without an account rejects the whole batch, naming the first
      such address, before any invitation is sent or any record stored. */
  lemma BatchUnknownEmail(
    users: map<Id, User>, projects: map<Id, Project>, approvals: map<Token, ApprovalStatus>, outbox: seq<Mail>,
    emails: seq<string>, projectId: Id, relationName: string, tokens: seq<Token>, now: Millis, bounces: set<string>,
    i: nat)
    requires UniqueEmails(users) && |tokens| == |emails|
    requires projectId in projects
    requires i < |emails| && UserByEmail(users, emails[i]).None?
    requires forall j :: 0 <= j < i ==> UserByEmail(users, emails[j]).Some?
    ensures var o := ApprovalBatch(users, projects, approvals, outbox, emails, projectId, relationName, tokens, now, bounces);
      && o.result == Err(BadRequest("User with email " + emails[i] + " does not exist."))
      && o.approvals == approvals && o.outbox == outbox
  {
    assert FirstUnknown(users, emails) == i;
  }

  /** A successful batch returns one PENDING record per address, in order,
      each for the given project, the address's user and the token drawn for
      it. */
  lemma BatchSuccessRecords(
    users: map<Id, User>, projects: map<Id, Project>, approvals: map<Token, ApprovalStatus>, outbox: seq<Mail>,
    emails: seq<string>, projectId: Id, relationName: string, tokens: seq<Token>, now: Millis, bounces: set<string>)
    requires UniqueEmails(users) && |tokens| == |emails|
    ensures var o := ApprovalBatch(users, projects, approvals, outbox, emails, projectId, relationName, tokens, now, bounces);
      o.result.Ok? ==>
        && projectId in projects
        && |o.result.value| == |emails|
        && forall i :: 0 <= i < |emails| ==>
             && o.result.value[i].status == Pending && o.result.value[i].projectId == projectId
             && o.result.value[i].token == tokens[i] && o.result.value[i].createdAt == now
             && o.result.value[i].approvedById in users && users[o.result.value[i].approvedById].email == emails[i]
  {
  }

  /** A successful batch with fresh, distinct tokens stores exactly its
      records under their tokens, in addition to the old rows, which it
      leaves as they were. */
  lemma BatchSuccessStored(
    users: map<Id, User>, projects: map<Id, Project>, approvals: map<Token, ApprovalStatus>, outbox: seq<Mail>,
    emails: seq<string>, projectId: Id, relationName: string, tokens: seq<Token>, now: Millis, bounces: set<string>)
    requires UniqueEmails(users) && |tokens| == |emails|
    requires forall i, j :: 0 <= i < j < |tokens| ==> tokens[i] != tokens[j]
    requires forall i :: 0 <= i < |tokens| ==> tokens[i] !in approvals
    ensures var o := ApprovalBatch(users, projects, approvals, outbox, emails, projectId, relationName, tokens, now, bounces);
      o.result.Ok? ==>
        && (forall i :: 0 <= i < |tokens| ==> tokens[i] in o.approvals && o.approvals[tokens[i]] == o.result.value[i])
        && (forall t :: t in o.approvals <==> t in approvals || t in tokens)
        && (forall t :: t in approvals ==> o.approvals[t] == approvals[t])
  {
    var o := ApprovalBatch(users, projects, approvals, outbox, emails, projectId, relationName, tokens, now, bounces);
    if o.result.Ok? {
      var records := o.result.value;
      assert Tokens(records) == tokens;
      PersistContents(approvals, records);
    }
  }

  /** A successful batch sends exactly one invitation per address, in order,
      after the mail already sent. */
  lemma BatchSuccessSent(
    users: map<Id, User>, projects: map<Id, Project>, approvals: map<Token, ApprovalStatus>, outbox: seq<Mail>,
    emails: seq<string>, projectId: Id, relationName: string, tokens: seq<Token>, now: Millis, bounces: set<string>)
    requires UniqueEmails(users) && |tokens| == |emails|
    ensures var o := ApprovalBatch(users, projects, approvals, outbox, emails, projectId, relationName, tokens, now, bounces);
      o.result.Ok? ==>
        && projectId in projects
        && |o.outbox| == |outbox| + |emails| && o.outbox[..|outbox|] == outbox
        && forall i :: 0 <= i < |emails| ==>
             o.outbox[|outbox| + i] == InvitationMail(projects[projectId].name, relationName, emails[i], tokens[i])
  {
  }

  /** Storage is all-or-nothing: a failed batch leaves the approval table as
      it was. */
  lemma BatchAllOrNothing(
    users: map<Id, User>, projects: map<Id, Project>, approvals: map<Token, ApprovalStatus>, outbox: seq<Mail>,
    emails: seq<string>, projectId: Id, relationName: string, tokens: seq<Token>, now: Millis, bounces: set<string>)
    requires UniqueEmails(users) && |tokens| == |emails|
    ensures var o := ApprovalBatch(users, projects, approvals, outbox, emails, projectId, relationName, tokens, now, bounces);
      o.result.Err? ==> o.approvals == approvals
  {
  }

  /** Invitations go out before the batch is stored: when the transport
      refuses the k-th address, the first k invitations have been sent and no
      record exists for any of them. */
  lemma BatchSendsBeforeStoring(
    users: map<Id, User>, projects: map<Id, Project>, approvals: map<Token, ApprovalStatus>, outbox: seq<Mail>,
    emails: seq<string>, projectId: Id, relationName: string, tokens: seq<Token>, now: Millis, bounces: set<string>,
    k: nat)
    requires UniqueEmails(users) && |tokens| == |emails|
    requires projectId in projects
    requires forall i :: 0 <= i < |emails| ==> UserByEmail(users, emails[i]).Some?
    requires k < |emails| && emails[k] in bounces && forall j :: 0 <= j < k ==> emails[j] !in bounces
    ensures var o := ApprovalBatch(users, projects, approvals, outbox, emails, projectId, relationName, tokens, now, bounces);
      && o.result == Err(MailFailed(emails[k]))
      && o.approvals == approvals
      && |o.outbox| == |outbox| + k
      && forall i :: 0 <= i < k ==>
           o.outbox[|outbox| + i] == InvitationMail(projects[projectId].name, relationName, emails[i], tokens[i])
  {
    assert FirstBounce(emails, bounces) == k;
  }

  /** The validation loop of `generateApprovalRequests`: look every address
      up, in order, and stop at the first that has no account. */
  method ValidateEmails(db: Db, emails: seq<string>, tokens: seq<Token>) returns (r: Result<seq<Invitee>>)
    requires UniqueEmails(db.users) && |tokens| == |emails|
    ensures r == ResolveInvitees(db.users, emails, tokens)
  {
    var valid: seq<Invitee> := [];
    var i := 0;
    while i < |emails|
      invariant 0 <= i <= |emails| && |valid| == i
      invariant forall j :: 0 <= j < i ==> UserByEmail(db.users, emails[j]).Some?
      invariant forall j :: 0 <= j < i ==>
        valid[j] == Invitee(emails[j], tokens[j], UserByEmail(db.users, emails[j]).value)
    {
      var user := UserByEmail(db.users, emails[i]);
      if user.None? {
        assert FirstUnknown(db.users, emails) == i;
        return Err(UnknownEmail(emails[i]));
      }
      valid := valid + [Invitee(emails[i], tokens[i], user.value)];
      i := i + 1;
    }
    assert FirstUnknown(db.users, emails) == |emails|;
    assert valid == ResolveInvitees(db.users, emails, tokens).value;
    r := Ok(valid);
  }

  function Emails(invitees: seq<Invitee>): seq<string> {
    seq(|invitees|, i requires 0 <= i < |invitees| => invitees[i].email)
  }

  /** The sending loop of `generateApprovalRequests`: for each invitee in
      turn, prepare its PENDING record and hand its invitation (`mails[i]`
      for `invitees[i]`) to the transport; the first address the transport
      refuses aborts the loop. */
  method SendInvitations(
    db: Db, projectId: Id, invitees: seq<Invitee>, mails: seq<Mail>, now: Millis, bounces: set<string>
  ) returns (r: Result<seq<ApprovalStatus>>)
    requires |mails| == |invitees|
    modifies db`outbox
    ensures var k := FirstBounce(Emails(invitees), bounces);
      && db.outbox == old(db.outbox) + mails[..k]
      && (k < |invitees| ==> r == Err(MailFailed(invitees[k].email)))
      && (k == |invitees| ==> r == Ok(PendingRecords(projectId, invitees, now)))
  {
    ghost var emails := Emails(invitees);
    var entries: seq<ApprovalStatus> := [];
    var i := 0;
    while i < |invitees|
      invariant 0 <= i <= |invitees|
      invariant entries == PendingRecords(projectId, invitees, now)[..i]
      invariant db.outbox == old(db.outbox) + mails[..i]
      invariant forall j :: 0 <= j < i ==> invitees[j].email !in bounces
    {
      var invitee := invitees[i];
      entries := entries + [PendingRecord(projectId, invitee, now)];
      if invitee.email in bounces {
        assert emails[i] == invitee.email;
        assert FirstBounce(emails, bounces) == i;
        return Err(MailFailed(invitee.email));
      }
      db.outbox := db.outbox + [mails[i]];
      assert mails[..i + 1] == mails[..i] + [mails[i]];
      i := i + 1;
    }
    assert FirstBounce(emails, bounces) == |invitees|;
    assert PendingRecords(projectId, invitees, now)[..i] == PendingRecords(projectId, invitees, now);
    r := Ok(entries);
  }

  /** `generateApprovalRequests`: look the project up, resolve every address
      (drawing a token for each), send the invitations one by one, and
      finally store all records in one transaction. `tokens` are the tokens
      the generator yields, in order; `bounces` the addresses the mail
      transport refuses. */
  method GenerateApprovalRequests(
    db: Db, emails: seq<string>, projectId: Id, relationName: string,
    tokens: seq<Token>, now: Millis, bounces: set<string>
  ) returns (r: Result<seq<ApprovalStatus>>)
    requires db.Valid()
    requires |tokens| == |emails| && FreshTokens(db.users, db.approvals, tokens)
    modifies db`approvals, db`outbox
    ensures db.Valid()
    ensures var o := ApprovalBatch(old(db.users), old(db.projects), old(db.approvals), old(db.outbox),
                                   emails, projectId, relationName, tokens, now, bounces);
      r == o.result && db.approvals == o.approvals && db.outbox == o.outbox
  {
    if projectId !in db.projects {
      return Err(UnknownProject(projectId));
    }
    var project := db.projects[projectId];
    var resolved := ValidateEmails(db, emails, tokens);
    if resolved.Err? {
      return Err(resolved.error);
    }
    var invitees := resolved.value;
    assert Emails(invitees) == emails;
    var mails := InvitationMails(project.name, relationName, invitees);
    var sent := SendInvitations(db, projectId, invitees, mails, now, bounces);
    if sent.Err? {
      return sent;
    }
    PersistKeepsKeyed(db.approvals, sent.value);
    db.approvals := Persist(db.approvals, sent.value);
    r := sent;
  }

  // ---------------------------------------------------------------------
  // Redeeming a token

  /** The whole effect of `approveRequest` on the approval and project
      tables, with its result. */
  datatype ApproveOutcome = ApproveOutcome(
    result: Result<string>,
    approvals: map<Token, ApprovalStatus>,
    projects: map<Id, Project>)

  /** The approval row of `token`, marked APPROVED; nothing else about it
      changes. */
  function MarkApproved(approvals: map<Token, ApprovalStatus>, token: Token): (r: map<Token, ApprovalStatus>)
    requires token in approvals
    ensures r.Keys == approvals.Keys
    ensures r[token] == approvals[token].(status := Approved)
    ensures forall t :: t in approvals && t != token ==> r[t] == approvals[t]
  {
    approvals[token := approvals[token].(status := Approved)]
  }

  /** `approveRequest`: the token's row is marked APPROVED first, whatever its
      status was; then the invitee is connected into the relation the caller
      names. The relation name is not checked by the service: a name the
      project model does not have, a project or user that no longer exists,
      and the `modules` relation (whose ids are module ids) all make the
      connect fail after the status has been written. */
  function Approval(
    users: map<Id, User>, projects: map<Id, Project>, approvals: map<Token, ApprovalStatus>,
    token: Token, relationName: string
  ): ApproveOutcome
  {
    if token !in approvals then ApproveOutcome(Err(NotFound("Invalid or expired token.")), approvals, projects)
    else
      var row := approvals[token];
      var marked := MarkApproved(approvals, token);
      match ParseRelation(relationName)
      case None => ApproveOutcome(Err(UnknownRelation(relationName)), marked, projects)
      case Some(rel) =>
        if row.projectId !in projects || row.approvedById !in users || rel == Modules then
          ApproveOutcome(Err(RecordNotFound), marked, projects)
        else
          var project := projects[row.projectId].Connect(rel, row.approvedById);
          ApproveOutcome(Ok(relationName + " approval successful."), marked, projects[row.projectId := project])
  }

  /** An unknown token fails with NotFound and changes nothing. */
  lemma ApproveUnknownToken(
    users: map<Id, User>, projects: map<Id, Project>, approvals: map<Token, ApprovalStatus>,
    token: Token, relationName: string)
    requires token !in approvals
    ensures Approval(users, projects, approvals, token, relationName)
      == ApproveOutcome(Err(NotFound("Invalid or expired token.")), approvals, projects)
  {
  }

  /** A known token's row is marked APPROVED, with its invitee, project and
      token kept, whether or not the connect that follows succeeds; every
      other row is left as it was. */
  lemma ApproveMarksRow(
    users: map<Id, User>, projects: map<Id, Project>, approvals: map<Token, ApprovalStatus>,
    token: Token, relationName: string)
    requires KeyedByToken(approvals) && token in approvals
    ensures var o := Approval(users, projects, approvals, token, relationName);
      && o.approvals.Keys == approvals.Keys
      && o.approvals[token].status == Approved
      && o.approvals[token].approvedById == approvals[token].approvedById
      && o.approvals[token].projectId == approvals[token].projectId
      && o.approvals[token].token == token
      && forall t :: t in approvals && t != token ==> o.approvals[t] == approvals[t]
  {
  }

  /** Redemption succeeds exactly when the token is known, the name is one of
      the five user relations, and the row's project and invitee exist; then
      it reports success and adds the invitee to that relation of that
      project, leaving every other relation and every other project as it
      was. */
  lemma ApproveSuccess(
    users: map<Id, User>, projects: map<Id, Project>, approvals: map<Token, ApprovalStatus>,
    token: Token, relationName: string)
    ensures var o := Approval(users, projects, approvals, token, relationName);
      o.result.Ok? <==>
        && token in approvals
        && ParseRelation(relationName).Some? && ParseRelation(relationName) != Some(Modules)
        && approvals[token].projectId in projects && approvals[token].approvedById in users
    ensures var o := Approval(users, projects, approvals, token, relationName);
      o.result.Ok? ==>
        var row := approvals[token];
        var rel := ParseRelation(relationName).value;
        && RelationName(rel) == relationName
        && o.result.value == relationName + " approval successful."
        && o.projects.Keys == projects.Keys
        && o.projects[row.projectId].Related(rel) == projects[row.projectId].Related(rel) + {row.approvedById}
        && (forall q :: q != rel ==> o.projects[row.projectId].Related(q) == projects[row.projectId].Related(q))
        && o.projects[row.projectId].name == projects[row.projectId].name
        && o.projects[row.projectId].details == projects[row.projectId].details
        && o.projects[row.projectId].status == projects[row.projectId].status
        && o.projects[row.projectId].stage == projects[row.projectId].stage
        && (forall p :: p in projects && p != row.projectId ==> o.projects[p] == projects[p])
  {
  }

  /** Every failure after the token is found leaves the project table as it
      was (the row stays marked APPROVED, see ApproveMarksRow). */
  lemma ApproveFailureKeepsProjects(
    users: map<Id, User>, projects: map<Id, Project>, approvals: map<Token, ApprovalStatus>,
    token: Token, relationName: string)
    ensures var o := Approval(users, projects, approvals, token, relationName);
      o.result.Err? ==> o.projects == projects
  {
  }

  /** The prior status is not consulted: a row that is already APPROVED, or
      REJECTED, is redeemed exactly like a PENDING one. */
  lemma {:induction false} ApproveIgnoresStatus(
    users: map<Id, User>, projects: map<Id, Project>, approvals: map<Token, ApprovalStatus>,
    token: Token, relationName: string, s: ProjectStatus)
    requires token in approvals
    ensures Approval(users, projects, approvals[token := approvals[token].(status := s)], token, relationName)
         == Approval(users, projects, approvals, token, relationName)
  {
    var changed := approvals[token := approvals[token].(status := s)];
    assert MarkApproved(changed, token) == MarkApproved(approvals, token);
  }

  /** Redeeming the same token twice: the second redemption reports the same
      result as the first and changes nothing more, because marking is
      idempotent and connecting is a set insertion. */
  lemma {:induction false} ApproveTwice(
    users: map<Id, User>, projects: map<Id, Project>, approvals: map<Token, ApprovalStatus>,
    token: Token, relationName: string)
    ensures var o1 := Approval(users, projects, approvals, token, relationName);
      var o2 := Approval(users, o1.projects, o1.approvals, token, relationName);
      o1.result.Ok? ==> o2 == o1
  {
    var o1 := Approval(users, projects, approvals, token, relationName);
    if o1.result.Ok? {
      var row := approvals[token];
      var rel := ParseRelation(relationName).value;
      var p := projects[row.projectId];
      ConnectTwice(p, rel, row.approvedById);
      assert MarkApproved(o1.approvals, token) == o1.approvals;
    }
  }

  lemma ConnectTwice(p: Project, r: Relation, id: Id)
    ensures p.Connect(r, id).Connect(r, id) == p.Connect(r, id)
  {
    var once := p.Connect(r, id);
    var twice := once.Connect(r, id);
    assert twice.Related(r) == once.Related(r);
  }

  /** `approveRequest`, step by step as the service runs it. */
  method ApproveRequest(db: Db, token: Token, relationName: string) returns (r: Result<string>)
    requires db.Valid()
    modifies db`approvals, db`projects
    ensures db.Valid()
    ensures var o := Approval(old(db.users), old(db.projects), old(db.approvals), token, relationName);
      r == o.result && db.approvals == o.approvals && db.projects == o.projects
  {
    if token !in db.approvals {
      return Err(NotFound("Invalid or expired token."));
    }
    var row := db.approvals[token];
    db.approvals := db.approvals[token := row.(status := Approved)];
    var rel := ParseRelation(relationName);
    if rel.None? {
      return Err(UnknownRelation(relationName));
    }
    if row.projectId !in db.projects || row.approvedById !in db.users || rel.value == Modules {
      return Err(RecordNotFound);
    }
    var project := db.projects[row.projectId];
    db.projects := db.projects[row.projectId := project.Connect(rel.value, row.approvedById)];
    r := Ok(relationName + " approval successful.");
  }

  // ---------------------------------------------------------------------
  // The approval page's data

  datatype ApprovalDetails = ApprovalDetails(projectName: string, userEmail: string, userName: string, token: Token)

  /** `getApprovalDetails`: the project's name and the invitee's address and
      full name for a token. A row whose project or user is gone makes the
      service read a property of null. */
  function GetApprovalDetails(
    users: map<Id, User>, projects: map<Id, Project>, approvals: map<Token, ApprovalStatus>, token: Token
  ): (r: Result<ApprovalDetails>)
    ensures token !in approvals <==> r == Err(NotFound("Invalid or expired token."))
    ensures r.Ok? <==>
      token in approvals && approvals[token].projectId in projects && approvals[token].approvedById in users
    ensures r.Ok? ==>
      var user := users[approvals[token].approvedById];
      && r.value.projectName == projects[approvals[token].projectId].name
      && r.value.userEmail == user.email
      && IsPrefix(user.firstName + " ", r.value.userName)
      && r.value.userName[|user.firstName| + 1..] == user.lastName
      && r.value.token == token
  {
    if token !in approvals then Err(NotFound("Invalid or expired token."))
    else
      var row := approvals[token];
      if row.projectId !in projects || row.approvedById !in users then Err(NullDereference)
      else
        var user := users[row.approvedById];
        Ok(ApprovalDetails(projects[row.projectId].name, user.email, user.firstName + " " + user.lastName, token))
  }

  /** Redeeming a token does not change what the approval page shows for it:
      the project's name and the invitee survive the approval. */
  lemma DetailsSurviveApproval(
    users: map<Id, User>, projects: map<Id, Project>, approvals: map<Token, ApprovalStatus>,
    token: Token, relationName: string)
    ensures var o := Approval(users, projects, approvals, token, relationName);
      GetApprovalDetails(users, o.projects, o.approvals, token) == GetApprovalDetails(users, projects, approvals, token)
  {
  }
}
