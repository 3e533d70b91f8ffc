# ProjectHub services in Dafny

ProjectHub is a NestJS back end over a Prisma database. Its users create
projects and invite other users by e-mail into a project's relations
(members, encadrants, jury members and so on). Invitees approve the
invitation through a token link. Accounts go through signup, e-mail
verification and password reset. Milestones carry feedback. Workshops are
listed as past or upcoming. Three guards decide whether a request may reach
its handler.

This project models the services that hold that logic and proves properties
of the model.

The store is the `Store.Db` class. It has one `map` field per table (users,
projects, approvals, milestones, feedback, workshops) and a `seq` field,
the outbox, that collects every mail handed to the mail transport.
`Db.Valid()` is the store's invariant:
- e-mail addresses, reset tokens and verification tokens are unique;
- the approval table is keyed by the rows' tokens;
- workshop titles are unique.

The methods change the store the way the services do. Each one is proved
equal to a specification function that gives the whole outcome of the
service call: its result, the new tables and the new outbox. The
properties the services promise are proved as lemmas about those
functions. The guards and the DTO constraints are pure functions with
their lemmas.

A few things the services get from outside are parameters of the model:
- **"Now"** is an integer number of milliseconds.
- **Generated identifiers and tokens** are parameters. The callers'
  preconditions say these are fresh: no row holds them, and a batch's
  tokens are pairwise distinct.
- **The mail transport** is a set `bounces` of addresses it refuses.
- **Password hashing** is a function `HashPassword` together with the
  predicate `PasswordMatches`.

Files, one module each:
- `common.dfy`: options, results, the error taxonomy, and substring and
  lower-casing helpers.
- `store.dfy`: the entities, the uniqueness invariants, the lookups by
  address and token, and the `Db` class.
- `signup_dto.dfy`: the `Role` enumeration and the signup field
  constraints, including the phone-number pattern.
- `approval_status.dfy`: the invitation and approval workflow.
- `project.dfy`: project creation, relation membership and the queries.
- `auth.dfy`: signup, signin, forgotten and reset passwords, and e-mail
  verification.
- `user.dfy`: the user service's per-user updates.
- `tracking.dfy`: milestone progress, status updates and reports.
- `feedback.dfy`: feedback create, list, update and delete.
- `workshop.dfy`: workshop create, update, remove and the date listings.
- `roles_guard.dfy`, `ownership_guard.dfy`, `is_verified_guard.dfy`: the
  three access guards.

## Model

| member | source | states |
|---|---|---|
| Common.ToLower | src/project/project.service.ts:117-120 | keeps the length and lower-cases every character, position by position (ASCII folding) |
| Store.ParseRelation | src/project/project.service.ts:302-310 | a field name denotes a relation exactly when it is that relation's name, and then it denotes that one |
| Store.Project.Connect | src/project/project.service.ts:96-102 | Prisma `connect`: the id joins the one relation; every other relation and every scalar field stay |
| Store.Project.Disconnect | src/project/project.service.ts:232-241 | Prisma `disconnect`: the id leaves the one relation; everything else stays |
| Store.UserByEmail | src/auth/auth.service.ts:45 | `findUnique` by address: the user found holds the address; none found means no user holds it |
| Store.UserByResetToken | src/auth/auth.service.ts:283-285 | `findFirst` by reset token: the user found holds the token; none found means no user holds it |
| Store.UserByVerificationToken | src/auth/auth.service.ts:306-308 | `findFirst` by verification token: the user found holds it; none found means nobody does |
| SignupDto.ParseRole | src/auth/dto/signup.dto.ts:11-20 | `@IsEnum(Role)`: a string is accepted exactly when it is one of the eight role names, and it yields that role |
| SignupDto.AdminPassesValidation | src/auth/dto/signup.dto.ts:11-20 | a payload may pass every DTO constraint and still ask for ADMIN (the service rejects it later) |
| SignupDto.PhoneDigits | src/auth/dto/signup.dto.ts:37-39 | a number the pattern accepts has 2 to 15 digits after the `+`, with no leading zero, and formats back to itself |
| SignupDto.PhoneRoundTrip | src/auth/dto/signup.dto.ts:37-39 | every accepted phone number is the formatted numeral of a number in [10, 10^15), and formatting that number gives the string back |
| SignupDto.FormatRoundTrip | src/auth/dto/signup.dto.ts:37-39 | conversely, every number in [10, 10^15), formatted as `+digits`, matches the pattern and parses back to itself |
| SignupDto.FormatInRange | src/auth/dto/signup.dto.ts:37-39 | a number with 2 to 15 digits, formatted, matches the pattern and parses back to itself |
| ApprovalStatusService.GenerateApprovalLink | src/approval-status/approval-status.service.ts:141-143 | the link starts with the fixed approve-page address and the rest of it is exactly the token |
| ApprovalStatusService.LinkRoundTrip | src/approval-status/approval-status.service.ts:141-143 | the token read back out of a generated link is the token it was made from |
| ApprovalStatusService.LinkInjective | src/approval-status/approval-status.service.ts:141-143 | two tokens with the same link are the same token |
| ApprovalStatusService.RelationMessage | src/approval-status/approval-status.service.ts:56-60 | a relation-specific line exists exactly for members, encadrants and juryMembers |
| ApprovalStatusService.InvitationText | src/approval-status/approval-status.service.ts:63-74 | the plain-text body contains the relation line and the approval link |
| ApprovalStatusService.GenerateHtmlEmail | src/approval-status/approval-status.service.ts:98-107 | the HTML body contains the relation line and the link; its length is the template's plus the three values (link counted twice) |
| ApprovalStatusService.HtmlMessageDiscrepancy | src/approval-status/approval-status.service.ts:67-102 | for a relation name without a line, the text body has the generic fallback while the HTML body, as written, contains "undefined" |
| ApprovalStatusService.HtmlRelationMessageAsWritten | src/approval-status/approval-status.service.ts:81 | for members, encadrants and juryMembers the raw lookup the HTML body receives is the text body's line, so the as-written and corrected HTML agree on every name the service's callers pass |
| ApprovalStatusService.InvitationMail | src/approval-status/approval-status.service.ts:62-82 | one invitation: to the invitee, subject built from the project name, both bodies built from the text body's line (the corrected HTML) and that token's link |
| ApprovalStatusService.InvitationMailContents | src/approval-status/approval-status.service.ts:62-82 | the subject contains the project name; both rendered bodies contain the approval link and the relation message |
| ApprovalStatusService.FirstUnknown | src/approval-status/approval-status.service.ts:36-40 | the position of the first address with no account: every earlier address has one, and that one does not |
| ApprovalStatusService.ResolveInvitees | src/approval-status/approval-status.service.ts:36-42 | succeeds exactly when every address has an account; then one invitee per address, in order, with its user id and token i; else the error names an address without an account |
| ApprovalStatusService.FirstBounce | src/approval-status/approval-status.service.ts:77-82 | the position of the first address the transport refuses: all earlier ones are accepted |
| ApprovalStatusService.PersistContents | src/approval-status/approval-status.service.ts:86-92 | the transaction stores every record under its token, keeps every old row, and adds no other key |
| ApprovalStatusService.PersistKeepsKeyed | src/approval-status/approval-status.service.ts:86-92 | after the transaction the table is still keyed by each row's token |
| ApprovalStatusService.BatchUnknownProject | src/approval-status/approval-status.service.ts:26-33 | an unknown project fails with NotFound naming it; nothing is sent or stored |
| ApprovalStatusService.BatchUnknownEmail | src/approval-status/approval-status.service.ts:36-42 | the first address without an account fails the batch with BadRequest naming it, before any mail is sent or any record stored |
| ApprovalStatusService.BatchSuccessRecords | src/approval-status/approval-status.service.ts:44-94 | on success, one record per address in input order: PENDING, this project, the address's user, token i, created now |
| ApprovalStatusService.BatchSuccessStored | src/approval-status/approval-status.service.ts:86-92 | with fresh distinct tokens, success stores exactly the returned records under their tokens and leaves the old rows unchanged |
| ApprovalStatusService.BatchSuccessSent | src/approval-status/approval-status.service.ts:44-83 | on success, exactly one invitation per address is appended, in order, after the mail already sent |
| ApprovalStatusService.BatchAllOrNothing | src/approval-status/approval-status.service.ts:86-92 | a failed batch leaves the approval table as it was |
| ApprovalStatusService.BatchSendsBeforeStoring | src/approval-status/approval-status.service.ts:44-92 | if the transport refuses the k-th address, the first k invitations are already out, the call fails, and no record is stored |
| ApprovalStatusService.ValidateEmails | src/approval-status/approval-status.service.ts:36-42 | the validation loop computes exactly the resolution of the addresses (invariant over the prefix checked so far) |
| ApprovalStatusService.SendInvitations | src/approval-status/approval-status.service.ts:44-83 | the sending loop appends the invitations up to the first refused address, fails there, and otherwise returns the PENDING records |
| ApprovalStatusService.GenerateApprovalRequests | src/approval-status/approval-status.service.ts:17-95 | the method's result, approval table and outbox are those of the batch specification, and the store invariant is kept |
| ApprovalStatusService.MarkApproved | src/approval-status/approval-status.service.ts:120-126 | only the token's row changes, and only its status, which becomes APPROVED |
| ApprovalStatusService.ApproveUnknownToken | src/approval-status/approval-status.service.ts:111-117 | an unknown token fails with NotFound and changes nothing |
| ApprovalStatusService.ApproveMarksRow | src/approval-status/approval-status.service.ts:119-126 | a known token's row becomes APPROVED, keeping its invitee, project and token, even if the connect that follows fails; other rows stay |
| ApprovalStatusService.ApproveSuccess | src/approval-status/approval-status.service.ts:109-140 | succeeds exactly when the token is known, the name is a user relation, and the row's project and invitee exist; then it returns "<relation> approval successful." and adds the invitee to that relation of that project only |
| ApprovalStatusService.ApproveFailureKeepsProjects | src/approval-status/approval-status.service.ts:128-137 | a failed redemption leaves every project as it was |
| ApprovalStatusService.ApproveIgnoresStatus | src/approval-status/approval-status.service.ts:109-126 | the prior status is not consulted: the outcome is the same whatever status the row had |
| ApprovalStatusService.ApproveTwice | src/approval-status/approval-status.service.ts:109-140 | after a successful redemption, redeeming the token again succeeds with the same outcome and changes nothing more |
| ApprovalStatusService.ConnectTwice | src/approval-status/approval-status.service.ts:130-132 | connecting the same id twice equals connecting it once |
| ApprovalStatusService.ApproveRequest | src/approval-status/approval-status.service.ts:109-140 | the method's result, approval table and project table are those of the approval specification; the store invariant is kept |
| ApprovalStatusService.GetApprovalDetails | src/approval-status/approval-status.service.ts:146-173 | an unknown token fails with NotFound; success exactly when the row's project and user exist, returning the project name, the user's address, "first last" and the token |
| ApprovalStatusService.DetailsSurviveApproval | src/approval-status/approval-status.service.ts:120-172 | redeeming a token leaves the approval page's details for it unchanged |
| ProjectService.AttachableRelationsAreUserRelations | src/project/project.service.ts:84-90 | the five accepted names are exactly the names of the user relations (every relation but modules) |
| ProjectService.ListableRelationsAreRelations | src/project/project.service.ts:303-310 | the six listable names are exactly the names of all relations |
| ProjectService.NewProject | src/project/project.service.ts:26-40 | the new project is PENDING, has the requested stage or IDEA, has the creator as sole owner and has every other relation empty |
| ProjectService.InviteStep | src/project/project.service.ts:53-68 | an absent or empty address list invites nobody and changes nothing |
| ProjectService.CreateUnknownUser | src/project/project.service.ts:17-23 | an unknown creator is refused with Forbidden; no project, mail or record is created |
| ProjectService.CreateKeepsProject | src/project/project.service.ts:25-50 | with a known creator the new project is stored, even when an invitation batch then fails, and other projects stay; success returns it |
| ProjectService.CreateWithoutInvitations | src/project/project.service.ts:52-70 | with no addresses, creation returns the project and sends and stores nothing else |
| ProjectService.CreateMembersFirst | src/project/project.service.ts:52-68 | on success, the member invitations come first in the new mail, in order |
| ProjectService.InviteStepKeepsSent | src/project/project.service.ts:52-68 | a successful invitation step only appends to the mail already sent |
| ProjectService.Invite | src/project/project.service.ts:53-68 | one invitation step on the store equals its specification and keeps the remaining tokens fresh |
| ProjectService.CreateProject | src/project/project.service.ts:15-71 | the method's result, project table, approval table and outbox are those of the creation specification; the invariant is kept |
| ProjectService.FindUserByIdOrEmail | src/project/project.service.ts:74-78 | the match is a user whose id or address is the identifier; no match means neither exists |
| ProjectService.AttachUnknownUser | src/project/project.service.ts:74-82 | an identifier matching no user fails with NotFound before the relation type is checked |
| ProjectService.AttachInvalidRelation | src/project/project.service.ts:84-94 | a relation type outside the five fails with BadRequest and changes no project |
| ProjectService.AttachSuccess | src/project/project.service.ts:96-108 | a successful attach adds the matched user to the chosen relation of that project only; every other relation and project stays |
| ProjectService.AttachUserToProject | src/project/project.service.ts:73-109 | the method's result and project table are those of the attach specification; the invariant is kept |
| ProjectService.AddMember | src/project/project.service.ts:221-230 | a missing project or user fails; otherwise the user joins `members` of that project and nothing else changes |
| ProjectService.RemoveMember | src/project/project.service.ts:232-241 | a missing project fails; otherwise the user leaves `members` of that project and nothing else changes |
| ProjectService.RemoveUndoesAdd | src/project/project.service.ts:221-241 | removing a member who was just added (and was not one before) restores the project |
| ProjectService.GetProjectRelation | src/project/project.service.ts:302-338 | the intended query: an invalid name fails with BadRequest before any lookup; a missing project fails with NotFound; otherwise it returns exactly that relation, a project's modules included |
| ProjectService.GetProjectRelationAsWritten | src/project/project.service.ts:318-330 | the query as written: `modules` is rejected because the selection names user fields a module lacks; on every other name it agrees with the intended query |
| ProjectService.ModulesListingRejected | src/project/project.service.ts:318-330 | for an existing project, listing its modules fails as written while the intended query returns exactly its modules |
| ProjectService.AttachThenList | src/project/project.service.ts:302-338 | after a successful attach the relation lists the user and every other relation lists what it did before |
| ProjectService.ProjectsWithoutEncadrants | src/project/project.service.ts:164-183 | exactly the projects whose encadrants relation is empty, unchanged |
| ProjectService.AttachedEncadrantLeavesList | src/project/project.service.ts:164-183 | attaching an encadrant takes the project off that list |
| ProjectService.SearchProjectByName | src/project/project.service.ts:112-131 | exactly the projects whose lower-cased name contains the lower-cased query |
| ProjectService.SearchFindsExactName | src/project/project.service.ts:115-121 | a project is found by its own name, and the empty query finds every project |
| ProjectService.ToLowerIdempotent | src/project/project.service.ts:119 | lower-casing twice equals lower-casing once |
| ProjectService.SearchIgnoresCase | src/project/project.service.ts:119 | a query and its lower-cased form find the same projects |
| AuthService.VerificationMail | src/auth/auth.service.ts:208-212 | the verification mail goes to the new address with subject "Verify Your Email" and a body carrying the token |
| AuthService.VerificationHtml | src/auth/auth.service.ts:265 | the verification HTML contains the token |
| AuthService.ResetMail | src/auth/auth.service.ts:164-168 | the reset mail goes to the address with the lock-emoji subject and a body carrying the token |
| AuthService.ResetText | src/auth/auth.service.ts:168 | the plain-text reset body contains the token |
| AuthService.ResetHtml | src/auth/auth.service.ts:169-188 | the HTML reset body contains the token |
| AuthService.AccountMailsCarryToken | src/auth/auth.service.ts:164-277 | the verification mail's HTML body, and both bodies of the reset mail, carry the token the mail is built around |
| AuthService.NewUser | src/auth/auth.service.ts:63-77 | the new row has the address, a hash of the password, the role, `verified = false`, the verification token, and no reset token, expiry or deletion |
| AuthService.SignupCheckOrder | src/auth/auth.service.ts:40-53 | ADMIN is rejected first, then an existing address, then a password shorter than 6; each rejection changes nothing |
| AuthService.SignupSuccess | src/auth/auth.service.ts:36-86 | success exactly when the three checks pass, the role parses and the mail goes out; then there is one new unverified user with the token, and one verification mail |
| AuthService.SignupFailuresCollapse | src/auth/auth.service.ts:61-85 | a failed insert and a failed mail both surface as the one "Error creating user" BadRequest |
| AuthService.ValidDtoPassesLengthCheck | src/auth/auth.service.ts:51-53 | a payload that passed validation never fails the service's own length check |
| AuthService.SignupUser | src/auth/auth.service.ts:36-86 | the method's result, user table and outbox are those of the signup specification; the invariant is kept |
| AuthService.StripNulls | src/auth/auth.service.ts:108-120 | a key is kept exactly when its value is non-null, with that value |
| AuthService.Signin | src/auth/auth.service.ts:89-127 | success exactly when some user has the address and the password matches; an unknown address and a wrong password give the same "Invalid credentials" |
| AuthService.PayloadFields | src/auth/auth.service.ts:108-120 | the payload has only the listed keys, and always id, email, names and role, with their values |
| AuthService.PayloadOptionalFields | src/auth/auth.service.ts:108-120 | each optional field is in the payload exactly when it is set, with its value |
| AuthService.SigninPayload | src/auth/auth.service.ts:105-126 | a successful signin signs a token for the address's user and returns that user's payload |
| AuthService.ValidateUser | src/auth/auth.service.ts:26-34 | returns the user with that address and a matching password; else Unauthorized; it succeeds exactly when signin does |
| AuthService.ForgotPasswordEffect | src/auth/auth.service.ts:136-197 | an unknown address fails and changes nothing; a known one gets the token and an expiry of now + 15 min, and nothing else changes; it succeeds exactly when the reset mail goes out |
| AuthService.ResetPassword | src/auth/auth.service.ts:280-303 | a failure leaves the user table unchanged |
| AuthService.ResetPasswordEffect | src/auth/auth.service.ts:283-300 | succeeds exactly when some user holds the token with an expiry not yet passed; then only that user's password changes, and the token and expiry are cleared |
| AuthService.ResetTokenSingleUse | src/auth/auth.service.ts:293-300 | after a successful reset the same token is refused |
| AuthService.ForgotThenReset | src/auth/auth.service.ts:283-289 | a reset with the token that `forgotPassword` stored at t0 succeeds exactly until t0 + 15 minutes |
| AuthService.ForgotPasswordRequest | src/auth/auth.service.ts:136-153 | the method's result, user table and outbox are those of the specification; the invariant is kept |
| AuthService.ResetPasswordRequest | src/auth/auth.service.ts:280-303 | the method's result and user table are those of the specification; the invariant is kept |
| AuthService.VerifyEmail | src/auth/auth.service.ts:305-323 | a failure leaves the user table unchanged |
| AuthService.VerifyEmailEffect | src/auth/auth.service.ts:306-320 | succeeds exactly when some user holds the token; then that user is verified and the token cleared, so a second use fails |
| AuthService.SignupThenVerify | src/auth/auth.service.ts:305-323 | the token a successful signup mails out verifies the new user |
| AuthService.VerifyEmailRequest | src/auth/auth.service.ts:305-323 | the method's result and user table are those of the specification; the invariant is kept |
| UserService.UpdateUserPassword | src/user/user.service.ts:28-36 | an unknown address fails with NotFound; otherwise only that user's password changes, to one the new password matches |
| UserService.DeleteUser | src/user/user.service.ts:46-51 | soft delete: an unknown id fails with NotFound; otherwise the row stays and only `deletedAt` is set to now |
| UserService.GenerateResetToken | src/user/user.service.ts:57-65 | an unknown address fails; otherwise the token and an expiry of now + 3,600,000 ms are stored and the same token is returned |
| UserService.ValidateResetToken | src/user/user.service.ts:67-73 | succeeds (with true) exactly when the user exists, holds this token and now is at most the expiry (a missing expiry counts as the epoch) |
| UserService.GenerateThenValidate | src/user/user.service.ts:57-73 | a generated token validates exactly up to one hour later, and no other token validates |
| UserService.VerifyUser | src/user/user.service.ts:75-81 | succeeds exactly when the address's user holds this token; then that user is verified and the token cleared |
| UserService.VerifyUserOnce | src/user/user.service.ts:75-81 | a verification token works once |
| UserService.UpdateUserRole | src/user/user.service.ts:83-85 | an unknown id fails; otherwise only the role changes |
| UserService.UpdateUserPasswordRequest | src/user/user.service.ts:28-36 | the method's result and user table are those of the specification; the invariant is kept |
| UserService.DeleteUserRequest | src/user/user.service.ts:46-51 | the method's result and user table are those of the specification; the invariant is kept |
| UserService.GenerateResetTokenRequest | src/user/user.service.ts:57-65 | the method's result and user table are those of the specification; the invariant is kept |
| UserService.VerifyUserRequest | src/user/user.service.ts:75-81 | the method's result and user table are those of the specification; the invariant is kept |
| UserService.UpdateUserRoleRequest | src/user/user.service.ts:83-85 | the method's result and user table are those of the specification; the invariant is kept |
| TrackingService.MilestoneIds | src/tracking/tracking.service.ts:64-70 | exactly the project's milestones, and only those with the status when one is given |
| TrackingService.GetProjectMilestones | src/tracking/tracking.service.ts:64-71 | the rows of exactly those milestones, unchanged |
| TrackingService.CalculateProjectProgress | src/tracking/tracking.service.ts:13-21 | 0 when the project has no milestones; otherwise progress × total milestones = 100 × completed milestones; always between 0 and 100 |
| TrackingService.ProgressFull | src/tracking/tracking.service.ts:18-20 | progress is 100 exactly when the project has milestones and all of them are COMPLETED |
| TrackingService.UpdateMilestoneStatus | src/tracking/tracking.service.ts:27-44 | an unknown id fails with NotFound; otherwise only that milestone changes: its status is replaced, and its due date is kept when none is given |
| TrackingService.CompletingRaisesProgress | src/tracking/tracking.service.ts:13-44 | completing a milestone never lowers its project's progress and leaves other projects' progress unchanged |
| TrackingService.UpdateMilestoneStatusRequest | src/tracking/tracking.service.ts:27-44 | the method's result and milestone table are those of the specification |
| TrackingService.GetMilestoneFeedback | src/tracking/tracking.service.ts:50-58 | fails with NotFound exactly when the milestone has no feedback; otherwise returns exactly its feedback |
| TrackingService.GenerateProgressReport | src/tracking/tracking.service.ts:77-85 | the report pairs the progress with all of the project's milestones |
| TrackingService.ReportConsistent | src/tracking/tracking.service.ts:77-85 | the report shows 100 exactly when it lists milestones and every one it lists is COMPLETED |
| FeedbackService.CreateFeedback | src/feedback/feedback.service.ts:11-27 | an unknown milestone fails with NotFound; success exactly when the milestone, project and author exist, adding one record with the given fields |
| FeedbackService.FeedbackByMilestone | src/feedback/feedback.service.ts:32-34 | exactly the feedback on that milestone, unchanged |
| FeedbackService.FeedbackByProject | src/feedback/feedback.service.ts:39-41 | exactly the feedback on that project, unchanged |
| FeedbackService.FeedbackByUser | src/feedback/feedback.service.ts:46-48 | exactly the feedback that user gave, unchanged |
| FeedbackService.CreatedIsListed | src/feedback/feedback.service.ts:11-48 | a created record appears in the listings for its milestone, project and author, and in no other milestone's listing |
| FeedbackService.MergeFeedback | src/feedback/feedback.service.ts:59-62 | content and rating are replaced only by truthy values; the keys stay |
| FeedbackService.UpdateFeedback | src/feedback/feedback.service.ts:53-64 | an unknown id fails with NotFound; otherwise only that record changes, to the merge |
| FeedbackService.UpdateFalsyKeeps | src/feedback/feedback.service.ts:59-62 | an update whose fields are all falsy changes nothing, and applying an update twice equals applying it once |
| FeedbackService.DeleteFeedback | src/feedback/feedback.service.ts:69-74 | an unknown id fails with NotFound; otherwise exactly that record leaves and is returned |
| FeedbackService.CreateThenDelete | src/feedback/feedback.service.ts:69-74 | deleting a record just created restores the table and returns the record |
| FeedbackService.CreateFeedbackRequest | src/feedback/feedback.service.ts:11-27 | the method's result and feedback table are those of the specification |
| FeedbackService.UpdateFeedbackRequest | src/feedback/feedback.service.ts:53-64 | the method's result and feedback table are those of the specification |
| FeedbackService.DeleteFeedbackRequest | src/feedback/feedback.service.ts:69-74 | the method's result and feedback table are those of the specification |
| WorkshopService.CreateWorkshop | src/workshop/workshop.service.ts:11-22 | answers with the duplicate-title error exactly when the title is taken, changing nothing; otherwise it stores and returns the workshop |
| WorkshopService.CreateKeepsTitlesUnique | src/workshop/workshop.service.ts:13-22 | creation keeps titles unique, and the new workshop is the only one with its title |
| WorkshopService.ApplyUpdate | src/workshop/workshop.service.ts:42-46 | every field given replaces the stored one; the others stay |
| WorkshopService.UpdateWorkshop | src/workshop/workshop.service.ts:42-47 | an unknown id fails; success exactly when no other workshop has the resulting title; then only that workshop changes |
| WorkshopService.UpdateKeepsTitlesUnique | src/workshop/workshop.service.ts:42-47 | an update keeps titles unique, and repeating it changes nothing more |
| WorkshopService.RemoveWorkshop | src/workshop/workshop.service.ts:51-55 | an unknown id fails; otherwise exactly that workshop leaves and is returned |
| WorkshopService.CreateThenRemove | src/workshop/workshop.service.ts:51-55 | removing a workshop just created restores the table |
| WorkshopService.FindPast | src/workshop/workshop.service.ts:58-69 | exactly the workshops dated strictly before now |
| WorkshopService.FindUpcoming | src/workshop/workshop.service.ts:71-82 | exactly the workshops dated strictly after now |
| WorkshopService.PastUpcomingPartition | src/workshop/workshop.service.ts:58-82 | past and upcoming are disjoint and together hold every workshop not dated exactly now |
| WorkshopService.TimeMovesWorkshopsToPast | src/workshop/workshop.service.ts:58-82 | as now advances, the past list only grows and the upcoming list only shrinks |
| WorkshopService.CreateWorkshopRequest | src/workshop/workshop.service.ts:11-26 | the method's reply and workshop table are those of the specification; the invariant is kept |
| WorkshopService.UpdateWorkshopRequest | src/workshop/workshop.service.ts:42-47 | the method's result and workshop table are those of the specification; the invariant is kept |
| WorkshopService.RemoveWorkshopRequest | src/workshop/workshop.service.ts:51-55 | the method's result and workshop table are those of the specification; the invariant is kept |
| RolesGuard.Join | src/guards/roles/roles.guard.ts:26 | `Array.join`: the empty list gives "", and a single element gives itself |
| RolesGuard.JoinAppend | src/guards/roles/roles.guard.ts:26 | `Array.join`: joining one more element onto a non-empty list appends the separator and that element |
| RolesGuard.JoinContainsEach | src/guards/roles/roles.guard.ts:26 | every element appears in the joined string |
| RolesGuard.RoleNames | src/guards/roles/roles.guard.ts:26 | the role names, one per role, in order |
| RolesGuard.CanActivate | src/guards/roles/roles.guard.ts:10-30 | no required roles allows; then a missing user, then a missing role, is refused; every refusal is Forbidden |
| RolesGuard.AllowExactlyRequiredRoles | src/guards/roles/roles.guard.ts:10-29 | allowed exactly when no roles are required or the user's role is one of them |
| RolesGuard.DenialNamesRequiredRoles | src/guards/roles/roles.guard.ts:25-27 | the refusal for a role outside the list is "Access denied. Required roles: …" and names every required role |
| OwnershipGuard.ProjectIdOf | src/guards/ownership/ownership.guard.ts:19-20 | the first truthy of params.id, body.projectId and body.id; none when all are falsy |
| OwnershipGuard.CanActivate | src/guards/ownership/ownership.guard.ts:22-47 | a missing user is refused first, then a missing project id; every refusal is one of the four Forbidden reasons |
| OwnershipGuard.AllowExactlyOwners | src/guards/ownership/ownership.guard.ts:19-47 | allowed exactly when there is a user and a project id, the project exists, and the user is one of its owners |
| OwnershipGuard.ParamsIdWins | src/guards/ownership/ownership.guard.ts:19-20 | a truthy params.id decides alone; the body is ignored |
| IsVerifiedGuard.RequestEmail | src/guards/is-verified/is-verified.guard.ts:15-21 | the request user's address when there is a user, otherwise the body's |
| IsVerifiedGuard.CanActivate | src/guards/is-verified/is-verified.guard.ts:23-37 | refused with "Email must be provided" exactly when the address is falsy; every refusal is that one or "not verified" |
| IsVerifiedGuard.AllowExactlyVerified | src/guards/is-verified/is-verified.guard.ts:23-37 | allowed exactly when the address is truthy and belongs to a verified user |
| IsVerifiedGuard.UserEmailWins | src/guards/is-verified/is-verified.guard.ts:15-21 | with a user on the request, the body's address is ignored |

## Left out

- Mail transport: nodemailer and the mail service are not modelled. A send either succeeds (the mail is appended to the outbox) or fails for an address in `bounces`. The verification and reset HTML templates are reduced to the token links they carry.
- Cryptography: bcrypt is modelled as `HashPassword` and `PasswordMatches`. JWT signing is reduced to the payload (`id`, `email`) that is signed.
- Identifier and token generation: `uuidv4` and the database's ids are parameters. Preconditions make them fresh (RFC 4122 section 4.4 randomness is not modelled).
- Clocks: every call takes one `now`. Within a batch all records share it, where the service calls `new Date()` per record.
- Floating point: progress is an exact `real`; the JavaScript float rounding of the ratio is not modelled.
- Strings: lengths count `char`s, not UTF-16 code units. Case-insensitive search folds ASCII letters only. Prisma's Unicode folding is not modelled.
- Email and URL syntax checks of the signup DTO (`@IsEmail`, `@IsUrl`) are not modelled; `IsValid` covers the password, names, phone and role.
- `generateApprovalPage` and `generateErrorPage` are not modelled: they are presentation only.
- The other Prisma CRUD and statistics queries are not modelled: `findAll`, `findOne`, project sorting and grouping, `take` limits, and the commented-out project methods.
- Controllers, modules, `main.ts` and the seed script are not modelled. Neither is the controller's call to a service method that does not exist.
- Concurrency is not modelled: every service call is atomic. Races between two redemptions of one token are out of scope.
- `attachUserToProject` uses `findFirst` with `OR` on id and email, which returns whichever row the database yields first. The model prefers an id match. With unique ids and unique addresses the two can differ only when one user's id equals another user's address.
- `approveRequest` performs no prior-status check and does not validate the relation name; the model keeps both. A name the project model does not have fails as `UnknownRelation` after the row is marked APPROVED. `modules` fails as `RecordNotFound`, because its ids are module ids.
- The relation name is not stored on the approval record: `approveRequest` takes it from the caller, and so does the model.
- The project creation DTO as declared has no `encadrantEmails` field, while `createProject` reads one. The model gives the DTO that optional field.
- Object-key order of the signin payload and JavaScript prototype keys are not modelled: the payload is a map.
- WorkshopService.CreateWorkshop: the catch-all answer "An unexpected error occurred while creating the workshop." (src/workshop/workshop.service.ts:23-25) is not modelled. The model has no failing insert other than the title check.
- Explicit `null` values in update payloads are not modelled: a field is either given or absent.
- ApprovalStatusService.InvitationMail: the batch renders the corrected HTML body, with the text body's fallback line. For a relation name other than members, encadrants and juryMembers the program's HTML says "undefined" instead (see Findings). The service's callers in src/project/project.service.ts pass only members and encadrants, for which the two agree (HtmlRelationMessageAsWritten).
- ProjectService.GetProjectRelation: returns the ids of the related records, not the records projected to `id`, `firstName`, `lastName` and `email`.
- FeedbackService.CreateFeedback: when both the project and the author are missing, the model reports the project first. The foreign key Prisma actually reports first is not modelled.

## Findings

| source | as written | input that shows it | evidently intended | confidence | as-written member | corrected member |
|---|---|---|---|---|---|---|
| src/approval-status/approval-status.service.ts:81 | the HTML body receives the raw `relationMessage[relationName]` lookup, with no fallback | a relation name without a line, e.g. `owners`: the text body says "You are invited to collaborate on the project." while the HTML body says "undefined" | the HTML body carries the same line as the text body, with the fallback | not executed | ApprovalStatusService.HtmlMessageDiscrepancy | ApprovalStatusService.InvitationMailContents |
| src/project/project.service.ts:318-330 | every relation, `modules` included, is queried with a `select` of `id`, `firstName`, `lastName` and `email` | `getProjectRelation(projectId, "modules")`: a module has a name, a progress percentage and a project but no `firstName`, `lastName` or `email`, so Prisma rejects the query before it runs | listing `modules` returns the project's modules | not executed; the Prisma schema is not part of this model, and the module fields are read from src/module/dto | ProjectService.ModulesListingRejected | ProjectService.GetProjectRelation |
