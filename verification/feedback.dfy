/** Feedback on milestones: creation against an existing milestone, the three
    listings by key, the merge-on-update and the delete. */
module FeedbackService {
  import opened Common
  import opened Store

  /** What a caller passes to `createFeedbackForMilestone`. */
  datatype CreateFeedbackDto = CreateFeedbackDto(content: string, rating: Option<int>, projectId: Id, givenById: Id)

  /** What a caller passes to `updateFeedback`; every field may be absent. */
  datatype UpdateFeedbackDto = UpdateFeedbackDto(content: Option<string>, rating: Option<int>)

  datatype FeedbackOutcome = FeedbackOutcome(result: Result<Feedback>, feedback: map<Id, Feedback>)

  /** `createFeedbackForMilestone`. The milestone is looked up first; the
      project and the author are foreign keys the insert itself checks.
      `id` is the identifier the database assigns. */
  function CreateFeedback(
    milestones: map<Id, Milestone>, projects: map<Id, Project>, users: map<Id, User>,
    feedback: map<Id, Feedback>, milestoneId: Id, dto: CreateFeedbackDto, id: Id): (o: FeedbackOutcome)
    requires id !in feedback
    ensures milestoneId !in milestones ==> o.result == Err(NotFound("Milestone not found"))
    ensures o.result.Err? ==> o.feedback == feedback
    ensures o.result.Ok? <==> milestoneId in milestones && dto.projectId in projects && dto.givenById in users
    ensures o.result.Ok? ==>
      && o.result.value == Feedback(dto.content, dto.rating, milestoneId, dto.projectId, dto.givenById)
      && o.feedback == feedback[id := o.result.value]
  {
    if milestoneId !in milestones then FeedbackOutcome(Err(NotFound("Milestone not found")), feedback)
    else if dto.projectId !in projects then FeedbackOutcome(Err(ForeignKeyViolation("projectId")), feedback)
    else if dto.givenById !in users then FeedbackOutcome(Err(ForeignKeyViolation("givenById")), feedback)
    else
      var f := Feedback(dto.content, dto.rating, milestoneId, dto.projectId, dto.givenById);
      FeedbackOutcome(Ok(f), feedback[id := f])
  }

  /** `getFeedbackByMilestone`. */
  function FeedbackByMilestone(feedback: map<Id, Feedback>, milestoneId: Id): (r: map<Id, Feedback>)
    ensures forall id :: id in r <==> id in feedback && feedback[id].milestoneId == milestoneId
    ensures forall id :: id in r ==> r[id] == feedback[id]
  {
    map id | id in feedback && feedback[id].milestoneId == milestoneId :: feedback[id]
  }

  /** `getFeedbackByProject`. */
  function FeedbackByProject(feedback: map<Id, Feedback>, projectId: Id): (r: map<Id, Feedback>)
    ensures forall id :: id in r <==> id in feedback && feedback[id].projectId == projectId
    ensures forall id :: id in r ==> r[id] == feedback[id]
  {
    map id | id in feedback && feedback[id].projectId == projectId :: feedback[id]
  }

  /** `getFeedbackByUser`: the feedback the user gave. */
  function FeedbackByUser(feedback: map<Id, Feedback>, userId: Id): (r: map<Id, Feedback>)
    ensures forall id :: id in r <==> id in feedback && feedback[id].givenById == userId
    ensures forall id :: id in r ==> r[id] == feedback[id]
  {
    map id | id in feedback && feedback[id].givenById == userId :: feedback[id]
  }

  /** A created record shows up in each of the three listings for its own
      keys and in no listing for another milestone. */
  lemma CreatedIsListed(
    milestones: map<Id, Milestone>, projects: map<Id, Project>, users: map<Id, User>,
    feedback: map<Id, Feedback>, milestoneId: Id, dto: CreateFeedbackDto, id: Id, otherMilestone: Id)
    requires id !in feedback
    ensures var o := CreateFeedback(milestones, projects, users, feedback, milestoneId, dto, id);
      o.result.Ok? ==>
        && FeedbackByMilestone(o.feedback, milestoneId) == FeedbackByMilestone(feedback, milestoneId)[id := o.result.value]
        && FeedbackByProject(o.feedback, dto.projectId)[id] == o.result.value
        && FeedbackByUser(o.feedback, dto.givenById)[id] == o.result.value
        && (otherMilestone != milestoneId ==>
              FeedbackByMilestone(o.feedback, otherMilestone) == FeedbackByMilestone(feedback, otherMilestone))
  {
  }

  /** JavaScript truthiness of an optional number: present and non-zero. */
  predicate TruthyNumber(n: Option<int>) {
    n.Some? && n.value != 0
  }

  /** `content || old.content`, `rating || old.rating`. */
  function MergeFeedback(f: Feedback, dto: UpdateFeedbackDto): (r: Feedback)
    ensures r.content == (if Truthy(dto.content) then dto.content.value else f.content)
    ensures r.rating == (if TruthyNumber(dto.rating) then dto.rating else f.rating)
    ensures r.milestoneId == f.milestoneId && r.projectId == f.projectId && r.givenById == f.givenById
  {
    f.(content := if Truthy(dto.content) then dto.content.value else f.content,
       rating := if TruthyNumber(dto.rating) then dto.rating else f.rating)
  }

  /** `updateFeedback`. */
  function UpdateFeedback(feedback: map<Id, Feedback>, feedbackId: Id, dto: UpdateFeedbackDto): (o: FeedbackOutcome)
    ensures feedbackId !in feedback <==> o.result == Err(NotFound("Feedback not found"))
    ensures o.result.Err? ==> o.feedback == feedback
    ensures feedbackId in feedback ==>
      && o.result == Ok(MergeFeedback(feedback[feedbackId], dto))
      && o.feedback.Keys == feedback.Keys
      && o.feedback[feedbackId] == o.result.value
      && forall id :: id in feedback && id != feedbackId ==> o.feedback[id] == feedback[id]
  {
    if feedbackId !in feedback then FeedbackOutcome(Err(NotFound("Feedback not found")), feedback)
    else
      var f := MergeFeedback(feedback[feedbackId], dto);
      FeedbackOutcome(Ok(f), feedback[feedbackId := f])
  }

  /** An update whose fields are all falsy (absent, `""`, `0`) changes
      nothing, and any update applied twice has the effect of applying it
      once. */
  lemma {:induction false} UpdateFalsyKeeps(feedback: map<Id, Feedback>, feedbackId: Id, dto: UpdateFeedbackDto)
    ensures !Truthy(dto.content) && !TruthyNumber(dto.rating) ==> UpdateFeedback(feedback, feedbackId, dto).feedback == feedback
    ensures var once := UpdateFeedback(feedback, feedbackId, dto).feedback;
      UpdateFeedback(once, feedbackId, dto).feedback == once
  {
    var once := UpdateFeedback(feedback, feedbackId, dto).feedback;
    if feedbackId in feedback {
      assert MergeFeedback(once[feedbackId], dto) == once[feedbackId];
      assert once[feedbackId := once[feedbackId]] == once;
      if !Truthy(dto.content) && !TruthyNumber(dto.rating) {
        assert MergeFeedback(feedback[feedbackId], dto) == feedback[feedbackId];
        assert feedback[feedbackId := feedback[feedbackId]] == feedback;
      }
    }
  }

  /** `deleteFeedback`: exactly the addressed record leaves the table. */
  function DeleteFeedback(feedback: map<Id, Feedback>, feedbackId: Id): (o: FeedbackOutcome)
    ensures feedbackId !in feedback <==> o.result == Err(NotFound("Feedback not found"))
    ensures o.result.Err? ==> o.feedback == feedback
    ensures feedbackId in feedback ==>
      && o.result == Ok(feedback[feedbackId])
      && o.feedback.Keys == feedback.Keys - {feedbackId}
      && forall id :: id in o.feedback ==> o.feedback[id] == feedback[id]
  {
    if feedbackId !in feedback then FeedbackOutcome(Err(NotFound("Feedback not found")), feedback)
    else FeedbackOutcome(Ok(feedback[feedbackId]), feedback - {feedbackId})
  }

  /** Deleting a record just created restores the table and hands back the
      created record. */
  lemma {:induction false} CreateThenDelete(
    milestones: map<Id, Milestone>, projects: map<Id, Project>, users: map<Id, User>,
    feedback: map<Id, Feedback>, milestoneId: Id, dto: CreateFeedbackDto, id: Id)
    requires id !in feedback
    ensures var o := CreateFeedback(milestones, projects, users, feedback, milestoneId, dto, id);
      o.result.Ok? ==> DeleteFeedback(o.feedback, id) == FeedbackOutcome(o.result, feedback)
  {
    var o := CreateFeedback(milestones, projects, users, feedback, milestoneId, dto, id);
    if o.result.Ok? {
      assert o.feedback - {id} == feedback;
    }
  }

  // ---------------------------------------------------------------------
  // The operations on the store

  method CreateFeedbackRequest(db: Db, milestoneId: Id, dto: CreateFeedbackDto, id: Id) returns (r: Result<Feedback>)
    requires id !in db.feedback
    modifies db`feedback
    ensures var o := CreateFeedback(db.milestones, db.projects, db.users, old(db.feedback), milestoneId, dto, id);
      r == o.result && db.feedback == o.feedback
  {
    if milestoneId !in db.milestones {
      return Err(NotFound("Milestone not found"));
    }
    if dto.projectId !in db.projects {
      return Err(ForeignKeyViolation("projectId"));
    }
    if dto.givenById !in db.users {
      return Err(ForeignKeyViolation("givenById"));
    }
    var f := Feedback(dto.content, dto.rating, milestoneId, dto.projectId, dto.givenById);
    db.feedback := db.feedback[id := f];
    r := Ok(f);
  }

  method UpdateFeedbackRequest(db: Db, feedbackId: Id, dto: UpdateFeedbackDto) returns (r: Result<Feedback>)
    modifies db`feedback
    ensures var o := UpdateFeedback(old(db.feedback), feedbackId, dto); r == o.result && db.feedback == o.feedback
  {
    if feedbackId !in db.feedback {
      return Err(NotFound("Feedback not found"));
    }
    var f := MergeFeedback(db.feedback[feedbackId], dto);
    db.feedback := db.feedback[feedbackId := f];
    r := Ok(f);
  }

  method DeleteFeedbackRequest(db: Db, feedbackId: Id) returns (r: Result<Feedback>)
    modifies db`feedback
    ensures var o := DeleteFeedback(old(db.feedback), feedbackId); r == o.result && db.feedback == o.feedback
  {
    if feedbackId !in db.feedback {
      return Err(NotFound("Feedback not found"));
    }
    r := Ok(db.feedback[feedbackId]);
    db.feedback := db.feedback - {feedbackId};
  }
}
