/** Milestone tracking: a project's progress as the share of its milestones
    that are completed, the status/due-date update, and the listings built
    on them. */
module TrackingService {
  import opened Common
  import opened Store
  import FeedbackService

  /** The ids of a project's milestones, only those with the given status
      when one is given. */
  function MilestoneIds(milestones: map<Id, Milestone>, projectId: Id, status: Option<MilestoneStatus>): (ids: set<Id>)
    ensures forall id :: id in ids <==>
      id in milestones && milestones[id].projectId == projectId && (status.Some? ==> milestones[id].status == status.value)
  {
    set id | id in milestones && milestones[id].projectId == projectId
                              && (status.Some? ==> milestones[id].status == status.value)
  }

  /** `getProjectMilestones`. */
  function GetProjectMilestones(milestones: map<Id, Milestone>, projectId: Id, status: Option<MilestoneStatus>)
    : (r: map<Id, Milestone>)
    ensures r.Keys == MilestoneIds(milestones, projectId, status)
    ensures forall id :: id in r ==> r[id] == milestones[id]
  {
    map id | id in MilestoneIds(milestones, projectId, status) :: milestones[id]
  }

  lemma {:induction false} SubsetCardinality(a: set<Id>, b: set<Id>)
    requires a <= b
    ensures |a| <= |b|
    ensures |a| == |b| ==> a == b
  {
    assert b == a + (b - a);
    assert a * (b - a) == {};
    if |a| == |b| {
      assert |b - a| == 0;
    }
  }

  /** `calculateProjectProgress`: the percentage of the project's milestones
      that are completed, 0 for a project without milestones. */
  function CalculateProjectProgress(milestones: map<Id, Milestone>, projectId: Id): (p: real)
    ensures MilestoneIds(milestones, projectId, None) == {} ==> p == 0.0
    ensures MilestoneIds(milestones, projectId, None) != {} ==>
      p * |MilestoneIds(milestones, projectId, None)| as real
        == 100.0 * |MilestoneIds(milestones, projectId, Some(Completed))| as real
    ensures 0.0 <= p <= 100.0
  {
    var all := MilestoneIds(milestones, projectId, None);
    var done := MilestoneIds(milestones, projectId, Some(Completed));
    SubsetCardinality(done, all);
    if |all| == 0 then 0.0
    else
      var ratio := |done| as real / |all| as real;
      assert ratio <= 1.0;
      assert ratio * |all| as real == |done| as real;
      ratio * 100.0
  }

  /** Progress is 100 exactly when the project has milestones and all of them
      are completed. */
  lemma {:induction false} ProgressFull(milestones: map<Id, Milestone>, projectId: Id)
    ensures CalculateProjectProgress(milestones, projectId) == 100.0 <==>
      && MilestoneIds(milestones, projectId, None) != {}
      && forall id :: id in milestones && milestones[id].projectId == projectId ==> milestones[id].status == Completed
  {
    var all := MilestoneIds(milestones, projectId, None);
    var done := MilestoneIds(milestones, projectId, Some(Completed));
    SubsetCardinality(done, all);
    if all != {} {
      var n := |all| as real;
      var d := |done| as real;
      if CalculateProjectProgress(milestones, projectId) == 100.0 {
        assert d / n == 1.0;
        assert d == n;
        assert done == all;
      }
      if forall id :: id in milestones && milestones[id].projectId == projectId ==> milestones[id].status == Completed {
        assert done == all;
      }
    }
  }

  // ---------------------------------------------------------------------
  // Status update

  datatype MilestoneOutcome = MilestoneOutcome(result: Result<Milestone>, milestones: map<Id, Milestone>)

  /** `updateMilestoneStatus`: the status is replaced and the due date too
      when one is given; otherwise the old due date stays. */
  function UpdateMilestoneStatus(milestones: map<Id, Milestone>, milestoneId: Id, status: MilestoneStatus, dueDate: Option<Millis>)
    : (o: MilestoneOutcome)
    ensures milestoneId !in milestones <==> o.result == Err(NotFound("Milestone not found"))
    ensures o.result.Err? ==> o.milestones == milestones
    ensures milestoneId in milestones ==>
      var old_ := milestones[milestoneId];
      && o.milestones.Keys == milestones.Keys
      && o.result == Ok(o.milestones[milestoneId])
      && o.milestones[milestoneId].status == status
      && o.milestones[milestoneId].dueDate == (if dueDate.Some? then dueDate else old_.dueDate)
      && o.milestones[milestoneId] == old_.(status := status, dueDate := o.milestones[milestoneId].dueDate)
      && forall id :: id in milestones && id != milestoneId ==> o.milestones[id] == milestones[id]
  {
    if milestoneId !in milestones then MilestoneOutcome(Err(NotFound("Milestone not found")), milestones)
    else
      var m := milestones[milestoneId];
      var updated := m.(status := status, dueDate := if dueDate.Some? then dueDate else m.dueDate);
      MilestoneOutcome(Ok(updated), milestones[milestoneId := updated])
  }

  /** Completing a milestone never lowers its project's progress, and leaves
      every other project's progress as it was. */
  lemma {:induction false} CompletingRaisesProgress(milestones: map<Id, Milestone>, milestoneId: Id, dueDate: Option<Millis>, projectId: Id)
    ensures var o := UpdateMilestoneStatus(milestones, milestoneId, Completed, dueDate);
      && CalculateProjectProgress(o.milestones, projectId) >= CalculateProjectProgress(milestones, projectId)
      && (milestoneId in milestones && milestones[milestoneId].projectId != projectId ==>
            CalculateProjectProgress(o.milestones, projectId) == CalculateProjectProgress(milestones, projectId))
  {
    var o := UpdateMilestoneStatus(milestones, milestoneId, Completed, dueDate);
    var all := MilestoneIds(milestones, projectId, None);
    var done := MilestoneIds(milestones, projectId, Some(Completed));
    var done' := MilestoneIds(o.milestones, projectId, Some(Completed));
    assert MilestoneIds(o.milestones, projectId, None) == all;
    assert done <= done';
    SubsetCardinality(done, done');
    if milestoneId in milestones && milestones[milestoneId].projectId != projectId {
      assert done' == done;
    }
    if all != {} {
      ShareMonotone(|done|, |done'|, |all|);
    }
  }

  lemma ShareMonotone(a: nat, b: nat, n: nat)
    requires a <= b && n > 0
    ensures (a as real / n as real) * 100.0 <= (b as real / n as real) * 100.0
  {
  }

  /** `updateMilestoneStatus` on the store. */
  method UpdateMilestoneStatusRequest(db: Db, milestoneId: Id, status: MilestoneStatus, dueDate: Option<Millis>)
    returns (r: Result<Milestone>)
    modifies db`milestones
    ensures var o := UpdateMilestoneStatus(old(db.milestones), milestoneId, status, dueDate);
      r == o.result && db.milestones == o.milestones
  {
    if milestoneId !in db.milestones {
      return Err(NotFound("Milestone not found"));
    }
    var m := db.milestones[milestoneId];
    var updated := m.(status := status, dueDate := if dueDate.Some? then dueDate else m.dueDate);
    db.milestones := db.milestones[milestoneId := updated];
    r := Ok(updated);
  }

  // ---------------------------------------------------------------------
  // Listings

  /** `getMilestoneFeedback`: the milestone's feedback, an error when there
      is none. */
  function GetMilestoneFeedback(feedback: map<Id, Feedback>, milestoneId: Id): (r: Result<map<Id, Feedback>>)
    ensures r.Err? <==> forall id :: id in feedback ==> feedback[id].milestoneId != milestoneId
    ensures r.Err? ==> r.error == NotFound("No feedback found for this milestone")
    ensures r.Ok? ==> r.value != map[] && r.value == FeedbackService.FeedbackByMilestone(feedback, milestoneId)
  {
    var found := FeedbackService.FeedbackByMilestone(feedback, milestoneId);
    if found == map[] then
      assert forall id :: id in feedback ==> feedback[id].milestoneId != milestoneId by {
        forall id | id in feedback ensures feedback[id].milestoneId != milestoneId {
          assert id !in found;
        }
      }
      Err(NotFound("No feedback found for this milestone"))
    else Ok(found)
  }

  datatype ProgressReport = ProgressReport(progress: real, milestones: map<Id, Milestone>)

  /** `generateProgressReport`: the progress with all of the project's
      milestones. */
  function GenerateProgressReport(milestones: map<Id, Milestone>, projectId: Id): (r: ProgressReport)
    ensures r.milestones == GetProjectMilestones(milestones, projectId, None)
    ensures r.progress == CalculateProjectProgress(milestones, projectId)
  {
    ProgressReport(CalculateProjectProgress(milestones, projectId), GetProjectMilestones(milestones, projectId, None))
  }

  /** The report is consistent with itself: it shows 100 exactly when it
      lists milestones and every one it lists is completed. */
  lemma ReportConsistent(milestones: map<Id, Milestone>, projectId: Id)
    ensures var r := GenerateProgressReport(milestones, projectId);
      r.progress == 100.0 <==>
        r.milestones != map[] && forall id :: id in r.milestones ==> r.milestones[id].status == Completed
  {
    ProgressFull(milestones, projectId);
    var r := GenerateProgressReport(milestones, projectId);
    if r.milestones == map[] {
      assert MilestoneIds(milestones, projectId, None) == {} by {
        assert r.milestones.Keys == MilestoneIds(milestones, projectId, None);
      }
    }
  }
}
