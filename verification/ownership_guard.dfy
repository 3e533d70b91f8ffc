/** The ownership guard: only an owner of the project a request addresses
    may modify it. */
module OwnershipGuard {
  import opened Common
  import opened Store

  /** `params.id || body.projectId || body.id`: the first present, non-empty
      candidate, or none at all. */
  function ProjectIdOf(paramsId: Option<string>, bodyProjectId: Option<string>, bodyId: Option<string>): (r: Option<Id>)
    ensures r.Some? <==> Truthy(paramsId) || Truthy(bodyProjectId) || Truthy(bodyId)
    ensures Truthy(paramsId) ==> r == paramsId
    ensures !Truthy(paramsId) && Truthy(bodyProjectId) ==> r == bodyProjectId
    ensures !Truthy(paramsId) && !Truthy(bodyProjectId) && Truthy(bodyId) ==> r == bodyId
  {
    if Truthy(paramsId) then paramsId
    else if Truthy(bodyProjectId) then bodyProjectId
    else if Truthy(bodyId) then bodyId
    else None
  }

  const NotAuthenticated := Forbidden("You are not authenticated")
  const NoProjectId := Forbidden("No project ID provided")
  const ProjectNotFound := Forbidden("Project not found")
  const NotOwner := Forbidden("You are not authorized to modify this project")

  /** `canActivate`, in the order the checks are made. */
  function CanActivate(
    projects: map<Id, Project>, user: Option<RequestUser>,
    paramsId: Option<string>, bodyProjectId: Option<string>, bodyId: Option<string>): (d: Decision)
    ensures user.None? ==> d == Deny(NotAuthenticated)
    ensures user.Some? && ProjectIdOf(paramsId, bodyProjectId, bodyId).None? ==> d == Deny(NoProjectId)
    ensures d.Deny? ==> d.error in {NotAuthenticated, NoProjectId, ProjectNotFound, NotOwner}
  {
    var projectId := ProjectIdOf(paramsId, bodyProjectId, bodyId);
    if user.None? then Deny(NotAuthenticated)
    else if projectId.None? then Deny(NoProjectId)
    else if projectId.value !in projects then Deny(ProjectNotFound)
    else if user.value.id !in projects[projectId.value].owners then Deny(NotOwner)
    else Allow
  }

  /** The guard admits a request exactly when it comes from an owner of the
      project it addresses; an unknown project is refused as such. */
  lemma AllowExactlyOwners(
    projects: map<Id, Project>, user: Option<RequestUser>,
    paramsId: Option<string>, bodyProjectId: Option<string>, bodyId: Option<string>)
    ensures var pid := ProjectIdOf(paramsId, bodyProjectId, bodyId);
      && (CanActivate(projects, user, paramsId, bodyProjectId, bodyId) == Allow <==>
            user.Some? && pid.Some? && pid.value in projects && user.value.id in projects[pid.value].owners)
      && (user.Some? && pid.Some? && pid.value !in projects ==>
            CanActivate(projects, user, paramsId, bodyProjectId, bodyId) == Deny(ProjectNotFound))
  {
  }

  /** A non-empty `params.id` decides alone: what the body carries does not
      matter. */
  lemma ParamsIdWins(
    projects: map<Id, Project>, user: Option<RequestUser>, paramsId: Option<string>,
    bodyProjectId: Option<string>, bodyId: Option<string>)
    requires Truthy(paramsId)
    ensures CanActivate(projects, user, paramsId, bodyProjectId, bodyId) == CanActivate(projects, user, paramsId, None, None)
  {
  }
}
