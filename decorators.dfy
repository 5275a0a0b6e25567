/**
 * Organization-scoped role authorization (backend/apps/graphql_api/decorators.py).
 *
 * Each guard decorator wraps a resolver. It rejects an anonymous caller, looks
 * up the caller's membership in the organization of the target (given
 * explicitly, or derived from the stored project or task), compares the
 * membership's rank with the required rank, and on success runs the resolver
 * with the membership and the looked-up resource. The resolver runs inside the
 * guard's `try`, so the `DoesNotExist` exceptions the guard catches are
 * rewritten into its denial message even when the resolver raised them.
 *
 * `OrganizationAccess`, `ProjectAccess` and `TaskAccess` are the decisions
 * alone (the guard with a resolver that returns its grant); the guard lemmas
 * show that each guard is its decision followed by the resolver.
 */
module Decorators {
  import opened Wrappers
  import opened Organizations
  import opened Projects
  import opened Store

  /** `info.context.user`: an anonymous visitor or an authenticated user. */
  datatype Caller = Anonymous | Authenticated(user: UserId)

  /** The models whose `objects.get` can raise `DoesNotExist` in a guard. */
  datatype Model = ProjectModel | TaskModel | MemberModel

  /** The exceptions that can leave a guarded resolver. */
  datatype Exc =
    | Exception(message: string)   // `raise Exception(message)`
    | KeyError(key: string)        // `role_hierarchy[min_role]` for a name that is not a role
    | DoesNotExist(model: Model)   // `<model>.objects.get(...)` found no row

  const AuthenticationRequired: string := "Authentication required"
  const NotAMember: string := "Permission denied: You are not a member of this organization"
  const ProjectDenied: string := "Permission denied or project not found"
  const TaskDenied: string := "Permission denied or task not found"

  /** The message for a member whose role ranks below `min_role`. */
  function RoleRequired(minRole: string): string
  {
    "Permission denied: " + minRole + " role required"
  }

  /** `min_role` when a decorator is applied without one. */
  const DefaultMinRole: string := "VIEWER"

  /** `role_hierarchy`: the same literal table in all three guards. */
  const RoleHierarchy: map<string, nat> := map["OWNER" := 3, "ADMIN" := 2, "MEMBER" := 1, "VIEWER" := 0]

  /** `role_hierarchy[member.role]`. */
  function Rank(r: Role): nat
  {
    RoleHierarchy[RoleName(r)]
  }

  /**
   * The table ranks OWNER 3 > ADMIN 2 > MEMBER 1 > VIEWER 0: distinct roles have
   * distinct ranks, so rank order is a strict total order on roles, and its keys
   * are exactly the stored role names.
   */
  lemma RankIsStrictTotalOrder()
    ensures Rank(Owner) == 3 && Rank(Admin) == 2 && Rank(Member) == 1 && Rank(Viewer) == 0
    ensures forall r1: Role, r2: Role :: r1 != r2 ==> Rank(r1) != Rank(r2)
    ensures forall s :: s in RoleHierarchy <==> ParseRole(s).Some?
  {
  }

  /** A role meets `min_role`: the name is in the table and the role ranks at least as high. */
  predicate Satisfies(role: Role, minRole: string)
  {
    minRole in RoleHierarchy && Rank(role) >= RoleHierarchy[minRole]
  }

  /**
   * The comparison `role_hierarchy[member.role] < role_hierarchy[min_role]`:
   * nothing raised when the role suffices, a KeyError for an unknown `min_role`,
   * the role-required exception otherwise.
   */
  function RankCheck(role: Role, minRole: string): (e: Option<Exc>)
    ensures e.None? <==> Satisfies(role, minRole)
    ensures e.Some? && minRole in RoleHierarchy ==> e.value == Exception(RoleRequired(minRole))
    ensures minRole !in RoleHierarchy ==> e == Some(KeyError(minRole))
  {
    if minRole !in RoleHierarchy then Some(KeyError(minRole))
    else if Rank(role) < RoleHierarchy[minRole] then Some(Exception(RoleRequired(minRole)))
    else None
  }

  /** `get_member`: the caller's membership in the organization, or None. */
  function GetMember(db: Db, user: UserId, organizationId: OrgId): (m: Option<OrganizationMember>)
    ensures m.Some? <==> (user, organizationId) in db.members
    ensures m.Some? ==> m.value == OrganizationMember(user, organizationId, db.members[(user, organizationId)])
  {
    if (user, organizationId) in db.members
    then Some(OrganizationMember(user, organizationId, db.members[(user, organizationId)]))
    else None
  }

  /** `can_manage_projects`. */
  predicate CanManageProjects(m: Option<OrganizationMember>)
  {
    m.Some? && m.value.role in [Owner, Admin]
  }

  /** `can_manage_tasks`. */
  predicate CanManageTasks(m: Option<OrganizationMember>)
  {
    m.Some? && m.value.role in [Owner, Admin, Member]
  }

  /** `can_view`. */
  predicate CanView(m: Option<OrganizationMember>)
  {
    m.Some?
  }

  /**
   * The three capability checks are rank thresholds 2, 1 and 0 of the guards'
   * table; so each implies the next and a VIEWER cannot manage tasks.
   */
  lemma CapabilitiesAreRankThresholds(m: Option<OrganizationMember>)
    ensures CanManageProjects(m) <==> m.Some? && Satisfies(m.value.role, "ADMIN")
    ensures CanManageTasks(m) <==> m.Some? && Satisfies(m.value.role, "MEMBER")
    ensures CanView(m) <==> m.Some? && Satisfies(m.value.role, "VIEWER")
    ensures CanManageProjects(m) ==> CanManageTasks(m) && (CanManageTasks(m) ==> CanView(m))
    ensures m.Some? && m.value.role == Viewer ==> !CanManageTasks(m)
  {
  }

  /** What a guard hands its resolver: the caller's membership and the resource it looked up. */
  datatype Grant<R> = Grant(member: OrganizationMember, resource: R)

  // ---- organization_member_required ----

  /** The decision of `organization_member_required(min_role)` for an explicit organization id. */
  function OrganizationAccess(db: Db, caller: Caller, organizationId: OrgId, minRole: string)
    : (r: Result<Grant<OrgId>, Exc>)
    ensures caller.Anonymous? ==> r == Err(Exception(AuthenticationRequired))
    ensures r.Ok? <==>
      && caller.Authenticated? && (caller.user, organizationId) in db.members
      && Satisfies(db.members[(caller.user, organizationId)], minRole)
    ensures r.Ok? ==>
      r.value == Grant(OrganizationMember(caller.user, organizationId, db.members[(caller.user, organizationId)]), organizationId)
    ensures caller.Authenticated? && (caller.user, organizationId) !in db.members ==>
      r == Err(Exception(NotAMember))
    ensures caller.Authenticated? && (caller.user, organizationId) in db.members && r.Err? ==>
      r.error == (if minRole in RoleHierarchy then Exception(RoleRequired(minRole)) else KeyError(minRole))
  {
    if caller.Anonymous? then Err(Exception(AuthenticationRequired))
    else match GetMember(db, caller.user, organizationId)
      case None => Err(Exception(NotAMember))
      case Some(member) =>
        match RankCheck(member.role, minRole)
        case Some(e) => Err(e)
        case None => Ok(Grant(member, organizationId))
  }

  /** The `except` of `organization_member_required`: a missing membership becomes the not-a-member denial. */
  function CatchOrganization<T>(raised: Result<T, Exc>): Result<T, Exc>
  {
    if raised.Err? && raised.error == DoesNotExist(MemberModel) then Err(Exception(NotAMember)) else raised
  }

  /** `organization_member_required(min_role)` applied to `resolver`. */
  function OrganizationMemberRequired<T>(db: Db, caller: Caller, organizationId: OrgId, minRole: string,
                                         resolver: Grant<OrgId> -> Result<T, Exc>): (r: Result<T, Exc>)
    ensures caller.Anonymous? ==> r == Err(Exception(AuthenticationRequired))
  {
    if caller.Anonymous? then Err(Exception(AuthenticationRequired))
    else
      CatchOrganization(
        match GetMember(db, caller.user, organizationId)
        case None => Err(DoesNotExist(MemberModel))
        case Some(member) =>
          match RankCheck(member.role, minRole)
          case Some(e) => Err(e)
          case None => resolver(Grant(member, organizationId)))
  }

  /** The guard denies exactly as its decision does and otherwise runs the resolver on the decision's grant. */
  lemma OrganizationGuardRunsResolverOnGrant<T>(db: Db, caller: Caller, organizationId: OrgId, minRole: string,
                                                resolver: Grant<OrgId> -> Result<T, Exc>)
    ensures var d := OrganizationAccess(db, caller, organizationId, minRole);
      OrganizationMemberRequired(db, caller, organizationId, minRole, resolver)
        == if d.Err? then Err(d.error) else CatchOrganization(resolver(d.value))
  {
  }

  // ---- project_member_required ----

  /** The decision of `project_member_required(min_role)` for project `id`. */
  function ProjectAccess(db: Db, caller: Caller, id: ProjectId, minRole: string)
    : (r: Result<Grant<Project>, Exc>)
    ensures caller.Anonymous? ==> r == Err(Exception(AuthenticationRequired))
    ensures r.Ok? <==>
      && caller.Authenticated? && id in db.projects
      && (caller.user, db.projects[id].organization) in db.members
      && Satisfies(db.members[(caller.user, db.projects[id].organization)], minRole)
    ensures r.Ok? ==> r.value.resource == db.projects[id]
    ensures r.Ok? ==> r.value.member == OrganizationMember(caller.user, db.projects[id].organization,
                                                           db.members[(caller.user, db.projects[id].organization)])
    ensures caller.Authenticated? && (id !in db.projects || (caller.user, db.projects[id].organization) !in db.members) ==>
      r == Err(Exception(ProjectDenied))
  {
    if caller.Anonymous? then Err(Exception(AuthenticationRequired))
    else if id !in db.projects then Err(Exception(ProjectDenied))
    else
      var project := db.projects[id];
      match GetMember(db, caller.user, project.organization)
      case None => Err(Exception(ProjectDenied))
      case Some(member) =>
        match RankCheck(member.role, minRole)
        case Some(e) => Err(e)
        case None => Ok(Grant(member, project))
  }

  /** The `except` of `project_member_required`: a missing project or membership becomes one denial. */
  function CatchProject<T>(raised: Result<T, Exc>): Result<T, Exc>
  {
    if raised.Err? && raised.error in {DoesNotExist(ProjectModel), DoesNotExist(MemberModel)}
    then Err(Exception(ProjectDenied))
    else raised
  }

  /** `project_member_required(min_role)` applied to `resolver`. */
  function ProjectMemberRequired<T>(db: Db, caller: Caller, id: ProjectId, minRole: string,
                                    resolver: Grant<Project> -> Result<T, Exc>): (r: Result<T, Exc>)
    ensures caller.Anonymous? ==> r == Err(Exception(AuthenticationRequired))
  {
    if caller.Anonymous? then Err(Exception(AuthenticationRequired))
    else
      CatchProject(
        if id !in db.projects then Err(DoesNotExist(ProjectModel))
        else
          var project := db.projects[id];
          match GetMember(db, caller.user, project.organization)
          case None => Err(DoesNotExist(MemberModel))
          case Some(member) =>
            match RankCheck(member.role, minRole)
            case Some(e) => Err(e)
            case None => resolver(Grant(member, project)))
  }

  lemma ProjectGuardRunsResolverOnGrant<T>(db: Db, caller: Caller, id: ProjectId, minRole: string,
                                           resolver: Grant<Project> -> Result<T, Exc>)
    ensures var d := ProjectAccess(db, caller, id, minRole);
      ProjectMemberRequired(db, caller, id, minRole, resolver)
        == if d.Err? then Err(d.error) else CatchProject(resolver(d.value))
  {
  }

  // ---- task_member_required ----

  /** The decision of `task_member_required(min_role)` for task `id`. */
  function TaskAccess(db: Db, caller: Caller, id: TaskId, minRole: string)
    : (r: Result<Grant<Task>, Exc>)
    requires db.Valid()
    ensures caller.Anonymous? ==> r == Err(Exception(AuthenticationRequired))
    ensures r.Ok? <==>
      && caller.Authenticated? && id in db.tasks
      && (caller.user, TaskOrganization(db, id)) in db.members
      && Satisfies(db.members[(caller.user, TaskOrganization(db, id))], minRole)
    ensures r.Ok? ==> r.value.resource == db.tasks[id]
    ensures r.Ok? ==> r.value.member == OrganizationMember(caller.user, TaskOrganization(db, id),
                                                           db.members[(caller.user, TaskOrganization(db, id))])
    ensures caller.Authenticated? && (id !in db.tasks || (caller.user, TaskOrganization(db, id)) !in db.members) ==>
      r == Err(Exception(TaskDenied))
  {
    if caller.Anonymous? then Err(Exception(AuthenticationRequired))
    else if id !in db.tasks then Err(Exception(TaskDenied))
    else
      var task := db.tasks[id];
      match GetMember(db, caller.user, db.projects[task.project].organization)
      case None => Err(Exception(TaskDenied))
      case Some(member) =>
        match RankCheck(member.role, minRole)
        case Some(e) => Err(e)
        case None => Ok(Grant(member, task))
  }

  /** The `except` of `task_member_required`: a missing task or membership becomes one denial. */
  function CatchTask<T>(raised: Result<T, Exc>): Result<T, Exc>
  {
    if raised.Err? && raised.error in {DoesNotExist(TaskModel), DoesNotExist(MemberModel)}
    then Err(Exception(TaskDenied))
    else raised
  }

  /** `task_member_required(min_role)` applied to `resolver`. */
  function TaskMemberRequired<T>(db: Db, caller: Caller, id: TaskId, minRole: string,
                                 resolver: Grant<Task> -> Result<T, Exc>): (r: Result<T, Exc>)
    requires db.Valid()
    ensures caller.Anonymous? ==> r == Err(Exception(AuthenticationRequired))
  {
    if caller.Anonymous? then Err(Exception(AuthenticationRequired))
    else
      CatchTask(
        if id !in db.tasks then Err(DoesNotExist(TaskModel))
        else
          var task := db.tasks[id];
          match GetMember(db, caller.user, db.projects[task.project].organization)
          case None => Err(DoesNotExist(MemberModel))
          case Some(member) =>
            match RankCheck(member.role, minRole)
            case Some(e) => Err(e)
            case None => resolver(Grant(member, task)))
  }

  lemma TaskGuardRunsResolverOnGrant<T>(db: Db, caller: Caller, id: TaskId, minRole: string,
                                        resolver: Grant<Task> -> Result<T, Exc>)
    requires db.Valid()
    ensures var d := TaskAccess(db, caller, id, minRole);
      TaskMemberRequired(db, caller, id, minRole, resolver)
        == if d.Err? then Err(d.error) else CatchTask(resolver(d.value))
  {
  }

  // ---- properties of the decisions ----

  /** The organization decision with its resource replaced and its not-a-member message replaced. */
  function Rescope<R>(d: Result<Grant<OrgId>, Exc>, resource: R, denied: string): Result<Grant<R>, Exc>
  {
    match d
    case Ok(g) => Ok(Grant(g.member, resource))
    case Err(e) => Err(if e == Exception(NotAMember) then Exception(denied) else e)
  }

  /**
   * For an existing project the project guard decides exactly as the organization
   * guard does on the project's own organization; only the resource it hands on
   * and the not-a-member message differ.
   */
  lemma ProjectAccessIsOrganizationAccess(db: Db, caller: Caller, id: ProjectId, minRole: string)
    requires id in db.projects
    ensures ProjectAccess(db, caller, id, minRole)
         == Rescope(OrganizationAccess(db, caller, db.projects[id].organization, minRole), db.projects[id], ProjectDenied)
  {
  }

  /** The same for a task, whose organization is that of its project. */
  lemma TaskAccessIsOrganizationAccess(db: Db, caller: Caller, id: TaskId, minRole: string)
    requires db.Valid() && id in db.tasks
    ensures TaskAccess(db, caller, id, minRole)
         == Rescope(OrganizationAccess(db, caller, TaskOrganization(db, id), minRole), db.tasks[id], TaskDenied)
  {
  }

  /** An anonymous caller is refused with the same error whatever the database holds and whatever is asked. */
  lemma AnonymousRefusedBeforeLookup(db1: Db, db2: Db, db3: Db, o: OrgId, p: ProjectId, t: TaskId,
                                     minRole1: string, minRole2: string)
    requires db2.Valid() && db3.Valid()
    ensures OrganizationAccess(db1, Anonymous, o, minRole1) == OrganizationAccess(db2, Anonymous, o, minRole2)
    ensures ProjectAccess(db1, Anonymous, p, minRole1) == ProjectAccess(db2, Anonymous, p, minRole2)
    ensures TaskAccess(db2, Anonymous, t, minRole2) == TaskAccess(db3, Anonymous, t, minRole1)
    ensures TaskAccess(db2, Anonymous, t, minRole2).Err?
    ensures OrganizationAccess(db1, Anonymous, o, minRole1).error == ProjectAccess(db1, Anonymous, p, minRole1).error
         == TaskAccess(db2, Anonymous, t, minRole2).error == Exception(AuthenticationRequired)
  {
  }

  /**
   * The four fixed denial messages are pairwise distinct, and no role-required
   * message, whatever role name it carries, equals any of them.
   */
  lemma DenialMessagesDistinct(minRole: string)
    ensures RoleRequired(minRole) != AuthenticationRequired
    ensures RoleRequired(minRole) != NotAMember
    ensures RoleRequired(minRole) != ProjectDenied
    ensures RoleRequired(minRole) != TaskDenied
    ensures |{AuthenticationRequired, NotAMember, ProjectDenied, TaskDenied}| == 4
  {
    // "Permission denied" is followed by ':' in the role message and by ' ' in the not-found ones.
    var m := RoleRequired(minRole);
    assert m[0] == 'P' && AuthenticationRequired[0] == 'A';
    assert m[17] == ':' && ProjectDenied[17] == ' ' && TaskDenied[17] == ' ';
    // The role message ends in "required", the not-a-member message in "organization".
    assert m[|m| - 1] == 'd' && NotAMember[|NotAMember| - 1] == 'n';
  }

  /** A non-member and a member of too low a rank get different errors. */
  lemma NonMemberAndLowRankDiffer(db: Db, user: UserId, o: OrgId, other: UserId, minRole: string)
    requires (user, o) !in db.members
    requires (other, o) in db.members && minRole in RoleHierarchy && !Satisfies(db.members[(other, o)], minRole)
    ensures OrganizationAccess(db, Authenticated(user), o, minRole) == Err(Exception(NotAMember))
    ensures OrganizationAccess(db, Authenticated(other), o, minRole) == Err(Exception(RoleRequired(minRole)))
    ensures OrganizationAccess(db, Authenticated(user), o, minRole) != OrganizationAccess(db, Authenticated(other), o, minRole)
  {
    DenialMessagesDistinct(minRole);
  }

  /**
   * A project id that does not exist and a project of an organization the caller
   * does not belong to produce the identical error, whatever roles are asked for;
   * a member whose rank is too low gets a different one.
   */
  lemma MissingProjectLooksLikeForeignProject(db1: Db, db2: Db, user: UserId, missing: ProjectId, foreign: ProjectId,
                                              minRole1: string, minRole2: string)
    requires missing !in db1.projects
    requires foreign in db2.projects && (user, db2.projects[foreign].organization) !in db2.members
    ensures ProjectAccess(db1, Authenticated(user), missing, minRole1)
         == ProjectAccess(db2, Authenticated(user), foreign, minRole2)
         == Err(Exception(ProjectDenied))
  {
  }

  lemma LowRankOnProjectIsDistinct(db: Db, user: UserId, id: ProjectId, minRole: string)
    requires id in db.projects && (user, db.projects[id].organization) in db.members
    requires minRole in RoleHierarchy && !Satisfies(db.members[(user, db.projects[id].organization)], minRole)
    ensures ProjectAccess(db, Authenticated(user), id, minRole) == Err(Exception(RoleRequired(minRole)))
    ensures ProjectAccess(db, Authenticated(user), id, minRole) != Err(Exception(ProjectDenied))
  {
    DenialMessagesDistinct(minRole);
  }

  /** The task guard's counterpart: missing and foreign tasks are indistinguishable. */
  lemma MissingTaskLooksLikeForeignTask(db1: Db, db2: Db, user: UserId, missing: TaskId, foreign: TaskId,
                                        minRole1: string, minRole2: string)
    requires db1.Valid() && db2.Valid()
    requires missing !in db1.tasks
    requires foreign in db2.tasks && (user, TaskOrganization(db2, foreign)) !in db2.members
    ensures TaskAccess(db1, Authenticated(user), missing, minRole1)
         == TaskAccess(db2, Authenticated(user), foreign, minRole2)
         == Err(Exception(TaskDenied))
  {
  }

  lemma LowRankOnTaskIsDistinct(db: Db, user: UserId, id: TaskId, minRole: string)
    requires db.Valid() && id in db.tasks && (user, TaskOrganization(db, id)) in db.members
    requires minRole in RoleHierarchy && !Satisfies(db.members[(user, TaskOrganization(db, id))], minRole)
    ensures TaskAccess(db, Authenticated(user), id, minRole) == Err(Exception(RoleRequired(minRole)))
    ensures TaskAccess(db, Authenticated(user), id, minRole) != Err(Exception(TaskDenied))
  {
    DenialMessagesDistinct(minRole);
  }

  /**
   * Monotonicity: an actor allowed at `minRole` stays allowed at any `minRole'`
   * of no higher rank, and any actor whose role ranks at least as high is allowed too.
   */
  lemma AccessIsMonotone(db: Db, user: UserId, o: OrgId, minRole: string,
                         db': Db, user': UserId, minRole': string)
    requires OrganizationAccess(db, Authenticated(user), o, minRole).Ok?
    requires (user', o) in db'.members && Rank(db'.members[(user', o)]) >= Rank(db.members[(user, o)])
    requires minRole' in RoleHierarchy && RoleHierarchy[minRole'] <= RoleHierarchy[minRole]
    ensures OrganizationAccess(db', Authenticated(user'), o, minRole').Ok?
  {
  }

  /** The capability checks agree with the organization guard at min_role ADMIN, MEMBER and VIEWER (the default). */
  lemma CapabilitiesMatchGuard(db: Db, user: UserId, o: OrgId)
    ensures CanManageProjects(GetMember(db, user, o)) <==> OrganizationAccess(db, Authenticated(user), o, "ADMIN").Ok?
    ensures CanManageTasks(GetMember(db, user, o)) <==> OrganizationAccess(db, Authenticated(user), o, "MEMBER").Ok?
    ensures CanView(GetMember(db, user, o)) <==> OrganizationAccess(db, Authenticated(user), o, DefaultMinRole).Ok?
  {
    CapabilitiesAreRankThresholds(GetMember(db, user, o));
  }
}
