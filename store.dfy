/**
 * The rows the authorization guards and the task signal read, as one snapshot
 * of the database. Foreign keys are ids into the other tables; `Valid` states
 * the referential integrity the database keeps.
 */
module Store {
  import opened Wrappers
  import opened Organizations
  import opened Projects

  datatype Db = Db(
    members: map<(UserId, OrgId), Role>,   // OrganizationMember rows, keyed by (user, organization)
    projects: map<ProjectId, Project>,
    tasks: map<TaskId, Task>,
    webhooks: seq<Webhook>,                // Webhook rows, in table order
    userEmails: map<UserId, string>)       // User.email of every user
  {
    /** Every task's project exists and every assignee is a user. */
    ghost predicate Valid()
    {
      && (forall t :: t in tasks ==> tasks[t].project in projects)
      && (forall t :: t in tasks && tasks[t].assignee.Some? ==> tasks[t].assignee.value in userEmails)
    }
  }

  /** `task.project.organization`: a task's organization is the organization of its project. */
  function TaskOrganization(db: Db, id: TaskId): (o: OrgId)
    requires db.Valid() && id in db.tasks
  {
    db.projects[db.tasks[id].project].organization
  }
}
