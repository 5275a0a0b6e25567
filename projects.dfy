/**
 * Projects, tasks and task comments (backend/apps/projects/models.py):
 * their choice enums and defaults, the sort orders their `Meta.ordering`
 * declares, and `Project.get_task_stats`.
 */
module Projects {
  import opened Wrappers
  import opened Organizations

  type ProjectId = nat
  type TaskId = nat
  /** A point in time; a larger value is later. */
  type Timestamp = int

  datatype ProjectStatus = Active | OnHold | Completed | Archived
  datatype TaskStatus = Todo | InProgress | Done
  datatype Priority = Low | Medium | High | Urgent

  /** The value each task status is stored (and serialized) as. */
  function TaskStatusName(s: TaskStatus): string
  {
    match s
    case Todo => "TODO"
    case InProgress => "IN_PROGRESS"
    case Done => "DONE"
  }

  /** The value each priority is stored (and serialized) as. */
  function PriorityName(p: Priority): string
  {
    match p
    case Low => "LOW"
    case Medium => "MEDIUM"
    case High => "HIGH"
    case Urgent => "URGENT"
  }

  /** Stored status and priority values name exactly one choice each. */
  lemma ChoiceNamesDistinct(s1: TaskStatus, s2: TaskStatus, p1: Priority, p2: Priority)
    ensures TaskStatusName(s1) == TaskStatusName(s2) ==> s1 == s2
    ensures PriorityName(p1) == PriorityName(p2) ==> p1 == p2
  {
  }

  /** A project row; every project belongs to exactly one organization. */
  datatype Project = Project(
    organization: OrgId,
    name: string,
    description: string,
    status: ProjectStatus,
    createdBy: Option<UserId>,
    dueDate: Option<Timestamp>,
    createdAt: Timestamp)

  /** A task row; every task belongs to exactly one project. `order` is a positive-integer column. */
  datatype Task = Task(
    project: ProjectId,
    title: string,
    description: string,
    status: TaskStatus,
    priority: Priority,
    assignee: Option<UserId>,
    dueDate: Option<Timestamp>,
    order: nat,
    createdAt: Timestamp,
    updatedAt: Timestamp)

  /** A comment row; every comment belongs to exactly one task. */
  datatype TaskComment = TaskComment(task: TaskId, content: string, author: UserId, createdAt: Timestamp)

  const NameMaxLength: nat := 200

  /** The range of PostgreSQL's `integer`, the column type of a `PositiveIntegerField`. */
  const IntegerMin: int := -2147483648
  const IntegerMax: int := 2147483647

  /** Creates a project row at time `now`; without an explicit status it is ACTIVE. */
  function NewProject(organization: OrgId, name: string, description: string, status: Option<ProjectStatus>,
                      createdBy: Option<UserId>, dueDate: Option<Timestamp>, now: Timestamp)
    : (r: Result<Project, DbError>)
    ensures r.Ok? <==> |name| <= NameMaxLength
    ensures r.Ok? ==> r.value.organization == organization && r.value.name == name && r.value.createdAt == now
    ensures r.Ok? && status.None? ==> r.value.status == Active
    ensures r.Ok? && status.Some? ==> r.value.status == status.value
  {
    if |name| > NameMaxLength then Err(ValueTooLong("name"))
    else Ok(Project(organization, name, description,
                    if status.Some? then status.value else Active,
                    createdBy, dueDate, now))
  }

  /**
   * Creates a task row saved at time `now`, one instant standing for both the
   * `auto_now_add` and the `auto_now` stamp. Status defaults to TODO, priority to
   * MEDIUM and order to 0. An order outside the 32-bit `integer` column is refused
   * first; an order inside it but negative breaks the column's non-negativity check.
   */
  function NewTask(project: ProjectId, title: string, description: string,
                   status: Option<TaskStatus>, priority: Option<Priority>,
                   assignee: Option<UserId>, dueDate: Option<Timestamp>, order: Option<int>, now: Timestamp)
    : (r: Result<Task, DbError>)
    ensures r.Ok? <==> |title| <= NameMaxLength && (order.None? || 0 <= order.value <= IntegerMax)
    ensures |title| > NameMaxLength ==> r == Err(ValueTooLong("title"))
    ensures |title| <= NameMaxLength && order.Some? && !(IntegerMin <= order.value <= IntegerMax) ==>
      r == Err(OutOfRange("order"))
    ensures |title| <= NameMaxLength && order.Some? && IntegerMin <= order.value < 0 ==>
      r == Err(CheckViolation("order"))
    ensures r.Ok? ==> r.value.project == project && r.value.title == title && r.value.assignee == assignee
    ensures r.Ok? ==> r.value.createdAt == now && r.value.updatedAt == now
    ensures r.Ok? ==> r.value.status == (if status.Some? then status.value else Todo)
    ensures r.Ok? ==> r.value.priority == (if priority.Some? then priority.value else Medium)
    ensures r.Ok? ==> r.value.order == (if order.Some? then order.value else 0)
  {
    if |title| > NameMaxLength then Err(ValueTooLong("title"))
    else if order.Some? && (order.value < IntegerMin || order.value > IntegerMax) then Err(OutOfRange("order"))
    else if order.Some? && order.value < 0 then Err(CheckViolation("order"))
    else Ok(Task(project, title, description,
                 if status.Some? then status.value else Todo,
                 if priority.Some? then priority.value else Medium,
                 assignee, dueDate,
                 if order.Some? then order.value else 0,
                 now, now))
  }

  // ---- Meta.ordering ----

  /** Projects: newest first (`-created_at`). */
  predicate ProjectBefore(a: Project, b: Project)
  {
    a.createdAt > b.createdAt
  }

  /** Tasks: by `order` ascending, then newest first (`order`, `-created_at`). */
  predicate TaskBefore(a: Task, b: Task)
  {
    a.order < b.order || (a.order == b.order && a.createdAt > b.createdAt)
  }

  /** Comments: oldest first (`created_at`). */
  predicate CommentBefore(a: TaskComment, b: TaskComment)
  {
    a.createdAt < b.createdAt
  }

  /**
   * The task order is a strict weak order: irreflexive, transitive, and two tasks
   * are unordered exactly when they share both sort keys.
   */
  lemma TaskOrderIsStrictWeak(a: Task, b: Task, c: Task)
    ensures !TaskBefore(a, a)
    ensures TaskBefore(a, b) && TaskBefore(b, c) ==> TaskBefore(a, c)
    ensures TaskBefore(a, b) ==> !TaskBefore(b, a)
    ensures !TaskBefore(a, b) && !TaskBefore(b, a) <==> a.order == b.order && a.createdAt == b.createdAt
  {
  }

  /** The order key dominates: a smaller `order` sorts first whatever the creation times. */
  lemma TaskOrderKeyFirst(a: Task, b: Task)
    requires a.order < b.order
    ensures TaskBefore(a, b) && !TaskBefore(b, a)
  {
  }

  /** The project order is a strict weak order on creation time, newest first. */
  lemma ProjectOrderNewestFirst(p: Project, q: Project, r: Project)
    ensures !ProjectBefore(p, p)
    ensures ProjectBefore(p, q) && ProjectBefore(q, r) ==> ProjectBefore(p, r)
    ensures ProjectBefore(p, q) <==> q.createdAt < p.createdAt
    ensures !ProjectBefore(p, q) && !ProjectBefore(q, p) <==> p.createdAt == q.createdAt
  {
  }

  /** The comment order is a strict weak order on creation time, oldest first. */
  lemma CommentOrderOldestFirst(c: TaskComment, d: TaskComment, e: TaskComment)
    ensures !CommentBefore(c, c)
    ensures CommentBefore(c, d) && CommentBefore(d, e) ==> CommentBefore(c, e)
    ensures CommentBefore(c, d) <==> c.createdAt < d.createdAt
    ensures !CommentBefore(c, d) && !CommentBefore(d, c) <==> c.createdAt == d.createdAt
  {
  }

  // ---- get_task_stats ----

  /**
   * `self.tasks.all()`: the rows of the task table that belong to project `p`.
   * The related manager returns them by `Task.Meta.ordering` (`order`, then
   * newest first). The model keeps the table's order instead: the statistics
   * only count rows, and a count does not depend on the order.
   */
  function ProjectTasks(table: seq<Task>, p: ProjectId): (r: seq<Task>)
    ensures |r| <= |table|
    ensures forall t :: t in r <==> t in table && t.project == p
    ensures forall t :: multiset(r)[t] == if t.project == p then multiset(table)[t] else 0
  {
    if table == [] then []
    else
      assert table == [table[0]] + table[1..];
      (if table[0].project == p then [table[0]] else []) + ProjectTasks(table[1..], p)
  }

  /** The statuses of `tasks`, position by position. */
  function Statuses(tasks: seq<Task>): (r: seq<TaskStatus>)
    ensures |r| == |tasks|
  {
    seq(|tasks|, i requires 0 <= i < |tasks| => tasks[i].status)
  }

  /** `tasks.filter(status=s).count()`: how many of the tasks have status `s`. */
  function CountStatus(tasks: seq<Task>, s: TaskStatus): (n: nat)
    ensures n <= |tasks|
    ensures n == multiset(Statuses(tasks))[s]
    ensures n == 0 <==> forall i :: 0 <= i < |tasks| ==> tasks[i].status != s
  {
    if tasks == [] then 0
    else
      assert Statuses(tasks) == [tasks[0].status] + Statuses(tasks[1..]);
      (if tasks[0].status == s then 1 else 0) + CountStatus(tasks[1..], s)
  }

  /** Every task has one of the three statuses, so the three counts add up to the number of tasks. */
  lemma {:induction false} CountsPartition(tasks: seq<Task>)
    ensures CountStatus(tasks, Done) + CountStatus(tasks, InProgress) + CountStatus(tasks, Todo) == |tasks|
  {
    if tasks != [] {
      CountsPartition(tasks[1..]);
    }
  }

  /** All tasks are counted as DONE exactly when every task is DONE. */
  lemma {:induction false} AllDoneCount(tasks: seq<Task>)
    ensures CountStatus(tasks, Done) == |tasks| <==> forall i :: 0 <= i < |tasks| ==> tasks[i].status == Done
  {
    if tasks != [] {
      AllDoneCount(tasks[1..]);
      assert forall i :: 1 <= i < |tasks| ==> tasks[i] == tasks[1..][i - 1];
    }
  }

  /** The dictionary `get_task_stats` returns; the completion rate is an exact real. */
  datatype TaskStats = TaskStats(
    totalTasks: nat,
    completedTasks: nat,
    inProgressTasks: nat,
    todoTasks: nat,
    completionRate: real)

  /** A fraction of a positive whole lies in [0, 1] and is 1 exactly for the whole. */
  lemma FractionBounds(c: real, t: real)
    requires 0.0 <= c <= t && 0.0 < t
    ensures 0.0 <= c / t <= 1.0
    ensures c / t == 1.0 <==> c == t
  {
    var q := c / t;
    assert q * t == c;
    assert (q - 1.0) * t == c - t;
    assert (1.0 - q) * t >= 0.0;
    assert q * t >= 0.0;
    if q == 1.0 {
      assert c == 1.0 * t;
    }
    if c == t {
      assert q == t / t == 1.0;
    }
  }

  /** `completed / total * 100` when there are tasks, 0 otherwise. */
  function CompletionRate(completed: nat, total: nat): (rate: real)
    requires completed <= total
    ensures total == 0 ==> rate == 0.0
    ensures total > 0 ==> rate * (total as real) == (completed as real) * 100.0
    ensures 0.0 <= rate <= 100.0
    ensures rate == 100.0 <==> total > 0 && completed == total
  {
    if total > 0 then
      var c, t := completed as real, total as real;
      FractionBounds(c, t);
      c / t * 100.0
    else 0.0
  }

  /** Task statistics over the tasks of project `p`. */
  function GetTaskStats(table: seq<Task>, p: ProjectId): (st: TaskStats)
    ensures var tasks := ProjectTasks(table, p);
      && st.totalTasks == |tasks|
      && st.completedTasks == CountStatus(tasks, Done)
      && st.inProgressTasks == CountStatus(tasks, InProgress)
      && st.todoTasks == CountStatus(tasks, Todo)
    ensures st.completedTasks + st.inProgressTasks + st.todoTasks == st.totalTasks
    ensures st.completionRate == CompletionRate(st.completedTasks, st.totalTasks)
    ensures 0.0 <= st.completionRate <= 100.0
    ensures st.completionRate == 100.0 <==>
      |ProjectTasks(table, p)| > 0 && forall i :: 0 <= i < |ProjectTasks(table, p)| ==> ProjectTasks(table, p)[i].status == Done
  {
    var tasks := ProjectTasks(table, p);
    var total, completed := |tasks|, CountStatus(tasks, Done);
    CountsPartition(tasks);
    AllDoneCount(tasks);
    var rate := CompletionRate(completed, total);
    assert rate == 100.0 <==> total > 0 && completed == total;
    TaskStats(total, completed, CountStatus(tasks, InProgress), CountStatus(tasks, Todo), rate)
  }

  /** The four tasks of the model test: TODO, IN_PROGRESS, DONE, DONE, all in project `p`. */
  function ExampleTable(p: ProjectId, now: Timestamp): seq<Task>
  {
    [Task(p, "Task 1", "", Todo, Medium, None, None, 0, now, now),
     Task(p, "Task 2", "", InProgress, Medium, None, None, 0, now, now),
     Task(p, "Task 3", "", Done, Medium, None, None, 0, now, now),
     Task(p, "Task 4", "", Done, Medium, None, None, 0, now, now)]
  }

  /** A table holding only tasks of project `p` is kept whole, in order. */
  lemma {:induction false} SingleProjectKept(table: seq<Task>, p: ProjectId)
    requires forall i :: 0 <= i < |table| ==> table[i].project == p
    ensures ProjectTasks(table, p) == table
  {
    if table != [] {
      SingleProjectKept(table[1..], p);
      assert [table[0]] + table[1..] == table;
    }
  }

  lemma ExampleDoneCount(p: ProjectId, now: Timestamp)
    ensures CountStatus(ExampleTable(p, now), Done) == 2
  {
    var table := ExampleTable(p, now);
    assert CountStatus(table[3..], Done) == 1;
    assert CountStatus(table[2..], Done) == 2;
    assert CountStatus(table[1..], Done) == 2;
  }

  lemma ExampleOpenCounts(p: ProjectId, now: Timestamp)
    ensures CountStatus(ExampleTable(p, now), InProgress) == 1
    ensures CountStatus(ExampleTable(p, now), Todo) == 1
  {
    var table := ExampleTable(p, now);
    assert CountStatus(table[3..], InProgress) == 0;
    assert CountStatus(table[2..], InProgress) == 0;
    assert CountStatus(table[1..], InProgress) == 1;
    assert CountStatus(table[3..], Todo) == 0;
    assert CountStatus(table[2..], Todo) == 0;
    assert CountStatus(table[1..], Todo) == 0;
  }

  /** The model test's four tasks: totals 4/2/1/1 and a completion rate of 50. */
  lemma StatsExample(p: ProjectId, now: Timestamp)
    ensures GetTaskStats(ExampleTable(p, now), p) == TaskStats(4, 2, 1, 1, 50.0)
  {
    SingleProjectKept(ExampleTable(p, now), p);
    ExampleDoneCount(p, now);
    ExampleOpenCounts(p, now);
    assert CompletionRate(2, 4) == 50.0;
  }
}
