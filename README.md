# OrgaFlow authorization and webhook core, in Dafny

OrgaFlow is a multi-tenant project-management backend. Users belong to
organizations through memberships that carry one of four roles: OWNER, ADMIN,
MEMBER and VIEWER. Organizations own projects, projects own tasks, and tasks
own comments. This project models the part of the backend with real logic.
It states and proves that logic's properties:

- **Authorization guards** (`decorators.dfy`). `decorators.py` defines three
  guard decorators for GraphQL resolvers: one for an organization id, one for a
  project id and one for a task id. No resolver in the schema shown here applies
  them; its resolvers use only `login_required`. A guard first refuses an anonymous caller. It then looks up the target and
  the caller's membership in the target's organization. Next it compares the
  role's rank with the required rank in the guards' literal role table. On
  success it runs the resolver with the membership and the looked-up resource.
  The three capability checks (`can_manage_projects`, `can_manage_tasks`,
  `can_view`) are modelled too.
- **Webhook fan-out** (`signals.dfy`). On every task save, the `post_save`
  receiver does the following:
  - picks `task.created` or `task.updated`;
  - selects the active webhooks of the task's organization;
  - builds one JSON payload;
  - sends one POST to each selected webhook whose `events` list holds that kind.

  Each POST is signed with `sha256=` plus the hex HMAC-SHA256 of the exact body,
  keyed with the webhook's secret.
- **Records, defaults and orderings** (`organizations.dfy`, `projects.dfy`):
  - the rows and their choice enums and field defaults;
  - the declared length and uniqueness constraints;
  - the `Meta.ordering` of projects, tasks and comments;
  - `Project.get_task_stats`.
- **Users** (`users.dfy`). The `UserManager` class owns the users table.
  `CreateUser` and `CreateSuperuser` change that table. The file also has
  `get_full_name` and `__str__`.

`store.dfy` is the database snapshot the guards and the receiver read.
`wrappers.dfy` holds `Option` and `Result`.

Modelling choices:

- **Role strings.** `min_role` stays a string, as in the code. An unknown role
  name raises `KeyError`, and only after the membership lookup succeeds.
- **Resolver inside the `try`.** The resolver runs inside the guard's `try`.
  A `DoesNotExist` the resolver raises is therefore rewritten into the guard's
  denial message.
- **Memberships.** Memberships are a map keyed by (user, organization), so a
  user has at most one membership per organization.
- **Library calls as parameters.** `json.dumps`, `str.encode`, HMAC-SHA256 and
  `str(datetime)` are parameters: the fields of `Signals.Library`. The hex
  encoding of the digest is modelled and proved invertible.
- **Threads as an outbox.** A thread started per delivery is modelled as a
  request appended to the outbox that `Signals.TaskUpdated` returns.
- **Column constraints as error results.** A declared `max_length`, a `unique`
  flag or a positive-integer column is treated as a constraint the database
  enforces on save. Each becomes an error result of the function that creates
  or inserts the row.
- **Denial messages.** The organization guard reports a non-member with its
  own message, "You are not a member of this organization". The project and
  task guards give one message both for a missing row and for a row of another
  organization.
- **Flag values.** `create_superuser` accepts a flag only when it `is True`.
  Keyword arguments are therefore Python values (`Users.PyValue`), not
  booleans. Saving a user converts each boolean column's value as Django's
  `BooleanField` does. A bool, 0, 1 and the strings "t", "True", "1", "f",
  "False" and "0" convert. `None` reaches the NOT NULL column and is refused
  there. Any other value is a validation error (`Users.SaveError`).

The code and its tests differ in several places. The model follows the code:

- **Slugs and uids.** No code fills in an organization's slug or uid. The
  tests expect an automatic slug, but two organizations created without one
  collide on the unique slug column (`Organizations.SecondBlankSlugRejected`).
- **Stats keys.** The tests read the statistics under `total`, `completed`,
  `in_progress` and `todo`. The code returns `total_tasks`, `completed_tasks`,
  `in_progress_tasks` and `todo_tasks`, and the model follows the code.
- **Member helpers.** The tests call `can_manage_projects()`,
  `can_manage_members()`, `can_edit_tasks()` and `is_read_only()` as methods
  of a membership. Of these only `can_manage_projects` exists in the code,
  and it is a function of `decorators.py`, not a method. Beside it are
  `can_manage_tasks` and `can_view`. No `can_manage_members`, `can_edit_tasks`
  or `is_read_only` is defined anywhere in the modelled files.

## Model

| member | source | states |
|---|---|---|
| Decorators.RankIsStrictTotalOrder | backend/apps/graphql_api/decorators.py:33-38 | The role table ranks OWNER 3, ADMIN 2, MEMBER 1 and VIEWER 0. Distinct roles get distinct ranks. Its keys are exactly the stored role names. |
| Decorators.RankCheck | backend/apps/graphql_api/decorators.py:40-41 | Nothing is raised exactly when `min_role` is a role name and the member's rank is at least its rank. If the name is known, "Permission denied: <min_role> role required" is raised. Otherwise a KeyError on the name is raised. |
| Decorators.GetMember | backend/apps/graphql_api/decorators.py:7-11 | Returns the caller's membership in the organization, with its stored role. Returns None exactly when there is no such row. |
| Decorators.CapabilitiesAreRankThresholds | backend/apps/graphql_api/decorators.py:13-20 | can_manage_projects, can_manage_tasks and can_view hold exactly for members ranked at least ADMIN, MEMBER and VIEWER. Each implies the next. A VIEWER cannot manage tasks. |
| Decorators.OrganizationAccess | backend/apps/graphql_api/decorators.py:22-49 | An anonymous caller gets "Authentication required". Access is granted iff the caller is authenticated, is a member of the organization, and ranks at least `min_role`. The grant is that membership. A non-member gets the not-a-member message. A member below the required rank gets the role-required message, or KeyError for an unknown role name. |
| Decorators.OrganizationMemberRequired | backend/apps/graphql_api/decorators.py:22-49 | The guard applied to a resolver refuses an anonymous caller before any lookup. |
| Decorators.OrganizationGuardRunsResolverOnGrant | backend/apps/graphql_api/decorators.py:30-47 | The guard returns its decision's error when the decision denies. Otherwise it runs the resolver on the granted membership, and a missing-membership exception from the resolver becomes the not-a-member message. |
| Decorators.ProjectAccess | backend/apps/graphql_api/decorators.py:52-82 | Access is granted iff the caller is authenticated, the project exists, and the caller is a member of the project's organization ranked at least `min_role`. The grant is that membership and the stored project. A missing project and a missing membership both give "Permission denied or project not found". |
| Decorators.ProjectMemberRequired | backend/apps/graphql_api/decorators.py:52-82 | The guard applied to a resolver refuses an anonymous caller before any lookup. |
| Decorators.ProjectGuardRunsResolverOnGrant | backend/apps/graphql_api/decorators.py:60-80 | The guard equals its decision followed by the resolver. A missing project or membership raised by the resolver becomes the project denial. |
| Decorators.TaskAccess | backend/apps/graphql_api/decorators.py:85-115 | Access is granted iff the caller is authenticated, the task exists, and the caller is a member, ranked at least `min_role`, of the organization of the task's project. The grant is that membership and the stored task. A missing task and a missing membership both give "Permission denied or task not found". |
| Decorators.TaskMemberRequired | backend/apps/graphql_api/decorators.py:85-115 | The guard applied to a resolver refuses an anonymous caller before any lookup. |
| Decorators.TaskGuardRunsResolverOnGrant | backend/apps/graphql_api/decorators.py:93-113 | The guard equals its decision followed by the resolver. A missing task or membership raised by the resolver becomes the task denial. |
| Decorators.ProjectAccessIsOrganizationAccess | backend/apps/graphql_api/decorators.py:61-78 | For an existing project, the project guard decides exactly as the organization guard does on the project's organization. Only the resource handed on and the not-a-member message differ. |
| Decorators.TaskAccessIsOrganizationAccess | backend/apps/graphql_api/decorators.py:94-111 | For an existing task, the task guard decides exactly as the organization guard does on the organization of the task's project. |
| Decorators.AnonymousRefusedBeforeLookup | backend/apps/graphql_api/decorators.py:26-28 | All three guards refuse an anonymous caller with "Authentication required", whatever the database holds and whatever role is asked for. |
| Decorators.DenialMessagesDistinct | backend/apps/graphql_api/decorators.py:22-115 | The four fixed messages of the three guards (lines 28, 45, 78 and 111) are pairwise distinct. No role-required message (line 41), whatever name it carries, equals any of them. |
| Decorators.NonMemberAndLowRankDiffer | backend/apps/graphql_api/decorators.py:40-45 | At the organization guard, a non-member and a member of too low a rank get different errors. |
| Decorators.MissingProjectLooksLikeForeignProject | backend/apps/graphql_api/decorators.py:60-78 | A nonexistent project id and a project of another organization produce the identical error, whatever role is asked for. |
| Decorators.LowRankOnProjectIsDistinct | backend/apps/graphql_api/decorators.py:71-78 | A project member of too low a rank gets the role-required message, never the not-found denial. |
| Decorators.MissingTaskLooksLikeForeignTask | backend/apps/graphql_api/decorators.py:93-111 | A nonexistent task id and a task of another organization produce the identical error, whatever role is asked for. |
| Decorators.LowRankOnTaskIsDistinct | backend/apps/graphql_api/decorators.py:104-111 | A task member of too low a rank gets the role-required message, never the not-found denial. |
| Decorators.AccessIsMonotone | backend/apps/graphql_api/decorators.py:33-41 | A caller allowed at `min_role` is allowed at every role of lower or equal rank. So is any member whose role ranks at least as high. |
| Decorators.CapabilitiesMatchGuard | backend/apps/graphql_api/decorators.py:13-22 | can_manage_projects, can_manage_tasks and can_view agree with the organization guard at ADMIN, MEMBER and the default VIEWER. |
| Organizations.ParseRole | backend/apps/organizations/models.py:16-20 | Reading a stored value gives the role whose stored name it is. It gives None exactly for strings that name no role. |
| Organizations.RoleNameRoundTrip | backend/apps/organizations/models.py:16-20 | Every role is read back as itself from its stored name. |
| Organizations.NewMember | backend/apps/organizations/models.py:22-24 | A membership keeps the given user and organization. Its role is the given role, or MEMBER by default. |
| Organizations.InsertOrganization | backend/apps/organizations/models.py:8-13 | Insertion succeeds iff the name fits 100 characters, the uid fits 12, and the slug and uid are not taken. On success it adds exactly the new row and keeps the others. It preserves unique slugs and uids. |
| Organizations.SecondBlankSlugRejected | backend/apps/organizations/models.py:10-11 | Two organizations saved with the blank default slug cannot both be inserted. |
| Organizations.NewWebhook | backend/apps/organizations/models.py:27-34 | Creation succeeds iff the url fits 500 characters and the secret fits 255. `events` defaults to the empty list and `is_active` to true. |
| Projects.ChoiceNamesDistinct | backend/apps/projects/models.py:98-107 | Distinct task statuses and distinct priorities have distinct stored values. |
| Projects.NewProject | backend/apps/projects/models.py:23-57 | Creation succeeds iff the name fits 200 characters. The project keeps its organization, name and creation time. Its status defaults to ACTIVE. |
| Projects.NewTask | backend/apps/projects/models.py:109-152 | Creation succeeds iff the title fits 200 characters and the order lies between 0 and 2147483647. A long title is refused first. Then an order outside the 32-bit `integer` column is out of range, and a negative order inside it breaks the non-negativity check. Status defaults to TODO, priority to MEDIUM and order to 0. One save instant stands for both timestamps. |
| Projects.ProjectOrderNewestFirst | backend/apps/projects/models.py:62 | The project order is a strict weak order: newest first, with ties exactly at equal creation times. |
| Projects.TaskOrderIsStrictWeak | backend/apps/projects/models.py:156 | The task order is irreflexive, transitive and asymmetric. Two tasks are unordered exactly when they share `order` and `created_at`. |
| Projects.TaskOrderKeyFirst | backend/apps/projects/models.py:156 | A smaller `order` sorts first whatever the creation times. |
| Projects.CommentOrderOldestFirst | backend/apps/projects/models.py:198 | The comment order is a strict weak order: oldest first, with ties exactly at equal creation times. |
| Projects.ProjectTasks | backend/apps/projects/models.py:77 | The project's tasks are exactly the table's tasks whose project is `p`, each as often as it occurs in the table. There are no more of them than rows in the table. |
| Projects.SingleProjectKept | backend/apps/projects/models.py:77 | A table holding only tasks of `p` is kept whole and in order. |
| Projects.CountStatus | backend/apps/projects/models.py:79-81 | A status count is the number of tasks with that status: its multiplicity among the tasks' statuses. It is at most the number of tasks, and 0 exactly when no task has that status. |
| Projects.CountsPartition | backend/apps/projects/models.py:78-81 | The DONE, IN_PROGRESS and TODO counts add up to the total. |
| Projects.AllDoneCount | backend/apps/projects/models.py:79-88 | The DONE count equals the total exactly when every task is DONE. |
| Projects.CompletionRate | backend/apps/projects/models.py:88 | The rate is 0 with no tasks. Otherwise rate × total = completed × 100 exactly. It lies in [0, 100] and is 100 exactly when there are tasks and all are completed. |
| Projects.GetTaskStats | backend/apps/projects/models.py:75-89 | The counts are the status counts over the project's tasks and add up to the total. The rate lies in [0, 100] and is 100 exactly when the project has tasks and every one is DONE. |
| Projects.StatsExample | backend/tests/test_models.py:91-108 | Four tasks of one project (TODO, IN_PROGRESS, DONE, DONE) give totals 4, 2, 1, 1 and a rate of 50. |
| Signals.EventKind | backend/apps/projects/signals.py:35 | The event is `task.created` exactly for a creation and `task.updated` exactly for an update. |
| Signals.BuildPayload | backend/apps/projects/signals.py:47-61 | The payload carries the event, the text of `updated_at`, and the task's id, title, stored status and priority. It also carries its project's id and name, and the assignee's email, which is null exactly when there is no assignee. |
| Signals.HexDigest | backend/apps/projects/signals.py:16-20 | The hex digest has two lower-case hex digits per digest byte. |
| Signals.HexRoundTrip | backend/apps/projects/signals.py:16-20 | Decoding the hex text gives back the digest bytes. |
| Signals.HexDigestInjective | backend/apps/projects/signals.py:16-20 | Two digests have the same hex text iff they are equal. |
| Signals.SendWebhook | backend/apps/projects/signals.py:11-28 | The request goes to the webhook's url with the serialized payload as its body. Its headers are Content-Type application/json, the `sha256=` signature over that exact body with the webhook's secret, and User-Agent OrgaFlow-Webhook/1.0. |
| Signals.SignatureVerifies | backend/apps/projects/signals.py:15-24 | A receiver that strips `sha256=` and decodes the hex recovers exactly the HMAC-SHA256 of the body it was sent, keyed with the secret. |
| Signals.SignatureDeterminedByDigest | backend/apps/projects/signals.py:15-24 | Two signature headers are equal iff their HMAC digests are. |
| Signals.ActiveWebhooks | backend/apps/projects/signals.py:39-42 | The selected webhooks are active and belong to the organization. Each such row of the table is kept with its multiplicity, and no other row is. |
| Signals.Subscribed | backend/apps/projects/signals.py:63-66 | The kept webhooks are exactly those whose `events` list holds the event, with their multiplicity. |
| Signals.SelectionIsExact | backend/apps/projects/signals.py:39-66 | A webhook receives a delivery iff it is in the table, is active, belongs to the task's organization and lists the event. It receives as many as its copies in the table. |
| Signals.DefaultWebhookMatchesNothing | backend/apps/organizations/models.py:31-32 | A webhook created with the defaults is active but subscribed to no event, so it never receives a delivery. |
| Signals.DeliveriesShareOneBody | backend/apps/projects/signals.py:63-70 | The k-th delivery goes to the k-th recipient's url. All deliveries carry the same serialized payload, each signed with its own recipient's secret. No recipients means no deliveries. |
| Signals.Dispatch | backend/apps/projects/signals.py:63-70 | The loop leaves the outbox holding one request per webhook that lists the event, in table order. |
| Signals.TaskUpdated | backend/apps/projects/signals.py:32-73 | The outbox is the deliveries of one payload for the saved task to the subscribed active webhooks of the task's organization. |
| Users.SetDefault | backend/apps/users/models.py:25-27 | `setdefault` adds the key with the default only when it is absent and leaves every given value alone. |
| Users.BuildUser | backend/apps/users/models.py:17-19 | The user has the given email and password and the given extra fields. Fields not given default to no full name, not staff, not superuser and active. |
| Users.GetFullName | backend/apps/users/models.py:76-78 | The display name is the full name when there is one, the email (`__str__`) otherwise. It is empty only when both are. |
| Users.SaveError | backend/apps/users/models.py:37-57 | Saving a user fails exactly when a flag does not convert to a boolean, the full name is longer than 255 characters, or the email is taken. The first unconvertible flag, in field order, gives a validation error. Otherwise a long full name gives a data error. Otherwise the first `None` flag gives a NOT NULL error. Otherwise a taken email gives a unique-column error. |
| Users.UserManager.CreateUser | backend/apps/users/models.py:13-21 | A missing or empty email gives "The Email field must be set". Otherwise the user built from the normalized email and the keyword arguments is saved: creation succeeds exactly when saving it raises nothing, and otherwise returns the error the save raises. On every error the table is unchanged. Otherwise exactly the new user, with the normalized email, is appended. The table keeps unique emails. |
| Users.SuperuserDefaults | backend/apps/users/models.py:25-27 | The three `setdefault` calls add `is_staff`, `is_superuser` and `is_active` as True where absent and keep every given value. The staff and superuser flags are then True exactly when the caller did not give another value. |
| Users.SuperuserSaveError | backend/apps/users/models.py:23-34 | Once both flags are exactly True, saving the superuser fails only on `is_active`, the full name or a taken email. An unconvertible `is_active` gives a validation error, and `is_active=None` gives a NOT NULL error. |
| Users.UserManager.CreateSuperuser | backend/apps/users/models.py:23-34 | A staff flag that is not exactly True is refused first, then a superuser flag that is not exactly True. Otherwise the result is what `create_user` does with the flags defaulted to True: the same missing-email error, success exactly when saving the defaulted user raises nothing, and otherwise the error that save raises. A created superuser is staff and superuser, and is active unless told otherwise. |

## Left out

- The HTTP POST, its 5-second timeout, and the thread per delivery are not modelled. A delivery is the request value it would send. The `try`/`except` blocks in the receiver and in `send_webhook` only log, so failures are not modelled.
- `json.dumps`, `str.encode`, HMAC-SHA256 and `str(datetime)` are not unfolded. They are deterministic functions passed in as `Signals.Library`.
- Django's `normalize_email` is a parameter of `Users.UserManager`. Password hashing (`set_password`) is modelled as storing the given password.
- `Users.UserManager.CreateUser`: extra keyword arguments are limited to `is_staff`, `is_superuser`, `is_active` and `full_name`. Other model fields, and unknown names (which Django refuses with TypeError), are left out.
- `Users.UserManager.CreateUser`: `full_name` must be given as a string. Django would convert any other value with `str()` before saving; the model does not take non-string full names.
- `Users.UserManager.CreateSuperuser`: the same limits on extra keyword arguments apply.
- `Projects.ProjectTasks`: keeps the table's order, not `Task.Meta.ordering` (`order`, then newest first, projects/models.py:156). The statistics built on it only count rows.
- `MultipleObjectsReturned` from `OrganizationMember.objects.get` is left out. The memberships map allows at most one row per (user, organization).
- A webhook's `events` column is any JSON value. The model keeps only a JSON list of strings. With a string value the membership test is a substring test, and with a number it raises TypeError; those cases are left out.
- Status, priority and membership role values outside their choices are not representable. Django does not validate choices on save (projects/models.py:123-132, organizations/models.py:24), but the model uses enums. For a stored role outside the choices, every guard raises `KeyError` on the role at its rank lookup (decorators.py:40, 71, 104); the model leaves that path out.
- A new row's `created_at` and `updated_at` come from separate clock reads in Django. The model stamps both with the one save instant `now`.
- `Projects.GetTaskStats` counts over the task table as a sequence in table order. `Store.Db` keeps tasks as a map by id, and the model does not connect the two representations.
- The completion rate is an exact real, not a floating-point number.
- Slug and uid generation, joining by uid, role changes and last-owner protection are not modelled. Webhook registration and secret generation are not modelled either. None of them exists in the modelled files.
- `SlugField` and `EmailField` default lengths (50 and 254) are not modelled. Only the declared `max_length`s of the modelled fields are; the user model's `username` and `avatar_url` are not modelled fields.
- `Project.__str__`, `get_tasks`, `get_comments` and `User.get_organizations` are not modelled: they are display strings and plain queryset accessors.
- The GraphQL schema, the middleware, URL routing and the seed scripts are not part of this model.
- Selected webhooks are delivered in table order. The database gives no order for the unordered `filter`.
