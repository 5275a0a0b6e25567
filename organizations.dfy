/**
 * Organizations, their memberships and their webhooks
 * (backend/apps/organizations/models.py).
 *
 * The records are values; the database's column constraints (declared
 * `max_length`s and `unique` flags) are the error cases of the functions
 * that create or insert a row.
 */
module Organizations {
  import opened Wrappers

  type UserId = nat
  type OrgId = nat

  /** What the database answers when a row breaks a column constraint. */
  datatype DbError =
    | ValueTooLong(field: string)     // a character column longer than its max_length
    | UniqueViolation(field: string)  // a second row with the same value in a unique column
    | CheckViolation(field: string)   // a value outside the column's CHECK, e.g. a negative positive-integer
    | OutOfRange(field: string)       // a number the column's 32-bit integer type cannot hold

  /** OrganizationMember.Role: the four choices of the role column. */
  datatype Role = Owner | Admin | Member | Viewer

  /** The value each role choice is stored as. */
  function RoleName(r: Role): string
  {
    match r
    case Owner => "OWNER"
    case Admin => "ADMIN"
    case Member => "MEMBER"
    case Viewer => "VIEWER"
  }

  /** Reads a stored role value back; anything but the four choices is not a role. */
  function ParseRole(s: string): (r: Option<Role>)
    ensures r.Some? ==> RoleName(r.value) == s
    ensures r.None? <==> forall x: Role :: RoleName(x) != s
  {
    if s == "OWNER" then Some(Owner)
    else if s == "ADMIN" then Some(Admin)
    else if s == "MEMBER" then Some(Member)
    else if s == "VIEWER" then Some(Viewer)
    else None
  }

  /** Every role is stored under its own name and read back as itself. */
  lemma RoleNameRoundTrip(r: Role)
    ensures ParseRole(RoleName(r)) == Some(r)
  {
  }

  /** The role a membership gets when none is given. */
  const DefaultRole: Role := Member

  /** One (user, organization, role) fact. */
  datatype OrganizationMember = OrganizationMember(user: UserId, organization: OrgId, role: Role)

  /** Creates a membership; without an explicit role it is a MEMBER. */
  function NewMember(user: UserId, organization: OrgId, role: Option<Role>): (m: OrganizationMember)
    ensures m.user == user && m.organization == organization
    ensures role.Some? ==> m.role == role.value
    ensures role.None? ==> m.role == Member
  {
    OrganizationMember(user, organization, if role.Some? then role.value else DefaultRole)
  }

  /** An organization row. `uid` may be blank, and a blank uid is still a value of a unique column. */
  datatype Organization = Organization(name: string, slug: string, uid: string, contactEmail: string)

  const OrganizationNameMaxLength: nat := 100
  const UidMaxLength: nat := 12

  /** The slugs and the uids of distinct organizations differ. */
  ghost predicate UniqueKeys(table: map<OrgId, Organization>)
  {
    forall a, b :: a in table && b in table && a != b ==>
      table[a].slug != table[b].slug && table[a].uid != table[b].uid
  }

  /**
   * Inserts an organization under a fresh primary key, as the database does:
   * rejected when a column is too long or when its slug or uid is already taken.
   */
  function InsertOrganization(table: map<OrgId, Organization>, id: OrgId, o: Organization)
    : (r: Result<map<OrgId, Organization>, DbError>)
    requires id !in table
    ensures r.Ok? <==>
      && |o.name| <= OrganizationNameMaxLength && |o.uid| <= UidMaxLength
      && (forall k :: k in table ==> table[k].slug != o.slug)
      && (forall k :: k in table ==> table[k].uid != o.uid)
    ensures r.Ok? ==> r.value.Keys == table.Keys + {id} && r.value[id] == o
    ensures r.Ok? ==> forall k :: k in table ==> r.value[k] == table[k]
    ensures r.Ok? && UniqueKeys(table) ==> UniqueKeys(r.value)
  {
    if |o.name| > OrganizationNameMaxLength then Err(ValueTooLong("name"))
    else if |o.uid| > UidMaxLength then Err(ValueTooLong("uid"))
    else if exists k :: k in table && table[k].slug == o.slug then Err(UniqueViolation("slug"))
    else if exists k :: k in table && table[k].uid == o.uid then Err(UniqueViolation("uid"))
    else Ok(table[id := o])
  }

  /**
   * No code fills in `slug` or `uid`, so two organizations created without them
   * both carry the blank value and the second insert is refused.
   */
  lemma SecondBlankSlugRejected(table: map<OrgId, Organization>, id1: OrgId, id2: OrgId,
                                o1: Organization, o2: Organization)
    requires id1 !in table && id2 !in table && id1 != id2
    requires o1.slug == "" && o2.slug == ""
    requires InsertOrganization(table, id1, o1).Ok?
    ensures InsertOrganization(InsertOrganization(table, id1, o1).value, id2, o2).Err?
  {
    var t1 := InsertOrganization(table, id1, o1).value;
    assert id1 in t1 && t1[id1].slug == o2.slug;
  }

  /** A webhook subscription row; `events` is the JSON list of subscribed event kinds. */
  datatype Webhook = Webhook(organization: OrgId, url: string, secret: string, events: seq<string>, isActive: bool)

  const WebhookUrlMaxLength: nat := 500
  const WebhookSecretMaxLength: nat := 255

  /** Creates a webhook row: `events` defaults to the empty list and `is_active` to true. */
  function NewWebhook(organization: OrgId, url: string, secret: string,
                      events: Option<seq<string>>, isActive: Option<bool>): (r: Result<Webhook, DbError>)
    ensures r.Ok? <==> |url| <= WebhookUrlMaxLength && |secret| <= WebhookSecretMaxLength
    ensures r.Ok? ==> r.value.organization == organization && r.value.url == url && r.value.secret == secret
    ensures r.Ok? ==> r.value.events == (if events.Some? then events.value else [])
    ensures r.Ok? ==> r.value.isActive == (isActive.None? || isActive.value)
  {
    if |url| > WebhookUrlMaxLength then Err(ValueTooLong("url"))
    else if |secret| > WebhookSecretMaxLength then Err(ValueTooLong("secret"))
    else Ok(Webhook(organization, url, secret,
                    if events.Some? then events.value else [],
                    if isActive.Some? then isActive.value else true))
  }
}
