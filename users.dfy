/**
 * The email-keyed user model and its manager (backend/apps/users/models.py).
 *
 * `UserManager` owns the users table; `CreateUser` and `CreateSuperuser`
 * change it. Keyword arguments are a dictionary of Python values, because
 * `create_superuser` accepts a flag only when it `is True`.
 */
module Users {
  import opened Wrappers

  /** The Python values a keyword argument can carry in this model. */
  datatype PyValue = PyBool(b: bool) | PyInt(i: int) | PyStr(s: string) | PyNone

  /** A user row; the three flags keep the value they were given. */
  datatype User = User(
    email: string,
    password: Option<string>,   // the password handed to set_password; None leaves it unusable
    fullName: string,
    isStaff: PyValue,
    isSuperuser: PyValue,
    isActive: PyValue)

  datatype UserError =
    | ValueError(message: string)       // raised by the manager before anything is saved
    | ValidationError(field: string)    // a boolean column cannot convert the value it is given
    | DataError(field: string)          // the database refuses a value longer than its column
    | IntegrityError(field: string)     // the database refuses a NULL flag or a second row with the same email

  /** `full_name`'s declared `max_length`. */
  const FullNameMaxLength: nat := 255

  const EmailRequired: string := "The Email field must be set"
  const StaffRequired: string := "Superuser must have is_staff=True."
  const SuperuserRequired: string := "Superuser must have is_superuser=True."

  /** The model fields this model lets `extra_fields` set. */
  const ExtraFieldNames: set<string> := {"is_staff", "is_superuser", "is_active", "full_name"}

  /** Keyword arguments naming only modelled fields, with `full_name` a string. */
  predicate WellTypedExtras(extra: map<string, PyValue>)
  {
    extra.Keys <= ExtraFieldNames && ("full_name" in extra ==> extra["full_name"].PyStr?)
  }

  /** `dict.setdefault(key, value)`: the value is stored only when the key is absent. */
  function SetDefault(m: map<string, PyValue>, key: string, value: PyValue): (r: map<string, PyValue>)
    ensures r.Keys == m.Keys + {key}
    ensures key !in m ==> r[key] == value
    ensures forall k :: k in m ==> r[k] == m[k]
  {
    if key in m then m else m[key := value]
  }

  /**
   * `self.model(email=email, **extra_fields)` then `set_password(password)`.
   * Fields not given keep the model's defaults: no full name, not staff, not
   * superuser, active.
   */
  function BuildUser(email: string, password: Option<string>, extra: map<string, PyValue>): (u: User)
    requires WellTypedExtras(extra)
    ensures u.email == email && u.password == password
    ensures "full_name" in extra ==> u.fullName == extra["full_name"].s
    ensures "full_name" !in extra ==> u.fullName == ""
    ensures u.isStaff == (if "is_staff" in extra then extra["is_staff"] else PyBool(false))
    ensures u.isSuperuser == (if "is_superuser" in extra then extra["is_superuser"] else PyBool(false))
    ensures u.isActive == (if "is_active" in extra then extra["is_active"] else PyBool(true))
  {
    User(email, password,
         if "full_name" in extra then extra["full_name"].s else "",
         if "is_staff" in extra then extra["is_staff"] else PyBool(false),
         if "is_superuser" in extra then extra["is_superuser"] else PyBool(false),
         if "is_active" in extra then extra["is_active"] else PyBool(true))
  }

  /** `str(user)`. */
  function Str(u: User): string
  {
    u.email
  }

  /** `get_full_name`: the full name when it is not empty, the email otherwise. */
  function GetFullName(u: User): (name: string)
    ensures u.fullName != "" ==> name == u.fullName
    ensures u.fullName == "" ==> name == Str(u)
    ensures name == "" <==> u.fullName == "" && u.email == ""
  {
    if u.fullName != "" then u.fullName else u.email
  }

  // ---- user.save() ----

  /**
   * The values `BooleanField.to_python` converts: a bool, the ints 0 and 1
   * (equal to False and True), and the strings "t", "True", "1", "f", "False", "0".
   */
  predicate BooleanConvertible(v: PyValue)
  {
    match v
    case PyBool(_) => true
    case PyInt(i) => i == 0 || i == 1
    case PyStr(s) => s in {"t", "True", "1", "f", "False", "0"}
    case PyNone => false
  }

  /** A flag value the conversion refuses. `None` is not converted: it reaches the NOT NULL column. */
  predicate Unconvertible(v: PyValue)
  {
    !v.PyNone? && !BooleanConvertible(v)
  }

  /** The user's three boolean columns, in the model's field order. */
  function Flags(u: User): seq<(string, PyValue)>
  {
    [("is_superuser", u.isSuperuser), ("is_staff", u.isStaff), ("is_active", u.isActive)]
  }

  /**
   * What saving `u` into `users` raises, if anything. The field values are
   * prepared in field order first, and a flag the conversion refuses raises
   * there. The INSERT then fails on a full name longer than its column, then
   * on a NULL flag, and last on an email that is already taken.
   */
  function SaveError(users: seq<User>, u: User): (e: Option<UserError>)
    ensures e.None? <==>
      && (forall i :: 0 <= i < |Flags(u)| ==> BooleanConvertible(Flags(u)[i].1))
      && |u.fullName| <= FullNameMaxLength
      && (forall k :: 0 <= k < |users| ==> users[k].email != u.email)
    ensures e.Some? && e.value.ValidationError? <==> exists i :: 0 <= i < |Flags(u)| && Unconvertible(Flags(u)[i].1)
    ensures e.Some? && e.value.ValidationError? ==>
      exists i :: 0 <= i < |Flags(u)| && Flags(u)[i].0 == e.value.field && Unconvertible(Flags(u)[i].1)
        && forall j :: 0 <= j < i ==> !Unconvertible(Flags(u)[j].1)
    ensures (forall i :: 0 <= i < |Flags(u)| ==> !Unconvertible(Flags(u)[i].1)) && |u.fullName| > FullNameMaxLength ==>
      e == Some(DataError("full_name"))
    ensures (forall i :: 0 <= i < |Flags(u)| ==> !Unconvertible(Flags(u)[i].1)) && |u.fullName| <= FullNameMaxLength
            && (exists i :: 0 <= i < |Flags(u)| && Flags(u)[i].1.PyNone?) ==>
      e.Some? && e.value.IntegrityError? &&
      exists i :: 0 <= i < |Flags(u)| && Flags(u)[i] == (e.value.field, PyNone)
        && forall j :: 0 <= j < i ==> !Flags(u)[j].1.PyNone?
    ensures (forall i :: 0 <= i < |Flags(u)| ==> BooleanConvertible(Flags(u)[i].1)) && |u.fullName| <= FullNameMaxLength
            && (exists k :: 0 <= k < |users| && users[k].email == u.email) ==>
      e == Some(IntegrityError("email"))
  {
    assert Flags(u)[0] == ("is_superuser", u.isSuperuser) && Flags(u)[1] == ("is_staff", u.isStaff)
        && Flags(u)[2] == ("is_active", u.isActive);
    if Unconvertible(u.isSuperuser) then Some(ValidationError("is_superuser"))
    else if Unconvertible(u.isStaff) then Some(ValidationError("is_staff"))
    else if Unconvertible(u.isActive) then Some(ValidationError("is_active"))
    else if |u.fullName| > FullNameMaxLength then Some(DataError("full_name"))
    else if u.isSuperuser.PyNone? then Some(IntegrityError("is_superuser"))
    else if u.isStaff.PyNone? then Some(IntegrityError("is_staff"))
    else if u.isActive.PyNone? then Some(IntegrityError("is_active"))
    else if exists k :: 0 <= k < |users| && users[k].email == u.email then Some(IntegrityError("email"))
    else None
  }

  // ---- create_superuser's keyword arguments ----

  /** The three `setdefault(flag, True)` calls of `create_superuser`, in order. */
  function SuperuserDefaults(extra: map<string, PyValue>): (r: map<string, PyValue>)
    requires WellTypedExtras(extra)
    ensures WellTypedExtras(r)
    ensures r.Keys == extra.Keys + {"is_staff", "is_superuser", "is_active"}
    ensures forall k :: k in extra ==> r[k] == extra[k]
    ensures r["is_staff"] == PyBool(true) <==> FlagAllowsTrue(extra, "is_staff")
    ensures r["is_superuser"] == PyBool(true) <==> FlagAllowsTrue(extra, "is_superuser")
    ensures r["is_active"] == (if "is_active" in extra then extra["is_active"] else PyBool(true))
  {
    SetDefault(SetDefault(SetDefault(extra, "is_staff", PyBool(true)), "is_superuser", PyBool(true)),
               "is_active", PyBool(true))
  }

  /**
   * Once both flags pass the manager's `is True` checks, saving the superuser
   * fails only on `is_active`, on the full name or on a taken email; in
   * particular an explicit `is_active=None` reaches the NOT NULL column.
   */
  lemma SuperuserSaveError(users: seq<User>, email: string, password: Option<string>, extra: map<string, PyValue>)
    requires WellTypedExtras(extra)
    requires FlagAllowsTrue(extra, "is_staff") && FlagAllowsTrue(extra, "is_superuser")
    ensures var u := BuildUser(email, password, SuperuserDefaults(extra));
      var active := if "is_active" in extra then extra["is_active"] else PyBool(true);
      && (SaveError(users, u).None? <==>
           BooleanConvertible(active) && |u.fullName| <= FullNameMaxLength
           && forall k :: 0 <= k < |users| ==> users[k].email != email)
      && (Unconvertible(active) ==> SaveError(users, u) == Some(ValidationError("is_active")))
      && (active == PyNone && |u.fullName| <= FullNameMaxLength ==> SaveError(users, u) == Some(IntegrityError("is_active")))
  {
    var u := BuildUser(email, password, SuperuserDefaults(extra));
    assert u.isStaff == PyBool(true) && u.isSuperuser == PyBool(true);
  }

  /** After `setdefault(flag, True)`, `extra_fields.get(flag) is True` holds: the flag is absent or exactly True. */
  predicate FlagAllowsTrue(extra: map<string, PyValue>, flag: string)
  {
    flag !in extra || extra[flag] == PyBool(true)
  }

  /** No two rows of the table share an email. */
  ghost predicate EmailsUnique(users: seq<User>)
  {
    forall i, j :: 0 <= i < j < |users| ==> users[i].email != users[j].email
  }

  /** `User.objects`: the users table and the two creation routines. */
  class UserManager {
    /** The users table, in insertion order. */
    var users: seq<User>
    /** `normalize_email`, a library routine this model does not unfold. */
    const normalizeEmail: string -> string

    ghost predicate Valid()
      reads this
    {
      EmailsUnique(users)
    }

    constructor (normalizeEmail: string -> string)
      ensures Valid() && users == [] && this.normalizeEmail == normalizeEmail
    {
      users := [];
      this.normalizeEmail := normalizeEmail;
    }

    /**
     * `create_user`: refuses a missing or empty email and creates nothing; otherwise
     * builds the user on the normalized email and saves it, which the database
     * refuses when the full name is longer than its column or the address is taken.
     */
    method CreateUser(email: Option<string>, password: Option<string>, extraFields: map<string, PyValue>)
      returns (r: Result<User, UserError>)
      requires Valid() && WellTypedExtras(extraFields)
      modifies this
      ensures Valid()
      ensures email.None? || email.value == "" ==> r == Err(ValueError(EmailRequired))
      ensures r.Ok? <==>
        email.Some? && email.value != "" &&
        SaveError(old(users), BuildUser(normalizeEmail(email.value), password, extraFields)).None?
      ensures email.Some? && email.value != "" && r.Err? ==>
        r == Err(SaveError(old(users), BuildUser(normalizeEmail(email.value), password, extraFields)).value)
      ensures r.Ok? ==> r.value == BuildUser(normalizeEmail(email.value), password, extraFields)
      ensures r.Ok? ==> Str(r.value) == normalizeEmail(email.value)
      ensures r.Ok? ==> users == old(users) + [r.value]
      ensures r.Err? ==> users == old(users)
    {
      if email.None? || email.value == "" {
        return Err(ValueError(EmailRequired));
      }
      var normalized := normalizeEmail(email.value);
      var user := BuildUser(normalized, password, extraFields);
      var failure := SaveError(users, user);
      if failure.Some? {
        return Err(failure.value);
      }
      users := users + [user];
      r := Ok(user);
    }

    /**
     * `create_superuser`: defaults the three flags to True where they are not
     * given, refuses a staff or superuser flag that is not exactly True, and
     * otherwise creates the user as `CreateUser` does with the defaulted flags.
     */
    method CreateSuperuser(email: Option<string>, password: Option<string>, extraFields: map<string, PyValue>)
      returns (r: Result<User, UserError>)
      requires Valid() && WellTypedExtras(extraFields)
      modifies this
      ensures Valid()
      ensures !FlagAllowsTrue(extraFields, "is_staff") ==> r == Err(ValueError(StaffRequired))
      ensures FlagAllowsTrue(extraFields, "is_staff") && !FlagAllowsTrue(extraFields, "is_superuser") ==>
        r == Err(ValueError(SuperuserRequired))
      ensures FlagAllowsTrue(extraFields, "is_staff") && FlagAllowsTrue(extraFields, "is_superuser") &&
              (email.None? || email.value == "") ==>
        r == Err(ValueError(EmailRequired))
      ensures FlagAllowsTrue(extraFields, "is_staff") && FlagAllowsTrue(extraFields, "is_superuser") ==>
        (r.Ok? <==>
          email.Some? && email.value != "" &&
          SaveError(old(users), BuildUser(normalizeEmail(email.value), password, SuperuserDefaults(extraFields))).None?)
      ensures FlagAllowsTrue(extraFields, "is_staff") && FlagAllowsTrue(extraFields, "is_superuser") &&
              email.Some? && email.value != "" && r.Err? ==>
        r == Err(SaveError(old(users), BuildUser(normalizeEmail(email.value), password, SuperuserDefaults(extraFields))).value)
      ensures r.Ok? ==> r.value.isStaff == PyBool(true) && r.value.isSuperuser == PyBool(true)
      ensures r.Ok? ==> r.value.isActive == (if "is_active" in extraFields then extraFields["is_active"] else PyBool(true))
      ensures r.Ok? ==> r.value.email == normalizeEmail(email.value) && r.value.password == password
      ensures r.Ok? ==> r.value.fullName == BuildUser("", None, extraFields).fullName
      ensures r.Ok? ==> users == old(users) + [r.value]
      ensures r.Err? ==> users == old(users)
    {
      var fields := extraFields;
      fields := SetDefault(fields, "is_staff", PyBool(true));
      fields := SetDefault(fields, "is_superuser", PyBool(true));
      fields := SetDefault(fields, "is_active", PyBool(true));
      if fields["is_staff"] != PyBool(true) {
        return Err(ValueError(StaffRequired));
      }
      if fields["is_superuser"] != PyBool(true) {
        return Err(ValueError(SuperuserRequired));
      }
      r := CreateUser(email, password, fields);
    }
  }
}
