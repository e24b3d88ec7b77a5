/** The user model and its manager in the `auth` app (backend/auth/models.py). */
module AuthModels {
  import opened Wrappers
  import Strings

  /** The user columns that the manager and helpers read or write. */
  datatype User = User(
    email: string,
    username: string,
    firstName: string,
    lastName: string,
    userType: string,
    isStaff: bool,
    isSuperuser: bool,
    isActive: bool,
    isVerified: bool)

  /** The `**extra_fields` of the manager; `None` is an absent key. */
  datatype ExtraFields = ExtraFields(
    firstName: Option<string>,
    lastName: Option<string>,
    userType: Option<string>,
    isStaff: Option<bool>,
    isSuperuser: Option<bool>,
    isActive: Option<bool>,
    isVerified: Option<bool>)

  const NoExtraFields := ExtraFields(None, None, None, None, None, None, None)

  /** The value of an extra field, or the default when the key is absent. */
  function Get<T>(x: Option<T>, d: T): (r: T)
    ensures x.Some? ==> r == x.value
    ensures x.None? ==> r == d
  {
    if x.Some? then x.value else d
  }

  /** The position of the last `@`, if there is one. */
  function LastAt(s: string): (k: Option<nat>)
    ensures k.Some? ==> k.value < |s| && s[k.value] == '@' && '@' !in s[k.value + 1..]
    ensures k.None? ==> '@' !in s
  {
    if s == [] then None
    else if s[|s| - 1] == '@' then Some(|s| - 1)
    else
      var k := LastAt(s[..|s| - 1]);
      assert s == s[..|s| - 1] + [s[|s| - 1]];
      if k.Some? then
        assert s[k.value + 1..] == s[..|s| - 1][k.value + 1..] + [s[|s| - 1]];
        k
      else k
  }

  /** Django's `normalize_email`: the part after the last `@` of the stripped address
      is lower-cased; an address without `@` is returned as given. */
  function NormalizeEmail(email: string): (r: string)
    ensures '@' !in Strings.Strip(email) ==> r == email
  {
    var stripped := Strings.Strip(email);
    var at := LastAt(stripped);
    if at.None? then email else DomainLowered(stripped, at.value)
  }

  /** The address `s` with the part after position `k` lower-cased. */
  function DomainLowered(s: string, k: nat): (r: string)
    requires k < |s|
    ensures |r| == |s| && r[k] == '@' && r[..k] == s[..k]
  {
    s[..k] + "@" + Strings.Lower(s[k + 1..])
  }

  /** For an address without surrounding whitespace, normalising keeps everything up
      to the last `@` and lower-cases the domain after it. */
  lemma NormalizeEmailLowersDomain(email: string, k: nat)
    requires Strings.Strip(email) == email
    requires k < |email| && email[k] == '@' && '@' !in email[k + 1..]
    ensures NormalizeEmail(email) == DomainLowered(email, k)
  {
    LastAtUnique(email, k);
  }

  /** The last `@` is the one with no `@` after it. */
  lemma LastAtUnique(s: string, k: nat)
    requires k < |s| && s[k] == '@' && '@' !in s[k + 1..]
    ensures LastAt(s) == Some(k)
  {
    assert s[k] in s;
  }

  /** `create_user`: rejects a missing or empty e-mail; otherwise the e-mail is
      normalised, the username is the e-mail, names default to '', and the other
      columns take the model defaults (customer, unverified, active, not staff). */
  function CreateUser(email: Option<string>, extra: ExtraFields): (r: Result<User, string>)
    ensures r.Err? <==> !TruthyStr(email)
    ensures r.Err? ==> r.error == "Users must have an email address"
    ensures r.Ok? ==> r.value.email == NormalizeEmail(email.value) && r.value.username == r.value.email
    ensures r.Ok? ==> r.value.firstName == Get(extra.firstName, "") && r.value.lastName == Get(extra.lastName, "")
    ensures r.Ok? ==> r.value.userType == Get(extra.userType, "customer")
    ensures r.Ok? ==> r.value.isStaff == Get(extra.isStaff, false) && r.value.isSuperuser == Get(extra.isSuperuser, false)
    ensures r.Ok? ==> r.value.isActive == Get(extra.isActive, true) && r.value.isVerified == Get(extra.isVerified, false)
  {
    if !TruthyStr(email) then Err("Users must have an email address")
    else
      var normalized := NormalizeEmail(email.value);
      Ok(User(normalized, normalized, Get(extra.firstName, ""), Get(extra.lastName, ""),
        Get(extra.userType, "customer"), Get(extra.isStaff, false), Get(extra.isSuperuser, false),
        Get(extra.isActive, true), Get(extra.isVerified, false)))
  }

  /** A user created without extra fields is an active, unverified customer with
      empty names and no staff rights. */
  lemma NewUserDefaults(email: string)
    requires email != ""
    ensures var u := CreateUser(Some(email), NoExtraFields).value;
      u.userType == "customer" && !u.isVerified && u.isActive && !u.isStaff && !u.isSuperuser
      && u.firstName == "" && u.lastName == ""
  {
  }

  /** `create_superuser`: staff, superuser, active, verified and 'admin' are the
      defaults; an explicit false for staff or superuser is rejected, staff first. */
  function CreateSuperuser(email: Option<string>, extra: ExtraFields): (r: Result<User, string>)
    ensures extra.isStaff == Some(false) ==> r == Err("Superuser must have is_staff=True.")
    ensures extra.isStaff != Some(false) && extra.isSuperuser == Some(false) ==>
      r == Err("Superuser must have is_superuser=True.")
    ensures extra.isStaff != Some(false) && extra.isSuperuser != Some(false) ==>
      r == CreateUser(email, ExtraFields(extra.firstName, extra.lastName, Some(Get(extra.userType, "admin")),
        Some(true), Some(true), Some(Get(extra.isActive, true)), Some(Get(extra.isVerified, true))))
  {
    var staff := Get(extra.isStaff, true);
    var superuser := Get(extra.isSuperuser, true);
    var filled := ExtraFields(extra.firstName, extra.lastName, Some(Get(extra.userType, "admin")),
      Some(staff), Some(superuser), Some(Get(extra.isActive, true)), Some(Get(extra.isVerified, true)));
    if !staff then Err("Superuser must have is_staff=True.")
    else if !superuser then Err("Superuser must have is_superuser=True.")
    else CreateUser(email, filled)
  }

  /** A superuser created without extra fields is a verified, active admin with staff
      and superuser rights, and an administrator by `is_admin_user`. */
  lemma SuperuserDefaults(email: string)
    requires email != ""
    ensures CreateSuperuser(Some(email), NoExtraFields).Ok?
    ensures var u := CreateSuperuser(Some(email), NoExtraFields).value;
      u.isStaff && u.isSuperuser && u.isActive && u.isVerified && u.userType == "admin"
      && IsAdminUser(u) && !IsCustomer(u)
  {
  }

  /** A superuser also needs an e-mail. */
  lemma SuperuserNeedsEmail(extra: ExtraFields)
    requires extra.isStaff != Some(false) && extra.isSuperuser != Some(false)
    ensures CreateSuperuser(None, extra) == Err("Users must have an email address")
    ensures CreateSuperuser(Some(""), extra) == Err("Users must have an email address")
  {
  }

  /** `get_full_name`: "first last" with surrounding whitespace removed. */
  function GetFullName(u: User): string {
    Strings.Strip(u.firstName + " " + u.lastName)
  }

  predicate Clean(s: string) {
    s != [] && !Strings.IsPyWhitespace(s[0]) && !Strings.IsPyWhitespace(s[|s| - 1])
  }

  /** With both names given (without surrounding whitespace) the full name is
      "first last". */
  lemma FullNameBoth(u: User)
    requires Clean(u.firstName) && Clean(u.lastName)
    ensures GetFullName(u) == u.firstName + " " + u.lastName
  {
    var s := u.firstName + " " + u.lastName;
    assert s[0] == u.firstName[0];
    assert s[|s| - 1] == u.lastName[|u.lastName| - 1];
    Strings.StripNoEdgeWhitespace(s);
  }

  /** With only the first name the full name is the first name. */
  lemma FullNameFirstOnly(u: User)
    requires Clean(u.firstName) && u.lastName == ""
    ensures GetFullName(u) == u.firstName
  {
    var s := u.firstName + " " + u.lastName;
    assert s[..|s| - 1] == u.firstName;
    assert Strings.StripStart(s) == s;
    assert Strings.StripEnd(s) == Strings.StripEnd(u.firstName) == u.firstName;
  }

  /** With only the last name the full name is the last name. */
  lemma FullNameLastOnly(u: User)
    requires u.firstName == "" && Clean(u.lastName)
    ensures GetFullName(u) == u.lastName
  {
    var s := u.firstName + " " + u.lastName;
    assert s == [' '] + u.lastName;
    assert s[1..] == u.lastName;
    assert Strings.StripStart(u.lastName) == u.lastName;
    assert Strings.StripStart(s) == u.lastName;
    assert Strings.StripEnd(u.lastName) == u.lastName;
  }

  /** `is_customer`. */
  function IsCustomer(u: User): (r: bool)
    ensures r <==> u.userType == "customer"
  {
    u.userType == "customer"
  }

  /** `is_admin_user`: an 'admin' user type or the superuser flag. */
  function IsAdminUser(u: User): (r: bool)
    ensures r <==> u.userType == "admin" || u.isSuperuser
  {
    u.userType == "admin" || u.isSuperuser
  }

  /** A customer is an administrator only through the superuser flag. */
  lemma CustomerAdminOnlyAsSuperuser(u: User)
    requires IsCustomer(u)
    ensures IsAdminUser(u) <==> u.isSuperuser
  {
  }
}
