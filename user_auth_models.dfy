/** The user model and its manager in the `user_auth` app
    (backend/user_auth/models.py). Its user has no verification flag, and its name
    helpers fall back to the e-mail. */
module UserAuthModels {
  import opened Wrappers
  import AuthModels

  /** The user columns that the manager and helpers read or write. */
  datatype User = User(
    email: string,
    username: string,
    firstName: string,
    lastName: string,
    userType: string,
    isStaff: bool,
    isSuperuser: bool,
    isActive: bool)

  /** The `**extra_fields` of the manager; `None` is an absent key. */
  datatype ExtraFields = ExtraFields(
    firstName: Option<string>,
    lastName: Option<string>,
    userType: Option<string>,
    isStaff: Option<bool>,
    isSuperuser: Option<bool>,
    isActive: Option<bool>)

  const NoExtraFields := ExtraFields(None, None, None, None, None, None)

  /** `create_user`: rejects a missing or empty e-mail; otherwise the e-mail is
      normalised, the username is the e-mail, names default to '', and the other
      columns take the model defaults (customer, active, not staff). */
  function CreateUser(email: Option<string>, extra: ExtraFields): (r: Result<User, string>)
    ensures r.Err? <==> !TruthyStr(email)
    ensures r.Err? ==> r.error == "Users must have an email address"
    ensures r.Ok? ==> r.value.email == AuthModels.NormalizeEmail(email.value) && r.value.username == r.value.email
    ensures r.Ok? ==> r.value.firstName == AuthModels.Get(extra.firstName, "")
    ensures r.Ok? ==> r.value.lastName == AuthModels.Get(extra.lastName, "")
    ensures r.Ok? ==> r.value.userType == AuthModels.Get(extra.userType, "customer")
    ensures r.Ok? ==> r.value.isStaff == AuthModels.Get(extra.isStaff, false)
    ensures r.Ok? ==> r.value.isSuperuser == AuthModels.Get(extra.isSuperuser, false)
    ensures r.Ok? ==> r.value.isActive == AuthModels.Get(extra.isActive, true)
  {
    if !TruthyStr(email) then Err("Users must have an email address")
    else
      var normalized := AuthModels.NormalizeEmail(email.value);
      Ok(User(normalized, normalized, AuthModels.Get(extra.firstName, ""), AuthModels.Get(extra.lastName, ""),
        AuthModels.Get(extra.userType, "customer"), AuthModels.Get(extra.isStaff, false),
        AuthModels.Get(extra.isSuperuser, false), AuthModels.Get(extra.isActive, true)))
  }

  /** `create_superuser`: staff, superuser, active and 'admin' are the defaults; an
      explicit false for staff or superuser is rejected, staff first. */
  function CreateSuperuser(email: Option<string>, extra: ExtraFields): (r: Result<User, string>)
    ensures extra.isStaff == Some(false) ==> r == Err("Superuser must have is_staff=True.")
    ensures extra.isStaff != Some(false) && extra.isSuperuser == Some(false) ==>
      r == Err("Superuser must have is_superuser=True.")
    ensures extra.isStaff != Some(false) && extra.isSuperuser != Some(false) ==> r == CreateUser(email,
      ExtraFields(extra.firstName, extra.lastName, Some(AuthModels.Get(extra.userType, "admin")),
        Some(true), Some(true), Some(AuthModels.Get(extra.isActive, true))))
  {
    var staff := AuthModels.Get(extra.isStaff, true);
    var superuser := AuthModels.Get(extra.isSuperuser, true);
    var filled := ExtraFields(extra.firstName, extra.lastName, Some(AuthModels.Get(extra.userType, "admin")),
      Some(staff), Some(superuser), Some(AuthModels.Get(extra.isActive, true)));
    if !staff then Err("Superuser must have is_staff=True.")
    else if !superuser then Err("Superuser must have is_superuser=True.")
    else CreateUser(email, filled)
  }

  /** A superuser created without extra fields is an active admin with staff and
      superuser rights, whose username is its e-mail. */
  lemma SuperuserDefaults(email: string)
    requires email != ""
    ensures CreateSuperuser(Some(email), NoExtraFields).Ok?
    ensures var u := CreateSuperuser(Some(email), NoExtraFields).value;
      u.isStaff && u.isSuperuser && u.isActive && u.userType == "admin" && u.username == u.email
  {
  }

  /** `get_full_name`: "first last" when both are set, the first name alone when only
      it is set, and otherwise the e-mail, even when a last name is set. */
  function GetFullName(u: User): (r: string)
    ensures u.firstName != "" && u.lastName != "" ==> r == u.firstName + " " + u.lastName
    ensures u.firstName != "" && u.lastName == "" ==> r == u.firstName
    ensures u.firstName == "" ==> r == u.email
  {
    if u.firstName != "" && u.lastName != "" then u.firstName + " " + u.lastName
    else if u.firstName != "" then u.firstName
    else u.email
  }

  /** `get_display_name`: the first name if set, else the e-mail. */
  function GetDisplayName(u: User): (r: string)
    ensures u.firstName != "" ==> r == u.firstName
    ensures u.firstName == "" ==> r == u.email
  {
    if u.firstName != "" then u.firstName else u.email
  }

  /** The display name and the full name agree exactly when the last name is empty
      or the first name is; otherwise the full name extends the display name. */
  lemma DisplayNameIsFullNamePrefix(u: User)
    ensures GetDisplayName(u) <= GetFullName(u)
    ensures GetDisplayName(u) == GetFullName(u) <==> u.firstName == "" || u.lastName == ""
  {
    if u.firstName != "" && u.lastName != "" {
      assert |GetFullName(u)| > |GetDisplayName(u)|;
    }
  }

  /** A user created with an e-mail and no names shows the normalised e-mail as both
      its full name and its display name. */
  lemma NamelessUserShowsEmail(email: string, extra: ExtraFields)
    requires email != ""
    requires extra.firstName.None? || extra.firstName == Some("")
    ensures var u := CreateUser(Some(email), extra).value;
      GetFullName(u) == GetDisplayName(u) == AuthModels.NormalizeEmail(email)
  {
  }
}
