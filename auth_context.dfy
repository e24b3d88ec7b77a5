/** The session state of the front end (frontend/src/context/AuthContext.jsx): the
    stored token and user record, the checks run when the app starts, login, logout,
    profile updates, and the role and display-name helpers. `localStorage` is the
    `storage` map; `JSON.parse` and `JSON.stringify` are parameters. */
module AuthContext {
  import opened Wrappers
  import opened Js

  const TokenKey := "authToken"
  const UserKey := "userData"
  const Anonymous := "Usuario"

  /** What `JSON.parse` makes of the stored user record: an error, `null`, or an
      object. */
  datatype Parsed = ParseError | ParsedNull | ParsedObject(obj: JsObject)

  /** The state `checkAuthStatus` leaves behind. */
  datatype Check = Check(userInfo: Option<JsObject>, isAuthenticated: bool, storage: map<string, string>)

  /** `localStorage.getItem(key)` is a non-empty string (`getItem` gives `null` for
      a missing key). */
  predicate Stored(storage: map<string, string>, key: string) {
    key in storage && storage[key] != ""
  }

  /** `checkAuthStatus`: signed in exactly when both keys hold text and the user
      record parses; a record that does not parse is removed together with the
      token. */
  function Checked(storage: map<string, string>, parse: string -> Parsed): (r: Check)
    ensures r.isAuthenticated <==>
      Stored(storage, TokenKey) && Stored(storage, UserKey) && !parse(storage[UserKey]).ParseError?
    ensures r.isAuthenticated && parse(storage[UserKey]).ParsedObject? ==>
      r.userInfo == Some(parse(storage[UserKey]).obj)
    ensures r.isAuthenticated && parse(storage[UserKey]).ParsedNull? ==> r.userInfo.None?
    ensures !r.isAuthenticated ==> r.userInfo.None?
    ensures Stored(storage, TokenKey) && Stored(storage, UserKey) && parse(storage[UserKey]).ParseError? ==>
      r.storage == storage - {TokenKey, UserKey}
    ensures !(Stored(storage, TokenKey) && Stored(storage, UserKey) && parse(storage[UserKey]).ParseError?) ==>
      r.storage == storage
  {
    if Stored(storage, TokenKey) && Stored(storage, UserKey) then
      match parse(storage[UserKey])
      case ParseError => Check(None, false, storage - {TokenKey, UserKey})
      case ParsedNull => Check(None, true, storage)
      case ParsedObject(u) => Check(Some(u), true, storage)
    else Check(None, false, storage)
  }

  /** `login`: both keys are written. */
  function LoggedIn(storage: map<string, string>, user: JsObject, token: string,
                    stringify: JsObject -> string): (r: map<string, string>)
    ensures TokenKey in r && r[TokenKey] == token
    ensures UserKey in r && r[UserKey] == stringify(user)
    ensures forall k :: k in storage && k != TokenKey && k != UserKey ==> k in r && r[k] == storage[k]
  {
    storage[TokenKey := token][UserKey := stringify(user)]
  }

  /** `updateUserInfo`: `{ ...userInfo, ...newUserInfo }`, where spreading `null`
      adds nothing. */
  function Merged(userInfo: Option<JsObject>, update: JsObject): (r: JsObject)
    ensures forall k :: k in r <==> k in update || (userInfo.Some? && k in userInfo.value)
    ensures forall k :: k in update ==> r[k] == update[k]
    ensures forall k :: k in r && k !in update ==> r[k] == userInfo.value[k]
  {
    if userInfo.Some? then userInfo.value + update else update
  }

  /** `hasRole(role)`. */
  function HasRole(userInfo: Option<JsObject>, role: string): (r: bool)
    ensures userInfo.None? ==> !r
    ensures userInfo.Some? ==> (r <==> FieldIs(userInfo.value, "user_type", role) || FieldIs(userInfo.value, "role", role))
  {
    userInfo.Some? && (FieldIs(userInfo.value, "user_type", role) || FieldIs(userInfo.value, "role", role))
  }

  /** `isAdmin()`. */
  function IsAdmin(userInfo: Option<JsObject>): (r: bool)
    ensures r <==> HasRole(userInfo, "admin") || HasRole(userInfo, "staff")
  {
    HasRole(userInfo, "admin") || HasRole(userInfo, "staff")
  }

  /** `getUserDisplayName()`: the value shown for the signed-in user. */
  function DisplayName(userInfo: Option<JsObject>): (r: JsValue)
    ensures userInfo.None? ==> r == JsStr(Anonymous)
    ensures userInfo.Some? && FieldTruthy(userInfo.value, "first_name") && FieldTruthy(userInfo.value, "last_name") ==>
      r == JsStr(JsText(userInfo.value["first_name"]) + " " + JsText(userInfo.value["last_name"]))
    ensures userInfo.Some? && FieldTruthy(userInfo.value, "first_name") && !FieldTruthy(userInfo.value, "last_name") ==>
      r == userInfo.value["first_name"]
    ensures userInfo.Some? && !FieldTruthy(userInfo.value, "first_name") && FieldTruthy(userInfo.value, "username") ==>
      r == userInfo.value["username"]
    ensures userInfo.Some? && !FieldTruthy(userInfo.value, "first_name") && !FieldTruthy(userInfo.value, "username") ==>
      r == (if FieldTruthy(userInfo.value, "email") then userInfo.value["email"] else JsStr(Anonymous))
  {
    if userInfo.None? then JsStr(Anonymous)
    else
      var u := userInfo.value;
      if FieldTruthy(u, "first_name") && FieldTruthy(u, "last_name") then
        JsStr(JsText(u["first_name"]) + " " + JsText(u["last_name"]))
      else if FieldTruthy(u, "first_name") then u["first_name"]
      else if FieldTruthy(u, "username") then u["username"]
      else if FieldTruthy(u, "email") then u["email"]
      else JsStr(Anonymous)
  }

  /** Whatever the record holds, something non-empty is shown. */
  lemma DisplayNameShown(userInfo: Option<JsObject>)
    ensures JsTruthy(DisplayName(userInfo))
  {
    if userInfo.Some? {
      var u := userInfo.value;
      if FieldTruthy(u, "first_name") && FieldTruthy(u, "last_name") {
        var first := JsText(u["first_name"]);
        assert (first + " " + JsText(u["last_name"]))[|first|] == ' ';
      }
    }
  }

  /** A staff user is an administrator; a customer without another role is not. */
  lemma StaffIsAdmin(u: JsObject)
    ensures FieldIs(u, "user_type", "staff") ==> IsAdmin(Some(u))
    ensures FieldIs(u, "user_type", "customer") && !FieldIs(u, "role", "admin") && !FieldIs(u, "role", "staff") ==>
      !IsAdmin(Some(u))
  {
  }

  /** After `login`, a fresh check restores the same user, provided the token is
      not empty and the record survives its JSON round trip. */
  lemma LoginThenCheck(storage: map<string, string>, user: JsObject, token: string,
                       stringify: JsObject -> string, parse: string -> Parsed)
    requires token != "" && stringify(user) != ""
    requires parse(stringify(user)) == ParsedObject(user)
    ensures var s := LoggedIn(storage, user, token, stringify);
      Checked(s, parse) == Check(Some(user), true, s)
  {
    var s := LoggedIn(storage, user, token, stringify);
    assert Stored(s, TokenKey) && Stored(s, UserKey);
  }

  /** After `logout`, a fresh check finds nobody and leaves the storage alone. */
  lemma LogoutThenCheck(storage: map<string, string>, parse: string -> Parsed)
    ensures var s := storage - {TokenKey, UserKey};
      Checked(s, parse) == Check(None, false, s)
  {
  }

  /** Checking twice gives what checking once gives. */
  lemma CheckIdempotent(storage: map<string, string>, parse: string -> Parsed)
    ensures var once := Checked(storage, parse);
      Checked(once.storage, parse) == once
  {
  }

  /** Updating with a record already merged in changes nothing more. */
  lemma MergeIdempotent(userInfo: Option<JsObject>, update: JsObject)
    ensures Merged(Some(Merged(userInfo, update)), update) == Merged(userInfo, update)
  {
  }

  /** The provider's state: the current user, the flags, and the browser's
      storage. */
  class Session {
    var userInfo: Option<JsObject>
    var isAuthenticated: bool
    var loading: bool
    var storage: map<string, string>

    /** The provider starts with nobody signed in and the check pending. */
    constructor (storage: map<string, string>)
      ensures userInfo.None? && !isAuthenticated && loading && this.storage == storage
    {
      userInfo := None;
      isAuthenticated := false;
      loading := true;
      this.storage := storage;
    }

    /** `checkAuthStatus()`. */
    method CheckAuthStatus(parse: string -> Parsed)
      modifies this
      ensures Check(userInfo, isAuthenticated, storage) == Checked(old(storage), parse)
      ensures !loading
    {
      var r := Checked(storage, parse);
      userInfo := r.userInfo;
      isAuthenticated := r.isAuthenticated;
      storage := r.storage;
      loading := false;
    }

    /** `login(userData, token)`: both keys are written and the user shown, then the
        `auth-change` event it dispatches runs `checkAuthStatus` at once. */
    method Login(user: JsObject, token: string, stringify: JsObject -> string, parse: string -> Parsed)
      modifies this
      ensures Check(userInfo, isAuthenticated, storage) == Checked(LoggedIn(old(storage), user, token, stringify), parse)
      ensures !loading
      ensures token != "" && stringify(user) != "" && parse(stringify(user)) == ParsedObject(user) ==>
        storage == LoggedIn(old(storage), user, token, stringify) && userInfo == Some(user) && isAuthenticated
    {
      storage := LoggedIn(storage, user, token, stringify);
      userInfo := Some(user);
      isAuthenticated := true;
      CheckAuthStatus(parse);
      if token != "" && stringify(user) != "" && parse(stringify(user)) == ParsedObject(user) {
        LoginThenCheck(old(storage), user, token, stringify, parse);
      }
    }

    /** `logout()`: both keys are removed and nobody is shown, then the `auth-change`
        event it dispatches runs `checkAuthStatus` at once. */
    method Logout(parse: string -> Parsed)
      modifies this
      ensures Check(userInfo, isAuthenticated, storage) == Checked(old(storage) - {TokenKey, UserKey}, parse)
      ensures storage == old(storage) - {TokenKey, UserKey}
      ensures userInfo.None? && !isAuthenticated && !loading
    {
      storage := storage - {TokenKey, UserKey};
      userInfo := None;
      isAuthenticated := false;
      CheckAuthStatus(parse);
      LogoutThenCheck(old(storage), parse);
    }

    /** `updateUserInfo(newUserInfo)`: the merged record is shown and stored; the
        signed-in flag is left as it is. */
    method UpdateUserInfo(update: JsObject, stringify: JsObject -> string)
      modifies this
      ensures userInfo == Some(Merged(old(userInfo), update))
      ensures storage == old(storage)[UserKey := stringify(Merged(old(userInfo), update))]
      ensures isAuthenticated == old(isAuthenticated) && loading == old(loading)
    {
      var merged := Merged(userInfo, update);
      storage := storage[UserKey := stringify(merged)];
      userInfo := Some(merged);
    }

    /** `getAuthToken()`: the stored token, `None` for `null`. */
    function GetAuthToken(): (r: Option<string>)
      reads this
      ensures r.Some? <==> TokenKey in storage
      ensures r.Some? ==> r.value == storage[TokenKey]
    {
      if TokenKey in storage then Some(storage[TokenKey]) else None
    }
  }
}
