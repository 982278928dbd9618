/**
 * The session provider every page reads: it holds the signed-in user, the
 * `isAuthenticated` and `loading` flags, and the two token slots of the
 * browser store.  Start-up runs the bootstrap (verify the stored token, at
 * most one refresh, then fetch the user); `login`, `register`, the Google
 * callback and `logout` write or clear the slots under fixed rules.  Each
 * backend reply is a parameter, and each handler returns the requests it made.
 */
module AuthContext {
  import opened Wrappers
  import opened Text
  import opened JsValues
  import opened Storage
  import opened Http
  import AuthService
  import AuthForms

  const AUTH_BASE: string := "http://localhost:8000/api/user/auth/"
  const VERIFY_URL: string := AUTH_BASE + "token/verify/"
  const REFRESH_URL: string := AUTH_BASE + "token/refresh/"
  const ME_URL: string := AUTH_BASE + "me/"
  const GOOGLE_URL: string := AUTH_BASE + "google/token/"
  const LOGIN_URL: string := AUTH_BASE + "login/"
  const REGISTER_URL: string := AUTH_BASE + "register/"

  const LOGIN_FAILED: string := "Login failed"
  const GOOGLE_FAILED: string := "Google authentication failed"

  function VerifyFetch(token: string): Fetch { Fetch(POST, VERIFY_URL, Some(Obj([("token", Str(token))])), None) }
  function RefreshFetch(refreshToken: string): Fetch { Fetch(POST, REFRESH_URL, Some(Obj([("refresh", Str(refreshToken))])), None) }
  function MeFetch(token: string): Fetch { Fetch(GET, ME_URL, None, Some(token)) }

  datatype User = User(id: JsValue, name: JsValue, email: JsValue)

  /** How a handler's promise settles: fulfilled, or rejected with an error carrying this message. */
  datatype Outcome = Done | Threw(message: string)

  /** The provider's state together with the browser store. */
  datatype Session = Session(items: map<string, string>, user: Option<User>, isAuthenticated: bool, loading: bool)

  /** The flags agree: authenticated exactly when a user is held. */
  predicate Consistent(s: Session) { s.isAuthenticated <==> s.user.Some? }

  /** Both slots removed, no user, not authenticated, no longer loading. */
  function SignedOut(s: Session): (t: Session)
    ensures t.items == Cleared(s.items) && t.user.None? && !t.isAuthenticated && !t.loading
  {
    Session(Cleared(s.items), None, false, false)
  }

  // ---------------------------------------------------------------------------
  // Bootstrap

  /** The user a `me` reply yields, if it is a successful JSON object. */
  function FetchedUser(me: Exchange): (u: Option<User>)
    ensures u.Some? ==> me.Response? && IsOk(me.status) && me.body.Json?
    ensures u.Some? && Truthy(Prop(me.body.value, "full_name")) ==> u.value.name == Prop(me.body.value, "full_name")
    ensures u.Some? && !Truthy(Prop(me.body.value, "full_name")) ==> u.value.name == Prop(me.body.value, "name")
  {
    if me.Response? && IsOk(me.status) && me.body.Json? && HasProperties(me.body.value) then
      var userData := me.body.value;
      Some(User(Prop(userData, "id"), Or(Prop(userData, "full_name"), Prop(userData, "name")), Prop(userData, "email")))
    else None
  }

  /** `fetchUserData`: a good reply signs the user in; any other outcome drops only `authToken`. */
  function AfterFetchUser(s: Session, me: Exchange): (t: Session)
    ensures !t.loading && Consistent(t)
    ensures t.user == FetchedUser(me)
    ensures SameAt(t.items, s.items, REFRESH_TOKEN)
    ensures t.user.Some? ==> t.items == s.items
    ensures t.user.None? ==> t.items == s.items - {AUTH_TOKEN}
  {
    match FetchedUser(me)
    case Some(u) => s.(user := Some(u), isAuthenticated := true, loading := false)
    case None => s.(items := s.items - {AUTH_TOKEN}, user := None, isAuthenticated := false, loading := false)
  }

  /** The refresh call went out and came back as a readable JSON object. */
  predicate RefreshSucceeds(items: map<string, string>, refresh: Exchange) {
    HasTruthy(items, REFRESH_TOKEN)
    && refresh.Response? && IsOk(refresh.status) && refresh.body.Json? && HasProperties(refresh.body.value)
  }

  /** What the bootstrap stores as the new `authToken`: `String(refreshData.access)`. */
  function NewAccess(refresh: Exchange): string
    requires refresh.Response? && refresh.body.Json?
  {
    ToStr(Prop(refresh.body.value, "access"))
  }

  /** The end state of `checkAuth`, given the verify, refresh and `me` replies. */
  function AfterCheckAuth(s: Session, verify: Exchange, refresh: Exchange, me: Exchange): (t: Session)
    ensures !t.loading
    ensures !HasTruthy(s.items, AUTH_TOKEN) ==> t == s.(loading := false)
    ensures HasTruthy(s.items, AUTH_TOKEN) ==> Consistent(t)
    ensures Consistent(s) ==> Consistent(t)
    ensures HasTruthy(s.items, AUTH_TOKEN) && verify.NetworkError? ==> t == SignedOut(s)
    ensures (HasTruthy(s.items, AUTH_TOKEN) && verify.Response? && !IsOk(verify.status)
             && !RefreshSucceeds(s.items, refresh)) ==> t == SignedOut(s)
    ensures (HasTruthy(s.items, AUTH_TOKEN) && verify.Response? && !IsOk(verify.status)
             && RefreshSucceeds(s.items, refresh)) ==>
        && SameAt(t.items, s.items, REFRESH_TOKEN)
        && (t.user.Some? ==> AUTH_TOKEN in t.items && t.items[AUTH_TOKEN] == NewAccess(refresh))
        && (t.user.None? ==> AUTH_TOKEN !in t.items)
        && t.user == FetchedUser(me)
    ensures (HasTruthy(s.items, AUTH_TOKEN) && verify.Response? && !IsOk(verify.status)
             && RefreshSucceeds(s.items, refresh)) ==>
      t == AfterFetchUser(s.(items := s.items[AUTH_TOKEN := NewAccess(refresh)]), me)
    ensures HasTruthy(s.items, AUTH_TOKEN) && verify.Response? && IsOk(verify.status) ==>
      t == AfterFetchUser(s, me)
    ensures HasTruthy(s.items, AUTH_TOKEN) && t.isAuthenticated ==> AUTH_TOKEN in t.items
  {
    if !HasTruthy(s.items, AUTH_TOKEN) then s.(loading := false)
    else if verify.NetworkError? then SignedOut(s)
    else if IsOk(verify.status) then AfterFetchUser(s, me)
    else if RefreshSucceeds(s.items, refresh) then
      AfterFetchUser(s.(items := s.items[AUTH_TOKEN := NewAccess(refresh)]), me)
    else SignedOut(s)
  }

  /** The requests `checkAuth` makes: none without a token, then verify, at most one refresh, and the `me` read. */
  function CheckAuthCalls(items: map<string, string>, verify: Exchange, refresh: Exchange): (calls: seq<Fetch>)
    ensures calls == [] <==> !HasTruthy(items, AUTH_TOKEN)
    ensures |calls| <= 3
    ensures calls != [] ==> calls[0] == VerifyFetch(items[AUTH_TOKEN])
    ensures |calls| == 3 ==>
      RefreshSucceeds(items, refresh) && calls[1] == RefreshFetch(items[REFRESH_TOKEN]) && calls[2] == MeFetch(NewAccess(refresh))
    ensures HasTruthy(items, AUTH_TOKEN) && verify.Response? && IsOk(verify.status) ==>
      calls == [VerifyFetch(items[AUTH_TOKEN]), MeFetch(items[AUTH_TOKEN])]
    ensures HasTruthy(items, AUTH_TOKEN) && (verify.NetworkError? || (!IsOk(verify.status) && !HasTruthy(items, REFRESH_TOKEN))) ==>
      calls == [VerifyFetch(items[AUTH_TOKEN])]
    ensures HasTruthy(items, AUTH_TOKEN) && verify.Response? && !IsOk(verify.status) && HasTruthy(items, REFRESH_TOKEN) ==>
      |calls| >= 2 && calls[1] == RefreshFetch(items[REFRESH_TOKEN]) && (|calls| == 3 <==> RefreshSucceeds(items, refresh))
  {
    if !HasTruthy(items, AUTH_TOKEN) then []
    else
      var token := items[AUTH_TOKEN];
      if verify.NetworkError? then [VerifyFetch(token)]
      else if IsOk(verify.status) then [VerifyFetch(token), MeFetch(token)]
      else if !HasTruthy(items, REFRESH_TOKEN) then [VerifyFetch(token)]
      else if RefreshSucceeds(items, refresh) then
        [VerifyFetch(token), RefreshFetch(items[REFRESH_TOKEN]), MeFetch(NewAccess(refresh))]
      else [VerifyFetch(token), RefreshFetch(items[REFRESH_TOKEN])]
  }

  // ---------------------------------------------------------------------------
  // Login, registration, Google callback

  /** The message a rejected reply's body yields: a parse failure, a null body's TypeError, or `body[key] || fallback`. */
  function BodyMessage(body: Parsed, key: string, fallback: string): (m: string)
    ensures body.Json? && HasProperties(body.value) && !Truthy(Prop(body.value, key)) ==> m == fallback
    ensures body.Json? && HasProperties(body.value) && Truthy(Prop(body.value, key)) ==> m == ToStr(Prop(body.value, key))
    ensures body.NotJson? ==> m == body.message
  {
    match body
    case NotJson(message) => message
    case Json(v) => if HasProperties(v) then OrText(Prop(v, key), fallback) else PropertyReadMessage(v, key)
  }

  /** Why a login or Google reply is rejected before its data is used, if it is; `None` means a readable JSON object. */
  function ReplyFailure(reply: Exchange, errorKey: string, fallback: string, firstRead: string): (f: Option<string>)
    ensures f.None? <==> reply.Response? && IsOk(reply.status) && reply.body.Json? && HasProperties(reply.body.value)
  {
    match reply
    case NetworkError(message) => Some(message)
    case Response(status, _, body) =>
      if !IsOk(status) then Some(BodyMessage(body, errorKey, fallback))
      else if body.NotJson? then Some(body.message)
      else if !HasProperties(body.value) then Some(PropertyReadMessage(body.value, firstRead))
      else None
  }

  /** `login`'s storage rule: `access`, else the legacy `token`, into `authToken`; `refresh`, independently, into `refreshToken`. */
  function LoginTokens(items: map<string, string>, data: JsValue): (r: map<string, string>)
    ensures AUTH_TOKEN in r <==> AUTH_TOKEN in items || Truthy(Prop(data, "access")) || Truthy(Prop(data, "token"))
    ensures Truthy(Prop(data, "access")) ==> r[AUTH_TOKEN] == ToStr(Prop(data, "access"))
    ensures !Truthy(Prop(data, "access")) && Truthy(Prop(data, "token")) ==> r[AUTH_TOKEN] == ToStr(Prop(data, "token"))
    ensures REFRESH_TOKEN in r <==> REFRESH_TOKEN in items || Truthy(Prop(data, "refresh"))
    ensures Truthy(Prop(data, "refresh")) ==> r[REFRESH_TOKEN] == ToStr(Prop(data, "refresh"))
    ensures forall k :: k != AUTH_TOKEN && k != REFRESH_TOKEN ==> SameAt(r, items, k)
  {
    var withAccess :=
      if Truthy(Prop(data, "access")) then items[AUTH_TOKEN := ToStr(Prop(data, "access"))]
      else if Truthy(Prop(data, "token")) then items[AUTH_TOKEN := ToStr(Prop(data, "token"))]
      else items;
    if Truthy(Prop(data, "refresh")) then withAccess[REFRESH_TOKEN := ToStr(Prop(data, "refresh"))] else withAccess
  }

  /** The user `login` records: the nested `user`'s id and name, its e-mail or the typed one. */
  function LoginUser(data: JsValue, email: string): (u: User)
    ensures u.id == Prop(Prop(data, "user"), "id")
    ensures Truthy(Prop(Prop(data, "user"), "full_name")) ==> u.name == Prop(Prop(data, "user"), "full_name")
    ensures !Truthy(Prop(Prop(data, "user"), "full_name")) ==> u.name == Prop(Prop(data, "user"), "name")
    ensures Truthy(Prop(Prop(data, "user"), "email")) ==> u.email == Prop(Prop(data, "user"), "email")
    ensures !Truthy(Prop(Prop(data, "user"), "email")) ==> u.email == Str(email)
  {
    var user := Prop(data, "user");
    User(Prop(user, "id"), Or(Prop(user, "full_name"), Prop(user, "name")), Or(Prop(user, "email"), Str(email)))
  }

  /** The end state and outcome of `login`. */
  function LoginResult(s: Session, email: string, reply: Exchange): (r: (Session, Outcome))
    ensures !r.0.loading
    ensures Consistent(s) ==> Consistent(r.0)
    ensures r.1.Threw? ==> AUTH_TOKEN !in r.0.items && REFRESH_TOKEN !in r.0.items
    ensures r.1.Threw? ==> r.0.user == s.user && r.0.isAuthenticated == s.isAuthenticated
    ensures r.1.Done? <==> ReplyFailure(reply, "detail", LOGIN_FAILED, "access").None?
    ensures r.1.Done? ==>
      r.0.isAuthenticated && r.0.user.Some? && r.0.items == LoginTokens(Cleared(s.items), reply.body.value)
    ensures r.1.Done? ==> r.0.user == Some(LoginUser(reply.body.value, email))
    ensures ReplyFailure(reply, "detail", LOGIN_FAILED, "access").Some? ==>
      r.1 == Threw(ReplyFailure(reply, "detail", LOGIN_FAILED, "access").value)
    ensures reply.Response? && !IsOk(reply.status) ==> r.1 == Threw(BodyMessage(reply.body, "detail", LOGIN_FAILED))
    ensures forall k :: k != AUTH_TOKEN && k != REFRESH_TOKEN ==> SameAt(r.0.items, s.items, k)
  {
    var cleared := Cleared(s.items);
    match ReplyFailure(reply, "detail", LOGIN_FAILED, "access")
    case Some(m) => (s.(items := cleared, loading := false), Threw(m))
    case None =>
      var data := reply.body.value;
      (Session(LoginTokens(cleared, data), Some(LoginUser(data, email)), true, false), Done)
  }

  /** The payload `register` sends, with the split name. */
  function RegisterPayload(name: string, email: string, password: string): JsValue {
    var names := AuthForms.SplitName(name);
    Obj(RegisterEntries(name, email, password, names.0, names.1))
  }

  /** The entries of the register payload, in the order the request writes them. */
  function RegisterEntries(name: string, email: string, password: string, first: string, last: string): seq<(string, JsValue)> {
    [("email", Str(email)), ("password", Str(password)), ("password2", Str(password)),
     ("full_name", Str(name)), ("first_name", Str(first)), ("last_name", Str(last))]
  }

  /**
   * The register payload carries the e-mail, the password twice and the name
   * as typed, plus a first name without spaces and a last name that rejoin to
   * the trimmed name (a one-word name has an empty last name).
   */
  lemma RegisterPayloadFields(name: string, email: string, password: string)
    ensures var p := RegisterPayload(name, email, password);
      && Prop(p, "email") == Str(email) && Prop(p, "full_name") == Str(name)
      && Prop(p, "password") == Str(password) && Prop(p, "password2") == Str(password)
      && Prop(p, "first_name").Str? && Prop(p, "last_name").Str? && ' ' !in Prop(p, "first_name").s
      && (' ' !in Trim(name) ==> Prop(p, "first_name") == Str(Trim(name)) && Prop(p, "last_name") == Str(""))
      && (' ' in Trim(name) ==> Prop(p, "first_name").s + " " + Prop(p, "last_name").s == Trim(name))
  {
    var names := AuthForms.SplitName(name);
    AuthForms.SplitNameRejoins(name);
    RegisterCredentialsRead(name, email, password, names.0, names.1);
    RegisterNamesRead(name, email, password, names.0, names.1);
  }

  /** The first four fields of the register payload read back as written. */
  lemma RegisterCredentialsRead(name: string, email: string, password: string, first: string, last: string)
    ensures var e := RegisterEntries(name, email, password, first, last);
      && Lookup(e, "email") == Str(email) && Lookup(e, "full_name") == Str(name)
      && Lookup(e, "password") == Str(password) && Lookup(e, "password2") == Str(password)
  {
    var e0 := RegisterEntries(name, email, password, first, last);
    var e1 := e0[1..];
    var e2 := e1[1..];
    var e3 := e2[1..];
    assert e3[0] == ("full_name", Str(name));
    assert Lookup(e3, "full_name") == Str(name);
    assert Lookup(e2, "password2") == Str(password);
    assert Lookup(e2, "full_name") == Lookup(e3, "full_name");
    assert Lookup(e1, "password") == Str(password);
    assert Lookup(e1, "password2") == Lookup(e2, "password2");
    assert Lookup(e1, "full_name") == Lookup(e2, "full_name");
    assert Lookup(e0, "password") == Lookup(e1, "password");
    assert Lookup(e0, "password2") == Lookup(e1, "password2");
    assert Lookup(e0, "full_name") == Lookup(e1, "full_name");
  }

  /** The last two fields of the register payload read back as written. */
  lemma RegisterNamesRead(name: string, email: string, password: string, first: string, last: string)
    ensures var e := RegisterEntries(name, email, password, first, last);
      Lookup(e, "first_name") == Str(first) && Lookup(e, "last_name") == Str(last)
  {
    var e0 := RegisterEntries(name, email, password, first, last);
    var e1 := e0[1..];
    var e2 := e1[1..];
    var e3 := e2[1..];
    var e4 := e3[1..];
    var e5 := e4[1..];
    assert e5 == [("last_name", Str(last))];
    assert Lookup(e4, "first_name") == Str(first);
    assert Lookup(e4, "last_name") == Lookup(e5, "last_name");
    assert Lookup(e3, "first_name") == Lookup(e4, "first_name");
    assert Lookup(e3, "last_name") == Lookup(e4, "last_name");
    assert Lookup(e2, "first_name") == Lookup(e3, "first_name");
    assert Lookup(e2, "last_name") == Lookup(e3, "last_name");
    assert Lookup(e1, "first_name") == Lookup(e2, "first_name");
    assert Lookup(e1, "last_name") == Lookup(e2, "last_name");
    assert Lookup(e0, "first_name") == Lookup(e1, "first_name");
    assert Lookup(e0, "last_name") == Lookup(e1, "last_name");
  }

  /** The end state and outcome of `register`: only a truthy `token` signs the user in. */
  function RegisterResult(s: Session, name: string, email: string, reply: Exchange): (r: (Session, Outcome))
    ensures !r.0.loading
    ensures Consistent(s) ==> Consistent(r.0)
    ensures r.1.Threw? ==> r.0 == s.(loading := false)
    ensures reply.Response? && !IsOk(reply.status) && reply.body.Json? && HasProperties(reply.body.value) ==>
      r.1 == Threw(AuthForms.RegistrationError(reply.body.value))
    ensures AuthForms.RegistrationStatusError(reply).Some? ==> r.1 == Threw(AuthForms.RegistrationStatusError(reply).value)
    ensures r.1.Done? <==> Succeeded(reply) && reply.body.Json? && HasProperties(reply.body.value)
    ensures r.1.Done? && Truthy(Prop(reply.body.value, "token")) ==>
      && r.0.items == s.items[AUTH_TOKEN := ToStr(Prop(reply.body.value, "token"))]
      && r.0.isAuthenticated && r.0.user.Some?
      && r.0.user.value.name == Or(Prop(Prop(reply.body.value, "user"), "name"), Str(name))
      && r.0.user.value.email == Or(Prop(Prop(reply.body.value, "user"), "email"), Str(email))
    ensures r.1.Done? && !Truthy(Prop(reply.body.value, "token")) ==> r.0 == s.(loading := false)
    ensures r.0.items != s.items ==>
      && r.1.Done? && reply.Response? && reply.body.Json? && Truthy(Prop(reply.body.value, "token"))
      && r.0.items == s.items[AUTH_TOKEN := ToStr(Prop(reply.body.value, "token"))]
      && r.0.isAuthenticated
  {
    match AuthForms.RegistrationStatusError(reply)
    case Some(m) => (s.(loading := false), Threw(m))
    case None =>
      match AuthForms.BodyError(reply.body, "token")
      case Some(m) => (s.(loading := false), Threw(m))
      case None =>
        var data := reply.body.value;
        if Truthy(Prop(data, "token")) then
          var user := Prop(data, "user");
          (Session(s.items[AUTH_TOKEN := ToStr(Prop(data, "token"))],
                   Some(User(Prop(user, "id"), Or(Prop(user, "name"), Str(name)), Or(Prop(user, "email"), Str(email)))),
                   true, false), Done)
        else (s.(loading := false), Done)
  }

  /** The Google exchange's storage rule: `access` (with `refresh` alongside), else the legacy `token`. */
  function GoogleTokens(items: map<string, string>, data: JsValue): (r: map<string, string>)
    ensures Truthy(Prop(data, "access")) ==> r == AuthService.StoreTokens(items, Prop(data, "access"), Prop(data, "refresh"))
    ensures !Truthy(Prop(data, "access")) && Truthy(Prop(data, "token")) ==> r == items[AUTH_TOKEN := ToStr(Prop(data, "token"))]
    ensures !Truthy(Prop(data, "access")) ==> SameAt(r, items, REFRESH_TOKEN)
    ensures !Truthy(Prop(data, "access")) && !Truthy(Prop(data, "token")) ==> r == items
  {
    if Truthy(Prop(data, "access")) then AuthService.StoreTokens(items, Prop(data, "access"), Prop(data, "refresh"))
    else if Truthy(Prop(data, "token")) then items[AUTH_TOKEN := ToStr(Prop(data, "token"))]
    else items
  }

  function GooglePayload(token: string, userData: JsValue): (p: JsValue)
    ensures Prop(p, "id_token") == Str(token)
    ensures Prop(p, "email") == Prop(userData, "email") && Prop(p, "full_name") == Prop(userData, "name")
  {
    var e0 := [("id_token", Str(token)), ("email", Prop(userData, "email")), ("full_name", Prop(userData, "name"))];
    var e1 := e0[1..];
    var e2 := e1[1..];
    assert e2 == [("full_name", Prop(userData, "name"))];
    assert Lookup(e1, "email") == Prop(userData, "email");
    assert Lookup(e1, "full_name") == Lookup(e2, "full_name");
    assert Lookup(e0, "email") == Lookup(e1, "email");
    assert Lookup(e0, "full_name") == Lookup(e1, "full_name");
    Obj(e0)
  }

  /**
   * The end state and outcome of `handleGoogleCallback`.  Tokens are stored
   * before the nested `user` is read, so a reply without `user` keeps the tokens
   * and still rejects.
   */
  function GoogleResult(s: Session, userData: JsValue, reply: Exchange): (r: (Session, Outcome))
    ensures r.0.loading == s.loading
    ensures Consistent(s) ==> Consistent(r.0)
    ensures r.1.Done? ==> r.0.isAuthenticated && r.0.user.Some?
    ensures r.1.Threw? ==> r.0.user == s.user && r.0.isAuthenticated == s.isAuthenticated
    ensures !HasProperties(userData) ==> r == (s, Threw(PropertyReadMessage(userData, "email")))
    ensures r.0.items != s.items ==>
      ReplyFailure(reply, "error", GOOGLE_FAILED, "access").None? && r.0.items == GoogleTokens(s.items, reply.body.value)
    ensures HasProperties(userData) && ReplyFailure(reply, "error", GOOGLE_FAILED, "access").Some? ==>
      r == (s, Threw(ReplyFailure(reply, "error", GOOGLE_FAILED, "access").value))
    ensures HasProperties(userData) && ReplyFailure(reply, "error", GOOGLE_FAILED, "access").None? ==>
      && r.0.items == GoogleTokens(s.items, reply.body.value)
      && (r.1.Done? <==> HasProperties(Prop(reply.body.value, "user")))
    ensures r.1.Done? ==>
      ReplyFailure(reply, "error", GOOGLE_FAILED, "access").None?
      && r.0.user == Some(User(Prop(Prop(reply.body.value, "user"), "id"), Prop(Prop(reply.body.value, "user"), "full_name"),
                               Prop(Prop(reply.body.value, "user"), "email")))
  {
    if !HasProperties(userData) then (s, Threw(PropertyReadMessage(userData, "email")))
    else
      match ReplyFailure(reply, "error", GOOGLE_FAILED, "access")
      case Some(m) => (s, Threw(m))
      case None =>
        var data := reply.body.value;
        var stored := s.(items := GoogleTokens(s.items, data));
        var user := Prop(data, "user");
        if !HasProperties(user) then (stored, Threw(PropertyReadMessage(user, "id")))
        else (stored.(user := Some(User(Prop(user, "id"), Prop(user, "full_name"), Prop(user, "email"))),
                      isAuthenticated := true), Done)
  }

  /** Signing out twice is the same as signing out once. */
  lemma SignedOutIdempotent(s: Session)
    ensures SignedOut(SignedOut(s)) == SignedOut(s)
  {
    ClearedIdempotent(s.items);
  }

  // ---------------------------------------------------------------------------
  // The provider

  class AuthProvider {
    var user: Option<User>
    var loading: bool
    var isAuthenticated: bool
    const store: LocalStorage

    predicate Valid()
      reads this
    {
      isAuthenticated <==> user.Some?
    }

    function State(): Session
      reads this, store
    {
      Session(store.items, user, isAuthenticated, loading)
    }

    /** The provider mounts with no user, loading, not authenticated. */
    constructor (store: LocalStorage)
      ensures this.store == store && Valid()
      ensures user.None? && loading && !isAuthenticated
    {
      this.store := store;
      user := None;
      loading := true;
      isAuthenticated := false;
    }

    method SignOut()
      modifies this, store
      ensures State() == SignedOut(old(State()))
    {
      store.RemoveItem(AUTH_TOKEN);
      store.RemoveItem(REFRESH_TOKEN);
      user := None;
      isAuthenticated := false;
      loading := false;
    }

    method FetchUserData(token: string, me: Exchange) returns (call: Fetch)
      modifies this, store
      ensures call == MeFetch(token)
      ensures State() == AfterFetchUser(old(State()), me)
    {
      call := MeFetch(token);
      if me.Response? && IsOk(me.status) && me.body.Json? && HasProperties(me.body.value) {
        var userData := me.body.value;
        user := Some(User(Prop(userData, "id"), Or(Prop(userData, "full_name"), Prop(userData, "name")), Prop(userData, "email")));
        isAuthenticated := true;
      } else {
        store.RemoveItem(AUTH_TOKEN);
        user := None;
        isAuthenticated := false;
      }
      loading := false;
    }

    method CheckAuth(verify: Exchange, refresh: Exchange, me: Exchange) returns (calls: seq<Fetch>)
      requires Valid()
      modifies this, store
      ensures State() == AfterCheckAuth(old(State()), verify, refresh, me)
      ensures calls == CheckAuthCalls(old(store.items), verify, refresh)
      ensures Valid()
    {
      var token := GetItem(store.items, AUTH_TOKEN);
      if token.Some? && token.value != "" {
        if verify.NetworkError? {
          calls := [VerifyFetch(token.value)];
          SignOut();
          return;
        }
        if !IsOk(verify.status) {
          var refreshToken := GetItem(store.items, REFRESH_TOKEN);
          if refreshToken.Some? && refreshToken.value != "" {
            if refresh.Response? && IsOk(refresh.status) && refresh.body.Json? && HasProperties(refresh.body.value) {
              var access := ToStr(Prop(refresh.body.value, "access"));
              store.SetItem(AUTH_TOKEN, access);
              var call := FetchUserData(access, me);
              calls := [VerifyFetch(token.value), RefreshFetch(refreshToken.value), call];
              return;
            }
            calls := [VerifyFetch(token.value), RefreshFetch(refreshToken.value)];
          } else {
            calls := [VerifyFetch(token.value)];
          }
          SignOut();
          return;
        }
        var call := FetchUserData(token.value, me);
        calls := [VerifyFetch(token.value), call];
      } else {
        calls := [];
        loading := false;
      }
    }

    method Login(email: string, password: string, reply: Exchange) returns (call: Fetch, outcome: Outcome)
      requires Valid()
      modifies this, store
      ensures call == Fetch(POST, LOGIN_URL, Some(Obj([("email", Str(email)), ("password", Str(password))])), None)
      ensures (State(), outcome) == LoginResult(old(State()), email, reply)
      ensures Valid()
    {
      loading := true;
      store.RemoveItem(AUTH_TOKEN);
      store.RemoveItem(REFRESH_TOKEN);
      assert store.items == Cleared(old(store.items));
      call := Fetch(POST, LOGIN_URL, Some(Obj([("email", Str(email)), ("password", Str(password))])), None);
      var failure := ReplyFailure(reply, "detail", LOGIN_FAILED, "access");
      if failure.Some? {
        outcome := Threw(failure.value);
      } else {
        var data := reply.body.value;
        if Truthy(Prop(data, "access")) {
          store.SetItem(AUTH_TOKEN, ToStr(Prop(data, "access")));
        } else if Truthy(Prop(data, "token")) {
          store.SetItem(AUTH_TOKEN, ToStr(Prop(data, "token")));
        }
        if Truthy(Prop(data, "refresh")) {
          store.SetItem(REFRESH_TOKEN, ToStr(Prop(data, "refresh")));
        }
        assert store.items == LoginTokens(Cleared(old(store.items)), data);
        user := Some(LoginUser(data, email));
        isAuthenticated := true;
        outcome := Done;
      }
      loading := false;
    }

    method Register(name: string, email: string, password: string, reply: Exchange) returns (call: Fetch, outcome: Outcome)
      requires Valid()
      modifies this, store
      ensures call == Fetch(POST, REGISTER_URL, Some(RegisterPayload(name, email, password)), None)
      ensures (State(), outcome) == RegisterResult(old(State()), name, email, reply)
      ensures Valid()
    {
      ghost var s0 := State();
      ghost var expected := RegisterResult(s0, name, email, reply);
      loading := true;
      call := Fetch(POST, REGISTER_URL, Some(RegisterPayload(name, email, password)), None);
      var failure := AuthForms.RegistrationStatusError(reply);
      if failure.Some? {
        outcome := Threw(failure.value);
        assert expected == (s0.(loading := false), outcome);
      } else {
        failure := AuthForms.BodyError(reply.body, "token");
        if failure.Some? {
          outcome := Threw(failure.value);
          assert expected == (s0.(loading := false), outcome);
        } else {
          var data := reply.body.value;
          if Truthy(Prop(data, "token")) {
            store.SetItem(AUTH_TOKEN, ToStr(Prop(data, "token")));
            var u := Prop(data, "user");
            user := Some(User(Prop(u, "id"), Or(Prop(u, "name"), Str(name)), Or(Prop(u, "email"), Str(email))));
            isAuthenticated := true;
          }
          outcome := Done;
        }
      }
      loading := false;
    }

    method HandleGoogleCallback(token: string, userData: JsValue, reply: Exchange) returns (calls: seq<Fetch>, outcome: Outcome)
      requires Valid()
      modifies this, store
      ensures calls == if HasProperties(userData) then [Fetch(POST, GOOGLE_URL, Some(GooglePayload(token, userData)), None)] else []
      ensures (State(), outcome) == GoogleResult(old(State()), userData, reply)
      ensures Valid()
    {
      if !HasProperties(userData) {
        calls := [];
        outcome := Threw(PropertyReadMessage(userData, "email"));
        return;
      }
      calls := [Fetch(POST, GOOGLE_URL, Some(GooglePayload(token, userData)), None)];
      var failure := ReplyFailure(reply, "error", GOOGLE_FAILED, "access");
      if failure.Some? {
        outcome := Threw(failure.value);
        return;
      }
      var data := reply.body.value;
      if Truthy(Prop(data, "access")) {
        AuthService.StoreTokenPair(store, Prop(data, "access"), Prop(data, "refresh"));
      } else if Truthy(Prop(data, "token")) {
        store.SetItem(AUTH_TOKEN, ToStr(Prop(data, "token")));
      }
      var u := Prop(data, "user");
      if !HasProperties(u) {
        outcome := Threw(PropertyReadMessage(u, "id"));
        return;
      }
      user := Some(User(Prop(u, "id"), Prop(u, "full_name"), Prop(u, "email")));
      isAuthenticated := true;
      outcome := Done;
    }

    method Logout()
      requires Valid()
      modifies this, store
      ensures store.items == Cleared(old(store.items))
      ensures user.None? && !isAuthenticated && loading == old(loading)
      ensures Valid()
    {
      store.RemoveItem(AUTH_TOKEN);
      store.RemoveItem(REFRESH_TOKEN);
      user := None;
      isAuthenticated := false;
    }
  }
}
