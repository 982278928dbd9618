/**
 * The authentication service: one backend route per operation, and the rules by
 * which login, Google sign-in, token refresh and logout write or clear the two
 * session slots.  Each method takes what the request helper settled with.
 */
module AuthService {
  import opened Wrappers
  import opened Text
  import opened JsValues
  import opened Storage
  import opened Http
  import opened ApiService

  datatype Operation =
    | Register | VerifyOtp | ResendOtp | Login | VerifyToken | RefreshToken
    | GetCurrentUser | GoogleToken | RequestPasswordReset | ConfirmPasswordReset

  /** The prefix every route of the service shares. */
  const AUTH_PREFIX: string := "user/auth/"

  /** The part of an operation's route between `user/auth/` and the closing slash. */
  function RouteName(op: Operation): string {
    match op
    case Register => "register"
    case VerifyOtp => "verify-otp"
    case ResendOtp => "resend-otp"
    case Login => "login"
    case VerifyToken => "token/verify"
    case RefreshToken => "token/refresh"
    case GetCurrentUser => "me"
    case GoogleToken => "google/token"
    case RequestPasswordReset => "password-reset-request"
    case ConfirmPasswordReset => "password-reset-confirm"
  }

  /** The route an operation posts to or reads from, e.g. `user/auth/login/`. */
  function Path(op: Operation): string {
    AUTH_PREFIX + RouteName(op) + "/"
  }

  /**
   * The helper call an operation makes: the current-user read is the only GET and
   * the only authenticated call; every other operation POSTs its payload unauthenticated.
   */
  function CallFor(op: Operation, payload: JsValue): (c: Call)
    ensures c.endpoint == Path(op)
    ensures c.verb == GET <==> op == GetCurrentUser
    ensures c.verb != GET ==> c.verb == POST && c.body == Some(payload)
    ensures c.authenticated <==> op == GetCurrentUser
  {
    if op == GetCurrentUser then Call(GET, Path(op), None, true)
    else DefaultCall(POST, Path(op), Some(payload))
  }

  /** Every route lives under `user/auth/` and ends with a slash. */
  lemma PathShape(op: Operation)
    ensures StartsWith(Path(op), "user/auth/") && EndsWith(Path(op), "/")
  {
    var p := Path(op);
    assert p[..|AUTH_PREFIX|] == AUTH_PREFIX;
    assert p[|p| - 1..] == "/";
  }

  /** Distinct operations use distinct routes. */
  lemma PathsDistinct(a: Operation, b: Operation)
    requires a != b
    ensures Path(a) != Path(b)
  {
    var ra, rb := RouteName(a), RouteName(b);
    assert ra != rb;
    if |ra| != |rb| {
      assert |Path(a)| != |Path(b)|;
    } else {
      var i :| 0 <= i < |ra| && ra[i] != rb[i];
      assert Path(a)[|AUTH_PREFIX| + i] == ra[i];
      assert Path(b)[|AUTH_PREFIX| + i] == rb[i];
    }
  }

  /**
   * The storage rule shared by login, Google sign-in and sign-up: `authToken` is
   * written only for a truthy `access`, and `refreshToken` only alongside it.
   */
  function StoreTokens(items: map<string, string>, access: JsValue, refresh: JsValue): (r: map<string, string>)
    ensures !Truthy(access) ==> r == items
    ensures Truthy(access) ==> AUTH_TOKEN in r && r[AUTH_TOKEN] == ToStr(access)
    ensures Truthy(access) && Truthy(refresh) ==> REFRESH_TOKEN in r && r[REFRESH_TOKEN] == ToStr(refresh)
    ensures !(Truthy(access) && Truthy(refresh)) ==> SameAt(r, items, REFRESH_TOKEN)
    ensures forall k :: k != AUTH_TOKEN && k != REFRESH_TOKEN ==> SameAt(r, items, k)
  {
    if !Truthy(access) then items
    else if Truthy(refresh) then items[AUTH_TOKEN := ToStr(access)][REFRESH_TOKEN := ToStr(refresh)]
    else items[AUTH_TOKEN := ToStr(access)]
  }

  method StoreTokenPair(store: LocalStorage, access: JsValue, refresh: JsValue)
    modifies store
    ensures store.items == StoreTokens(old(store.items), access, refresh)
  {
    if Truthy(access) {
      store.SetItem(AUTH_TOKEN, ToStr(access));
      if Truthy(refresh) {
        store.SetItem(REFRESH_TOKEN, ToStr(refresh));
      }
    }
  }

  /** What the store holds after a reply that login and Google sign-in both handle this way. */
  function AfterTokenReply(items: map<string, string>, reply: ApiResult): (r: map<string, string>)
    ensures reply.Failed? ==> r == items
    ensures reply.Ok? && !HasProperties(reply.data) ==> r == items
    ensures reply.Ok? && HasProperties(reply.data) ==>
      r == StoreTokens(items, Prop(reply.data, "access"), Prop(reply.data, "refresh"))
  {
    if reply.Ok? && HasProperties(reply.data) then
      StoreTokens(items, Prop(reply.data, "access"), Prop(reply.data, "refresh"))
    else items
  }

  /** What the call settles with: the reply, unless reading `access` off a `null` body throws. */
  function Settled(reply: ApiResult): (r: ApiResult)
    ensures r.Ok? ==> r == reply
    ensures reply.Failed? ==> r == reply
    ensures reply.Ok? && HasProperties(reply.data) ==> r == reply
    ensures reply.Ok? && !HasProperties(reply.data) ==> r == Failed(PropertyReadMessage(reply.data, "access"), None)
  {
    if reply.Ok? && !HasProperties(reply.data) then Failed(PropertyReadMessage(reply.data, "access"), None)
    else reply
  }

  /** A reply without a truthy `access` leaves both session slots as they were. */
  lemma NoAccessNoChange(items: map<string, string>, reply: ApiResult)
    requires !(reply.Ok? && HasProperties(reply.data) && Truthy(Prop(reply.data, "access")))
    ensures AfterTokenReply(items, reply) == items
  {
  }

  method SignIn(op: Operation, store: LocalStorage, payload: JsValue, reply: ApiResult)
    returns (call: Call, result: ApiResult)
    modifies store
    ensures call == CallFor(op, payload)
    ensures store.items == AfterTokenReply(old(store.items), reply)
    ensures result == Settled(reply)
  {
    call := CallFor(op, payload);
    result := reply;
    if reply.Ok? {
      if !HasProperties(reply.data) {
        result := Failed(PropertyReadMessage(reply.data, "access"), None);
      } else {
        StoreTokenPair(store, Prop(reply.data, "access"), Prop(reply.data, "refresh"));
      }
    }
  }

  /** `AuthService.login`. */
  method LogIn(store: LocalStorage, credentials: JsValue, reply: ApiResult) returns (call: Call, result: ApiResult)
    modifies store
    ensures call == CallFor(Login, credentials)
    ensures store.items == AfterTokenReply(old(store.items), reply)
    ensures result == Settled(reply)
  {
    call, result := SignIn(Login, store, credentials, reply);
  }

  /** `AuthService.authenticateWithGoogle`: the same storage rule as login. */
  method AuthenticateWithGoogle(store: LocalStorage, googleData: JsValue, reply: ApiResult)
    returns (call: Call, result: ApiResult)
    modifies store
    ensures call == CallFor(GoogleToken, googleData)
    ensures store.items == AfterTokenReply(old(store.items), reply)
    ensures result == Settled(reply)
  {
    call, result := SignIn(GoogleToken, store, googleData, reply);
  }

  /** `AuthService.logout`. */
  method LogOut(store: LocalStorage)
    modifies store
    ensures store.items == Cleared(old(store.items))
  {
    store.RemoveItem(AUTH_TOKEN);
    store.RemoveItem(REFRESH_TOKEN);
  }

  /** `AuthService.refreshToken`: a truthy `access` replaces `authToken`; `refreshToken` is never touched. */
  method Refresh(store: LocalStorage, refreshToken: string, reply: ApiResult) returns (call: Call, result: ApiResult)
    modifies store
    ensures call == CallFor(RefreshToken, Obj([("refresh", Str(refreshToken))]))
    ensures reply.Ok? && HasProperties(reply.data) && Truthy(Prop(reply.data, "access")) ==>
      store.items == old(store.items)[AUTH_TOKEN := ToStr(Prop(reply.data, "access"))]
    ensures !(reply.Ok? && HasProperties(reply.data) && Truthy(Prop(reply.data, "access"))) ==>
      store.items == old(store.items)
    ensures SameAt(store.items, old(store.items), REFRESH_TOKEN)
    ensures result == Settled(reply)
  {
    call := CallFor(RefreshToken, Obj([("refresh", Str(refreshToken))]));
    result := reply;
    if reply.Ok? {
      if !HasProperties(reply.data) {
        result := Failed(PropertyReadMessage(reply.data, "access"), None);
      } else if Truthy(Prop(reply.data, "access")) {
        store.SetItem(AUTH_TOKEN, ToStr(Prop(reply.data, "access")));
      }
    }
  }

  /** `AuthService.isAuthenticated`: the `authToken` key is present, whatever its value. */
  function IsAuthenticated(store: LocalStorage): (r: bool)
    reads store
    ensures r <==> GetItem(store.items, AUTH_TOKEN).Some?
  {
    AUTH_TOKEN in store.items
  }
}
