/**
 * The profile screen: one form holding the personal fields and the three
 * password fields.  It is filled from the signed-in user and the `me` reply,
 * saved with a PUT, and has its own copy of the change-password flow, which
 * clears only the password fields.
 */
module ProfilePage {
  import opened Wrappers
  import opened Text
  import opened JsValues
  import opened Http
  import opened Storage
  import opened AuthForms
  import AuthContext
  import PasswordPage

  const UPDATE_PROFILE_URL: string := "http://localhost:8000/api/user/users/update-profile/"
  const PARSE_FALLBACK: string := "Could not parse error response"
  const PROFILE_UPDATED: string := "Profile updated successfully"
  const UPDATE_FAILED_PREFIX: string := "Failed to update profile: "
  const DATE_LENGTH: nat := 10

  datatype ProfileField =
    | Name | Email | Bio | Education | PhoneNumber | Country | DateOfBirth
    | CurrentPassword | NewPassword | ConfirmPassword

  datatype ProfileForm = ProfileForm(
    name: string, email: string, bio: string, education: string, phoneNumber: string,
    country: string, dateOfBirth: string,
    currentPassword: string, newPassword: string, confirmPassword: string)
  {
    function Get(f: ProfileField): string {
      match f
      case Name => name
      case Email => email
      case Bio => bio
      case Education => education
      case PhoneNumber => phoneNumber
      case Country => country
      case DateOfBirth => dateOfBirth
      case CurrentPassword => currentPassword
      case NewPassword => newPassword
      case ConfirmPassword => confirmPassword
    }

    /** `{...prevData, [name]: value}`. */
    function Set(f: ProfileField, value: string): (r: ProfileForm)
      ensures r.Get(f) == value
      ensures forall g :: g != f ==> r.Get(g) == Get(g)
    {
      match f
      case Name => this.(name := value)
      case Email => this.(email := value)
      case Bio => this.(bio := value)
      case Education => this.(education := value)
      case PhoneNumber => this.(phoneNumber := value)
      case Country => this.(country := value)
      case DateOfBirth => this.(dateOfBirth := value)
      case CurrentPassword => this.(currentPassword := value)
      case NewPassword => this.(newPassword := value)
      case ConfirmPassword => this.(confirmPassword := value)
    }

    /** The three password fields, as the change-password request sends them. */
    function Passwords(): PasswordPage.PasswordForm {
      PasswordPage.PasswordForm(currentPassword, newPassword, confirmPassword)
    }
  }

  const EMPTY_PROFILE: ProfileForm := ProfileForm("", "", "", "", "", "", "", "", "", "")

  /**
   * The form after a readable `me` reply, or `None` when building it throws (a
   * truthy `date_of_birth` that is not a string has no `substring`).  The profile
   * fields come from the nested `profile` when it is truthy, else from the top level.
   */
  function LoadedProfile(prev: ProfileForm, userData: JsValue): (r: Option<ProfileForm>)
    requires HasProperties(userData)
    ensures var p := Or(Prop(userData, "profile"), userData);
      r.None? <==> Truthy(Prop(p, "date_of_birth")) && !Prop(p, "date_of_birth").Str?
    ensures r.Some? ==>
      var p := Or(Prop(userData, "profile"), userData);
      && r.value.name == OrText(Or(Prop(userData, "full_name"), Prop(userData, "name")), prev.name)
      && r.value.email == OrText(Prop(userData, "email"), prev.email)
      && r.value.bio == OrText(Prop(p, "bio"), "")
      && r.value.education == OrText(Prop(p, "education"), "")
      && r.value.phoneNumber == OrText(Prop(p, "phone_number"), "")
      && r.value.country == OrText(Prop(p, "country"), "")
      && |r.value.dateOfBirth| <= DATE_LENGTH
      && (Truthy(Prop(p, "date_of_birth")) ==> r.value.dateOfBirth == Take(Prop(p, "date_of_birth").s, DATE_LENGTH))
      && (!Truthy(Prop(p, "date_of_birth")) ==> r.value.dateOfBirth == "")
      && r.value.Passwords() == prev.Passwords()
  {
    var p := Or(Prop(userData, "profile"), userData);
    var dob := Prop(p, "date_of_birth");
    if Truthy(dob) && !dob.Str? then None
    else
      Some(prev.(
        name := OrText(Or(Prop(userData, "full_name"), Prop(userData, "name")), prev.name),
        email := OrText(Prop(userData, "email"), prev.email),
        bio := OrText(Prop(p, "bio"), ""),
        education := OrText(Prop(p, "education"), ""),
        phoneNumber := OrText(Prop(p, "phone_number"), ""),
        country := OrText(Prop(p, "country"), ""),
        dateOfBirth := if Truthy(dob) then Take(dob.s, DATE_LENGTH) else ""))
  }

  /** A profile value that is neither `null` nor `undefined` but falsy (say `""`) still defers to the top level. */
  lemma FalsyProfileUsesTopLevel(prev: ProfileForm, userData: JsValue)
    requires HasProperties(userData) && !Truthy(Prop(userData, "profile"))
    requires !Truthy(Prop(userData, "date_of_birth"))
    ensures LoadedProfile(prev, userData).Some?
    ensures LoadedProfile(prev, userData).value.bio == OrText(Prop(userData, "bio"), "")
  {
  }

  /** The form after the whole `me` exchange: only a readable success body changes it; every failure is swallowed. */
  function AfterProfileFetch(prev: ProfileForm, reply: Exchange): (r: ProfileForm)
    ensures !Succeeded(reply) || reply.body.NotJson? ==> r == prev
    ensures Succeeded(reply) && reply.body.Json? && !HasProperties(reply.body.value) ==> r == prev
    ensures Succeeded(reply) && reply.body.Json? && HasProperties(reply.body.value) ==>
      (LoadedProfile(prev, reply.body.value).Some? ==> r == LoadedProfile(prev, reply.body.value).value)
      && (LoadedProfile(prev, reply.body.value).None? ==> r == prev)
    ensures r.Passwords() == prev.Passwords()
  {
    if Succeeded(reply) && reply.body.Json? && HasProperties(reply.body.value) then
      LoadedProfile(prev, reply.body.value).GetOr(prev)
    else prev
  }

  /** `date_of_birth || null`: the only profile field sent as `null` when empty. */
  function DateOrNull(dob: string): (v: JsValue)
    ensures dob == "" <==> v == Null
    ensures dob != "" ==> v == Str(dob)
  {
    if dob == "" then Null else Str(dob)
  }

  /** The fields nested under `profile` in the save payload. */
  function ProfileEntries(form: ProfileForm): seq<(string, JsValue)> {
    [("bio", Str(form.bio)), ("education", Str(form.education)),
     ("phone_number", Str(form.phoneNumber)), ("country", Str(form.country)),
     ("date_of_birth", DateOrNull(form.dateOfBirth))]
  }

  /** The save payload: the name as `full_name` and the profile fields nested under `profile`. */
  function SavePayload(form: ProfileForm): JsValue {
    Obj([("full_name", Str(form.name)), ("profile", Obj(ProfileEntries(form)))])
  }

  lemma ProfileEntriesRead(form: ProfileForm)
    ensures var profile := Obj(ProfileEntries(form));
      && Prop(profile, "bio") == Str(form.bio)
      && Prop(profile, "education") == Str(form.education)
      && Prop(profile, "phone_number") == Str(form.phoneNumber)
      && Prop(profile, "country") == Str(form.country)
      && Prop(profile, "date_of_birth") == DateOrNull(form.dateOfBirth)
  {
    var entries := ProfileEntries(form);
    var e1 := entries[1..];
    var e2 := e1[1..];
    var e3 := e2[1..];
    var e4 := e3[1..];
    assert e4 == [("date_of_birth", DateOrNull(form.dateOfBirth))];
    assert Lookup(e4, "date_of_birth") == DateOrNull(form.dateOfBirth);
    assert Lookup(e3, "country") == Str(form.country);
    assert Lookup(e3, "date_of_birth") == Lookup(e4, "date_of_birth");
    assert Lookup(e2, "phone_number") == Str(form.phoneNumber);
    assert Lookup(e2, "country") == Lookup(e3, "country");
    assert Lookup(e2, "date_of_birth") == Lookup(e3, "date_of_birth");
    assert Lookup(e1, "education") == Str(form.education);
    assert Lookup(e1, "phone_number") == Lookup(e2, "phone_number");
    assert Lookup(e1, "country") == Lookup(e2, "country");
    assert Lookup(e1, "date_of_birth") == Lookup(e2, "date_of_birth");
  }

  /** The payload carries the edited fields and no password, and `date_of_birth` is `null` exactly when the field is empty. */
  lemma SavePayloadShape(form: ProfileForm)
    ensures var profile := Prop(SavePayload(form), "profile");
      && Prop(SavePayload(form), "full_name") == Str(form.name)
      && Prop(profile, "bio") == Str(form.bio)
      && Prop(profile, "education") == Str(form.education)
      && Prop(profile, "phone_number") == Str(form.phoneNumber)
      && Prop(profile, "country") == Str(form.country)
      && (Prop(profile, "date_of_birth") == Null <==> form.dateOfBirth == "")
      && (form.dateOfBirth != "" ==> Prop(profile, "date_of_birth") == Str(form.dateOfBirth))
      && Prop(SavePayload(form), "old_password") == Undefined
      && Prop(SavePayload(form), "new_password") == Undefined
  {
    var top := SavePayload(form).entries;
    var tail := top[1..];
    assert tail == [("profile", Obj(ProfileEntries(form)))];
    assert tail[1..] == [];
    assert Lookup(top, "profile") == Lookup(tail, "profile") == Obj(ProfileEntries(form));
    assert Lookup(top, "old_password") == Lookup(tail, "old_password") == Lookup(tail[1..], "old_password");
    assert Lookup(top, "new_password") == Lookup(tail, "new_password") == Lookup(tail[1..], "new_password");
    ProfileEntriesRead(form);
  }

  function SaveFetch(form: ProfileForm, token: string): Fetch {
    Fetch(PUT, UPDATE_PROFILE_URL, Some(SavePayload(form)), Some(token))
  }

  /** `await response.json().catch(() => ({detail: 'Could not parse error response'}))`. */
  function ErrorBody(body: Parsed): (d: JsValue)
    ensures body.NotJson? ==> d == Obj([("detail", Str(PARSE_FALLBACK))])
    ensures body.Json? ==> d == body.value
  {
    match body
    case NotJson(_) => Obj([("detail", Str(PARSE_FALLBACK))])
    case Json(v) => v
  }

  /** The error of a save: the network failure, or `detail || "Failed to update profile: <status>"`. */
  function SaveFailure(reply: Exchange): (e: Option<string>)
    ensures e.None? <==> Succeeded(reply)
    ensures reply.NetworkError? ==> e == Some(reply.message)
    ensures reply.Response? && !IsOk(reply.status) && reply.body.NotJson? ==> e == Some(PARSE_FALLBACK)
    ensures reply.Response? && !IsOk(reply.status) && HasProperties(ErrorBody(reply.body)) ==>
      e == Some(OrText(Prop(ErrorBody(reply.body), "detail"), UPDATE_FAILED_PREFIX + IntToDecimal(reply.status)))
  {
    match reply
    case NetworkError(m) => Some(m)
    case Response(status, _, body) =>
      if IsOk(status) then None
      else
        var d := ErrorBody(body);
        if HasProperties(d) then Some(OrText(Prop(d, "detail"), UPDATE_FAILED_PREFIX + IntToDecimal(status)))
        else Some(PropertyReadMessage(d, "detail"))
  }

  /** The error of a password change: the network failure, or the change-password precedence over the error body. */
  function ChangeFailure(reply: Exchange): (e: Option<string>)
    ensures e.None? <==> Succeeded(reply)
    ensures reply.NetworkError? ==> e == Some(reply.message)
    ensures reply.Response? && !IsOk(reply.status) && HasProperties(ErrorBody(reply.body)) ==>
      e == Some(ChangePasswordError(ErrorBody(reply.body)))
  {
    match reply
    case NetworkError(m) => Some(m)
    case Response(status, _, body) =>
      if IsOk(status) then None
      else
        var d := ErrorBody(body);
        if HasProperties(d) then Some(ChangePasswordError(d)) else Some(PropertyReadMessage(d, "old_password"))
  }

  /** A rejected change whose body does not parse shows the fixed parse message. */
  lemma UnparsableChangeError(reply: Exchange)
    requires reply.Response? && !IsOk(reply.status) && reply.body.NotJson?
    ensures ChangeFailure(reply) == Some(PARSE_FALLBACK)
  {
    var d := ErrorBody(reply.body);
    assert Prop(d, "old_password") == Undefined && Prop(d, "new_password") == Undefined;
    assert Prop(d, "new_password2") == Undefined && Prop(d, "non_field_errors") == Undefined;
    assert Prop(d, "detail") == Str(PARSE_FALLBACK);
  }

  /**
   * The two change-password screens agree on a rejected request with a parsed body,
   * and part ways where the profile screen substitutes the parse message or does
   * not read a success body at all.
   */
  lemma ChangeFailureVersusPasswordPage(reply: Exchange)
    ensures reply.Response? && !IsOk(reply.status) && reply.body.Json? && HasProperties(reply.body.value) ==>
      ChangeFailure(reply) == PasswordPage.ChangeFailure(reply)
    ensures reply.NetworkError? ==> ChangeFailure(reply) == PasswordPage.ChangeFailure(reply)
    ensures Succeeded(reply) && reply.body.NotJson? ==>
      ChangeFailure(reply).None? && PasswordPage.ChangeFailure(reply).Some?
  {
  }

  class ProfilePage {
    var form: ProfileForm
    var isEditing: bool
    var isSaving: bool
    var error: Option<string>
    var message: Option<string>
    const store: LocalStorage

    constructor (store: LocalStorage)
      ensures this.store == store && form == EMPTY_PROFILE
      ensures !isEditing && !isSaving && error.None? && message.None?
    {
      this.store := store;
      form := EMPTY_PROFILE;
      isEditing := false;
      isSaving := false;
      error := None;
      message := None;
    }

    /** `fetchUserProfile`: without a stored token nothing is sent; any failure is only logged. */
    method FetchUserProfile(reply: Exchange) returns (calls: seq<Fetch>)
      modifies this
      ensures !HasTruthy(store.items, AUTH_TOKEN) ==> calls == [] && form == old(form)
      ensures HasTruthy(store.items, AUTH_TOKEN) ==>
        calls == [AuthContext.MeFetch(store.items[AUTH_TOKEN])] && form == AfterProfileFetch(old(form), reply)
      ensures isEditing == old(isEditing) && isSaving == old(isSaving) && error == old(error) && message == old(message)
    {
      calls := [];
      if !HasTruthy(store.items, AUTH_TOKEN) {
        return;
      }
      calls := [AuthContext.MeFetch(store.items[AUTH_TOKEN])];
      form := AfterProfileFetch(form, reply);
    }

    /** The effect on a new `user`: the name and e-mail are copied, then the profile is fetched. */
    method OnUser(user: Option<AuthContext.User>, reply: Exchange) returns (calls: seq<Fetch>)
      modifies this
      ensures user.None? ==> calls == [] && form == old(form)
      ensures user.Some? && !HasTruthy(store.items, AUTH_TOKEN) ==>
        && calls == []
        && form == old(form).(name := OrText(user.value.name, ""), email := OrText(user.value.email, ""))
      ensures user.Some? && HasTruthy(store.items, AUTH_TOKEN) ==>
        && calls == [AuthContext.MeFetch(store.items[AUTH_TOKEN])]
        && form == AfterProfileFetch(
                     old(form).(name := OrText(user.value.name, ""), email := OrText(user.value.email, "")), reply)
      ensures isEditing == old(isEditing) && isSaving == old(isSaving) && error == old(error) && message == old(message)
    {
      calls := [];
      if user.Some? {
        form := form.(name := OrText(user.value.name, ""), email := OrText(user.value.email, ""));
        calls := FetchUserProfile(reply);
      }
    }

    /** `handleChange`: only the named field changes. */
    method HandleChange(f: ProfileField, value: string)
      modifies this
      ensures form == old(form).Set(f, value)
      ensures isEditing == old(isEditing) && isSaving == old(isSaving) && error == old(error) && message == old(message)
    {
      form := form.Set(f, value);
    }

    /** `handleSavePersonalInfo`: a stored token is required; success leaves edit mode; the form is never changed. */
    method SavePersonalInfo(reply: Exchange) returns (calls: seq<Fetch>)
      modifies this
      ensures !isSaving && form == old(form)
      ensures !HasTruthy(store.items, AUTH_TOKEN) ==>
        calls == [] && error == Some(PasswordPage.TOKEN_NOT_FOUND) && message.None? && isEditing == old(isEditing)
      ensures HasTruthy(store.items, AUTH_TOKEN) ==> calls == [SaveFetch(old(form), store.items[AUTH_TOKEN])]
      ensures HasTruthy(store.items, AUTH_TOKEN) && SaveFailure(reply).Some? ==>
        error == SaveFailure(reply) && message.None? && isEditing == old(isEditing)
      ensures HasTruthy(store.items, AUTH_TOKEN) && SaveFailure(reply).None? ==>
        message == Some(PROFILE_UPDATED) && error.None? && !isEditing
    {
      isSaving := true;
      error := None;
      message := None;
      calls := [];
      if !HasTruthy(store.items, AUTH_TOKEN) {
        error := Some(PasswordPage.TOKEN_NOT_FOUND);
        isSaving := false;
        return;
      }
      calls := [SaveFetch(form, store.items[AUTH_TOKEN])];
      var failure := SaveFailure(reply);
      if failure.Some? {
        error := failure;
      } else {
        message := Some(PROFILE_UPDATED);
        isEditing := false;
      }
      isSaving := false;
    }

    /**
     * `handleChangePassword`: the same checks and request as the password screen;
     * success clears the three password fields and nothing else.
     */
    method HandleChangePassword(reply: Exchange) returns (calls: seq<Fetch>)
      modifies this
      ensures !isSaving && isEditing == old(isEditing)
      ensures old(form).Passwords().Check().Some? ==>
        calls == [] && error == old(form).Passwords().Check() && message.None? && form == old(form)
      ensures old(form).Passwords().Check().None? && !HasTruthy(store.items, AUTH_TOKEN) ==>
        calls == [] && error == Some(PasswordPage.TOKEN_NOT_FOUND) && message.None? && form == old(form)
      ensures old(form).Passwords().Check().None? && HasTruthy(store.items, AUTH_TOKEN) ==>
        calls == [PasswordPage.ChangeFetch(old(form).Passwords(), store.items[AUTH_TOKEN])]
      ensures calls != [] && ChangeFailure(reply).Some? ==>
        error == ChangeFailure(reply) && message.None? && form == old(form)
      ensures calls != [] && ChangeFailure(reply).None? ==>
        && form == old(form).(currentPassword := "", newPassword := "", confirmPassword := "")
        && message == Some(PasswordPage.PASSWORD_CHANGED) && error.None?
    {
      isSaving := true;
      error := None;
      message := None;
      calls := [];
      var check := form.Passwords().Check();
      if check.Some? {
        error := check;
        isSaving := false;
        return;
      }
      if !HasTruthy(store.items, AUTH_TOKEN) {
        error := Some(PasswordPage.TOKEN_NOT_FOUND);
        isSaving := false;
        return;
      }
      calls := [PasswordPage.ChangeFetch(form.Passwords(), store.items[AUTH_TOKEN])];
      var failure := ChangeFailure(reply);
      if failure.Some? {
        error := failure;
      } else {
        form := form.(currentPassword := "", newPassword := "", confirmPassword := "");
        message := Some(PasswordPage.PASSWORD_CHANGED);
      }
      isSaving := false;
    }
  }
}
