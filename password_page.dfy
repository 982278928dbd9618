/**
 * The change-password screen: the form's checks, then a POST carrying the
 * stored bearer token; a rejected request shows the backend's first complaint,
 * an accepted one clears the three fields and shows the backend's message.
 */
module PasswordPage {
  import opened Wrappers
  import opened JsValues
  import opened Http
  import opened Storage
  import opened AuthForms

  const CHANGE_PASSWORD_URL: string := "http://localhost:8000/api/user/auth/change-password/"
  const TOKEN_NOT_FOUND: string := "Authentication token not found"
  const PASSWORD_CHANGED: string := "Password changed successfully"

  datatype PasswordField = CurrentPassword | NewPassword | ConfirmPassword

  datatype PasswordForm = PasswordForm(currentPassword: string, newPassword: string, confirmPassword: string) {
    function Get(f: PasswordField): string {
      match f
      case CurrentPassword => currentPassword
      case NewPassword => newPassword
      case ConfirmPassword => confirmPassword
    }

    /** `{...prevData, [name]: value}`. */
    function Set(f: PasswordField, value: string): (r: PasswordForm)
      ensures r.Get(f) == value
      ensures forall g :: g != f ==> r.Get(g) == Get(g)
    {
      match f
      case CurrentPassword => this.(currentPassword := value)
      case NewPassword => this.(newPassword := value)
      case ConfirmPassword => this.(confirmPassword := value)
    }

    /** The form's own checks, in the order the screen runs them. */
    function Check(): Option<string> {
      ChangePasswordCheck(currentPassword, newPassword, confirmPassword)
    }
  }

  const EMPTY_FORM: PasswordForm := PasswordForm("", "", "")

  /** The request: the three fields under the backend's names, with the stored token as bearer. */
  function ChangeFetch(form: PasswordForm, token: string): Fetch {
    Fetch(POST, CHANGE_PASSWORD_URL,
          Some(Obj([("old_password", Str(form.currentPassword)), ("new_password", Str(form.newPassword)),
                    ("new_password2", Str(form.confirmPassword))])),
          Some(token))
  }

  /**
   * The error raised before the fields are cleared: the network failure, a
   * rejected status (its body read as an object, which throws for `null`), or a
   * success body that does not parse.
   */
  function ChangeFailure(reply: Exchange): (e: Option<string>)
    ensures e.None? <==> Succeeded(reply) && reply.body.Json?
    ensures reply.NetworkError? ==> e == Some(reply.message)
    ensures reply.Response? && !IsOk(reply.status) && reply.body.Json? && HasProperties(reply.body.value) ==>
      e == Some(ChangePasswordError(reply.body.value))
  {
    match reply
    case NetworkError(m) => Some(m)
    case Response(status, _, body) =>
      match body
      case NotJson(m) => Some(m)
      case Json(d) =>
        if IsOk(status) then None
        else if HasProperties(d) then Some(ChangePasswordError(d))
        else Some(PropertyReadMessage(d, "old_password"))
  }

  class PasswordPage {
    var form: PasswordForm
    var isSaving: bool
    var error: Option<string>
    var message: Option<string>
    const store: LocalStorage

    constructor (store: LocalStorage)
      ensures this.store == store && form == EMPTY_FORM && !isSaving && error.None? && message.None?
    {
      this.store := store;
      form := EMPTY_FORM;
      isSaving := false;
      error := None;
      message := None;
    }

    /** `handleChange`: only the named field changes. */
    method HandleChange(f: PasswordField, value: string)
      modifies this
      ensures form == old(form).Set(f, value)
      ensures isSaving == old(isSaving) && error == old(error) && message == old(message)
    {
      form := form.Set(f, value);
    }

    /**
     * `handleSubmit`: a request is sent only for a form that passes every check
     * and only with a stored token; the fields are cleared only after the backend
     * accepted the change and its reply parsed.
     */
    method HandleSubmit(reply: Exchange) returns (calls: seq<Fetch>)
      modifies this
      ensures !isSaving
      ensures old(form).Check().Some? ==>
        calls == [] && error == old(form).Check() && message.None? && form == old(form)
      ensures old(form).Check().None? && !HasTruthy(store.items, AUTH_TOKEN) ==>
        calls == [] && error == Some(TOKEN_NOT_FOUND) && message.None? && form == old(form)
      ensures calls != [] ==>
        && old(form).currentPassword != old(form).newPassword
        && old(form).newPassword == old(form).confirmPassword
        && |old(form).newPassword| >= MIN_PASSWORD_LENGTH && Complex(old(form).newPassword)
        && calls == [ChangeFetch(old(form), store.items[AUTH_TOKEN])]
      ensures old(form).Check().None? && HasTruthy(store.items, AUTH_TOKEN) ==> calls != []
      ensures calls != [] && ChangeFailure(reply).Some? ==>
        error == ChangeFailure(reply) && message.None? && form == old(form)
      ensures calls != [] && ChangeFailure(reply).None? ==>
        && form == EMPTY_FORM
        && (HasProperties(reply.body.value) ==>
              message == Some(OrText(Prop(reply.body.value, "message"), PASSWORD_CHANGED)) && error.None?)
        && (!HasProperties(reply.body.value) ==>
              error == Some(PropertyReadMessage(reply.body.value, "message")) && message.None?)
      ensures form != old(form) ==> calls != [] && Succeeded(reply)
    {
      isSaving := true;
      error := None;
      message := None;
      calls := [];
      var check := form.Check();
      if check.Some? {
        error := check;
        isSaving := false;
        return;
      }
      if !HasTruthy(store.items, AUTH_TOKEN) {
        error := Some(TOKEN_NOT_FOUND);
        isSaving := false;
        return;
      }
      calls := [ChangeFetch(form, store.items[AUTH_TOKEN])];
      var failure := ChangeFailure(reply);
      if failure.Some? {
        error := failure;
      } else {
        form := EMPTY_FORM;
        var data := reply.body.value;
        if HasProperties(data) {
          message := Some(OrText(Prop(data, "message"), PASSWORD_CHANGED));
        } else {
          error := Some(PropertyReadMessage(data, "message"));
        }
      }
      isSaving := false;
    }
  }
}
