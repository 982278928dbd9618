/**
 * The sign-up screen: a two-step machine (`register` then `verify`).  The first
 * step checks the passwords and asks the backend to e-mail a code; the second
 * checks the code, has the backend verify it, and completes the registration,
 * storing the tokens it returns.
 */
module RegisterPage {
  import opened Wrappers
  import opened Text
  import opened JsValues
  import opened Http
  import opened Storage
  import opened AuthForms
  import AuthService

  const AUTH_BASE: string := "http://localhost:8000/api/user/auth/"
  const SEND_URL: string := AUTH_BASE + "send-verification-email/"
  const VERIFY_OTP_URL: string := AUTH_BASE + "verify-otp/"
  const REGISTER_URL: string := AUTH_BASE + "register/"
  const RESEND_URL: string := AUTH_BASE + "resend-otp/"

  const SEND_FAILED: string := "Failed to send verification email"
  const CODE_SENT: string := "Verification code sent to your email!"
  const INVALID_CODE: string := "Invalid verification code"
  const REGISTERED: string := "Registration successful! Redirecting to your profile..."
  const RESEND_FAILED: string := "Failed to resend verification code"
  const CODE_RESENT: string := "New verification code sent to your email!"

  datatype Step = RegisterStep | VerifyStep

  datatype Field = FullName | Email | Password | ConfirmPassword

  datatype Form = Form(fullName: string, email: string, password: string, confirmPassword: string) {
    function Get(f: Field): string {
      match f
      case FullName => fullName
      case Email => email
      case Password => password
      case ConfirmPassword => confirmPassword
    }

    /** `{...formData, [name]: value}`. */
    function Set(f: Field, value: string): (r: Form)
      ensures r.Get(f) == value
      ensures forall g :: g != f ==> r.Get(g) == Get(g)
    {
      match f
      case FullName => this.(fullName := value)
      case Email => this.(email := value)
      case Password => this.(password := value)
      case ConfirmPassword => this.(confirmPassword := value)
    }
  }

  datatype Verification = Verification(email: string, otp: string)

  function SendFetch(email: string): Fetch { Fetch(POST, SEND_URL, Some(Obj([("email", Str(email))])), None) }

  function VerifyFetch(v: Verification): Fetch {
    Fetch(POST, VERIFY_OTP_URL, Some(Obj([("email", Str(v.email)), ("otp_code", Str(v.otp))])), None)
  }

  /** The completion payload: the split name, both passwords as typed, and the verified code. */
  function CompletionPayload(form: Form, v: Verification): JsValue {
    var names := SplitName(form.fullName);
    Obj([("email", Str(v.email)), ("password", Str(form.password)), ("password2", Str(form.confirmPassword)),
         ("full_name", Str(form.fullName)), ("first_name", Str(names.0)), ("last_name", Str(names.1)),
         ("otp_code", Str(v.otp))])
  }

  /**
   * The payload names the account by its typed e-mail and code, and carries the split
   * name: a space-free first name and, joined back with a space, the trimmed full name.
   */
  lemma CompletionPayloadFields(form: Form, v: Verification)
    ensures var p := CompletionPayload(form, v);
      p.Obj? && |p.entries| == 7 && Lookup(p.entries, "email") == Str(v.email)
      && Lookup(p.entries, "otp_code") == Str(v.otp)
      && p.entries[4].1.Str? && ' ' !in p.entries[4].1.s
      && (' ' in Trim(form.fullName) ==> p.entries[4].1.s + " " + p.entries[5].1.s == Trim(form.fullName))
      && (' ' !in Trim(form.fullName) ==> p.entries[4].1.s == Trim(form.fullName) && p.entries[5].1.s == "")
  {
    var names := SplitName(form.fullName);
    var p := CompletionPayload(form, v);
    assert p.entries[4] == ("first_name", Str(names.0)) && p.entries[5] == ("last_name", Str(names.1));
    assert Lookup(p.entries, "email") == Str(v.email);
    LookupFirstMatch(p.entries, "otp_code", 6);
    SplitNameRejoins(form.fullName);
  }

  function CompletionFetch(form: Form, v: Verification): Fetch {
    Fetch(POST, REGISTER_URL, Some(CompletionPayload(form, v)), None)
  }

  /** Why completing the registration fails, if it does: the request, or reading `access` off the reply. */
  function CompletionError(reply: Exchange): (e: Option<string>)
    ensures e.None? <==> Succeeded(reply) && reply.body.Json? && HasProperties(reply.body.value)
    ensures RegistrationStatusError(reply).Some? ==> e == RegistrationStatusError(reply)
    ensures Succeeded(reply) && reply.body.NotJson? ==> e == Some(reply.body.message)
    ensures Succeeded(reply) && reply.body.Json? && !HasProperties(reply.body.value) ==>
      e == Some(PropertyReadMessage(reply.body.value, "access"))
  {
    if RegistrationStatusError(reply).Some? then RegistrationStatusError(reply) else BodyError(reply.body, "access")
  }

  /** The store after completion: the tokens of a good reply under the login rule, else unchanged. */
  function CompletionTokens(items: map<string, string>, reply: Exchange): (r: map<string, string>)
    ensures CompletionError(reply).Some? ==> r == items
    ensures CompletionError(reply).None? ==>
      r == AuthService.StoreTokens(items, Prop(reply.body.value, "access"), Prop(reply.body.value, "refresh"))
  {
    if CompletionError(reply).Some? then items
    else AuthService.StoreTokens(items, Prop(reply.body.value, "access"), Prop(reply.body.value, "refresh"))
  }

  class RegisterPage {
    var step: Step
    var form: Form
    var verification: Verification
    var error: Option<string>
    var success: Option<string>
    var loading: bool
    var resendLoading: bool
    const store: LocalStorage

    constructor (store: LocalStorage)
      ensures this.store == store && step == RegisterStep
      ensures form == Form("", "", "", "") && verification == Verification("", "")
      ensures error.None? && success.None? && !loading && !resendLoading
    {
      this.store := store;
      step := RegisterStep;
      form := Form("", "", "", "");
      verification := Verification("", "");
      error := None;
      success := None;
      loading := false;
      resendLoading := false;
    }

    /** `handleChange`: only the named field changes. */
    method HandleChange(f: Field, value: string)
      modifies this
      ensures form == old(form).Set(f, value)
      ensures step == old(step) && verification == old(verification)
      ensures error == old(error) && success == old(success) && loading == old(loading) && resendLoading == old(resendLoading)
    {
      form := form.Set(f, value);
    }

    /** `handleOtpChange`: the code keeps only its first six digits; the e-mail stays. */
    method HandleOtpChange(value: string)
      modifies this
      ensures verification == Verification(old(verification).email, SanitizeOtp(value))
      ensures step == old(step) && form == old(form)
      ensures error == old(error) && success == old(success) && loading == old(loading) && resendLoading == old(resendLoading)
    {
      verification := verification.(otp := SanitizeOtp(value));
    }

    /** `sendVerificationEmail`: only a successful send moves to `verify`, with the e-mail and an empty code. */
    method SendVerificationEmail(email: string, reply: Exchange) returns (call: Fetch)
      modifies this
      ensures call == SendFetch(email)
      ensures !loading && form == old(form) && resendLoading == old(resendLoading)
      ensures FetchError(reply, SEND_FAILED, "message").None? ==>
        && step == VerifyStep && verification == Verification(email, "") && error.None?
        && success == Some(OrText(Prop(reply.body.value, "message"), CODE_SENT))
      ensures FetchError(reply, SEND_FAILED, "message").Some? ==>
        && step == old(step) && verification == old(verification) && success.None?
        && error == FetchError(reply, SEND_FAILED, "message")
    {
      loading := true;
      error := None;
      success := None;
      call := SendFetch(email);
      var failure := FetchError(reply, SEND_FAILED, "message");
      if failure.Some? {
        error := failure;
      } else {
        success := Some(OrText(Prop(reply.body.value, "message"), CODE_SENT));
        verification := Verification(email, "");
        step := VerifyStep;
      }
      loading := false;
    }

    /** `completeRegistration`: stores the returned tokens under the login rule, or reports the failure. */
    method CompleteRegistration(reply: Exchange) returns (call: Fetch)
      modifies this, store
      ensures call == CompletionFetch(old(form), old(verification))
      ensures store.items == CompletionTokens(old(store.items), reply)
      ensures CompletionError(reply).None? ==> success == Some(REGISTERED) && error == old(error)
      ensures CompletionError(reply).Some? ==> error == CompletionError(reply) && success == old(success)
      ensures step == old(step) && form == old(form) && verification == old(verification)
      ensures loading == old(loading) && resendLoading == old(resendLoading)
    {
      call := CompletionFetch(form, verification);
      var failure := CompletionError(reply);
      if failure.Some? {
        error := failure;
      } else {
        AuthService.StoreTokenPair(store, Prop(reply.body.value, "access"), Prop(reply.body.value, "refresh"));
        success := Some(REGISTERED);
      }
    }

    /** `verifyOtp`: a rejected code reports `detail || error`; an accepted one goes on to complete the registration. */
    method VerifyOtp(verifyReply: Exchange, registerReply: Exchange) returns (calls: seq<Fetch>)
      modifies this, store
      ensures !loading && step == old(step) && form == old(form) && verification == old(verification)
      ensures resendLoading == old(resendLoading)
      ensures StatusError(verifyReply, INVALID_CODE).Some? ==>
        && calls == [VerifyFetch(old(verification))]
        && error == StatusError(verifyReply, INVALID_CODE) && success == old(success)
        && store.items == old(store.items)
      ensures StatusError(verifyReply, INVALID_CODE).None? ==>
        && calls == [VerifyFetch(old(verification)), CompletionFetch(old(form), old(verification))]
        && store.items == CompletionTokens(old(store.items), registerReply)
        && (CompletionError(registerReply).None? ==> success == Some(REGISTERED) && error.None?)
        && (CompletionError(registerReply).Some? ==> error == CompletionError(registerReply) && success == old(success))
    {
      loading := true;
      error := None;
      calls := [VerifyFetch(verification)];
      var failure := StatusError(verifyReply, INVALID_CODE);
      if failure.Some? {
        error := failure;
      } else {
        var call := CompleteRegistration(registerReply);
        calls := calls + [call];
      }
      loading := false;
    }

    /** `resendOtp`: a new code clears the typed one; step and e-mail stay. */
    method ResendOtp(reply: Exchange) returns (call: Fetch)
      modifies this
      ensures call == Fetch(POST, RESEND_URL, Some(Obj([("email", Str(old(verification).email))])), None)
      ensures !resendLoading && step == old(step) && form == old(form) && loading == old(loading)
      ensures verification.email == old(verification).email
      ensures FetchError(reply, RESEND_FAILED, "message").None? ==>
        && verification.otp == "" && error.None?
        && success == Some(OrText(Prop(reply.body.value, "message"), CODE_RESENT))
      ensures FetchError(reply, RESEND_FAILED, "message").Some? ==>
        && verification == old(verification) && success.None?
        && error == FetchError(reply, RESEND_FAILED, "message")
    {
      resendLoading := true;
      error := None;
      success := None;
      call := Fetch(POST, RESEND_URL, Some(Obj([("email", Str(verification.email))])), None);
      var failure := FetchError(reply, RESEND_FAILED, "message");
      if failure.Some? {
        error := failure;
      } else {
        success := Some(OrText(Prop(reply.body.value, "message"), CODE_RESENT));
        verification := verification.(otp := "");
      }
      resendLoading := false;
    }

    /**
     * `handleSubmit`: in `register`, the password checks run first and a failure
     * sends nothing; in `verify`, a code that is not six characters sends nothing.
     */
    method HandleSubmit(sendReply: Exchange, verifyReply: Exchange, registerReply: Exchange) returns (calls: seq<Fetch>)
      modifies this, store
      ensures form == old(form)
      ensures old(step) == RegisterStep && RegisterCheck(old(form).password, old(form).confirmPassword).Some? ==>
        && calls == [] && error == RegisterCheck(old(form).password, old(form).confirmPassword) && success.None?
        && step == RegisterStep && verification == old(verification) && store.items == old(store.items)
      ensures old(step) == RegisterStep && RegisterCheck(old(form).password, old(form).confirmPassword).None? ==>
        && calls == [SendFetch(old(form).email)] && store.items == old(store.items)
        && (FetchError(sendReply, SEND_FAILED, "message").None? ==>
              && step == VerifyStep && verification == Verification(old(form).email, "") && error.None?
              && success == Some(OrText(Prop(sendReply.body.value, "message"), CODE_SENT)))
        && (FetchError(sendReply, SEND_FAILED, "message").Some? ==>
              && step == RegisterStep && verification == old(verification) && success.None?
              && error == FetchError(sendReply, SEND_FAILED, "message"))
      ensures old(step) == RegisterStep && step == VerifyStep ==>
        && FetchError(sendReply, SEND_FAILED, "message").None?
        && verification == Verification(old(form).email, "")
      ensures old(step) == VerifyStep && |old(verification).otp| != OTP_LENGTH ==>
        && calls == [] && error == Some(OTP_INVALID) && success.None?
        && step == VerifyStep && store.items == old(store.items)
      ensures old(step) == VerifyStep && |old(verification).otp| == OTP_LENGTH ==>
        && calls != [] && calls[0] == VerifyFetch(old(verification))
        && step == VerifyStep && verification == old(verification)
        && (StatusError(verifyReply, INVALID_CODE).Some? ==>
              && calls == [VerifyFetch(old(verification))] && store.items == old(store.items)
              && error == StatusError(verifyReply, INVALID_CODE) && success.None?)
        && (StatusError(verifyReply, INVALID_CODE).None? ==>
              && calls == [VerifyFetch(old(verification)), CompletionFetch(old(form), old(verification))]
              && store.items == CompletionTokens(old(store.items), registerReply)
              && (CompletionError(registerReply).None? ==> success == Some(REGISTERED) && error.None?)
              && (CompletionError(registerReply).Some? ==> error == CompletionError(registerReply) && success.None?))
    {
      error := None;
      success := None;
      calls := [];
      if step == RegisterStep {
        var check := RegisterCheck(form.password, form.confirmPassword);
        if check.Some? {
          error := check;
          return;
        }
        var call := SendVerificationEmail(form.email, sendReply);
        calls := [call];
      } else {
        if |verification.otp| != OTP_LENGTH {
          error := Some(OTP_INVALID);
          return;
        }
        calls := VerifyOtp(verifyReply, registerReply);
      }
    }

    /** `goBackToRegister`: back to the first step with the code data and messages cleared. */
    method GoBackToRegister()
      modifies this
      ensures step == RegisterStep && verification == Verification("", "") && error.None? && success.None?
      ensures form == old(form) && loading == old(loading) && resendLoading == old(resendLoading)
    {
      step := RegisterStep;
      error := None;
      success := None;
      verification := Verification("", "");
    }
  }
}
