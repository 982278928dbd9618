/**
 * The password-reset screen: a two-step machine (`request` then `reset`).  The
 * first step checks the address and asks for a reset code; the second checks
 * the code and the new password and confirms the reset.  Both steps go through
 * the authentication service, whose settled result the methods take as input.
 */
module ForgotPasswordPage {
  import opened Wrappers
  import opened JsValues
  import opened ApiService
  import opened AuthForms
  import opened AuthService
  import opened Http

  const CODE_SENT: string := "Password reset code sent to your email!"
  const SEND_FAILED: string := "Failed to send password reset email. Please try again."
  const RESET_DONE: string := "Password reset successful! You can now log in with your new password."
  const RESET_FAILED: string := "Failed to reset password. Please try again."
  const CODE_RESENT: string := "New password reset code sent to your email!"
  const RESEND_FAILED: string := "Failed to resend password reset code. Please try again."

  datatype Step = RequestStep | ResetStep

  datatype ResetField = ResetEmail | Otp | NewPassword | ConfirmPassword

  datatype ResetForm = ResetForm(email: string, otp: string, newPassword: string, confirmPassword: string) {
    function Get(f: ResetField): string {
      match f
      case ResetEmail => email
      case Otp => otp
      case NewPassword => newPassword
      case ConfirmPassword => confirmPassword
    }

    /** `{...resetPasswordData, [name]: value}`. */
    function Set(f: ResetField, value: string): (r: ResetForm)
      ensures r.Get(f) == value
      ensures forall g :: g != f ==> r.Get(g) == Get(g)
    {
      match f
      case ResetEmail => this.(email := value)
      case Otp => this.(otp := value)
      case NewPassword => this.(newPassword := value)
      case ConfirmPassword => this.(confirmPassword := value)
    }
  }

  const EMPTY_RESET: ResetForm := ResetForm("", "", "", "")

  /** What a settled service call puts on the screen. */
  datatype Feedback = Success(text: string) | Error(text: string)

  /**
   * `setSuccess(response.message || sent)` for a result, `setError(err.message || failed)`
   * for a rejection; reading `message` off a `null` result throws, and that is an error too.
   */
  function Settle(reply: ApiResult, sent: string, failed: string): (f: Feedback)
    ensures f.Success? <==> reply.Ok? && HasProperties(reply.data)
    ensures f.Success? ==> f.text == OrText(Prop(reply.data, "message"), sent)
    ensures reply.Failed? ==> f == Error(OrText(Str(reply.message), failed))
    ensures f.Error? && failed != "" ==> f.text != ""
  {
    match reply
    case Failed(message, _) => Error(OrText(Str(message), failed))
    case Ok(data) =>
      if HasProperties(data) then Success(OrText(Prop(data, "message"), sent))
      else Error(PropertyReadMessage(data, "message"))
  }

  function RequestCall(email: string): Call {
    CallFor(RequestPasswordReset, Obj([("email", Str(email))]))
  }

  function ConfirmCall(r: ResetForm): Call {
    CallFor(ConfirmPasswordReset, Obj([("email", Str(r.email)), ("otp_code", Str(r.otp)),
                                       ("new_password", Str(r.newPassword)), ("new_password2", Str(r.confirmPassword))]))
  }

  /** Both reset calls are unauthenticated POSTs of the typed data to their own routes. */
  lemma ResetCallsArePosts(email: string, r: ResetForm)
    ensures RequestCall(email).verb == POST && !RequestCall(email).authenticated
    ensures RequestCall(email).body == Some(Obj([("email", Str(email))]))
    ensures ConfirmCall(r).verb == POST && !ConfirmCall(r).authenticated
    ensures RequestCall(email).endpoint != ConfirmCall(r).endpoint
  {
    PathsDistinct(RequestPasswordReset, ConfirmPasswordReset);
  }

  class ForgotPasswordPage {
    var step: Step
    var requestEmail: string
    var reset: ResetForm
    var error: Option<string>
    var success: Option<string>
    var loading: bool
    var resendLoading: bool

    constructor ()
      ensures step == RequestStep && requestEmail == "" && reset == EMPTY_RESET
      ensures error.None? && success.None? && !loading && !resendLoading
    {
      step := RequestStep;
      requestEmail := "";
      reset := EMPTY_RESET;
      error := None;
      success := None;
      loading := false;
      resendLoading := false;
    }

    /** `handleEmailChange`: only the request address changes. */
    method HandleEmailChange(value: string)
      modifies this
      ensures requestEmail == value && reset == old(reset) && step == old(step)
      ensures error == old(error) && success == old(success) && loading == old(loading) && resendLoading == old(resendLoading)
    {
      requestEmail := value;
    }

    /** `handleResetFormChange`: only the named field of the reset form changes. */
    method HandleResetFormChange(f: ResetField, value: string)
      modifies this
      ensures reset == old(reset).Set(f, value) && requestEmail == old(requestEmail) && step == old(step)
      ensures error == old(error) && success == old(success) && loading == old(loading) && resendLoading == old(resendLoading)
    {
      reset := reset.Set(f, value);
    }

    /** `handleOtpChange`: the code keeps only its first six digits. */
    method HandleOtpChange(value: string)
      modifies this
      ensures reset == old(reset).(otp := SanitizeOtp(value)) && requestEmail == old(requestEmail) && step == old(step)
      ensures error == old(error) && success == old(success) && loading == old(loading) && resendLoading == old(resendLoading)
    {
      reset := reset.(otp := SanitizeOtp(value));
    }

    /** `requestPasswordReset`: only a good result moves to `reset`, carrying the requested address. */
    method RequestReset(reply: ApiResult) returns (call: Call)
      modifies this
      ensures call == RequestCall(old(requestEmail))
      ensures !loading && requestEmail == old(requestEmail) && resendLoading == old(resendLoading)
      ensures Settle(reply, CODE_SENT, SEND_FAILED).Success? ==>
        && step == ResetStep && reset == old(reset).(email := old(requestEmail))
        && success == Some(Settle(reply, CODE_SENT, SEND_FAILED).text) && error.None?
      ensures Settle(reply, CODE_SENT, SEND_FAILED).Error? ==>
        && step == old(step) && reset == old(reset)
        && error == Some(Settle(reply, CODE_SENT, SEND_FAILED).text) && success.None?
    {
      loading := true;
      error := None;
      success := None;
      call := RequestCall(requestEmail);
      match Settle(reply, CODE_SENT, SEND_FAILED) {
        case Success(text) =>
          success := Some(text);
          reset := reset.(email := requestEmail);
          step := ResetStep;
        case Error(text) =>
          error := Some(text);
      }
      loading := false;
    }

    /** `confirmPasswordReset`: a good result is announced; the earlier notice is not cleared first. */
    method ConfirmReset(reply: ApiResult) returns (call: Call)
      modifies this
      ensures call == ConfirmCall(old(reset))
      ensures !loading && step == old(step) && reset == old(reset) && requestEmail == old(requestEmail)
      ensures resendLoading == old(resendLoading)
      ensures Settle(reply, RESET_DONE, RESET_FAILED).Success? ==>
        success == Some(Settle(reply, RESET_DONE, RESET_FAILED).text) && error.None?
      ensures Settle(reply, RESET_DONE, RESET_FAILED).Error? ==>
        error == Some(Settle(reply, RESET_DONE, RESET_FAILED).text) && success == old(success)
    {
      loading := true;
      error := None;
      call := ConfirmCall(reset);
      match Settle(reply, RESET_DONE, RESET_FAILED) {
        case Success(text) =>
          success := Some(text);
        case Error(text) =>
          error := Some(text);
      }
      loading := false;
    }

    /** `resendPasswordResetCode`: a new code clears the typed one; everything else stays. */
    method ResendCode(reply: ApiResult) returns (call: Call)
      modifies this
      ensures call == RequestCall(old(reset).email)
      ensures !resendLoading && step == old(step) && requestEmail == old(requestEmail) && loading == old(loading)
      ensures Settle(reply, CODE_RESENT, RESEND_FAILED).Success? ==>
        && reset == old(reset).(otp := "")
        && success == Some(Settle(reply, CODE_RESENT, RESEND_FAILED).text) && error.None?
      ensures Settle(reply, CODE_RESENT, RESEND_FAILED).Error? ==>
        && reset == old(reset)
        && error == Some(Settle(reply, CODE_RESENT, RESEND_FAILED).text) && success.None?
    {
      resendLoading := true;
      error := None;
      success := None;
      call := RequestCall(reset.email);
      match Settle(reply, CODE_RESENT, RESEND_FAILED) {
        case Success(text) =>
          success := Some(text);
          reset := reset.(otp := "");
        case Error(text) =>
          error := Some(text);
      }
      resendLoading := false;
    }

    /**
     * `handleSubmit`: in `request`, the address checks run first and a failure sends
     * nothing; in `reset`, the code and password checks do the same.
     */
    method HandleSubmit(requestReply: ApiResult, confirmReply: ApiResult) returns (calls: seq<Call>)
      modifies this
      ensures requestEmail == old(requestEmail)
      ensures old(step) == RequestStep && EmailCheck(old(requestEmail)).Some? ==>
        && calls == [] && error == EmailCheck(old(requestEmail)) && success.None?
        && step == RequestStep && reset == old(reset)
      ensures old(step) == RequestStep && EmailCheck(old(requestEmail)).None? ==>
        && calls == [RequestCall(old(requestEmail))]
        && (Settle(requestReply, CODE_SENT, SEND_FAILED).Success? ==>
              && step == ResetStep && reset == old(reset).(email := old(requestEmail))
              && success == Some(Settle(requestReply, CODE_SENT, SEND_FAILED).text) && error.None?)
        && (Settle(requestReply, CODE_SENT, SEND_FAILED).Error? ==>
              && step == RequestStep && reset == old(reset)
              && error == Some(Settle(requestReply, CODE_SENT, SEND_FAILED).text) && success.None?)
      ensures old(step) == RequestStep && step == ResetStep ==>
        && EmailCheck(old(requestEmail)).None? && Settle(requestReply, CODE_SENT, SEND_FAILED).Success?
        && reset.email == old(requestEmail)
      ensures old(step) == ResetStep ==> step == ResetStep && reset == old(reset)
      ensures old(step) == ResetStep && ResetCheck(old(reset).otp, old(reset).newPassword, old(reset).confirmPassword).Some? ==>
        && calls == [] && success.None?
        && error == ResetCheck(old(reset).otp, old(reset).newPassword, old(reset).confirmPassword)
      ensures old(step) == ResetStep && ResetCheck(old(reset).otp, old(reset).newPassword, old(reset).confirmPassword).None? ==>
        && calls == [ConfirmCall(old(reset))]
        && (Settle(confirmReply, RESET_DONE, RESET_FAILED).Success? ==>
              success == Some(Settle(confirmReply, RESET_DONE, RESET_FAILED).text) && error.None?)
        && (Settle(confirmReply, RESET_DONE, RESET_FAILED).Error? ==>
              error == Some(Settle(confirmReply, RESET_DONE, RESET_FAILED).text) && success.None?)
    {
      error := None;
      success := None;
      calls := [];
      if step == RequestStep {
        var check := EmailCheck(requestEmail);
        if check.Some? {
          error := check;
          return;
        }
        var call := RequestReset(requestReply);
        calls := [call];
      } else {
        var check := ResetCheck(reset.otp, reset.newPassword, reset.confirmPassword);
        if check.Some? {
          error := check;
          return;
        }
        var call := ConfirmReset(confirmReply);
        calls := [call];
      }
    }

    /** `goBackToEmailInput`: back to `request` with the reset form and notices cleared; the typed address stays. */
    method GoBackToEmailInput()
      modifies this
      ensures step == RequestStep && reset == EMPTY_RESET && error.None? && success.None?
      ensures requestEmail == old(requestEmail) && loading == old(loading) && resendLoading == old(resendLoading)
    {
      step := RequestStep;
      error := None;
      success := None;
      reset := EMPTY_RESET;
    }
  }
}
