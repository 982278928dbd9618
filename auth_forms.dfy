/**
 * The pure rules behind the sign-up, password-reset and change-password forms:
 * the one-time-code sanitiser, the full-name split, the password strength
 * predicate, the ordered validation ladders, the e-mail shape check, and the
 * rules that turn a backend error body into the message a form shows.
 */
module AuthForms {
  import opened Wrappers
  import opened Text
  import opened JsValues
  import opened Http

  // ---------------------------------------------------------------------------
  // One-time code

  const OTP_LENGTH: nat := 6

  /** `value.replace(/\D/g, '').slice(0, 6)`. */
  function SanitizeOtp(value: string): (otp: string)
    ensures AllDigits(otp)
    ensures |otp| <= OTP_LENGTH
    ensures |otp| == if |Digits(value)| < OTP_LENGTH then |Digits(value)| else OTP_LENGTH
    ensures otp == Digits(value)[..|otp|]
  {
    Take(Digits(value), OTP_LENGTH)
  }

  /** Sanitising an already sanitised code changes nothing. */
  lemma {:induction false} SanitizeOtpIdempotent(value: string)
    ensures SanitizeOtp(SanitizeOtp(value)) == SanitizeOtp(value)
  {
    var otp := SanitizeOtp(value);
    DigitsOfAllDigits(otp);
  }

  // ---------------------------------------------------------------------------
  // Full name

  /**
   * `const [first, ...rest] = name.trim().split(' '); last = rest.join(' ')`:
   * the first space-free piece, and everything after the first space.
   */
  function SplitName(fullName: string): (names: (string, string))
    ensures ' ' !in names.0
  {
    var parts := Split(Trim(fullName), ' ');
    (parts[0], Join(parts[1..], " "))
  }

  /** A one-word name has an empty last name; otherwise first, a space and last give back the trimmed name. */
  lemma {:induction false} SplitNameRejoins(fullName: string)
    ensures ' ' !in Trim(fullName) ==> SplitName(fullName) == (Trim(fullName), "")
    ensures ' ' in Trim(fullName) ==> SplitName(fullName).0 + " " + SplitName(fullName).1 == Trim(fullName)
  {
    var t := Trim(fullName);
    var parts := Split(t, ' ');
    JoinSplit(t, ' ');
    if |parts| == 1 {
      assert t == parts[0];
    } else {
      assert Join(parts, " ") == parts[0] + " " + Join(parts[1..], " ");
      assert t[|parts[0]|] == ' ';
    }
  }

  // ---------------------------------------------------------------------------
  // Password strength

  /** The characters of the class `[!@#$%^&*(),.?":{}|<>]`. */
  const SPECIALS: string := "!@#$%^&*(),.?\":{}|<>"

  const MIN_PASSWORD_LENGTH: nat := 8

  predicate HasLetter(s: string) { exists i :: 0 <= i < |s| && IsAsciiLetter(s[i]) }
  predicate HasDigit(s: string) { exists i :: 0 <= i < |s| && IsDigit(s[i]) }
  predicate HasSpecial(s: string) { exists i :: 0 <= i < |s| && s[i] in SPECIALS }

  /** `hasLetters && (hasNumbers || hasSpecial)`. */
  predicate Complex(s: string) { HasLetter(s) && (HasDigit(s) || HasSpecial(s)) }

  const PASSWORDS_DO_NOT_MATCH: string := "Passwords do not match"
  const PASSWORD_TOO_SHORT: string := "Password must be at least 8 characters long"
  const OTP_INVALID: string := "Please enter a valid 6-digit verification code"
  const PASSWORD_FIELDS_EMPTY: string := "Please fill in all password fields"
  const PASSWORD_TOO_SIMPLE: string := "Password must include letters and at least numbers or special characters"
  const ALL_FIELDS_REQUIRED: string := "All password fields are required"
  const SAME_AS_CURRENT: string := "New password cannot be the same as current password"
  const NEW_PASSWORDS_DO_NOT_MATCH: string := "New passwords do not match"
  const NEW_PASSWORD_TOO_SHORT: string := "New password must be at least 8 characters long"

  /** The sign-up step's checks: mismatch first, then length; nothing else is checked. */
  function RegisterCheck(password: string, confirmPassword: string): (error: Option<string>)
    ensures error.None? <==> password == confirmPassword && |password| >= MIN_PASSWORD_LENGTH
    ensures password != confirmPassword ==> error == Some(PASSWORDS_DO_NOT_MATCH)
    ensures password == confirmPassword && |password| < MIN_PASSWORD_LENGTH ==> error == Some(PASSWORD_TOO_SHORT)
  {
    if password != confirmPassword then Some(PASSWORDS_DO_NOT_MATCH)
    else if |password| < MIN_PASSWORD_LENGTH then Some(PASSWORD_TOO_SHORT)
    else None
  }

  /** The reset step's checks, in order: code length, both passwords given, match, length, complexity. */
  function ResetCheck(otp: string, newPassword: string, confirmPassword: string): (error: Option<string>)
    ensures error.None? <==>
      |otp| == OTP_LENGTH && newPassword != "" && newPassword == confirmPassword
      && |newPassword| >= MIN_PASSWORD_LENGTH && Complex(newPassword)
    ensures |otp| != OTP_LENGTH ==> error == Some(OTP_INVALID)
    ensures |otp| == OTP_LENGTH && (newPassword == "" || confirmPassword == "") ==> error == Some(PASSWORD_FIELDS_EMPTY)
    ensures |otp| == OTP_LENGTH && newPassword != "" && confirmPassword != "" && newPassword != confirmPassword ==>
      error == Some(PASSWORDS_DO_NOT_MATCH)
    ensures |otp| == OTP_LENGTH && newPassword != "" && newPassword == confirmPassword
            && |newPassword| < MIN_PASSWORD_LENGTH ==>
      error == Some(PASSWORD_TOO_SHORT)
    ensures |otp| == OTP_LENGTH && newPassword != "" && newPassword == confirmPassword
            && |newPassword| >= MIN_PASSWORD_LENGTH && !Complex(newPassword) ==>
      error == Some(PASSWORD_TOO_SIMPLE)
    ensures error.Some? ==>
      error.value in {OTP_INVALID, PASSWORD_FIELDS_EMPTY, PASSWORDS_DO_NOT_MATCH, PASSWORD_TOO_SHORT, PASSWORD_TOO_SIMPLE}
  {
    if |otp| != OTP_LENGTH then Some(OTP_INVALID)
    else if newPassword == "" || confirmPassword == "" then Some(PASSWORD_FIELDS_EMPTY)
    else if newPassword != confirmPassword then Some(PASSWORDS_DO_NOT_MATCH)
    else if |newPassword| < MIN_PASSWORD_LENGTH then Some(PASSWORD_TOO_SHORT)
    else if !Complex(newPassword) then Some(PASSWORD_TOO_SIMPLE)
    else None
  }

  /**
   * The change-password checks, in order: all three required, new differs from
   * current, new matches confirmation, length, complexity.
   */
  function ChangePasswordCheck(current: string, newPassword: string, confirmPassword: string): (error: Option<string>)
    ensures error.None? <==>
      current != "" && newPassword != "" && confirmPassword != "" && current != newPassword
      && newPassword == confirmPassword && |newPassword| >= MIN_PASSWORD_LENGTH && Complex(newPassword)
    ensures current == "" || newPassword == "" || confirmPassword == "" ==> error == Some(ALL_FIELDS_REQUIRED)
    ensures current != "" && newPassword != "" && confirmPassword != "" && current == newPassword ==>
      error == Some(SAME_AS_CURRENT)
    ensures current != "" && newPassword != "" && confirmPassword != "" && current != newPassword
            && newPassword != confirmPassword ==>
      error == Some(NEW_PASSWORDS_DO_NOT_MATCH)
    ensures current != "" && newPassword != "" && current != newPassword && newPassword == confirmPassword
            && |newPassword| < MIN_PASSWORD_LENGTH ==>
      error == Some(NEW_PASSWORD_TOO_SHORT)
    ensures current != "" && newPassword != "" && current != newPassword && newPassword == confirmPassword
            && |newPassword| >= MIN_PASSWORD_LENGTH && !Complex(newPassword) ==>
      error == Some(PASSWORD_TOO_SIMPLE)
    ensures error.Some? ==>
      error.value in {ALL_FIELDS_REQUIRED, SAME_AS_CURRENT, NEW_PASSWORDS_DO_NOT_MATCH, NEW_PASSWORD_TOO_SHORT, PASSWORD_TOO_SIMPLE}
  {
    if current == "" || newPassword == "" || confirmPassword == "" then Some(ALL_FIELDS_REQUIRED)
    else if current == newPassword then Some(SAME_AS_CURRENT)
    else if newPassword != confirmPassword then Some(NEW_PASSWORDS_DO_NOT_MATCH)
    else if |newPassword| < MIN_PASSWORD_LENGTH then Some(NEW_PASSWORD_TOO_SHORT)
    else if !Complex(newPassword) then Some(PASSWORD_TOO_SIMPLE)
    else None
  }

  /** The complexity rule of the reset form and of both change-password forms is one rule. */
  lemma SamePasswordRule(current: string, otp: string, newPassword: string)
    requires |otp| == OTP_LENGTH && current != "" && current != newPassword
    ensures ResetCheck(otp, newPassword, newPassword).None? <==> ChangePasswordCheck(current, newPassword, newPassword).None?
  {
  }

  // ---------------------------------------------------------------------------
  // E-mail shape

  /** A character of `[^\s@]`. */
  predicate IsAddressChar(c: char) { !IsJsWhitespace(c) && c != '@' }

  predicate AllAddressChars(s: string) { forall i :: 0 <= i < |s| ==> IsAddressChar(s[i]) }

  /** What `/^[^\s@]+@[^\s@]+\.[^\s@]+$/` accepts, stated through the positions of the `@` and of a `.`. */
  ghost predicate MatchesEmailPattern(s: string) {
    exists at, dot ::
      0 < at && at + 1 < dot && dot + 1 < |s| && s[at] == '@' && s[dot] == '.'
      && AllAddressChars(s[..at]) && AllAddressChars(s[at + 1..dot]) && AllAddressChars(s[dot + 1..])
  }

  /** A `.` with at least one character on each side. */
  predicate HasInnerDot(t: string) { exists j :: 0 < j < |t| - 1 && t[j] == '.' }

  /** The e-mail test, split at the first `@`. */
  predicate ValidEmail(s: string) {
    var at := IndexOf(s, '@');
    0 < at < |s| && AllAddressChars(s[..at]) && AllAddressChars(s[at + 1..]) && HasInnerDot(s[at + 1..])
  }

  lemma ValidEmailSound(s: string)
    requires ValidEmail(s)
    ensures MatchesEmailPattern(s)
  {
    var at := IndexOf(s, '@');
    var t := s[at + 1..];
    var j :| 0 < j < |t| - 1 && t[j] == '.';
    var dot := at + 1 + j;
    assert s[at + 1..dot] == t[..j];
    assert s[dot + 1..] == t[j + 1..];
  }

  /** The domain after the `@` is made of address characters and has an inner dot. */
  lemma DomainOfPattern(s: string, at: nat, dot: nat)
    requires 0 < at && at + 1 < dot && dot + 1 < |s| && s[dot] == '.'
    requires AllAddressChars(s[at + 1..dot]) && AllAddressChars(s[dot + 1..])
    ensures AllAddressChars(s[at + 1..]) && HasInnerDot(s[at + 1..])
  {
    var t := s[at + 1..];
    assert t == s[at + 1..dot] + [s[dot]] + s[dot + 1..];
    assert t[dot - at - 1] == '.';
  }

  lemma ValidEmailComplete(s: string)
    requires MatchesEmailPattern(s)
    ensures ValidEmail(s)
  {
    var at, dot :| 0 < at && at + 1 < dot && dot + 1 < |s| && s[at] == '@' && s[dot] == '.'
      && AllAddressChars(s[..at]) && AllAddressChars(s[at + 1..dot]) && AllAddressChars(s[dot + 1..]);
    assert forall j :: 0 <= j < at ==> s[..at][j] == s[j];
    assert IndexOf(s, '@') == at;
    DomainOfPattern(s, at, dot);
  }

  /** The executable test accepts exactly the strings the pattern matches. */
  lemma ValidEmailMatchesPattern(s: string)
    ensures ValidEmail(s) <==> MatchesEmailPattern(s)
  {
    if ValidEmail(s) {
      ValidEmailSound(s);
    }
    if MatchesEmailPattern(s) {
      ValidEmailComplete(s);
    }
  }

  const EMAIL_REQUIRED: string := "Please enter your email address"
  const EMAIL_INVALID: string := "Please enter a valid email address"

  /** The request step's checks: an address is required, then it must have the `x@y.z` shape. */
  function EmailCheck(email: string): (error: Option<string>)
    ensures error.None? <==> email != "" && ValidEmail(email)
    ensures email == "" ==> error == Some(EMAIL_REQUIRED)
  {
    if email == "" then Some(EMAIL_REQUIRED)
    else if !ValidEmail(email) then Some(EMAIL_INVALID)
    else None
  }

  // ---------------------------------------------------------------------------
  // Backend error bodies

  /** `errorData.detail || errorData.error || fallback`, as the sign-up screen's calls phrase it. */
  function DetailOrError(d: JsValue, fallback: string): (m: string)
    ensures Truthy(Prop(d, "detail")) ==> m == ToStr(Prop(d, "detail"))
    ensures !Truthy(Prop(d, "detail")) && Truthy(Prop(d, "error")) ==> m == ToStr(Prop(d, "error"))
    ensures !Truthy(Prop(d, "detail")) && !Truthy(Prop(d, "error")) ==> m == fallback
  {
    OrText(Or(Prop(d, "detail"), Prop(d, "error")), fallback)
  }

  /** Each array value replaced by its elements joined with `", "`. */
  function FlattenArrays(vs: seq<JsValue>): (r: seq<JsValue>)
    ensures |r| == |vs|
    ensures forall i :: 0 <= i < |vs| ==> r[i] == if vs[i].Arr? then Str(ArrayJoin(vs[i].items, ", ")) else vs[i]
  {
    if vs == [] then []
    else [if vs[0].Arr? then Str(ArrayJoin(vs[0].items, ", ")) else vs[0]] + FlattenArrays(vs[1..])
  }

  const REGISTRATION_FAILED: string := "Registration failed"

  /**
   * The sign-up failure message: `detail`, else every value of the body (arrays
   * joined with `", "`) joined with `", "`, else "Registration failed".
   */
  function RegistrationError(d: JsValue): (m: string)
    requires HasProperties(d)
    ensures Truthy(Prop(d, "detail")) ==> m == ToStr(Prop(d, "detail"))
    ensures !Truthy(Prop(d, "detail")) ==> m != ""
    ensures !Truthy(Prop(d, "detail")) && ArrayJoin(FlattenArrays(Values(d)), ", ") != "" ==>
      m == ArrayJoin(FlattenArrays(Values(d)), ", ")
    ensures !Truthy(Prop(d, "detail")) && Values(d) == [] ==> m == REGISTRATION_FAILED
  {
    if Truthy(Prop(d, "detail")) then ToStr(Prop(d, "detail"))
    else
      var joined := ArrayJoin(FlattenArrays(Values(d)), ", ");
      if joined == "" then REGISTRATION_FAILED else joined
  }

  const CHANGE_PASSWORD_FAILED: string := "Failed to change password. Please try again."

  /** `${v[0]}` for an array, `${v}` otherwise: how the first remaining entry is shown. */
  function EntryText(v: JsValue): string {
    if v.Arr? then ToStr(First(v)) else ToStr(v)
  }

  /**
   * Which backend complaint a change-password form shows: `old_password[0]`,
   * `new_password[0]`, `new_password2[0]` (each with its label), then
   * `non_field_errors[0]`, then `detail`, then the first entry as `key: value`,
   * then the fixed fallback.
   */
  function ChangePasswordError(d: JsValue): (m: string)
    requires HasProperties(d)
    ensures Truthy(Prop(d, "old_password")) ==> m == "Current password: " + ToStr(First(Prop(d, "old_password")))
    ensures !Truthy(Prop(d, "old_password")) && Truthy(Prop(d, "new_password")) ==>
      m == "New password: " + ToStr(First(Prop(d, "new_password")))
    ensures !Truthy(Prop(d, "old_password")) && !Truthy(Prop(d, "new_password")) && Truthy(Prop(d, "new_password2")) ==>
      m == "Confirm password: " + ToStr(First(Prop(d, "new_password2")))
    ensures
      (!Truthy(Prop(d, "old_password")) && !Truthy(Prop(d, "new_password")) && !Truthy(Prop(d, "new_password2"))
      && Truthy(Prop(d, "non_field_errors")))
      ==> m == ErrorMessage(First(Prop(d, "non_field_errors")))
    ensures
      (!Truthy(Prop(d, "old_password")) && !Truthy(Prop(d, "new_password")) && !Truthy(Prop(d, "new_password2"))
      && !Truthy(Prop(d, "non_field_errors")) && Truthy(Prop(d, "detail")))
      ==> m == ErrorMessage(Prop(d, "detail"))
    ensures
      (Entries(d) != [] && !Truthy(Prop(d, "old_password")) && !Truthy(Prop(d, "new_password"))
      && !Truthy(Prop(d, "new_password2")) && !Truthy(Prop(d, "non_field_errors")) && !Truthy(Prop(d, "detail")))
      ==> m == Entries(d)[0].0 + ": " + EntryText(Entries(d)[0].1)
    ensures
      (Entries(d) == [] && !Truthy(Prop(d, "old_password")) && !Truthy(Prop(d, "new_password"))
      && !Truthy(Prop(d, "new_password2")) && !Truthy(Prop(d, "non_field_errors")) && !Truthy(Prop(d, "detail")))
      ==> m == CHANGE_PASSWORD_FAILED
  {
    if Truthy(Prop(d, "old_password")) then "Current password: " + ToStr(First(Prop(d, "old_password")))
    else if Truthy(Prop(d, "new_password")) then "New password: " + ToStr(First(Prop(d, "new_password")))
    else if Truthy(Prop(d, "new_password2")) then "Confirm password: " + ToStr(First(Prop(d, "new_password2")))
    else if Truthy(Prop(d, "non_field_errors")) then ErrorMessage(First(Prop(d, "non_field_errors")))
    else if Truthy(Prop(d, "detail")) then ErrorMessage(Prop(d, "detail"))
    else if |Keys(d)| > 0 then Entries(d)[0].0 + ": " + EntryText(Entries(d)[0].1)
    else CHANGE_PASSWORD_FAILED
  }

  /**
   * The error a `fetch` raises before its success body is used: the network
   * failure, or a rejected status whose body gives `detail || error || fallback`.
   */
  function StatusError(reply: Exchange, fallback: string): (e: Option<string>)
    ensures e.None? <==> Succeeded(reply)
    ensures reply.NetworkError? ==> e == Some(reply.message)
    ensures reply.Response? && !IsOk(reply.status) && reply.body.Json? && HasProperties(reply.body.value) ==>
      e == Some(DetailOrError(reply.body.value, fallback))
  {
    match reply
    case NetworkError(m) => Some(m)
    case Response(status, _, body) =>
      if IsOk(status) then None
      else
        match body
        case NotJson(m) => Some(m)
        case Json(v) => Some(if HasProperties(v) then DetailOrError(v, fallback) else PropertyReadMessage(v, "detail"))
  }

  /** The error reading a success body raises: its parse failure, or the TypeError of reading `firstRead` off `null`. */
  function BodyError(body: Parsed, firstRead: string): (e: Option<string>)
    ensures e.None? <==> body.Json? && HasProperties(body.value)
    ensures body.NotJson? ==> e == Some(body.message)
  {
    match body
    case NotJson(m) => Some(m)
    case Json(v) => if HasProperties(v) then None else Some(PropertyReadMessage(v, firstRead))
  }

  /** A `fetch` whose status is checked with `detail || error || fallback` and whose success body is then read. */
  function FetchError(reply: Exchange, fallback: string, firstRead: string): (e: Option<string>)
    ensures e.None? <==> Succeeded(reply) && reply.body.Json? && HasProperties(reply.body.value)
    ensures StatusError(reply, fallback).Some? ==> e == StatusError(reply, fallback)
  {
    if StatusError(reply, fallback).Some? then StatusError(reply, fallback) else BodyError(reply.body, firstRead)
  }

  /** The error a rejected sign-up request raises: the network failure, or the registration message of its body. */
  function RegistrationStatusError(reply: Exchange): (e: Option<string>)
    ensures e.None? <==> Succeeded(reply)
    ensures reply.Response? && !IsOk(reply.status) && reply.body.Json? && HasProperties(reply.body.value) ==>
      e == Some(RegistrationError(reply.body.value))
  {
    match reply
    case NetworkError(m) => Some(m)
    case Response(status, _, body) =>
      if IsOk(status) then None
      else
        match body
        case NotJson(m) => Some(m)
        case Json(v) => Some(if HasProperties(v) then RegistrationError(v) else PropertyReadMessage(v, "detail"))
  }
}
