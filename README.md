# Scholarship Scanner front end — a verified model of its client-side logic

Scholarship Scanner's web front end is a Next.js client. Almost everything it does is a
`fetch` to a Django backend, and beneath those calls there is deterministic logic:

- the session-token store and the start-up sequence of the authentication provider
  (verify, at most one refresh, then the current-user read);
- the login, sign-up, Google sign-in and logout storage rules;
- the two-step sign-up and password-reset screens with their code sanitiser and
  password checks;
- the two change-password forms and the order in which they pick a backend error;
- the profile form's load and save;
- the search screen's filters, query string, address round trip, sort toggle,
  option de-duplication and bookmark toggle;
- the home search bar that hands its filters to the search screen;
- the saved-scholarships and applications pages of the profile;
- the featured strip and the plain scholarship list of the home page;
- the request helper (`ApiService`), the configuration module and the scholarship
  and authentication services built on it.

The model treats every backend reply as an input. A reply is a network failure with
its message, or a response with a status, a status text and a body that parsed as
JSON or did not (`Http.Exchange`). A call made through the request helper is given
as the value its promise settles with (`ApiService.ApiResult`). JavaScript values
are a datatype (`JsValues.JsValue`) with the language's truthiness, `String(..)`,
`||` and property reads, including the `TypeError` a read off `null` raises.

Each React component becomes a class. Its `useState` variables are the class's
fields, and its handlers are methods that take the backend replies as parameters.
Each handler returns the requests it issued, so "no request is sent" can be stated.
`localStorage` is a class over a `map<string, string>` (`Storage.LocalStorage`).
Pure rules (the storage rules, the validation ladders, query construction,
de-duplication, the deadline badge) are functions, and lemmas relate them.

Files, one module each:

- `wrappers.dfy`, `text.dfy`, `js_values.dfy`, `http.dfy`, `storage.dfy`: shared
  vocabulary.
- `url_encoding.dfy`, `url_query.dfy`: UTF-8, form-urlencoding,
  `encodeURIComponent` and `URLSearchParams`, with their round trips.
- `config.dfy`, `api_service.dfy`, `auth_service.dfy`, `scholarship_service.dfy`:
  the services.
- `auth_context.dfy`: the authentication provider.
- `auth_forms.dfy`: the sanitiser, the password and e-mail checks and the error
  choices that the sign-up, reset and password screens share.
- One file per screen or component: `register_page.dfy`, `forgot_password_page.dfy`,
  `password_page.dfy`, `profile_page.dfy`, `search_page.dfy`,
  `home_search_filter.dfy`, `saved_page.dfy`, `applications_page.dfy`,
  `featured_providers.dfy`, `scholarship_list.dfy`.

Where the repository's own prose and its code disagree, the model follows the code:

- A token that verifies but whose `me` read fails loses only `authToken`;
  `refreshToken` stays.
- The refresh path of the start-up sequence makes three requests (verify, refresh,
  `me`), not two.
- `AuthService.isAuthenticated` tests `!== null`, so an empty stored token counts as
  present. The provider's start-up and `getAuthHeaders` test truthiness, so there an
  empty token counts as absent.

## Model

| member | source | states |
|---|---|---|
| Config.EnvOr | src/utils/config.ts:10-18 | an unset or empty environment variable gives the default, a non-empty one is used as it is |
| Config.Load | src/utils/config.ts:8-23 | the API base defaults to `http://127.0.0.1:8000/api`, the JWT lifetime is `parseInt` of the variable or of `"3600"`, social sign-in is on exactly for the string `"true"` |
| Config.ParseIntOfDecimal | src/utils/config.ts:14 | `parseInt` reads back every integer that `String(n)` writes |
| Config.DefaultJwtExpiry | src/utils/config.ts:14 | without the variable the token lifetime is 3600 |
| Config.StripLeadingSlash | src/utils/config.ts:32 | exactly one leading `/` is removed, and only when present |
| Config.GetApiUrl | src/utils/config.ts:30-34 | the URL is the configured base as it is, one `/`, then the path without its leading `/` |
| Config.GetApiUrlLeadingSlash | src/utils/config.ts:32 | `getApiUrl("/x")` equals `getApiUrl("x")` |
| ApiService.StripTrailingSlash | src/services/apiService.ts:14 | exactly one trailing `/` is removed from the base, and only when present |
| ApiService.GetApiUrl | src/services/apiService.ts:10-16 | the URL starts with the base, ends with the slash-stripped path, and has the length of the two joined by one `/` |
| ApiService.GetApiUrlLeadingSlash | src/services/apiService.ts:12 | a leading `/` on the endpoint makes no difference |
| ApiService.GetApiUrlVersusConfig | src/services/apiService.ts:14 | the helper's URL equals the configuration module's unless the base ends in `/`, where the configuration module's URL keeps a doubled `//` |
| ApiService.GetAuthHeaders | src/services/apiService.ts:30-43 | the JSON content type is always present; `Authorization: Bearer <token>` is present exactly in a browser with a non-empty `authToken`; no other header |
| ApiService.DefaultAuthenticated | src/services/apiService.ts:51-123 | `get` and `post` default to unauthenticated, `put` and `delete` to authenticated |
| ApiService.DefaultCall | src/services/apiService.ts:51-123 | a call left at the default authenticates exactly for PUT and DELETE |
| ApiService.ParseResponse | src/services/apiService.ts:142-149 | an empty JSON body is `{}`, a non-JSON content type gives the text, a non-empty JSON body gives its parsed value, and only an unparsable non-empty JSON body fails, with the parse error |
| ApiService.HandleError | src/services/apiService.ts:156-176 | the message is `detail`, else `message`, else `error`, else `HTTP error <status>`; an unreadable body gives the status text; the status is always attached |
| ApiService.Send | src/services/apiService.ts:51-135 | the request goes to `getApiUrl(endpoint)` with the payload; the bearer header is sent exactly when asked for, in a browser, with a token; the result is the network error, `handleError` for a non-ok status, or `parseResponse` |
| ApiService.Get | src/services/apiService.ts:51-65 | a GET without a body, with `Send`'s header and result rules |
| ApiService.Post | src/services/apiService.ts:74-89 | a POST of the data, with `Send`'s header and result rules |
| ApiService.Put | src/services/apiService.ts:98-113 | a PUT of the data, with `Send`'s header and result rules |
| ApiService.Delete | src/services/apiService.ts:121-135 | a DELETE without a body, with `Send`'s header and result rules |
| Storage.Cleared | src/services/authService.ts:51-54 | both session slots are removed and every other key is kept |
| Storage.ClearedIdempotent | src/services/authService.ts:51-54 | clearing twice is clearing once |
| Storage.GetItem | src/services/apiService.ts:36 | `getItem` answers the stored string, or `null` for a missing key |
| Storage.LocalStorage.constructor | src/services/apiService.ts:36 | the store starts with the given entries |
| Storage.LocalStorage.SetItem | src/services/authService.ts:39 | the key is set and nothing else changes |
| Storage.LocalStorage.RemoveItem | src/services/authService.ts:52 | the key is removed and nothing else changes |
| AuthService.CallFor | src/services/authService.ts:10-123 | each operation calls its own route; only the current-user read is a GET and only it is authenticated; every other operation POSTs its payload |
| AuthService.PathShape | src/services/authService.ts:15-122 | every route starts with `user/auth/` and ends with a slash |
| AuthService.PathsDistinct | src/services/authService.ts:10-123 | distinct operations use distinct routes |
| AuthService.StoreTokens | src/services/authService.ts:38-43 | `authToken` is written only for a truthy `access`, `refreshToken` only together with it, and no other key changes |
| AuthService.StoreTokenPair | src/services/authService.ts:38-43 | the store after the writes is `StoreTokens` of the store before |
| AuthService.AfterTokenReply | src/services/authService.ts:35-46 | a failed request or a `null` reply leaves the store unchanged; otherwise the storage rule applies |
| AuthService.Settled | src/services/authService.ts:35-46 | the caller gets the reply back: a reply with properties unchanged, failures as they were, and a `null` reply as the `TypeError` of reading `access` |
| AuthService.NoAccessNoChange | src/services/authService.ts:38 | a reply without a truthy `access` leaves both slots unchanged |
| AuthService.SignIn | src/services/authService.ts:35-46 | the shared body of login and Google sign-in: its call, its storage rule and what it settles with |
| AuthService.LogIn | src/services/authService.ts:35-46 | `login` posts the credentials, applies the storage rule and settles with the reply |
| AuthService.AuthenticateWithGoogle | src/services/authService.ts:86-97 | Google sign-in follows exactly the storage rule of `login` |
| AuthService.LogOut | src/services/authService.ts:51-54 | both slots are removed |
| AuthService.Refresh | src/services/authService.ts:66-74 | a truthy `access` replaces only `authToken`; `refreshToken` is never touched; otherwise nothing changes |
| AuthService.IsAuthenticated | src/services/authService.ts:102-104 | true exactly when the `authToken` key is present, whatever its value |
| AuthContext.SignedOut | src/app/Authentication/context/AuthContext.tsx:88-93 | both slots removed, no user, not authenticated, not loading |
| AuthContext.SignedOutIdempotent | src/app/Authentication/context/AuthContext.tsx:88-93 | signing out twice is the same as once |
| AuthContext.FetchedUser | src/app/Authentication/context/AuthContext.tsx:121-128 | a user comes only from an ok JSON reply, named by `full_name`, otherwise `name` |
| AuthContext.AfterFetchUser | src/app/Authentication/context/AuthContext.tsx:111-143 | loading ends and the flags agree; a good reply keeps the store; any failure removes only `authToken`; `refreshToken` always stays |
| AuthContext.AfterCheckAuth | src/app/Authentication/context/AuthContext.tsx:47-109 | without a token only loading ends; a verify that throws signs out; a failed verify with no refresh token, a failed refresh or a thrown refresh signs out; a good refresh overwrites `authToken` only and then ends exactly as `fetchUserData` with the new token, recording the `me` reply's user; loading always ends and the flags agree |
| AuthContext.CheckAuthCalls | src/app/Authentication/context/AuthContext.tsx:47-109 | no request without a token; otherwise verify first; verify alone after a network error, or after a rejected verify with no refresh token; after a rejected verify with a refresh token the refresh request is second, and `me` is third exactly when the refresh succeeds; at most three requests in all |
| AuthContext.BodyMessage | src/app/Authentication/context/AuthContext.tsx:246-249 | a rejected reply's message is `body[key]`, else the fallback; an unparsable body gives the parse error |
| AuthContext.ReplyFailure | src/app/Authentication/context/AuthContext.tsx:199-204 | a reply is used exactly when it is ok and its body is a readable JSON object |
| AuthContext.LoginTokens | src/app/Authentication/context/AuthContext.tsx:255-265 | `access`, else the legacy `token`, goes to `authToken`; a truthy `refresh` goes to `refreshToken` independently; nothing else changes |
| AuthContext.LoginUser | src/app/Authentication/context/AuthContext.tsx:268-272 | the recorded user has the reply's `user.id`, its `full_name`, else its `name`, and its e-mail, else the typed one |
| AuthContext.LoginResult | src/app/Authentication/context/AuthContext.tsx:231-281 | a failed login leaves no token stored and the user unchanged; it succeeds exactly for a readable ok reply; a non-ok reply throws `detail`, else "Login failed", and every other rejected reply throws its failure message; a successful login records `LoginUser` of the reply; loading ends |
| AuthContext.RegisterResult | src/app/Authentication/context/AuthContext.tsx:283-329 | a network, status or body failure throws its message and changes nothing but loading; a readable ok reply with a truthy `token` stores it and signs the user in with `user.name || name` and `user.email || email`; without one the reply changes nothing but loading |
| AuthContext.RegisterPayloadFields | src/app/Authentication/context/AuthContext.tsx:286-302 | the payload carries the e-mail, the password as `password` and `password2`, the name as typed, a first name without spaces and a last name that rejoin to the trimmed name; a one-word name has an empty last name |
| AuthContext.GoogleTokens | src/app/Authentication/context/AuthContext.tsx:207-217 | `access` (with `refresh` alongside) under the service's rule, else the legacy `token`; `refreshToken` is untouched without `access` |
| AuthContext.GooglePayload | src/app/Authentication/context/AuthContext.tsx:192-196 | the exchange payload carries the Google token and the user object's `email` and `name` as `full_name` |
| AuthContext.GoogleResult | src/app/Authentication/context/AuthContext.tsx:184-229 | a `null` user object throws before any request; a rejected reply throws its message and changes nothing; an accepted reply stores `GoogleTokens` and then signs the user in from `user` exactly when `user` is readable, else throws with the tokens kept; loading is untouched |
| AuthContext.AuthProvider.constructor | src/app/Authentication/context/AuthContext.tsx:39-42 | the provider mounts with no user, loading, not authenticated |
| AuthContext.AuthProvider.SignOut | src/app/Authentication/context/AuthContext.tsx:88-93 | the state becomes `SignedOut` of the old state |
| AuthContext.AuthProvider.FetchUserData | src/app/Authentication/context/AuthContext.tsx:111-143 | issues the `me` read with the token and ends in `AfterFetchUser` |
| AuthContext.AuthProvider.CheckAuth | src/app/Authentication/context/AuthContext.tsx:47-109 | issues `CheckAuthCalls` and ends in `AfterCheckAuth` |
| AuthContext.AuthProvider.Login | src/app/Authentication/context/AuthContext.tsx:231-281 | posts the credentials and ends in `LoginResult` |
| AuthContext.AuthProvider.Register | src/app/Authentication/context/AuthContext.tsx:283-329 | posts the split-name payload and ends in `RegisterResult` |
| AuthContext.AuthProvider.HandleGoogleCallback | src/app/Authentication/context/AuthContext.tsx:184-229 | posts the Google token and ends in `GoogleResult` |
| AuthContext.AuthProvider.Logout | src/app/Authentication/context/AuthContext.tsx:330-337 | both slots removed, no user, not authenticated |
| AuthForms.SanitizeOtp | src/app/Authentication/register/page.tsx:50 | the code holds only digits, at most six, and is the first six digits of the input in order |
| AuthForms.SanitizeOtpIdempotent | src/app/Authentication/forgot-password/page.tsx:53 | sanitising twice is sanitising once |
| AuthForms.SplitName | src/app/Authentication/register/page.tsx:119-120 | the first name has no space; a one-word name has an empty last name |
| AuthForms.SplitNameRejoins | src/app/Authentication/register/page.tsx:119-120 | first name, a space and the last name give back the trimmed full name |
| AuthForms.RegisterCheck | src/app/Authentication/register/page.tsx:205-213 | a mismatch is reported before the length; nothing else is checked |
| AuthForms.ResetCheck | src/app/Authentication/forgot-password/page.tsx:143-172 | in order: code length 6, both passwords given, match, length at least 8, complexity; each rung's message is reported when every earlier check passed and that one fails, and there is no error exactly when all pass |
| AuthForms.ChangePasswordCheck | src/app/profile/password/page.tsx:39-75 | in order: all fields given, new differs from current, match, length at least 8, complexity; each rung's message is reported when every earlier check passed and that one fails; a strong password equal to the current one is refused |
| AuthForms.SamePasswordRule | src/app/profile/page.tsx:204-240 | the reset screen and both change-password forms accept a new password by one and the same rule |
| AuthForms.ValidEmailSound | src/app/Authentication/forgot-password/page.tsx:134-135 | the e-mail test accepts only strings that the pattern `^[^\s@]+@[^\s@]+\.[^\s@]+$` matches |
| AuthForms.DomainOfPattern | src/app/Authentication/forgot-password/page.tsx:134 | in a matching string, the part after the `@` is made of address characters and has an inner dot |
| AuthForms.ValidEmailComplete | src/app/Authentication/forgot-password/page.tsx:134-135 | every string the pattern matches passes the e-mail test |
| AuthForms.ValidEmailMatchesPattern | src/app/Authentication/forgot-password/page.tsx:134-135 | the e-mail test and the pattern accept exactly the same strings |
| AuthForms.EmailCheck | src/app/Authentication/forgot-password/page.tsx:128-138 | an empty address asks for one; otherwise a mismatch of the pattern is refused; a matching address passes |
| AuthForms.DetailOrError | src/app/Authentication/register/page.tsx:73 | the message is `detail`, else `error`, else the fallback |
| AuthForms.FlattenArrays | src/app/Authentication/register/page.tsx:141-142 | each array value becomes its elements joined with `", "`, and other values stay |
| AuthForms.RegistrationError | src/app/Authentication/register/page.tsx:139-144 | `detail`; else the values (arrays joined with `", "`) joined with `", "` when that is non-empty; else "Registration failed" |
| AuthForms.ChangePasswordError | src/app/profile/password/page.tsx:102-120 | each step in turn, the first truthy one chosen: `old_password[0]`, `new_password[0]`, `new_password2[0]` with their labels, `non_field_errors[0]`, `detail`, the first entry as `key: value`, then the fixed fallback for an empty body |
| AuthForms.StatusError | src/app/Authentication/register/page.tsx:103-106 | a network failure gives its message; a non-ok status gives `detail || error || fallback`; an ok status gives none |
| AuthForms.BodyError | src/app/Authentication/register/page.tsx:76-77 | reading a success body fails exactly when it does not parse or is `null` |
| AuthForms.FetchError | src/app/Authentication/register/page.tsx:62-79 | the status error, else the success body's error |
| AuthForms.RegistrationStatusError | src/app/Authentication/register/page.tsx:138-145 | a network failure or the registration message of a rejected body |
| RegisterPage.Form.Set | src/app/Authentication/register/page.tsx:39-45 | only the named field changes |
| RegisterPage.CompletionPayloadFields | src/app/Authentication/register/page.tsx:119-135 | the payload names the typed e-mail and code, and its first and last names rejoin to the trimmed full name |
| RegisterPage.CompletionError | src/app/Authentication/register/page.tsx:138-147 | completion succeeds exactly for an ok reply with a readable JSON object; a rejected status gives its message, an unparsable body its parse error, a `null` body the `TypeError` of reading `access` |
| RegisterPage.CompletionTokens | src/app/Authentication/register/page.tsx:150-155 | tokens are stored under the login rule only on success; otherwise the store is unchanged |
| RegisterPage.RegisterPage.constructor | src/app/Authentication/register/page.tsx:22-36 | the screen starts in `register` with empty forms and no messages |
| RegisterPage.RegisterPage.HandleChange | src/app/Authentication/register/page.tsx:39-45 | only the named field changes |
| RegisterPage.RegisterPage.HandleOtpChange | src/app/Authentication/register/page.tsx:47-55 | the code becomes the sanitised input; the e-mail stays |
| RegisterPage.RegisterPage.SendVerificationEmail | src/app/Authentication/register/page.tsx:57-85 | only a successful send moves to `verify`, with the e-mail and an empty code; a failure keeps the step and sets the error |
| RegisterPage.RegisterPage.CompleteRegistration | src/app/Authentication/register/page.tsx:117-167 | the store becomes `CompletionTokens`; success announces the registration; failure sets the error |
| RegisterPage.RegisterPage.VerifyOtp | src/app/Authentication/register/page.tsx:87-115 | a rejected code sets the error and stores nothing; an accepted one goes on to completion |
| RegisterPage.RegisterPage.ResendOtp | src/app/Authentication/register/page.tsx:169-196 | a new code clears the typed one; the step and e-mail stay |
| RegisterPage.RegisterPage.HandleSubmit | src/app/Authentication/register/page.tsx:198-225 | a failed password check or a code that is not six characters sends nothing; a good send moves to `verify` with the typed e-mail, an empty code and the reply's message (else "Verification code sent"), a failed one stays with its error; a rejected code stops with its error; an accepted code posts the completion, stores its tokens and reports success or the completion error |
| RegisterPage.RegisterPage.GoBackToRegister | src/app/Authentication/register/page.tsx:227-232 | back to `register` with empty e-mail, code and messages |
| ForgotPasswordPage.ResetForm.Set | src/app/Authentication/forgot-password/page.tsx:42-48 | only the named field changes |
| ForgotPasswordPage.Settle | src/app/Authentication/forgot-password/page.tsx:65-75 | success exactly for a readable result, showing `message` or the default; a rejection shows its message or the fallback |
| ForgotPasswordPage.ResetCallsArePosts | src/services/authService.ts:109-123 | both reset calls are unauthenticated POSTs of the typed data to distinct routes |
| ForgotPasswordPage.ForgotPasswordPage.constructor | src/app/Authentication/forgot-password/page.tsx:20-33 | the screen starts in `request` with empty forms and no messages |
| ForgotPasswordPage.ForgotPasswordPage.HandleEmailChange | src/app/Authentication/forgot-password/page.tsx:36-40 | only the request address changes |
| ForgotPasswordPage.ForgotPasswordPage.HandleResetFormChange | src/app/Authentication/forgot-password/page.tsx:42-48 | only the named reset field changes |
| ForgotPasswordPage.ForgotPasswordPage.HandleOtpChange | src/app/Authentication/forgot-password/page.tsx:50-58 | the code becomes the sanitised input |
| ForgotPasswordPage.ForgotPasswordPage.RequestReset | src/app/Authentication/forgot-password/page.tsx:60-78 | only a good result moves to `reset`, copying the typed address; a failure keeps the step and sets the error |
| ForgotPasswordPage.ForgotPasswordPage.ConfirmReset | src/app/Authentication/forgot-password/page.tsx:80-103 | a good result is announced; a failure keeps the step and sets the error |
| ForgotPasswordPage.ForgotPasswordPage.ResendCode | src/app/Authentication/forgot-password/page.tsx:105-119 | a new code clears only the typed code; the step stays `reset` |
| ForgotPasswordPage.ForgotPasswordPage.HandleSubmit | src/app/Authentication/forgot-password/page.tsx:121-176 | the first failing check is reported and nothing is sent; otherwise the step's request is made; in the request step a success moves to the reset step with the address and the `message || "Password reset code sent…"` text, and a failure stays with the error text; in the reset step the confirm text or error is shown |
| ForgotPasswordPage.ForgotPasswordPage.GoBackToEmailInput | src/app/Authentication/forgot-password/page.tsx:178-188 | back to `request` with every reset field empty and no messages |
| PasswordPage.PasswordForm.Set | src/app/profile/password/page.tsx:24-30 | only the named field changes |
| PasswordPage.ChangeFailure | src/app/profile/password/page.tsx:96-134 | a network failure, the backend error in its fixed precedence, or a success body that cannot be read |
| PasswordPage.PasswordPage.constructor | src/app/profile/password/page.tsx:15-22 | empty fields, not saving, no messages |
| PasswordPage.PasswordPage.HandleChange | src/app/profile/password/page.tsx:24-30 | only the named field changes |
| PasswordPage.PasswordPage.HandleSubmit | src/app/profile/password/page.tsx:31-138 | a failed check or a missing token sends nothing; a sent request passed every check; the fields are cleared only after success, with `message` or the default; saving always ends |
| ProfilePage.ProfileForm.Set | src/app/profile/page.tsx:101-107 | only the named field changes |
| ProfilePage.LoadedProfile | src/app/profile/page.tsx:82-95 | the nested `profile` or the top level supplies the fields; the name is `full_name`, else `name`, else the previous one; the birth date is cut to 10 characters; missing fields become empty |
| ProfilePage.FalsyProfileUsesTopLevel | src/app/profile/page.tsx:84 | a falsy `profile` defers to the top-level fields |
| ProfilePage.AfterProfileFetch | src/app/profile/page.tsx:73-100 | a readable success loads the profile into the form (unless building it throws); a failure, an unparsable body or a `null` body leaves the form; the password fields are kept |
| ProfilePage.DateOrNull | src/app/profile/page.tsx:177 | an empty birth date is sent as `null`, any other as its text |
| ProfilePage.SavePayloadShape | src/app/profile/page.tsx:170-179 | the payload carries `full_name`, and under `profile` the bio, education, phone number and country, and the birth date or `null` exactly when it is empty; no password |
| ProfilePage.ErrorBody | src/app/profile/page.tsx:183 | an unparsable error body reads as `{detail: "Could not parse error response"}` |
| ProfilePage.SaveFailure | src/app/profile/page.tsx:181-191 | a network failure's message; for a rejection, the parse message or `detail` else `Failed to update profile: <status>`; none exactly on success |
| ProfilePage.ChangeFailure | src/app/profile/page.tsx:255-290 | a network failure's message, or the change-password precedence over the error body; none exactly on success |
| ProfilePage.UnparsableChangeError | src/app/profile/page.tsx:257 | a rejected change with an unparsable body shows "Could not parse error response" |
| ProfilePage.ChangeFailureVersusPasswordPage | src/app/profile/page.tsx:255-278 | both change-password screens report the same error for a parsed rejection and a network failure; they differ on an unreadable success body |
| ProfilePage.ProfilePage.constructor | src/app/profile/page.tsx:35-51 | an empty form, not editing, not saving, no messages |
| ProfilePage.ProfilePage.FetchUserProfile | src/app/profile/page.tsx:73-100 | nothing is sent without a token; otherwise the form becomes `AfterProfileFetch` |
| ProfilePage.ProfilePage.OnUser | src/app/profile/page.tsx:54-65 | a new user copies its name and e-mail, then fetches the profile |
| ProfilePage.ProfilePage.HandleChange | src/app/profile/page.tsx:101-107 | only the named field changes |
| ProfilePage.ProfilePage.SavePersonalInfo | src/app/profile/page.tsx:156-195 | a token is required; success leaves edit mode; the form never changes |
| ProfilePage.ProfilePage.HandleChangePassword | src/app/profile/page.tsx:196-294 | the ladder of the password page; a success clears only the three password fields; saving always ends |
| SearchPage.KeysListedAndNamed | src/app/scholarships/search/page.tsx:9-18 | every filter key is listed once and keys have distinct names |
| SearchPage.Filters.Set | src/app/scholarships/search/page.tsx:225-227 | only the given key changes |
| SearchPage.NoFiltersEmpty | src/app/scholarships/search/page.tsx:228-239 | the cleared record has every key empty |
| SearchPage.FiltersEqual | src/app/scholarships/search/page.tsx:9-18 | two records that agree on every key are equal |
| SearchPage.FilterParamsGet | src/app/scholarships/search/page.tsx:74-83 | a key is found in the query exactly when its filter is non-empty, with that value |
| SearchPage.FilterParamsPairs | src/app/scholarships/search/page.tsx:74-83 | every pair of the query names a filter and carries its non-empty value |
| SearchPage.QueryHoldsNonEmptyFilters | src/app/scholarships/search/page.tsx:71-83 | the query holds exactly the non-empty filters, in declaration order |
| SearchPage.BuildQuery | src/app/scholarships/search/page.tsx:71-83 | the loop builds exactly that query |
| SearchPage.ApplyUrlValuesGet | src/app/scholarships/search/page.tsx:52-59 | a filter is overwritten exactly when the address gives it a non-empty value |
| SearchPage.FromUrlOverwritesNonEmpty | src/app/scholarships/search/page.tsx:52-63 | `FromUrl`: only filters with a non-empty parameter change; with none, the record is unchanged |
| SearchPage.AnyUrlValueInKeys | src/app/scholarships/search/page.tsx:52-56 | the change flag is set exactly when one of the keys has a value |
| SearchPage.AnyUrlValue | src/app/scholarships/search/page.tsx:52-62 | the filters are replaced exactly when some filter has a value in the address |
| SearchPage.UrlRoundTrip | src/app/scholarships/search/page.tsx:52-85 | the address written from a filter record gives that record back on a fresh screen |
| SearchPage.NextSort | src/app/scholarships/search/page.tsx:241-245 | the same field while ascending turns descending; anything else is ascending |
| SearchPage.SortToggles | src/app/scholarships/search/page.tsx:241-245 | choosing one field repeatedly alternates its direction |
| SearchPage.FindIndex | src/app/scholarships/search/page.tsx:338 | the index of the first element with the key, or -1 |
| SearchPage.FirstIffUnseen | src/app/scholarships/search/page.tsx:337-339 | an element is kept exactly when no earlier element has its key |
| SearchPage.KeySetGrows | src/app/scholarships/search/page.tsx:337-339 | the keys seen only grow along the list |
| SearchPage.KeepFirstsIsDedupSeen | src/app/scholarships/search/page.tsx:337-339 | the index filter equals a single walk that remembers the keys seen |
| SearchPage.DedupAgreesWithSeenSet | src/app/scholarships/search/page.tsx:337-339 | the de-duplication agrees with the seen-set walk |
| SearchPage.KeepFirstsShape | src/app/scholarships/search/page.tsx:337-339 | the kept elements are a sub-sequence with distinct keys covering every key |
| SearchPage.DedupKeepsFirstOccurrences | src/app/scholarships/search/page.tsx:337-339 | the first occurrence of each id is kept, order is preserved, and ids are unique |
| SearchPage.OptionsAreDistinct | src/app/scholarships/search/page.tsx:334-360 | `FieldOptions` offers every id once, as first seen; `CountryOptions` likewise by name |
| SearchPage.OptionsCoverEntries | src/app/scholarships/search/page.tsx:334-360 | `FieldOptions` holds only the entries' records and one for every id among them; `CountryOptions` holds exactly the entries' truthy countries; a listing that is not an array offers nothing |
| SearchPage.SavedIdsOfSpec | src/app/scholarships/search/page.tsx:137 | the ids are read exactly when every record has properties, and are then exactly the numbers of the records' `scholarship`; a `null` record throws |
| SearchPage.SavedIds | src/app/scholarships/search/page.tsx:135-139 | an array body gives its ids; anything else gives none |
| SearchPage.FindSaved | src/app/scholarships/search/page.tsx:170 | a hit is a record whose `scholarship` is the id; nothing is found exactly when every item is readable and none matches |
| SearchPage.FindSavedIsFirst | src/app/scholarships/search/page.tsx:170 | a hit is the first match, with every earlier item readable; the search throws exactly when an unreadable item comes before any match |
| SearchPage.UnsaveTarget | src/app/scholarships/search/page.tsx:159-172 | a network failure or a body that is not an array throws, a rejected listing finds nothing, and a hit is an item of the listing whose `scholarship` is the id; nothing is found exactly when every item is readable and none matches; on an array listing the target is `find`'s first match (`FindSaved`, specified by `FindSavedIsFirst`) |
| SearchPage.AlreadySaved | src/app/scholarships/search/page.tsx:203-205 | only a 400 reply counts, an unparsable body never does, and a 400 object whose first `non_field_errors` entry mentions "already exists" always does |
| SearchPage.SaveAccepted | src/app/scholarships/search/page.tsx:200-210 | a network failure is never accepted; any status but 400 is accepted exactly when ok; a 400 exactly when it says the bookmark already exists |
| SearchPage.ListingError | src/app/scholarships/search/page.tsx:94-109 | a network failure's message; a non-ok status `Failed to fetch scholarships: <status> <text>`; an unparsable body its parse message; a `null` body the TypeError of reading `results`; no error exactly for a readable ok body |
| SearchPage.SearchPage.constructor | src/app/scholarships/search/page.tsx:29-44 | an empty list, loading, empty filters, sorting by deadline ascending, empty sets |
| SearchPage.SearchPage.HandleFilterChange | src/app/scholarships/search/page.tsx:225-227 | only the named filter changes |
| SearchPage.SearchPage.ClearAllFilters | src/app/scholarships/search/page.tsx:228-239 | every filter becomes empty, so the query is empty |
| SearchPage.SearchPage.HandleSort | src/app/scholarships/search/page.tsx:241-247 | the sort becomes `NextSort` and the dropdown closes |
| SearchPage.SearchPage.ToggleDropdown | src/app/scholarships/search/page.tsx:528 | the dropdown flips |
| SearchPage.ReadFiltersFromUrl | src/app/scholarships/search/page.tsx:47-61 | the loop gives `FromUrl`: each filter takes its non-empty address value, the others stay, and the flag is set exactly when some value was found |
| SearchPage.SearchPage.InitFromUrl | src/app/scholarships/search/page.tsx:45-66 | the filters become `FromUrl` and change only when a parameter is set |
| SearchPage.SearchPage.FetchScholarships | src/app/scholarships/search/page.tsx:66-116 | the request carries the filter query; a good reply gives `results || []`; a failure keeps the list and sets the error; loading ends |
| SearchPage.SearchPage.FetchSavedScholarships | src/app/scholarships/search/page.tsx:125-143 | nothing is sent without a token; the set is replaced only for a good reply |
| SearchPage.SearchPage.HandleSaveScholarship | src/app/scholarships/search/page.tsx:145-223 | unauthenticated changes nothing; saving adds the id on success or on a 400 "already exists"; unsaving removes it only when the record is found and deleted; the id is never left in progress |
| HomeSearchFilter.HomeFilters.Set | src/components/HomeSearchFilter.tsx:16-18 | only the named field changes |
| HomeSearchFilter.AsSearchFilters | src/components/HomeSearchFilter.tsx:24-29 | the home values land in `levels`, `country`, `field_of_study` and `deadline_before`, and every other filter is empty |
| HomeSearchFilter.HomeQueryIsSearchQuery | src/components/HomeSearchFilter.tsx:21-39 | the home query equals the search screen's query for the mapped record |
| HomeSearchFilter.HomeQueryGet | src/components/HomeSearchFilter.tsx:32-39 | each field is found under its mapped name exactly when it is non-empty |
| HomeSearchFilter.HomeQueryPairs | src/components/HomeSearchFilter.tsx:24-39 | every pair is a non-empty field under its mapped name, a key the search screen reads |
| HomeSearchFilter.HomeFieldFor | src/components/HomeSearchFilter.tsx:24-29 | a non-empty filter of a mapped record comes from one home field |
| HomeSearchFilter.ArrowReachesSearchFilters | src/components/HomeSearchFilter.tsx:42 | following the arrow fills exactly the four mapped filters of a fresh search screen |
| HomeSearchFilter.Destination | src/components/HomeSearchFilter.tsx:42 | always `/scholarships/search?` followed by the query, even when it is empty |
| HomeSearchFilter.HomeSearchFilter.constructor | src/components/HomeSearchFilter.tsx:9-14 | four empty fields |
| HomeSearchFilter.HomeSearchFilter.HandleFilterChange | src/components/HomeSearchFilter.tsx:16-18 | only the named field changes |
| HomeSearchFilter.HomeSearchFilter.HandleArrowClick | src/components/HomeSearchFilter.tsx:19-43 | the loop builds the mapped query in field order and returns the destination |
| UrlEncoding.FormRoundTrip | src/components/HomeSearchFilter.tsx:36-42 | form-urlencoding then decoding gives every string back |
| UrlEncoding.UriComponentRoundTrip | src/services/scholarshipService.ts:44 | `encodeURIComponent` then query decoding gives the keyword back |
| UrlQuery.ParseSerialize | src/app/scholarships/search/page.tsx:52-53 | parsing a serialized parameter list gives the list back |
| ScholarshipService.FilterQueryKeepsSetValues | src/services/scholarshipService.ts:14-18 | `FilterQuery`: every query pair comes from a set filter and every set filter (neither `undefined`, `null` nor `""`) is in the query as `String(value)`; the query is empty exactly when no filter is set |
| ScholarshipService.FilterQueryAppend | src/services/scholarshipService.ts:14-18 | `FilterQuery`: the query of two runs of filters is the first run's query followed by the second's, so the filters' order is kept |
| ScholarshipService.ZeroAndFalseAreKept | src/services/scholarshipService.ts:15 | `0` and `false` are kept, unlike the pages' truthiness test |
| ScholarshipService.BuildFilterQuery | src/services/scholarshipService.ts:13-18 | the loop builds exactly the filter query |
| ScholarshipService.ListingEndpoint | src/services/scholarshipService.ts:20-21 | the endpoint is `scholarships/` with no `?` exactly when the query is empty |
| ScholarshipService.GetScholarships | src/services/scholarshipService.ts:11-24 | an unauthenticated GET of that endpoint |
| ScholarshipService.ScholarshipById | src/services/scholarshipService.ts:29-31 | an unauthenticated GET of `scholarships/<id>/` |
| ScholarshipService.FilterOptions | src/services/scholarshipService.ts:36-38 | an unauthenticated GET of the filter-options route |
| ScholarshipService.SearchScholarships | src/services/scholarshipService.ts:43-45 | an unauthenticated GET with the keyword and the limit, 10 by default |
| ScholarshipService.SearchQueryParses | src/services/scholarshipService.ts:44 | `SearchQuery`: the search query parses back to the keyword and the limit |
| ScholarshipService.FeaturedScholarships | src/services/scholarshipService.ts:50-52 | an unauthenticated GET of the featured listing, 8 by default |
| ScholarshipService.SavedScholarships | src/services/scholarshipService.ts:57-59 | a GET of the saved list with no body, authenticated against GET's default |
| ScholarshipService.SaveScholarship | src/services/scholarshipService.ts:64-66 | a POST to the saved list whose body is `{scholarship: id}` alone, authenticated against POST's default |
| ScholarshipService.RemoveSavedScholarship | src/services/scholarshipService.ts:71-73 | an authenticated DELETE with no body of the saved list's path, followed by a segment that reads back as the saved id, and a closing `/` |
| ScholarshipService.Applications | src/services/scholarshipService.ts:78-80 | a GET of the applications list with no body, authenticated against GET's default |
| ScholarshipService.UserCallsAreAuthenticated | src/services/scholarshipService.ts:57-80 | the saved, save, remove and applications calls are authenticated |
| SavedPage.Without | src/app/profile/saved/page.tsx:91 | the filtered list is never longer than the original |
| SavedPage.WithoutMembers | src/app/profile/saved/page.tsx:91 | an entry remains exactly when it was there and its id differs |
| SavedPage.WithoutDistributes | src/app/profile/saved/page.tsx:91 | filtering a concatenation filters each part, so order is kept |
| SavedPage.WithoutAbsent | src/app/profile/saved/page.tsx:91 | a list without the id is unchanged |
| SavedPage.WithoutIdempotent | src/app/profile/saved/page.tsx:91 | removing twice is removing once |
| SavedPage.RemoveFrom | src/app/profile/saved/page.tsx:91 | a list loses exactly the entries with the id |
| SavedPage.LoadOutcome | src/app/profile/saved/page.tsx:46-64 | a 401 gives the session-expired message; another non-ok status a message with the status; a network failure its message; loads exactly for a readable ok reply, as `results || []` |
| SavedPage.StatusErrorNamesStatus | src/app/profile/saved/page.tsx:55-57 | a non-401 failure message contains the status number |
| SavedPage.CeilDiv | src/app/profile/saved/page.tsx:195-198 | the quotient rounded up |
| SavedPage.DaysToDeadline | src/app/profile/saved/page.tsx:195-198 | days are the ceiling of the millisecond difference over 86 400 000 |
| SavedPage.Badge | src/app/profile/saved/page.tsx:225-233 | "N days left" exactly for 1 to 30 days, "Expired" exactly for 0 or fewer, none otherwise |
| SavedPage.BadgeOfInstants | src/app/profile/saved/page.tsx:195-233 | "Expired" exactly when the deadline has passed; a countdown exactly within the next 30 days |
| SavedPage.CountLine | src/app/profile/saved/page.tsx:128-131 | "1 scholarship saved" in the singular, the plural otherwise |
| SavedPage.SavedScholarshipsPage.constructor | src/app/profile/saved/page.tsx:29-34 | an empty list, loading, no messages |
| SavedPage.SavedScholarshipsPage.FetchSavedScholarships | src/app/profile/saved/page.tsx:35-71 | no token: an error and no request; otherwise `LoadOutcome` decides, a failure keeps the list; loading ends |
| SavedPage.SavedScholarshipsPage.HandleRemove | src/app/profile/saved/page.tsx:72-99 | no token: an error and no request; success removes exactly the entries with the id, in order; a failure keeps the list and sets the error |
| ApplicationsPage.StatusBadge | src/app/profile/applications/page.tsx:54-93 | the five known statuses get their labels and colours; an unknown status is shown as it is, in gray |
| ApplicationsPage.ToneIdentifiesStatus | src/app/profile/applications/page.tsx:54-93 | gray exactly for unknown statuses; distinct known statuses get distinct colours |
| ApplicationsPage.LoadOutcome | src/app/profile/applications/page.tsx:31-46 | a non-ok status gives the fixed message; loads exactly for a readable ok reply, as `results || data || []` |
| ApplicationsPage.ApplicationsPageState.constructor | src/app/profile/applications/page.tsx:18-21 | an empty list, loading, no error |
| ApplicationsPage.ApplicationsPageState.FetchApplications | src/app/profile/applications/page.tsx:22-53 | every failure leaves an empty list and an error; success sets the list and no error; loading ends |
| FeaturedProviders.Normalize | src/components/FeaturedProviders.tsx:41-43 | an array is kept, else a truthy `results`, else an empty list |
| FeaturedProviders.ShapesAgree | src/components/FeaturedProviders.tsx:41-43 | a plain list and a paginated page holding it give the same list |
| FeaturedProviders.LoadOutcome | src/components/FeaturedProviders.tsx:27-51 | a non-ok status is reported with its number; loads exactly for a readable ok reply, normalised |
| FeaturedProviders.Scrolled | src/components/FeaturedProviders.tsx:97-103 | left subtracts 300 and clamps at 0; right adds 300 |
| FeaturedProviders.ScrollsUndo | src/components/FeaturedProviders.tsx:97-103 | right then left returns to the start; left then right only from 300 on |
| FeaturedProviders.Length | src/components/FeaturedProviders.tsx:110 | the `length` of an array or string; none otherwise |
| FeaturedProviders.LeftArrowFollowsPosition | src/components/FeaturedProviders.tsx:107 | each right step shows the left arrow; a left step hides it exactly from 300 or less |
| FeaturedProviders.RightArrowWithoutContainer | src/components/FeaturedProviders.tsx:108-110 | without a container, the right arrow shows exactly for more than five entries |
| FeaturedProviders.Render | src/components/FeaturedProviders.tsx:129-143 | skeletons while loading, then the error, then "none" or the cards |
| FeaturedProviders.CardOf | src/components/FeaturedProviders.tsx:144-168 | the image or the default picture, `country_name` or "Global", and a link to the scholarship |
| FeaturedProviders.FeaturedStrip.constructor | src/components/FeaturedProviders.tsx:20-24 | an empty list, loading, no error, position 0 |
| FeaturedProviders.FeaturedStrip.FetchFeatured | src/components/FeaturedProviders.tsx:27-90 | a good reply replaces the list; a failure keeps it and sets the error; an earlier error is not cleared; loading ends |
| FeaturedProviders.FeaturedStrip.Scroll | src/components/FeaturedProviders.tsx:92-105 | nothing moves without a container; otherwise the position becomes `Scrolled` and never goes below 0 |
| ScholarshipList.Teaser | src/components/ScholarshipList.tsx:80-81 | a description of at most 150 characters is kept; a longer one is cut to 150 and gets "..." |
| ScholarshipList.TeaserKeepsHead | src/components/ScholarshipList.tsx:80-81 | the teaser starts with the description's head, and equals the description exactly when it is short or already ends in "..." at 150 |
| ScholarshipList.AmountAsWritten | src/components/ScholarshipList.tsx:71-75 | as written: a truthy amount shows its line, and an amount of 0 leaves a stray "0" |
| ScholarshipList.ZeroAmountLeavesZero | src/components/ScholarshipList.tsx:71-75 | the written slot renders "0" for a zero amount |
| ScholarshipList.AmountShown | src/components/ScholarshipList.tsx:71-75 | the amount line exactly for a truthy amount, never stray text |
| ScholarshipList.AmountShownDiffersOnlyAtZero | src/components/ScholarshipList.tsx:71-75 | the corrected slot differs from the written one exactly at 0 |
| ScholarshipList.CardOf | src/components/ScholarshipList.tsx:63-85 | a card shows the title, the provider, the teaser of the record's own string `description` (none where it is not a string) and the corrected amount slot, which equals the slot as written for every amount but `0` |
| ScholarshipList.Render | src/components/ScholarshipList.tsx:39-59 | the loading text, then the error, then the cards exactly for a non-empty list |
| ScholarshipList.ScholarshipListState.constructor | src/components/ScholarshipList.tsx:16-19 | an empty list, loading, no error |
| ScholarshipList.ScholarshipListState.FetchScholarships | src/components/ScholarshipList.tsx:21-37 | a readable page gives `results || []` and clears the error; a failure sets the fixed message and keeps the list; loading ends |

## Left out

- Networking, timers, routing and the browser: requests are values, replies are inputs. Redirects and `setTimeout` (for example the success message that the saved page clears after three seconds) are not modelled.
- The Google pop-up flow and its message listener (`loginWithGoogle`) are not modelled; only `handleGoogleCallback` is.
- The search screen's sort comparator and the alphabetical sort of the country options: `localeCompare` and `Date` parsing are not modelled. The sort configuration and its toggle are.
- Dates: the saved page's day count takes integer millisecond instants as inputs; date-string parsing and time zones are not modelled, and an unparsable deadline is modelled as no deadline.
- The profile picture upload and its preview (`FileReader`, `FormData`), and the country-list selector, are not modelled.
- Strings are sequences of characters, not UTF-16 code units: lengths and `substring` on text outside the Basic Multilingual Plane differ from the browser's.
- JSON numbers are integers; a decimal or exponent in a body is not modelled, and `Number(..)` of such text is read as `NaN`. Ids that read as `NaN` are dropped from the saved set.
- JSON objects are lists of entries; with duplicate keys a read takes the first.
- The text of a `TypeError` follows V8's wording and is one fixed form per value kind.
- Rendering-time errors are not modelled: a `null` list element reaching the card reads `undefined` fields, and a description that is not a string gives a card without a teaser instead of the `TypeError` of calling `substring`.
- SavedPage.RemoveFrom: a saved list that is not an array is kept unchanged instead of raising the `TypeError` of calling `filter` on it.
- Object and array ids are compared by value, not by identity.
- The order in which React runs effects and batches state updates is not modelled; each handler runs to completion on the state it starts from.
- AuthContext.AfterCheckAuth: on the refresh path `fetchUserData` is not awaited; the model runs it to completion before `checkAuth` ends.
- CardOf: `ScholarshipList.CardOf` (and the `Render` built on it) uses the corrected amount slot `AmountShown` from "## Findings", so an amount of `0` shows no stray "0"; the slot as written is `AmountAsWritten`, and the card agrees with it for every other amount.
- ScholarshipList.Render: a `results` that is not an array is shown as "No scholarships found" instead of the `TypeError` of mapping over it.
- The `err instanceof Error` fallbacks are unreachable in the model, since every rejection carries a message.
- src/services/scholarship.ts and src/services/api.ts are not part of this model. The plain scholarship list takes the settled result of their `getScholarships` as its input.

## Findings

| source | as written | input that shows it | evidently intended | confidence | as-written member | corrected member |
|---|---|---|---|---|---|---|
| src/components/ScholarshipList.tsx:71-75 | `{scholarship.amount && <p>…</p>}` renders the falsy left operand, and React prints a number | a scholarship whose `amount` is `0` | show no amount line and nothing else | high, not executed | ScholarshipList.AmountAsWritten | ScholarshipList.AmountShown |
