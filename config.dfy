/**
 * Environment configuration: each setting is read from a `NEXT_PUBLIC_…`
 * variable, an unset or empty variable falling back to a built-in default, and
 * `getApiUrl` joins the API base with an endpoint path.
 */
module Config {
  import opened Wrappers
  import opened Text

  const DEFAULT_API_URL: string := "http://127.0.0.1:8000/api"
  const DEFAULT_SITE_URL: string := "http://localhost:3000"
  const DEFAULT_JWT_EXPIRY: string := "3600"
  const DEFAULT_GOOGLE_CLIENT_ID: string := "604558986475-755fbv5bvlnamnhdm3fts9ck54ujbkv4.apps.googleusercontent.com"
  const DEFAULT_GOOGLE_REDIRECT_URI: string := "http://localhost:3001/Authentication/google-callback"

  /** The application settings; `jwtExpiry` is `None` where `parseInt` yields `NaN`. */
  datatype AppConfig = AppConfig(
    apiUrl: string,
    siteUrl: string,
    jwtExpiry: Option<int>,
    googleClientId: string,
    googleOAuthRedirectUri: string,
    enableSocialAuth: bool)

  /** `process.env[name] || fallback`: an unset or empty variable gives the fallback. */
  function EnvOr(env: map<string, string>, name: string, fallback: string): (r: string)
    ensures name in env && env[name] != "" ==> r == env[name]
    ensures name !in env || env[name] == "" ==> r == fallback
  {
    if name in env && env[name] != "" then env[name] else fallback
  }

  function Load(env: map<string, string>): (c: AppConfig)
    ensures c.apiUrl == EnvOr(env, "NEXT_PUBLIC_API_URL", DEFAULT_API_URL)
    ensures c.jwtExpiry == ParseInt(EnvOr(env, "NEXT_PUBLIC_JWT_EXPIRY", DEFAULT_JWT_EXPIRY))
    ensures c.enableSocialAuth <==> "NEXT_PUBLIC_ENABLE_SOCIAL_AUTH" in env && env["NEXT_PUBLIC_ENABLE_SOCIAL_AUTH"] == "true"
  {
    AppConfig(
      EnvOr(env, "NEXT_PUBLIC_API_URL", DEFAULT_API_URL),
      EnvOr(env, "NEXT_PUBLIC_SITE_URL", DEFAULT_SITE_URL),
      ParseInt(EnvOr(env, "NEXT_PUBLIC_JWT_EXPIRY", DEFAULT_JWT_EXPIRY)),
      EnvOr(env, "NEXT_PUBLIC_GOOGLE_CLIENT_ID", DEFAULT_GOOGLE_CLIENT_ID),
      EnvOr(env, "NEXT_PUBLIC_GOOGLE_OAUTH_REDIRECT_URI", DEFAULT_GOOGLE_REDIRECT_URI),
      "NEXT_PUBLIC_ENABLE_SOCIAL_AUTH" in env && env["NEXT_PUBLIC_ENABLE_SOCIAL_AUTH"] == "true")
  }

  predicate IsHexDigit(c: char) { IsDigit(c) || 'a' <= c <= 'f' || 'A' <= c <= 'F' }

  function HexDigitValue(c: char): (d: nat)
    requires IsHexDigit(c)
    ensures d < 16
  {
    if IsDigit(c) then DigitValue(c)
    else if 'a' <= c <= 'f' then (c as int) - ('a' as int) + 10
    else (c as int) - ('A' as int) + 10
  }

  /** The longest prefix of `s` made of characters satisfying `ok`. */
  function PrefixWhile(s: string, ok: char -> bool): (p: string)
    ensures |p| <= |s| && p == s[..|p|]
    ensures forall i :: 0 <= i < |p| ==> ok(p[i])
    ensures |p| < |s| ==> !ok(s[|p|])
  {
    if s != [] && ok(s[0]) then [s[0]] + PrefixWhile(s[1..], ok) else []
  }

  function HexValue(s: string): nat
    requires forall i :: 0 <= i < |s| ==> IsHexDigit(s[i])
  {
    if s == [] then 0 else 16 * HexValue(s[..|s| - 1]) + HexDigitValue(s[|s| - 1])
  }

  /**
   * `parseInt(s)` without a radix: leading whitespace skipped, an optional sign,
   * a `0x`/`0X` prefix selecting base 16, then the longest run of digits; `None`
   * (for `NaN`) when there is no digit.
   */
  function ParseInt(s: string): Option<int> {
    var t := TrimStart(s);
    var negative := t != [] && t[0] == '-';
    var u := if t != [] && (t[0] == '-' || t[0] == '+') then t[1..] else t;
    match Magnitude(u)
    case None => None
    case Some(m) => Some(if negative then -m else m)
  }

  /** The digits after the sign: base 16 after `0x`/`0X`, else base 10; `None` when no digit follows. */
  function Magnitude(u: string): Option<int> {
    if |u| >= 2 && u[0] == '0' && (u[1] == 'x' || u[1] == 'X') then
      var h := PrefixWhile(u[2..], IsHexDigit);
      if h == [] then None else Some(HexValue(h))
    else
      var d := PrefixWhile(u, IsDigit);
      if d == [] then None else Some(DecimalValue(d))
  }

  lemma {:induction false} PrefixWhileAll(s: string, ok: char -> bool)
    requires forall i :: 0 <= i < |s| ==> ok(s[i])
    ensures PrefixWhile(s, ok) == s
  {
    if s != [] {
      PrefixWhileAll(s[1..], ok);
    }
  }

  /** What `parseInt` does to a run of digits that is not a `0x` prefix. */
  lemma {:induction false} ParseIntDigits(u: string, t: string, negative: bool, v: nat)
    requires u != [] && AllDigits(u) && (|u| > 1 ==> u[0] != '0')
    requires DecimalValue(u) == v
    requires t == if negative then "-" + u else u
    ensures ParseInt(t) == Some(if negative then -(v as int) else v as int)
  {
    assert Magnitude(u) == Some(v) by {
      PrefixWhileAll(u, IsDigit);
      assert |u| >= 2 ==> u[0] != '0';
    }
    assert IsDigit(u[0]);
    assert TrimStart(t) == t by {
      assert !IsJsWhitespace(t[0]);
    }
    if negative {
      assert t[1..] == u;
    }
  }


  /** `parseInt` reads back what `String(n)` writes, for every integer. */
  lemma {:induction false} NegativeDecimal(m: nat)
    ensures ParseInt("-" + NatToDecimal(m)) == Some(-(m as int))
  {
    DecimalRoundTrip(m);
    ParseIntDigits(NatToDecimal(m), "-" + NatToDecimal(m), true, m);
  }

  /** `parseInt` reads back what `String(n)` writes, for every integer. */
  lemma {:induction false} ParseIntOfDecimal(n: int)
    ensures ParseInt(IntToDecimal(n)) == Some(n)
  {
    var t := IntToDecimal(n);
    if n >= 0 {
      var u := NatToDecimal(n);
      assert t == u;
      assert ParseInt(u) == Some(n) by {
        DecimalRoundTrip(n);
        ParseIntDigits(u, u, false, n);
      }
    } else {
      var m: nat := -n;
      assert t == "-" + NatToDecimal(m);
      NegativeDecimal(m);
    }
  }

  /** With no `NEXT_PUBLIC_JWT_EXPIRY` set, the token lifetime is 3600 seconds. */
  lemma DefaultJwtExpiry(env: map<string, string>)
    requires "NEXT_PUBLIC_JWT_EXPIRY" !in env || env["NEXT_PUBLIC_JWT_EXPIRY"] == ""
    ensures Load(env).jwtExpiry == Some(3600)
  {
    assert NatToDecimal(3) == "3";
    assert NatToDecimal(36) == "36";
    assert NatToDecimal(360) == "360";
    assert IntToDecimal(3600) == DEFAULT_JWT_EXPIRY;
    ParseIntOfDecimal(3600);
  }

  /** `path` without one leading `/`. */
  function StripLeadingSlash(path: string): (r: string)
    ensures StartsWith(path, "/") ==> "/" + r == path
    ensures !StartsWith(path, "/") ==> r == path
  {
    if StartsWith(path, "/") then path[1..] else path
  }

  /** `getApiUrl(path)` of the configuration module: the base is used as it is. */
  function GetApiUrl(c: AppConfig, path: string): (url: string)
    ensures StartsWith(url, c.apiUrl + "/")
    ensures url[|c.apiUrl| + 1..] == StripLeadingSlash(path)
  {
    c.apiUrl + "/" + StripLeadingSlash(path)
  }

  /** A leading slash on the endpoint makes no difference. */
  lemma GetApiUrlLeadingSlash(c: AppConfig, path: string)
    requires !StartsWith(path, "/")
    ensures GetApiUrl(c, "/" + path) == GetApiUrl(c, path)
  {
    assert StartsWith("/" + path, "/");
    assert ("/" + path)[1..] == path;
  }
}
