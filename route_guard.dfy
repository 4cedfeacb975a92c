/**
 * The route guards: the decision the authentication middleware takes once
 * the session is ready, and the guest-only guard. A navigation is modelled
 * by the target it returns.
 *
 * To state where the login redirect leads, the module also models how the
 * router reads a URL back: its path, and a query parameter's value with
 * `+` read as a space and percent-escapes decoded (a value that does not
 * decode is kept as written).
 */
module RouteGuard {
  import opened Common
  import opened UriComponent

  const LOGIN_PATH: string := "/login"
  const HOME_PATH: string := "/"
  const APP_PATH: string := "/app"
  const REDIRECT_KEY: string := "redirect"

  datatype Navigation = NoNavigation | NavigateTo(target: string)

  /** The login page, told to send the user back to `fullPath` afterwards. */
  function LoginUrl(fullPath: string): string
  {
    LOGIN_PATH + "?" + REDIRECT_KEY + "=" + Encode(fullPath)
  }

  /**
   * The authentication guard for a navigation to `path` (`fullPath` with
   * its query and hash), once the session is known; `redirect` is the
   * `redirect` query parameter, if the navigation has one.
   */
  function AuthMiddleware(isServer: bool, isAuthenticated: bool, path: string, fullPath: string,
                          redirect: Option<string>): (n: Navigation)
    ensures isServer ==> n == NoNavigation
    ensures !isServer && !isAuthenticated ==>
              n == if path == LOGIN_PATH then NoNavigation else NavigateTo(LoginUrl(fullPath))
    ensures !isServer && isAuthenticated && path != LOGIN_PATH ==> n == NoNavigation
    ensures !isServer && isAuthenticated && path == LOGIN_PATH ==>
              n == NavigateTo(if Truthy(redirect) && redirect.value != LOGIN_PATH then redirect.value else HOME_PATH)
    ensures n.NavigateTo? ==> n.target != ""
  {
    if isServer then NoNavigation
    else if !isAuthenticated then
      if path != LOGIN_PATH then NavigateTo(LoginUrl(fullPath)) else NoNavigation
    else if path == LOGIN_PATH then
      if Truthy(redirect) && redirect.value != LOGIN_PATH then NavigateTo(redirect.value)
      else NavigateTo(HOME_PATH)
    else NoNavigation
  }

  /** The guest-only guard: a signed-in user is sent to the app. */
  function GuestMiddleware(isAuthenticated: bool): (n: Navigation)
    ensures n.NavigateTo? <==> isAuthenticated
    ensures n.NavigateTo? ==> n.target == APP_PATH
  {
    if isAuthenticated then NavigateTo(APP_PATH) else NoNavigation
  }

  /** The index of the first character of `s` in `stops`, or `|s|` if there is none. */
  function IndexOfAny(s: string, stops: set<char>): (i: nat)
    ensures i <= |s|
    ensures i < |s| ==> s[i] in stops
    ensures forall j :: 0 <= j < i ==> s[j] !in stops
  {
    if s == [] then 0
    else if s[0] in stops then 0
    else 1 + IndexOfAny(s[1..], stops)
  }

  /** The path of a URL: everything before its query or hash. */
  function PathOf(url: string): string
  {
    url[..IndexOfAny(url, {'?', '#'})]
  }

  /** The query of a URL, without the `?` and the hash. */
  function QueryOf(url: string): string
  {
    var i := IndexOfAny(url, {'?', '#'});
    if i < |url| && url[i] == '?' then
      var rest := url[i + 1..];
      rest[..IndexOfAny(rest, {'#'})]
    else ""
  }

  function PlusToSpace(s: string): (t: string)
    ensures |t| == |s|
    ensures forall i :: 0 <= i < |s| ==> t[i] == if s[i] == '+' then ' ' else s[i]
  {
    if s == [] then [] else [if s[0] == '+' then ' ' else s[0]] + PlusToSpace(s[1..])
  }

  /** The router's decoding: the decoded text, or the text itself if it does not decode. */
  function DecodeOrKeep(s: string): string
  {
    var d := Decode(s);
    if d.Some? then d.value else s
  }

  /** The value of the first `key=value` parameter of a query named `key`. */
  function QueryParam(query: string, key: string): Option<string>
    decreases |query|
  {
    var j := IndexOfAny(query, {'&'});
    var param := PlusToSpace(query[..j]);
    var eq := IndexOfAny(param, {'='});
    if DecodeOrKeep(param[..eq]) == key then
      if eq < |param| then Some(DecodeOrKeep(param[eq + 1..])) else None
    else if j < |query| then QueryParam(query[j + 1..], key)
    else None
  }

  /** Text without a `%` decodes to itself. */
  lemma {:induction false} DecodePlain(s: string)
    requires forall i :: 0 <= i < |s| ==> s[i] != '%'
    ensures Decode(s) == Some(s)
    decreases |s|
  {
    if s != [] {
      DecodePlain(s[1..]);
      assert [s[0]] + s[1..] == s;
    }
  }

  lemma PlusFree(s: string)
    requires forall i :: 0 <= i < |s| ==> s[i] != '+'
    ensures PlusToSpace(s) == s
  {
  }

  lemma IndexOfNone(s: string, stops: set<char>)
    requires forall i :: 0 <= i < |s| ==> s[i] !in stops
    ensures IndexOfAny(s, stops) == |s|
  {
  }

  /** Text that can stand as a query value unescaped: no `?`, `#`, `&`, `=` or `+`. */
  predicate QuerySafe(s: string)
  {
    forall i :: 0 <= i < |s| ==> s[i] !in {'?', '#', '&', '=', '+'}
  }

  lemma EncodedIsQuerySafe(s: string)
    ensures QuerySafe(Encode(s))
  {
    EncodeChars(s);
  }

  /** The login URL splits into the login path and the `redirect=` query. */
  lemma LoginUrlParts(e: string)
    requires QuerySafe(e)
    ensures PathOf(LOGIN_PATH + "?" + REDIRECT_KEY + "=" + e) == LOGIN_PATH
    ensures QueryOf(LOGIN_PATH + "?" + REDIRECT_KEY + "=" + e) == REDIRECT_KEY + "=" + e
  {
    var url := LOGIN_PATH + "?" + REDIRECT_KEY + "=" + e;
    assert IndexOfAny(url, {'?', '#'}) == 6 by {
      assert url[..6] == LOGIN_PATH && url[6] == '?';
    }
    var query := REDIRECT_KEY + "=" + e;
    assert url[7..] == query;
    forall i | 0 <= i < |query|
      ensures query[i] != '#'
    {
      if i >= 9 { assert query[i] == e[i - 9]; }
    }
    IndexOfNone(query, {'#'});
  }

  /** A single `redirect=` parameter reads back as its decoded value. */
  lemma RedirectParamOf(e: string)
    requires QuerySafe(e)
    ensures QueryParam(REDIRECT_KEY + "=" + e, REDIRECT_KEY) == Some(DecodeOrKeep(e))
  {
    var query := REDIRECT_KEY + "=" + e;
    forall i | 0 <= i < |query|
      ensures query[i] != '&' && query[i] != '+'
    {
      if i >= 9 { assert query[i] == e[i - 9]; }
    }
    IndexOfNone(query, {'&'});
    assert query[..|query|] == query;
    PlusFree(query);
    assert IndexOfAny(query, {'='}) == 8 by {
      assert query[8] == '=';
    }
    assert query[..8] == REDIRECT_KEY;
    DecodePlain(REDIRECT_KEY);
    assert query[9..] == e;
  }

  /**
   * The login redirect round-trips: the login URL's path is the login
   * page, its `redirect` parameter reads back as the original full path,
   * and the guard neither loops while the user is signed out nor loses the
   * path once they are signed in.
   */
  lemma LoginRedirectRoundTrip(fullPath: string)
    ensures var url := LoginUrl(fullPath);
            var redirect := QueryParam(QueryOf(url), REDIRECT_KEY);
            && PathOf(url) == LOGIN_PATH
            && redirect == Some(fullPath)
            && AuthMiddleware(false, false, PathOf(url), url, redirect) == NoNavigation
            && AuthMiddleware(false, true, PathOf(url), url, redirect) ==
               NavigateTo(if fullPath != "" && fullPath != LOGIN_PATH then fullPath else HOME_PATH)
  {
    var e := Encode(fullPath);
    EncodedIsQuerySafe(fullPath);
    LoginUrlParts(e);
    RedirectParamOf(e);
    DecodeEncode(fullPath);
  }
}
