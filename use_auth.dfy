/**
 * The client's authentication composable: the `Authorization` header built
 * from the stored ID token, the authenticated request wrapper that refreshes
 * the token and retries once after a 401, and the periodic token refresh.
 *
 * HTTP responses and the identity provider's answers are oracle parameters;
 * the wrapper's effect on the session store is stated through the store's
 * step functions.
 */
module UseAuth {
  import opened Common
  import opened Auth

  type Headers = map<string, string>

  const AUTHORIZATION: string := "Authorization"
  const BEARER_PREFIX: string := "Bearer "
  const NO_TOKEN_MESSAGE: string := "No authentication token available"

  /**
   * `getAuthHeader`: the bearer header for the stored token, or the
   * no-token error when there is no (non-empty) token.
   */
  function GetAuthHeader(idToken: Option<string>): (r: Result<Headers, string>)
    ensures r.Failure? <==> !Truthy(idToken)
    ensures r.Failure? ==> r.error == NO_TOKEN_MESSAGE
    ensures r.Success? ==>
              && r.value.Keys == {AUTHORIZATION}
              && BearerToken(r.value[AUTHORIZATION]) == idToken
  {
    if Truthy(idToken) then Success(map[AUTHORIZATION := BEARER_PREFIX + idToken.value])
    else Failure(NO_TOKEN_MESSAGE)
  }

  /** The token a bearer header value carries, as a server reads it back. */
  function BearerToken(value: string): (t: Option<string>)
    ensures t.Some? ==> value == BEARER_PREFIX + t.value
  {
    if |value| > |BEARER_PREFIX| && value[..|BEARER_PREFIX|] == BEARER_PREFIX
    then Some(value[|BEARER_PREFIX|..])
    else None
  }

  /**
   * The request headers: the caller's headers, then the auth header spread
   * over them, so the auth header wins on a shared name.
   */
  function MergeHeaders(caller: Headers, auth: Headers): (h: Headers)
    ensures h.Keys == caller.Keys + auth.Keys
    ensures forall k :: k in auth ==> h[k] == auth[k]
    ensures forall k :: k in caller && k !in auth ==> h[k] == caller[k]
  {
    caller + auth
  }

  /** Whatever `Authorization` header the caller passes, the stored token's is sent. */
  lemma AuthHeaderOverrides(caller: Headers, idToken: Option<string>)
    requires Truthy(idToken)
    ensures var h := MergeHeaders(caller, GetAuthHeader(idToken).value);
            && AUTHORIZATION in h
            && BearerToken(h[AUTHORIZATION]) == idToken
            && forall k :: k in caller && k != AUTHORIZATION ==> k in h && h[k] == caller[k]
  {
  }

  /** What the HTTP client answers to one request. */
  datatype Response =
    | Responded(body: string)
    | FetchFailed(statusCode: Option<int>)   // an error, with the response status when there is one

  /** What the wrapper throws. */
  datatype FetchError =
    | NoToken                                // the header could not be built
    | RequestFailed(statusCode: Option<int>) // the HTTP client's error, passed on unchanged

  /** The effects the wrapper performs, in order. */
  datatype Call =
    | Fetch(url: string, headers: Headers)
    | RefreshCall
    | SignOutCall

  /** The outcome of one wrapped request: the session afterwards, the result and the effects. */
  datatype FetchRun = FetchRun(state: AuthState, result: Result<string, FetchError>, calls: seq<Call>)

  /** One attempt: build the header from `idToken` and, if that works, send the request. */
  function Attempt(idToken: Option<string>, url: string, caller: Headers, resp: Response)
    : (res: (Result<string, FetchError>, seq<Call>))
    ensures !Truthy(idToken) ==> res == (Failure(NoToken), [])
    ensures Truthy(idToken) ==>
              && res.1 == [Fetch(url, MergeHeaders(caller, GetAuthHeader(idToken).value))]
              && res.0 == match resp
                          case Responded(body) => Success(body)
                          case FetchFailed(code) => Failure(RequestFailed(code))
  {
    match GetAuthHeader(idToken)
    case Failure(_) => (Failure(NoToken), [])
    case Success(auth) =>
      var call := Fetch(url, MergeHeaders(caller, auth));
      match resp
      case Responded(body) => (Success(body), [call])
      case FetchFailed(code) => (Failure(RequestFailed(code)), [call])
  }

  /** The wrapper refreshes and retries only after a 401 while a token is held. */
  predicate ShouldRetry(firstResult: Result<string, FetchError>, idToken: Option<string>)
  {
    firstResult == Failure(RequestFailed(Some(401))) && Truthy(idToken)
  }

  /**
   * `$fetchAuth` from session `s`: `first` and `retry` answer the two
   * possible requests, `refresh` is the provider's answer to the token
   * refresh and `signOut` the outcome of the sign-out a failed retry causes.
   */
  function FetchAuthSpec(s: AuthState, url: string, caller: Headers, first: Response,
                         refresh: TokenFetch, retry: Response, signOut: SignOutOutcome): FetchRun
  {
    var (r1, c1) := Attempt(s.idToken, url, caller, first);
    if !ShouldRetry(r1, s.idToken) then FetchRun(s, r1, c1)
    else
      var s2 := RefreshTokenStep(s, refresh);
      var (r2, c2) := Attempt(s2.idToken, url, caller, retry);
      if r2.Success? then FetchRun(s2, r2, c1 + [RefreshCall] + c2)
      else FetchRun(SignOutStep(s2, signOut).0, r2, c1 + [RefreshCall] + c2 + [SignOutCall])
  }

  /** The number of calls of each kind in an effect trace. */
  function FetchCount(calls: seq<Call>): nat
  {
    if calls == [] then 0 else (if calls[0].Fetch? then 1 else 0) + FetchCount(calls[1..])
  }

  function RefreshCount(calls: seq<Call>): nat
  {
    if calls == [] then 0 else (if calls[0].RefreshCall? then 1 else 0) + RefreshCount(calls[1..])
  }

  function SignOutCount(calls: seq<Call>): nat
  {
    if calls == [] then 0 else (if calls[0].SignOutCall? then 1 else 0) + SignOutCount(calls[1..])
  }

  lemma {:induction false} CountsAppend(a: seq<Call>, b: seq<Call>)
    ensures FetchCount(a + b) == FetchCount(a) + FetchCount(b)
    ensures RefreshCount(a + b) == RefreshCount(a) + RefreshCount(b)
    ensures SignOutCount(a + b) == SignOutCount(a) + SignOutCount(b)
    decreases |a|
  {
    if a == [] {
      assert a + b == b;
    } else {
      assert (a + b)[1..] == a[1..] + b;
      CountsAppend(a[1..], b);
    }
  }

  /**
   * A wrapped request makes at most two requests, at most one refresh and
   * at most one sign-out, and signs out only after refreshing.
   */
  lemma FetchAuthBounded(s: AuthState, url: string, caller: Headers, first: Response,
                         refresh: TokenFetch, retry: Response, signOut: SignOutOutcome)
    ensures var run := FetchAuthSpec(s, url, caller, first, refresh, retry, signOut);
            && FetchCount(run.calls) <= 2
            && RefreshCount(run.calls) <= 1
            && SignOutCount(run.calls) <= RefreshCount(run.calls)
  {
    var (r1, c1) := Attempt(s.idToken, url, caller, first);
    if ShouldRetry(r1, s.idToken) {
      var s2 := RefreshTokenStep(s, refresh);
      var (r2, c2) := Attempt(s2.idToken, url, caller, retry);
      CountsAppend(c1, [RefreshCall]);
      CountsAppend(c1 + [RefreshCall], c2);
      CountsAppend(c1 + [RefreshCall] + c2, [SignOutCall]);
    }
  }

  /** With no token, nothing is sent and the no-token error is thrown. */
  lemma NoTokenNoRequest(s: AuthState, url: string, caller: Headers, first: Response,
                         refresh: TokenFetch, retry: Response, signOut: SignOutOutcome)
    requires !Truthy(s.idToken)
    ensures FetchAuthSpec(s, url, caller, first, refresh, retry, signOut) == FetchRun(s, Failure(NoToken), [])
  {
  }

  /** A first request that succeeds is the whole story. */
  lemma FirstSuccess(s: AuthState, url: string, caller: Headers, body: string,
                     refresh: TokenFetch, retry: Response, signOut: SignOutOutcome)
    requires Truthy(s.idToken)
    ensures var run := FetchAuthSpec(s, url, caller, Responded(body), refresh, retry, signOut);
            && run.result == Success(body)
            && run.state == s
            && |run.calls| == 1 && run.calls[0].Fetch?
            && BearerToken(run.calls[0].headers[AUTHORIZATION]) == s.idToken
  {
  }

  /** Any error other than a 401 is passed on unchanged, with no refresh and no sign-out. */
  lemma OtherErrorsPassedOn(s: AuthState, url: string, caller: Headers, code: Option<int>,
                            refresh: TokenFetch, retry: Response, signOut: SignOutOutcome)
    requires Truthy(s.idToken) && code != Some(401)
    ensures var run := FetchAuthSpec(s, url, caller, FetchFailed(code), refresh, retry, signOut);
            && run.result == Failure(RequestFailed(code))
            && run.state == s
            && |run.calls| == 1 && run.calls[0].Fetch?
  {
  }

  /**
   * After a 401 the token is refreshed once and the request is sent again
   * with the refreshed token; if that request fails (or no header can be
   * built) the session is signed out and the newer error is thrown.
   */
  lemma UnauthorizedRetriesOnce(s: AuthState, url: string, caller: Headers,
                                refresh: TokenFetch, retry: Response, signOut: SignOutOutcome)
    requires Truthy(s.idToken)
    ensures var run := FetchAuthSpec(s, url, caller, FetchFailed(Some(401)), refresh, retry, signOut);
            var s2 := RefreshTokenStep(s, refresh);
            && run.calls[1] == RefreshCall
            && (Truthy(s2.idToken) ==>
                  && run.calls[2].Fetch?
                  && BearerToken(run.calls[2].headers[AUTHORIZATION]) == s2.idToken)
            && (retry.Responded? && Truthy(s2.idToken) ==>
                  run.result == Success(retry.body) && run.state == s2 && |run.calls| == 3)
            && (run.result.Failure? ==>
                  && run.calls[|run.calls| - 1] == SignOutCall
                  && run.state == SignOutStep(s2, signOut).0
                  && run.result.error == (if Truthy(s2.idToken) then RequestFailed(retry.statusCode) else NoToken))
  {
  }

  /** A failing sign-out is swallowed: it changes the session but not what the caller sees. */
  lemma SignOutFailureSwallowed(s: AuthState, url: string, caller: Headers, first: Response,
                                refresh: TokenFetch, retry: Response, o1: SignOutOutcome, o2: SignOutOutcome)
    ensures FetchAuthSpec(s, url, caller, first, refresh, retry, o1).result ==
            FetchAuthSpec(s, url, caller, first, refresh, retry, o2).result
    ensures FetchAuthSpec(s, url, caller, first, refresh, retry, o1).calls ==
            FetchAuthSpec(s, url, caller, first, refresh, retry, o2).calls
  {
  }

  /** The wrapper keeps the session store consistent. */
  lemma FetchAuthConsistent(s: AuthState, url: string, caller: Headers, first: Response,
                            refresh: TokenFetch, retry: Response, signOut: SignOutOutcome)
    requires Consistent(s)
    ensures Consistent(FetchAuthSpec(s, url, caller, first, refresh, retry, signOut).state)
  {
    StepConsistent(s, Refresh(refresh));
    StepConsistent(RefreshTokenStep(s, refresh), SignOut(signOut));
  }

  /**
   * `$fetchAuth` over the shared session store. The composable's own
   * `refreshToken` and `signOut` swallow the store's errors, so only the
   * request errors and the no-token error reach the caller.
   */
  method FetchAuth(store: AuthStore, url: string, caller: Headers, first: Response,
                   refresh: TokenFetch, retry: Response, signOut: SignOutOutcome)
    returns (result: Result<string, FetchError>, calls: seq<Call>)
    modifies store
    ensures FetchRun(store.State(), result, calls) ==
            FetchAuthSpec(old(store.State()), url, caller, first, refresh, retry, signOut)
  {
    calls := [];
    var header := GetAuthHeader(store.idToken);
    var error: FetchError;
    if header.Failure? {
      error := NoToken;
    } else {
      calls := calls + [Fetch(url, MergeHeaders(caller, header.value))];
      if first.Responded? {
        return Success(first.body), calls;
      }
      error := RequestFailed(first.statusCode);
    }
    if error == RequestFailed(Some(401)) && Truthy(store.idToken) {
      store.RefreshToken(refresh);
      calls := calls + [RefreshCall];
      var retryError: FetchError;
      header := GetAuthHeader(store.idToken);
      if header.Failure? {
        retryError := NoToken;
      } else {
        calls := calls + [Fetch(url, MergeHeaders(caller, header.value))];
        if retry.Responded? {
          return Success(retry.body), calls;
        }
        retryError := RequestFailed(retry.statusCode);
      }
      var _ := store.SignOut(signOut);
      calls := calls + [SignOutCall];
      return Failure(retryError), calls;
    }
    result := Failure(error);
  }

  /**
   * One tick of the refresh interval: a signed-in session is refreshed, a
   * signed-out one cancels the interval. A cancelled interval no longer
   * ticks.
   */
  function TickStep(active: bool, s: AuthState, f: TokenFetch): (res: (bool, AuthState))
    ensures res.1.user == s.user
    ensures res.0 <==> active && IsAuthenticated(s)
    ensures !res.0 ==> res.1 == s
    ensures res.0 ==> res.1 == FetchIdTokenStep(s, f)
    ensures res.0 && f.TokenIssued? ==> res.1.idToken == Some(f.token)
    ensures res.0 && !f.TokenIssued? ==> res.1.error == Some(TOKEN_ERROR) && res.1.tenantId == s.tenantId
  {
    if !active then (false, s)
    else if IsAuthenticated(s) then (true, RefreshTokenStep(s, f))
    else (false, s)
  }

  /** An event the interval can see: one of its own ticks, or another action on the store. */
  datatype TimerEvent = Tick(f: TokenFetch) | StoreAction(a: Action)

  function TimerRun(active: bool, s: AuthState, events: seq<TimerEvent>): (res: (bool, AuthState))
    decreases |events|
  {
    if events == [] then (active, s)
    else
      var (active', s') := match events[0]
        case Tick(f) => TickStep(active, s, f)
        case StoreAction(a) => (active, Step(s, a));
      TimerRun(active', s', events[1..])
  }

  /** A cancelled interval stays cancelled, whatever happens to the session later. */
  lemma {:induction false} CancelledStaysCancelled(s: AuthState, events: seq<TimerEvent>)
    ensures !TimerRun(false, s, events).0
    decreases |events|
  {
    if events != [] {
      var next := match events[0]
        case Tick(f) => TickStep(false, s, f).1
        case StoreAction(a) => Step(s, a);
      CancelledStaysCancelled(next, events[1..]);
    }
  }

  /** An event that signs someone in. */
  predicate EventSignsIn(e: TimerEvent)
  {
    e.StoreAction? && SignsIn(e.a)
  }

  /**
   * While nobody signs in, a signed-out session keeps no token and no
   * tenant whatever the interval does, and the interval's first tick
   * cancels it.
   */
  lemma {:induction false} TimerKeepsSignedOut(active: bool, s: AuthState, events: seq<TimerEvent>)
    requires Consistent(s) && !IsAuthenticated(s)
    requires forall i :: 0 <= i < |events| ==> !EventSignsIn(events[i])
    ensures var (active', t) := TimerRun(active, s, events);
            && !IsAuthenticated(t) && t.idToken.None? && t.tenantId.None?
            && ((exists i :: 0 <= i < |events| && events[i].Tick?) ==> !active')
    decreases |events|
  {
    if events != [] {
      var (a', s') := match events[0]
        case Tick(f) => TickStep(active, s, f)
        case StoreAction(a) => (active, Step(s, a));
      if events[0].StoreAction? {
        StepConsistent(s, events[0].a);
      }
      TimerKeepsSignedOut(a', s', events[1..]);
      if events[0].Tick? {
        CancelledStaysCancelled(s', events[1..]);
      } else {
        forall i | 0 <= i < |events[1..]| && events[1..][i].Tick?
          ensures events[i + 1].Tick?
        {
        }
      }
    }
  }

  /** Ticks alone never sign anyone in or out. */
  lemma {:induction false} TicksKeepUser(active: bool, s: AuthState, fs: seq<TokenFetch>)
    ensures var events := seq(|fs|, i requires 0 <= i < |fs| => Tick(fs[i]));
            TimerRun(active, s, events).1.user == s.user
    decreases |fs|
  {
    var events := seq(|fs|, i requires 0 <= i < |fs| => Tick(fs[i]));
    if fs != [] {
      var (a', s') := TickStep(active, s, fs[0]);
      assert events[1..] == seq(|fs[1..]|, i requires 0 <= i < |fs[1..]| => Tick(fs[1..][i]));
      TicksKeepUser(a', s', fs[1..]);
    }
  }

  /** The first tick after the provider signs the session out cancels the interval without refreshing. */
  lemma TickAfterSignOutCancels(active: bool, s: AuthState, o: SignOutOutcome, f: TokenFetch)
    requires o != ProviderFailed
    ensures var t := SignOutStep(s, o).0;
            TickStep(active, t, f) == (false, t)
  {
  }

  /** The interval `startTokenRefresh` sets up. */
  class RefreshTimer {
    var active: bool

    constructor ()
      ensures active
    {
      active := true;
    }

    /** The interval's callback. */
    method OnTick(store: AuthStore, f: TokenFetch)
      modifies this, store
      ensures (active, store.State()) == TickStep(old(active), old(store.State()), f)
    {
      if !active {
        return;
      }
      if store.IsSignedIn() {
        store.RefreshToken(f);
      } else {
        active := false;
      }
    }

    /** The component unmounts: the interval is cleared. */
    method Unmount()
      modifies this
      ensures !active
    {
      active := false;
    }
  }

  /** `startTokenRefresh`: an interval is started only on the client while signed in. */
  method StartTokenRefresh(isClient: bool, store: AuthStore) returns (timer: RefreshTimer?)
    ensures timer != null <==> isClient && IsAuthenticated(store.State())
    ensures timer != null ==> fresh(timer) && timer.active
  {
    if isClient && store.IsSignedIn() {
      timer := new RefreshTimer();
    } else {
      timer := null;
    }
  }
}
