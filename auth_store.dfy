/**
 * The client's session store: six fields that record who is signed in, the
 * tenant bound to them, their current ID token, and the store's progress and
 * error flags. Its actions update those fields in response to the identity
 * provider's answers, which the model takes as oracle parameters.
 *
 * Each action is a pure step function on `AuthState` values, and the
 * `AuthStore` class performs the same updates field by field; its methods
 * are proved to land on the step function's result.
 */
module Auth {
  import opened Common

  /** A signed-in identity, as the identity provider hands it to the client. */
  datatype User = User(uid: string, email: Option<string>, displayName: Option<string>)

  datatype AuthState = AuthState(
    user: Option<User>,
    tenantId: Option<string>,
    idToken: Option<string>,
    loading: bool,
    error: Option<string>,
    isAuthReady: bool)

  /** The state the store starts in. */
  function InitialState(): (s: AuthState)
    ensures s.user.None? && s.tenantId.None? && s.idToken.None? && s.error.None?
    ensures !s.loading && !s.isAuthReady
  {
    AuthState(None, None, None, false, None, false)
  }

  /** Someone is signed in. */
  predicate IsAuthenticated(s: AuthState)
  {
    s.user.Some?
  }

  /**
   * What the identity provider answers when the store asks for a fresh ID
   * token and then for the token's claims.
   */
  datatype TokenFetch =
    | TokenFailed                                       // the token request throws
    | ClaimsFailed(token: string)                       // the token arrives, the claims request throws
    | TokenIssued(token: string, tenantClaim: Option<string>)

  const TOKEN_ERROR: string := "Failed to fetch authentication token"

  /**
   * `fetchIdToken`: with no user nothing happens; otherwise the new token and
   * the tenant claim are stored as they arrive, and a failure only records
   * an error message. It never throws.
   */
  function FetchIdTokenStep(s: AuthState, f: TokenFetch): (t: AuthState)
    ensures !IsAuthenticated(s) ==> t == s
    ensures t.user == s.user && t.loading == s.loading && t.isAuthReady == s.isAuthReady
    ensures IsAuthenticated(s) && f.TokenIssued? ==>
              && t.idToken == Some(f.token)
              && (Truthy(f.tenantClaim) ==> t.tenantId == f.tenantClaim)
              && (!Truthy(f.tenantClaim) ==> t.tenantId.None?)
              && t.error == s.error
    ensures IsAuthenticated(s) && !f.TokenIssued? ==>
              && t.error == Some(TOKEN_ERROR)
              && t.tenantId == s.tenantId
              && t.idToken == (if f.ClaimsFailed? then Some(f.token) else s.idToken)
  {
    if !IsAuthenticated(s) then s
    else match f
      case TokenFailed => s.(error := Some(TOKEN_ERROR))
      case ClaimsFailed(token) => s.(idToken := Some(token), error := Some(TOKEN_ERROR))
      case TokenIssued(token, claim) =>
        s.(idToken := Some(token), tenantId := if Truthy(claim) then claim else None)
  }

  /**
   * The auth-state listener: a signed-in user is stored and their token
   * fetched; a signed-out one clears the user, tenant and token. Either way
   * the store is ready afterwards.
   */
  function AuthStateChangedStep(s: AuthState, u: Option<User>, f: TokenFetch): (t: AuthState)
    ensures t.isAuthReady
    ensures t.user == u && t.loading == s.loading
    ensures u.None? ==> t.tenantId.None? && t.idToken.None? && t.error == s.error
    ensures u.Some? ==> t == FetchIdTokenStep(s.(user := u), f).(isAuthReady := true)
    ensures u.Some? && f.TokenIssued? ==>
              && t.idToken == Some(f.token)
              && t.tenantId == (if Truthy(f.tenantClaim) then f.tenantClaim else None)
              && t.error == s.error
    ensures u.Some? && !f.TokenIssued? ==> t.error == Some(TOKEN_ERROR) && t.tenantId == s.tenantId
  {
    var s' := match u
      case Some(_) => FetchIdTokenStep(s.(user := u), f)
      case None => s.(user := None, tenantId := None, idToken := None);
    s'.(isAuthReady := true)
  }

  /** An error raised by the sign-in popup. */
  datatype AuthError = AuthError(code: string, message: string)

  datatype PopupOutcome =
    | PopupFailed(error: AuthError)
    | PopupSignedIn(user: User)

  const DEFAULT_SIGN_IN_ERROR: string := "Failed to sign in with Google"

  /** The message shown for a failed sign-in. */
  function SignInErrorMessage(e: AuthError): (m: string)
    ensures e.code == "auth/popup-closed-by-user" ==> m == "Sign-in was cancelled"
    ensures e.code == "auth/popup-blocked" ==> m == "Popup was blocked by your browser"
    ensures e.code == "auth/cancelled-popup-request" ==> m == "Sign-in request was cancelled"
    ensures e.code !in {"auth/popup-closed-by-user", "auth/popup-blocked", "auth/cancelled-popup-request"} ==>
              m == if e.message != "" then e.message else DEFAULT_SIGN_IN_ERROR
    ensures m != ""
  {
    if e.code == "auth/popup-closed-by-user" then "Sign-in was cancelled"
    else if e.code == "auth/popup-blocked" then "Popup was blocked by your browser"
    else if e.code == "auth/cancelled-popup-request" then "Sign-in request was cancelled"
    else if e.message != "" then e.message
    else DEFAULT_SIGN_IN_ERROR
  }

  /**
   * `signInWithGoogle`: a successful popup stores the user and fetches their
   * token; a failed one records the mapped message and rethrows the popup's
   * own error. Either way `loading` ends false.
   */
  function SignInStep(s: AuthState, popup: PopupOutcome, f: TokenFetch): (res: (AuthState, Result<User, AuthError>))
    ensures !res.0.loading && res.0.isAuthReady == s.isAuthReady
    ensures popup.PopupFailed? ==>
              && res.1 == Failure(popup.error)
              && res.0 == s.(loading := false, error := Some(SignInErrorMessage(popup.error)))
    ensures popup.PopupSignedIn? ==>
              && res.1 == Success(popup.user)
              && res.0.user == Some(popup.user)
              && res.0 == FetchIdTokenStep(s.(user := Some(popup.user), error := None, loading := false), f)
    ensures popup.PopupSignedIn? && f.TokenIssued? ==>
              && res.0.idToken == Some(f.token)
              && res.0.tenantId == (if Truthy(f.tenantClaim) then f.tenantClaim else None)
              && res.0.error.None?
    ensures popup.PopupSignedIn? && !f.TokenIssued? ==>
              res.0.error == Some(TOKEN_ERROR) && res.0.tenantId == s.tenantId
  {
    var started := s.(loading := true, error := None);
    match popup
    case PopupFailed(e) =>
      (started.(error := Some(SignInErrorMessage(e)), loading := false), Failure(e))
    case PopupSignedIn(u) =>
      (FetchIdTokenStep(started.(user := Some(u)), f).(loading := false), Success(u))
  }

  /**
   * What happens when the store signs out: the provider refuses, or it
   * signs out and the following navigation to the login page fails or
   * succeeds.
   */
  datatype SignOutOutcome = ProviderFailed | NavigationFailed | SignedOut

  const SIGN_OUT_ERROR: string := "Failed to sign out"

  /**
   * `signOut`: once the provider has signed out, the user, tenant, token
   * and error are cleared; a failure at either step records the sign-out
   * error and rethrows (`false`). `loading` ends false.
   */
  function SignOutStep(s: AuthState, o: SignOutOutcome): (res: (AuthState, bool))
    ensures !res.0.loading && res.0.isAuthReady == s.isAuthReady
    ensures res.1 <==> o.SignedOut?
    ensures o == SignedOut ==>
              res.0.user.None? && res.0.tenantId.None? && res.0.idToken.None? && res.0.error.None?
    ensures o == NavigationFailed ==>
              res.0.user.None? && res.0.tenantId.None? && res.0.idToken.None? && res.0.error == Some(SIGN_OUT_ERROR)
    ensures o == ProviderFailed ==> res.0 == s.(loading := false, error := Some(SIGN_OUT_ERROR))
  {
    var started := s.(loading := true);
    if o.ProviderFailed? then (started.(error := Some(SIGN_OUT_ERROR), loading := false), false)
    else
      var cleared := started.(user := None, tenantId := None, idToken := None, error := None);
      if o.NavigationFailed? then (cleared.(error := Some(SIGN_OUT_ERROR), loading := false), false)
      else (cleared.(loading := false), true)
  }

  /** `clearError`. */
  function ClearErrorStep(s: AuthState): (t: AuthState)
    ensures t.error.None?
    ensures t.(error := s.error) == s
  {
    s.(error := None)
  }

  /**
   * `refreshToken`: with no user nothing happens; otherwise the token is
   * fetched again. Because fetching the token never throws, the sign-out
   * the action keeps for a failed refresh is never reached.
   */
  function RefreshTokenStep(s: AuthState, f: TokenFetch): (t: AuthState)
    ensures t.user == s.user
  {
    if !IsAuthenticated(s) then s else FetchIdTokenStep(s, f)
  }

  /** `refreshToken` is `fetchIdToken`: the user is never signed out by it. */
  lemma RefreshIsFetch(s: AuthState, f: TokenFetch)
    ensures RefreshTokenStep(s, f) == FetchIdTokenStep(s, f)
    ensures IsAuthenticated(s) <==> IsAuthenticated(RefreshTokenStep(s, f))
  {
  }

  /** One completed action of the store, with the oracles' answers it receives. */
  datatype Action =
    | AuthChanged(u: Option<User>, f: TokenFetch)
    | FetchIdToken(f: TokenFetch)
    | SignIn(popup: PopupOutcome, f: TokenFetch)
    | SignOut(o: SignOutOutcome)
    | ClearError
    | Refresh(f: TokenFetch)

  function Step(s: AuthState, a: Action): AuthState
  {
    match a
    case AuthChanged(u, f) => AuthStateChangedStep(s, u, f)
    case FetchIdToken(f) => FetchIdTokenStep(s, f)
    case SignIn(p, f) => SignInStep(s, p, f).0
    case SignOut(o) => SignOutStep(s, o).0
    case ClearError => ClearErrorStep(s)
    case Refresh(f) => RefreshTokenStep(s, f)
  }

  /** The state after a sequence of completed actions. */
  function Run(s: AuthState, actions: seq<Action>): AuthState
    decreases |actions|
  {
    if actions == [] then s else Run(Step(s, actions[0]), actions[1..])
  }

  /**
   * The store's invariant between actions: no tenant or token without a
   * user, a tenant id is never empty, and nothing is in progress.
   */
  predicate Consistent(s: AuthState)
  {
    && (s.user.None? ==> s.tenantId.None? && s.idToken.None?)
    && (s.tenantId.Some? ==> s.tenantId.value != "")
    && !s.loading
  }

  lemma InitialConsistent()
    ensures Consistent(InitialState())
  {
  }

  lemma StepConsistent(s: AuthState, a: Action)
    requires Consistent(s)
    ensures Consistent(Step(s, a))
  {
  }

  /** Every state reached from a consistent one by completed actions is consistent. */
  lemma {:induction false} RunConsistent(s: AuthState, actions: seq<Action>)
    requires Consistent(s)
    ensures Consistent(Run(s, actions))
    decreases |actions|
  {
    if actions != [] {
      StepConsistent(s, actions[0]);
      RunConsistent(Step(s, actions[0]), actions[1..]);
    }
  }

  /** Once ready, the store stays ready. */
  lemma {:induction false} RunKeepsReady(s: AuthState, actions: seq<Action>)
    requires s.isAuthReady
    ensures Run(s, actions).isAuthReady
    decreases |actions|
  {
    if actions != [] {
      RunKeepsReady(Step(s, actions[0]), actions[1..]);
    }
  }

  /** The actions that can bring a user into the store. */
  predicate SignsIn(a: Action)
  {
    || (a.AuthChanged? && a.u.Some?)
    || (a.SignIn? && a.popup.PopupSignedIn?)
  }

  /**
   * A signed-out store stays signed out, without a token or tenant, until
   * an action signs someone in; in particular refreshes and token fetches
   * in between do nothing.
   */
  lemma {:induction false} SignedOutStaysSignedOut(s: AuthState, actions: seq<Action>)
    requires Consistent(s) && !IsAuthenticated(s)
    requires forall i :: 0 <= i < |actions| ==> !SignsIn(actions[i])
    ensures !IsAuthenticated(Run(s, actions))
    ensures Run(s, actions).idToken.None? && Run(s, actions).tenantId.None?
    decreases |actions|
  {
    if actions != [] {
      StepConsistent(s, actions[0]);
      SignedOutStaysSignedOut(Step(s, actions[0]), actions[1..]);
    }
  }

  /** After the provider signs out, a later refresh changes nothing. */
  lemma RefreshAfterSignOutIsNoOp(s: AuthState, o: SignOutOutcome, f: TokenFetch)
    requires o != ProviderFailed
    ensures var t := SignOutStep(s, o).0;
            RefreshTokenStep(t, f) == t
  {
  }

  /** The session store, with the fields it updates in place. */
  class AuthStore {
    var user: Option<User>
    var tenantId: Option<string>
    var idToken: Option<string>
    var loading: bool
    var error: Option<string>
    var isAuthReady: bool

    function State(): AuthState
      reads this
    {
      AuthState(user, tenantId, idToken, loading, error, isAuthReady)
    }

    constructor ()
      ensures State() == InitialState()
    {
      user := None;
      tenantId := None;
      idToken := None;
      loading := false;
      error := None;
      isAuthReady := false;
    }

    /** The `isAuthenticated` getter. */
    function IsSignedIn(): (b: bool)
      reads this
      ensures b <==> IsAuthenticated(State())
    {
      user.Some?
    }

    method FetchIdToken(f: TokenFetch)
      modifies this
      ensures State() == FetchIdTokenStep(old(State()), f)
    {
      if user.None? {
        return;
      }
      match f
      case TokenFailed =>
        error := Some(TOKEN_ERROR);
      case ClaimsFailed(token) =>
        idToken := Some(token);
        error := Some(TOKEN_ERROR);
      case TokenIssued(token, claim) =>
        idToken := Some(token);
        tenantId := if Truthy(claim) then claim else None;
    }

    /** The listener `initializeAuth` registers, run once per auth-state change. */
    method OnAuthStateChanged(u: Option<User>, f: TokenFetch)
      modifies this
      ensures State() == AuthStateChangedStep(old(State()), u, f)
    {
      if u.Some? {
        user := u;
        FetchIdToken(f);
      } else {
        user := None;
        tenantId := None;
        idToken := None;
      }
      isAuthReady := true;
    }

    method SignInWithGoogle(popup: PopupOutcome, f: TokenFetch) returns (r: Result<User, AuthError>)
      modifies this
      ensures (State(), r) == SignInStep(old(State()), popup, f)
    {
      loading := true;
      error := None;
      match popup {
        case PopupFailed(e) =>
          error := Some(SignInErrorMessage(e));
          r := Failure(e);
        case PopupSignedIn(u) =>
          user := Some(u);
          FetchIdToken(f);
          r := Success(u);
      }
      loading := false;
    }

    /** `ok` is false when the action throws. */
    method SignOut(o: SignOutOutcome) returns (ok: bool)
      modifies this
      ensures (State(), ok) == SignOutStep(old(State()), o)
    {
      loading := true;
      if o == ProviderFailed {
        error := Some(SIGN_OUT_ERROR);
        ok := false;
      } else {
        user := None;
        tenantId := None;
        idToken := None;
        error := None;
        if o == NavigationFailed {
          error := Some(SIGN_OUT_ERROR);
          ok := false;
        } else {
          ok := true;
        }
      }
      loading := false;
    }

    method ClearError()
      modifies this
      ensures State() == ClearErrorStep(old(State()))
    {
      error := None;
    }

    method RefreshToken(f: TokenFetch)
      modifies this
      ensures State() == RefreshTokenStep(old(State()), f)
    {
      if user.None? {
        return;
      }
      FetchIdToken(f);
    }
  }
}
