/**
 * The root navigator's route guard (app/_layout.tsx): from the store's auth
 * flags and the first segment of the current route, decide whether to send
 * the user to the login screen or to the home tabs.
 */
module RootLayout {
  import opened Wrappers
  import opened Types
  import Reducer

  /** The route group that holds the login and sign-up screens. */
  const AuthGroup: string := "(auth)"

  /** `segments[0] === '(auth)'`; an empty route has no first segment and is outside the group. */
  function InAuthGroup(segments: seq<string>): (r: bool)
    ensures r <==> [AuthGroup] <= segments
  {
    |segments| > 0 && segments[0] == AuthGroup
  }

  /** A visitor who is not signed in, once auth has loaded, outside the auth screens. */
  function ShouldRedirectToLogin(state: AppState, segments: seq<string>): (r: bool)
    ensures r ==> !state.isAuthLoading && !InAuthGroup(segments)
    ensures AuthConsistent(state) ==> (r <==> !state.isAuthLoading && state.user.None? && !InAuthGroup(segments))
  {
    !state.isAuthLoading && !state.isAuthenticated && !InAuthGroup(segments)
  }

  /** A signed-in user, once auth has loaded, on the auth screens. */
  function ShouldRedirectToHome(state: AppState, segments: seq<string>): (r: bool)
    ensures r ==> !state.isAuthLoading && InAuthGroup(segments)
    ensures AuthConsistent(state) ==> (r <==> !state.isAuthLoading && state.user.Some? && InAuthGroup(segments))
  {
    !state.isAuthLoading && state.isAuthenticated && InAuthGroup(segments)
  }

  /** The two redirects never fire together. */
  lemma RedirectsAreExclusive(state: AppState, segments: seq<string>)
    ensures !(ShouldRedirectToLogin(state, segments) && ShouldRedirectToHome(state, segments))
  {
  }

  /** While the auth state is still loading, the guard stays put. */
  lemma NoRedirectWhileAuthLoading(state: AppState, segments: seq<string>)
    requires state.isAuthLoading
    ensures !ShouldRedirectToLogin(state, segments) && !ShouldRedirectToHome(state, segments)
  {
  }

  /**
   * Once auth has loaded, in a consistent state: a visitor without a user
   * outside the auth screens goes to login, a signed-in user on the auth
   * screens goes home, and everyone else stays.
   */
  lemma RedirectTable(state: AppState, segments: seq<string>)
    requires AuthConsistent(state) && !state.isAuthLoading
    ensures ShouldRedirectToLogin(state, segments) <==> state.user.None? && !InAuthGroup(segments)
    ensures ShouldRedirectToHome(state, segments) <==> state.user.Some? && InAuthGroup(segments)
  {
  }

  /** From the initial state, every route outside the auth screens redirects to login. */
  lemma InitialStateRedirectsToLogin(segments: seq<string>)
    ensures ShouldRedirectToLogin(InitialState, segments) <==> !InAuthGroup(segments)
    ensures !ShouldRedirectToHome(InitialState, segments)
  {
  }

  /**
   * Every auth-state notification ends the auth wait, so right after it the
   * guard sends a signed-out visitor to login and a signed-in user home,
   * whatever the state was before.
   */
  lemma GuardAfterAuthStateChanged(state: AppState, user: Option<User>, segments: seq<string>)
    ensures var r := Reducer.AppReducer(state, AuthStateChanged(user));
      && (ShouldRedirectToLogin(r, segments) <==> user.None? && !InAuthGroup(segments))
      && (ShouldRedirectToHome(r, segments) <==> user.Some? && InAuthGroup(segments))
  {
  }

  /** After sign-out, unless the auth flag is still loading, any route outside the auth screens goes to login. */
  lemma GuardAfterSignOut(state: AppState, segments: seq<string>)
    requires !state.isAuthLoading && !InAuthGroup(segments)
    ensures ShouldRedirectToLogin(Reducer.AppReducer(state, SignOut), segments)
  {
  }
}
