/**
 * The store's transition function (context/reducer.ts): a pure, total map
 * from the current state and an action to the next state.
 */
module Reducer {
  import opened Wrappers
  import opened Types

  /** `{ ...base, ...patch }`: every key present in `patch` overrides, every absent key is kept. */
  function MergeProfile(base: UserProfile, patch: PartialProfile): (r: UserProfile)
    ensures forall f :: Get(r, f) == PatchGet(patch, f).GetOr(Get(base, f))
  {
    UserProfile(
      patch.displayName.GetOr(base.displayName),
      patch.bio.GetOr(base.bio),
      patch.age.GetOr(base.age),
      patch.avatURL.GetOr(base.avatURL),
      patch.timezone.GetOr(base.timezone),
      patch.platforms.GetOr(base.platforms),
      patch.playTimes.GetOr(base.playTimes),
      patch.preferredGames.GetOr(base.preferredGames),
      patch.tags.GetOr(base.tags))
  }

  /** `{ ...first, ...second }` on two partial profiles. */
  function CombinePatches(first: PartialProfile, second: PartialProfile): (r: PartialProfile)
    ensures forall f :: PatchGet(r, f) == PatchGet(second, f).Or(PatchGet(first, f))
  {
    PartialProfile(
      second.displayName.Or(first.displayName),
      second.bio.Or(first.bio),
      second.age.Or(first.age),
      second.avatURL.Or(first.avatURL),
      second.timezone.Or(first.timezone),
      second.platforms.Or(first.platforms),
      second.playTimes.Or(first.playTimes),
      second.preferredGames.Or(first.preferredGames),
      second.tags.Or(first.tags))
  }

  /** `appReducer`: the next state of the store. */
  function AppReducer(state: AppState, action: AppAction): (r: AppState)
    ensures AuthConsistent(state) ==> AuthConsistent(r)
    ensures ProfileMirrorsDocument(state) ==> ProfileMirrorsDocument(r)
  {
    match action
    case AuthStateChanged(u) =>
      state.(user := u,
             isAuthenticated := u.Some?,
             isAuthLoading := false,
             userDocument := if u.Some? then state.userDocument else None,
             profile := if u.Some? then state.profile else None)
    case SetUserDocument(d) =>
      state.(userDocument := d,
             profile := if d.Some? then Some(d.value.profile) else None,
             isProfileLoading := false)
    case SetProfileLoading(b) =>
      state.(isProfileLoading := b)
    case SetAuthLoading(b) =>
      state.(isAuthLoading := b)
    case SetError(e) =>
      state.(error := e)
    case SignOut =>
      state.(user := None, isAuthenticated := false, userDocument := None, profile := None, error := None)
    case UpdateProfile(p) =>
      if state.profile.None? then state
      else
        state.(profile := Some(MergeProfile(state.profile.value, p)),
               userDocument :=
                 if state.userDocument.Some?
                 then Some(state.userDocument.value.(profile := MergeProfile(state.userDocument.value.profile, p)))
                 else None)
  }

  /** The state after dispatching `actions` one after another, as the store does. */
  function Replay(state: AppState, actions: seq<AppAction>): (r: AppState)
    decreases |actions|
    ensures actions == [] ==> r == state
    ensures actions != [] ==> r == AppReducer(Replay(state, actions[..|actions| - 1]), actions[|actions| - 1])
  {
    if actions == [] then state
    else
      assert |actions| > 1 ==> actions[..|actions| - 1][1..] == actions[1..][..|actions| - 2];
      Replay(AppReducer(state, actions[0]), actions[1..])
  }

  // ---------------------------------------------------------------- per action

  /** AUTH_STATE_CHANGED installs the user, derives the flag and ends the auth wait; a null user drops the loaded profile, any user keeps it. */
  lemma AuthStateChangedEffect(s: AppState, u: Option<User>)
    ensures var r := AppReducer(s, AuthStateChanged(u));
      && r.user == u && r.isAuthenticated == u.Some? && !r.isAuthLoading
      && (u.None? ==> r.userDocument.None? && r.profile.None?)
      && (u.Some? ==> r.userDocument == s.userDocument && r.profile == s.profile)
      && r.isProfileLoading == s.isProfileLoading && r.error == s.error
  {
  }

  /** SET_USER_DOCUMENT stores the document, takes the profile from it and ends the profile wait. */
  lemma SetUserDocumentEffect(s: AppState, d: Option<UserDocument>)
    ensures var r := AppReducer(s, SetUserDocument(d));
      && r.userDocument == d
      && (d.None? ==> r.profile.None?)
      && (d.Some? ==> r.profile == Some(d.value.profile))
      && !r.isProfileLoading
      && r.user == s.user && r.isAuthenticated == s.isAuthenticated
      && r.isAuthLoading == s.isAuthLoading && r.error == s.error
  {
  }

  /** Dispatching the same SET_USER_DOCUMENT twice gives the state that dispatching it once gives. */
  lemma SetUserDocumentIdempotent(s: AppState, d: Option<UserDocument>)
    ensures AppReducer(AppReducer(s, SetUserDocument(d)), SetUserDocument(d)) == AppReducer(s, SetUserDocument(d))
  {
  }

  /** The two loading setters and SET_ERROR each change their own field and nothing else. */
  lemma SettersChangeOneField(s: AppState, b: bool, e: Option<string>)
    ensures AppReducer(s, SetProfileLoading(b)) == s.(isProfileLoading := b)
    ensures AppReducer(s, SetAuthLoading(b)) == s.(isAuthLoading := b)
    ensures AppReducer(s, SetError(e)) == s.(error := e)
  {
  }

  /** SIGN_OUT forgets the user, the document, the profile and the error, and leaves both loading flags alone. */
  lemma SignOutEffect(s: AppState)
    ensures var r := AppReducer(s, SignOut);
      && r.user.None? && !r.isAuthenticated && r.userDocument.None? && r.profile.None? && r.error.None?
      && r.isAuthLoading == s.isAuthLoading && r.isProfileLoading == s.isProfileLoading
  {
  }

  /** UPDATE_PROFILE without a loaded profile returns the state it was given. */
  lemma UpdateProfileWithoutProfile(s: AppState, p: PartialProfile)
    requires s.profile.None?
    ensures AppReducer(s, UpdateProfile(p)) == s
  {
  }

  /**
   * UPDATE_PROFILE on a loaded profile overrides exactly the keys the patch
   * carries, in the profile and in the document's copy of it, keeps a missing
   * document missing and leaves user, flags and error alone.
   */
  lemma UpdateProfileEffect(s: AppState, p: PartialProfile)
    requires s.profile.Some?
    ensures var r := AppReducer(s, UpdateProfile(p));
      && r.profile.Some?
      && (forall f :: PatchGet(p, f).Some? ==> Get(r.profile.value, f) == PatchGet(p, f).value)
      && (forall f :: PatchGet(p, f).None? ==> Get(r.profile.value, f) == Get(s.profile.value, f))
      && r.userDocument.Some? == s.userDocument.Some?
      && (s.userDocument.Some? ==>
            && r.userDocument.value == s.userDocument.value.(profile := r.userDocument.value.profile)
            && (forall f :: PatchGet(p, f).Some? ==> Get(r.userDocument.value.profile, f) == PatchGet(p, f).value)
            && (forall f :: PatchGet(p, f).None? ==> Get(r.userDocument.value.profile, f) == Get(s.userDocument.value.profile, f)))
      && r.user == s.user && r.isAuthenticated == s.isAuthenticated
      && r.isAuthLoading == s.isAuthLoading && r.isProfileLoading == s.isProfileLoading && r.error == s.error
  {
  }

  // ---------------------------------------------------------------- merge laws

  /** An empty patch leaves a profile as it is. */
  lemma MergeEmptyPatch(base: UserProfile)
    ensures MergeProfile(base, EmptyPatch) == base
  {
  }

  /** A patch that carries every key replaces the whole profile. */
  lemma MergeFullPatch(base: UserProfile, p: UserProfile)
    ensures MergeProfile(base, AsPartial(p)) == p
  {
  }

  /** Merging the same patch again changes nothing. */
  lemma MergeIdempotent(base: UserProfile, p: PartialProfile)
    ensures MergeProfile(MergeProfile(base, p), p) == MergeProfile(base, p)
  {
  }

  /** Merging one patch and then another is merging their combination once. */
  lemma MergeCompose(base: UserProfile, p: PartialProfile, q: PartialProfile)
    ensures MergeProfile(MergeProfile(base, p), q) == MergeProfile(base, CombinePatches(p, q))
  {
  }

  /** Two UPDATE_PROFILE dispatches in a row act as one with the combined payload. */
  lemma UpdateProfileTwice(s: AppState, p: PartialProfile, q: PartialProfile)
    ensures AppReducer(AppReducer(s, UpdateProfile(p)), UpdateProfile(q)) == AppReducer(s, UpdateProfile(CombinePatches(p, q)))
  {
  }

  // ---------------------------------------------------------------- invariants

  /** Every sequence of dispatches keeps the authenticated flag equal to "there is a user", and the profile equal to the document's. */
  lemma {:induction false} ReplayPreservesInvariants(s: AppState, actions: seq<AppAction>)
    requires AuthConsistent(s) && ProfileMirrorsDocument(s)
    ensures AuthConsistent(Replay(s, actions)) && ProfileMirrorsDocument(Replay(s, actions))
    decreases |actions|
  {
    if actions != [] {
      ReplayPreservesInvariants(AppReducer(s, actions[0]), actions[1..]);
    }
  }

  /** Every state the store can reach from its initial state satisfies both invariants. */
  lemma ReachableStatesAreConsistent(actions: seq<AppAction>)
    ensures AuthConsistent(Replay(InitialState, actions))
    ensures ProfileMirrorsDocument(Replay(InitialState, actions))
  {
    ReplayPreservesInvariants(InitialState, actions);
  }

  /**
   * "A profile implies a user" is not an invariant: SET_USER_DOCUMENT installs
   * a profile whatever the user is, so one dispatch from the initial state breaks it.
   */
  lemma ProfileWithoutUserIsReachable(d: UserDocument)
    ensures var r := AppReducer(InitialState, SetUserDocument(Some(d)));
      r.profile.Some? && r.user.None?
  {
  }

  // ---------------------------------------------------------------- dispatch sequences

  /** A successful profile load (SET_PROFILE_LOADING true, then SET_USER_DOCUMENT) shows the loaded profile and ends the wait. */
  lemma ProfileLoadSucceeds(s: AppState, d: UserDocument)
    ensures var r := AppReducer(AppReducer(s, SetProfileLoading(true)), SetUserDocument(Some(d)));
      && r.profile == Some(d.profile) && r.userDocument == Some(d) && !r.isProfileLoading
      && r.user == s.user && r.error == s.error
  {
  }

  /** A failed profile load (loading true, SET_ERROR, loading false) records the error, ends the wait and keeps the profile. */
  lemma ProfileLoadFails(s: AppState, message: string)
    ensures var r := AppReducer(AppReducer(AppReducer(s, SetProfileLoading(true)), SetError(Some(message))), SetProfileLoading(false));
      && r.error == Some(message) && !r.isProfileLoading
      && r.profile == s.profile && r.userDocument == s.userDocument && r.user == s.user
  {
  }

  /**
   * No dispatch checks whose document it installs: a load started for one
   * user that completes after the store switched to another user still
   * replaces the new user's profile.
   */
  lemma StaleLoadIsApplied(s: AppState, next: User, stale: UserDocument)
    ensures var r := AppReducer(AppReducer(AppReducer(s, SetProfileLoading(true)), AuthStateChanged(Some(next))), SetUserDocument(Some(stale)));
      r.user == Some(next) && r.profile == Some(stale.profile)
  {
  }
}
