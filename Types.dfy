/**
 * The records the application-state store works on: the user-profile and
 * user-document shapes of the backend (services/firebase.ts), the store's
 * state record, its initial value and the closed union of actions
 * (context/types.ts).
 */
module Types {
  import opened Wrappers

  /** A signed-in account, reduced to its stable identifier. */
  datatype User = User(uid: string)

  /**
   * A JavaScript number as a profile's age can hold it: an integer, or the
   * NaN that `parseInt` yields for text without a leading digit.
   */
  datatype Number = Int(value: int) | NaN

  /** The editable part of a user's record. */
  datatype UserProfile = UserProfile(
    displayName: string,
    bio: string,
    age: Number,
    avatURL: string,
    timezone: string,
    platforms: seq<string>,
    playTimes: seq<string>,
    preferredGames: seq<string>,
    tags: seq<string>)

  /** A user's whole record in the document store; dates are milliseconds since the epoch. */
  datatype UserDocument = UserDocument(
    email: string,
    groupIds: seq<string>,
    lastActiveAt: int,
    profile: UserProfile,
    updatedAt: int)

  /** `Partial<UserProfile>`: every field may be absent (`None`). */
  datatype PartialProfile = PartialProfile(
    displayName: Option<string>,
    bio: Option<string>,
    age: Option<Number>,
    avatURL: Option<string>,
    timezone: Option<string>,
    platforms: Option<seq<string>>,
    playTimes: Option<seq<string>>,
    preferredGames: Option<seq<string>>,
    tags: Option<seq<string>>)

  /** The partial profile with no field present (`{}`). */
  const EmptyPatch: PartialProfile :=
    PartialProfile(None, None, None, None, None, None, None, None, None)

  /** A whole profile seen as a partial one in which every field is present. */
  function AsPartial(p: UserProfile): (r: PartialProfile)
    ensures forall f :: PatchGet(r, f) == Some(Get(p, f))
  {
    PartialProfile(Some(p.displayName), Some(p.bio), Some(p.age), Some(p.avatURL), Some(p.timezone),
                   Some(p.platforms), Some(p.playTimes), Some(p.preferredGames), Some(p.tags))
  }

  /*
   * A key-by-key view of the profile record, so that object spread
   * (`{ ...a, ...b }`) can be stated as it is defined: per key.
   */

  datatype Field = DisplayName | Bio | Age | AvatURL | Timezone | Platforms | PlayTimes | PreferredGames | Tags

  datatype Value = Text(text: string) | Num(num: Number) | List(items: seq<string>)

  /** The value stored under key `f` of a profile. */
  function Get(p: UserProfile, f: Field): Value {
    match f
    case DisplayName => Text(p.displayName)
    case Bio => Text(p.bio)
    case Age => Num(p.age)
    case AvatURL => Text(p.avatURL)
    case Timezone => Text(p.timezone)
    case Platforms => List(p.platforms)
    case PlayTimes => List(p.playTimes)
    case PreferredGames => List(p.preferredGames)
    case Tags => List(p.tags)
  }

  /** The value stored under key `f` of a partial profile, if the key is present. */
  function PatchGet(p: PartialProfile, f: Field): Option<Value> {
    match f
    case DisplayName => if p.displayName.Some? then Some(Text(p.displayName.value)) else None
    case Bio => if p.bio.Some? then Some(Text(p.bio.value)) else None
    case Age => if p.age.Some? then Some(Num(p.age.value)) else None
    case AvatURL => if p.avatURL.Some? then Some(Text(p.avatURL.value)) else None
    case Timezone => if p.timezone.Some? then Some(Text(p.timezone.value)) else None
    case Platforms => if p.platforms.Some? then Some(List(p.platforms.value)) else None
    case PlayTimes => if p.playTimes.Some? then Some(List(p.playTimes.value)) else None
    case PreferredGames => if p.preferredGames.Some? then Some(List(p.preferredGames.value)) else None
    case Tags => if p.tags.Some? then Some(List(p.tags.value)) else None
  }

  /** Two profiles that agree on every key are the same profile. */
  lemma ProfileExtensionality(a: UserProfile, b: UserProfile)
    requires forall f :: Get(a, f) == Get(b, f)
    ensures a == b
  {
    assert Get(a, DisplayName) == Get(b, DisplayName);
    assert Get(a, Bio) == Get(b, Bio);
    assert Get(a, Age) == Get(b, Age);
    assert Get(a, AvatURL) == Get(b, AvatURL);
    assert Get(a, Timezone) == Get(b, Timezone);
    assert Get(a, Platforms) == Get(b, Platforms);
    assert Get(a, PlayTimes) == Get(b, PlayTimes);
    assert Get(a, PreferredGames) == Get(b, PreferredGames);
    assert Get(a, Tags) == Get(b, Tags);
  }

  /** The store's whole state. */
  datatype AppState = AppState(
    user: Option<User>,
    isAuthenticated: bool,
    userDocument: Option<UserDocument>,
    profile: Option<UserProfile>,
    isAuthLoading: bool,
    isProfileLoading: bool,
    error: Option<string>)

  /** The state the store starts in. */
  const InitialState: AppState :=
    AppState(None, false, None, None, false, false, None)

  /** The closed set of transitions the store accepts; `SignOut` carries no payload. */
  datatype AppAction =
    | AuthStateChanged(newUser: Option<User>)
    | SetUserDocument(document: Option<UserDocument>)
    | SetProfileLoading(profileLoading: bool)
    | SetAuthLoading(authLoading: bool)
    | SetError(message: Option<string>)
    | SignOut
    | UpdateProfile(patch: PartialProfile)

  /** The authenticated flag is exactly "there is a user". */
  predicate AuthConsistent(s: AppState) {
    s.isAuthenticated == s.user.Some?
  }

  /** The profile is the loaded document's profile, and absent when no document is loaded. */
  predicate ProfileMirrorsDocument(s: AppState) {
    s.profile == if s.userDocument.Some? then Some(s.userDocument.value.profile) else None
  }

  /** The store starts signed out, with nothing loaded, nothing loading and no error. */
  lemma InitialStateIsEmpty()
    ensures InitialState.user.None? && !InitialState.isAuthenticated
    ensures AuthConsistent(InitialState) && ProfileMirrorsDocument(InitialState)
    ensures InitialState.userDocument.None? && InitialState.profile.None?
    ensures !InitialState.isAuthLoading && !InitialState.isProfileLoading && InitialState.error.None?
  {
  }
}
