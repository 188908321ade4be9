# Session and profile state of the gamer social app, in Dafny

This project models the client-side session and profile logic of a React Native
app for gamers:

- the application-state store: its state record, initial state, closed action
  union and the pure reducer that computes each next state (`Types`, `Reducer`);
- the multi-select chip list that toggles an option in a selected list
  (`ChipSelect`);
- the edit-profile screen: loading a stored profile into nine form fields,
  the single-timezone chip handler, and building the saved profile from the
  form, including JavaScript's `parseInt` and `toString` for the age
  (`EditProfile`);
- the root navigator's guard that redirects to login or to the home tabs
  (`RootLayout`).

The reducer is a function over datatypes, with one lemma per action, the
object-spread merge stated key by key, and two invariants proved for every
sequence of dispatches: the authenticated flag equals "there is a user", and
the profile equals the loaded document's profile. The edit-profile screen's
component state is a class whose methods are proved against the pure
conversions. Those conversions have round-trip lemmas. Loading then saving
stores the same profile. Saving a form that holds at most one timezone, not
the empty one, then loading it gives back the same form, except that the age
comes back as the text of the number it was saved as: the decimal text of an
integer (`"07"` comes back as `"7"`, `"29abc"` as `"29"`, `""` as `"0"`), or
`"NaN"` for an age `parseInt` could not read.

Behaviour of the code that the model keeps as written:

- Saving a profile does not dispatch `UPDATE_PROFILE`. No code in the app
  dispatches it, so the store shows the old profile until the next load.
- No dispatch checks which user a profile load was started for. A load that
  completes after the user changed still installs its document
  (`Reducer.StaleLoadIsApplied`).
- "No user implies no profile" is not an invariant, because
  `SET_USER_DOCUMENT` installs a profile whatever the user is
  (`Reducer.ProfileWithoutUserIsReachable`).
- The profile and the document's copy of it never diverge. From any state
  where they agree, every action keeps them equal, and that includes
  `UPDATE_PROFILE` (`Reducer.AppReducer`, `Reducer.ReachableStatesAreConsistent`).
- Only the empty age text falls back to 0 without `parseInt`; `"0"`, `"00"`
  or `"0abc"` are saved as 0 through it. `parseInt` skips leading white space
  and one sign, so `" 5"`, `"+5"` and `"-5"` are saved as 5, 5 and -5
  (`EditProfile.ParseIntSignsAndSpace`). Text that has no digit after its
  leading white space and an optional sign is saved as NaN, which the model
  represents (`Types.Number`).
- The action type is a closed union, so the reducer's `default` branch cannot
  be reached by a well-typed action.

## Model

| member | source | states |
|---|---|---|
| Types.AsPartial | services/firebase.ts:92-102 | a whole profile read back as a partial one has every key present with the profile's value |
| Types.ProfileExtensionality | services/firebase.ts:92-102 | two profiles that agree on all nine keys are equal, so key-by-key statements about spread determine the profile |
| Types.InitialStateIsEmpty | context/types.ts:16-24 | the initial state has no user, is not authenticated, has no document, no profile, no loading flag set and no error, and satisfies both store invariants |
| Reducer.MergeProfile | context/reducer.ts:56 | `{ ...profile, ...patch }`: each key present in the patch takes the patch's value, each absent key keeps the profile's |
| Reducer.AppReducer | context/reducer.ts:3-68 | every action keeps `isAuthenticated == (user != null)` and keeps the profile equal to the loaded document's profile |
| Reducer.AuthStateChangedEffect | context/reducer.ts:5-14 | AUTH_STATE_CHANGED sets the user, derives the flag and clears the auth wait; a null user clears document and profile, any user (even a different one) keeps both; other fields unchanged |
| Reducer.SetUserDocumentEffect | context/reducer.ts:16-22 | SET_USER_DOCUMENT stores the document, takes the profile from it (null for no document) and clears the profile wait; user, auth flags and error unchanged |
| Reducer.SetUserDocumentIdempotent | context/reducer.ts:16-22 | dispatching the same SET_USER_DOCUMENT twice gives the same state as once |
| Reducer.SettersChangeOneField | context/reducer.ts:24-40 | SET_PROFILE_LOADING, SET_AUTH_LOADING and SET_ERROR each change exactly their own field |
| Reducer.SignOutEffect | context/reducer.ts:42-50 | SIGN_OUT clears user, flag, document, profile and error and leaves both loading flags unchanged |
| Reducer.UpdateProfileWithoutProfile | context/reducer.ts:53 | UPDATE_PROFILE without a profile returns the state unchanged |
| Reducer.UpdateProfileEffect | context/reducer.ts:54-63 | UPDATE_PROFILE on a profile overrides exactly the keys the patch carries in the profile and in the document's profile, keeps a missing document missing and keeps every other field |
| Reducer.MergeEmptyPatch | context/reducer.ts:56 | an empty patch leaves the profile unchanged |
| Reducer.MergeFullPatch | context/reducer.ts:56 | a patch carrying every key replaces the whole profile |
| Reducer.MergeIdempotent | context/reducer.ts:56 | merging the same patch again changes nothing |
| Reducer.MergeCompose | context/reducer.ts:56 | merging one patch then another equals merging their spread combination once |
| Reducer.UpdateProfileTwice | context/reducer.ts:52-63 | two UPDATE_PROFILE dispatches act as one whose payload is the two payloads spread together |
| Reducer.Replay | context/AppContext.tsx:34 | `useReducer(appReducer, initialState)`: no dispatch leaves the state as it is, and each further dispatch applies the reducer to the state the earlier ones produced |
| Reducer.ReplayPreservesInvariants | context/reducer.ts:3-68 | every sequence of dispatches from a consistent state keeps both invariants |
| Reducer.ReachableStatesAreConsistent | context/types.ts:16-24 | every state reachable from the initial state satisfies both invariants |
| Reducer.ProfileWithoutUserIsReachable | context/reducer.ts:16-22 | one SET_USER_DOCUMENT from the initial state yields a profile with no user |
| Reducer.ProfileLoadSucceeds | context/AppContext.tsx:57-60 | loading true then SET_USER_DOCUMENT shows the document's profile and ends the wait, keeping user and error |
| Reducer.ProfileLoadFails | context/AppContext.tsx:57-64 | loading true, SET_ERROR, loading false records the error, ends the wait and keeps profile, document and user |
| Reducer.StaleLoadIsApplied | context/AppContext.tsx:47-66 | a document loaded for an earlier user, arriving after the user changed, still becomes the profile |
| ChipSelect.RemoveAll | components/ui/chip-select.tsx:23 | `filter(item !== x)`: the result has no `x`, every other element with its multiplicity, in the original order |
| ChipSelect.ToggleOption | components/ui/chip-select.tsx:21-27 | the option's membership flips, every other option keeps its multiplicity, and the result either drops elements in order or appends the option |
| ChipSelect.ChipStates | components/ui/chip-select.tsx:33-34 | a chip is drawn selected iff its option is in the selected list |
| ChipSelect.ToggleKeepsOthers | components/ui/chip-select.tsx:22-26 | with the toggled option filtered out, the list before and after a toggle is the same sequence |
| ChipSelect.ToggleAbsentTwice | components/ui/chip-select.tsx:21-27 | toggling an unselected option twice restores the list |
| ChipSelect.TogglePresentTwice | components/ui/chip-select.tsx:21-27 | toggling a selected option twice moves it to the end |
| ChipSelect.ToggleKeepsSelectionValid | components/ui/chip-select.tsx:21-45 | a toggle through a listed chip keeps the selection free of duplicates and within the options |
| EditProfile.NatToDigits | app/edit-profile.tsx:97 | the decimal text of n is non-empty, all digits, without leading zero, and denotes n |
| EditProfile.ParseIntLeadingDigits | app/edit-profile.tsx:122 | `parseInt` reads a leading digit run and ignores what follows |
| EditProfile.ParseIntNoLeadingDigit | app/edit-profile.tsx:122 | `parseInt` of text starting with no digit, sign or white space is NaN |
| EditProfile.ParseIntOfIntToString | app/edit-profile.tsx:122 | `parseInt` reads back `toString` of every integer |
| EditProfile.ParseIntTrailingLetters | app/edit-profile.tsx:122 | `"29abc"` is saved as 29 |
| EditProfile.ParseIntSkipsWhitespace | app/edit-profile.tsx:122 | `parseInt` skips a leading white-space character without changing the reading |
| EditProfile.ParseIntPlusSign | app/edit-profile.tsx:122 | a `+` before a digit run, or before nothing, leaves the reading unchanged |
| EditProfile.ParseIntMinusSign | app/edit-profile.tsx:122 | a `-` before a digit run negates the reading, and before nothing gives NaN |
| EditProfile.ParseIntSignsAndSpace | app/edit-profile.tsx:122 | `" 5"`, `"+5"` and `"-5"` are read as 5, 5 and -5 |
| EditProfile.ParseIntLetters | app/edit-profile.tsx:122 | `"abc"` and `"NaN"` are read as NaN |
| EditProfile.SavedAge | app/edit-profile.tsx:122 | an empty age text is saved as 0, any other through `parseInt` |
| EditProfile.ProfileFromForm | app/edit-profile.tsx:119-129 | the saved profile copies names, bio, avatar and the four lists, takes the first timezone or `''`, saves an empty age as 0 and any other age through `parseInt` |
| EditProfile.IntToString | app/edit-profile.tsx:97 | `toString` of an integer is non-empty, starts with `-` exactly for a negative number, and is otherwise all digits |
| EditProfile.ParseInt | app/edit-profile.tsx:122 | `parseInt` is NaN for blank text and for text starting with neither sign nor digit, and a non-negative integer for text starting with a digit |
| EditProfile.TapTimezone | app/edit-profile.tsx:251 | a tap on the timezone chips (components/ui/chip-select.tsx:21-27 followed by `slice(-1)`) leaves at most one zone, holds the tapped zone iff it was not selected, and adds no other zone |
| EditProfile.ChipTapKeepsListsValid | app/edit-profile.tsx:247-285 | a tap on any of the five chip lists keeps the timezone to at most one listed zone and every other list free of duplicates and within its options |
| EditProfile.KeepLast | app/edit-profile.tsx:251 | `slice(-1)` holds at most one element, the last one, and is empty only for an empty list |
| EditProfile.TimezoneTap | app/edit-profile.tsx:251 | with at most one zone selected, tapping it clears it and tapping another zone selects that one alone |
| EditProfile.AgeText | app/edit-profile.tsx:97 | the loaded age text is empty exactly when the stored age is missing |
| EditProfile.LoadedForm | app/edit-profile.tsx:93-103 | each present key loads its value; an absent text key loads as `''` and an absent list as `[]`; the age loads as the number's `toString` (`"NaN"` for NaN); the timezone loads as `[z]` for a present non-empty `z`, `[]` otherwise |
| EditProfile.LoadEmptyProfile | app/edit-profile.tsx:93-103 | a stored profile with no fields loads as the empty form |
| EditProfile.AgeRoundTrip | app/edit-profile.tsx:97 | every stored age, NaN included, is saved back unchanged after loading |
| EditProfile.LoadThenSave | app/edit-profile.tsx:93-129 | loading a stored profile and saving it stores the same profile |
| EditProfile.SaveThenLoad | app/edit-profile.tsx:93-129 | saving a form with at most one timezone, not the empty one, and loading it back gives the same form, with the age text replaced by the saved number's text |
| EditProfile.CanonicalAgeRoundTrips | app/edit-profile.tsx:97 | an age typed as an integer's decimal text survives save and load |
| EditProfile.EmptyAgeDoesNotRoundTrip | app/edit-profile.tsx:97 | an empty age comes back as `"0"` |
| EditProfile.EditProfileScreen.constructor | app/edit-profile.tsx:66-78 | the screen opens loading, not saving, with an empty form |
| EditProfile.EditProfileScreen.LoadProfile | app/edit-profile.tsx:84-111 | without a user it asks for the login redirect; with a stored profile it fills every field from it; otherwise the form is unchanged; loading ends on every path |
| EditProfile.EditProfileScreen.HandleSave | app/edit-profile.tsx:113-141 | without a user nothing happens; otherwise the profile built from the form is submitted for the user's uid and the saving flag ends cleared; the form is unchanged, and loading the submitted profile gives back the form with the age replaced by the saved number's text |
| EditProfile.EditProfileScreen.OnTimezoneChange | app/edit-profile.tsx:251 | the timezone list becomes the last zone of the new selection, nothing else changes, and it never holds more than one zone nor the empty one |
| EditProfile.Open | app/edit-profile.tsx:80-111 | opening the screen yields the loaded form when a profile is stored, the empty form otherwise |
| RootLayout.InAuthGroup | app/_layout.tsx:48 | the route is in the auth group iff its segments start with `(auth)`; an empty route is not |
| RootLayout.ShouldRedirectToLogin | app/_layout.tsx:51 | fires only once auth has loaded and outside `(auth)`; in a consistent state, exactly when auth has loaded, there is no user and the route is outside `(auth)` |
| RootLayout.ShouldRedirectToHome | app/_layout.tsx:52 | fires only once auth has loaded and inside `(auth)`; in a consistent state, exactly when auth has loaded, there is a user and the route is inside `(auth)` |
| RootLayout.RedirectsAreExclusive | app/_layout.tsx:51-52 | the login and home redirects never fire together |
| RootLayout.NoRedirectWhileAuthLoading | app/_layout.tsx:51-52 | while auth is loading neither redirect fires |
| RootLayout.RedirectTable | app/_layout.tsx:48-52 | once auth has loaded, login fires iff there is no user and the route is outside `(auth)`, home iff there is a user and the route is inside it |
| RootLayout.InitialStateRedirectsToLogin | app/_layout.tsx:51-52 | from the initial state every route outside `(auth)` redirects to login and none goes home |
| RootLayout.GuardAfterAuthStateChanged | app/_layout.tsx:51-52 | right after an auth notification, a null user outside `(auth)` goes to login and a user inside it goes home |
| RootLayout.GuardAfterSignOut | app/_layout.tsx:51 | after sign-out, with auth not loading, every route outside `(auth)` redirects to login |

## Left out

- The backend SDK calls in services/firebase.ts (sign-in, document reads, merge-writes, storage) are not part of this model. A fetch becomes a parameter of `LoadProfile`, and a write's success becomes a parameter of `HandleSave`.
- The round-trip lemmas assume the stored profile is the one the last save wrote, read back with every field present (`Types.AsPartial`). The document store's deep-merge of the written profile is the backend's behaviour.
- The React effects in context/AppContext.tsx (the auth subscription and its teardown, the profile load on user change) are not modelled. Its dispatch sequences appear only as scenario lemmas on the reducer.
- hooks/use-user-profile.ts, app/profile.tsx, the feed post's `formatCount` (floating point), haptics, `Alert`, the `router` calls and all rendering and styling are not modelled. The redirect to login is a returned flag.
- The reducer's `default` branch is not modelled: the action union is closed, so no well-typed action reaches it.
- A partial-profile payload with a key explicitly set to `undefined` is not modelled. Spreading such a key would overwrite with `undefined`, and in the model a key is either present with a value or absent.
- Numbers are exact integers. `parseInt` losing precision beyond 2^53, `toString` switching to exponent notation at 1e21, and negative zero are not modelled.
- A user document without a profile is not represented: the reducer takes the profile from every loaded document, as `UserDocument`'s declared type (a required `profile`) says. The `?.profile ?? null` fallback of context/reducer.ts:20 and the `data.profile` guard of app/edit-profile.tsx:93 only matter for documents that break that type.
- Dates in the user document are integers (milliseconds).
- React state updates are asynchronous and batched. The screen's methods apply them at once, in program order.
- The save button is disabled while saving. This is not modelled: `HandleSave` can be called at any time.
