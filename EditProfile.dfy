/**
 * The edit-profile screen (app/edit-profile.tsx): nine form fields loaded
 * from the stored profile, edited through text inputs and chip lists, and
 * turned back into a whole profile on save.
 */
module EditProfile {
  import opened Wrappers
  import opened Types
  import ChipSelect

  const TimezoneOptions: seq<string> := ["EU", "NA East", "NA West", "Asia", "OCE"]
  const PlatformOptions: seq<string> := ["PC", "PlayStation", "Xbox", "Nintendo", "Mobile"]
  const PlaytimeOptions: seq<string> := ["Mornings", "Afternoons", "Evenings", "Nights", "Weekends"]
  const TagOptions: seq<string> :=
    ["Chill player", "Try hard", "Competitive", "Casual", "Sherpa", "New player", "Raid ready", "PvP focused", "PvE focused"]
  const GameOptions: seq<string> :=
    ["Destiny 2", "Call of Duty", "Fortnite", "Apex Legends", "Valorant", "League of Legends", "Minecraft", "GTA V",
     "Rocket League", "Overwatch 2"]

  /** The screen's form state: the age is the text typed, the timezone a list of at most one zone. */
  datatype Form = Form(
    displayName: string,
    bio: string,
    age: string,
    avatURL: string,
    timezone: seq<string>,
    platforms: seq<string>,
    playTimes: seq<string>,
    tags: seq<string>,
    preferredGames: seq<string>)

  /** The form as the screen opens: every text empty, every list empty. */
  const EmptyForm: Form := Form("", "", "", "", [], [], [], [], [])

  // ---------------------------------------------------------------- decimal text

  predicate IsDigit(c: char) {
    '0' <= c <= '9'
  }

  predicate AllDigits(s: string) {
    forall i :: 0 <= i < |s| ==> IsDigit(s[i])
  }

  /** The code points ECMAScript counts as white space or line terminators, which `parseInt` skips. */
  predicate IsJsWhitespace(c: char) {
    || c == '\t' || c == '\n' || c == '\U{000B}' || c == '\U{000C}' || c == '\r' || c == ' '
    || c == '\U{00A0}' || c == '\U{1680}' || ('\U{2000}' <= c <= '\U{200A}')
    || c == '\U{2028}' || c == '\U{2029}' || c == '\U{202F}' || c == '\U{205F}' || c == '\U{3000}'
    || c == '\U{FEFF}'
  }

  /** `s` without its leading white space. */
  function TrimStart(s: string): (r: string)
    ensures |r| <= |s| && r == s[|s| - |r|..]
    ensures r == [] || !IsJsWhitespace(r[0])
    ensures forall i :: 0 <= i < |s| - |r| ==> IsJsWhitespace(s[i])
  {
    if s != [] && IsJsWhitespace(s[0]) then TrimStart(s[1..]) else s
  }

  /** The longest prefix of `s` made of decimal digits. */
  function LeadingDigits(s: string): (r: string)
    ensures |r| <= |s| && r == s[..|r|] && AllDigits(r)
    ensures |r| == |s| || !IsDigit(s[|r|])
  {
    if s != [] && IsDigit(s[0]) then [s[0]] + LeadingDigits(s[1..]) else []
  }

  function DigitValue(c: char): nat
    requires IsDigit(c)
  {
    (c as int) - ('0' as int)
  }

  function Digit(d: nat): (c: char)
    requires d < 10
    ensures IsDigit(c) && DigitValue(c) == d
  {
    (('0' as int) + d) as char
  }

  /** The value of a string of decimal digits, most significant first. */
  function DigitsValue(ds: string): nat
    requires AllDigits(ds)
    decreases |ds|
  {
    if ds == [] then 0 else DigitsValue(ds[..|ds| - 1]) * 10 + DigitValue(ds[|ds| - 1])
  }

  /** The decimal digits of `n`, without leading zeros. */
  function NatToDigits(n: nat): (r: string)
    ensures r != [] && AllDigits(r) && DigitsValue(r) == n
    ensures |r| > 1 ==> r[0] != '0'
  {
    if n < 10 then [Digit(n)]
    else
      var init := NatToDigits(n / 10);
      var r := init + [Digit(n % 10)];
      assert r[..|r| - 1] == init;
      r
  }

  /** `n.toString()` for an integral number: its decimal digits, with a minus sign when negative. */
  function IntToString(n: int): (r: string)
    ensures r != []
    ensures r[0] == '-' <==> n < 0
    ensures n >= 0 ==> AllDigits(r)
    ensures n < 0 ==> AllDigits(r[1..])
  {
    if n < 0 then "-" + NatToDigits(-n) else NatToDigits(n)
  }

  /**
   * `parseInt(s, 10)`: skip leading white space, take an optional sign, then
   * the longest run of decimal digits; NaN when that run is empty.
   */
  function ParseInt(s: string): (r: Number)
    ensures TrimStart(s) == [] ==> r == NaN
    ensures TrimStart(s) != [] && IsDigit(TrimStart(s)[0]) ==> r.Int? && r.value >= 0
    ensures TrimStart(s) != [] && TrimStart(s)[0] !in "+-" && !IsDigit(TrimStart(s)[0]) ==> r == NaN
  {
    var t := TrimStart(s);
    var negative := t != [] && t[0] == '-';
    var unsigned := if t != [] && (t[0] == '-' || t[0] == '+') then t[1..] else t;
    var ds := LeadingDigits(unsigned);
    var magnitude: int := if ds == [] then 0 else DigitsValue(ds);
    if ds == [] then NaN else Int(if negative then -magnitude else magnitude)
  }

  /** A digit run stops at the first non-digit. */
  lemma {:induction false} LeadingDigitsOfDigitsThenRest(ds: string, rest: string)
    requires AllDigits(ds) && (rest == [] || !IsDigit(rest[0]))
    ensures LeadingDigits(ds + rest) == ds
  {
    if ds == [] {
      assert ds + rest == rest;
    } else {
      assert (ds + rest)[1..] == ds[1..] + rest;
      LeadingDigitsOfDigitsThenRest(ds[1..], rest);
      assert ds == [ds[0]] + ds[1..];
    }
  }

  /** `parseInt` reads the leading digits and ignores whatever follows them. */
  lemma ParseIntLeadingDigits(ds: string, rest: string)
    requires ds != [] && AllDigits(ds) && (rest == [] || !IsDigit(rest[0]))
    ensures ParseInt(ds + rest) == Int(DigitsValue(ds))
  {
    var s := ds + rest;
    assert s[0] == ds[0] && IsDigit(s[0]);
    assert TrimStart(s) == s;
    LeadingDigitsOfDigitsThenRest(ds, rest);
  }

  /** `parseInt` of text that starts with neither a digit, a sign nor white space is NaN. */
  lemma ParseIntNoLeadingDigit(s: string)
    requires s == [] || (!IsDigit(s[0]) && !IsJsWhitespace(s[0]) && s[0] != '-' && s[0] != '+')
    ensures ParseInt(s) == NaN
  {
  }

  /** `parseInt` reads back what `toString` writes for any integer. */
  lemma ParseIntOfIntToString(n: int)
    ensures ParseInt(IntToString(n)) == Int(n)
  {
    if n < 0 {
      var ds := NatToDigits(-n);
      assert ("-" + ds)[1..] == ds + [];
      LeadingDigitsOfDigitsThenRest(ds, []);
    } else {
      ParseIntLeadingDigits(NatToDigits(n), []);
      assert NatToDigits(n) + [] == NatToDigits(n);
    }
  }

  /** Text with trailing letters keeps its leading number: "29abc" reads as 29. */
  lemma ParseIntTrailingLetters(s: string)
    requires s == "29abc"
    ensures ParseInt(s) == Int(29)
  {
    var ds := "29";
    assert ds[..1] == "2" && "2"[..0] == "";
    assert AllDigits(ds) && DigitsValue(ds) == 29;
    ParseIntLeadingDigits(ds, s[2..]);
    assert s == ds + s[2..];
  }

  /** Leading white space is skipped. */
  lemma ParseIntSkipsWhitespace(s: string)
    requires s != [] && IsJsWhitespace(s[0])
    ensures ParseInt(s) == ParseInt(s[1..])
  {
  }

  /** A plus sign before a digit run, or before nothing, does not change the reading. */
  lemma ParseIntPlusSign(t: string)
    requires t == [] || IsDigit(t[0])
    ensures ParseInt("+" + t) == ParseInt(t)
  {
    var s := "+" + t;
    assert s[0] == '+' && !IsJsWhitespace(s[0]);
    assert TrimStart(s) == s;
    assert s[1..] == t;
    if t != [] {
      assert !IsJsWhitespace(t[0]);
    }
    assert TrimStart(t) == t;
  }

  /** A minus sign before a digit run, or before nothing, negates the reading. */
  lemma ParseIntMinusSign(t: string)
    requires t == [] || IsDigit(t[0])
    ensures ParseInt("-" + t) == if ParseInt(t).Int? then Int(-ParseInt(t).value) else NaN
  {
    var s := "-" + t;
    assert s[0] == '-' && !IsJsWhitespace(s[0]);
    assert TrimStart(s) == s;
    assert s[1..] == t;
    if t != [] {
      assert !IsJsWhitespace(t[0]);
    }
    assert TrimStart(t) == t;
    var ds := LeadingDigits(t);
    var magnitude: int := if ds == [] then 0 else DigitsValue(ds);
    assert ParseInt(t) == if ds == [] then NaN else Int(magnitude);
    assert ParseInt(s) == if ds == [] then NaN else Int(-magnitude);
  }

  /** " 5", "+5" and "-5" read as 5, 5 and -5. */
  lemma ParseIntSignsAndSpace(spaced: string, plus: string, minus: string)
    requires spaced == " 5" && plus == "+5" && minus == "-5"
    ensures ParseInt(spaced) == Int(5) && ParseInt(plus) == Int(5) && ParseInt(minus) == Int(-5)
  {
    var five := "5";
    assert NatToDigits(5) == five;
    ParseIntOfIntToString(5);
    ParseIntSkipsWhitespace(spaced);
    assert spaced[1..] == five;
    ParseIntPlusSign(five);
    assert plus == "+" + five;
    ParseIntMinusSign(five);
    assert minus == "-" + five;
  }

  /** Text without a leading digit reads as NaN: "abc" and "NaN" alike. */
  lemma ParseIntLetters(abc: string, nan: string)
    requires abc == "abc" && nan == "NaN"
    ensures ParseInt(abc) == NaN && ParseInt(nan) == NaN
  {
    ParseIntNoLeadingDigit(abc);
    ParseIntNoLeadingDigit(nan);
  }

  // ---------------------------------------------------------------- save

  /** `age ? parseInt(age, 10) : 0`: the number saved for the age text. */
  function SavedAge(text: string): (r: Number)
    ensures text == "" ==> r == Int(0)
    ensures text != "" ==> r == ParseInt(text)
  {
    if text == "" then Int(0) else ParseInt(text)
  }

  /**
   * The `profileData` built from the form when the user saves: the texts and
   * lists are copied, the first timezone (or none) is kept and the age parsed.
   */
  function ProfileFromForm(f: Form): (p: UserProfile)
    ensures p.displayName == f.displayName && p.bio == f.bio && p.avatURL == f.avatURL
    ensures p.platforms == f.platforms && p.playTimes == f.playTimes
    ensures p.tags == f.tags && p.preferredGames == f.preferredGames
    ensures f.timezone == [] ==> p.timezone == ""
    ensures f.timezone != [] ==> p.timezone == f.timezone[0]
    ensures f.age == "" ==> p.age == Int(0)
    ensures f.age != "" ==> p.age == ParseInt(f.age)
  {
    UserProfile(
      f.displayName,
      f.bio,
      SavedAge(f.age),
      f.avatURL,
      if f.timezone == [] then "" else f.timezone[0],
      f.platforms,
      f.playTimes,
      f.preferredGames,
      f.tags)
  }

  // ---------------------------------------------------------------- timezone chips

  /** `selected.slice(-1)`: the last element alone, or nothing. */
  function KeepLast(selected: seq<string>): (r: seq<string>)
    ensures |r| <= 1
    ensures r == [] <==> selected == []
    ensures selected != [] ==> r[0] == selected[|selected| - 1]
  {
    if selected == [] then [] else selected[|selected| - 1..]
  }

  /** A tap on a timezone chip: the chip list toggles the zone and the handler keeps the last one. */
  function TapTimezone(current: seq<string>, zone: string): (r: seq<string>)
    ensures |r| <= 1
    ensures zone in r <==> zone !in current
    ensures forall z :: z in r ==> z in current || z == zone
  {
    KeepLast(ChipSelect.ToggleOption(current, zone))
  }

  /** With at most one zone selected, tapping the selected zone clears it and tapping any other zone selects it alone. */
  lemma TimezoneTap(current: seq<string>, zone: string)
    requires |current| <= 1
    ensures current == [zone] ==> TapTimezone(current, zone) == []
    ensures current != [zone] ==> TapTimezone(current, zone) == [zone]
  {
  }

  /** Every chip list holds distinct entries of its own option list, and at most one zone. */
  predicate ChipListsValid(f: Form) {
    && |f.timezone| <= 1 && ChipSelect.AllIn(f.timezone, TimezoneOptions)
    && ChipSelect.NoDuplicates(f.platforms) && ChipSelect.AllIn(f.platforms, PlatformOptions)
    && ChipSelect.NoDuplicates(f.playTimes) && ChipSelect.AllIn(f.playTimes, PlaytimeOptions)
    && ChipSelect.NoDuplicates(f.tags) && ChipSelect.AllIn(f.tags, TagOptions)
    && ChipSelect.NoDuplicates(f.preferredGames) && ChipSelect.AllIn(f.preferredGames, GameOptions)
  }

  /** A tap on any chip the screen draws keeps every chip list valid. */
  lemma ChipTapKeepsListsValid(f: Form, option: string)
    requires ChipListsValid(f)
    ensures option in TimezoneOptions ==> ChipListsValid(f.(timezone := TapTimezone(f.timezone, option)))
    ensures option in PlatformOptions ==> ChipListsValid(f.(platforms := ChipSelect.ToggleOption(f.platforms, option)))
    ensures option in PlaytimeOptions ==> ChipListsValid(f.(playTimes := ChipSelect.ToggleOption(f.playTimes, option)))
    ensures option in TagOptions ==> ChipListsValid(f.(tags := ChipSelect.ToggleOption(f.tags, option)))
    ensures option in GameOptions ==>
              ChipListsValid(f.(preferredGames := ChipSelect.ToggleOption(f.preferredGames, option)))
  {
    if option in PlatformOptions { ChipSelect.ToggleKeepsSelectionValid(PlatformOptions, f.platforms, option); }
    if option in PlaytimeOptions { ChipSelect.ToggleKeepsSelectionValid(PlaytimeOptions, f.playTimes, option); }
    if option in TagOptions { ChipSelect.ToggleKeepsSelectionValid(TagOptions, f.tags, option); }
    if option in GameOptions { ChipSelect.ToggleKeepsSelectionValid(GameOptions, f.preferredGames, option); }
  }

  // ---------------------------------------------------------------- load

  /** `profile.age?.toString() || ''`. */
  function AgeText(age: Option<Number>): (r: string)
    ensures r == "" <==> age.None?
  {
    match age
    case None => ""
    case Some(Int(n)) => IntToString(n)
    case Some(NaN) => "NaN"
  }

  /** The form fields set from a stored profile, each missing field taking its empty default. */
  function LoadedForm(p: PartialProfile): (f: Form)
    ensures |f.timezone| <= 1 && "" !in f.timezone
    ensures p.displayName.Some? ==> f.displayName == p.displayName.value
    ensures p.displayName.None? ==> f.displayName == ""
    ensures p.bio.Some? ==> f.bio == p.bio.value
    ensures p.bio.None? ==> f.bio == ""
    ensures p.avatURL.Some? ==> f.avatURL == p.avatURL.value
    ensures p.avatURL.None? ==> f.avatURL == ""
    ensures p.age.None? ==> f.age == ""
    ensures p.age.Some? && p.age.value.Int? ==> f.age == IntToString(p.age.value.value)
    ensures p.age == Some(NaN) ==> f.age == "NaN"
    ensures p.timezone.Some? && p.timezone.value != "" ==> f.timezone == [p.timezone.value]
    ensures p.timezone.None? || p.timezone.value == "" ==> f.timezone == []
    ensures p.platforms.Some? ==> f.platforms == p.platforms.value
    ensures p.platforms.None? ==> f.platforms == []
    ensures p.playTimes.Some? ==> f.playTimes == p.playTimes.value
    ensures p.playTimes.None? ==> f.playTimes == []
    ensures p.tags.Some? ==> f.tags == p.tags.value
    ensures p.tags.None? ==> f.tags == []
    ensures p.preferredGames.Some? ==> f.preferredGames == p.preferredGames.value
    ensures p.preferredGames.None? ==> f.preferredGames == []
  {
    Form(
      p.displayName.GetOr(""),
      p.bio.GetOr(""),
      AgeText(p.age),
      p.avatURL.GetOr(""),
      if p.timezone.Some? && p.timezone.value != "" then [p.timezone.value] else [],
      p.platforms.GetOr([]),
      p.playTimes.GetOr([]),
      p.tags.GetOr([]),
      p.preferredGames.GetOr([]))
  }

  /** A stored profile with no fields at all loads as the empty form. */
  lemma LoadEmptyProfile()
    ensures LoadedForm(EmptyPatch) == EmptyForm
  {
  }

  /** Saving reads back any stored age, including NaN. */
  lemma AgeRoundTrip(n: Number)
    ensures SavedAge(AgeText(Some(n))) == n
  {
    match n
    case Int(v) => ParseIntOfIntToString(v);
    case NaN => ParseIntNoLeadingDigit("NaN");
  }

  /** Loading a saved profile into the form and saving it again stores the same profile. */
  lemma LoadThenSave(p: UserProfile)
    ensures ProfileFromForm(LoadedForm(AsPartial(p))) == p
  {
    AgeRoundTrip(p.age);
  }

  /**
   * Saving a form with at most one, non-empty, timezone and loading it back
   * gives the same form, except for the age text, which comes back as the
   * saved number's decimal text.
   */
  lemma SaveThenLoad(f: Form)
    requires |f.timezone| <= 1 && "" !in f.timezone
    ensures LoadedForm(AsPartial(ProfileFromForm(f))) == f.(age := AgeText(Some(SavedAge(f.age))))
  {
    if f.timezone != [] {
      assert f.timezone == [f.timezone[0]];
    }
  }

  /** An age typed as an integer's own decimal text survives save and load. */
  lemma CanonicalAgeRoundTrips(n: int)
    ensures AgeText(Some(SavedAge(IntToString(n)))) == IntToString(n)
  {
    ParseIntOfIntToString(n);
  }

  /** An empty age is saved as 0 and comes back as "0", not as the empty text. */
  lemma EmptyAgeDoesNotRoundTrip()
    ensures LoadedForm(AsPartial(ProfileFromForm(EmptyForm))).age == "0"
  {
  }

  // ---------------------------------------------------------------- the screen

  /** What the profile fetch gave: the stored profile if the document has one, or a failure. */
  datatype Fetch = Fetched(stored: Option<PartialProfile>) | FetchFailed

  /** What a save did: nothing without a signed-in user, otherwise the write it submitted and whether it succeeded. */
  datatype SaveOutcome = NotSignedIn | Submitted(uid: string, profile: UserProfile, succeeded: bool)

  /** The screen's component state. */
  class EditProfileScreen {
    var isLoading: bool
    var isSaving: bool
    var displayName: string
    var bio: string
    var age: string
    var avatURL: string
    var timezone: seq<string>
    var platforms: seq<string>
    var playTimes: seq<string>
    var tags: seq<string>
    var preferredGames: seq<string>

    /** The nine form fields as one value. */
    function Fields(): Form
      reads this
    {
      Form(displayName, bio, age, avatURL, timezone, platforms, playTimes, tags, preferredGames)
    }

    /** The timezone chips never hold more than one zone, and never the empty one. */
    predicate Valid()
      reads this
    {
      |timezone| <= 1 && "" !in timezone
    }

    /** The screen opens loading, not saving, with an empty form. */
    constructor ()
      ensures Valid() && isLoading && !isSaving && Fields() == EmptyForm
    {
      isLoading, isSaving := true, false;
      displayName, bio, age, avatURL := "", "", "", "";
      timezone, platforms, playTimes, tags, preferredGames := [], [], [], [], [];
    }

    /**
     * `loadProfile`: without a user, ask for a redirect to login; otherwise
     * fill every field from the stored profile when there is one. The
     * loading flag is cleared on every path.
     */
    method LoadProfile(user: Option<User>, fetch: Fetch) returns (redirectToLogin: bool)
      requires Valid()
      modifies this
      ensures Valid()
      ensures redirectToLogin <==> user.None?
      ensures !isLoading && isSaving == old(isSaving)
      ensures Fields() == if user.Some? && fetch.Fetched? && fetch.stored.Some?
                          then LoadedForm(fetch.stored.value) else old(Fields())
    {
      redirectToLogin := false;
      if user.None? {
        redirectToLogin := true;
      } else if fetch.Fetched? && fetch.stored.Some? {
        var loaded := LoadedForm(fetch.stored.value);
        displayName, bio, age, avatURL := loaded.displayName, loaded.bio, loaded.age, loaded.avatURL;
        timezone, platforms, playTimes := loaded.timezone, loaded.platforms, loaded.playTimes;
        tags, preferredGames := loaded.tags, loaded.preferredGames;
      }
      isLoading := false;
    }

    /**
     * `handleSave`: without a user, do nothing; otherwise submit the profile
     * built from the form for the user's record, and clear the saving flag
     * whether the write succeeded or not.
     */
    method HandleSave(user: Option<User>, writeSucceeds: bool) returns (outcome: SaveOutcome)
      requires Valid()
      modifies this
      ensures Valid() && Fields() == old(Fields()) && isLoading == old(isLoading)
      ensures user.None? ==> outcome == NotSignedIn && isSaving == old(isSaving)
      ensures user.Some? ==> outcome == Submitted(user.value.uid, ProfileFromForm(old(Fields())), writeSucceeds) && !isSaving
      ensures user.Some? ==> LoadedForm(AsPartial(outcome.profile)) == old(Fields()).(age := AgeText(Some(SavedAge(old(age)))))
    {
      if user.None? {
        return NotSignedIn;
      }
      SaveThenLoad(Fields());
      isSaving := true;
      var profileData := UserProfile(
        displayName, bio, SavedAge(age), avatURL,
        if timezone == [] then "" else timezone[0],
        platforms, playTimes, preferredGames, tags);
      outcome := Submitted(user.value.uid, profileData, writeSucceeds);
      isSaving := false;
    }

    /**
     * The timezone chip list's change handler: keep only the last zone of the
     * new list. The chip list only passes listed zones, none of them empty.
     */
    method OnTimezoneChange(selected: seq<string>)
      requires Valid() && "" !in selected
      modifies this
      ensures Valid() && timezone == KeepLast(selected)
      ensures Fields() == old(Fields()).(timezone := KeepLast(selected))
      ensures isLoading == old(isLoading) && isSaving == old(isSaving)
    {
      timezone := KeepLast(selected);
    }
  }

  /**
   * Opening the screen: the form starts empty and the mount effect loads the
   * profile into it. Without a stored profile every field keeps its empty value.
   */
  method Open(user: Option<User>, fetch: Fetch) returns (form: Form, redirectToLogin: bool)
    ensures redirectToLogin <==> user.None?
    ensures form == if user.Some? && fetch.Fetched? && fetch.stored.Some?
                    then LoadedForm(fetch.stored.value) else EmptyForm
  {
    var screen := new EditProfileScreen();
    redirectToLogin := screen.LoadProfile(user, fetch);
    form := screen.Fields();
  }
}
