/** The top-level `App` component: the gate that shows the login screen, the
    profile setup screen or the main screen, and the profile it keeps in the
    browser's local storage.

    Local storage is a map from keys to strings. `JSON.parse` and
    `JSON.stringify` are passed in as functions: parsing the stored text may
    fail (the source catches the exception), may give `null`, or may give a
    profile. */
module Session {
  import opened Types

  /** The local-storage key under which the profile is kept. */
  const ProfileKey: string := "seikoYTUserProfile"

  datatype Screen = LoginScreen | ProfileSetupScreen | MainScreen

  /** What `JSON.parse` does with the stored text. */
  datatype ParseOutcome = ParseError | ParsedNull | ParsedProfile(profile: UserProfile)

  datatype SessionState = SessionState(
    isAuthenticated: bool,
    userProfile: Option<UserProfile>,
    storage: map<string, string>)

  /** The screen `App` renders. */
  function ScreenOf(s: SessionState): (r: Screen)
    ensures r == LoginScreen <==> !s.isAuthenticated
    ensures r == ProfileSetupScreen <==> s.isAuthenticated && s.userProfile.None?
    ensures r == MainScreen <==> s.isAuthenticated && s.userProfile.Some?
  {
    if !s.isAuthenticated then LoginScreen
    else if s.userProfile.None? then ProfileSetupScreen
    else MainScreen
  }

  /** A profile is only held while signed in. */
  predicate ProfileOnlyWhenSignedIn(s: SessionState) {
    s.userProfile.Some? ==> s.isAuthenticated
  }

  /** The first render: signed out, no profile, whatever storage holds. */
  function Initial(storage: map<string, string>): (r: SessionState)
    ensures ScreenOf(r) == LoginScreen && ProfileOnlyWhenSignedIn(r)
  {
    SessionState(false, None, storage)
  }

  /** The effect that runs once `isAuthenticated` has become true: a non-empty
      stored profile is parsed; a parse failure removes the stored entry and
      leaves the profile as it was. */
  function LoadStoredProfile(s: SessionState, parse: string -> ParseOutcome): (r: SessionState)
    ensures r.isAuthenticated == s.isAuthenticated
  {
    if ProfileKey in s.storage && s.storage[ProfileKey] != "" then
      match parse(s.storage[ProfileKey])
      case ParseError => s.(storage := s.storage - {ProfileKey})
      case ParsedNull => s.(userProfile := None)
      case ParsedProfile(p) => s.(userProfile := Some(p))
    else s
  }

  /** `handleLogin`; the load effect only runs when the flag actually changes. */
  function Login(s: SessionState, parse: string -> ParseOutcome): (r: SessionState)
    ensures r.isAuthenticated
    ensures ProfileOnlyWhenSignedIn(r)
  {
    if s.isAuthenticated then s else LoadStoredProfile(s.(isAuthenticated := true), parse)
  }

  /** `handleLogout`: removes the stored profile and clears both profile and
      sign-in; the load effect does nothing for a false flag. */
  function Logout(s: SessionState): (r: SessionState)
    ensures ScreenOf(r) == LoginScreen && ProfileOnlyWhenSignedIn(r)
    ensures ProfileKey !in r.storage
    ensures forall k :: k in s.storage && k != ProfileKey ==> k in r.storage && r.storage[k] == s.storage[k]
    ensures r.storage.Keys <= s.storage.Keys
  {
    SessionState(false, None, s.storage - {ProfileKey})
  }

  /** `handleProfileSave`: stores the serialised profile and holds it. */
  function SaveProfile(s: SessionState, p: UserProfile, stringify: UserProfile -> string): (r: SessionState)
    ensures r.userProfile == Some(p) && r.isAuthenticated == s.isAuthenticated
    ensures ProfileKey in r.storage && r.storage[ProfileKey] == stringify(p)
    ensures forall k :: k in s.storage && k != ProfileKey ==> k in r.storage && r.storage[k] == s.storage[k]
    ensures s.isAuthenticated ==> ScreenOf(r) == MainScreen && ProfileOnlyWhenSignedIn(r)
    ensures r.storage.Keys == s.storage.Keys + {ProfileKey}
  {
    s.(storage := s.storage[ProfileKey := stringify(p)], userProfile := Some(p))
  }

  /** What signing in shows, by what storage holds: nothing (or an empty
      string) or a stored `null` leads to profile setup; a stored profile leads
      to the main screen with that profile; unparsable text leads to profile
      setup and is removed from storage, nothing else being touched. */
  lemma LoginOutcomes(storage: map<string, string>, parse: string -> ParseOutcome)
    ensures var r := Login(Initial(storage), parse);
      && (ProfileKey !in storage || storage[ProfileKey] == "" ==>
            ScreenOf(r) == ProfileSetupScreen && r.storage == storage)
      && (ProfileKey in storage && storage[ProfileKey] != "" ==>
            match parse(storage[ProfileKey])
            case ParseError =>
              ScreenOf(r) == ProfileSetupScreen && r.userProfile.None? && r.storage == storage - {ProfileKey}
            case ParsedNull =>
              ScreenOf(r) == ProfileSetupScreen && r.storage == storage
            case ParsedProfile(p) =>
              ScreenOf(r) == MainScreen && r.userProfile == Some(p) && r.storage == storage)
  {
  }

  /** A saved profile survives a reload: when parsing gives back what
      serialising produced (and JSON text is never empty), signing in again on
      the same storage restores the profile and the main screen. */
  lemma {:induction false} SaveReloadLogin(s: SessionState, p: UserProfile,
                                           stringify: UserProfile -> string, parse: string -> ParseOutcome)
    requires stringify(p) != ""
    requires parse(stringify(p)) == ParsedProfile(p)
    ensures var r := Login(Initial(SaveProfile(s, p, stringify).storage), parse);
      r.userProfile == Some(p) && ScreenOf(r) == MainScreen
  {
    var stored := SaveProfile(s, p, stringify).storage;
    assert stored[ProfileKey] == stringify(p);
  }

  /** Signing out forgets the profile for good: signing in again, on the same
      storage, always leads to profile setup. */
  lemma LogoutThenLogin(s: SessionState, parse: string -> ParseOutcome)
    ensures var r := Login(Logout(s), parse);
      ScreenOf(r) == ProfileSetupScreen && r.storage == Logout(s).storage
  {
  }

  /** Every transition keeps a profile only while signed in (saving is only
      offered on the screens that require a sign-in). */
  lemma GatePreserved(s: SessionState, p: UserProfile, parse: string -> ParseOutcome,
                      stringify: UserProfile -> string)
    requires ProfileOnlyWhenSignedIn(s)
    ensures ProfileOnlyWhenSignedIn(Login(s, parse))
    ensures ProfileOnlyWhenSignedIn(Logout(s))
    ensures ScreenOf(s) != LoginScreen ==> ProfileOnlyWhenSignedIn(SaveProfile(s, p, stringify))
  {
  }

  /** The component, with its two pieces of state and the storage it writes. */
  class App {
    var isAuthenticated: bool
    var userProfile: Option<UserProfile>
    var storage: map<string, string>

    function Snapshot(): SessionState
      reads this
    {
      SessionState(isAuthenticated, userProfile, storage)
    }

    constructor (localStorage: map<string, string>)
      ensures Snapshot() == Initial(localStorage)
    {
      isAuthenticated := false;
      userProfile := None;
      storage := localStorage;
    }

    method HandleLogin(parse: string -> ParseOutcome)
      modifies this
      ensures Snapshot() == Login(old(Snapshot()), parse)
    {
      if isAuthenticated {
        // setting the flag to the value it has does not re-run the effect
        return;
      }
      isAuthenticated := true;
      // the effect on `isAuthenticated`
      if ProfileKey in storage && storage[ProfileKey] != "" {
        match parse(storage[ProfileKey])
        case ParseError =>
          storage := storage - {ProfileKey};
        case ParsedNull =>
          userProfile := None;
        case ParsedProfile(p) =>
          userProfile := Some(p);
      }
    }

    method HandleLogout()
      modifies this
      ensures Snapshot() == Logout(old(Snapshot()))
    {
      storage := storage - {ProfileKey};
      userProfile := None;
      isAuthenticated := false;
    }

    method HandleProfileSave(profile: UserProfile, stringify: UserProfile -> string)
      modifies this
      ensures Snapshot() == SaveProfile(old(Snapshot()), profile, stringify)
    {
      storage := storage[ProfileKey := stringify(profile)];
      userProfile := Some(profile);
    }
  }
}
