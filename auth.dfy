/** The authentication manager: a signed-in flag, the current user and an onboarding flag, saved
    to the key-value store after every change and read back when the manager starts. Sign-in is
    simulated: no password is checked. `UUID()` is the `id` parameter. */
module Auth {
  import opened Seqs
  import opened Text
  import opened Store
  import Settings

  datatype User = User(id: Uuid, email: string, name: string, profileImageURL: Option<string>)

  datatype AuthState = AuthState(isAuthenticated: bool, currentUser: Option<User>, hasCompletedOnboarding: bool)

  const IsAuthenticatedKey := "isAuthenticated"
  const OnboardingKey := "hasCompletedOnboarding"
  const UserEmailKey := "userEmail"
  const UserNameKey := "userName"

  // ---------------------------------------------------------------------------------------------
  // Deriving a display name from an e-mail address

  function UpperChar(c: char): char
  {
    if 'a' <= c <= 'z' then (c as int - 32) as char else c
  }

  predicate IsLetter(c: char)
  {
    'a' <= c <= 'z' || 'A' <= c <= 'Z'
  }

  /** Whether the character after `c` starts a word, given whether `c`'s own position did. Any
      character that is not a letter (whitespace, a digit, '-', '_', ...) ends a word, and an
      apostrophe carries the state across, so "o'neil" is one word. */
  function StartsWordAfter(c: char, wordStart: bool): bool
  {
    if IsLetter(c) then false else if c == '\'' then wordStart else true
  }

  /** `capitalized` on ASCII text, from a position that does (`wordStart`) or does not start a
      word: the first letter of each word upper case, every other letter lower case. */
  function CapitalizedFrom(s: string, wordStart: bool): (r: string)
    ensures |r| == |s|
    ensures forall i :: 0 <= i < |s| ==> r[i] == s[i] || r[i] == UpperChar(s[i]) || r[i] == LowerChar(s[i])
  {
    if s == [] then []
    else
      var c := if wordStart then UpperChar(s[0]) else LowerChar(s[0]);
      [c] + CapitalizedFrom(s[1..], StartsWordAfter(s[0], wordStart))
  }

  function Capitalized(s: string): string
  {
    CapitalizedFrom(s, true)
  }

  /** Capitalizing changes letter case only: the text is the same ignoring case, and a leading
      letter comes out upper case. */
  lemma {:induction false} CapitalizedSpec(s: string, wordStart: bool)
    ensures Lower(CapitalizedFrom(s, wordStart)) == Lower(s)
    ensures s != [] && wordStart && 'a' <= s[0] <= 'z' ==> 'A' <= CapitalizedFrom(s, wordStart)[0] <= 'Z'
  {
    if s != [] {
      CapitalizedSpec(s[1..], StartsWordAfter(s[0], wordStart));
      var r := CapitalizedFrom(s, wordStart);
      assert r[1..] == CapitalizedFrom(s[1..], StartsWordAfter(s[0], wordStart));
      assert LowerChar(r[0]) == LowerChar(s[0]);
      assert Lower(r) == [LowerChar(r[0])] + Lower(r[1..]);
      assert Lower(s) == [LowerChar(s[0])] + Lower(s[1..]);
    }
  }

  /** Where the words start: a character right after a letter is lower-cased, and one right after
      any other character except an apostrophe is upper-cased. */
  lemma {:induction false} CapitalizedWordStarts(s: string, wordStart: bool)
    ensures var r := CapitalizedFrom(s, wordStart);
            s != [] ==> r[0] == (if wordStart then UpperChar(s[0]) else LowerChar(s[0]))
    ensures var r := CapitalizedFrom(s, wordStart);
            forall i :: 0 < i < |s| && IsLetter(s[i - 1]) ==> r[i] == LowerChar(s[i])
    ensures var r := CapitalizedFrom(s, wordStart);
            forall i :: 0 < i < |s| && !IsLetter(s[i - 1]) && s[i - 1] != '\'' ==> r[i] == UpperChar(s[i])
  {
    if s != [] {
      var next := StartsWordAfter(s[0], wordStart);
      CapitalizedWordStarts(s[1..], next);
      var r := CapitalizedFrom(s, wordStart);
      assert r[1..] == CapitalizedFrom(s[1..], next);
      forall i | 0 < i < |s|
        ensures IsLetter(s[i - 1]) ==> r[i] == LowerChar(s[i])
        ensures !IsLetter(s[i - 1]) && s[i - 1] != '\'' ==> r[i] == UpperChar(s[i])
      {
        assert r[i] == CapitalizedFrom(s[1..], next)[i - 1];
        assert s[1..][i - 1] == s[i];
        if i > 1 {
          assert s[1..][i - 2] == s[i - 1];
        }
      }
    }
  }

  /** The first of `components(separatedBy: "@")`: the text before the first "@", or all of it. */
  function BeforeAt(s: string): (r: string)
    ensures r <= s && '@' !in r
    ensures |r| < |s| ==> s[|r|] == '@'
    ensures '@' !in s ==> r == s
  {
    if s == [] || s[0] == '@' then [] else [s[0]] + BeforeAt(s[1..])
  }

  /** `extractName(from:)`. The `"User"` fallback of the source is unreachable: splitting always
      yields at least one component. */
  function ExtractName(email: string): string
  {
    Capitalized(BeforeAt(email))
  }

  /** The name is the part of the address before the first "@", with only its letter case
      changed; it never contains "@". */
  lemma ExtractNameSpec(email: string)
    ensures var name := ExtractName(email);
            |name| == |BeforeAt(email)| && '@' !in name && Lower(name) == Lower(BeforeAt(email))
  {
    CapitalizedSpec(BeforeAt(email), true);
    var b := BeforeAt(email);
    var name := ExtractName(email);
    forall i | 0 <= i < |name|
      ensures name[i] != '@'
    {
      assert name[i] == b[i] || name[i] == UpperChar(b[i]) || name[i] == LowerChar(b[i]);
    }
  }

  /** One character of `capitalized`. */
  lemma CapitalizedStep(a: char, s: string, wordStart: bool)
    ensures CapitalizedFrom([a] + s, wordStart) ==
            [if wordStart then UpperChar(a) else LowerChar(a)] + CapitalizedFrom(s, StartsWordAfter(a, wordStart))
  {
    assert ([a] + s)[1..] == s;
  }

  /** The name is taken from the part before the first "@". */
  lemma {:induction false} BeforeAtPrefix(p: string, rest: string)
    requires '@' !in p
    ensures BeforeAt(p + "@" + rest) == p
  {
    if p != [] {
      assert (p + "@" + rest)[1..] == p[1..] + "@" + rest;
      BeforeAtPrefix(p[1..], rest);
    } else {
      assert (p + "@" + rest)[0] == '@';
    }
  }

  /** Words break at any non-letter, not only at whitespace: a hyphen. */
  lemma CapitalizedHyphen()
    ensures Capitalized("mary-jo") == "Mary-Jo"
  {
    CapitalizedStep('o', "", false);
    CapitalizedStep('j', "o", true);
    CapitalizedStep('-', "jo", false);
    CapitalizedStep('y', "-jo", false);
    CapitalizedStep('r', "y-jo", false);
    CapitalizedStep('a', "ry-jo", false);
    CapitalizedStep('m', "ary-jo", true);
  }

  lemma ExtractNameHyphen()
    ensures ExtractName("mary-jo@x.com") == "Mary-Jo"
  {
    assert "mary-jo@x.com" == "mary-jo" + "@" + "x.com";
    BeforeAtPrefix("mary-jo", "x.com");
    CapitalizedHyphen();
  }

  /** An underscore starts a word. */
  lemma CapitalizedUnderscore()
    ensures Capitalized("jane_doe") == "Jane_Doe"
  {
    CapitalizedStep('e', "", false);
    CapitalizedStep('o', "e", false);
    CapitalizedStep('d', "oe", true);
    CapitalizedStep('_', "doe", false);
    CapitalizedStep('e', "_doe", false);
    CapitalizedStep('n', "e_doe", false);
    CapitalizedStep('a', "ne_doe", false);
    CapitalizedStep('j', "ane_doe", true);
  }

  lemma ExtractNameUnderscore()
    ensures ExtractName("jane_doe@x.com") == "Jane_Doe"
  {
    assert "jane_doe@x.com" == "jane_doe" + "@" + "x.com";
    BeforeAtPrefix("jane_doe", "x.com");
    CapitalizedUnderscore();
  }

  /** A digit starts a word. */
  lemma CapitalizedDigit()
    ensures Capitalized("user1abc") == "User1Abc"
  {
    CapitalizedStep('c', "", false);
    CapitalizedStep('b', "c", false);
    CapitalizedStep('a', "bc", true);
    CapitalizedStep('1', "abc", false);
    CapitalizedStep('r', "1abc", false);
    CapitalizedStep('e', "r1abc", false);
    CapitalizedStep('s', "er1abc", false);
    CapitalizedStep('u', "ser1abc", true);
  }

  lemma ExtractNameDigit()
    ensures ExtractName("user1abc@x.com") == "User1Abc"
  {
    assert "user1abc@x.com" == "user1abc" + "@" + "x.com";
    BeforeAtPrefix("user1abc", "x.com");
    CapitalizedDigit();
  }

  // ---------------------------------------------------------------------------------------------
  // The state machine

  function AfterSignIn(a: AuthState, email: string, id: Uuid): AuthState
  {
    a.(currentUser := Some(User(id, email, ExtractName(email), None)), isAuthenticated := true)
  }

  function AfterSignUp(a: AuthState, email: string, name: string, id: Uuid): AuthState
  {
    a.(currentUser := Some(User(id, email, name, None)), isAuthenticated := true, hasCompletedOnboarding := false)
  }

  function AfterSignOut(a: AuthState): AuthState
  {
    AuthState(false, None, false)
  }

  function AfterCompleteOnboarding(a: AuthState): AuthState
  {
    a.(hasCompletedOnboarding := true)
  }

  /** There is a current user exactly while signed in. */
  predicate Inv(a: AuthState)
  {
    a.currentUser.Some? <==> a.isAuthenticated
  }

  /** Signing in or up authenticates with a new user; sign-in keeps the onboarding flag while
      sign-up clears it; signing out clears all three; completing onboarding sets only that flag.
      Every operation keeps the invariant. */
  lemma TransitionsSpec(a: AuthState, email: string, name: string, id: Uuid)
    requires Inv(a)
    ensures var r := AfterSignIn(a, email, id);
            Inv(r) && r.isAuthenticated && r.currentUser.value.email == email &&
            r.currentUser.value.name == ExtractName(email) && r.hasCompletedOnboarding == a.hasCompletedOnboarding
    ensures var r := AfterSignUp(a, email, name, id);
            Inv(r) && r.isAuthenticated && r.currentUser.value.email == email &&
            r.currentUser.value.name == name && !r.hasCompletedOnboarding
    ensures var r := AfterSignOut(a);
            Inv(r) && !r.isAuthenticated && r.currentUser.None? && !r.hasCompletedOnboarding
    ensures var r := AfterCompleteOnboarding(a);
            Inv(r) && r.hasCompletedOnboarding && r.isAuthenticated == a.isAuthenticated && r.currentUser == a.currentUser
  {
  }

  // ---------------------------------------------------------------------------------------------
  // Persistence

  /** The store after `saveAuthState()`. */
  function SavedStore(m: Values, a: AuthState): Values
  {
    var m1 := m[IsAuthenticatedKey := BoolValue(a.isAuthenticated)][OnboardingKey := BoolValue(a.hasCompletedOnboarding)];
    match a.currentUser
    case Some(user) => m1[UserEmailKey := StringValue(user.email)][UserNameKey := StringValue(user.name)]
    case None => m1 - {UserEmailKey, UserNameKey}
  }

  /** What `loadAuthState()` makes of a store, starting from no user; `id` is the fresh identifier
      given to a restored user. */
  function Loaded(m: Values, id: Uuid): AuthState
  {
    var authenticated := BoolFor(m, IsAuthenticatedKey);
    var email := StringFor(m, UserEmailKey);
    var name := StringFor(m, UserNameKey);
    var user := if authenticated && email.Some? && name.Some? then Some(User(id, email.value, name.value, None)) else None;
    AuthState(authenticated, user, BoolFor(m, OnboardingKey))
  }

  /** The user as restored by a load: same e-mail and name, a fresh identifier, no image. */
  function Restored(a: AuthState, id: Uuid): AuthState
  {
    match a.currentUser
    case Some(u) => a.(currentUser := Some(u.(id := id, profileImageURL := None)))
    case None => a
  }

  /** Saving then loading restores the signed-in flag, the onboarding flag and the user's e-mail
      and name; a load never produces a user without the signed-in flag. */
  lemma SaveLoadRoundTrip(m: Values, a: AuthState, id: Uuid)
    requires Inv(a)
    ensures Loaded(SavedStore(m, a), id) == Restored(a, id)
    ensures Loaded(m, id).currentUser.Some? ==> Loaded(m, id).isAuthenticated
  {
  }

  /** The user name and the onboarding flag share their keys with the settings: after signing out
      the settings reload the default name and no onboarding, and after signing in they reload
      the derived name and the kept onboarding flag. */
  lemma SharedKeysSpec(m: Values, a: AuthState, email: string, id: Uuid)
    ensures UserNameKey == Settings.UserNameKey && OnboardingKey == Settings.OnboardingKey
    ensures var m' := SavedStore(m, AfterSignOut(a));
            UserNameKey !in m' && UserEmailKey !in m' &&
            Settings.Load(m').userName == "Noah" && !Settings.Load(m').hasCompletedOnboarding
    ensures var m' := SavedStore(m, AfterSignIn(a, email, id));
            Settings.Load(m').userName == ExtractName(email) &&
            Settings.Load(m').hasCompletedOnboarding == a.hasCompletedOnboarding
  {
  }

  class AuthManager {
    var isAuthenticated: bool
    var currentUser: Option<User>
    var hasCompletedOnboarding: bool
    const defaults: Defaults

    function Model(): AuthState
      reads this
    {
      AuthState(isAuthenticated, currentUser, hasCompletedOnboarding)
    }

    /** `init()`. */
    constructor(defaults: Defaults, id: Uuid)
      ensures this.defaults == defaults
      ensures Model() == Loaded(defaults.values, id)
    {
      isAuthenticated := false;
      currentUser := None;
      hasCompletedOnboarding := false;
      this.defaults := defaults;
      new;
      LoadAuthState(id);
    }

    method SignIn(email: string, password: string, id: Uuid)
      modifies this, defaults
      ensures Model() == AfterSignIn(old(Model()), email, id)
      ensures defaults.values == SavedStore(old(defaults.values), Model())
    {
      currentUser := Some(User(id, email, ExtractName(email), None));
      isAuthenticated := true;
      SaveAuthState();
    }

    method SignUp(email: string, password: string, name: string, id: Uuid)
      modifies this, defaults
      ensures Model() == AfterSignUp(old(Model()), email, name, id)
      ensures defaults.values == SavedStore(old(defaults.values), Model())
    {
      currentUser := Some(User(id, email, name, None));
      isAuthenticated := true;
      hasCompletedOnboarding := false;
      SaveAuthState();
    }

    method SignOut()
      modifies this, defaults
      ensures Model() == AfterSignOut(old(Model()))
      ensures defaults.values == SavedStore(old(defaults.values), Model())
    {
      currentUser := None;
      isAuthenticated := false;
      hasCompletedOnboarding := false;
      SaveAuthState();
    }

    method CompleteOnboarding()
      modifies this, defaults
      ensures Model() == AfterCompleteOnboarding(old(Model()))
      ensures defaults.values == SavedStore(old(defaults.values), Model())
    {
      hasCompletedOnboarding := true;
      SaveAuthState();
    }

    /** `loadAuthState()`: the user is only replaced when one can be restored. */
    method LoadAuthState(id: Uuid)
      modifies this
      ensures var l := Loaded(defaults.values, id);
              isAuthenticated == l.isAuthenticated && hasCompletedOnboarding == l.hasCompletedOnboarding &&
              currentUser == (if l.currentUser.Some? then l.currentUser else old(currentUser))
    {
      isAuthenticated := BoolFor(defaults.values, IsAuthenticatedKey);
      hasCompletedOnboarding := BoolFor(defaults.values, OnboardingKey);
      var email := StringFor(defaults.values, UserEmailKey);
      var name := StringFor(defaults.values, UserNameKey);
      if isAuthenticated && email.Some? && name.Some? {
        currentUser := Some(User(id, email.value, name.value, None));
      }
    }

    method SaveAuthState()
      modifies defaults
      ensures defaults.values == SavedStore(old(defaults.values), Model())
    {
      defaults.Set(IsAuthenticatedKey, BoolValue(isAuthenticated));
      defaults.Set(OnboardingKey, BoolValue(hasCompletedOnboarding));
      if currentUser.Some? {
        defaults.Set(UserEmailKey, StringValue(currentUser.value.email));
        defaults.Set(UserNameKey, StringValue(currentUser.value.name));
      } else {
        defaults.Remove(UserEmailKey);
        defaults.Remove(UserNameKey);
      }
    }
  }
}
