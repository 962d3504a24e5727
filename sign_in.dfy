/** The sign-in screen: a form that signs in or signs up through the authentication manager and
    copies the resulting name into the settings. The authentication manager and the settings
    write to the same key-value store. */
module SignIn {
  import opened Seqs
  import opened Store
  import Settings
  import Auth

  datatype SignInForm = SignInForm(email: string, password: string, name: string, isSignUpMode: bool)

  /** `isFormValid`: only colours the button. */
  predicate IsFormValid(f: SignInForm)
  {
    if f.isSignUpMode then f.email != [] && f.password != [] && f.name != [] && |f.password| >= 6
    else f.email != [] && f.password != []
  }

  /** Sign-up needs all three fields and a password of at least six characters; sign-in needs an
      e-mail address and a password. */
  lemma IsFormValidSpec(f: SignInForm)
    ensures f.isSignUpMode ==> (IsFormValid(f) <==> f.email != [] && f.name != [] && |f.password| >= 6)
    ensures !f.isSignUpMode ==> (IsFormValid(f) <==> f.email != [] && f.password != [])
  {
  }

  /** The form as the screen renders it: there are password and name fields but no e-mail field,
      so the e-mail address keeps its initial empty value. */
  function RenderedForm(password: string, name: string, isSignUpMode: bool): SignInForm
  {
    SignInForm("", password, name, isSignUpMode)
  }

  /** As rendered, the form is never valid, and signing in derives an empty user name. */
  lemma RenderedFormNeverValid(password: string, name: string, isSignUpMode: bool)
    ensures !IsFormValid(RenderedForm(password, name, isSignUpMode))
    ensures Auth.ExtractName(RenderedForm(password, name, isSignUpMode).email) == ""
  {
  }

  /** With an e-mail field, a valid sign-in form whose address does not start with "@" signs in
      a user with a non-empty name, which the settings then hold. */
  lemma SignInWithEmailField(email: string, password: string, m: Values, a: Auth.AuthState, id: Uuid)
    requires IsFormValid(SignInForm(email, password, "", false)) && email[0] != '@'
    ensures Auth.ExtractName(email) != []
    ensures var m' := Auth.SavedStore(m, Auth.AfterSignIn(a, email, id));
            Settings.Load(m').userName == Auth.ExtractName(email) != []
  {
    Auth.ExtractNameSpec(email);
    assert Auth.BeforeAt(email) != [];
    Auth.SharedKeysSpec(m, a, email, id);
  }

  /** The name copied into the settings after a sign-up or sign-in; `None` when no user is
      present, which cannot happen right after either. */
  function CopiedName(f: SignInForm, after: Auth.AuthState): Option<string>
  {
    if f.isSignUpMode then Some(f.name)
    else if after.currentUser.Some? then Some(after.currentUser.value.name)
    else None
  }

  /** The authentication state after `handleAuth()`. */
  function AuthAfter(f: SignInForm, a: Auth.AuthState, id: Uuid): Auth.AuthState
  {
    if f.isSignUpMode then Auth.AfterSignUp(a, f.email, f.name, id) else Auth.AfterSignIn(a, f.email, id)
  }

  /** `handleAuth()`: runs whether or not the form is valid. `id` is the new user's identifier. */
  method HandleAuth(f: SignInForm, authManager: Auth.AuthManager, userSettings: Settings.UserSettings, id: Uuid)
    requires authManager.defaults == userSettings.store
    modifies authManager, userSettings, userSettings.store
    ensures authManager.Model() == AuthAfter(f, old(authManager.Model()), id)
    ensures CopiedName(f, authManager.Model()).Some?
    ensures userSettings.Model() == old(userSettings.Model()).(userName := CopiedName(f, authManager.Model()).value)
    ensures userSettings.store.values ==
              Auth.SavedStore(old(userSettings.store.values), authManager.Model())
                [Settings.UserNameKey := StringValue(CopiedName(f, authManager.Model()).value)]
  {
    if f.isSignUpMode {
      authManager.SignUp(f.email, f.password, f.name, id);
      userSettings.Set(Settings.UserName(f.name));
    } else {
      authManager.SignIn(f.email, f.password, id);
      if authManager.currentUser.Some? {
        userSettings.Set(Settings.UserName(authManager.currentUser.value.name));
      }
    }
  }

  /** Copying the name into the settings writes what the authentication manager has just saved
      under the same key, so it leaves the store as the sign-in or sign-up left it, and the
      settings' name agrees with the user's. */
  lemma CopiedNameRedundant(f: SignInForm, m: Values, a: Auth.AuthState, id: Uuid)
    ensures var after := AuthAfter(f, a, id);
            var m' := Auth.SavedStore(m, after);
            CopiedName(f, after) == Some(after.currentUser.value.name) &&
            m'[Settings.UserNameKey := StringValue(CopiedName(f, after).value)] == m'
  {
  }
}
