/**
 * src/hooks/useAuth.jsx: error messages for authentication failures, and
 * registration and login by username.  Firestore's `usernames` and `users`
 * collections are two maps; what the authentication service does (create
 * an account, commit the batch) is an outcome passed in.
 */
module Auth {
  import opened Wrappers
  import opened Text

  // ----- Username format -----

  predicate IsUsernameChar(c: char) {
    IsLetter(c) || IsDigit(c) || c == '_'
  }

  /** `/^[a-zA-Z0-9_]{3,20}$/`: 3 to 20 letters, digits and underscores. */
  predicate UsernameFormat(u: string) {
    3 <= |u| <= 20 && forall i | 0 <= i < |u| :: IsUsernameChar(u[i])
  }

  /** Lower-casing keeps a well-formed username well-formed. */
  lemma UsernameFormatLower(u: string)
    requires UsernameFormat(u)
    ensures UsernameFormat(ToLower(u))
  {
    var l := ToLower(u);
    forall i | 0 <= i < |l|
      ensures IsUsernameChar(l[i])
    {
      assert l[i] == LowerChar(u[i]);
    }
  }

  // ----- getAuthErrorMessage -----

  /** A thrown error: its `code` and `message`, "" where the field is missing. */
  datatype AuthError = AuthError(code: string, message: string)

  const InvalidCredentialsText := "Incorrect username or password."
  const FallbackText := "Something went wrong. Please try again."

  /** `AUTH_ERROR_MESSAGES[key]`. */
  function MessageFor(key: string): Option<string> {
    match key
    case "auth/invalid-credential" => Some(InvalidCredentialsText)
    case "auth/invalid-login-credentials" => Some(InvalidCredentialsText)
    case "auth/user-disabled" => Some("This account has been disabled.")
    case "auth/too-many-requests" => Some("Too many attempts. Try again later.")
    case "auth/network-request-failed" => Some("No internet connection \U{2014} check your connection and try again.")
    case "auth/email-already-in-use" => Some("An account with this email already exists.")
    case "auth/weak-password" => Some("Password must be at least 6 characters.")
    case "auth/invalid-email" => Some("Please enter a valid email address.")
    case "USERNAME_TAKEN" => Some("Username already taken.")
    case "INVALID_CREDENTIALS" => Some(InvalidCredentialsText)
    case "REGISTRATION_FAILED" => Some("Registration failed. Please try again.")
    case _ => None
  }

  /** The key the table is read with: the code when there is one, else the message. */
  function ErrorKey(e: AuthError): string {
    if e.code != "" then e.code else e.message
  }

  /** `getAuthErrorMessage(error)`: the table's text for the key, or the generic fallback. */
  function ErrorMessage(e: AuthError): (msg: string)
    ensures msg != ""
  {
    match MessageFor(ErrorKey(e))
    case Some(text) => text
    case None => FallbackText
  }

  /**
   * An unknown name at login and a wrong password at the authentication
   * service read the same, whatever message accompanies the code: the text
   * does not tell which part was wrong.
   */
  lemma CredentialErrorsAlike(m1: string, m2: string, m3: string)
    ensures ErrorMessage(AuthError("INVALID_CREDENTIALS", m1)) == InvalidCredentialsText
    ensures ErrorMessage(AuthError("auth/invalid-credential", m2)) == InvalidCredentialsText
    ensures ErrorMessage(AuthError("auth/invalid-login-credentials", m3)) == InvalidCredentialsText
  {
  }

  /** The error `register` throws for a badly formed username. */
  const InvalidUsernameError :=
    AuthError("auth/invalid-username", "Username must be 3-20 characters (letters, numbers, underscores only).")

  /** 'auth/invalid-username' has no entry, so that error reads as the generic fallback, not as its own message. */
  lemma InvalidUsernameFallsBack()
    ensures ErrorMessage(InvalidUsernameError) == FallbackText
    ensures ErrorMessage(InvalidUsernameError) != InvalidUsernameError.message
  {
  }

  /** With a code present the message is never consulted; without one the message is the key. */
  lemma ErrorKeyChoice(e: AuthError, otherMessage: string)
    ensures e.code != "" ==> ErrorMessage(e) == ErrorMessage(e.(message := otherMessage))
    ensures e.code == "" ==> ErrorMessage(e) == (if MessageFor(e.message).Some? then MessageFor(e.message).value else FallbackText)
  {
  }

  // ----- register and login over the two stores -----

  /** A `users` document: the name as typed, its lower-case key and the email. */
  datatype Profile = Profile(username: string, usernameLower: string, email: string)

  /** `usernames` maps a lower-cased name to a uid; `users` maps a uid to its profile. */
  datatype Stores = Stores(usernames: map<string, string>, users: map<string, Profile>)

  /** Every reserved name is lower-case and points at a profile that records it. */
  ghost predicate Consistent(st: Stores) {
    forall name | name in st.usernames ::
      && ToLower(name) == name
      && st.usernames[name] in st.users
      && st.users[st.usernames[name]].usernameLower == name
  }

  /** What the authentication service did: refused the account, or created it and the batch commit succeeded or failed. */
  datatype AccountOutcome = AccountRefused(code: string) | AccountCreated(uid: string, commitOk: bool)

  /**
   * `register(username, email, password)`: a bad format is refused before
   * any lookup; a name whose lower-case form is reserved is taken; then the
   * account outcome decides; on success the name is reserved and the
   * profile written together.
   */
  function RegisterOn(st: Stores, username: string, email: string, outcome: AccountOutcome): (Result<Profile, AuthError>, Stores) {
    var lower := ToLower(username);
    if !UsernameFormat(username) then (Err(InvalidUsernameError), st)
    else if lower in st.usernames then (Err(AuthError("USERNAME_TAKEN", "")), st)
    else match outcome
      case AccountRefused(code) => (Err(AuthError(code, "")), st)
      case AccountCreated(uid, commitOk) =>
        if !commitOk then (Err(AuthError("REGISTRATION_FAILED", "")), st)
        else
          var profile := Profile(username, lower, email);
          (Ok(profile), Stores(st.usernames[lower := uid], st.users[uid := profile]))
  }

  /**
   * Any failed registration leaves both stores as they were; a bad format
   * fails whatever the stores hold; a reserved name fails whatever the
   * account outcome; a success reserves exactly the lower-cased name and
   * writes exactly one profile.
   */
  lemma RegisterOutcomes(st: Stores, username: string, email: string, outcome: AccountOutcome)
    ensures var (r, st2) := RegisterOn(st, username, email, outcome);
      && (r.Err? ==> st2 == st)
      && (!UsernameFormat(username) ==> r == Err(InvalidUsernameError))
      && (UsernameFormat(username) && ToLower(username) in st.usernames ==> r == Err(AuthError("USERNAME_TAKEN", "")))
      && (r.Ok? ==>
            && outcome.AccountCreated? && outcome.commitOk
            && r.value == Profile(username, ToLower(username), email)
            && st2.usernames.Keys == st.usernames.Keys + {ToLower(username)}
            && ToLower(username) !in st.usernames
            && st2.usernames[ToLower(username)] == outcome.uid
            && st2.users == st.users[outcome.uid := r.value])
  {
  }

  /** Registration keeps the stores consistent when the new account's uid is fresh. */
  lemma RegisterKeepsConsistent(st: Stores, username: string, email: string, outcome: AccountOutcome)
    requires Consistent(st)
    requires outcome.AccountCreated? ==> outcome.uid !in st.users
    ensures Consistent(RegisterOn(st, username, email, outcome).1)
  {
    var (r, st2) := RegisterOn(st, username, email, outcome);
    if r.Ok? {
      var lower := ToLower(username);
      ToLowerIdempotent(username);
      forall name | name in st2.usernames
        ensures ToLower(name) == name && st2.usernames[name] in st2.users
                && st2.users[st2.usernames[name]].usernameLower == name
      {
        if name != lower {
          assert st.usernames[name] in st.users;
          assert st.usernames[name] != outcome.uid;
        }
      }
    }
  }

  /**
   * `login(username, password)` up to the sign-in call: the email stored
   * for the lower-cased name, or INVALID_CREDENTIALS for a name nobody
   * reserved.  Reading the profile of a reserved name assumes it exists,
   * as the source does.
   */
  function LoginOn(st: Stores, username: string): Result<string, AuthError>
    requires Consistent(st)
  {
    var lower := ToLower(username);
    if lower !in st.usernames then Err(AuthError("INVALID_CREDENTIALS", ""))
    else Ok(st.users[st.usernames[lower]].email)
  }

  /** Login ignores case: a name and its lower-cased form log in alike. */
  lemma LoginIgnoresCase(st: Stores, username: string)
    requires Consistent(st)
    ensures LoginOn(st, ToLower(username)) == LoginOn(st, username)
  {
    ToLowerIdempotent(username);
  }

  /**
   * After a successful registration with a fresh uid, the name in any case
   * logs in with the registered email, and registering the same name in
   * any case again is refused as taken.
   */
  lemma RegisterThenLogin(st: Stores, username: string, email: string, outcome: AccountOutcome,
                          again: string, email2: string, outcome2: AccountOutcome)
    requires Consistent(st)
    requires outcome.AccountCreated? ==> outcome.uid !in st.users
    requires RegisterOn(st, username, email, outcome).0.Ok?
    requires ToLower(again) == ToLower(username)
    ensures var st2 := RegisterOn(st, username, email, outcome).1;
      && Consistent(st2)
      && LoginOn(st2, again) == Ok(email)
      && RegisterOn(st2, again, email2, outcome2).0.Err?
  {
    RegisterKeepsConsistent(st, username, email, outcome);
  }

  /**
   * The provider's state: the two stores and `userProfile`, which a
   * successful registration sets at once and logout clears.
   */
  class AuthProvider {
    var stores: Stores
    var userProfile: Option<Profile>

    constructor(stores: Stores)
      ensures this.stores == stores && userProfile == None
    {
      this.stores := stores;
      userProfile := None;
    }

    method Register(username: string, email: string, outcome: AccountOutcome) returns (r: Result<Profile, AuthError>)
      modifies this
      ensures (r, stores) == RegisterOn(old(stores), username, email, outcome)
      ensures r.Ok? ==> userProfile == Some(r.value)
      ensures r.Err? ==> userProfile == old(userProfile)
    {
      var (res, st2) := RegisterOn(stores, username, email, outcome);
      r := res;
      stores := st2;
      if r.Ok? {
        userProfile := Some(r.value);
      }
    }

    /** `logout()`: the profile is cleared; the stores are untouched. */
    method Logout()
      modifies this
      ensures userProfile == None && stores == old(stores)
    {
      userProfile := None;
    }
  }
}
