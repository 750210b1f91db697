/**
 * src/components/AuthModal.jsx: the checks the register and forgot-password
 * forms make before calling the authentication hook, and where an error the
 * hook throws is shown.  The form's errors are one text per field, "" when
 * the field has none.
 */
module AuthForm {
  import opened Wrappers
  import opened Text
  import Auth

  datatype FormErrors = FormErrors(username: string, email: string, password: string,
                                   confirmPassword: string, general: string)

  /** `INITIAL_ERRORS`. */
  const NoErrors := FormErrors("", "", "", "", "")

  const UsernameText := "Username must be 3\U{2013}20 characters (letters, numbers, underscores only)."
  const EmailText := "Please enter a valid email address."
  const PasswordText := "Password must be at least 6 characters."
  const ConfirmText := "Passwords do not match."

  // ----- The email pattern -----

  /** No whitespace and no '@' in `s[lo..hi]`: the class `[^\s@]`. */
  predicate Plain(s: string, lo: int, hi: int)
    requires 0 <= lo <= hi <= |s|
  {
    forall k | lo <= k < hi :: !IsSpace(s[k]) && s[k] != '@'
  }

  /**
   * `/^[^\s@]+@[^\s@]+\.[^\s@]+$/`: three non-empty runs without whitespace
   * or '@', the first two joined by '@' and the last two by '.'.
   */
  predicate EmailPattern(s: string) {
    exists i, j | 0 < i < |s| && i + 1 < j < |s| - 1 ::
      && s[i] == '@' && s[j] == '.'
      && Plain(s, 0, i) && Plain(s, i + 1, j) && Plain(s, j + 1, |s|)
  }

  /**
   * The same language described by its shape: no whitespace, exactly one
   * '@', not first, and a '.' in the domain after it that is neither the
   * domain's first nor its last character.
   */
  ghost predicate EmailShape(s: string) {
    && (forall k | 0 <= k < |s| :: !IsSpace(s[k]))
    && exists i | 0 < i < |s| ::
         && s[i] == '@'
         && (forall k | 0 <= k < |s| && k != i :: s[k] != '@')
         && (exists j | i + 1 < j < |s| - 1 :: s[j] == '.')
  }

  lemma PlainChar(s: string, lo: int, hi: int, k: int)
    requires 0 <= lo <= k < hi <= |s| && Plain(s, lo, hi)
    ensures !IsSpace(s[k]) && s[k] != '@'
  {
  }

  lemma EmailPatternHasShape(s: string)
    requires EmailPattern(s)
    ensures EmailShape(s)
  {
    var i, j :| 0 < i < |s| && i + 1 < j < |s| - 1 && s[i] == '@' && s[j] == '.'
                && Plain(s, 0, i) && Plain(s, i + 1, j) && Plain(s, j + 1, |s|);
    forall k | 0 <= k < |s| && k != i
      ensures !IsSpace(s[k]) && s[k] != '@'
    {
      if k == j {
      } else if k < i {
        PlainChar(s, 0, i, k);
      } else if k < j {
        PlainChar(s, i + 1, j, k);
      } else {
        PlainChar(s, j + 1, |s|, k);
      }
    }
    assert !IsSpace(s[i]);
    assert forall k | 0 <= k < |s| :: !IsSpace(s[k]);
    assert forall k | 0 <= k < |s| && k != i :: s[k] != '@';
    assert i + 1 < j < |s| - 1 && s[j] == '.';
  }

  lemma ShapeIsEmailPattern(s: string)
    requires EmailShape(s)
    ensures EmailPattern(s)
  {
    var i :| 0 < i < |s| && s[i] == '@' && (forall k | 0 <= k < |s| && k != i :: s[k] != '@')
             && (exists j | i + 1 < j < |s| - 1 :: s[j] == '.');
    var j :| i + 1 < j < |s| - 1 && s[j] == '.';
    assert Plain(s, 0, i) && Plain(s, i + 1, j) && Plain(s, j + 1, |s|);
  }

  /** The pattern and the shape accept the same addresses. */
  lemma EmailPatternIffShape(s: string)
    ensures EmailPattern(s) <==> EmailShape(s)
  {
    if EmailPattern(s) {
      EmailPatternHasShape(s);
    }
    if EmailShape(s) {
      ShapeIsEmailPattern(s);
    }
  }

  /** `email && pattern.test(email)`. */
  predicate EmailOk(email: string) {
    email != [] && EmailPattern(email)
  }

  /** `password && password.length >= 6`, the length in UTF-16 code units. */
  predicate PasswordOk(password: string) {
    Utf16Length(password) >= 6
  }

  /**
   * The length check counts code units, not characters: three emoji pass it,
   * a password of characters within U+FFFF passes iff it has six of them, and
   * any password passes with six characters and fails with fewer than three.
   */
  lemma PasswordLength(password: string)
    ensures PasswordOk("\U{1F600}\U{1F600}\U{1F600}")
    ensures (forall i | 0 <= i < |password| :: InBmp(password[i])) ==> (PasswordOk(password) <==> |password| >= 6)
    ensures |password| >= 6 ==> PasswordOk(password)
    ensures PasswordOk(password) ==> |password| >= 3
  {
    var e := "\U{1F600}\U{1F600}\U{1F600}";
    assert !InBmp(e[0]);
    assert e[1..] == "\U{1F600}\U{1F600}" && e[1..][1..] == "\U{1F600}";
  }

  // ----- handleRegister -----

  /** The four checks of the register form, each filling its own field when it fails. */
  function RegistrationErrors(username: string, email: string, password: string, confirmPassword: string): FormErrors {
    FormErrors(if Auth.UsernameFormat(username) then "" else UsernameText,
               if EmailOk(email) then "" else EmailText,
               if PasswordOk(password) then "" else PasswordText,
               if password == confirmPassword then "" else ConfirmText,
               "")
  }

  /**
   * The checks are independent: each field's error depends only on its own
   * inputs, so changing the others never changes it; the general field is
   * never set by them; and the form is clean exactly when all four pass.
   */
  lemma RegistrationChecksIndependent(u: string, e: string, p: string, c: string,
                                      u2: string, e2: string, p2: string, c2: string)
    ensures RegistrationErrors(u, e, p, c).username == RegistrationErrors(u, e2, p2, c2).username
    ensures RegistrationErrors(u, e, p, c).email == RegistrationErrors(u2, e, p2, c2).email
    ensures RegistrationErrors(u, e, p, c).password == RegistrationErrors(u2, e2, p, c2).password
    ensures RegistrationErrors(u, e, p, c).confirmPassword == RegistrationErrors(u2, e2, p, c).confirmPassword
    ensures RegistrationErrors(u, e, p, c).general == ""
    ensures RegistrationErrors(u, e, p, c) == NoErrors <==>
      Auth.UsernameFormat(u) && EmailOk(e) && PasswordOk(p) && p == c
  {
  }

  /**
   * The validation of `handleRegister`, as the source runs it: a fresh
   * error record and a flag, each failed check writing its field and
   * raising the flag.
   */
  method ValidateRegistration(username: string, email: string, password: string, confirmPassword: string)
    returns (newErrors: FormErrors, hasError: bool)
    ensures newErrors == RegistrationErrors(username, email, password, confirmPassword)
    ensures hasError <==> newErrors != NoErrors
  {
    newErrors := NoErrors;
    hasError := false;
    if !Auth.UsernameFormat(username) {
      newErrors := newErrors.(username := UsernameText);
      hasError := true;
    }
    if email == [] || !EmailPattern(email) {
      newErrors := newErrors.(email := EmailText);
      hasError := true;
    }
    if password == [] || Utf16Length(password) < 6 {
      newErrors := newErrors.(password := PasswordText);
      hasError := true;
    }
    if password != confirmPassword {
      newErrors := newErrors.(confirmPassword := ConfirmText);
      hasError := true;
    }
  }

  /** The form fields an error can be shown under. */
  datatype Field = UsernameField | EmailField | PasswordField | GeneralField

  /** Where an error thrown by `register` is shown, by its code. */
  function ErrorField(code: string): Field {
    if code == "USERNAME_TAKEN" || code == "auth/invalid-username" then UsernameField
    else if code == "auth/email-already-in-use" || code == "auth/invalid-email" then EmailField
    else if code == "auth/weak-password" then PasswordField
    else GeneralField
  }

  /** `setError(field, message)`. */
  function SetError(errors: FormErrors, field: Field, message: string): FormErrors {
    match field
    case UsernameField => errors.(username := message)
    case EmailField => errors.(email := message)
    case PasswordField => errors.(password := message)
    case GeneralField => errors.(general := message)
  }

  /** The modal's state that submitting changes. */
  datatype Modal = Modal(errors: FormErrors, isSubmitting: bool, showSuccess: string)

  /**
   * `handleRegister`: with a failed check the errors are shown and nothing
   * is sent; otherwise the errors are cleared and `register` is called,
   * whose failure (`thrown`) is shown under its field.
   */
  function HandleRegister(m: Modal, username: string, email: string, password: string, confirmPassword: string,
                          thrown: Option<Auth.AuthError>): Modal
  {
    var errors := RegistrationErrors(username, email, password, confirmPassword);
    if errors != NoErrors then m.(errors := errors)
    else match thrown
      case None => Modal(NoErrors, true, "Account created!")
      case Some(e) => Modal(SetError(NoErrors, ErrorField(e.code), Auth.ErrorMessage(e)), false, m.showSuccess)
  }

  /**
   * A form failing a check reaches no server call and shows exactly the
   * failed checks; an error from the server is shown in exactly one field,
   * the one its code routes to, with the looked-up message.
   */
  lemma HandleRegisterOutcome(m: Modal, username: string, email: string, password: string, confirmPassword: string,
                              thrown: Option<Auth.AuthError>)
    ensures var r := HandleRegister(m, username, email, password, confirmPassword, thrown);
      var checks := RegistrationErrors(username, email, password, confirmPassword);
      && (checks != NoErrors ==> r == m.(errors := checks))
      && (checks == NoErrors && thrown.None? ==> r.errors == NoErrors && r.showSuccess != "")
      && (checks == NoErrors && thrown.Some? ==>
            var f := ErrorField(thrown.value.code);
            && !r.isSubmitting
            && r.errors.username == (if f == UsernameField then Auth.ErrorMessage(thrown.value) else "")
            && r.errors.email == (if f == EmailField then Auth.ErrorMessage(thrown.value) else "")
            && r.errors.password == (if f == PasswordField then Auth.ErrorMessage(thrown.value) else "")
            && r.errors.general == (if f == GeneralField then Auth.ErrorMessage(thrown.value) else "")
            && r.errors.confirmPassword == "")
  {
    if thrown.Some? {
      var msg := Auth.ErrorMessage(thrown.value);
      assert msg != "";
    }
  }

  /** Username errors go to the username field, email errors to the email field, the weak password to the password field, and all else to general. */
  lemma ErrorRouting(code: string)
    ensures ErrorField(code) == UsernameField <==> code in {"USERNAME_TAKEN", "auth/invalid-username"}
    ensures ErrorField(code) == EmailField <==> code in {"auth/email-already-in-use", "auth/invalid-email"}
    ensures ErrorField(code) == PasswordField <==> code == "auth/weak-password"
  {
  }

  // ----- handleForgot -----

  /**
   * `handleForgot`: a bad address sets the email error and sends nothing,
   * keeping the other errors; otherwise the errors are cleared and the
   * reset is requested, its failure shown under email.
   */
  function HandleForgot(m: Modal, email: string, thrown: Option<Auth.AuthError>): (r: Modal)
    ensures !EmailOk(email) ==> r == m.(errors := m.errors.(email := EmailText))
    ensures EmailOk(email) ==> r.errors.username == "" && r.errors.password == "" && r.errors.general == "" && !r.isSubmitting
    ensures EmailOk(email) && thrown.Some? ==> r.errors.email == Auth.ErrorMessage(thrown.value) && r.errors.email != ""
    ensures EmailOk(email) && thrown.None? ==> r.errors == NoErrors && r.showSuccess != ""
  {
    if !EmailOk(email) then m.(errors := m.errors.(email := EmailText))
    else match thrown
      case None => Modal(NoErrors, false, "Check your email for a reset link")
      case Some(e) => Modal(NoErrors.(email := Auth.ErrorMessage(e)), false, m.showSuccess)
  }
}
