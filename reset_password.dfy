/**
 * The reset-password page (pages/ResetPassword.tsx): it checks the new
 * password against its confirmation and a minimum length before handing
 * the token and the password's stand-in hash to the application's reset
 * handler, then shows the handler's answer.
 */
module ResetPasswordPage {
  import opened Wrappers
  import App

  const MismatchMessage := "Passwords do not match."
  const TooShortMessage := "Password must be at least 6 characters long."
  const MinPasswordLength := 6

  /** The stand-in hash the page sends: the password prefixed with "hashed_". */
  function PasswordHash(password: string): (h: string)
    ensures |h| == |password| + 7
    ensures h[7..] == password
  {
    "hashed_" + password
  }

  /**
   * JavaScript's `length` of a string: its UTF-16 code units, two for a
   * character above U+FFFF (a surrogate pair) and one for any other.
   */
  function Utf16Length(s: string): (n: nat)
    ensures |s| <= n <= 2 * |s|
  {
    if s == [] then 0 else (if s[0] as int > 0xFFFF then 2 else 1) + Utf16Length(s[1..])
  }

  /** On text without characters above U+FFFF the two lengths agree. */
  lemma {:induction false} Utf16LengthOfBasicText(s: string)
    requires forall i :: 0 <= i < |s| ==> s[i] as int <= 0xFFFF
    ensures Utf16Length(s) == |s|
  {
    if s != [] {
      Utf16LengthOfBasicText(s[1..]);
    }
  }

  /** Three emoji make a password six code units long, so the length check lets it through. */
  lemma ThreeEmojiAreLongEnough()
    ensures Validate("\U{1F600}\U{1F600}\U{1F600}", "\U{1F600}\U{1F600}\U{1F600}") == None
  {
    assert Utf16Length("\U{1F600}") == 2;
    assert Utf16Length("\U{1F600}\U{1F600}") == 4;
  }

  /** The form's check, mismatch first: the error it raises, if any. */
  function Validate(password: string, confirmPassword: string): (e: Option<string>)
    ensures password != confirmPassword <==> e == Some(MismatchMessage)
    ensures e == Some(TooShortMessage) <==> password == confirmPassword && Utf16Length(password) < MinPasswordLength
    ensures e == None <==> password == confirmPassword && Utf16Length(password) >= MinPasswordLength
  {
    if password != confirmPassword then Some(MismatchMessage)
    else if Utf16Length(password) < MinPasswordLength then Some(TooShortMessage)
    else None
  }

  /** The hash stands for the password: different passwords send different hashes. */
  lemma PasswordHashInjective(a: string, b: string)
    requires PasswordHash(a) == PasswordHash(b)
    ensures a == b
  {
    assert a == PasswordHash(a)[7..];
  }

  class ResetPasswordForm {
    var token: string
    var password: string
    var confirmPassword: string
    var isLoading: bool
    var error: string
    var successMessage: string
    /** Whether the switch back to the login view has been scheduled (three seconds later). */
    var redirectScheduled: bool

    constructor ()
      ensures token == "" && password == "" && confirmPassword == ""
      ensures !isLoading && error == "" && successMessage == "" && !redirectScheduled
    {
      token, password, confirmPassword := "", "", "";
      isLoading := false;
      error, successMessage := "", "";
      redirectScheduled := false;
    }

    /** Filling in the three fields. */
    method Fill(newToken: string, newPassword: string, newConfirmation: string)
      modifies this
      ensures token == newToken && password == newPassword && confirmPassword == newConfirmation
      ensures isLoading == old(isLoading) && error == old(error) && successMessage == old(successMessage)
      ensures redirectScheduled == old(redirectScheduled)
    {
      token, password, confirmPassword := newToken, newPassword, newConfirmation;
    }

    /**
     * `handleSubmit`: a failed check sets its error and calls nothing;
     * otherwise the token and the hash go to the reset handler, whose
     * answer becomes the success message (and schedules the switch to
     * login) or the error.
     */
    method Submit(app: App.FinTrackApp, now: int) returns (result: Option<App.ResetResult>)
      modifies this, app
      ensures token == old(token) && password == old(password) && confirmPassword == old(confirmPassword)
      ensures isLoading == (result.None? && old(isLoading))
      ensures result.None? <==> Validate(old(password), old(confirmPassword)).Some?
      ensures result.None? ==> error == Validate(old(password), old(confirmPassword)).value
      ensures result.None? ==> unchanged(app) && successMessage == old(successMessage) && redirectScheduled == old(redirectScheduled)
      ensures result.Some? && result.value.success ==> successMessage == result.value.message && error == "" && redirectScheduled
      ensures result.Some? && !result.value.success ==>
        error == result.value.message && successMessage == "" && redirectScheduled == old(redirectScheduled)
      ensures result.Some? ==> app.resetToken.None?
      ensures result.Some? ==> (result.value.success <==>
        old(app.resetToken).Some? && old(app.resetToken).value.token == old(token) && now <= old(app.resetToken).value.expiry &&
        App.FindById(old(app.users), old(app.resetToken).value.userId) >= 0)
      ensures result.Some? && result.value.success ==>
        var i := App.FindById(old(app.users), old(app.resetToken).value.userId);
        0 <= i < |old(app.users)| && app.users == old(app.users)[i := old(app.users)[i].(passwordHash := PasswordHash(old(password)))]
    {
      var problem := Validate(password, confirmPassword);
      if problem.Some? {
        error := problem.value;
        return None;
      }
      error := "";
      successMessage := "";
      isLoading := true;
      var newHash := PasswordHash(password);
      var r := app.ResetPassword(token, newHash, now);
      isLoading := false;
      if r.success {
        successMessage := r.message;
        redirectScheduled := true;
      } else {
        error := r.message;
      }
      result := Some(r);
    }
  }
}
