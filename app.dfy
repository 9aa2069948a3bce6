/**
 * The application shell (App.tsx): the user directory, the session, the
 * pending password-reset token and the loaded financial record, with the
 * handlers and effects that move between them.
 *
 * Browser storage is held in fields: `users` and `userData` stand for the
 * `users` and `userData_<id>` keys of localStorage, `loggedInUserId`,
 * `isNewUser` and `resetToken` for the keys of sessionStorage. The clock
 * (`Date.now()`) and the fresh user id are parameters.
 */
module App {
  import opened Wrappers
  import opened Strings
  import opened Types
  import opened Store
  import Seqs
  import Demo

  /** The authentication screen shown while nobody is signed in. */
  datatype AuthView = LoginView | SignUpView | ForgotPasswordView | ResetPasswordView

  /** The `passwordResetToken` entry: the token, whom it is for and when it expires (milliseconds). */
  datatype ResetToken = ResetToken(token: string, userId: string, expiry: int)

  /** What the forgot-password handler reports back to its page. */
  datatype ForgotResult = ForgotResult(success: bool, message: string, token: Option<string>)

  /** What the reset-password handler reports back to its page. */
  datatype ResetResult = ResetResult(success: bool, message: string)

  const DuplicateEmailMessage := "An account with this email already exists."
  const InvalidCredentialsMessage := "Invalid email or password."
  const TokenGeneratedMessage := "A reset token has been generated."
  const UnknownEmailMessage := "If an account with that email exists, a reset link will be sent."
  const InvalidTokenMessage := "Invalid or expired reset token. Please request a new one."
  const TokenUserMissingMessage := "User associated with this token not found."
  const ResetDoneMessage := "Password has been successfully reset. You can now log in."

  /** A reset token lives for `15 * 60 * 1000` milliseconds. */
  const TokenLifetime: int := 15 * 60 * 1000

  /** Two addresses are the same account when they agree after `toLowerCase()`. */
  predicate SameEmail(a: string, b: string) {
    ToLower(a) == ToLower(b)
  }

  /** No two users of the directory share an address, ignoring case. */
  predicate EmailsUnique(users: seq<User>) {
    forall i, j :: 0 <= i < j < |users| ==> !SameEmail(users[i].email, users[j].email)
  }

  /** `users.find(u => u.email.toLowerCase() === email.toLowerCase())`, as an index or -1. */
  function FindByEmail(users: seq<User>, email: string): (r: int)
    ensures -1 <= r < |users|
    ensures r >= 0 ==> SameEmail(users[r].email, email) && forall j :: 0 <= j < r ==> !SameEmail(users[j].email, email)
    ensures r == -1 <==> forall j :: 0 <= j < |users| ==> !SameEmail(users[j].email, email)
  {
    Seqs.FirstIndex(users, (u: User) => SameEmail(u.email, email))
  }

  /** `users.findIndex(u => u.id === id)`. */
  function FindById(users: seq<User>, id: string): (r: int)
    ensures -1 <= r < |users|
    ensures r >= 0 ==> users[r].id == id && forall j :: 0 <= j < r ==> users[j].id != id
    ensures r == -1 <==> forall j :: 0 <= j < |users| ==> users[j].id != id
  {
    Seqs.FirstIndex(users, (u: User) => u.id == id)
  }

  /** A stored session pointer that JavaScript reads as true (not the empty string) and that names a user. */
  predicate SessionNamesUser(users: seq<User>, loggedInUserId: Option<string>) {
    loggedInUserId.Some? && loggedInUserId.value != "" && FindById(users, loggedInUserId.value) >= 0
  }

  /**
   * The user a login with `email` and `hash` signs in: the first user whose
   * address matches, provided the stored hash is identical.
   */
  function Authenticate(users: seq<User>, email: string, hash: string): (r: Option<User>)
    ensures r.Some? <==> FindByEmail(users, email) >= 0 && users[FindByEmail(users, email)].passwordHash == hash
    ensures r.Some? ==> r.value == users[FindByEmail(users, email)]
  {
    var i := FindByEmail(users, email);
    if i >= 0 && users[i].passwordHash == hash then Some(users[i]) else None
  }

  /** In a directory with unique addresses, login succeeds exactly for a stored address and its own hash. */
  lemma AuthenticateInUniqueDirectory(users: seq<User>, email: string, hash: string)
    requires EmailsUnique(users)
    ensures Authenticate(users, email, hash).Some? <==>
      exists i :: 0 <= i < |users| && SameEmail(users[i].email, email) && users[i].passwordHash == hash
  {
    var k := FindByEmail(users, email);
    if exists i :: 0 <= i < |users| && SameEmail(users[i].email, email) && users[i].passwordHash == hash {
      var i :| 0 <= i < |users| && SameEmail(users[i].email, email) && users[i].passwordHash == hash;
      assert k >= 0 && SameEmail(users[k].email, users[i].email);
    }
  }

  /** A user whose address is new keeps the directory's addresses unique. */
  lemma RegisterKeepsEmailsUnique(users: seq<User>, u: User)
    requires EmailsUnique(users)
    requires FindByEmail(users, u.email) == -1
    ensures EmailsUnique(users + [u])
  {
    var all := users + [u];
    forall i, j | 0 <= i < j < |all|
      ensures !SameEmail(all[i].email, all[j].email)
    {
      if j == |users| {
        assert !SameEmail(users[i].email, u.email);
      }
    }
  }

  /** A user signed up under a new address can then log in with that address and hash. */
  lemma SignUpThenLogin(users: seq<User>, u: User)
    requires FindByEmail(users, u.email) == -1
    ensures Authenticate(users + [u], u.email, u.passwordHash) == Some(u)
  {
    var all := users + [u];
    assert forall j :: 0 <= j < |users| ==> all[j] == users[j];
    assert SameEmail(all[|users|].email, u.email);
    var k := FindByEmail(all, u.email);
    assert k == |users|;
  }

  /** The token string `reset_<id>_<now>`. */
  function ResetTokenText(userId: string, now: nat): (r: string)
    ensures StartsWith(r, "reset_" + userId + "_")
  {
    "reset_" + userId + "_" + NatToString(now)
  }

  /** Tokens issued for one user at different times differ. */
  lemma ResetTokenTextInjective(userId: string, m: nat, n: nat)
    requires ResetTokenText(userId, m) == ResetTokenText(userId, n)
    ensures m == n
  {
    var prefix := "reset_" + userId + "_";
    var a := ResetTokenText(userId, m);
    assert a[|prefix|..] == NatToString(m);
    assert ResetTokenText(userId, n)[|prefix|..] == NatToString(n);
    NatToStringInjective(m, n);
  }

  /** Replacing one user's hash leaves every address, and hence their uniqueness, as it was. */
  lemma SetHashKeepsEmails(users: seq<User>, i: nat, hash: string)
    requires i < |users| && EmailsUnique(users)
    ensures EmailsUnique(users[i := users[i].(passwordHash := hash)])
  {
    var next := users[i := users[i].(passwordHash := hash)];
    assert forall k :: 0 <= k < |users| ==> next[k].email == users[k].email;
  }

  class FinTrackApp {
    // localStorage
    var users: seq<User>
    var userData: map<string, FinancialData>
    // sessionStorage
    var loggedInUserId: Option<string>
    var isNewUser: bool
    var resetToken: Option<ResetToken>
    // component state of App
    var currentUser: Option<User>
    var financialData: Option<FinancialData>
    var isDemoMode: bool
    var authError: Option<string>
    var currentPage: Page
    var authView: AuthView
    /** The fixture loaded in demo mode. */
    const demoData: FinancialData

    /**
     * The page is opened with whatever the browser has stored: the directory
     * and records in localStorage, the session keys in sessionStorage. The
     * demo fixture is built from the dates it is stamped with at load time.
     */
    constructor(storedUsers: seq<User>, storedData: map<string, FinancialData>,
                sessionUser: Option<string>, sessionNewUser: bool, sessionToken: Option<ResetToken>,
                pastDate: nat -> string, goaDeadline: string, macbookDeadline: string, fdMaturity: string)
      ensures users == storedUsers && userData == storedData
      ensures demoData == Demo.DemoData(pastDate, goaDeadline, macbookDeadline, fdMaturity)
      ensures loggedInUserId == sessionUser && isNewUser == sessionNewUser && resetToken == sessionToken
      ensures currentUser.None? && financialData.None? && !isDemoMode && authError.None?
      ensures currentPage == Dashboard && authView == SignUpView
    {
      users := storedUsers;
      userData := storedData;
      loggedInUserId := sessionUser;
      isNewUser := sessionNewUser;
      resetToken := sessionToken;
      currentUser := None;
      financialData := None;
      isDemoMode := false;
      authError := None;
      currentPage := Dashboard;
      authView := SignUpView;
      demoData := Demo.DemoData(pastDate, goaDeadline, macbookDeadline, fdMaturity);
    }

    /**
     * `handleSignUp`: an address already in the directory (ignoring case) is
     * refused with an error and nothing else changes; otherwise the user is
     * appended, gets an empty record, and becomes the signed-in new user.
     */
    method SignUp(name: string, email: string, passwordHash: string, freshId: string)
      modifies this
      ensures FindByEmail(old(users), email) >= 0 ==>
        authError == Some(DuplicateEmailMessage) && users == old(users) && userData == old(userData) &&
        currentUser == old(currentUser) && loggedInUserId == old(loggedInUserId) && isNewUser == old(isNewUser)
      ensures FindByEmail(old(users), email) == -1 ==>
        authError.None? &&
        users == old(users) + [User(freshId, name, email, passwordHash)] &&
        userData == old(userData)[freshId := InitialUserData()] &&
        currentUser == Some(User(freshId, name, email, passwordHash)) &&
        loggedInUserId == Some(freshId) && isNewUser
      ensures EmailsUnique(old(users)) ==> EmailsUnique(users)
      ensures resetToken == old(resetToken) && financialData == old(financialData) && isDemoMode == old(isDemoMode)
      ensures currentPage == old(currentPage) && authView == old(authView)
    {
      authError := None;
      if FindByEmail(users, email) >= 0 {
        authError := Some(DuplicateEmailMessage);
        return;
      }
      var newUser := User(freshId, name, email, passwordHash);
      if EmailsUnique(users) {
        RegisterKeepsEmailsUnique(users, newUser);
      }
      users, userData := users + [newUser], userData[freshId := InitialUserData()];
      currentUser, loggedInUserId, isNewUser := Some(newUser), Some(freshId), true;
    }

    /**
     * `handleLogin`: signs in the first user with that address if the hash
     * is identical; otherwise sets the error and leaves the session alone.
     */
    method Login(email: string, passwordHash: string)
      modifies this
      ensures var r := Authenticate(users, email, passwordHash);
        (r.Some? ==> authError.None? && currentUser == r && loggedInUserId == Some(r.value.id)) &&
        (r.None? ==> authError == Some(InvalidCredentialsMessage) &&
                     currentUser == old(currentUser) && loggedInUserId == old(loggedInUserId))
      ensures users == old(users) && userData == old(userData) && isNewUser == old(isNewUser)
      ensures resetToken == old(resetToken) && financialData == old(financialData) && isDemoMode == old(isDemoMode)
      ensures currentPage == old(currentPage) && authView == old(authView)
    {
      authError := None;
      var r := Authenticate(users, email, passwordHash);
      if r.None? {
        authError := Some(InvalidCredentialsMessage);
        return;
      }
      currentUser := r;
      loggedInUserId := Some(r.value.id);
    }

    /**
     * `handleLogout`: no user, no demo, the three session keys removed, back
     * to the dashboard page and the sign-up screen. Stored data stays.
     */
    method Logout()
      modifies this
      ensures currentUser.None? && !isDemoMode
      ensures loggedInUserId.None? && !isNewUser && resetToken.None?
      ensures currentPage == Dashboard && authView == SignUpView
      ensures users == old(users) && userData == old(userData)
      ensures financialData == old(financialData) && authError == old(authError)
    {
      currentUser := None;
      isDemoMode := false;
      loggedInUserId := None;
      isNewUser := false;
      resetToken := None;
      currentPage := Dashboard;
      authView := SignUpView;
    }

    /**
     * `handleForgotPasswordRequest`, which reads the clock twice: `now` for
     * the token text and `later` for the expiry. For a known address a token
     * `reset_<id>_<now>` valid until `later + 900000` replaces any pending
     * one and is returned; for an unknown address nothing is stored.
     */
    method ForgotPasswordRequest(email: string, now: nat, later: nat) returns (r: ForgotResult)
      modifies this
      ensures var i := FindByEmail(users, email);
        (i >= 0 ==>
          var tok := ResetTokenText(users[i].id, now);
          r == ForgotResult(true, TokenGeneratedMessage, Some(tok)) &&
          resetToken == Some(ResetToken(tok, users[i].id, later + TokenLifetime))) &&
        (i == -1 ==> r == ForgotResult(false, UnknownEmailMessage, None) && resetToken == old(resetToken))
      ensures users == old(users) && userData == old(userData) && isNewUser == old(isNewUser)
      ensures loggedInUserId == old(loggedInUserId) && currentUser == old(currentUser)
      ensures financialData == old(financialData) && isDemoMode == old(isDemoMode) && authError == old(authError)
      ensures currentPage == old(currentPage) && authView == old(authView)
    {
      var i := FindByEmail(users, email);
      if i >= 0 {
        var user := users[i];
        var tok := ResetTokenText(user.id, now);
        resetToken := Some(ResetToken(tok, user.id, later + TokenLifetime));
        return ForgotResult(true, TokenGeneratedMessage, Some(tok));
      }
      return ForgotResult(false, UnknownEmailMessage, None);
    }

    /**
     * `handleResetPassword` at time `now`. It succeeds only when a token is
     * pending, equals `token`, has not expired and names an existing user;
     * then only that user's hash changes. Whenever a token was pending, none
     * is pending afterwards.
     */
    method ResetPassword(token: string, newHash: string, now: int) returns (r: ResetResult)
      modifies this
      ensures old(resetToken).None? ==> r == ResetResult(false, InvalidTokenMessage) && resetToken.None? && users == old(users)
      ensures old(resetToken).Some? ==> resetToken.None?
      ensures old(resetToken).Some? && (old(resetToken).value.token != token || now > old(resetToken).value.expiry) ==>
        r == ResetResult(false, InvalidTokenMessage) && users == old(users)
      ensures old(resetToken).Some? && old(resetToken).value.token == token && now <= old(resetToken).value.expiry ==>
        var i := FindById(old(users), old(resetToken).value.userId);
        (i == -1 ==> r == ResetResult(false, TokenUserMissingMessage) && users == old(users)) &&
        (i >= 0 ==> r == ResetResult(true, ResetDoneMessage) &&
                    users == old(users)[i := old(users)[i].(passwordHash := newHash)])
      ensures EmailsUnique(old(users)) ==> EmailsUnique(users)
      ensures userData == old(userData) && isNewUser == old(isNewUser) && loggedInUserId == old(loggedInUserId)
      ensures currentUser == old(currentUser) && financialData == old(financialData) && isDemoMode == old(isDemoMode)
      ensures authError == old(authError) && currentPage == old(currentPage) && authView == old(authView)
    {
      if resetToken.None? {
        return ResetResult(false, InvalidTokenMessage);
      }
      var data := resetToken.value;
      if data.token != token || now > data.expiry {
        resetToken := None;
        return ResetResult(false, InvalidTokenMessage);
      }
      var i := FindById(users, data.userId);
      if i == -1 {
        resetToken := None;
        return ResetResult(false, TokenUserMissingMessage);
      }
      if EmailsUnique(users) {
        SetHashKeepsEmails(users, i, newHash);
      }
      users := users[i := users[i].(passwordHash := newHash)];
      resetToken := None;
      return ResetResult(true, ResetDoneMessage);
    }

    /**
     * The mount effect restoring a session: a stored pointer that is not
     * the empty string signs in the user it names, if that user is in the
     * directory.
     */
    method RestoreSession()
      modifies this
      ensures SessionNamesUser(users, loggedInUserId) ==> currentUser == Some(users[FindById(users, loggedInUserId.value)])
      ensures !SessionNamesUser(users, loggedInUserId) ==> currentUser == old(currentUser)
      ensures currentUser.Some? && currentUser != old(currentUser) ==> currentUser.value in users
      ensures users == old(users) && userData == old(userData) && loggedInUserId == old(loggedInUserId)
      ensures isNewUser == old(isNewUser) && resetToken == old(resetToken)
      ensures financialData == old(financialData) && isDemoMode == old(isDemoMode) && authError == old(authError)
      ensures currentPage == old(currentPage) && authView == old(authView)
    {
      if loggedInUserId.Some? && loggedInUserId.value != "" {
        var i := FindById(users, loggedInUserId.value);
        if i >= 0 {
          currentUser := Some(users[i]);
        }
      }
    }

    /**
     * The effect run when the user or the demo flag changes: demo mode loads
     * the fixture and the demo user; a signed-in user gets the stored record,
     * or a freshly stored empty one; otherwise no record is loaded.
     */
    method LoadUserData()
      modifies this
      ensures isDemoMode ==> financialData == Some(demoData) && currentUser == Some(Demo.DemoUser) && userData == old(userData)
      ensures !isDemoMode && old(currentUser).Some? ==>
        var id := old(currentUser).value.id;
        currentUser == old(currentUser) &&
        (id in old(userData) ==> financialData == Some(old(userData)[id]) && userData == old(userData)) &&
        (id !in old(userData) ==> financialData == Some(InitialUserData()) && userData == old(userData)[id := InitialUserData()])
      ensures !isDemoMode && old(currentUser).None? ==> financialData.None? && currentUser.None? && userData == old(userData)
      ensures isDemoMode == old(isDemoMode) && users == old(users)
      ensures loggedInUserId == old(loggedInUserId) && isNewUser == old(isNewUser) && resetToken == old(resetToken)
      ensures authError == old(authError) && currentPage == old(currentPage) && authView == old(authView)
    {
      if isDemoMode {
        financialData := Some(demoData);
        currentUser := Some(Demo.DemoUser);
        return;
      }
      if currentUser.Some? {
        var id := currentUser.value.id;
        if id in userData {
          financialData := Some(userData[id]);
        } else {
          financialData := Some(InitialUserData());
          userData := userData[id := InitialUserData()];
        }
      } else {
        financialData := None;
      }
    }

    /** The effect writing the loaded record back under the user's key, never in demo mode. */
    method PersistData()
      modifies this
      ensures currentUser.Some? && financialData.Some? && !isDemoMode ==>
        userData == old(userData)[currentUser.value.id := financialData.value]
      ensures !(currentUser.Some? && financialData.Some? && !isDemoMode) ==> userData == old(userData)
      ensures users == old(users) && currentUser == old(currentUser) && financialData == old(financialData)
      ensures isDemoMode == old(isDemoMode) && loggedInUserId == old(loggedInUserId) && isNewUser == old(isNewUser)
      ensures resetToken == old(resetToken) && authError == old(authError)
      ensures currentPage == old(currentPage) && authView == old(authView)
    {
      if currentUser.Some? && financialData.Some? && !isDemoMode {
        userData := userData[currentUser.value.id := financialData.value];
      }
    }

    /**
     * `updateFinancialData(updater)` followed by the persisting effect: in
     * demo mode, or with no record loaded, nothing changes at all; otherwise
     * the record becomes `Apply(u, record)` and is stored for the user.
     */
    method Mutate(u: Updater)
      modifies this
      ensures isDemoMode || old(financialData).None? ==> financialData == old(financialData) && userData == old(userData)
      ensures !isDemoMode && old(financialData).Some? ==> financialData == Some(Apply(u, old(financialData).value))
      ensures !isDemoMode && old(financialData).Some? && currentUser.Some? ==>
        userData == old(userData)[currentUser.value.id := Apply(u, old(financialData).value)]
      ensures !isDemoMode && old(financialData).Some? && currentUser.None? ==> userData == old(userData)
      ensures users == old(users) && currentUser == old(currentUser) && isDemoMode == old(isDemoMode)
      ensures loggedInUserId == old(loggedInUserId) && isNewUser == old(isNewUser) && resetToken == old(resetToken)
      ensures authError == old(authError) && currentPage == old(currentPage) && authView == old(authView)
    {
      if isDemoMode {
        return;
      }
      if financialData.Some? {
        financialData := Some(Apply(u, financialData.value));
        PersistData();
      }
    }

    /** The "Explore demo" button of the sign-up screen. */
    method ExploreDemo()
      modifies this
      ensures isDemoMode
      ensures users == old(users) && userData == old(userData) && currentUser == old(currentUser)
      ensures financialData == old(financialData) && loggedInUserId == old(loggedInUserId)
      ensures isNewUser == old(isNewUser) && resetToken == old(resetToken)
      ensures authError == old(authError) && currentPage == old(currentPage) && authView == old(authView)
    {
      isDemoMode := true;
    }

    /** Sidebar navigation. */
    method NavigateTo(page: Page)
      modifies this
      ensures currentPage == page
      ensures users == old(users) && userData == old(userData) && currentUser == old(currentUser)
      ensures financialData == old(financialData) && isDemoMode == old(isDemoMode) && loggedInUserId == old(loggedInUserId)
      ensures isNewUser == old(isNewUser) && resetToken == old(resetToken)
      ensures authError == old(authError) && authView == old(authView)
    {
      currentPage := page;
    }

    /**
     * The dashboard's mount effect: it shows the welcome modal when the
     * `isNewUser` key is set, and removes the key, so the modal shows once.
     */
    method ReadWelcomeFlag() returns (showWelcome: bool)
      modifies this
      ensures showWelcome == old(isNewUser) && !isNewUser
      ensures users == old(users) && userData == old(userData) && currentUser == old(currentUser)
      ensures financialData == old(financialData) && isDemoMode == old(isDemoMode) && loggedInUserId == old(loggedInUserId)
      ensures resetToken == old(resetToken) && authError == old(authError)
      ensures currentPage == old(currentPage) && authView == old(authView)
    {
      showWelcome := isNewUser;
      isNewUser := false;
    }
  }
}
