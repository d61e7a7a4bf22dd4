/** The settings screen: the system settings form and its validation rules,
    the change-password form and its password policy, the per-field password
    visibility switches, and the snackbar. Saving calls no server in this
    screen; the form library runs a submit handler only on values that pass
    the form's schema, and `Submit...` below models that gate. */
module Settings {
  import opened Wrappers

  // ----- the password policy -----

  predicate IsLower(c: char) { 'a' <= c <= 'z' }
  predicate IsUpper(c: char) { 'A' <= c <= 'Z' }
  predicate IsDigit(c: char) { '0' <= c <= '9' }
  predicate IsSpecial(c: char)
  {
    c == '@' || c == '$' || c == '!' || c == '%' || c == '*' || c == '?' || c == '&'
  }

  /** The characters `.` does not match in a JavaScript regular expression. */
  predicate IsLineTerminator(c: char)
  {
    c == '\n' || c == '\r' || c == '\U{2028}' || c == '\U{2029}'
  }

  /** `[A-Za-z\d@$!%*?&]`. */
  predicate AllowedChar(c: char)
  {
    IsLower(c) || IsUpper(c) || IsDigit(c) || IsSpecial(c)
  }

  datatype CharClass = Lower | Upper | Digit | Special

  predicate InClass(k: CharClass, c: char)
  {
    match k
    case Lower => IsLower(c)
    case Upper => IsUpper(c)
    case Digit => IsDigit(c)
    case Special => IsSpecial(c)
  }

  /** The lookahead `(?=.*[k])` tried at the start of `t`: `.*` walks over
      characters other than line terminators until one of class `k` follows. */
  predicate LookaheadFinds(k: CharClass, t: string)
  {
    if t == [] then false
    else if InClass(k, t[0]) then true
    else if IsLineTerminator(t[0]) then false
    else LookaheadFinds(k, t[1..])
  }

  /** A character of class `k` occurs in `t` with no line terminator before it. */
  predicate OccursInFirstLine(k: CharClass, t: string)
  {
    exists i :: 0 <= i < |t| && InClass(k, t[i]) && NoLineTerminatorBefore(t, i)
  }

  predicate NoLineTerminatorBefore(t: string, i: nat)
    requires i <= |t|
  {
    forall j :: 0 <= j < i ==> !IsLineTerminator(t[j])
  }

  /** The lookahead succeeds exactly when a character of the class occurs
      before the first line break. */
  lemma {:induction false} LookaheadFindsIff(k: CharClass, t: string)
    ensures LookaheadFinds(k, t) <==> OccursInFirstLine(k, t)
  {
    if t != [] {
      var u := t[1..];
      LookaheadFindsIff(k, u);
      if InClass(k, t[0]) {
        assert NoLineTerminatorBefore(t, 0);
      } else if IsLineTerminator(t[0]) {
        forall i | 0 <= i < |t| && InClass(k, t[i]) ensures !NoLineTerminatorBefore(t, i) {
          assert 0 < i;
        }
      } else {
        if LookaheadFinds(k, u) {
          var i :| 0 <= i < |u| && InClass(k, u[i]) && NoLineTerminatorBefore(u, i);
          assert InClass(k, t[i + 1]);
          forall j | 0 <= j < i + 1 ensures !IsLineTerminator(t[j]) {
            if j > 0 { assert t[j] == u[j - 1]; }
          }
          assert NoLineTerminatorBefore(t, i + 1);
        }
        if OccursInFirstLine(k, t) {
          var i :| 0 <= i < |t| && InClass(k, t[i]) && NoLineTerminatorBefore(t, i);
          assert i > 0 && u[i - 1] == t[i];
          forall j | 0 <= j < i - 1 ensures !IsLineTerminator(u[j]) {
            assert u[j] == t[j + 1];
          }
          assert NoLineTerminatorBefore(u, i - 1);
        }
      }
    }
  }

  /** `/^(?=.*[a-z])(?=.*[A-Z])(?=.*\d)(?=.*[@$!%*?&])[A-Za-z\d@$!%*?&]/`: four
      lookaheads from the start, then one allowed character. There is no `$`,
      so nothing after the first character is constrained. */
  predicate MatchesPattern(s: string)
    ensures MatchesPattern(s) <==>
      s != [] && AllowedChar(s[0]) && forall k: CharClass :: OccursInFirstLine(k, s)
  {
    LookaheadFindsIff(Lower, s);
    LookaheadFindsIff(Upper, s);
    LookaheadFindsIff(Digit, s);
    LookaheadFindsIff(Special, s);
    EveryClass(s);
    && LookaheadFinds(Lower, s) && LookaheadFinds(Upper, s)
    && LookaheadFinds(Digit, s) && LookaheadFinds(Special, s)
    && s != [] && AllowedChar(s[0])
  }

  /** All four classes occur in the first line when each of them does. */
  lemma EveryClass(s: string)
    ensures (forall k: CharClass :: OccursInFirstLine(k, s)) <==>
      && OccursInFirstLine(Lower, s) && OccursInFirstLine(Upper, s)
      && OccursInFirstLine(Digit, s) && OccursInFirstLine(Special, s)
  {
    if && OccursInFirstLine(Lower, s) && OccursInFirstLine(Upper, s)
       && OccursInFirstLine(Digit, s) && OccursInFirstLine(Special, s)
    {
      forall k: CharClass ensures OccursInFirstLine(k, s) {
        match k
        case Lower =>
        case Upper =>
        case Digit =>
        case Special =>
      }
    }
  }

  /** `newPassword`: required, at least 8 characters, and matching the pattern.
      In words: at least 8 characters; a lower-case letter, an upper-case
      letter, a digit and one of `@$!%*?&` each before the first line break;
      and an allowed first character. */
  predicate NewPasswordValid(s: string)
    ensures NewPasswordValid(s) <==>
      |s| >= 8 && AllowedChar(s[0]) && forall k: CharClass :: OccursInFirstLine(k, s)
  {
    s != "" && |s| >= 8 && MatchesPattern(s)
  }

  lemma ShortPasswordRejected(s: string)
    requires |s| < 8
    ensures !NewPasswordValid(s)
  {
  }

  /** Without an end anchor, anything may follow a valid password. */
  lemma {:induction false} PatternIgnoresSuffix(s: string, rest: string)
    requires MatchesPattern(s)
    ensures MatchesPattern(s + rest)
  {
    forall k: CharClass | LookaheadFinds(k, s) ensures LookaheadFinds(k, s + rest) {
      LookaheadPrefix(k, s, rest);
    }
    assert (s + rest)[0] == s[0];
  }

  lemma {:induction false} LookaheadPrefix(k: CharClass, s: string, rest: string)
    requires LookaheadFinds(k, s)
    ensures LookaheadFinds(k, s + rest)
  {
    assert (s + rest)[0] == s[0];
    if !InClass(k, s[0]) {
      assert (s + rest)[1..] == s[1..] + rest;
      LookaheadPrefix(k, s[1..], rest);
    }
  }

  /** Spaces and other characters outside the class are accepted after the
      first character. */
  lemma SpacesAccepted()
    ensures NewPasswordValid("Aa1@ b c")
  {
    var s := "Aa1@ b c";
    LookaheadFindsIff(Lower, s);
    LookaheadFindsIff(Upper, s);
    LookaheadFindsIff(Digit, s);
    LookaheadFindsIff(Special, s);
    assert InClass(Upper, s[0]) && NoLineTerminatorBefore(s, 0);
    assert InClass(Lower, s[1]) && NoLineTerminatorBefore(s, 1);
    assert InClass(Digit, s[2]) && NoLineTerminatorBefore(s, 2);
    assert InClass(Special, s[3]) && NoLineTerminatorBefore(s, 3);
  }

  /** A required class that only appears after a line break does not count. */
  lemma SpecialAfterLineBreakRejected()
    ensures !NewPasswordValid("Password1\n!")
  {
    var s := "Password1\n!";
    LookaheadFindsIff(Special, s);
    assert IsLineTerminator(s[9]);
    forall i | 0 <= i < |s| && InClass(Special, s[i]) ensures !NoLineTerminatorBefore(s, i) {
    }
  }

  datatype PasswordForm = PasswordForm(currentPassword: string, newPassword: string, confirmPassword: string)

  const EmptyPasswordForm: PasswordForm := PasswordForm("", "", "")

  /** `passwordSchema`: all three fields required, the new password follows the
      policy, and the confirmation equals it. */
  predicate PasswordFormValid(f: PasswordForm)
    ensures f.confirmPassword != f.newPassword ==> !PasswordFormValid(f)
    ensures f.currentPassword == "" ==> !PasswordFormValid(f)
    ensures PasswordFormValid(f) ==> NewPasswordValid(f.confirmPassword)
  {
    && f.currentPassword != ""
    && NewPasswordValid(f.newPassword)
    && f.confirmPassword != "" && f.confirmPassword == f.newPassword
  }

  // ----- system settings -----

  /** A numeric form value: None when the field holds no number. */
  predicate Positive(v: Option<real>)
  {
    v.Some? && v.value > 0.0
  }

  predicate PositiveInteger(v: Option<real>)
  {
    Positive(v) && v.value == v.value.Floor as real
  }

  lemma PositiveIntegerRules()
    ensures Positive(Some(2.5)) && !PositiveInteger(Some(2.5))
    ensures PositiveInteger(Some(587.0))
    ensures !Positive(Some(0.0)) && !Positive(Some(-1.0)) && !Positive(None)
  {
  }

  datatype SystemSettings = SystemSettings(
    apiBaseUrl: string,
    rateLimitPerMinute: Option<real>,
    maxUsersPerAccount: Option<real>,
    enablePublicRegistration: bool,
    enableAuditLogs: bool,
    systemMaintenanceMode: bool,
    smtpServer: string,
    smtpPort: Option<real>,
    smtpUsername: string,
    smtpPassword: string,
    adminEmail: string)

  const InitialSettings: SystemSettings := SystemSettings(
    "https://web-production-a617.up.railway.app", Some(60.0), Some(10.0),
    true, true, false, "smtp.example.com", Some(587.0),
    "notifications@andikar.com", "password123", "admin@andikar.com")

  /** `settingsSchema` without its URL and e-mail format checks: the required
      text fields are non-empty and the three numbers follow their rules; a
      valid user limit and SMTP port are therefore at least 1. */
  predicate SettingsValid(s: SystemSettings)
    ensures SettingsValid(s) ==>
      && s.maxUsersPerAccount.Some? && s.maxUsersPerAccount.value >= 1.0
      && s.smtpPort.Some? && s.smtpPort.value >= 1.0
  {
    && s.apiBaseUrl != ""
    && Positive(s.rateLimitPerMinute)
    && PositiveInteger(s.maxUsersPerAccount)
    && s.smtpServer != ""
    && PositiveInteger(s.smtpPort)
    && s.smtpUsername != "" && s.smtpPassword != "" && s.adminEmail != ""
  }

  lemma InitialSettingsValid()
    ensures SettingsValid(InitialSettings)
  {
    assert (60.0).Floor == 60 && (10.0).Floor == 10 && (587.0).Floor == 587;
  }

  // ----- password visibility -----

  datatype PasswordField = CurrentPassword | NewPassword | ConfirmPassword | SmtpPassword

  datatype Visibility = Visibility(currentShown: bool, newShown: bool, confirmShown: bool, smtpShown: bool)

  const AllHidden: Visibility := Visibility(false, false, false, false)

  function Shown(v: Visibility, f: PasswordField): bool
  {
    match f
    case CurrentPassword => v.currentShown
    case NewPassword => v.newShown
    case ConfirmPassword => v.confirmShown
    case SmtpPassword => v.smtpShown
  }

  /** `{...showPassword, [f]: !showPassword[f]}`. */
  function Flip(v: Visibility, f: PasswordField): (r: Visibility)
    ensures Shown(r, f) == !Shown(v, f)
    ensures forall g :: g != f ==> Shown(r, g) == Shown(v, g)
  {
    match f
    case CurrentPassword => v.(currentShown := !v.currentShown)
    case NewPassword => v.(newShown := !v.newShown)
    case ConfirmPassword => v.(confirmShown := !v.confirmShown)
    case SmtpPassword => v.(smtpShown := !v.smtpShown)
  }

  lemma FlipTwice(v: Visibility, f: PasswordField)
    ensures Flip(Flip(v, f), f) == v
  {
  }

  /** Flips of different fields commute. */
  lemma FlipsCommute(v: Visibility, f: PasswordField, g: PasswordField)
    ensures Flip(Flip(v, f), g) == Flip(Flip(v, g), f)
  {
  }

  // ----- the screen -----

  datatype Severity = Success | Error

  const SettingsSaved: string := "Settings saved successfully"
  const PasswordChanged: string := "Password changed successfully"

  class SettingsScreen {
    var systemSettings: SystemSettings
    var loading: bool
    var snackbarOpen: bool
    var snackbarMessage: string
    var snackbarSeverity: Severity
    var showPassword: Visibility
    var passwordForm: PasswordForm

    constructor ()
      ensures systemSettings == InitialSettings && loading
      ensures !snackbarOpen && snackbarMessage == "" && snackbarSeverity == Success
      ensures showPassword == AllHidden && passwordForm == EmptyPasswordForm
    {
      systemSettings := InitialSettings;
      loading := true;
      snackbarOpen := false;
      snackbarMessage := "";
      snackbarSeverity := Success;
      showPassword := AllHidden;
      passwordForm := EmptyPasswordForm;
    }

    /** No request is made: the built-in settings are loaded. */
    method FetchSettings()
      modifies this`systemSettings, this`loading
      ensures systemSettings == InitialSettings && !loading
      ensures SettingsValid(systemSettings)
    {
      loading := true;
      systemSettings := InitialSettings;
      loading := false;
      InitialSettingsValid();
    }

    /** `handleSystemSettingsSave`: the submitted values replace the whole record
        and a success snackbar opens. */
    method HandleSystemSettingsSave(values: SystemSettings)
      modifies this`systemSettings, this`snackbarMessage, this`snackbarSeverity, this`snackbarOpen
      ensures systemSettings == values
      ensures snackbarMessage == SettingsSaved && snackbarSeverity == Success && snackbarOpen
    {
      systemSettings := values;
      snackbarMessage := SettingsSaved;
      snackbarSeverity := Success;
      snackbarOpen := true;
    }

    /** The settings form's submit: the handler runs only on values that pass
        the schema, so the stored settings stay valid. */
    method SubmitSystemSettings(values: SystemSettings) returns (accepted: bool)
      modifies this`systemSettings, this`snackbarMessage, this`snackbarSeverity, this`snackbarOpen
      ensures accepted == SettingsValid(values)
      ensures accepted ==> systemSettings == values && snackbarMessage == SettingsSaved && snackbarOpen
      ensures !accepted ==>
        && systemSettings == old(systemSettings) && snackbarOpen == old(snackbarOpen)
        && snackbarMessage == old(snackbarMessage) && snackbarSeverity == old(snackbarSeverity)
      ensures SettingsValid(old(systemSettings)) ==> SettingsValid(systemSettings)
    {
      accepted := SettingsValid(values);
      if accepted {
        HandleSystemSettingsSave(values);
      }
    }

    /** `handlePasswordChange`: the form is cleared and a success snackbar
        opens; no request is made. */
    method HandlePasswordChange(values: PasswordForm)
      modifies this`passwordForm, this`snackbarMessage, this`snackbarSeverity, this`snackbarOpen
      ensures passwordForm == EmptyPasswordForm
      ensures snackbarMessage == PasswordChanged && snackbarSeverity == Success && snackbarOpen
    {
      passwordForm := EmptyPasswordForm;
      snackbarMessage := PasswordChanged;
      snackbarSeverity := Success;
      snackbarOpen := true;
    }

    /** The password form's submit: only values that follow the policy and
        whose confirmation matches reach the handler. */
    method SubmitPasswordForm(values: PasswordForm) returns (accepted: bool)
      modifies this`passwordForm, this`snackbarMessage, this`snackbarSeverity, this`snackbarOpen
      ensures accepted == PasswordFormValid(values)
      ensures accepted ==> passwordForm == EmptyPasswordForm && snackbarMessage == PasswordChanged && snackbarOpen
      ensures !accepted ==>
        && passwordForm == values && snackbarOpen == old(snackbarOpen)
        && snackbarMessage == old(snackbarMessage) && snackbarSeverity == old(snackbarSeverity)
    {
      passwordForm := values;
      accepted := PasswordFormValid(values);
      if accepted {
        HandlePasswordChange(values);
      }
    }

    method HandleCloseSnackbar()
      modifies this`snackbarOpen
      ensures !snackbarOpen
    {
      snackbarOpen := false;
    }

    method ToggleShowPassword(field: PasswordField)
      modifies this`showPassword
      ensures showPassword == Flip(old(showPassword), field)
      ensures Shown(showPassword, field) == !Shown(old(showPassword), field)
    {
      showPassword := Flip(showPassword, field);
    }
  }
}
