/**
 * The login page (`src/pages/Login.tsx`): the form's validation rules, with the
 * e-mail pattern `^[^\s@]+@[^\s@]+\.[^\s@]+$` stated as a split of the string,
 * the gate that lets `login` run only on a valid form, the clearing of a
 * field's message when it is edited, and the demo-account buttons.
 */
module Login {
  import opened Wrappers
  import opened Strings
  import opened AuthContext

  // ----- the e-mail pattern -----------------------------------------------

  /** No white space and no `@` except at `k`. */
  predicate OnlyAtIs(s: string, k: int)
  {
    forall i :: 0 <= i < |s| && i != k ==> !IsSpace(s[i]) && s[i] != '@'
  }

  /**
   * `s` splits as `a@b.c` with `a`, `b`, `c` non-empty, the `@` at `k` and the
   * `.` at `j`: the three `[^\s@]+` groups are `s[..k]`, `s[k+1..j]`, `s[j+1..]`.
   */
  predicate PatternSplit(s: string, k: int, j: int)
  {
    0 < k && k + 1 < j && j + 1 < |s| && s[k] == '@' && s[j] == '.' && OnlyAtIs(s, k)
  }

  /** What the regular expression accepts. */
  ghost predicate MatchesPattern(s: string)
  {
    exists k, j :: PatternSplit(s, k, j)
  }

  /** The test as a scan: exactly one `@`, not first, no white space, and a dot inside the domain. */
  predicate IsEmail(s: string)
    ensures IsEmail(s) ==> 5 <= |s| && s[0] != '@' && !IsSpace(s[0])
    ensures IsEmail(s) ==> var k := |Before(s, '@')|; k < |s| && s[k] == '@' && '@' !in s[k + 1..]
  {
    var at := |Before(s, '@')|;
    0 < at < |s| &&
    (forall i :: 0 <= i < |s| ==> !IsSpace(s[i])) &&
    (forall i :: at < i < |s| ==> s[i] != '@') &&
    exists j :: at + 1 < j < |s| - 1 && s[j] == '.'
  }

  lemma IsEmailMatchesPattern(s: string)
    ensures IsEmail(s) <==> MatchesPattern(s)
  {
    var r := Before(s, '@');
    var at := |r|;
    assert forall i :: 0 <= i < at ==> s[i] == r[i] && r[i] in r;
    if IsEmail(s) {
      var j :| at + 1 < j < |s| - 1 && s[j] == '.';
      assert PatternSplit(s, at, j);
    }
    if MatchesPattern(s) {
      var k, j :| PatternSplit(s, k, j);
      assert at == k by {
        assert at < |s| && s[at] == '@';
      }
      assert at + 1 < j < |s| - 1 && s[j] == '.';
    }
  }

  /** The exact conditions the pattern imposes. */
  lemma PatternConditions(s: string)
    ensures IsEmail(s) <==>
      (exists k :: 0 < k < |s| && s[k] == '@' && OnlyAtIs(s, k) &&
                   exists j :: k + 1 < j < |s| - 1 && s[j] == '.')
  {
    IsEmailMatchesPattern(s);
    if exists k :: 0 < k < |s| && s[k] == '@' && OnlyAtIs(s, k) && exists j :: k + 1 < j < |s| - 1 && s[j] == '.' {
      var k :| 0 < k < |s| && s[k] == '@' && OnlyAtIs(s, k) && exists j :: k + 1 < j < |s| - 1 && s[j] == '.';
      var j :| k + 1 < j < |s| - 1 && s[j] == '.';
      assert PatternSplit(s, k, j);
    }
  }

  // ----- the validation rules ----------------------------------------------

  function EmailError(email: string): (r: Option<string>)
    ensures email == [] ==> r == Some("Email is required")
    ensures email != [] && !IsEmail(email) ==> r == Some("Please enter a valid email address")
    ensures r == None <==> IsEmail(email)
  {
    if email == [] then Some("Email is required")
    else if !IsEmail(email) then Some("Please enter a valid email address")
    else None
  }

  /** The length is counted in characters. */
  function PasswordError(password: string): (r: Option<string>)
    ensures password == [] ==> r == Some("Password is required")
    ensures password != [] && |password| < 6 ==> r == Some("Password must be at least 6 characters")
    ensures r == None <==> |password| >= 6
  {
    if password == [] then Some("Password is required")
    else if |password| < 6 then Some("Password must be at least 6 characters")
    else None
  }

  type Errors = map<string, string>

  /** A message is shown for a field when its entry is present and non-empty. */
  predicate Shows(errors: Errors, name: string)
  {
    name in errors && errors[name] != []
  }

  // ----- the page ----------------------------------------------------------

  datatype Input = EmailInput(email: string) | PasswordInput(password: string) | RememberInput(checked: bool)

  function InputName(i: Input): string
  {
    match i
    case EmailInput(_) => "email"
    case PasswordInput(_) => "password"
    case RememberInput(_) => "rememberMe"
  }

  /** The demo buttons' addresses. */
  const DemoEmails: seq<string> := ["admin@profitpulse.com", "trader@profitpulse.com", "guest@profitpulse.com"]
  const DemoPassword: string := "demo123"

  class LoginPage {
    var email: string
    var password: string
    var rememberMe: bool
    var errors: Errors

    constructor ()
      ensures email == [] && password == [] && !rememberMe && errors == map[]
    {
      email := [];
      password := [];
      rememberMe := false;
      errors := map[];
    }

    /** `validateForm`: the messages are recorded field by field; the form is valid when none was. */
    method ValidateForm() returns (valid: bool)
      modifies this`errors
      ensures ("email" in errors <==> EmailError(email).Some?) && ("email" in errors ==> errors["email"] == EmailError(email).value)
      ensures ("password" in errors <==> PasswordError(password).Some?) &&
              ("password" in errors ==> errors["password"] == PasswordError(password).value)
      ensures errors.Keys <= {"email", "password"}
      ensures valid <==> errors == map[]
      ensures valid <==> IsEmail(email) && |password| >= 6
    {
      var newErrors: Errors := map[];
      if email == [] {
        newErrors := newErrors["email" := "Email is required"];
      } else if !IsEmail(email) {
        newErrors := newErrors["email" := "Please enter a valid email address"];
      }
      if password == [] {
        newErrors := newErrors["password" := "Password is required"];
      } else if |password| < 6 {
        newErrors := newErrors["password" := "Password must be at least 6 characters"];
      }
      errors := newErrors;
      valid := |newErrors.Keys| == 0;
      assert valid <==> newErrors == map[] by {
        if newErrors != map[] {
          var k :| k in newErrors;
          assert k in newErrors.Keys;
        }
      }
    }

    /** `handleSubmit`: an invalid form stops before `login`; a valid one logs in and goes to the dashboard. */
    method HandleSubmit(auth: AuthProvider, now: string, millis: string) returns (navigate: Option<string>)
      requires auth.Valid()
      modifies this`errors, auth`state, auth.storage
      ensures auth.Valid()
      ensures !(IsEmail(email) && |password| >= 6) ==>
        navigate == None && auth.state == old(auth.state) &&
        auth.storage.local == old(auth.storage.local) && auth.storage.session == old(auth.storage.session)
      ensures IsEmail(email) && |password| >= 6 ==>
        navigate == Some("/dashboard") && auth.state.isAuthenticated &&
        auth.storage.GetToken() == Some("mock_token_" + millis)
    {
      var valid := ValidateForm();
      if !valid {
        return None;
      }
      var ok := auth.Login(email, password, now, millis);
      navigate := if ok then Some("/dashboard") else None;
    }

    /** `handleInputChange`: the field takes the new value; its shown message, and only that, is blanked. */
    method HandleInputChange(input: Input)
      modifies this`email, this`password, this`rememberMe, this`errors
      ensures email == (if input.EmailInput? then input.email else old(email))
      ensures password == (if input.PasswordInput? then input.password else old(password))
      ensures rememberMe == (if input.RememberInput? then input.checked else old(rememberMe))
      ensures Shows(old(errors), InputName(input)) ==> errors == old(errors)[InputName(input) := ""]
      ensures !Shows(old(errors), InputName(input)) ==> errors == old(errors)
    {
      match input {
        case EmailInput(e) => email := e;
        case PasswordInput(p) => password := p;
        case RememberInput(c) => rememberMe := c;
      }
      var name := InputName(input);
      if name in errors && errors[name] != [] {
        errors := errors[name := ""];
      }
    }

    /** `fillDemo`: the address and the demo password; "remember me" is kept. */
    method FillDemo(demoEmail: string)
      modifies this`email, this`password
      ensures email == demoEmail && password == DemoPassword
    {
      email := demoEmail;
      password := DemoPassword;
    }
  }

  /** Editing a field never shows a message, and leaves the other fields' messages as they were. */
  lemma EditLeavesOthers(errors: Errors, name: string, other: string)
    requires other != name
    ensures var e := if Shows(errors, name) then errors[name := ""] else errors;
      !Shows(e, name) && (other in e <==> other in errors) && (other in errors ==> e[other] == errors[other])
  {
  }

  /** Every demo account passes validation. */
  lemma DemoAccountsValid(i: nat)
    requires i < |DemoEmails|
    ensures IsEmail(DemoEmails[i]) && EmailError(DemoEmails[i]) == None
    ensures PasswordError(DemoPassword) == None
  {
    if i == 0 {
      AdminAddressSplits();
    } else if i == 1 {
      TraderAddressSplits();
    } else {
      GuestAddressSplits();
    }
    IsEmailMatchesPattern(DemoEmails[i]);
  }

  // Each demo address splits at its `@` and at the dot twelve characters on.

  lemma AdminAddressSplits()
    ensures PatternSplit(DemoEmails[0], 5, 17)
  {
  }

  lemma TraderAddressSplits()
    ensures PatternSplit(DemoEmails[1], 6, 18)
  {
  }

  lemma GuestAddressSplits()
    ensures PatternSplit(DemoEmails[2], 5, 17)
  {
  }

  /** A form that passes validation always logs in: the mock refuses only empty fields. */
  lemma ValidFormLogsIn(email: string, password: string, now: string, millis: string)
    requires EmailError(email) == None && PasswordError(password) == None
    ensures MockLogin(email, password, now, millis).Ok?
  {
  }
}
