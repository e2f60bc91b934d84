/** The sign-up wizard (src/pages/Signup.jsx): the form record, the two
    ordered validation chains with their first-error-wins messages, the
    e-mail pattern, and the step, error, loading and success state the
    handlers update. */
module Signup {
  import opened Js

  /** The form's inputs, by their `name` attribute. */
  datatype Field = CompanyName | Email | Password | ConfirmPassword | Industry | Size

  datatype FormData = FormData(
    companyName: string,
    email: string,
    password: string,
    confirmPassword: string,
    industry: string,
    size: string)

  const InitialForm := FormData("", "", "", "", "", "10-50")

  const CompanyRequired := "Company name is required"
  const EmailRequired := "Valid email is required"
  const PasswordTooShort := "Password must be at least 8 characters"
  const PasswordMismatch := "Passwords do not match"
  const IndustryRequired := "Please select your industry"

  function FieldValue(form: FormData, name: Field): string {
    match name
    case CompanyName => form.companyName
    case Email => form.email
    case Password => form.password
    case ConfirmPassword => form.confirmPassword
    case Industry => form.industry
    case Size => form.size
  }

  /** The form after `handleChange` for an input named `name` now holding
      `value`. */
  function UpdateField(form: FormData, name: Field, value: string): (r: FormData)
    ensures FieldValue(r, name) == value
    ensures forall other :: other != name ==> FieldValue(r, other) == FieldValue(form, other)
  {
    match name
    case CompanyName => form.(companyName := value)
    case Email => form.(email := value)
    case Password => form.(password := value)
    case ConfirmPassword => form.(confirmPassword := value)
    case Industry => form.(industry := value)
    case Size => form.(size := value)
  }

  /** Typing a field's old value back restores the form. */
  lemma UpdateFieldUndo(form: FormData, name: Field, value: string)
    ensures UpdateField(UpdateField(form, name, value), name, FieldValue(form, name)) == form
  {
  }

  /** A JavaScript whitespace character: what `\s` matches and `trim()`
      removes (WhiteSpace and LineTerminator of ECMAScript). */
  predicate IsSpace(c: char) {
    c == '\t' || c == '\n' || c == '\U{B}' || c == '\U{C}' || c == '\r' || c == ' '
    || c == '\U{A0}' || c == '\U{1680}' || ('\U{2000}' <= c <= '\U{200A}')
    || c == '\U{2028}' || c == '\U{2029}' || c == '\U{202F}' || c == '\U{205F}'
    || c == '\U{3000}' || c == '\U{FEFF}'
  }

  /** `!s.trim()`: nothing but whitespace. */
  predicate IsBlank(s: string) {
    forall i :: 0 <= i < |s| ==> IsSpace(s[i])
  }

  /** `\S+`: one or more characters, none of them whitespace. */
  predicate NonSpaceRun(s: string) {
    |s| >= 1 && forall i :: 0 <= i < |s| ==> !IsSpace(s[i])
  }

  /** `/^\S+@\S+\.\S+$/.test(s)`: the string splits at an '@' and a later
      '.' into three non-empty runs without whitespace. */
  predicate EmailPattern(s: string) {
    exists at, dot :: 0 <= at < dot < |s| && s[at] == '@' && s[dot] == '.'
      && NonSpaceRun(s[..at]) && NonSpaceRun(s[at + 1..dot]) && NonSpaceRun(s[dot + 1..])
  }

  /** The same pattern by positions: no whitespace anywhere, an '@' at index
      1 or later, and a '.' at least two places after it and before the
      last character. */
  predicate EmailShape(s: string) {
    (forall i :: 0 <= i < |s| ==> !IsSpace(s[i]))
    && exists at, dot :: 1 <= at && at + 2 <= dot && dot + 2 <= |s| && s[at] == '@' && s[dot] == '.'
  }

  lemma EmailPatternHasShape(s: string)
    requires EmailPattern(s)
    ensures EmailShape(s)
  {
    var at, dot :| 0 <= at < dot < |s| && s[at] == '@' && s[dot] == '.'
      && NonSpaceRun(s[..at]) && NonSpaceRun(s[at + 1..dot]) && NonSpaceRun(s[dot + 1..]);
    forall i | 0 <= i < |s|
      ensures !IsSpace(s[i])
    {
      if i < at {
        assert s[..at][i] == s[i];
      } else if at < i < dot {
        assert s[at + 1..dot][i - at - 1] == s[i];
      } else if dot < i {
        assert s[dot + 1..][i - dot - 1] == s[i];
      }
    }
  }

  lemma EmailShapeMatchesPattern(s: string)
    requires EmailShape(s)
    ensures EmailPattern(s)
  {
    var at, dot :| 1 <= at && at + 2 <= dot && dot + 2 <= |s| && s[at] == '@' && s[dot] == '.';
    forall i | 0 <= i < at
      ensures !IsSpace(s[..at][i])
    {
      assert s[..at][i] == s[i];
    }
    var domain := s[at + 1..dot];
    forall i | 0 <= i < |domain|
      ensures !IsSpace(domain[i])
    {
      assert domain[i] == s[at + 1 + i];
    }
    var suffix := s[dot + 1..];
    forall i | 0 <= i < |suffix|
      ensures !IsSpace(suffix[i])
    {
      assert suffix[i] == s[dot + 1 + i];
    }
    assert NonSpaceRun(s[..at]) && NonSpaceRun(s[at + 1..dot]) && NonSpaceRun(s[dot + 1..]);
  }

  /** The pattern and the positional description accept the same strings. */
  lemma EmailPatternIffShape(s: string)
    ensures EmailPattern(s) <==> EmailShape(s)
  {
    if EmailPattern(s) {
      EmailPatternHasShape(s);
    }
    if EmailShape(s) {
      EmailShapeMatchesPattern(s);
    }
  }

  /** `validateStep1()`: `None` when it returns true, otherwise the error it
      sets. The company check comes first. */
  function ValidateStep1(form: FormData): (r: Option<string>)
    ensures IsBlank(form.companyName) ==> r == Some(CompanyRequired)
    ensures !IsBlank(form.companyName) && !EmailShape(form.email) ==> r == Some(EmailRequired)
    ensures r == None <==> !IsBlank(form.companyName) && EmailShape(form.email)
  {
    EmailPatternIffShape(form.email);
    if IsBlank(form.companyName) then Some(CompanyRequired)
    else if IsBlank(form.email) || !EmailPattern(form.email) then Some(EmailRequired)
    else None
  }

  /** The blank-email test in `validateStep1` never decides anything on its
      own: a blank string does not match the pattern. */
  lemma BlankEmailFailsPattern(s: string)
    requires IsBlank(s)
    ensures !EmailPattern(s)
  {
  }

  /** `validateStep2()`: the length check, then the confirmation, then the
      industry. */
  function ValidateStep2(form: FormData): (r: Option<string>)
    ensures |form.password| < 8 ==> r == Some(PasswordTooShort)
    ensures |form.password| >= 8 && form.password != form.confirmPassword ==> r == Some(PasswordMismatch)
    ensures |form.password| >= 8 && form.password == form.confirmPassword && form.industry == "" ==> r == Some(IndustryRequired)
    ensures r == None <==> |form.password| >= 8 && form.password == form.confirmPassword && form.industry != ""
  {
    if |form.password| < 8 then Some(PasswordTooShort)
    else if form.password != form.confirmPassword then Some(PasswordMismatch)
    else if form.industry == "" then Some(IndustryRequired)
    else None
  }

  /** The component's state. */
  class SignupPage {
    var form: FormData
    var error: string
    var loading: bool
    var step: int
    var success: bool
    /** Timers set by `handleSubmit` that have not fired yet. */
    var pendingTimers: nat

    ghost predicate Valid()
      reads this
    {
      step == 1 || step == 2
    }

    constructor ()
      ensures Valid()
      ensures form == InitialForm && error == "" && !loading && step == 1 && !success && pendingTimers == 0
    {
      form := InitialForm;
      error := "";
      loading := false;
      step := 1;
      success := false;
      pendingTimers := 0;
    }

    /** `handleChange(e)` for the input `name`. */
    method HandleChange(name: Field, value: string)
      modifies this
      ensures form == UpdateField(old(form), name, value)
      ensures error == old(error) && loading == old(loading) && step == old(step)
      ensures success == old(success) && pendingTimers == old(pendingTimers)
    {
      form := UpdateField(form, name, value);
    }

    /** `nextStep()`: on step 1 with a valid first page the wizard moves to
        step 2 and clears the error; a failed validation sets its message;
        on step 2 nothing happens. */
    method NextStep()
      requires Valid()
      modifies this
      ensures Valid()
      ensures form == old(form) && loading == old(loading) && success == old(success)
      ensures pendingTimers == old(pendingTimers)
      ensures old(step) == 1 && ValidateStep1(form).None? ==> step == 2 && error == ""
      ensures old(step) == 1 && ValidateStep1(form).Some? ==> step == 1 && error == ValidateStep1(form).value
      ensures old(step) != 1 ==> step == old(step) && error == old(error)
    {
      if step == 1 {
        var v := ValidateStep1(form);
        if v.Some? {
          error := v.value;
        } else {
          error := "";
          step := 2;
        }
      }
    }

    /** `prevStep()` */
    method PrevStep()
      modifies this
      ensures Valid()
      ensures step == 1 && error == ""
      ensures form == old(form) && loading == old(loading) && success == old(success)
      ensures pendingTimers == old(pendingTimers)
    {
      step := 1;
      error := "";
    }

    /** `handleSubmit(e)`: with a valid second page, loading starts, the
        error is cleared and the timer is set; otherwise the error is the
        first failing check's message. */
    method HandleSubmit()
      modifies this
      ensures form == old(form) && step == old(step) && success == old(success)
      ensures ValidateStep2(form).None? ==> loading && error == "" && pendingTimers == old(pendingTimers) + 1
      ensures ValidateStep2(form).Some? ==> (error == ValidateStep2(form).value
        && loading == old(loading) && pendingTimers == old(pendingTimers))
    {
      var v := ValidateStep2(form);
      if v.Some? {
        error := v.value;
      } else {
        loading := true;
        error := "";
        pendingTimers := pendingTimers + 1;
      }
    }

    /** The browser reloads the page: the component mounts afresh, and the
        timers of the old page are gone with it. */
    method Reload()
      modifies this
      ensures Valid()
      ensures form == InitialForm && error == "" && !loading && step == 1 && !success && pendingTimers == 0
    {
      form := InitialForm;
      error := "";
      loading := false;
      step := 1;
      success := false;
      pendingTimers := 0;
    }

    /** The timer `handleSubmit` set fires. */
    method SubmitTimerFires()
      requires pendingTimers > 0
      modifies this
      ensures !loading && success
      ensures pendingTimers == old(pendingTimers) - 1
      ensures form == old(form) && step == old(step) && error == old(error)
    {
      loading := false;
      success := true;
      pendingTimers := pendingTimers - 1;
    }
  }

  /** Submitting the first page as written: the form's `onSubmit` on step 1
      is `nextStep`, which does not cancel the event, so after `nextStep`
      runs the browser performs the form's default submission, a GET of the
      current address that reloads the page. Whatever was typed, and even
      when the first page is valid, the wizard is back on an empty step 1. */
  method SubmitStepOneAsWritten(page: SignupPage)
    requires page.Valid() && page.step == 1
    modifies page
    ensures page.Valid() && page.step == 1 && page.form == InitialForm
    ensures page.error == "" && !page.success && page.pendingTimers == 0
  {
    page.NextStep();
    page.Reload();
  }

  /** A first page that `validateStep1` accepts: submitting it as written
      still ends on an empty step 1, where `nextStep` alone reaches step 2. */
  lemma SampleFirstPageIsValid()
    ensures ValidateStep1(InitialForm.(companyName := "Acme", email := "a@b.co")).None?
  {
    var form := InitialForm.(companyName := "Acme", email := "a@b.co");
    assert form.email[1] == '@' && form.email[3] == '.';
    assert !IsSpace(form.companyName[0]);
  }

  /** From a fresh page, a valid first page, then a valid second page, and
      the timer firing end in success on step 2. The first page goes through
      `NextStep`, the corrected handler that cancels the submission. */
  method CompleteSignup(page: SignupPage)
    requires page.Valid() && page.step == 1 && page.pendingTimers == 0
    requires ValidateStep1(page.form).None? && ValidateStep2(page.form).None?
    modifies page
    ensures page.Valid() && page.step == 2 && page.success && !page.loading && page.error == ""
  {
    page.NextStep();
    page.HandleSubmit();
    page.SubmitTimerFires();
  }
}
