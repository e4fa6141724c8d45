/** The sign-up form: its password rule (a regular expression with three lookaheads),
    the schema of the four fields and the payload handed to registration. */
module Signup {
  import opened JsUtil

  /** The character classes the password expression uses. `\d` is the ASCII digits. */
  datatype CharClass = Letters | Digits | Specials | PasswordChars

  predicate InClass(c: char, k: CharClass)
    decreases if k == PasswordChars then 1 else 0
  {
    match k
    case Letters => ('A' <= c <= 'Z') || ('a' <= c <= 'z')
    case Digits => '0' <= c <= '9'
    case Specials => c == '@' || c == '$' || c == '!' || c == '%' || c == '*' || c == '?' || c == '&'
    case PasswordChars => InClass(c, Letters) || InClass(c, Digits) || InClass(c, Specials)
  }

  /** The characters `.` does not match without the `s` flag. */
  predicate IsLineTerminator(c: char) {
    c == '\n' || c == '\r' || c == '\U{2028}' || c == '\U{2029}'
  }

  /** `(?=.*[class])` at the start of the input: some character of the class is reached
      before any line terminator. */
  predicate LookaheadFinds(s: string, k: CharClass) {
    exists n :: 0 <= n < |s| && InClass(s[n], k) && forall j :: 0 <= j < n ==> !IsLineTerminator(s[j])
  }

  /** `/^(?=.*[A-Za-z])(?=.*\d)(?=.*[@$!%*?&])[A-Za-z\d@$!%*?&]{8,}$/`, read literally: the
      three lookaheads at the start, then at least eight allowed characters up to the end. */
  predicate PasswordRegexMatches(s: string) {
    LookaheadFinds(s, Letters) && LookaheadFinds(s, Digits) && LookaheadFinds(s, Specials) &&
    |s| >= 8 && forall i :: 0 <= i < |s| ==> InClass(s[i], PasswordChars)
  }

  predicate Contains(s: string, k: CharClass) {
    exists i :: 0 <= i < |s| && InClass(s[i], k)
  }

  /** The rule in plain terms: at least eight characters, all of them letters, digits or
      one of @$!%*?&, with at least one of each kind. */
  predicate StrongPassword(s: string) {
    |s| >= 8 && (forall i :: 0 <= i < |s| ==> InClass(s[i], PasswordChars)) &&
    Contains(s, Letters) && Contains(s, Digits) && Contains(s, Specials)
  }

  /** The expression means exactly the plain rule: once every character is allowed there
      is no line terminator for the lookaheads to stop at. */
  lemma PasswordRegexIsStrongPassword(s: string)
    ensures PasswordRegexMatches(s) <==> StrongPassword(s)
  {
    if StrongPassword(s) {
      forall k: CharClass | k != PasswordChars && Contains(s, k)
        ensures LookaheadFinds(s, k)
      {
        var n :| 0 <= n < |s| && InClass(s[n], k);
        assert forall j :: 0 <= j < n ==> InClass(s[j], PasswordChars);
      }
    }
  }

  // ---------------------------------------------------------------------------
  // The schema

  datatype Field = FullNameField | EmailField | PasswordField | ConfirmPasswordField

  datatype Check = TooShort(minimum: nat) | NotAnEmail | NoMatch | Custom

  /** A validation issue; `message` is None where the validation library's default
      message applies. */
  datatype Issue = Issue(path: Field, check: Check, message: Option<string>)

  datatype SignupForm = SignupForm(fullName: string, email: string, password: string, confirmPassword: string)

  const TooShortPassword: string := "Incorrect password. Password should be minimum 8 characters."

  /** The confirmation field's regex message carries a stray backtick in the source. */
  const TooShortConfirmation: string := "Incorrect password. Password should be minimum 8 characters.`"

  /** The checks of a password field: `nonempty()`, `min(8)`, then the expression, the
      last two with the given messages. Lengths count UTF-16 code units. */
  function PasswordIssues(f: Field, s: string, minMessage: string, regexMessage: string): (issues: seq<Issue>)
    ensures forall i :: 0 <= i < |issues| ==> issues[i].path == f
    ensures issues == [] <==> StrongPassword(s)
  {
    PasswordRegexIsStrongPassword(s);
    (if JsLength(s) < 1 then [Issue(f, TooShort(1), None)] else []) +
    (if JsLength(s) < 8 then [Issue(f, TooShort(8), Some(minMessage))] else []) +
    (if !PasswordRegexMatches(s) then [Issue(f, NoMatch, Some(regexMessage))] else [])
  }

  /** Some issue of the list is on field `f`. */
  predicate HasIssueOn(issues: seq<Issue>, f: Field) {
    exists i :: 0 <= i < |issues| && issues[i].path == f
  }

  /** `fullName: z.string().nonempty()`. */
  function FullNameIssues(fullName: string): (issues: seq<Issue>)
    ensures forall i :: 0 <= i < |issues| ==> issues[i].path == FullNameField
    ensures issues == [] <==> fullName != ""
  {
    JsLengthZero(fullName);
    if JsLength(fullName) < 1 then [Issue(FullNameField, TooShort(1), None)] else []
  }

  /** `email: z.string().nonempty().email(...)`. */
  function EmailIssues(email: string, emailShaped: bool): (issues: seq<Issue>)
    ensures forall i :: 0 <= i < |issues| ==> issues[i].path == EmailField
    ensures issues == [] <==> email != "" && emailShaped
  {
    JsLengthZero(email);
    (if JsLength(email) < 1 then [Issue(EmailField, TooShort(1), None)] else []) +
    (if !emailShaped then [Issue(EmailField, NotAnEmail, Some("Please enter a valid email"))] else [])
  }

  /** The confirmation's own checks, then the refinement's mismatch issue. */
  function ConfirmationIssues(form: SignupForm): (issues: seq<Issue>)
    ensures forall i :: 0 <= i < |issues| ==> issues[i].path == ConfirmPasswordField
    ensures issues == [] <==> StrongPassword(form.confirmPassword) && form.confirmPassword == form.password
  {
    PasswordIssues(ConfirmPasswordField, form.confirmPassword, TooShortPassword, TooShortConfirmation) +
    MismatchIssues(form)
  }

  /** The field checks in declaration order, then the refinement. Whether the email has
      the shape of an address is the validation library's test and is passed in. Each
      field is reported exactly when its own rule fails; the confirmation also when it
      differs from the password. */
  function SignupIssues(form: SignupForm, emailShaped: bool): (issues: seq<Issue>)
    ensures HasIssueOn(issues, FullNameField) <==> form.fullName == ""
    ensures HasIssueOn(issues, EmailField) <==> form.email == "" || !emailShaped
    ensures HasIssueOn(issues, PasswordField) <==> !StrongPassword(form.password)
    ensures HasIssueOn(issues, ConfirmPasswordField) <==>
      !StrongPassword(form.confirmPassword) || form.confirmPassword != form.password
  {
    var name := FullNameIssues(form.fullName);
    var email := EmailIssues(form.email, emailShaped);
    var password := PasswordIssues(PasswordField, form.password, TooShortPassword, TooShortPassword);
    var confirm := ConfirmationIssues(form);
    FieldsReported(name, email, password, confirm, FullNameField);
    FieldsReported(name, email, password, confirm, EmailField);
    FieldsReported(name, email, password, confirm, PasswordField);
    FieldsReported(name, email, password, confirm, ConfirmPasswordField);
    name + email + password + confirm
  }

  lemma ConcatHasIssue(a: seq<Issue>, b: seq<Issue>, f: Field)
    ensures HasIssueOn(a + b, f) <==> HasIssueOn(a, f) || HasIssueOn(b, f)
  {
    if HasIssueOn(a + b, f) {
      var i :| 0 <= i < |a + b| && (a + b)[i].path == f;
      if i >= |a| {
        assert b[i - |a|].path == f;
      }
    }
    if HasIssueOn(a, f) {
      var i :| 0 <= i < |a| && a[i].path == f;
      assert (a + b)[i].path == f;
    }
    if HasIssueOn(b, f) {
      var i :| 0 <= i < |b| && b[i].path == f;
      assert (a + b)[|a| + i].path == f;
    }
  }

  /** The schema's list is made of one run of issues per field, in field order; a field
      is reported iff its own run is non-empty. */
  lemma FieldsReported(name: seq<Issue>, email: seq<Issue>, password: seq<Issue>, confirm: seq<Issue>, f: Field)
    requires forall i :: 0 <= i < |name| ==> name[i].path == FullNameField
    requires forall i :: 0 <= i < |email| ==> email[i].path == EmailField
    requires forall i :: 0 <= i < |password| ==> password[i].path == PasswordField
    requires forall i :: 0 <= i < |confirm| ==> confirm[i].path == ConfirmPasswordField
    ensures HasIssueOn(name + email + password + confirm, f) <==>
      (f == FullNameField && name != []) || (f == EmailField && email != []) ||
      (f == PasswordField && password != []) || (f == ConfirmPasswordField && confirm != [])
  {
    ConcatHasIssue(name, email, f);
    ConcatHasIssue(name + email, password, f);
    ConcatHasIssue(name + email + password, confirm, f);
    UniformPath(name, FullNameField, f);
    UniformPath(email, EmailField, f);
    UniformPath(password, PasswordField, f);
    UniformPath(confirm, ConfirmPasswordField, f);
  }

  /** A list whose issues are all on `f` reports `f` iff it is non-empty, and no other field. */
  lemma UniformPath(issues: seq<Issue>, f: Field, g: Field)
    requires forall i :: 0 <= i < |issues| ==> issues[i].path == f
    ensures HasIssueOn(issues, g) <==> g == f && issues != []
  {
    if g == f && issues != [] {
      assert issues[0].path == g;
    }
  }

  /** The refinement: differing passwords add one issue, on the confirmation field. */
  function MismatchIssues(form: SignupForm): (issues: seq<Issue>)
    ensures form.confirmPassword == form.password <==> issues == []
    ensures form.confirmPassword != form.password ==>
      issues == [Issue(ConfirmPasswordField, Custom, Some("The passwords did not match"))]
  {
    if form.confirmPassword != form.password then
      [Issue(ConfirmPasswordField, Custom, Some("The passwords did not match"))]
    else []
  }

  /** The form is accepted exactly when a name and an address-shaped email are given and
      the password is strong and repeated exactly. */
  lemma SignupAccepted(form: SignupForm, emailShaped: bool)
    ensures SignupIssues(form, emailShaped) == [] <==>
      form.fullName != "" && form.email != "" && emailShaped &&
      StrongPassword(form.password) && form.confirmPassword == form.password
  {
    JsLengthZero(form.fullName);
    JsLengthZero(form.email);
  }

  lemma JsLengthZero(s: string)
    ensures JsLength(s) < 1 <==> s == ""
  {
  }

  /** A strong password typed differently in the confirmation fails on the confirmation
      field alone, with one issue. */
  lemma MismatchReportedOnce(form: SignupForm)
    requires form.fullName != "" && form.email != ""
    requires StrongPassword(form.password) && StrongPassword(form.confirmPassword)
    requires form.confirmPassword != form.password
    ensures SignupIssues(form, true) ==
      [Issue(ConfirmPasswordField, Custom, Some("The passwords did not match"))]
  {
    JsLengthZero(form.fullName);
    JsLengthZero(form.email);
  }

  /** `onCreateAccount`'s payload to registration. */
  datatype RegisterPayload = RegisterPayload(email: string, password: string, fullName: string)

  /** Submitting: registration is called only for an accepted form, with the confirmation
      dropped. */
  function SignupSubmission(form: SignupForm, emailShaped: bool): (r: Option<RegisterPayload>)
    ensures r.Some? <==> SignupIssues(form, emailShaped) == []
    ensures r.Some? ==> r.value == RegisterPayload(form.email, form.password, form.fullName)
  {
    if SignupIssues(form, emailShaped) == [] then
      Some(RegisterPayload(form.email, form.password, form.fullName))
    else None
  }

  /** Every registered password is strong and was confirmed. */
  lemma RegisteredPasswordIsStrong(form: SignupForm, emailShaped: bool)
    requires SignupSubmission(form, emailShaped).Some?
    ensures StrongPassword(SignupSubmission(form, emailShaped).value.password)
    ensures form.confirmPassword == SignupSubmission(form, emailShaped).value.password
  {
    SignupAccepted(form, emailShaped);
  }

  /** Examples: "abcdefg1!" passes; an eight-letter word and a password with a space fail. */
  lemma PasswordExamples()
    ensures StrongPassword("abcdefg1!")
    ensures !StrongPassword("abcdefgh")
    ensures !StrongPassword("abc defg1!")
  {
    assert InClass("abcdefg1!"[0], Letters);
    assert InClass("abcdefg1!"[7], Digits);
    assert InClass("abcdefg1!"[8], Specials);
    assert !InClass("abc defg1!"[3], PasswordChars);
  }
}
