/**
 * The sign-up and sign-in forms (pages/RegisterPage.tsx, pages/LoginPage.tsx):
 * a fixed chain of checks whose first failure becomes the message shown,
 * the gate that keeps an invalid form from reaching the server, and the
 * clearing of the message when a field is edited. The forms' page state
 * is a value; a handler returns the next state.
 */
module FormValidation {
  import opened Wrappers
  import opened Text

  // ---------------------------------------------------------------------
  // The email pattern `/\S+@\S+\.\S+/`
  // ---------------------------------------------------------------------

  /** `t` reads as `\S+ @ \S+ . \S+` with the `@` at `at` and the `.` at `dot`. */
  predicate PatternSplit(t: string, at: int, dot: int) {
    0 < at && at + 1 < dot && dot + 1 < |t| && t[at] == '@' && t[dot] == '.'
    && IsWord(t[..at]) && IsWord(t[at + 1..dot]) && IsWord(t[dot + 1..])
  }

  /** The whole of `t` is in the language of `\S+@\S+\.\S+`. */
  predicate InEmailPattern(t: string) {
    exists at, dot | 0 < at < dot < |t| :: PatternSplit(t, at, dot)
  }

  /** `regex.test(s)` with no anchors: some substring of `s` is in the language. */
  predicate EmailFormat(s: string) {
    exists p, q :: 0 <= p <= q <= |s| && InEmailPattern(s[p..q])
  }

  /**
   * The same test read locally: an `@` with a non-space before it, then a
   * run of non-spaces up to a `.`, then a non-space.
   */
  predicate EmailAt(s: string, at: int, dot: int) {
    0 < at && at + 1 < dot && dot + 1 < |s| && s[at] == '@' && s[dot] == '.'
    && !IsSpace(s[at - 1]) && IsWord(s[at + 1..dot]) && !IsSpace(s[dot + 1])
  }

  /** A matching substring gives a local `@ … .` site. */
  lemma EmailFormatHasSite(s: string)
    requires EmailFormat(s)
    ensures exists at, dot :: EmailAt(s, at, dot)
  {
    var p, q :| 0 <= p <= q <= |s| && InEmailPattern(s[p..q]);
    var t := s[p..q];
    var a, d :| 0 < a < d < |t| && PatternSplit(t, a, d);
    assert forall k :: 0 <= k < |t| ==> t[k] == s[p + k];
    assert t[..a][a - 1] == t[a - 1];
    assert s[p + a + 1..p + d] == t[a + 1..d];
    assert t[d + 1..][0] == t[d + 1];
    assert EmailAt(s, p + a, p + d);
  }

  /** A local `@ … .` site gives a matching substring. */
  lemma SiteHasEmailFormat(s: string, at: int, dot: int)
    requires EmailAt(s, at, dot)
    ensures EmailFormat(s)
  {
    var t := s[at - 1..dot + 2];
    var a, d := 1, dot - at + 1;
    assert forall k :: 0 <= k < |t| ==> t[k] == s[at - 1 + k];
    assert t[..a] == [s[at - 1]];
    assert t[a + 1..d] == s[at + 1..dot];
    assert t[d + 1..] == [s[dot + 1]];
    assert PatternSplit(t, a, d);
  }

  /** The regular-expression reading and the local reading agree. */
  lemma EmailFormatIffSite(s: string)
    ensures EmailFormat(s) <==> exists at, dot :: EmailAt(s, at, dot)
  {
    if EmailFormat(s) {
      EmailFormatHasSite(s);
    }
    if exists at, dot :: EmailAt(s, at, dot) {
      var at, dot :| EmailAt(s, at, dot);
      SiteHasEmailFormat(s, at, dot);
    }
  }

  /** The pattern is unanchored: text around a matching email keeps it matching. */
  lemma EmailFormatUnanchored(pre: string, s: string, post: string)
    requires EmailFormat(s)
    ensures EmailFormat(pre + s + post)
  {
    var p, q :| 0 <= p <= q <= |s| && InEmailPattern(s[p..q]);
    var w := pre + s + post;
    assert w[|pre| + p..|pre| + q] == s[p..q];
  }

  /** Without an `@` nothing matches. */
  lemma NoAtNoEmailFormat(s: string)
    requires forall i :: 0 <= i < |s| ==> s[i] != '@'
    ensures !EmailFormat(s)
  {
    EmailFormatIffSite(s);
  }

  /** A plain address matches, and so does one inside other words and spaces. */
  lemma EmailFormatVectors()
    ensures EmailFormat("a@b.c")
    ensures EmailFormat("메일 a@b.c 입니다")
  {
    SiteHasEmailFormat("a@b.c", 1, 3);
    EmailFormatUnanchored("메일 ", "a@b.c", " 입니다");
    assert "메일 " + "a@b.c" + " 입니다" == "메일 a@b.c 입니다";
  }

  /** A space before the `@`, or no `.` after it, defeats the pattern. */
  lemma EmailFormatRejects()
    ensures !EmailFormat("a @b.c")
    ensures !EmailFormat("a@b")
  {
    EmailFormatIffSite("a @b.c");
    EmailFormatIffSite("a@b");
    if exists at, dot :: EmailAt("a @b.c", at, dot) {
      assert false;
    }
  }

  // ---------------------------------------------------------------------
  // The checks and their order
  // ---------------------------------------------------------------------

  /** The reasons a form is refused, in the order they are checked. */
  datatype Problem =
    | EmailMissing
    | PasswordMissing
    | ConfirmationMissing
    | EmailMalformed
    | PasswordShort
    | PasswordMismatch

  /** The position of the check in the chain. */
  function Rank(p: Problem): nat {
    match p
    case EmailMissing => 0
    case PasswordMissing => 1
    case ConfirmationMissing => 2
    case EmailMalformed => 3
    case PasswordShort => 4
    case PasswordMismatch => 5
  }

  /** The message each check sets. */
  function Message(p: Problem): string {
    match p
    case EmailMissing => "이메일을 입력해주세요."
    case PasswordMissing => "비밀번호를 입력해주세요."
    case ConfirmationMissing => "비밀번호 확인을 입력해주세요."
    case EmailMalformed => "올바른 이메일 형식을 입력해주세요."
    case PasswordShort => "비밀번호는 최소 6자리 이상이어야 합니다."
    case PasswordMismatch => "비밀번호와 비밀번호 확인이 일치하지 않습니다."
  }

  /** The shortest password the sign-up form takes. */
  const MIN_PASSWORD := 6

  const REGISTER_FAILED := "회원가입 중 오류가 발생했습니다. 다시 시도해주세요."
  const LOGIN_FAILED := "로그인 중 오류가 발생했습니다. 다시 시도해주세요."

  datatype RegisterForm = RegisterForm(email: string, password: string, confirmation: string)

  /**
   * When each check of the sign-up form fails. The blank checks look at
   * the trimmed text; the length and mismatch checks at the text as typed.
   */
  predicate RegisterFails(f: RegisterForm, p: Problem) {
    match p
    case EmailMissing => Trim(f.email) == []
    case PasswordMissing => Trim(f.password) == []
    case ConfirmationMissing => Trim(f.confirmation) == []
    case EmailMalformed => !EmailFormat(f.email)
    case PasswordShort => |f.password| < MIN_PASSWORD
    case PasswordMismatch => f.password != f.confirmation
  }

  /**
   * `validateForm` of the sign-up page: the first failing check in chain
   * order, or none when every check passes.
   */
  function RegisterProblem(f: RegisterForm): (r: Option<Problem>)
    ensures r.Some? ==> RegisterFails(f, r.value)
    ensures r.Some? ==> forall p :: Rank(p) < Rank(r.value) ==> !RegisterFails(f, p)
    ensures r.None? <==> forall p :: !RegisterFails(f, p)
  {
    if Trim(f.email) == [] then assert RegisterFails(f, EmailMissing); Some(EmailMissing)
    else if Trim(f.password) == [] then assert RegisterFails(f, PasswordMissing); Some(PasswordMissing)
    else if Trim(f.confirmation) == [] then assert RegisterFails(f, ConfirmationMissing); Some(ConfirmationMissing)
    else if !EmailFormat(f.email) then assert RegisterFails(f, EmailMalformed); Some(EmailMalformed)
    else if |f.password| < MIN_PASSWORD then assert RegisterFails(f, PasswordShort); Some(PasswordShort)
    else if f.password != f.confirmation then assert RegisterFails(f, PasswordMismatch); Some(PasswordMismatch)
    else None
  }

  datatype LoginForm = LoginForm(email: string, password: string)

  /** The sign-in form runs three of the checks; the others never fail there. */
  predicate LoginFails(f: LoginForm, p: Problem) {
    match p
    case EmailMissing => Trim(f.email) == []
    case PasswordMissing => Trim(f.password) == []
    case EmailMalformed => !EmailFormat(f.email)
    case _ => false
  }

  /** `validateForm` of the sign-in page: the first failing check, or none. */
  function LoginProblem(f: LoginForm): (r: Option<Problem>)
    ensures r.Some? ==> LoginFails(f, r.value)
    ensures r.Some? ==> forall p :: Rank(p) < Rank(r.value) ==> !LoginFails(f, p)
    ensures r.None? <==> forall p :: !LoginFails(f, p)
  {
    if Trim(f.email) == [] then assert LoginFails(f, EmailMissing); Some(EmailMissing)
    else if Trim(f.password) == [] then assert LoginFails(f, PasswordMissing); Some(PasswordMissing)
    else if !EmailFormat(f.email) then assert LoginFails(f, EmailMalformed); Some(EmailMalformed)
    else None
  }

  /** A blank check fails exactly on a field of whitespace only. */
  lemma BlankChecksAreBlank(f: RegisterForm)
    ensures RegisterFails(f, EmailMissing) <==> IsBlank(f.email)
    ensures RegisterFails(f, PasswordMissing) <==> IsBlank(f.password)
    ensures RegisterFails(f, ConfirmationMissing) <==> IsBlank(f.confirmation)
  {
    TrimEmptyIffBlank(f.email);
    TrimEmptyIffBlank(f.password);
    TrimEmptyIffBlank(f.confirmation);
  }

  /** What the sign-up form accepts, the sign-in form accepts as well. */
  lemma RegisterValidIsLoginValid(f: RegisterForm)
    requires RegisterProblem(f).None?
    ensures LoginProblem(LoginForm(f.email, f.password)).None?
  {
    assert forall p :: !RegisterFails(f, p);
    assert !RegisterFails(f, EmailMissing) && !RegisterFails(f, PasswordMissing) && !RegisterFails(f, EmailMalformed);
  }

  /** The two forms report the same problem for the checks they share. */
  lemma LoginSharesRegisterPrefix(f: RegisterForm)
    requires RegisterProblem(f).Some? && RegisterProblem(f).value in {EmailMissing, PasswordMissing}
    ensures LoginProblem(LoginForm(f.email, f.password)) == RegisterProblem(f)
  {
  }

  /** Sign-in has no length check: a one-character password passes there but not at sign-up. */
  lemma LoginHasNoLengthCheck()
    ensures LoginProblem(LoginForm("a@b.c", "x")).None?
    ensures RegisterProblem(RegisterForm("a@b.c", "x", "x")) == Some(PasswordShort)
  {
    EmailFormatVectors();
    BlankChecksAreBlank(RegisterForm("a@b.c", "x", "x"));
    assert !IsSpace("a@b.c"[0]) && !IsSpace("x"[0]);
  }

  /**
   * Once a sign-up form has no blank field, a matching email and a long
   * enough password, it is valid exactly when the two passwords are equal.
   */
  lemma LastCheckIsEquality(f: RegisterForm)
    requires !IsBlank(f.email) && !IsBlank(f.password) && !IsBlank(f.confirmation)
    requires EmailFormat(f.email) && |f.password| >= MIN_PASSWORD
    ensures RegisterProblem(f) == (if f.password == f.confirmation then None else Some(PasswordMismatch))
  {
    BlankChecksAreBlank(f);
  }

  /** The length is counted before trimming: five spaces and a letter are long enough. */
  lemma LengthUntrimmed()
    ensures RegisterProblem(RegisterForm("a@b.c", "     a", "     a")).None?
  {
    var f := RegisterForm("a@b.c", "     a", "     a");
    EmailFormatVectors();
    assert !IsSpace(f.email[0]) && !IsSpace(f.password[5]) && !IsSpace(f.confirmation[5]);
    LastCheckIsEquality(f);
  }

  /** The confirmation must match to the character: a trailing space is a mismatch. */
  lemma MismatchExact()
    ensures RegisterProblem(RegisterForm("a@b.c", "secret", "secret ")) == Some(PasswordMismatch)
  {
    var f := RegisterForm("a@b.c", "secret", "secret ");
    EmailFormatVectors();
    assert !IsSpace(f.email[0]) && !IsSpace(f.password[0]) && !IsSpace(f.confirmation[0]);
    assert |f.password| != |f.confirmation|;
    LastCheckIsEquality(f);
  }

  /** An empty form stops at the first check, whatever else is wrong. */
  lemma EmptyFormNeedsEmail()
    ensures RegisterProblem(RegisterForm("", "", "")) == Some(EmailMissing)
    ensures LoginProblem(LoginForm("", "")) == Some(EmailMissing)
  {
  }

  // ---------------------------------------------------------------------
  // The page: editing, submitting, the server's answer
  // ---------------------------------------------------------------------

  datatype Field = EmailField | PasswordField | ConfirmationField

  datatype RegisterPage = RegisterPage(form: RegisterForm, loading: bool, error: string)

  /** `handleInputChange`: the named field takes the new value and the message is cleared. */
  function RegisterChange(page: RegisterPage, field: Field, value: string): (r: RegisterPage)
    ensures r.error == [] && r.loading == page.loading
    ensures r.form.email == (if field == EmailField then value else page.form.email)
    ensures r.form.password == (if field == PasswordField then value else page.form.password)
    ensures r.form.confirmation == (if field == ConfirmationField then value else page.form.confirmation)
  {
    var form := match field
      case EmailField => page.form.(email := value)
      case PasswordField => page.form.(password := value)
      case ConfirmationField => page.form.(confirmation := value);
    RegisterPage(form, page.loading, if page.error != [] then [] else page.error)
  }

  /** The page after a submit, and the request sent to the server, if any. */
  datatype Submitted<F, P> = Submitted(page: P, request: Option<F>)

  /**
   * `handleSubmit`: a form that fails a check shows that check's message
   * and sends nothing; a valid form is sent as typed, with the page
   * loading and the message cleared.
   */
  function RegisterSubmit(page: RegisterPage): (r: Submitted<RegisterForm, RegisterPage>)
    ensures r.request.Some? <==> RegisterProblem(page.form).None?
    ensures r.request.Some? ==> r.request.value == page.form && r.page == page.(loading := true, error := [])
    ensures r.request.None? ==> r.page == page.(error := Message(RegisterProblem(page.form).value))
  {
    match RegisterProblem(page.form)
    case Some(p) => Submitted(page.(error := Message(p)), None)
    case None => Submitted(page.(loading := true, error := []), Some(page.form))
  }

  /**
   * The server refused the request: the error's own message if it has a
   * non-empty one, otherwise the page's fallback, and loading ends.
   */
  function Failed<F>(form: F, message: Option<string>, fallback: string): (r: (F, string))
    ensures r.0 == form
    ensures message.Some? && message.value != [] ==> r.1 == message.value
    ensures message.None? || message.value == [] ==> r.1 == fallback
  {
    (form, if message.Some? && message.value != [] then message.value else fallback)
  }

  function RegisterFailed(page: RegisterPage, message: Option<string>): (r: RegisterPage)
    ensures r.form == page.form && !r.loading
    ensures r.error == (if message.Some? && message.value != [] then message.value else REGISTER_FAILED)
  {
    var (form, error) := Failed(page.form, message, REGISTER_FAILED);
    RegisterPage(form, false, error)
  }

  /** A message set by a failed check lasts only until the next edit. */
  lemma EditClearsRegisterError(page: RegisterPage, field: Field, value: string)
    requires RegisterSubmit(page).request.None?
    ensures RegisterSubmit(page).page.error != []
    ensures RegisterChange(RegisterSubmit(page).page, field, value).error == []
  {
    var p := RegisterProblem(page.form).value;
    assert Message(p)[0] != ' ';
  }

  /** The sign-in page has two inputs. */
  datatype LoginField = LoginEmail | LoginPassword

  datatype LoginPage = LoginPage(form: LoginForm, loading: bool, error: string)

  /** `handleInputChange` of the sign-in page. */
  function LoginChange(page: LoginPage, field: LoginField, value: string): (r: LoginPage)
    ensures r.error == [] && r.loading == page.loading
    ensures r.form.email == (if field == LoginEmail then value else page.form.email)
    ensures r.form.password == (if field == LoginPassword then value else page.form.password)
  {
    var form := match field
      case LoginEmail => page.form.(email := value)
      case LoginPassword => page.form.(password := value);
    LoginPage(form, page.loading, if page.error != [] then [] else page.error)
  }

  /** `handleSubmit` of the sign-in page. */
  function LoginSubmit(page: LoginPage): (r: Submitted<LoginForm, LoginPage>)
    ensures r.request.Some? <==> LoginProblem(page.form).None?
    ensures r.request.Some? ==> r.request.value == page.form && r.page == page.(loading := true, error := [])
    ensures r.request.None? ==> r.page == page.(error := Message(LoginProblem(page.form).value))
  {
    match LoginProblem(page.form)
    case Some(p) => Submitted(page.(error := Message(p)), None)
    case None => Submitted(page.(loading := true, error := []), Some(page.form))
  }

  function LoginFailed(page: LoginPage, message: Option<string>): (r: LoginPage)
    ensures r.form == page.form && !r.loading
    ensures r.error == (if message.Some? && message.value != [] then message.value else LOGIN_FAILED)
  {
    var (form, error) := Failed(page.form, message, LOGIN_FAILED);
    LoginPage(form, false, error)
  }

  /** A message set by a failed sign-in check lasts only until the next edit. */
  lemma EditClearsLoginError(page: LoginPage, field: LoginField, value: string)
    requires LoginSubmit(page).request.None?
    ensures LoginSubmit(page).page.error != []
    ensures LoginChange(LoginSubmit(page).page, field, value).error == []
  {
    var p := LoginProblem(page.form).value;
    assert Message(p)[0] != ' ';
  }
}
