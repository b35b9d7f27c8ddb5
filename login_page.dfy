/** The sign-in form's checks: the table of known accounts, the per-field
    validation with its order of precedence, and the password-strength meter.
    The two regular expressions are written out as predicates over positions. */
module LoginPage {
  import opened Common

  /** The three demonstration accounts and their passwords. */
  function KnownPassword(email: string): (pw: Option<string>)
    ensures pw.Some? <==> email in {"admin@gym.com", "staff@gym.com", "trainer@gym.com"}
  {
    if email == "admin@gym.com" then Some("Admin123!")
    else if email == "staff@gym.com" then Some("Staff123!")
    else if email == "trainer@gym.com" then Some("Trainer123!")
    else None
  }

  /** JavaScript's `\s`: the white-space and line-terminator characters. */
  predicate IsSpace(c: char) {
    || c in {'\t', '\n', '\U{000B}', '\U{000C}', '\r', ' ', '\U{00A0}', '\U{1680}'}
    || '\U{2000}' <= c <= '\U{200A}'
    || c in {'\U{2028}', '\U{2029}', '\U{202F}', '\U{205F}', '\U{3000}', '\U{FEFF}'}
  }

  /** `/\S+@\S+\.\S+/.test(s)`: somewhere in `s`, a non-space, an '@', a run of
      non-spaces, a '.', and a non-space, all adjacent. */
  predicate EmailLike(s: string): (b: bool)
    ensures b ==> 5 <= |s| && '@' in s && '.' in s
  {
    exists at, dot :: 1 <= at && at + 2 <= dot && dot + 1 < |s| && EmailShapeAt(s, at, dot)
  }

  /** The '@' of the match at `at`, its '.' at `dot`. */
  predicate EmailShapeAt(s: string, at: int, dot: int)
    requires 1 <= at && at + 2 <= dot && dot + 1 < |s|
  {
    && s[at] == '@' && s[dot] == '.'
    && !IsSpace(s[at - 1]) && !IsSpace(s[dot + 1])
    && forall i :: at < i < dot ==> !IsSpace(s[i])
  }

  /** The characters the regular-expression `.` does not match. */
  predicate IsLineTerminator(c: char) {
    c == '\n' || c == '\r' || c == '\U{2028}' || c == '\U{2029}'
  }

  datatype CharClass = Lower | Upper | Digit | Special

  predicate InClass(c: char, k: CharClass) {
    match k
    case Lower => 'a' <= c <= 'z'
    case Upper => 'A' <= c <= 'Z'
    case Digit => '0' <= c <= '9'
    case Special => c in {'@', '$', '!', '%', '*', '?', '&'}
  }

  /** `[A-Za-z\d@$!%*?&]`. */
  predicate Allowed(c: char) {
    InClass(c, Lower) || InClass(c, Upper) || InClass(c, Digit) || InClass(c, Special)
  }

  /** `(?=.*[k])` at position `p`: a character of class `k` at or after `p`
      with no line terminator before it. */
  predicate AheadOnLine(s: string, p: int, k: CharClass) {
    exists q :: 0 <= p <= q < |s| && InClass(s[q], k) && OnOneLine(s, p, q)
  }

  /** No line terminator in `s[p..q]`. */
  predicate OnOneLine(s: string, p: int, q: int)
    requires 0 <= q <= |s|
  {
    forall r :: p <= r < q ==> 0 <= r && !IsLineTerminator(s[r])
  }

  /** The composition rule: at some position, all four lookaheads hold and the
      character there is one of the allowed ones. */
  predicate MeetsComposition(s: string): (b: bool)
    ensures b ==> HasClass(s, Lower) && HasClass(s, Upper) && HasClass(s, Digit) && HasClass(s, Special)
  {
    exists p :: 0 <= p < |s| &&
      Allowed(s[p]) && AheadOnLine(s, p, Lower) && AheadOnLine(s, p, Upper) &&
      AheadOnLine(s, p, Digit) && AheadOnLine(s, p, Special)
  }

  const EmailRequired: string := "Email is required"
  const EmailInvalid: string := "Email is invalid"
  const NoAccount: string := "No account found with this email"
  const PasswordRequired: string := "Password is required"
  const PasswordTooShort: string := "Password must be at least 8 characters"
  const PasswordWeak: string := "Password must include uppercase, lowercase, number and special character"
  const PasswordWrong: string := "Invalid password"

  /** The email field's error: required, then format, then account, first failing rule wins. */
  function EmailError(email: string): (e: Option<string>)
    ensures e.None? <==> email != "" && EmailLike(email) && KnownPassword(email).Some?
    ensures e == Some(EmailRequired) <==> email == ""
    ensures e == Some(EmailInvalid) <==> email != "" && !EmailLike(email)
    ensures e == Some(NoAccount) <==> email != "" && EmailLike(email) && KnownPassword(email).None?
  {
    if email == "" then Some(EmailRequired)
    else if !EmailLike(email) then Some(EmailInvalid)
    else if KnownPassword(email).None? then Some(NoAccount)
    else None
  }

  /** The password field's error: required, then length, then composition, then,
      for a known account only, the mismatch with its password. */
  function PasswordError(email: string, password: string): (e: Option<string>)
    ensures e == Some(PasswordRequired) <==> password == ""
    ensures e == Some(PasswordTooShort) <==> 0 < |password| < 8
    ensures e == Some(PasswordWeak) <==> |password| >= 8 && !MeetsComposition(password)
    ensures e == Some(PasswordWrong) <==>
      |password| >= 8 && MeetsComposition(password) &&
      KnownPassword(email).Some? && password != KnownPassword(email).value
    ensures e.None? ==> |password| >= 8 && MeetsComposition(password)
    ensures e.None? && KnownPassword(email).Some? ==> password == KnownPassword(email).value
  {
    if password == "" then Some(PasswordRequired)
    else if |password| < 8 then Some(PasswordTooShort)
    else if !MeetsComposition(password) then Some(PasswordWeak)
    else if KnownPassword(email).Some? && password != KnownPassword(email).value then Some(PasswordWrong)
    else None
  }

  datatype FormErrors = FormErrors(email: Option<string>, password: Option<string>)

  /** validateForm: both fields' errors, and whether there are none. */
  function ValidateForm(email: string, password: string): (r: (FormErrors, bool))
    ensures r.1 <==> r.0 == FormErrors(None, None)
    ensures r.1 ==> KnownPassword(email) == Some(password)
  {
    var errs := FormErrors(EmailError(email), PasswordError(email, password));
    (errs, errs.email.None? && errs.password.None?)
  }

  /** A lowercase, an uppercase, a digit and a special character all sit at or
      after position 0 of `s`, on one line. */
  lemma {:induction false} ComposedAtStart(s: string, lo: nat, up: nat, dg: nat, sp: nat)
    requires lo < |s| && up < |s| && dg < |s| && sp < |s|
    requires OnOneLine(s, 0, |s|)
    requires Allowed(s[0])
    requires InClass(s[lo], Lower) && InClass(s[up], Upper) && InClass(s[dg], Digit) && InClass(s[sp], Special)
    ensures MeetsComposition(s)
  {
    assert AheadOnLine(s, 0, Lower) && AheadOnLine(s, 0, Upper);
    assert AheadOnLine(s, 0, Digit) && AheadOnLine(s, 0, Special);
  }

  /** A demonstration account's own email and password pass every check, given
      where the email's '@' and '.' sit and where the password's lowercase,
      uppercase, digit and special characters are. */
  lemma {:induction false} DemoAccountPasses(email: string, at: int, dot: int, lo: nat, up: nat, dg: nat, sp: nat)
    requires KnownPassword(email).Some?
    requires 1 <= at && at + 2 <= dot && dot + 1 < |email| && EmailShapeAt(email, at, dot)
    requires var pw := KnownPassword(email).value;
      && 8 <= |pw| && lo < |pw| && up < |pw| && dg < |pw| && sp < |pw|
      && OnOneLine(pw, 0, |pw|) && Allowed(pw[0])
      && InClass(pw[lo], Lower) && InClass(pw[up], Upper) && InClass(pw[dg], Digit) && InClass(pw[sp], Special)
    ensures ValidateForm(email, KnownPassword(email).value).1
  {
    var pw := KnownPassword(email).value;
    ComposedAtStart(pw, lo, up, dg, sp);
  }

  lemma AdminAccountPasses()
    ensures ValidateForm("admin@gym.com", "Admin123!").1
  {
    DemoAccountPasses("admin@gym.com", 5, 9, 1, 0, 5, 8);
  }

  lemma StaffAccountPasses()
    ensures ValidateForm("staff@gym.com", "Staff123!").1
  {
    DemoAccountPasses("staff@gym.com", 5, 9, 2, 0, 6, 8);
  }

  lemma TrainerAccountPasses()
    ensures ValidateForm("trainer@gym.com", "Trainer123!").1
  {
    DemoAccountPasses("trainer@gym.com", 7, 11, 3, 0, 9, 10);
  }

  /** Every account of the table passes the form with its own password. */
  lemma DemoAccountsPass(email: string)
    requires KnownPassword(email).Some?
    ensures ValidateForm(email, KnownPassword(email).value).1
  {
    if email == "admin@gym.com" {
      AdminAccountPasses();
    } else if email == "staff@gym.com" {
      StaffAccountPasses();
    } else {
      TrainerAccountPasses();
    }
  }

  /** A known account's email with anything but its own password fails on the
      password, once the password otherwise qualifies. */
  lemma {:induction false} WrongPasswordIsRejected(email: string, password: string)
    requires KnownPassword(email).Some? && password != KnownPassword(email).value
    requires |password| >= 8 && MeetsComposition(password)
    ensures ValidateForm(email, password).0.password == Some(PasswordWrong)
    ensures !ValidateForm(email, password).1
  {
  }

  /** The strength meter's labels, indexed by the score. */
  const StrengthLabels: seq<string> := ["", "Very Weak", "Weak", "Fair", "Strong", "Very Strong"]

  predicate HasClass(s: string, k: CharClass) {
    exists i :: 0 <= i < |s| && InClass(s[i], k)
  }

  function Point(b: bool): nat {
    if b then 1 else 0
  }

  /** The strength meter's five criteria: a length of at least 8, and one
      character of each class. */
  datatype Criterion = Long | OfClass(k: CharClass)

  const AllCriteria: seq<Criterion> := [Long, OfClass(Upper), OfClass(Lower), OfClass(Digit), OfClass(Special)]

  predicate Meets(pass: string, c: Criterion) {
    match c
    case Long => |pass| >= 8
    case OfClass(k) => HasClass(pass, k)
  }

  /** The criteria of `cs` that a password meets, in their order. */
  function MetCriteria(pass: string, cs: seq<Criterion>): (r: seq<Criterion>)
    ensures |r| <= |cs|
    ensures forall c :: c in r <==> c in cs && Meets(pass, c)
    decreases |cs|
  {
    if cs == [] then []
    else if Meets(pass, cs[0]) then [cs[0]] + MetCriteria(pass, cs[1..])
    else MetCriteria(pass, cs[1..])
  }

  /** Adding one point per criterion counts the criteria met. */
  lemma {:induction false} PointsCountCriteria(pass: string)
    ensures |MetCriteria(pass, AllCriteria)| ==
      Point(|pass| >= 8) + Point(HasClass(pass, Upper)) + Point(HasClass(pass, Lower))
      + Point(HasClass(pass, Digit)) + Point(HasClass(pass, Special))
  {
    var cs := AllCriteria;
    assert cs[1..][1..][1..][1..][1..] == [];
    assert |MetCriteria(pass, cs[1..][1..][1..][1..])| == Point(HasClass(pass, Special));
    assert |MetCriteria(pass, cs[1..][1..][1..])| == Point(HasClass(pass, Digit)) + Point(HasClass(pass, Special));
    assert |MetCriteria(pass, cs[1..][1..])| ==
      Point(HasClass(pass, Lower)) + Point(HasClass(pass, Digit)) + Point(HasClass(pass, Special));
    assert |MetCriteria(pass, cs[1..])| == Point(HasClass(pass, Upper)) +
      Point(HasClass(pass, Lower)) + Point(HasClass(pass, Digit)) + Point(HasClass(pass, Special));
  }

  /** getPasswordStrength: the number of criteria met, labelled by that score;
      nothing for an empty password. */
  function PasswordStrength(pass: string): (r: (nat, string))
    ensures pass != "" ==> r.0 == |MetCriteria(pass, AllCriteria)|
    ensures r.0 <= 5 && r.1 == StrengthLabels[r.0]
    ensures pass == "" ==> r == (0, "")
    ensures r.0 == 5 <==> |pass| >= 8 && HasClass(pass, Upper) && HasClass(pass, Lower)
                          && HasClass(pass, Digit) && HasClass(pass, Special)
  {
    if pass == "" then (0, "")
    else
      var strength := Point(|pass| >= 8) + Point(HasClass(pass, Upper)) + Point(HasClass(pass, Lower))
                    + Point(HasClass(pass, Digit)) + Point(HasClass(pass, Special));
      PointsCountCriteria(pass);
      (strength, StrengthLabels[strength])
  }

  /** Two readings of the meter: a short lowercase word is "Very Weak", a short
      word with an uppercase letter, lowercase letters and a digit is "Fair". */
  lemma StrengthExamples()
    ensures PasswordStrength("abc") == (1, "Very Weak")
    ensures PasswordStrength("Abc1") == (3, "Fair")
  {
    var weak, fair := "abc", "Abc1";
    assert HasClass(weak, Lower) by { assert InClass(weak[0], Lower); }
    assert !HasClass(weak, Upper) && !HasClass(weak, Digit) && !HasClass(weak, Special);
    assert HasClass(fair, Upper) by { assert InClass(fair[0], Upper); }
    assert HasClass(fair, Lower) by { assert InClass(fair[1], Lower); }
    assert HasClass(fair, Digit) by { assert InClass(fair[3], Digit); }
    assert !HasClass(fair, Special);
  }

  /** Every password the form accepts shows as "Very Strong". */
  lemma {:induction false} AcceptedPasswordIsVeryStrong(email: string, password: string)
    requires PasswordError(email, password).None?
    ensures PasswordStrength(password) == (5, "Very Strong")
  {
  }

  /** A non-empty email without an '@' is reported as malformed. */
  lemma {:induction false} WithoutAtIsInvalid(email: string)
    requires email != "" && '@' !in email
    ensures EmailError(email) == Some(EmailInvalid)
  {
  }
}
