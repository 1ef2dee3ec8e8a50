/**
 * The registration page: the client-side password regex
 *   ^(?=.*[a-z])(?=.*[A-Z])(?=.*\d)(?=.*[@$!%*?&])[A-Za-z\d@$!%*?&]{8,}$
 * and the submit handler that refuses a password failing it before any
 * request is made. The profile page uses the same regex.
 */
module RegisterPage {
  import AR = AuthRoutes

  predicate IsAsciiLower(c: char) { 'a' <= c <= 'z' }
  predicate IsAsciiUpper(c: char) { 'A' <= c <= 'Z' }
  /** `\d` without the `u` flag. */
  predicate IsAsciiDigit(c: char) { '0' <= c <= '9' }
  /** The class `[@$!%*?&]`. */
  predicate IsRegexSymbol(c: char) {
    c == '@' || c == '$' || c == '!' || c == '%' || c == '*' || c == '?' || c == '&'
  }
  /** The class `[A-Za-z\d@$!%*?&]`. */
  predicate InAlphabet(c: char) {
    IsAsciiLower(c) || IsAsciiUpper(c) || IsAsciiDigit(c) || IsRegexSymbol(c)
  }

  /** The characters `.` does not match. */
  predicate IsLineTerminator(c: char) {
    c == '\n' || c == '\r' || c == '\U{2028}' || c == '\U{2029}'
  }

  /** `(?=.*[cls])` at the start of `s`: a character of the class follows a run free of line terminators. */
  predicate LookaheadFinds(s: string, cls: char -> bool) {
    exists i :: 0 <= i < |s| && cls(s[i]) && forall j :: 0 <= j < i ==> !IsLineTerminator(s[j])
  }

  /** `regex.test(password)`, read off the regex's parts. */
  predicate ValidatePassword(s: string) {
    && LookaheadFinds(s, IsAsciiLower)
    && LookaheadFinds(s, IsAsciiUpper)
    && LookaheadFinds(s, IsAsciiDigit)
    && LookaheadFinds(s, IsRegexSymbol)
    && |s| >= 8
    && forall i :: 0 <= i < |s| ==> InAlphabet(s[i])
  }

  /**
   * What the regex accepts: at least 8 characters, all from
   * `A-Za-z0-9@$!%*?&`, with at least one of each of the four classes.
   */
  lemma ValidatePasswordIff(s: string)
    ensures ValidatePassword(s) <==>
              && |s| >= 8
              && (forall i :: 0 <= i < |s| ==> InAlphabet(s[i]))
              && (exists i :: 0 <= i < |s| && IsAsciiLower(s[i]))
              && (exists i :: 0 <= i < |s| && IsAsciiUpper(s[i]))
              && (exists i :: 0 <= i < |s| && IsAsciiDigit(s[i]))
              && (exists i :: 0 <= i < |s| && IsRegexSymbol(s[i]))
  {
  }

  /** `#` is outside the regex's alphabet, so this password is refused on the client. */
  lemma HashSignRefused()
    ensures !ValidatePassword("Aa1#aaaa")
  {
  }

  /** The server's character classes agree with the regex's letters and digits and count its symbols as symbols. */
  ghost predicate AsciiAgreement(cc: AR.CharClasses) {
    && (forall c :: cc.lower(c) <==> IsAsciiLower(c))
    && (forall c :: cc.upper(c) <==> IsAsciiUpper(c))
    && (forall c :: cc.digit(c) <==> IsAsciiDigit(c))
    && (forall c :: IsRegexSymbol(c) ==> cc.symbol(c))
  }

  /** Under that agreement a password the client accepts also passes the server's strength rule. */
  lemma ClientStrongIsServerStrong(cc: AR.CharClasses, s: string)
    requires AsciiAgreement(cc)
    requires ValidatePassword(s)
    ensures AR.IsStrongPassword(cc, AR.PasswordOptions, s)
  {
    ValidatePasswordIff(s);
    AR.PasswordPolicy(cc, s);
    var i :| 0 <= i < |s| && IsRegexSymbol(s[i]);
    assert cc.symbol(s[i]);
  }

  /** The converse fails: if the server's symbols include `#`, it accepts a password the client refuses. */
  lemma ServerAcceptsWhatClientRefuses(cc: AR.CharClasses)
    requires AsciiAgreement(cc)
    requires cc.symbol('#')
    ensures AR.IsStrongPassword(cc, AR.PasswordOptions, "Aa1#aaaa")
    ensures !ValidatePassword("Aa1#aaaa")
  {
    var s := "Aa1#aaaa";
    AR.PasswordPolicy(cc, s);
    assert cc.lower(s[1]) && cc.upper(s[0]) && cc.digit(s[2]) && cc.symbol(s[3]);
    HashSignRefused();
  }

  /** The form state. */
  datatype RegisterForm = RegisterForm(name: string, email: string, password: string)

  /** What submitting the form does. */
  datatype Submission = Refused(toast: string) | CallRegister(name: string, email: string, password: string)

  const WeakPasswordToast :=
    "Password must contain:\n- 8+ chars\n- 1 Uppercase (A-Z)\n- 1 Lowercase (a-z)\n- 1 Number (0-9)\n- 1 Special Char (@$!%*?&)"

  /** `handleSubmit`: a password failing the regex never reaches `register`. */
  function HandleSubmit(form: RegisterForm): (r: Submission)
    ensures r.CallRegister? <==> ValidatePassword(form.password)
    ensures r.CallRegister? ==> r.name == form.name && r.email == form.email && r.password == form.password
    ensures r.Refused? ==> r.toast == WeakPasswordToast
  {
    if !ValidatePassword(form.password) then Refused(WeakPasswordToast)
    else CallRegister(form.name, form.email, form.password)
  }
}
