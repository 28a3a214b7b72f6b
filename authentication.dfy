/**
 * The registration validators of auth/authentication.py.
 *
 * Each validator either raises `ValidationError` or returns `True`; here it
 * returns `Failure(e)` naming the check that failed, or `Success(true)`.
 *
 * The validators use `re.match` with patterns of the form `^...$`.  In
 * Python `$` matches at the end of the string and also just before a single
 * newline that ends it, so a pattern matches `s` exactly when its body
 * matches `DollarBody(s)`: `s` without one final newline.
 */
module Authentication {
  import opened Wrappers

  /** Which check rejected the input. */
  datatype ValidationError =
    | UsernameLength | UsernameCharacters
    | EmailRequired | EmailFormat
    | PasswordLength | PasswordUppercase | PasswordLowercase | PasswordDigit
    | PasswordMismatch

  /** The message each `ValidationError` is raised with. */
  function ErrorMessage(e: ValidationError): string {
    match e
    case UsernameLength => "Le nom d'utilisateur doit contenir entre 3 et 20 caractères."
    case UsernameCharacters => "Le nom d'utilisateur ne peut contenir que des lettres, chiffres et underscores."
    case EmailRequired => "L'email est requis."
    case EmailFormat => "Format d'email invalide."
    case PasswordLength => "Le mot de passe doit contenir au moins 8 caractères."
    case PasswordUppercase => "Le mot de passe doit contenir au moins une majuscule."
    case PasswordLowercase => "Le mot de passe doit contenir au moins une minuscule."
    case PasswordDigit => "Le mot de passe doit contenir au moins un chiffre."
    case PasswordMismatch => "Les mots de passe ne correspondent pas."
  }

  predicate Upper(c: char) { 'A' <= c <= 'Z' }
  predicate Lower(c: char) { 'a' <= c <= 'z' }
  predicate Digit(c: char) { '0' <= c <= '9' }
  predicate Letter(c: char) { Upper(c) || Lower(c) }

  /** `[a-zA-Z0-9_]` */
  predicate UsernameChar(c: char) { Letter(c) || Digit(c) || c == '_' }
  /** `[a-zA-Z0-9._%+-]` */
  predicate LocalChar(c: char) { Letter(c) || Digit(c) || c == '.' || c == '_' || c == '%' || c == '+' || c == '-' }
  /** `[a-zA-Z0-9.-]` */
  predicate DomainChar(c: char) { Letter(c) || Digit(c) || c == '.' || c == '-' }

  predicate AllUsernameChars(s: string) { forall i :: 0 <= i < |s| ==> UsernameChar(s[i]) }
  predicate AllLocalChars(s: string) { forall i :: 0 <= i < |s| ==> LocalChar(s[i]) }
  predicate AllDomainChars(s: string) { forall i :: 0 <= i < |s| ==> DomainChar(s[i]) }
  predicate AllLetters(s: string) { forall i :: 0 <= i < |s| ==> Letter(s[i]) }

  /** What the body of a `^...$` pattern must match: `s` without one final newline. */
  function DollarBody(s: string): (body: string)
    ensures body == s || (|s| > 0 && s[|s| - 1] == '\n' && body == s[..|s| - 1])
    ensures |body| > 0 && body[|body| - 1] != '\n' ==> body == s || s == body + "\n"
  {
    if |s| > 0 && s[|s| - 1] == '\n' then s[..|s| - 1] else s
  }

  /** The body of the username pattern, `[a-zA-Z0-9_]+`, over the whole of `t`. */
  predicate UsernameShape(t: string) {
    |t| > 0 && AllUsernameChars(t)
  }

  /**
   * `validate_username`: the length check (which an empty name fails), then
   * the pattern `^[a-zA-Z0-9_]+$`.
   */
  function ValidateUsername(username: string): (r: Result<bool, ValidationError>)
    ensures r.Success? ==> r.value
    ensures r == Failure(UsernameLength) <==> |username| < 3 || |username| > 20
    ensures r == Failure(UsernameCharacters) <==> 3 <= |username| <= 20 && !UsernameShape(DollarBody(username))
    ensures r.Success? <==> 3 <= |username| <= 20 && UsernameShape(DollarBody(username))
  {
    if |username| == 0 || |username| < 3 || |username| > 20 then Failure(UsernameLength)
    else if !UsernameShape(DollarBody(username)) then Failure(UsernameCharacters)
    else Success(true)
  }

  /**
   * The body of the email pattern, `[a-zA-Z0-9._%+-]+@[a-zA-Z0-9.-]+\.[a-zA-Z]{2,}`,
   * over the whole of `t`: a local part, `@`, a domain, a dot and at least two letters.
   */
  ghost predicate EmailShape(t: string) {
    exists at, dot :: 0 < at && at + 1 < dot && dot + 2 < |t|
      && t[at] == '@' && t[dot] == '.'
      && AllLocalChars(t[..at]) && AllDomainChars(t[at + 1..dot]) && AllLetters(t[dot + 1..])
  }

  /** Index of the first `c` in `s`, if any. */
  function FirstIndexOf(s: string, c: char): (r: Option<nat>)
    ensures r.None? ==> forall i :: 0 <= i < |s| ==> s[i] != c
    ensures r.Some? ==> r.value < |s| && s[r.value] == c && forall i :: 0 <= i < r.value ==> s[i] != c
  {
    if |s| == 0 then None
    else if s[0] == c then Some(0)
    else
      match FirstIndexOf(s[1..], c)
      case None => None
      case Some(i) => Some(i + 1)
  }

  /** Index of the last `c` in `s`, if any. */
  function LastIndexOf(s: string, c: char): (r: Option<nat>)
    ensures r.None? ==> forall i :: 0 <= i < |s| ==> s[i] != c
    ensures r.Some? ==> r.value < |s| && s[r.value] == c && forall i :: r.value < i < |s| ==> s[i] != c
  {
    if |s| == 0 then None
    else if s[|s| - 1] == c then Some(|s| - 1)
    else LastIndexOf(s[..|s| - 1], c)
  }

  /**
   * A matcher for the email body without backtracking: the `@` is the first
   * one (no class contains `@`), and the dot before the letters is the last
   * one (the letters contain no dot).
   */
  function MatchEmailShape(t: string): (b: bool) {
    match FirstIndexOf(t, '@')
    case None => false
    case Some(at) =>
      var rest := t[at + 1..];
      match LastIndexOf(rest, '.')
      case None => false
      case Some(dot) =>
        0 < at && 0 < dot && dot + 3 <= |rest|
        && AllLocalChars(t[..at]) && AllDomainChars(rest[..dot]) && AllLetters(rest[dot + 1..])
  }

  /** The matcher accepts exactly the strings of the email shape. */
  lemma MatchEmailShapeCorrect(t: string)
    ensures MatchEmailShape(t) <==> EmailShape(t)
  {
    MatchEmailShapeSound(t);
    if EmailShape(t) {
      var at, dot :| 0 < at && at + 1 < dot && dot + 2 < |t|
        && t[at] == '@' && t[dot] == '.'
        && AllLocalChars(t[..at]) && AllDomainChars(t[at + 1..dot]) && AllLetters(t[dot + 1..]);
      MatchEmailShapeComplete(t, at, dot);
    }
  }

  /** Any split of the email shape is the one the matcher finds. */
  lemma MatchEmailShapeComplete(t: string, at: nat, dot: nat)
    requires 0 < at && at + 1 < dot && dot + 2 < |t|
    requires t[at] == '@' && t[dot] == '.'
    requires AllLocalChars(t[..at]) && AllDomainChars(t[at + 1..dot]) && AllLetters(t[dot + 1..])
    ensures MatchEmailShape(t)
  {
    ShapeFixesAt(t, at);
    ShapeFixesDot(t, at, dot);
    var rest := t[at + 1..];
    assert rest[..dot - at - 1] == t[at + 1..dot];
    assert rest[dot - at..] == t[dot + 1..];
  }

  /** Whatever the matcher accepts has the email shape. */
  lemma MatchEmailShapeSound(t: string)
    ensures MatchEmailShape(t) ==> EmailShape(t)
  {
    if MatchEmailShape(t) {
      var at := FirstIndexOf(t, '@').value;
      var rest := t[at + 1..];
      var dot := LastIndexOf(rest, '.').value;
      assert t[at + 1..at + 1 + dot] == rest[..dot];
      assert t[at + 1 + dot + 1..] == rest[dot + 1..];
      assert t[at + 1 + dot] == '.';
    }
  }

  /** With a local part before it, an `@` at `at` is the first `@`. */
  lemma ShapeFixesAt(t: string, at: nat)
    requires at < |t| && t[at] == '@' && AllLocalChars(t[..at])
    ensures FirstIndexOf(t, '@') == Some(at)
  {
    forall i | 0 <= i < at
      ensures t[i] != '@'
    {
      assert LocalChar(t[..at][i]);
    }
  }

  /** With letters after it, the dot at `dot` is the last dot after the `@` at `at`. */
  lemma ShapeFixesDot(t: string, at: nat, dot: nat)
    requires at + 1 < dot < |t| && t[dot] == '.' && AllLetters(t[dot + 1..])
    ensures LastIndexOf(t[at + 1..], '.') == Some(dot - at - 1)
  {
    var rest := t[at + 1..];
    forall i | dot - at - 1 < i < |rest|
      ensures rest[i] != '.'
    {
      assert Letter(t[dot + 1..][i - (dot - at)]);
    }
  }

  /** An address of the email shape holds no newline and ends in a letter. */
  lemma EmailShapeCharacters(t: string)
    ensures EmailShape(t) ==> |t| > 0 && Letter(t[|t| - 1]) && forall j :: 0 <= j < |t| ==> t[j] != '\n'
  {
    if EmailShape(t) {
      var at, dot :| 0 < at && at + 1 < dot && dot + 2 < |t|
        && t[at] == '@' && t[dot] == '.'
        && AllLocalChars(t[..at]) && AllDomainChars(t[at + 1..dot]) && AllLetters(t[dot + 1..]);
      SplitCharacters(t, at, dot);
    }
  }

  /** No part of an email split holds a newline, and the letters end it. */
  lemma SplitCharacters(t: string, at: nat, dot: nat)
    requires at < dot < |t| - 1 && t[at] == '@' && t[dot] == '.'
    requires AllLocalChars(t[..at]) && AllDomainChars(t[at + 1..dot]) && AllLetters(t[dot + 1..])
    ensures Letter(t[|t| - 1]) && forall j :: 0 <= j < |t| ==> t[j] != '\n'
  {
    forall j | 0 <= j < |t|
      ensures t[j] != '\n'
    {
      if j < at {
        assert LocalChar(t[..at][j]);
      } else if at < j < dot {
        assert DomainChar(t[at + 1..dot][j - at - 1]);
      } else if dot < j {
        assert Letter(t[dot + 1..][j - dot - 1]);
      }
    }
    assert Letter(t[dot + 1..][|t| - dot - 2]);
  }

  /** `validate_email`: required, then the pattern `^[a-zA-Z0-9._%+-]+@[a-zA-Z0-9.-]+\.[a-zA-Z]{2,}$`. */
  function ValidateEmail(email: string): (r: Result<bool, ValidationError>)
    ensures r.Success? ==> r.value
    ensures r == Failure(EmailRequired) <==> email == ""
    ensures r == Failure(EmailFormat) <==> email != "" && !EmailShape(DollarBody(email))
    ensures r.Success? <==> EmailShape(DollarBody(email))
  {
    MatchEmailShapeCorrect(DollarBody(email));
    if email == "" then Failure(EmailRequired)
    else if !MatchEmailShape(DollarBody(email)) then Failure(EmailFormat)
    else Success(true)
  }

  predicate HasUpper(s: string) { exists i :: 0 <= i < |s| && Upper(s[i]) }
  predicate HasLower(s: string) { exists i :: 0 <= i < |s| && Lower(s[i]) }
  predicate HasDigit(s: string) { exists i :: 0 <= i < |s| && Digit(s[i]) }

  /**
   * `validate_password`: at least eight characters, then an uppercase
   * letter, a lowercase letter and a digit, the first missing one deciding
   * the error.
   */
  function ValidatePassword(password: string): (r: Result<bool, ValidationError>)
    ensures r.Success? ==> r.value
    ensures r.Success? <==> |password| >= 8 && HasUpper(password) && HasLower(password) && HasDigit(password)
    ensures r == Failure(PasswordLength) <==> |password| < 8
    ensures r == Failure(PasswordUppercase) <==> |password| >= 8 && !HasUpper(password)
    ensures r == Failure(PasswordLowercase) <==> |password| >= 8 && HasUpper(password) && !HasLower(password)
    ensures (r == Failure(PasswordDigit)) <==>
              |password| >= 8 && HasUpper(password) && HasLower(password) && !HasDigit(password)
  {
    if |password| == 0 || |password| < 8 then Failure(PasswordLength)
    else if !HasUpper(password) then Failure(PasswordUppercase)
    else if !HasLower(password) then Failure(PasswordLowercase)
    else if !HasDigit(password) then Failure(PasswordDigit)
    else Success(true)
  }

  /**
   * `validate_registration`: username, email and password in that order,
   * then the confirmation; the first failure is reported.
   */
  function ValidateRegistration(username: string, email: string, password: string, confirm: string)
    : (r: Result<bool, ValidationError>)
    ensures r.Success? ==> r.value
    ensures r.Success? <==> ValidateUsername(username).Success? && ValidateEmail(email).Success?
                            && ValidatePassword(password).Success? && password == confirm
    ensures ValidateUsername(username).Failure? ==> r == ValidateUsername(username)
    ensures ValidateUsername(username).Success? && ValidateEmail(email).Failure? ==> r == ValidateEmail(email)
    ensures (ValidateUsername(username).Success? && ValidateEmail(email).Success? && ValidatePassword(password).Failure?) ==>
              r == ValidatePassword(password)
    ensures r == Failure(PasswordMismatch) <==> ValidateUsername(username).Success? && ValidateEmail(email).Success?
                                                && ValidatePassword(password).Success? && password != confirm
  {
    var u := ValidateUsername(username);
    if u.Failure? then u
    else
      var e := ValidateEmail(email);
      if e.Failure? then e
      else
        var p := ValidatePassword(password);
        if p.Failure? then p
        else if password != confirm then Failure(PasswordMismatch)
        else Success(true)
  }

  /** A well-formed address passes the email check. */
  lemma EmailExample()
    ensures ValidateEmail("a@b.fr") == Success(true)
  {
    var e := "a@b.fr";
    assert e[..1] == "a" && e[2..3] == "b" && e[4..] == "fr";
    assert EmailShape(e) by {
      assert e[1] == '@' && e[3] == '.';
    }
    assert DollarBody(e) == e;
  }

  /** A password with eight characters, a capital, a small letter and a digit passes. */
  lemma PasswordExample()
    ensures ValidatePassword("Secret123") == Success(true)
  {
    var p := "Secret123";
    assert Upper(p[0]) && Lower(p[1]) && Digit(p[6]);
  }

  /** Each check of a registration decides the outcome once the earlier ones pass. */
  lemma RegistrationReportsFirstFailure()
    ensures ValidateRegistration("ab", "", "short", "") == Failure(UsernameLength)
    ensures ValidateRegistration("alice", "", "short", "") == Failure(EmailRequired)
    ensures ValidateRegistration("alice", "a@b.fr", "short", "") == Failure(PasswordLength)
    ensures ValidateRegistration("alice", "a@b.fr", "Secret123", "Secret124") == Failure(PasswordMismatch)
  {
    assert ValidateUsername("alice") == Success(true) by {
      assert DollarBody("alice") == "alice";
    }
    EmailExample();
    PasswordExample();
  }

  // ---------------------------------------------------------------------
  // The trailing newline that `$` lets through, and the intended checks.
  // ---------------------------------------------------------------------

  /**
   * A name of 2 to 19 allowed characters followed by a newline passes
   * `validate_username`: the newline counts towards the length, and `$`
   * matches before it.  So does a two-character name, which the length rule
   * is meant to refuse.
   */
  lemma UsernameNewlineAccepted(name: string)
    requires 2 <= |name| <= 19 && AllUsernameChars(name)
    ensures ValidateUsername(name + "\n") == Success(true)
    ensures ValidateUsernameStrict(name + "\n") == Failure(UsernameCharacters)
    ensures ValidateUsernameStrict(name).Success? <==> |name| >= 3
  {
    var t := name + "\n";
    assert t[..|t| - 1] == name;
    assert !UsernameChar(t[|t| - 1]);
  }

  /** The two-character name "ab" passes once a newline follows it. */
  lemma ShortUsernameWithNewline()
    ensures ValidateUsername("ab\n") == Success(true)
    ensures ValidateUsernameStrict("ab").Failure?
  {
    assert "ab\n" == "ab" + "\n";
    UsernameNewlineAccepted("ab");
  }

  /** Every well-formed address followed by a newline passes `validate_email`. */
  lemma EmailNewlineAccepted(email: string)
    requires EmailShape(email)
    ensures ValidateEmail(email + "\n") == Success(true)
    ensures ValidateEmailStrict(email + "\n") == Failure(EmailFormat)
  {
    var t := email + "\n";
    assert t[..|t| - 1] == email;
    EmailShapeCharacters(t);
    assert t[|t| - 1] == '\n';
  }

  /** The username check as intended: 3 to 20 characters, every one a letter, digit or underscore. */
  function ValidateUsernameStrict(username: string): (r: Result<bool, ValidationError>)
    ensures r.Success? ==> r.value
    ensures r.Success? <==> 3 <= |username| <= 20 && AllUsernameChars(username)
    ensures r == Failure(UsernameLength) <==> |username| < 3 || |username| > 20
  {
    if |username| < 3 || |username| > 20 then Failure(UsernameLength)
    else if !UsernameShape(username) then Failure(UsernameCharacters)
    else Success(true)
  }

  /** The email check as intended: the whole address has the email shape. */
  function ValidateEmailStrict(email: string): (r: Result<bool, ValidationError>)
    ensures r.Success? ==> r.value
    ensures r.Success? <==> EmailShape(email)
    ensures r == Failure(EmailRequired) <==> email == ""
  {
    MatchEmailShapeCorrect(email);
    if email == "" then Failure(EmailRequired)
    else if !MatchEmailShape(email) then Failure(EmailFormat)
    else Success(true)
  }

  /** The strict checks accept no name or address containing a newline. */
  lemma StrictRejectsNewlines(username: string, email: string)
    requires '\n' in username && '\n' in email
    ensures ValidateUsernameStrict(username).Failure?
    ensures ValidateEmailStrict(email).Failure?
  {
    var i :| 0 <= i < |username| && username[i] == '\n';
    assert !UsernameChar(username[i]);
    var j :| 0 <= j < |email| && email[j] == '\n';
    EmailShapeCharacters(email);
  }

  /** On input that does not end in a newline the two versions agree. */
  lemma StrictAgreesWithoutFinalNewline(username: string, email: string)
    requires |username| == 0 || username[|username| - 1] != '\n'
    requires |email| == 0 || email[|email| - 1] != '\n'
    ensures ValidateUsernameStrict(username) == ValidateUsername(username)
    ensures ValidateEmailStrict(email) == ValidateEmail(email)
  {
  }
}
