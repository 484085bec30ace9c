/**
 * The sign-up page's own checks (register.js): the fields it trims, and
 * validateRegistrationData, which reports the first failing check in a fixed order.
 */
module RegisterValidation {
  import opened Wrappers
  import opened Strings

  /** The form as read from the page. */
  datatype SignupForm = SignupForm(userId: string, password: string, confirmPassword: string, name: string, email: string)

  /** The checks, in the order they run; each has its own message on the page. */
  datatype Check = UserIdLength | UserIdCharset | PasswordLength | PasswordMatch | NameLength | EmailShape

  /** The position of a check in the chain. */
  function Rank(c: Check): nat {
    match c
    case UserIdLength => 0
    case UserIdCharset => 1
    case PasswordLength => 2
    case PasswordMatch => 3
    case NameLength => 4
    case EmailShape => 5
  }

  /** handleRegistration trims userId, name and email; the two password fields are read as typed. */
  function Collect(raw: SignupForm): (f: SignupForm)
    ensures f.userId == Trim(raw.userId) && f.name == Trim(raw.name) && f.email == Trim(raw.email)
    ensures Trim(f.userId) == f.userId && Trim(f.name) == f.name && Trim(f.email) == f.email
    ensures f.password == raw.password && f.confirmPassword == raw.confirmPassword
  {
    TrimIdempotent(raw.userId);
    TrimIdempotent(raw.name);
    TrimIdempotent(raw.email);
    raw.(userId := Trim(raw.userId), name := Trim(raw.name), email := Trim(raw.email))
  }

  /** Collecting an already collected form changes nothing. */
  lemma CollectIdempotent(raw: SignupForm)
    ensures Collect(Collect(raw)) == Collect(raw)
  {
  }

  /** A character of the class [a-zA-Z0-9_]. */
  predicate IsWordChar(c: char) {
    'a' <= c <= 'z' || 'A' <= c <= 'Z' || '0' <= c <= '9' || c == '_'
  }

  predicate AllWordChars(s: string) {
    forall k :: 0 <= k < |s| ==> IsWordChar(s[k])
  }

  // ---------------------------------------------------------------------------------------
  // The e-mail pattern ^[^\s@]+@[^\s@]+\.[^\s@]+$

  /** A character of the class [^\s@]. */
  predicate Plain(c: char) {
    !IsJsWhitespace(c) && c != '@'
  }

  predicate AllPlain(s: string) {
    forall k :: 0 <= k < |s| ==> Plain(s[k])
  }

  /** The language of the pattern: a plain local part, '@', plain text, '.', plain text. */
  ghost predicate MatchesEmailPattern(s: string) {
    exists i, j :: 0 < i && i + 1 < j && j + 1 < |s| && s[i] == '@' && s[j] == '.' &&
      AllPlain(s[..i]) && AllPlain(s[i + 1..j]) && AllPlain(s[j + 1..])
  }

  /** The first position holding `c`. */
  function IndexOf(s: string, c: char): (r: Option<nat>)
    ensures r.Some? ==> r.value < |s| && s[r.value] == c && forall k :: 0 <= k < r.value ==> s[k] != c
    ensures r.None? ==> forall k :: 0 <= k < |s| ==> s[k] != c
  {
    if s == [] then None
    else if s[0] == c then Some(0)
    else
      match IndexOf(s[1..], c)
      case None => None
      case Some(i) => Some(i + 1)
  }

  /**
   * The pattern test, decided by splitting at the first '@': the part before it is a plain,
   * non-empty local part, and the rest is plain with a '.' strictly inside it.
   */
  predicate IsEmail(s: string) {
    match IndexOf(s, '@')
    case None => false
    case Some(i) =>
      var domain := s[i + 1..];
      0 < i && AllPlain(s[..i]) && AllPlain(domain) && |domain| >= 3 && '.' in domain[1..|domain| - 1]
  }

  lemma {:induction false} EmailSound(s: string)
    requires IsEmail(s)
    ensures MatchesEmailPattern(s)
  {
    var i := IndexOf(s, '@').value;
    var domain := s[i + 1..];
    var k :| 0 <= k < |domain[1..|domain| - 1]| && domain[1..|domain| - 1][k] == '.';
    var j := i + 2 + k;
    assert s[j] == '.';
    assert s[i + 1..j] == domain[..k + 1];
    assert s[j + 1..] == domain[k + 2..];
    assert AllPlain(s[i + 1..j]);
    assert AllPlain(s[j + 1..]);
  }

  lemma {:induction false} EmailComplete(s: string, i: nat, j: nat)
    requires 0 < i && i + 1 < j && j + 1 < |s| && s[i] == '@' && s[j] == '.'
    requires AllPlain(s[..i]) && AllPlain(s[i + 1..j]) && AllPlain(s[j + 1..])
    ensures IsEmail(s)
  {
    assert forall k :: 0 <= k < i ==> s[k] != '@' by {
      forall k | 0 <= k < i ensures s[k] != '@' {
        assert Plain(s[..i][k]);
      }
    }
    assert IndexOf(s, '@') == Some(i);
    var domain := s[i + 1..];
    assert domain == s[i + 1..j] + ['.'] + s[j + 1..];
    assert AllPlain(domain) by {
      forall k | 0 <= k < |domain| ensures Plain(domain[k]) {
        if k < j - i - 1 {
          assert domain[k] == s[i + 1..j][k];
        } else if k > j - i - 1 {
          assert domain[k] == s[j + 1..][k - (j - i)];
        }
      }
    }
    assert domain[1..|domain| - 1][j - i - 2] == '.';
  }

  /** The decision procedure accepts exactly the strings the pattern matches. */
  lemma EmailIff(s: string)
    ensures IsEmail(s) <==> MatchesEmailPattern(s)
  {
    if IsEmail(s) {
      EmailSound(s);
    }
    if MatchesEmailPattern(s) {
      var i, j :| 0 < i && i + 1 < j && j + 1 < |s| && s[i] == '@' && s[j] == '.' &&
        AllPlain(s[..i]) && AllPlain(s[i + 1..j]) && AllPlain(s[j + 1..]);
      EmailComplete(s, i, j);
    }
  }

  // ---------------------------------------------------------------------------------------
  // validateRegistrationData

  /** Whether a check rejects the form. JavaScript lengths are modelled as character counts. */
  predicate Fails(f: SignupForm, c: Check) {
    match c
    case UserIdLength => |f.userId| < 3 || |f.userId| > 20
    case UserIdCharset => f.userId == [] || !AllWordChars(f.userId)
    case PasswordLength => |f.password| < 6
    case PasswordMatch => f.password != f.confirmPassword
    case NameLength => |f.name| < 2
    case EmailShape => !IsEmail(f.email)
  }

  /**
   * validateRegistrationData: None is `{ isValid: true }`; otherwise the failing check whose
   * message is shown, which is the first one in the chain to fail.
   */
  function Validate(f: SignupForm): (r: Option<Check>)
    ensures r.Some? ==> Fails(f, r.value) && forall c :: Rank(c) < Rank(r.value) ==> !Fails(f, c)
    ensures r.None? <==> forall c :: !Fails(f, c)
  {
    if |f.userId| < 3 || |f.userId| > 20 then Some(UserIdLength)
    else if !AllWordChars(f.userId) then Some(UserIdCharset)
    else if |f.password| < 6 then Some(PasswordLength)
    else if f.password != f.confirmPassword then Some(PasswordMatch)
    else if |f.name| < 2 then Some(NameLength)
    else if !IsEmail(f.email) then Some(EmailShape)
    else None
  }

  /** A form passes exactly when every field has the shape the page asks for. */
  lemma ValidIff(f: SignupForm)
    ensures Validate(f).None? <==>
      3 <= |f.userId| <= 20 && AllWordChars(f.userId) && |f.password| >= 6 &&
      f.password == f.confirmPassword && |f.name| >= 2 && MatchesEmailPattern(f.email)
  {
    EmailIff(f.email);
    if Validate(f).None? {
      assert !Fails(f, UserIdLength) && !Fails(f, UserIdCharset) && !Fails(f, PasswordLength);
      assert !Fails(f, PasswordMatch) && !Fails(f, NameLength) && !Fails(f, EmailShape);
    }
  }
}
