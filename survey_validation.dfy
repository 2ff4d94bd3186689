/** The field validators of the survey validation example: e-mail,
    password and user name checks that report the first failing rule and
    accept any value that is not a string. */
module SurveyValidation {
  import opened Wrappers
  import opened RustStr
  import opened Surveys

  const EMAIL_NO_AT := "Email must contain '@' symbol"
  const EMAIL_NO_DOMAIN := "Email must contain a domain"
  const PASSWORD_TOO_SHORT := "Password must be at least 8 characters"
  const PASSWORD_NO_DIGIT := "Password must contain at least one number"
  const PASSWORD_NO_UPPERCASE := "Password must contain at least one uppercase letter"
  const USERNAME_TOO_SHORT := "Username must be at least 3 characters"
  const USERNAME_BAD_CHAR := "Username can only contain letters, numbers, and underscores"

  predicate HasAsciiDigit(s: string) { exists i :: 0 <= i < |s| && IsAsciiDigit(s[i]) }
  predicate HasAsciiUppercase(s: string) { exists i :: 0 <= i < |s| && IsAsciiUppercase(s[i]) }
  predicate UsernameChar(c: char) { IsAsciiAlphanumeric(c) || c == '_' }

  /** `validate_email`: a string needs an `@` and then a `.`, anywhere. */
  function ValidateEmail(value: ResponseValue): (r: Verdict)
    ensures !value.String? ==> r == OK
    ensures value.String? ==> (r.Ok? <==> '@' in value.str && '.' in value.str)
    ensures value.String? && '@' !in value.str ==> r == Err(EMAIL_NO_AT)
    ensures value.String? && '@' in value.str && '.' !in value.str ==> r == Err(EMAIL_NO_DOMAIN)
  {
    match value
    case String(email) =>
      if '@' !in email then Err(EMAIL_NO_AT)
      else if '.' !in email then Err(EMAIL_NO_DOMAIN)
      else OK
    case _ => OK
  }

  /** The dot may sit before the `@`: the domain itself is never looked at. */
  lemma EmailDotMayPrecedeAt()
    ensures ValidateEmail(String("a.b@c")).Ok?
  {
    assert "a.b@c"[3] == '@' && "a.b@c"[1] == '.';
  }

  /** `validate_password`: at least 8 bytes, then an ASCII digit, then an
      ASCII upper-case letter, reporting the first rule broken. */
  function ValidatePassword(value: ResponseValue): (r: Verdict)
    ensures !value.String? ==> r == OK
    ensures value.String? ==>
      (r.Ok? <==> ByteLen(value.str) >= 8 && HasAsciiDigit(value.str) && HasAsciiUppercase(value.str))
    ensures value.String? && ByteLen(value.str) < 8 ==> r == Err(PASSWORD_TOO_SHORT)
    ensures value.String? && ByteLen(value.str) >= 8 && !HasAsciiDigit(value.str) ==> r == Err(PASSWORD_NO_DIGIT)
    ensures value.String? && ByteLen(value.str) >= 8 && HasAsciiDigit(value.str) && !HasAsciiUppercase(value.str)
      ==> r == Err(PASSWORD_NO_UPPERCASE)
  {
    match value
    case String(password) =>
      if ByteLen(password) < 8 then Err(PASSWORD_TOO_SHORT)
      else if !HasAsciiDigit(password) then Err(PASSWORD_NO_DIGIT)
      else if !HasAsciiUppercase(password) then Err(PASSWORD_NO_UPPERCASE)
      else OK
    case _ => OK
  }

  /** `validate_username`: at least 3 bytes, then only ASCII letters,
      digits and `_`. */
  function ValidateUsername(value: ResponseValue): (r: Verdict)
    ensures !value.String? ==> r == OK
    ensures value.String? ==>
      (r.Ok? <==> ByteLen(value.str) >= 3 && forall i :: 0 <= i < |value.str| ==> UsernameChar(value.str[i]))
    ensures value.String? && ByteLen(value.str) < 3 ==> r == Err(USERNAME_TOO_SHORT)
    ensures value.String? && r.Err? && ByteLen(value.str) >= 3 ==> r == Err(USERNAME_BAD_CHAR)
  {
    match value
    case String(username) =>
      if ByteLen(username) < 3 then Err(USERNAME_TOO_SHORT)
      else if !(forall i :: 0 <= i < |username| ==> UsernameChar(username[i])) then Err(USERNAME_BAD_CHAR)
      else OK
    case _ => OK
  }

  /** User name characters are all ASCII, one byte each. */
  lemma UsernameCharsAreAscii(name: string)
    requires forall i :: 0 <= i < |name| ==> UsernameChar(name[i])
    ensures ByteLen(name) == |name|
  {
    ByteLenBounds(name);
  }

  /** An accepted user name is plain ASCII, so its byte length is its
      length in characters: at least 3 of them. */
  lemma AcceptedUsernameIsAscii(name: string)
    requires ValidateUsername(String(name)).Ok?
    ensures ByteLen(name) == |name| >= 3
  {
    UsernameCharsAreAscii(name);
  }

  /** Length is counted in bytes: two two-byte letters pass the length
      rule and are then refused for not being ASCII. */
  lemma UsernameLengthIsBytes()
    ensures ValidateUsername(String("éé")) == Err(USERNAME_BAD_CHAR)
  {
    var s := "éé";
    assert ByteLen(s) == 4 by {
      assert Utf8Width(s[0]) == 2 && Utf8Width(s[1]) == 2;
      ByteLenAppend([s[0]], [s[1]]);
      assert s == [s[0]] + [s[1]];
    }
    assert !UsernameChar(s[0]);
  }
}
