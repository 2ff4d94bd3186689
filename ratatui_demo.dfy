/** The validators of the ratatui user-profile wizard: an e-mail of the form
    `user@domain.tld` and a name of reasonable length. The same e-mail
    validator also guards the ratatui job-application wizard. */
module RatatuiDemo {
  import opened Wrappers
  import opened RustStr
  import opened RustNum
  import opened Surveys

  const EMAIL_EMPTY := "Email cannot be empty"
  const EMAIL_NO_AT := "Email must contain an @ symbol"
  const EMAIL_FORMAT := "Email must be in format 'user@domain'"
  const EMAIL_NO_DOT := "Email domain must contain a dot (e.g., example.com)"
  const NAME_EMPTY := "Name cannot be empty"
  const NAME_TOO_SHORT := "Name must be at least 2 characters"
  const NAME_TOO_LONG := "Name must be less than 100 characters"

  /** One `@`, with something before it and a `.` somewhere after it. */
  predicate WellFormedAddress(s: string)
  {
    '@' in s && Count(s, '@') == 1 && s[0] != '@' && '.' in s[LastIndex(s, '@') + 1..]
  }

  /** `validate_email`: a non-empty text that splits at `@` into exactly two
      non-empty parts, the second holding a `.`; the first rule broken is
      reported. */
  function ValidateEmail(input: string): (r: Verdict)
    ensures r.Ok? <==> WellFormedAddress(input)
    ensures input == "" ==> r == Err(EMAIL_EMPTY)
    ensures input != "" && '@' !in input ==> r == Err(EMAIL_NO_AT)
    ensures ('@' in input && !(Count(input, '@') == 1 && input[0] != '@' && input[|input| - 1] != '@'))
      ==> r == Err(EMAIL_FORMAT)
    ensures ('@' in input && Count(input, '@') == 1 && input[0] != '@' && input[|input| - 1] != '@'
      && r.Err?) ==> r == Err(EMAIL_NO_DOT)
  {
    if input == "" then Err(EMAIL_EMPTY)
    else if '@' !in input then Err(EMAIL_NO_AT)
    else
      var parts := Split(input, '@');
      TwoNonEmptyParts(input, '@');
      SplitLast(input, '@');
      var k := LastIndex(input, '@');
      assert input[|input| - 1] != '@' <== '.' in input[k + 1..] by {
        if '.' in input[k + 1..] {
          assert input[|input| - 1] == input[k + 1..][|input| - k - 2];
        }
      }
      if |parts| != 2 || parts[0] == "" || parts[1] == "" then Err(EMAIL_FORMAT)
      else if '.' !in parts[1] then Err(EMAIL_NO_DOT)
      else OK
  }

  /** `validate_name`: refuses a blank name, then measures the untrimmed
      text, which must have between 2 and 100 bytes. */
  function ValidateName(input: string): (r: Verdict)
    ensures AllWhitespace(input) ==> r == Err(NAME_EMPTY)
    ensures !AllWhitespace(input) ==> (r.Ok? <==> 2 <= ByteLen(input) <= 100)
    ensures !AllWhitespace(input) && ByteLen(input) < 2 ==> r == Err(NAME_TOO_SHORT)
    ensures !AllWhitespace(input) && ByteLen(input) > 100 ==> r == Err(NAME_TOO_LONG)
  {
    TrimBlank(input);
    if Trim(input) == "" then Err(NAME_EMPTY)
    else if ByteLen(input) < 2 then Err(NAME_TOO_SHORT)
    else if ByteLen(input) > 100 then Err(NAME_TOO_LONG)
    else OK
  }

  /** Only the blank check trims: the surrounding spaces count towards the
      length, so a one-letter name with a leading space is accepted. */
  lemma NameLengthIsUntrimmed()
    ensures ValidateName(" a").Ok?
    ensures Trim(" a") == "a"
  {
    var s := " a";
    assert !AllWhitespace(s) by { assert !IsWhitespace(s[1]); }
    assert ByteLen(s) == 2 by { assert s[..1] == " " && s[..1][..0] == ""; }
    assert TrimStart(s) == "a" by { assert s[1..] == "a" && !IsWhitespace("a"[0]); }
  }
}
