/** The validators of the egui contact-registration form: name, e-mail,
    street, city, state, ZIP code, phone number and social handle. None of
    them trims; lengths are byte lengths. */
module NestedValidation {
  import opened Wrappers
  import opened RustStr
  import opened RustNum
  import opened Surveys
  import RatatuiDemo
  import RatatuiJobApplication

  const NAME_EMPTY := "Name cannot be empty"
  const NAME_TOO_LONG := "Name too long (max 100 characters)"
  const NAME_BAD_CHAR := "Name can only contain letters, spaces, hyphens, and apostrophes"
  const EMAIL_EMPTY := "Email cannot be empty"
  const EMAIL_NO_AT := "Missing @ symbol"
  const EMAIL_FORMAT := "Invalid email format"
  const EMAIL_NO_USER := "Missing username before @"
  const EMAIL_NO_DOT := "Domain must contain a dot"
  const STREET_EMPTY := "Street address cannot be empty"
  const CITY_EMPTY := "City cannot be empty"
  const CITY_BAD_CHAR := "City can only contain letters, spaces, and hyphens"
  const STATE_EMPTY := "State code cannot be empty"
  const STATE_NOT_LETTERS := "State must be letters only"
  const ZIP_EMPTY := "ZIP code cannot be empty"
  const ZIP_NOT_DIGITS := "ZIP must contain only digits"
  const PHONE_EMPTY := "Phone number cannot be empty"
  const HANDLE_EMPTY := "Handle cannot be empty"
  const HANDLE_TOO_LONG := "Handle too long (max 30 characters)"
  const HANDLE_BAD_CHAR := "Handle can only contain letters, numbers, underscores, and dots"

  /** "<what> too short (<n>/<min> minimum)". */
  function TooShort(what: string, n: nat, min: nat): string
  {
    what + " too short (" + NatToString(n) + "/" + NatToString(min) + " minimum)"
  }

  // ---------------------------------------------------------------------
  // Name
  // ---------------------------------------------------------------------

  predicate NameChar(c: char) { IsAlphabetic(c) || IsWhitespace(c) || c == '-' || c == '\'' }
  predicate AllNameChars(s: string) { forall i :: 0 <= i < |s| ==> NameChar(s[i]) }

  /** `validate_name`: between 2 and 100 bytes of letters, whitespace,
      hyphens and apostrophes, rules checked in that order. */
  function ValidateName(input: string): (r: Verdict)
    ensures r.Ok? <==> 2 <= ByteLen(input) <= 100 && AllNameChars(input)
    ensures input == "" ==> r == Err(NAME_EMPTY)
    ensures input != "" && ByteLen(input) < 2 ==> r == Err(TooShort("Name", ByteLen(input), 2))
    ensures ByteLen(input) > 100 ==> r == Err(NAME_TOO_LONG)
    ensures (2 <= ByteLen(input) <= 100 && r.Err?) ==> r == Err(NAME_BAD_CHAR)
  {
    ByteLenEmpty(input);
    if input == "" then Err(NAME_EMPTY)
    else if ByteLen(input) < 2 then Err(TooShort("Name", ByteLen(input), 2))
    else if ByteLen(input) > 100 then Err(NAME_TOO_LONG)
    else if !AllNameChars(input) then Err(NAME_BAD_CHAR)
    else OK
  }

  /** A non-empty name is never shorter than one byte, so the "too short"
      refusal always reports 1 of 2. */
  lemma ShortNameReportsOne(input: string)
    requires input != "" && ByteLen(input) < 2
    ensures ValidateName(input) == Err(TooShort("Name", 1, 2))
  {
    ByteLenEmpty(input);
  }

  // ---------------------------------------------------------------------
  // E-mail
  // ---------------------------------------------------------------------

  /** `validate_email`: a non-empty text with an `@`, splitting at `@` into
      exactly two parts, the first non-empty and the second holding a `.`;
      the first rule broken is reported. */
  function ValidateEmail(input: string): (r: Verdict)
    ensures r.Ok? <==>
      '@' in input && Count(input, '@') == 1 && input[0] != '@' && '.' in input[LastIndex(input, '@') + 1..]
    ensures input == "" ==> r == Err(EMAIL_EMPTY)
    ensures input != "" && '@' !in input ==> r == Err(EMAIL_NO_AT)
    ensures '@' in input && Count(input, '@') != 1 ==> r == Err(EMAIL_FORMAT)
    ensures '@' in input && Count(input, '@') == 1 && input[0] == '@' ==> r == Err(EMAIL_NO_USER)
    ensures ('@' in input && Count(input, '@') == 1 && input[0] != '@' && r.Err?) ==> r == Err(EMAIL_NO_DOT)
  {
    if input == "" then Err(EMAIL_EMPTY)
    else if '@' !in input then Err(EMAIL_NO_AT)
    else
      var parts := Split(input, '@');
      SplitJoin(input, '@');
      SplitFirst(input, '@');
      SplitLast(input, '@');
      if |parts| != 2 then Err(EMAIL_FORMAT)
      else if parts[0] == "" then Err(EMAIL_NO_USER)
      else if '.' !in parts[1] then Err(EMAIL_NO_DOT)
      else OK
  }

  /** This form and the ratatui wizards accept exactly the same addresses;
      they differ only in their messages: `a@` is refused here for its
      domain and there for its format. */
  lemma SameAddressesAsRatatui(input: string)
    ensures ValidateEmail(input).Ok? <==> RatatuiDemo.ValidateEmail(input).Ok?
    ensures ValidateEmail("a@") == Err(EMAIL_NO_DOT)
    ensures RatatuiDemo.ValidateEmail("a@") == Err(RatatuiDemo.EMAIL_FORMAT)
  {
    var s := "a@";
    assert Count(s, '@') == 1 by { assert s[1..] == "@" && s[1..][1..] == ""; }
    assert '@' in s by { assert s[1] == '@'; }
    assert LastIndex(s, '@') == 1 by { assert '@' !in s[2..]; }
  }

  // ---------------------------------------------------------------------
  // Address
  // ---------------------------------------------------------------------

  /** `validate_street`: at least 5 bytes. */
  function ValidateStreet(input: string): (r: Verdict)
    ensures r.Ok? <==> ByteLen(input) >= 5
    ensures input == "" ==> r == Err(STREET_EMPTY)
    ensures input != "" && r.Err? ==> r == Err(TooShort("Street address", ByteLen(input), 5))
  {
    ByteLenEmpty(input);
    if input == "" then Err(STREET_EMPTY)
    else if ByteLen(input) < 5 then Err(TooShort("Street address", ByteLen(input), 5))
    else OK
  }

  predicate CityChar(c: char) { IsAlphabetic(c) || IsWhitespace(c) || c == '-' }
  predicate AllCityChars(s: string) { forall i :: 0 <= i < |s| ==> CityChar(s[i]) }

  /** `validate_city`: at least 2 bytes of letters, whitespace and hyphens. */
  function ValidateCity(input: string): (r: Verdict)
    ensures r.Ok? <==> ByteLen(input) >= 2 && AllCityChars(input)
    ensures input == "" ==> r == Err(CITY_EMPTY)
    ensures input != "" && ByteLen(input) < 2 ==> r == Err(TooShort("City name", ByteLen(input), 2))
    ensures (ByteLen(input) >= 2 && r.Err?) ==> r == Err(CITY_BAD_CHAR)
  {
    ByteLenEmpty(input);
    if input == "" then Err(CITY_EMPTY)
    else if ByteLen(input) < 2 then Err(TooShort("City name", ByteLen(input), 2))
    else if !AllCityChars(input) then Err(CITY_BAD_CHAR)
    else OK
  }

  /** Every city this form accepts is also accepted by the ratatui job
      application once it is not blank: it has the bytes and no digits. */
  lemma CityAcceptedByRatatui(input: string)
    requires ValidateCity(input).Ok?
    requires !AllWhitespace(input)
    requires !IsWhitespace(input[0]) && !IsWhitespace(input[|input| - 1])
    ensures RatatuiJobApplication.ValidateCity(input).Ok?
  {
    assert Trim(input) == input by {
      assert TrimStart(input) == input;
      assert TrimEnd(input) == input;
    }
  }

  function WrongLength(what: string, unit: string, n: nat): string
  {
    what + " must be exactly " + unit + " (got " + NatToString(n) + ")"
  }

  predicate AllAsciiAlphabetic(s: string) { forall i :: 0 <= i < |s| ==> IsAsciiAlphabetic(s[i]) }

  /** `validate_state`: exactly 2 bytes, all ASCII letters. */
  function ValidateState(input: string): (r: Verdict)
    ensures r.Ok? <==> ByteLen(input) == 2 && AllAsciiAlphabetic(input)
    ensures input == "" ==> r == Err(STATE_EMPTY)
    ensures input != "" && ByteLen(input) != 2 ==> r == Err(WrongLength("State", "2 letters", ByteLen(input)))
    ensures (ByteLen(input) == 2 && r.Err?) ==> r == Err(STATE_NOT_LETTERS)
  {
    ByteLenEmpty(input);
    if input == "" then Err(STATE_EMPTY)
    else if ByteLen(input) != 2 then Err(WrongLength("State", "2 letters", ByteLen(input)))
    else if !AllAsciiAlphabetic(input) then Err(STATE_NOT_LETTERS)
    else OK
  }

  lemma AsciiLettersAreOneByte(s: string)
    requires AllAsciiAlphabetic(s)
    ensures ByteLen(s) == |s|
  {
    ByteLenBounds(s);
  }

  /** An accepted state code is exactly two ASCII letters. */
  lemma AcceptedStateIsTwoLetters(input: string)
    requires ValidateState(input).Ok?
    ensures |input| == 2
  {
    AsciiLettersAreOneByte(input);
  }

  /** Length is counted in bytes: one two-byte letter passes the length
      rule and is refused as not a letter. */
  lemma StateLengthIsBytes()
    ensures ValidateState("é") == Err(STATE_NOT_LETTERS)
  {
    assert ByteLen("é") == 2 by { assert "é"[..0] == ""; }
  }

  /** `validate_zip`: exactly 5 bytes, all ASCII digits. */
  function ValidateZip(input: string): (r: Verdict)
    ensures r.Ok? <==> ByteLen(input) == 5 && AllAsciiDigits(input)
    ensures input == "" ==> r == Err(ZIP_EMPTY)
    ensures input != "" && ByteLen(input) != 5 ==> r == Err(WrongLength("ZIP", "5 digits", ByteLen(input)))
    ensures (ByteLen(input) == 5 && r.Err?) ==> r == Err(ZIP_NOT_DIGITS)
  {
    ByteLenEmpty(input);
    if input == "" then Err(ZIP_EMPTY)
    else if ByteLen(input) != 5 then Err(WrongLength("ZIP", "5 digits", ByteLen(input)))
    else if !AllAsciiDigits(input) then Err(ZIP_NOT_DIGITS)
    else OK
  }

  lemma AsciiDigitsAreOneByte(s: string)
    requires AllAsciiDigits(s)
    ensures ByteLen(s) == |s|
  {
    ByteLenBounds(s);
  }

  /** The accepted ZIP codes are exactly the five-digit strings. */
  lemma ZipIsFiveDigits(input: string)
    ensures ValidateZip(input).Ok? <==> |input| == 5 && AllAsciiDigits(input)
  {
    if AllAsciiDigits(input) {
      AsciiDigitsAreOneByte(input);
    }
  }

  // ---------------------------------------------------------------------
  // Contact method
  // ---------------------------------------------------------------------

  function TooFewDigits(n: nat): string
  {
    "Phone number needs 10 digits (got " + NatToString(n) + ")"
  }

  function TooManyDigits(n: nat): string
  {
    "Phone number too long (got " + NatToString(n) + " digits)"
  }

  /** `validate_phone`: exactly 10 ASCII digits, whatever else the text
      holds. */
  function ValidatePhone(input: string): (r: Verdict)
    ensures r.Ok? <==> DigitCount(input) == 10
    ensures DigitCount(input) == 0 ==> r == Err(PHONE_EMPTY)
    ensures 0 < DigitCount(input) < 10 ==> r == Err(TooFewDigits(DigitCount(input)))
    ensures DigitCount(input) > 10 ==> r == Err(TooManyDigits(DigitCount(input)))
  {
    var digits := AsciiDigits(input);
    AsciiDigitsLen(input);
    if digits == "" then Err(PHONE_EMPTY)
    else if ByteLen(digits) < 10 then Err(TooFewDigits(ByteLen(digits)))
    else if ByteLen(digits) > 10 then Err(TooManyDigits(ByteLen(digits)))
    else OK
  }

  /** Every phone number this form accepts is accepted by the ratatui job
      application, which allows 10 to 15 digits; the converse fails for 11
      digits. */
  lemma PhoneStricterThanRatatui(input: string)
    ensures ValidatePhone(input).Ok? ==> RatatuiJobApplication.ValidatePhone(input).Ok?
    ensures DigitCount(input) == 11 ==>
      ValidatePhone(input).Err? && RatatuiJobApplication.ValidatePhone(input).Ok?
  {
  }

  predicate HandleChar(c: char) { IsAlphanumeric(c) || c == '_' || c == '.' }
  predicate AllHandleChars(s: string) { forall i :: 0 <= i < |s| ==> HandleChar(s[i]) }

  /** `validate_handle`: between 3 and 30 bytes, counting a leading `@`;
      after dropping one leading `@`, only letters, digits, `_` and `.`. */
  function ValidateHandle(input: string): (r: Verdict)
    ensures r.Ok? <==> 3 <= ByteLen(input) <= 30 && AllHandleChars(StripPrefix(input, '@'))
    ensures input == "" ==> r == Err(HANDLE_EMPTY)
    ensures input != "" && ByteLen(input) < 3 ==> r == Err(TooShort("Handle", ByteLen(input), 3))
    ensures ByteLen(input) > 30 ==> r == Err(HANDLE_TOO_LONG)
    ensures (3 <= ByteLen(input) <= 30 && r.Err?) ==> r == Err(HANDLE_BAD_CHAR)
  {
    ByteLenEmpty(input);
    if input == "" then Err(HANDLE_EMPTY)
    else if ByteLen(input) < 3 then Err(TooShort("Handle", ByteLen(input), 3))
    else if ByteLen(input) > 30 then Err(HANDLE_TOO_LONG)
    else
      var check := StripPrefix(input, '@');
      if !AllHandleChars(check) then Err(HANDLE_BAD_CHAR)
      else OK
  }

  /** A handle written with its `@` is accepted exactly when the bare
      handle has 2 to 29 bytes: the `@` counts towards the length. */
  lemma AtPrefixedHandle(h: string)
    requires AllHandleChars(h)
    ensures ValidateHandle("@" + h).Ok? <==> 2 <= ByteLen(h) <= 29
  {
    ByteLenAppend("@", h);
    assert ByteLen("@") == 1 by { assert "@"[..0] == ""; }
    assert ("@" + h)[1..] == h;
  }

  /** Only one `@` is dropped: a handle of acceptable length starting with
      two of them is refused for its characters. */
  lemma OneAtOnly(input: string)
    requires |input| >= 2 && input[0] == '@' && input[1] == '@'
    requires 3 <= ByteLen(input) <= 30
    ensures ValidateHandle(input) == Err(HANDLE_BAD_CHAR)
  {
    assert !HandleChar(StripPrefix(input, '@')[0]);
  }
}
