/** The validators of the ratatui job-application wizard: full name, phone
    number and city. Its e-mail validator is the one of the ratatui
    user-profile wizard (`RatatuiDemo.ValidateEmail`). */
module RatatuiJobApplication {
  import opened Wrappers
  import opened RustStr
  import opened Surveys

  const NAME_EMPTY := "Name cannot be empty"
  const NAME_NOT_FULL := "Please enter your full name (first and last name)"
  const NAME_PART_TOO_SHORT := "Each name part must be at least 2 characters"
  const PHONE_TOO_SHORT := "Phone number must have at least 10 digits"
  const PHONE_TOO_LONG := "Phone number is too long"
  const CITY_EMPTY := "City cannot be empty"
  const CITY_TOO_SHORT := "City name must be at least 2 characters"
  const CITY_HAS_DIGIT := "City name should not contain numbers"

  /** Every word has at least two bytes. */
  predicate LongEnoughParts(words: seq<string>)
  {
    forall k :: 0 <= k < |words| ==> ByteLen(words[k]) >= 2
  }

  /** `validate_full_name`: after trimming, at least two whitespace-separated
      words, each of at least two bytes. */
  function ValidateFullName(input: string): (r: Verdict)
    ensures AllWhitespace(input) ==> r == Err(NAME_EMPTY)
    ensures !AllWhitespace(input) ==> (r.Ok? <==>
      var words := SplitWhitespace(Trim(input)); |words| >= 2 && LongEnoughParts(words))
    ensures !AllWhitespace(input) && |SplitWhitespace(Trim(input))| < 2 ==> r == Err(NAME_NOT_FULL)
    ensures (!AllWhitespace(input) && |SplitWhitespace(Trim(input))| >= 2 && r.Err?)
      ==> r == Err(NAME_PART_TOO_SHORT)
  {
    var trimmed := Trim(input);
    TrimBlank(input);
    if trimmed == "" then Err(NAME_EMPTY)
    else
      var parts := SplitWhitespace(trimmed);
      if |parts| < 2 then Err(NAME_NOT_FULL)
      else if !LongEnoughParts(parts) then Err(NAME_PART_TOO_SHORT)
      else OK
  }

  /** A text without whitespace is one word. */
  lemma {:induction false} OneWord(t: string)
    requires t != ""
    requires forall i :: 0 <= i < |t| ==> !IsWhitespace(t[i])
    ensures SplitWhitespace(t) == [t]
  {
    var w := TakeWord(t);
    if |w| < |t| {
      assert false;
    }
    assert w == t;
    assert t[|w|..] == "";
  }

  /** A full name needs whitespace inside it: a single word, however long,
      is refused. */
  lemma FullNameNeedsSpace(input: string)
    requires ValidateFullName(input).Ok?
    ensures exists i :: 0 <= i < |Trim(input)| && IsWhitespace(Trim(input)[i])
  {
    var t := Trim(input);
    TrimBlank(input);
    if forall i :: 0 <= i < |t| ==> !IsWhitespace(t[i]) {
      OneWord(t);
      assert false;
    }
  }

  /** `validate_phone`: between 10 and 15 ASCII digits, whatever else the
      text holds. */
  function ValidatePhone(input: string): (r: Verdict)
    ensures r.Ok? <==> 10 <= DigitCount(input) <= 15
    ensures DigitCount(input) < 10 ==> r == Err(PHONE_TOO_SHORT)
    ensures DigitCount(input) > 15 ==> r == Err(PHONE_TOO_LONG)
  {
    var digits := AsciiDigits(input);
    AsciiDigitsLen(input);
    if ByteLen(digits) < 10 then Err(PHONE_TOO_SHORT)
    else if ByteLen(digits) > 15 then Err(PHONE_TOO_LONG)
    else OK
  }

  /** Formatting characters never change the verdict: inserting any
      non-digit anywhere gives the same result. */
  lemma PhoneIgnoresFormatting(a: string, c: char, b: string)
    requires !IsAsciiDigit(c)
    ensures ValidatePhone(a + [c] + b) == ValidatePhone(a + b)
  {
    DigitCountAppend(a + [c], b);
    DigitCountAppend(a, [c]);
    DigitCountAppend(a, b);
    assert DigitCount([c]) == 0 by { assert [c][1..] == ""; }
  }

  predicate HasAsciiDigit(s: string) { exists i :: 0 <= i < |s| && IsAsciiDigit(s[i]) }

  /** `validate_city`: after trimming, at least 2 bytes and no ASCII digit. */
  function ValidateCity(input: string): (r: Verdict)
    ensures AllWhitespace(input) ==> r == Err(CITY_EMPTY)
    ensures !AllWhitespace(input) ==> (r.Ok? <==> ByteLen(Trim(input)) >= 2 && !HasAsciiDigit(Trim(input)))
    ensures !AllWhitespace(input) && ByteLen(Trim(input)) < 2 ==> r == Err(CITY_TOO_SHORT)
    ensures (!AllWhitespace(input) && ByteLen(Trim(input)) >= 2 && r.Err?) ==> r == Err(CITY_HAS_DIGIT)
  {
    var trimmed := Trim(input);
    TrimBlank(input);
    if trimmed == "" then Err(CITY_EMPTY)
    else if ByteLen(trimmed) < 2 then Err(CITY_TOO_SHORT)
    else if HasAsciiDigit(trimmed) then Err(CITY_HAS_DIGIT)
    else OK
  }

  /** A digit is not whitespace, so trimming keeps it. */
  lemma DigitSurvivesTrim(input: string, j: nat)
    requires j < |input| && IsAsciiDigit(input[j])
    ensures HasAsciiDigit(Trim(input))
  {
    var t := TrimStart(input);
    TrimStartFacts(input);
    TrimEndFacts(t);
    var k := |input| - |t|;
    assert forall m :: 0 <= m < k ==> IsWhitespace(input[m]) by {
      forall m | 0 <= m < k ensures IsWhitespace(input[m]) { assert input[..k][m] == input[m]; }
    }
    assert k <= j;
    assert t[j - k] == input[j];
    var u := TrimEnd(t);
    assert forall m :: |u| <= m < |t| ==> IsWhitespace(t[m]) by {
      forall m | |u| <= m < |t| ensures IsWhitespace(t[m]) { assert t[|u|..][m - |u|] == t[m]; }
    }
    assert j - k < |u|;
    assert u[j - k] == input[j];
    assert Trim(input) == u;
  }

  /** Trimming only removes whitespace, so a digit anywhere in the input
      makes the city unacceptable. */
  lemma CityWithDigitRefused(input: string, j: nat)
    requires j < |input| && IsAsciiDigit(input[j])
    ensures ValidateCity(input).Err?
  {
    DigitSurvivesTrim(input, j);
    assert !IsWhitespace(input[j]);
  }
}
