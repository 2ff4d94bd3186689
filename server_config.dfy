/** The text validators of the server-configuration wizard: host names,
    bind addresses, database and application names. Each first trims the
    input and refuses what is left empty. */
module ServerConfig {
  import opened Wrappers
  import opened RustStr
  import opened RustNum
  import opened Surveys

  const HOST_EMPTY := "Host cannot be empty"
  const HOST_INVALID := "Please enter a valid hostname or IP address"
  const BIND_EMPTY := "Bind address cannot be empty"
  const BIND_INVALID := "Please enter a valid IP address (e.g., 0.0.0.0 or 127.0.0.1)"
  const DB_EMPTY := "Database name cannot be empty"
  const DB_TOO_LONG := "Database name is too long (max 64 characters)"
  const DB_BAD_CHAR := "Database name can only contain letters, numbers, and underscores"
  const DB_LEADING_DIGIT := "Database name cannot start with a number"
  const APP_EMPTY := "Application name cannot be empty"
  const APP_TOO_SHORT := "Application name must be at least 2 characters"
  const APP_TOO_LONG := "Application name is too long (max 50 characters)"

  /** Four `.`-separated pieces, each of which parses as a `u8`. */
  predicate IsQuad(s: string)
  {
    var parts := Split(s, '.');
    |parts| == 4 && forall i :: 0 <= i < 4 ==> ParseU8(parts[i]).Some?
  }

  /** A quad has exactly three dots. */
  lemma QuadHasThreeDots(s: string)
    requires IsQuad(s)
    ensures Count(s, '.') == 3
  {
    SplitJoin(s, '.');
  }

  predicate HostnameChar(c: char) { IsAlphanumeric(c) || c == '.' || c == '-' }
  predicate AllHostnameChars(s: string) { forall i :: 0 <= i < |s| ==> HostnameChar(s[i]) }

  /** `validate_host`: after trimming, `localhost`, a quad of bytes, or any
      text made of letters, digits, dots and hyphens. */
  function ValidateHost(input: string): (r: Verdict)
    ensures AllWhitespace(input) ==> r == Err(HOST_EMPTY)
    ensures !AllWhitespace(input) ==> (r.Ok? <==>
      var t := Trim(input); t == "localhost" || IsQuad(t) || AllHostnameChars(t))
    ensures !AllWhitespace(input) && r.Err? ==> r.error == HOST_INVALID
  {
    var trimmed := Trim(input);
    TrimBlank(input);
    if trimmed == "" then Err(HOST_EMPTY)
    else if trimmed == "localhost" then OK
    else if IsQuad(trimmed) then OK
    else if AllHostnameChars(trimmed) then OK
    else Err(HOST_INVALID)
  }

  /** The dot the comment asks of a host name is not required: a bare
      single-label name is accepted. */
  lemma HostNeedNotHaveDot()
    ensures ValidateHost("db").Ok?
  {
    var s := "db";
    assert !AllWhitespace(s) by { assert !IsWhitespace(s[0]); }
    assert Trim(s) == s by {
      assert TrimStart(s) == s by { assert !IsWhitespace(s[0]); }
      assert TrimEnd(s) == s by { assert !IsWhitespace(s[1]); }
    }
    assert AllHostnameChars(s) by { assert HostnameChar(s[0]) && HostnameChar(s[1]); }
  }

  /** `validate_bind_address`: after trimming, one of the common addresses
      `0.0.0.0`, `127.0.0.1`, `localhost`, or a quad of bytes. */
  function ValidateBindAddress(input: string): (r: Verdict)
    ensures AllWhitespace(input) ==> r == Err(BIND_EMPTY)
    ensures !AllWhitespace(input) ==> (r.Ok? <==>
      var t := Trim(input); t == "0.0.0.0" || t == "127.0.0.1" || t == "localhost" || IsQuad(t))
    ensures !AllWhitespace(input) && r.Err? ==> r.error == BIND_INVALID
  {
    var trimmed := Trim(input);
    TrimBlank(input);
    if trimmed == "" then Err(BIND_EMPTY)
    else if trimmed == "0.0.0.0" || trimmed == "127.0.0.1" || trimmed == "localhost" then OK
    else if IsQuad(trimmed) then OK
    else Err(BIND_INVALID)
  }

  lemma CommonAddressesAreHostnames()
    ensures AllHostnameChars("0.0.0.0") && AllHostnameChars("127.0.0.1")
  {
    var a, b := "0.0.0.0", "127.0.0.1";
    assert forall i :: 0 <= i < |a| ==> a[i] == '0' || a[i] == '.';
    assert forall i :: 0 <= i < |b| ==> IsAsciiDigit(b[i]) || b[i] == '.';
  }

  /** Every accepted bind address is also an accepted host. */
  lemma BindAddressIsHost(input: string)
    requires ValidateBindAddress(input).Ok?
    ensures ValidateHost(input).Ok?
  {
    CommonAddressesAreHostnames();
  }

  /** A single ASCII digit, with or without a leading `+`, parses as a `u8`. */
  lemma OneDigitParses(c: char)
    requires IsAsciiDigit(c)
    ensures ParseU8([c]) == Some(DigitValue(c))
    ensures ParseU8(['+', c]) == Some(DigitValue(c))
  {
    assert [c][..0] == [];
    assert AllAsciiDigits([c]);
    assert DigitsValue([c]) == DigitValue(c);
    assert ['+', c][1..] == [c];
  }

  lemma PlusQuadPieces()
    ensures Split("+1.2.3.4", '.') == ["+1", "2", "3", "4"]
  {
    var parts := ["+1", "2", "3", "4"];
    assert Join(parts, ".") == "+1.2.3.4" by {
      assert Join(parts[3..], ".") == "4";
      assert Join(parts[2..], ".") == "3" + "." + "4";
      assert Join(parts[1..], ".") == "2" + "." + "3.4";
    }
    assert forall i :: 0 <= i < |parts| ==> '.' !in parts[i];
    SplitOfJoin(parts, '.');
  }

  lemma PlusQuadIsQuad()
    ensures IsQuad("+1.2.3.4")
  {
    PlusQuadPieces();
    OneDigitParses('1');
    OneDigitParses('2');
    OneDigitParses('3');
    OneDigitParses('4');
  }

  /** `u8` parsing takes a leading `+`, so a quad may carry one: `+1.2.3.4`
      is an accepted bind address. */
  lemma PlusSignedQuadAccepted()
    ensures ValidateBindAddress("+1.2.3.4").Ok?
  {
    var s := "+1.2.3.4";
    PlusQuadIsQuad();
    assert !AllWhitespace(s) by { assert !IsWhitespace(s[0]); }
    assert Trim(s) == s by {
      assert TrimStart(s) == s by { assert !IsWhitespace(s[0]); }
      assert TrimEnd(s) == s by { assert !IsWhitespace(s[|s| - 1]); }
    }
  }

  predicate DbNameChar(c: char) { IsAlphanumeric(c) || c == '_' }
  predicate AllDbNameChars(s: string) { forall i :: 0 <= i < |s| ==> DbNameChar(s[i]) }

  /** `validate_db_name`: after trimming, at most 64 bytes of letters,
      digits and `_`, not starting with an ASCII digit; the rules are
      checked in that order. */
  function ValidateDbName(input: string): (r: Verdict)
    ensures AllWhitespace(input) ==> r == Err(DB_EMPTY)
    ensures !AllWhitespace(input) ==> (r.Ok? <==>
      var t := Trim(input); ByteLen(t) <= 64 && AllDbNameChars(t) && !IsAsciiDigit(t[0]))
    ensures !AllWhitespace(input) && ByteLen(Trim(input)) > 64 ==> r == Err(DB_TOO_LONG)
    ensures !AllWhitespace(input) && ByteLen(Trim(input)) <= 64 && !AllDbNameChars(Trim(input))
      ==> r == Err(DB_BAD_CHAR)
    ensures (!AllWhitespace(input) && ByteLen(Trim(input)) <= 64 && AllDbNameChars(Trim(input))
      && r.Err?) ==> r == Err(DB_LEADING_DIGIT)
  {
    var trimmed := Trim(input);
    TrimBlank(input);
    if trimmed == "" then Err(DB_EMPTY)
    else if ByteLen(trimmed) > 64 then Err(DB_TOO_LONG)
    else if !AllDbNameChars(trimmed) then Err(DB_BAD_CHAR)
    else if IsAsciiDigit(trimmed[0]) then Err(DB_LEADING_DIGIT)
    else OK
  }

  /** Any single letter or numeric character other than an ASCII digit is
      an accepted database name. */
  lemma OneCharDbName(s: string)
    requires |s| == 1 && DbNameChar(s[0]) && !IsAsciiDigit(s[0])
    ensures ValidateDbName(s).Ok?
  {
    assert !IsWhitespace(s[0]);
    TrimOneChar(s);
  }

  /** Only ASCII digits are refused at the start: a superscript two is a
      numeric character, so `²` alone is an accepted database name. */
  lemma SuperscriptMayLeadDbName()
    ensures ValidateDbName("²").Ok?
  {
    assert IsNumeric("²"[0]);
    OneCharDbName("²");
  }

  /** An accepted database name has between 1 and 64 characters. */
  lemma AcceptedDbNameLength(input: string)
    requires ValidateDbName(input).Ok?
    ensures 1 <= |Trim(input)| <= 64
  {
    ByteLenBounds(Trim(input));
  }

  /** `validate_app_name`: after trimming, between 2 and 50 bytes. */
  function ValidateAppName(input: string): (r: Verdict)
    ensures AllWhitespace(input) ==> r == Err(APP_EMPTY)
    ensures !AllWhitespace(input) ==> (r.Ok? <==> 2 <= ByteLen(Trim(input)) <= 50)
    ensures !AllWhitespace(input) && ByteLen(Trim(input)) < 2 ==> r == Err(APP_TOO_SHORT)
    ensures !AllWhitespace(input) && ByteLen(Trim(input)) > 50 ==> r == Err(APP_TOO_LONG)
  {
    var trimmed := Trim(input);
    TrimBlank(input);
    if trimmed == "" then Err(APP_EMPTY)
    else if ByteLen(trimmed) < 2 then Err(APP_TOO_SHORT)
    else if ByteLen(trimmed) > 50 then Err(APP_TOO_LONG)
    else OK
  }

  /** Length is counted in bytes: a single two-byte letter is long enough. */
  lemma AppNameLengthIsBytes()
    ensures ValidateAppName("é").Ok?
  {
    TrimOneChar("é");
  }
}
