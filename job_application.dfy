/** The validators of the job-application survey: e-mail, password, cover
    letter and skill checks, and a cross-field cap on the salary
    expectation read from the answers already given. */
module JobApplication {
  import opened Wrappers
  import opened RustStr
  import opened RustNum
  import opened Surveys

  const EMAIL_INVALID := "Enter a valid email (e.g., you@example.com)"
  const PASSWORD_TOO_SHORT := "Password must be at least 6 characters"
  const NO_SKILL := "Select at least one skill"
  const TOO_MANY_SKILLS := "Select at most 5 skills"

  /** `validate_email`: an `@` somewhere, and a `.` in the text after the
      last `@`. */
  function ValidateEmail(value: ResponseValue): (r: Verdict)
    ensures !value.String? ==> r == OK
    ensures value.String? ==> (r.Ok? <==>
      '@' in value.str && '.' in value.str[LastIndex(value.str, '@') + 1..])
    ensures r.Err? ==> r.error == EMAIL_INVALID
  {
    match value
    case String(email) =>
      SplitLast(email, '@');
      if '@' !in email || '.' !in Last(Split(email, '@')) then Err(EMAIL_INVALID) else OK
    case _ => OK
  }

  /** `validate_password`: at least 6 bytes. */
  function ValidatePassword(value: ResponseValue): (r: Verdict)
    ensures !value.String? ==> r == OK
    ensures value.String? ==> (r.Ok? <==> ByteLen(value.str) >= 6)
    ensures r.Err? ==> r.error == PASSWORD_TOO_SHORT
  {
    match value
    case String(pw) => if ByteLen(pw) < 6 then Err(PASSWORD_TOO_SHORT) else OK
    case _ => OK
  }

  function TooFewWords(count: nat): string
  {
    "Write at least 10 words (" + NatToString(count) + " so far)"
  }

  /** `validate_cover_letter`: at least ten whitespace-separated words; the
      refusal reports how many there are. */
  function ValidateCoverLetter(value: ResponseValue): (r: Verdict)
    ensures !value.String? ==> r == OK
    ensures value.String? ==> (r.Ok? <==> |SplitWhitespace(value.str)| >= 10)
    ensures r.Err? ==> r.error == TooFewWords(|SplitWhitespace(value.str)|)
  {
    match value
    case String(text) =>
      var words := SplitWhitespace(text);
      if |words| < 10 then Err(TooFewWords(|words|)) else OK
    case _ => OK
  }

  /** A blank cover letter is refused with a count of zero. */
  lemma BlankLetterHasNoWords(text: string)
    requires AllWhitespace(text)
    ensures ValidateCoverLetter(String(text)) == Err(TooFewWords(0))
  {
    SplitWhitespaceEmpty(text);
  }

  /** `validate_skills`: between one and five picks. */
  function ValidateSkills(value: ResponseValue): (r: Verdict)
    ensures !value.ChosenVariants? ==> r == OK
    ensures value.ChosenVariants? ==> (r.Ok? <==> 1 <= |value.picks| <= 5)
    ensures value.ChosenVariants? && |value.picks| == 0 ==> r == Err(NO_SKILL)
    ensures value.ChosenVariants? && |value.picks| > 5 ==> r == Err(TOO_MANY_SKILLS)
  {
    match value
    case ChosenVariants(picks) =>
      if |picks| == 0 then Err(NO_SKILL)
      else if |picks| > 5 then Err(TOO_MANY_SKILLS)
      else OK
    case _ => OK
  }

  // ---------------------------------------------------------------------
  // Salary cap
  // ---------------------------------------------------------------------

  /** The cap as written, in the same unit as the answers (thousands of
      dollars a year). */
  const MAX_TOTAL_COMP: int := 250_000

  /** The cap the documentation states: $250k, that is 250 in the unit of
      the answers. */
  const MAX_TOTAL_COMP_K: int := 250

  /** The stored base salary and bonus, zero when not yet given. */
  function StoredBase(responses: Responses): int { GetInt(responses, Field("base")).UnwrapOr(0) }
  function StoredBonus(responses: Responses): int { GetInt(responses, Field("bonus")).UnwrapOr(0) }

  /** The candidate plus the stored base and bonus. */
  function TotalComp(current: int, responses: Responses): int
  {
    StoredBase(responses) + StoredBonus(responses) + current
  }

  /** The caps as `format!` prints them. */
  const MAX_TOTAL_COMP_TEXT := "250000"
  const MAX_TOTAL_COMP_K_TEXT := "250"

  lemma CapTexts()
    ensures IntToString(MAX_TOTAL_COMP) == MAX_TOTAL_COMP_TEXT
    ensures IntToString(MAX_TOTAL_COMP_K) == MAX_TOTAL_COMP_K_TEXT
  {
    assert NatToString(2) == "2";
    assert NatToString(25) == "25";
    assert NatToString(250) == "250";
    assert NatToString(2500) == "2500";
    assert NatToString(25000) == "25000";
  }

  function OverCap(total: int, capText: string): string
  {
    "Total comp $" + IntToString(total) + "k exceeds $" + capText + "k limit"
  }

  /** `validate_salary`, as written: the candidate plus the stored base and
      bonus may not exceed 250000. */
  function ValidateSalary(value: ResponseValue, responses: Responses): (r: Verdict)
    ensures !value.Int? ==> r == OK
    ensures value.Int? ==> (r.Ok? <==> TotalComp(value.i, responses) <= MAX_TOTAL_COMP)
    ensures r.Err? ==> r.error == OverCap(TotalComp(value.i, responses), MAX_TOTAL_COMP_TEXT)
  {
    match value
    case Int(current) =>
      var total := TotalComp(current, responses);
      if total > MAX_TOTAL_COMP then Err(OverCap(total, MAX_TOTAL_COMP_TEXT)) else OK
    case _ => OK
  }

  /** Every answer allowed by the salary form's own bounds: a stored base
      of 30 to 200, a stored bonus of 0 to 100, and a candidate that is one
      of the two (so 0 to 200). */
  predicate WithinFormBounds(value: ResponseValue, responses: Responses)
  {
    && (GetInt(responses, Field("base")).Some? ==> 30 <= StoredBase(responses) <= 200)
    && (GetInt(responses, Field("bonus")).Some? ==> 0 <= StoredBonus(responses) <= 100)
    && (value.Int? ==> 0 <= value.i <= 200)
  }

  /** As written, the cap can never be reached from answers the form
      accepts: their total is at most 500, far below 250000. */
  lemma SalaryCapUnreachable(value: ResponseValue, responses: Responses)
    requires WithinFormBounds(value, responses)
    ensures value.Int? ==> TotalComp(value.i, responses) <= 500
    ensures ValidateSalary(value, responses).Ok?
  {
  }

  /** `validate_salary` with the documented cap of $250k. */
  function ValidateSalaryIntended(value: ResponseValue, responses: Responses): (r: Verdict)
    ensures !value.Int? ==> r == OK
    ensures value.Int? ==> (r.Ok? <==> TotalComp(value.i, responses) <= MAX_TOTAL_COMP_K)
    ensures r.Err? ==> r.error == OverCap(TotalComp(value.i, responses), MAX_TOTAL_COMP_K_TEXT)
  {
    match value
    case Int(current) =>
      var total := TotalComp(current, responses);
      if total > MAX_TOTAL_COMP_K then Err(OverCap(total, MAX_TOTAL_COMP_K_TEXT)) else OK
    case _ => OK
  }

  /** With the documented cap, a base of 200 leaves room for a bonus of 50
      and not 51, so the check does bite on answers the form accepts; and
      it never lets through anything the written check refuses. */
  lemma SalaryIntendedBites(value: ResponseValue, responses: Responses)
    ensures var stored := map[Field("base") := ResponseValue.Int(200)];
      && ValidateSalaryIntended(ResponseValue.Int(50), stored).Ok?
      && ValidateSalaryIntended(ResponseValue.Int(51), stored).Err?
      && WithinFormBounds(ResponseValue.Int(51), stored)
      && ValidateSalary(ResponseValue.Int(51), stored).Ok?
    ensures ValidateSalary(value, responses).Err? ==> ValidateSalaryIntended(value, responses).Err?
  {
    var stored := map[Field("base") := ResponseValue.Int(200)];
    assert Field("bonus") != Field("base") by { assert "bonus"[1] != "base"[1]; }
    assert StoredBase(stored) == 200 && StoredBonus(stored) == 0;
  }
}
