/** The validators of the magic-forest survey: name, e-mail, passphrase and
    biography checks, an inventory budget, a skill count and a running total
    of character stats read from the answers already given. */
module MagicForest {
  import opened Wrappers
  import opened RustStr
  import opened RustNum
  import opened Surveys
  import opened Budgets

  const NAME_EMPTY := "Name cannot be empty"
  const NAME_TOO_SHORT := "Name must be at least 3 characters"
  const NAME_TOO_LONG := "Name must be at most 50 characters"
  const NAME_BAD_CHAR := "Name can only contain letters and spaces"
  const EMAIL_INVALID := "Please enter a valid email address"
  const EMAIL_FORMAT := "Email must be in format 'user@domain.com'"
  const PASSPHRASE_TOO_SHORT := "Passphrase must be at least 8 characters"
  const PASSPHRASE_NO_UPPERCASE := "Passphrase must contain at least one uppercase letter"
  const PASSPHRASE_NO_NUMBER := "Passphrase must contain at least one number"
  const BIO_TOO_LONG := "Biography must be at most 500 characters"
  const NO_SKILL := "You must select at least one skill"
  const TOO_MANY_SKILLS := "You can select at most 3 skills"

  predicate NameChar(c: char) { IsAlphabetic(c) || IsWhitespace(c) }
  predicate HasUppercase(s: string) { exists i :: 0 <= i < |s| && IsUppercase(s[i]) }
  predicate HasNumeric(s: string) { exists i :: 0 <= i < |s| && IsNumeric(s[i]) }

  /** `validate_name`: not blank, 3 to 50 bytes, letters and whitespace
      only; a blank name is reported as empty whatever its length. */
  function ValidateName(value: ResponseValue): (r: Verdict)
    ensures !value.String? ==> r == OK
    ensures value.String? ==> (r.Ok? <==>
      !AllWhitespace(value.str) && 3 <= ByteLen(value.str) <= 50
      && forall i :: 0 <= i < |value.str| ==> NameChar(value.str[i]))
    ensures value.String? && AllWhitespace(value.str) ==> r == Err(NAME_EMPTY)
    ensures value.String? && !AllWhitespace(value.str) && ByteLen(value.str) < 3 ==> r == Err(NAME_TOO_SHORT)
    ensures value.String? && !AllWhitespace(value.str) && ByteLen(value.str) > 50 ==> r == Err(NAME_TOO_LONG)
    ensures (value.String? && !AllWhitespace(value.str) && 3 <= ByteLen(value.str) <= 50 && r.Err?)
      ==> r == Err(NAME_BAD_CHAR)
  {
    match value
    case String(name) =>
      TrimBlank(name);
      if Trim(name) == "" then Err(NAME_EMPTY)
      else if ByteLen(name) < 3 then Err(NAME_TOO_SHORT)
      else if ByteLen(name) > 50 then Err(NAME_TOO_LONG)
      else if !(forall i :: 0 <= i < |name| ==> NameChar(name[i])) then Err(NAME_BAD_CHAR)
      else OK
    case _ => OK
  }

  /** `validate_email`: an `@` and a `.` must both occur, and splitting on
      `@` must give exactly two non-empty parts; that is, exactly one `@`,
      neither first nor last, and a dot anywhere. */
  function ValidateEmail(value: ResponseValue): (r: Verdict)
    ensures !value.String? ==> r == OK
    ensures value.String? ==> (r.Ok? <==>
      '.' in value.str && Count(value.str, '@') == 1
      && |value.str| >= 2 && value.str[0] != '@' && value.str[|value.str| - 1] != '@')
    ensures value.String? && ('@' !in value.str || '.' !in value.str) ==> r == Err(EMAIL_INVALID)
    ensures value.String? && r.Err? && '@' in value.str && '.' in value.str ==> r == Err(EMAIL_FORMAT)
  {
    match value
    case String(email) =>
      TwoNonEmptyParts(email, '@');
      CountZero(email, '@');
      if '@' !in email || '.' !in email then Err(EMAIL_INVALID)
      else
        var parts := Split(email, '@');
        if |parts| != 2 || parts[0] == "" || parts[1] == "" then Err(EMAIL_FORMAT)
        else OK
    case _ => OK
  }

  /** `validate_passphrase`: at least 8 bytes, then an upper-case letter,
      then a numeric character, reporting the first rule broken. */
  function ValidatePassphrase(value: ResponseValue): (r: Verdict)
    ensures !value.String? ==> r == OK
    ensures value.String? ==>
      (r.Ok? <==> ByteLen(value.str) >= 8 && HasUppercase(value.str) && HasNumeric(value.str))
    ensures value.String? && ByteLen(value.str) < 8 ==> r == Err(PASSPHRASE_TOO_SHORT)
    ensures value.String? && ByteLen(value.str) >= 8 && !HasUppercase(value.str) ==> r == Err(PASSPHRASE_NO_UPPERCASE)
    ensures value.String? && ByteLen(value.str) >= 8 && HasUppercase(value.str) && !HasNumeric(value.str)
      ==> r == Err(PASSPHRASE_NO_NUMBER)
  {
    match value
    case String(pass) =>
      if ByteLen(pass) < 8 then Err(PASSPHRASE_TOO_SHORT)
      else if !HasUppercase(pass) then Err(PASSPHRASE_NO_UPPERCASE)
      else if !HasNumeric(pass) then Err(PASSPHRASE_NO_NUMBER)
      else OK
    case _ => OK
  }

  /** `validate_bio`: at most 500 bytes. */
  function ValidateBio(value: ResponseValue): (r: Verdict)
    ensures !value.String? ==> r == OK
    ensures value.String? ==> (r.Ok? <==> ByteLen(value.str) <= 500)
    ensures r.Err? ==> r.error == BIO_TOO_LONG
  {
    match value
    case String(bio) => if ByteLen(bio) > 500 then Err(BIO_TOO_LONG) else OK
    case _ => OK
  }

  /** A biography of up to 125 characters always fits, whatever script it
      is written in (a character takes at most four bytes). */
  lemma ShortBioFits(bio: string)
    requires |bio| <= 125
    ensures ValidateBio(String(bio)).Ok?
  {
    ByteLenBounds(bio);
  }

  // ---------------------------------------------------------------------
  // Inventory budget and skills
  // ---------------------------------------------------------------------

  const STARTING_BUDGET: nat := 200

  /** Sword, Shield, Potion, Scroll, the chewing gum's base price and the
      Magic Wand; further indices cost nothing. */
  const PRICES: seq<nat> := [80, 50, 20, 10, 15, 100]

  function OverBudget(total: nat): string
  {
    "Over budget! Total: " + NatToString(total) + " gold, limit: " + NatToString(STARTING_BUDGET)
      + " gold. Remove some items."
  }

  /** `validate_inventory_budget`: sums the price of every chosen variant
      and rejects a total above 200, reporting it. */
  method ValidateInventoryBudget(value: ResponseValue) returns (r: Verdict)
    ensures !value.ChosenVariants? ==> r == OK
    ensures value.ChosenVariants? ==> (r.Ok? <==> TotalCost(PRICES, value.picks) <= STARTING_BUDGET)
    ensures r.Err? ==> r.error == OverBudget(TotalCost(PRICES, value.picks))
  {
    if !value.ChosenVariants? {
      return OK;
    }
    var selections := value.picks;
    var totalCost: nat := 0;
    for k := 0 to |selections|
      invariant totalCost == TotalCost(PRICES, selections[..k])
    {
      var variantIdx := selections[k];
      var itemCost: nat := match variantIdx
        case 0 => 80
        case 1 => 50
        case 2 => 20
        case 3 => 10
        case 4 => 15
        case 5 => 100
        case _ => 0;
      totalCost := totalCost + itemCost;
      assert selections[..k + 1][..k] == selections[..k];
    }
    assert selections[..|selections|] == selections;
    if totalCost > STARTING_BUDGET {
      r := Err(OverBudget(totalCost));
    } else {
      r := OK;
    }
  }

  /** The wand and the sword together already leave only 20 gold: adding
      the shield goes over. */
  lemma WandSwordShieldOverBudget()
    ensures TotalCost(PRICES, [5, 0]) == 180 <= STARTING_BUDGET
    ensures TotalCost(PRICES, [5, 0, 1]) == 230 > STARTING_BUDGET
  {
    assert [5, 0, 1][..2] == [5, 0];
    assert [5, 0][..1] == [5];
    assert [5][..0] == [];
  }

  /** `validate_skills`: between one and three picks. */
  function ValidateSkills(value: ResponseValue): (r: Verdict)
    ensures !value.ChosenVariants? ==> r == OK
    ensures value.ChosenVariants? ==> (r.Ok? <==> 1 <= |value.picks| <= 3)
    ensures value.ChosenVariants? && |value.picks| == 0 ==> r == Err(NO_SKILL)
    ensures value.ChosenVariants? && |value.picks| > 3 ==> r == Err(TOO_MANY_SKILLS)
  {
    match value
    case ChosenVariants(selections) =>
      if |selections| == 0 then Err(NO_SKILL)
      else if |selections| > 3 then Err(TOO_MANY_SKILLS)
      else OK
    case _ => OK
  }

  // ---------------------------------------------------------------------
  // Character stats
  // ---------------------------------------------------------------------

  const MAX_STAT_POINTS: int := 75

  /** The six stats whose stored values enter the running total. */
  const STAT_NAMES: seq<string> := ["strength", "dexterity", "intelligence", "wisdom", "charisma", "constitution"]

  /** The stored value of stat `name`, zero when it has not been given. */
  function StoredStat(responses: Responses, name: string): int
  {
    GetInt(responses, Field(name)).UnwrapOr(0)
  }

  /** The stored values of the stats `names`, summed. */
  function StoredSum(responses: Responses, names: seq<string>): int
  {
    if |names| == 0 then 0 else StoredSum(responses, names[..|names| - 1]) + StoredStat(responses, names[|names| - 1])
  }

  function StatMessage(total: int, current: int): string
  {
    var remaining := MAX_STAT_POINTS - total + current;
    "Total stat points (" + IntToString(total) + ") exceeds maximum of " + IntToString(MAX_STAT_POINTS)
      + "! You have " + IntToString(if remaining > 0 then remaining else 0) + " points remaining."
  }

  /** `validate_stat_total`: the candidate plus all six stored stats (the
      candidate's own stored value included, missing ones as zero) may not
      exceed 75. */
  function ValidateStatTotal(value: ResponseValue, responses: Responses): (r: Verdict)
    ensures !value.Int? ==> r == OK
    ensures value.Int? ==> (r.Ok? <==> value.i + StoredSum(responses, STAT_NAMES) <= MAX_STAT_POINTS)
    ensures r.Err? ==> r.error == StatMessage(value.i + StoredSum(responses, STAT_NAMES), value.i)
  {
    match value
    case Int(current) =>
      StoredSumOfStats(responses);
      var total := current as int
        + StoredStat(responses, "strength")
        + StoredStat(responses, "dexterity")
        + StoredStat(responses, "intelligence")
        + StoredStat(responses, "wisdom")
        + StoredStat(responses, "charisma")
        + StoredStat(responses, "constitution");
      if total > MAX_STAT_POINTS then Err(StatMessage(total, current)) else OK
    case _ => OK
  }

  /** The fold over the stat names is the six-term sum. */
  lemma StoredSumOfStats(responses: Responses)
    ensures StoredSum(responses, STAT_NAMES)
      == StoredStat(responses, "strength") + StoredStat(responses, "dexterity")
        + StoredStat(responses, "intelligence") + StoredStat(responses, "wisdom")
        + StoredStat(responses, "charisma") + StoredStat(responses, "constitution")
  {
    var n := STAT_NAMES;
    assert n[..1][..0] == [];
    assert StoredSum(responses, n[..1]) == StoredStat(responses, n[0]);
    assert n[..2][..1] == n[..1];
    assert StoredSum(responses, n[..2]) == StoredSum(responses, n[..1]) + StoredStat(responses, n[1]);
    assert n[..3][..2] == n[..2];
    assert StoredSum(responses, n[..3]) == StoredSum(responses, n[..2]) + StoredStat(responses, n[2]);
    assert n[..4][..3] == n[..3];
    assert StoredSum(responses, n[..4]) == StoredSum(responses, n[..3]) + StoredStat(responses, n[3]);
    assert n[..5][..4] == n[..4];
    assert StoredSum(responses, n[..5]) == StoredSum(responses, n[..4]) + StoredStat(responses, n[4]);
    assert n[..5] == n[..|n| - 1];
  }

  /** Before any stat is stored, only the candidate counts. */
  lemma FirstStatAlone(current: I64)
    ensures ValidateStatTotal(ResponseValue.Int(current), map[]).Ok? <==> current <= MAX_STAT_POINTS
  {
    StoredSumZero(map[], STAT_NAMES);
  }

  lemma {:induction false} StoredSumZero(responses: Responses, names: seq<string>)
    requires forall k :: 0 <= k < |names| ==> Field(names[k]) !in responses
    ensures StoredSum(responses, names) == 0
  {
    if |names| > 0 {
      StoredSumZero(responses, names[..|names| - 1]);
    }
  }

  /** A stat entered again is counted twice, once as the candidate and once
      as its stored value: re-entering a strength of 40 is refused although
      only 40 points are allocated. */
  lemma ReenteredStatCountsTwice()
    ensures ValidateStatTotal(ResponseValue.Int(40), map[Field("strength") := ResponseValue.Int(40)]).Err?
  {
    var responses := map[Field("strength") := ResponseValue.Int(40)];
    StoredSumOfStats(responses);
    assert StoredStat(responses, "strength") == 40;
    assert Field("dexterity") != Field("strength") by { assert "dexterity"[0] != "strength"[0]; }
    assert Field("intelligence") != Field("strength") by { assert "intelligence"[0] != "strength"[0]; }
    assert Field("wisdom") != Field("strength") by { assert "wisdom"[0] != "strength"[0]; }
    assert Field("charisma") != Field("strength") by { assert "charisma"[0] != "strength"[0]; }
    assert Field("constitution") != Field("strength") by { assert "constitution"[0] != "strength"[0]; }
  }
}
