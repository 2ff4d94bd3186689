/** The validators of the simple spooky-forest survey: a name length check
    and a starting budget for the multi-choice inventory. */
module SpookyForest {
  import opened Wrappers
  import opened RustStr
  import opened RustNum
  import opened Surveys
  import opened Budgets

  const NAME_LENGTH := "Name must be between 3 and 99 characters"
  const STARTING_BUDGET: nat := 150

  /** Sword, Shield, Potion, Scroll and the chewing gum's base price; the
      gum's quantity is not priced and further indices cost nothing. */
  const PRICES: seq<nat> := [80, 50, 20, 10, 2]

  /** `is_valid_name`: a string is accepted when its byte length lies
      strictly between 2 and 100. */
  function IsValidName(value: ResponseValue): (r: Verdict)
    ensures !value.String? ==> r == OK
    ensures value.String? ==> (r.Ok? <==> 3 <= ByteLen(value.str) <= 99)
    ensures r.Err? ==> r.error == NAME_LENGTH
  {
    match value
    case String(name) => if ByteLen(name) > 2 && ByteLen(name) < 100 then OK else Err(NAME_LENGTH)
    case _ => OK
  }

  function OverBudget(total: nat): string
  {
    "Over budget! Total: " + NatToString(total) + " gold, limit: " + NatToString(STARTING_BUDGET) + " gold"
  }

  /** `is_within_starting_budget`: sums the price of every chosen variant
      and accepts a total of at most 150, reporting the total otherwise. */
  method IsWithinStartingBudget(value: ResponseValue) returns (r: Verdict)
    ensures !value.ChosenVariants? ==> r == OK
    ensures value.ChosenVariants? ==> (r.Ok? <==> TotalCost(PRICES, value.picks) <= STARTING_BUDGET)
    ensures r.Err? ==> r.error == OverBudget(TotalCost(PRICES, value.picks))
  {
    if !value.ChosenVariants? {
      return OK;
    }
    var selections := value.picks;
    var totalCost: nat := 0;
    for k := 0 to |selections|
      invariant totalCost == TotalCost(PRICES, selections[..k])
    {
      var variantIdx := selections[k];
      var itemCost: nat := match variantIdx
        case 0 => 80
        case 1 => 50
        case 2 => 20
        case 3 => 10
        case 4 => 2
        case _ => 0;
      totalCost := totalCost + itemCost;
      assert selections[..k + 1][..k] == selections[..k];
    }
    assert selections[..|selections|] == selections;
    if totalCost <= STARTING_BUDGET {
      r := OK;
    } else {
      r := Err(OverBudget(totalCost));
    }
  }

  /** The budget is inclusive: Sword, Shield and Potion cost exactly 150
      and fit, adding a Scroll makes 160 and does not. */
  lemma BudgetBoundary()
    ensures TotalCost(PRICES, [0, 1, 2]) == STARTING_BUDGET
    ensures TotalCost(PRICES, [0, 1, 2, 3]) == 160 > STARTING_BUDGET
  {
    assert [0, 1, 2][..2] == [0, 1];
    assert [0, 1][..1] == [0];
    assert [0, 1, 2, 3][..3] == [0, 1, 2];
    assert [0][..0] == [];
  }

  /** Picking a variant with index 5 or more, anywhere in a selection,
      never changes the total and so never changes the verdict. */
  lemma HighIndexIsFree(a: seq<nat>, idx: nat, b: seq<nat>)
    requires idx >= 5
    ensures TotalCost(PRICES, a + [idx] + b) == TotalCost(PRICES, a + b)
  {
    UnpricedPickIsFree(PRICES, a, idx, b);
  }
}
