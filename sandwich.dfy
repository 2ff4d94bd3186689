/** The validators of the sandwich-builder survey: a cap on the number of
    toppings and a rough calorie check over the nutrition answers. */
module Sandwich {
  import opened Wrappers
  import opened RustNum
  import opened Surveys

  const MAX_TOPPINGS: nat := 6
  const CALORIE_LIMIT: int := 1500
  const TOO_MUCH_FOOD := "That's a lot of food! Consider a lighter option."

  function TooManyToppings(count: nat): string
  {
    "Max 6 toppings ($3 budget) - you picked " + NatToString(count)
  }

  /** `validate_toppings`: at most six picks; the refusal reports how many
      were picked. */
  function ValidateToppings(value: ResponseValue): (r: Verdict)
    ensures !value.ChosenVariants? ==> r == OK
    ensures value.ChosenVariants? ==> (r.Ok? <==> |value.picks| <= MAX_TOPPINGS)
    ensures r.Err? ==> r.error == TooManyToppings(|value.picks|)
  {
    match value
    case ChosenVariants(picks) =>
      if |picks| > 6 then Err(TooManyToppings(|picks|)) else OK
    case _ => OK
  }

  /** The stored calories and protein, zero when not yet given. */
  function StoredCalories(responses: Responses): int { GetInt(responses, Field("calories")).UnwrapOr(0) }
  function StoredProtein(responses: Responses): int { GetInt(responses, Field("protein")).UnwrapOr(0) }

  /** The rough energy estimate: stored calories, four per gram of stored
      protein, plus the number being entered. */
  function Estimate(current: int, responses: Responses): int
  {
    StoredCalories(responses) + 4 * StoredProtein(responses) + current
  }

  /** `validate_nutrition`: the estimate may be at most 1500. */
  function ValidateNutrition(value: ResponseValue, responses: Responses): (r: Verdict)
    ensures !value.Int? ==> r == OK
    ensures value.Int? ==> (r.Ok? <==> Estimate(value.i, responses) <= CALORIE_LIMIT)
    ensures r.Err? ==> r.error == TOO_MUCH_FOOD
  {
    match value
    case Int(current) =>
      var cals := GetInt(responses, Field("calories")).UnwrapOr(0);
      var protein := GetInt(responses, Field("protein")).UnwrapOr(0);
      var total := cals + protein * 4 + current;
      if total > 1500 then Err(TOO_MUCH_FOOD) else OK
    case _ => OK
  }

  /** Accepting a number accepts every smaller one against the same
      answers: the check only ever caps from above. */
  lemma NutritionMonotone(current: I64, smaller: I64, responses: Responses)
    requires smaller <= current
    requires ValidateNutrition(ResponseValue.Int(current), responses).Ok?
    ensures ValidateNutrition(ResponseValue.Int(smaller), responses).Ok?
  {
  }

  /** The limit is inclusive: with 1100 calories stored and no protein, 400
      more is accepted and 401 is not. */
  lemma NutritionBoundary()
    ensures var stored := map[Field("calories") := ResponseValue.Int(1100)];
      && ValidateNutrition(ResponseValue.Int(400), stored).Ok?
      && ValidateNutrition(ResponseValue.Int(401), stored).Err?
  {
    var stored := map[Field("calories") := ResponseValue.Int(1100)];
    assert Field("protein") != Field("calories") by { assert "protein"[0] != "calories"[0]; }
    assert StoredCalories(stored) == 1100 && StoredProtein(stored) == 0;
  }
}
