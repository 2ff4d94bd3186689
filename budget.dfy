/** The cost of a multi-choice selection under a price table: each chosen
    variant index costs its entry in the table, and an index past the end of
    the table costs nothing.  Shared by the budget validators of the
    example surveys. */
module Budgets {

  /** The price of variant `idx`. */
  function ItemCost(table: seq<nat>, idx: nat): nat
  {
    if idx < |table| then table[idx] else 0
  }

  /** The summed price of `picks`, as a left-to-right running total. */
  function TotalCost(table: seq<nat>, picks: seq<nat>): nat
  {
    if |picks| == 0 then 0 else TotalCost(table, picks[..|picks| - 1]) + ItemCost(table, picks[|picks| - 1])
  }

  /** The total of two selections one after the other is the sum of their
      totals. */
  lemma {:induction false} TotalCostAppend(table: seq<nat>, a: seq<nat>, b: seq<nat>)
    ensures TotalCost(table, a + b) == TotalCost(table, a) + TotalCost(table, b)
    decreases |b|
  {
    if |b| == 0 {
      assert a + b == a;
    } else {
      var b' := b[..|b| - 1];
      assert (a + b)[..|a + b| - 1] == a + b';
      TotalCostAppend(table, a, b');
    }
  }

  /** The order in which variants are picked does not matter. */
  lemma TotalCostSwap(table: seq<nat>, a: seq<nat>, b: seq<nat>)
    ensures TotalCost(table, a + b) == TotalCost(table, b + a)
  {
    TotalCostAppend(table, a, b);
    TotalCostAppend(table, b, a);
  }

  /** Picking an index the table does not price, anywhere in a selection,
      leaves the total unchanged. */
  lemma UnpricedPickIsFree(table: seq<nat>, a: seq<nat>, idx: nat, b: seq<nat>)
    requires idx >= |table|
    ensures TotalCost(table, a + [idx] + b) == TotalCost(table, a + b)
  {
    TotalCostAppend(table, a + [idx], b);
    TotalCostAppend(table, a, [idx]);
    TotalCostAppend(table, a, b);
    assert [idx][..0] == [];
  }
}
