/** The figures of frontend/src/components/Profile/StatsTab.tsx: the trip
    count, the budget total (`t.budget || 0` summed) and the average per
    trip, which is JavaScript number division and so a real here. */
module StatsTab {
  import opened Common

  /** `t.budget || 0`: a missing budget counts as 0. */
  function BudgetOf(budget: Option<int>): int
  {
    if budget.Some? then budget.value else 0
  }

  function TotalBudget(budgets: seq<Option<int>>): (total: int)
    ensures budgets == [] ==> total == 0
    ensures (forall i :: 0 <= i < |budgets| ==> budgets[i].None?) ==> total == 0
    ensures (forall i :: 0 <= i < |budgets| ==> BudgetOf(budgets[i]) >= 0) ==> total >= 0
  {
    if budgets == [] then 0 else TotalBudget(budgets[..|budgets| - 1]) + BudgetOf(budgets[|budgets| - 1])
  }

  /** `trips.length ? totalBudget / trips.length : 0`. */
  function AverageBudget(budgets: seq<Option<int>>): (avg: real)
    ensures budgets == [] ==> avg == 0.0
    ensures budgets != [] ==> avg * (|budgets| as real) == TotalBudget(budgets) as real
  {
    if |budgets| == 0 then 0.0 else TotalBudget(budgets) as real / (|budgets| as real)
  }

  /** Adding one more trip adds its budget, or nothing when it has none. */
  lemma {:induction false} TotalBudgetAppend(budgets: seq<Option<int>>, more: seq<Option<int>>)
    ensures TotalBudget(budgets + more) == TotalBudget(budgets) + TotalBudget(more)
    decreases |more|
  {
    if more == [] {
      assert budgets + more == budgets;
    } else {
      assert (budgets + more)[..|budgets + more| - 1] == budgets + more[..|more| - 1];
      TotalBudgetAppend(budgets, more[..|more| - 1]);
    }
  }

  /** When every trip has the same budget b, the average is b. */
  lemma {:induction false} UniformAverage(budgets: seq<Option<int>>, b: int)
    requires budgets != []
    requires forall i :: 0 <= i < |budgets| ==> BudgetOf(budgets[i]) == b
    ensures AverageBudget(budgets) == b as real
  {
    UniformTotal(budgets, b);
    AverageOfUniform(AverageBudget(budgets), TotalBudget(budgets), |budgets|, b);
  }

  lemma {:induction false} UniformTotal(budgets: seq<Option<int>>, b: int)
    requires forall i :: 0 <= i < |budgets| ==> BudgetOf(budgets[i]) == b
    ensures TotalBudget(budgets) == |budgets| * b
    decreases |budgets|
  {
    if budgets != [] {
      var n := |budgets|;
      var init := budgets[..n - 1];
      assert forall i :: 0 <= i < |init| ==> init[i] == budgets[i];
      UniformTotal(init, b);
      assert TotalBudget(budgets) == (n - 1) * b + BudgetOf(budgets[n - 1]);
      MulStep(n, b);
    }
  }

  lemma MulStep(n: int, b: int)
    ensures (n - 1) * b + b == n * b
  {
  }

  /** An average that times n trips gives n x b is b. */
  lemma AverageOfUniform(avg: real, total: int, n: nat, b: int)
    requires n > 0 && avg * (n as real) == total as real && total == n * b
    ensures avg == b as real
  {
    assert (n * b) as real == (n as real) * (b as real);
    assert (avg - b as real) * (n as real) == 0.0;
  }
}
