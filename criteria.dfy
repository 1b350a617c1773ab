/**
 * The seven-field record of budget inputs that the form produces, the page
 * stores and the results view reads.
 */
module BudgetCriteria {

  /** Monthly income and expense estimates, all in the same currency unit. */
  datatype Criteria = Criteria(
    monthlyIncome: real,
    tuition: real,
    housing: real,
    mealPlan: real,
    textbooks: real,
    transportation: real,
    savingsGoal: real)

  /** The keys of a Criteria record, in declaration order. */
  datatype Field = MonthlyIncome | Tuition | Housing | MealPlan | Textbooks | Transportation | SavingsGoal

  /** Reads one field of a record by its key, as `criteria[field]` does. */
  function Get(c: Criteria, f: Field): real
  {
    match f
    case MonthlyIncome => c.monthlyIncome
    case Tuition => c.tuition
    case Housing => c.housing
    case MealPlan => c.mealPlan
    case Textbooks => c.textbooks
    case Transportation => c.transportation
    case SavingsGoal => c.savingsGoal
  }

  /** The record every field of which is zero. */
  const Zero: Criteria := Criteria(0.0, 0.0, 0.0, 0.0, 0.0, 0.0, 0.0)

  lemma ZeroIsAllZero(f: Field)
    ensures Get(Zero, f) == 0.0
  {
  }
}
