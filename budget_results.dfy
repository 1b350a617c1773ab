/**
 * The budget allocation of the results view: fixed costs are echoed, a
 * capped savings figure is taken from what is left, the rest is split
 * 30/15/25/30 over four flexible lines, and the derived lines are rounded.
 * Amounts are exact reals; rounding is JavaScript's Math.round.
 */
module BudgetResults {
  import opened BudgetCriteria

  datatype CategoryType = Fixed | Flexible | Savings

  /** One line of the breakdown. */
  datatype Category = Category(name: string, amount: real, kind: CategoryType)

  datatype Health = Healthy | Warning

  /** Display order of the nine lines. */
  const Names: seq<string> := [
    "Housing/Rent", "Food/Meals", "Insurance", "Transportation",
    "Entertainment", "Personal Care", "Emergency Fund", "Miscellaneous",
    "Savings"]

  const Kinds: seq<CategoryType> := [
    Fixed, Fixed, Fixed, Fixed,
    Flexible, Flexible, Flexible, Flexible,
    Savings]

  /** Shares of the discretionary money, in the order of the four flexible lines. */
  const Shares: seq<real> := [0.3, 0.15, 0.25, 0.3]

  /** The cap on savings as a fraction of what is left after fixed costs. */
  const SavingsRate: real := 0.2

  predicate IsInteger(x: real)
  {
    x.Floor as real == x
  }

  /** JavaScript's Math.round: the nearest integer, a tie going toward +infinity. */
  function Round(x: real): (r: int)
    ensures x - 0.5 < r as real <= x + 0.5
  {
    (x + 0.5).Floor
  }

  /** Only one integer lies in the half-open window Round picks from. */
  lemma RoundIsUnique(x: real, n: int)
    requires x - 0.5 < n as real <= x + 0.5
    ensures n == Round(x)
  {
  }

  /** Ties go up on both sides of zero. */
  lemma RoundTies()
    ensures Round(2.5) == 3 && Round(-2.5) == -2 && Round(0.5) == 1 && Round(-0.5) == 0
  {
  }

  function Min(a: real, b: real): (m: real)
    ensures m <= a && m <= b && (m == a || m == b)
  {
    if a <= b then a else b
  }

  function FixedTotal(c: Criteria): real
  {
    c.housing + c.mealPlan + c.textbooks + c.transportation
  }

  function Remaining(c: Criteria): real
  {
    c.monthlyIncome - FixedTotal(c)
  }

  /**
   * The goal, capped at a fifth of what is left. Not floored at zero: a
   * negative remainder gives a negative figure.
   */
  function RecommendedSavings(c: Criteria): (s: real)
    ensures s <= c.savingsGoal && s <= SavingsRate * Remaining(c)
    ensures s == c.savingsGoal || s == SavingsRate * Remaining(c)
    ensures Remaining(c) < 0.0 ==> s < 0.0
  {
    Min(c.savingsGoal, Remaining(c) * SavingsRate)
  }

  /** What is left for the flexible lines: at least four fifths of the remainder, since savings take at most a fifth. */
  function Discretionary(c: Criteria): (d: real)
    ensures d + RecommendedSavings(c) == Remaining(c)
    ensures d >= (1.0 - SavingsRate) * Remaining(c)
  {
    Remaining(c) - RecommendedSavings(c)
  }

  /** The nine amounts before any rounding, in display order. */
  function ExactAmounts(c: Criteria): (e: seq<real>)
    ensures |e| == 9
  {
    var d := Discretionary(c);
    [c.housing, c.mealPlan, c.textbooks, c.transportation,
     d * Shares[0], d * Shares[1], d * Shares[2], d * Shares[3],
     RecommendedSavings(c)]
  }

  /** The breakdown the results view renders. */
  function Allocate(c: Criteria): (cats: seq<Category>)
    ensures |cats| == 9
    ensures forall i :: 0 <= i < 9 ==> cats[i].name == Names[i] && cats[i].kind == Kinds[i]
    ensures cats[0].amount == c.housing && cats[1].amount == c.mealPlan
    ensures cats[2].amount == c.textbooks && cats[3].amount == c.transportation
    ensures forall i :: 4 <= i < 9 ==>
      IsInteger(cats[i].amount) &&
      ExactAmounts(c)[i] - 0.5 < cats[i].amount <= ExactAmounts(c)[i] + 0.5
  {
    var e := ExactAmounts(c);
    [Category(Names[0], c.housing, Fixed),
     Category(Names[1], c.mealPlan, Fixed),
     Category(Names[2], c.textbooks, Fixed),
     Category(Names[3], c.transportation, Fixed),
     Category(Names[4], Round(e[4]) as real, Flexible),
     Category(Names[5], Round(e[5]) as real, Flexible),
     Category(Names[6], Round(e[6]) as real, Flexible),
     Category(Names[7], Round(e[7]) as real, Flexible),
     Category(Names[8], Round(e[8]) as real, Savings)]
  }

  /** The fold `reduce((sum, cat) => sum + cat.amount, acc)`. */
  function TotalFrom(acc: real, cats: seq<Category>): real
    decreases |cats|
  {
    if cats == [] then acc else TotalFrom(acc + cats[0].amount, cats[1..])
  }

  function Total(cats: seq<Category>): real
  {
    TotalFrom(0.0, cats)
  }

  /** Reference definition of a total: the plain sum of a sequence of reals. */
  function Sum(xs: seq<real>): real
  {
    if xs == [] then 0.0 else xs[0] + Sum(xs[1..])
  }

  function Amounts(cats: seq<Category>): (xs: seq<real>)
    ensures |xs| == |cats| && forall i :: 0 <= i < |cats| ==> xs[i] == cats[i].amount
  {
    if cats == [] then [] else [cats[0].amount] + Amounts(cats[1..])
  }

  function TotalBudgeted(c: Criteria): real
  {
    Total(Allocate(c))
  }

  function BudgetHealth(c: Criteria): Health
  {
    if TotalBudgeted(c) <= c.monthlyIncome then Healthy else Warning
  }

  /** The "Remaining" readout: income minus the total budgeted. */
  function RemainingReadout(c: Criteria): real
  {
    c.monthlyIncome - TotalBudgeted(c)
  }

  /** The budget warning card is rendered only in the warning state. */
  predicate ShowsWarningCard(c: Criteria)
  {
    BudgetHealth(c) == Warning
  }

  /** The left fold equals the accumulator plus the plain sum of the amounts. */
  lemma {:induction false} TotalFromIsSum(acc: real, cats: seq<Category>)
    ensures TotalFrom(acc, cats) == acc + Sum(Amounts(cats))
    decreases |cats|
  {
    if cats != [] {
      TotalFromIsSum(acc + cats[0].amount, cats[1..]);
      assert Amounts(cats)[1..] == Amounts(cats[1..]);
    }
  }

  /** A sum of nine terms, written out. */
  lemma {:induction false} SumOfNine(xs: seq<real>)
    requires |xs| == 9
    ensures Sum(xs) == xs[0] + xs[1] + xs[2] + xs[3] + xs[4] + xs[5] + xs[6] + xs[7] + xs[8]
  {
    var s := xs;
    assert Sum(s[8..]) == s[8] by { assert s[8..][1..] == []; }
    assert Sum(s[7..]) == s[7] + Sum(s[8..]) by { assert s[7..][1..] == s[8..]; }
    assert Sum(s[6..]) == s[6] + Sum(s[7..]) by { assert s[6..][1..] == s[7..]; }
    assert Sum(s[5..]) == s[5] + Sum(s[6..]) by { assert s[5..][1..] == s[6..]; }
    assert Sum(s[4..]) == s[4] + Sum(s[5..]) by { assert s[4..][1..] == s[5..]; }
    assert Sum(s[3..]) == s[3] + Sum(s[4..]) by { assert s[3..][1..] == s[4..]; }
    assert Sum(s[2..]) == s[2] + Sum(s[3..]) by { assert s[2..][1..] == s[3..]; }
    assert Sum(s[1..]) == s[1] + Sum(s[2..]) by { assert s[1..][1..] == s[2..]; }
  }

  /** The four shares add up to the whole: the unrounded flexible lines split the discretionary money exactly. */
  lemma SharesSplitDiscretionary(c: Criteria)
    ensures ExactAmounts(c)[4] + ExactAmounts(c)[5] + ExactAmounts(c)[6] + ExactAmounts(c)[7] == Discretionary(c)
  {
  }

  /** Before rounding, the nine lines account for the income exactly. */
  lemma {:induction false} ExactAmountsSumToIncome(c: Criteria)
    ensures Sum(ExactAmounts(c)) == c.monthlyIncome
  {
    SumOfNine(ExactAmounts(c));
    SharesSplitDiscretionary(c);
  }

  /** The total is the sum of the nine rendered amounts. */
  lemma {:induction false} TotalIsSumOfAmounts(c: Criteria)
    ensures TotalBudgeted(c) == Sum(Amounts(Allocate(c)))
    ensures TotalBudgeted(c) == FixedTotal(c) + Allocate(c)[4].amount + Allocate(c)[5].amount
      + Allocate(c)[6].amount + Allocate(c)[7].amount + Allocate(c)[8].amount
  {
    var cats := Allocate(c);
    TotalFromIsSum(0.0, cats);
    SumOfNine(Amounts(cats));
  }

  /** Rounding five lines by at most a half each moves the total at most 5/2 from the income. */
  lemma {:induction false} TotalNearIncome(c: Criteria)
    ensures c.monthlyIncome - 2.5 < TotalBudgeted(c) <= c.monthlyIncome + 2.5
  {
    TotalIsSumOfAmounts(c);
    ExactAmountsSumToIncome(c);
    SumOfNine(ExactAmounts(c));
  }

  /** How far rounding the five derived lines moved them, in total. */
  function RoundingDrift(c: Criteria): real
  {
    var cats, e := Allocate(c), ExactAmounts(c);
    (cats[4].amount - e[4]) + (cats[5].amount - e[5]) + (cats[6].amount - e[6])
      + (cats[7].amount - e[7]) + (cats[8].amount - e[8])
  }

  /**
   * The health flag reflects rounding alone: fixed costs above the income
   * are absorbed by negative savings and flexible lines, so the warning
   * appears exactly when rounding pushed the total up.
   */
  lemma {:induction false} HealthReflectsRoundingOnly(c: Criteria)
    ensures TotalBudgeted(c) == c.monthlyIncome + RoundingDrift(c)
    ensures BudgetHealth(c) == Healthy <==> RoundingDrift(c) <= 0.0
  {
    TotalIsSumOfAmounts(c);
    ExactAmountsSumToIncome(c);
    SumOfNine(ExactAmounts(c));
  }

  /** Healthy exactly when the displayed remainder is not negative. */
  lemma HealthMatchesReadout(c: Criteria)
    ensures BudgetHealth(c) == Healthy <==> RemainingReadout(c) >= 0.0
  {
  }

  /** The warning card appears exactly when more is budgeted than earned. */
  lemma WarningCardIffOverBudget(c: Criteria)
    ensures ShowsWarningCard(c) <==> TotalBudgeted(c) > c.monthlyIncome
  {
  }

  /**
   * The amounts, the total and the health flag depend only on income,
   * housing, meal plan, textbooks, transportation and the savings goal:
   * tuition is never read.
   */
  lemma TuitionIgnored(c: Criteria, t: real)
    ensures Allocate(c.(tuition := t)) == Allocate(c)
    ensures TotalBudgeted(c.(tuition := t)) == TotalBudgeted(c)
    ensures BudgetHealth(c.(tuition := t)) == BudgetHealth(c)
  {
  }

  /** Income 1500 against 1300 of fixed costs and a goal of 200. */
  lemma {:induction false} WorkedExample()
    ensures var c := Criteria(1500.0, 0.0, 800.0, 300.0, 100.0, 100.0, 200.0);
      var cats := Allocate(c);
      cats[4].amount == 48.0 && cats[5].amount == 24.0 && cats[6].amount == 40.0 &&
      cats[7].amount == 48.0 && cats[8].amount == 40.0 &&
      TotalBudgeted(c) == 1500.0 && BudgetHealth(c) == Healthy
  {
    var c := Criteria(1500.0, 0.0, 800.0, 300.0, 100.0, 100.0, 200.0);
    assert RecommendedSavings(c) == 40.0;
    assert Discretionary(c) == 160.0;
    RoundIsUnique(48.0, 48);
    RoundIsUnique(24.0, 24);
    RoundIsUnique(40.0, 40);
    TotalIsSumOfAmounts(c);
  }

  /**
   * Fixed costs of 1200 against an income of 1000: savings and the
   * flexible lines go negative and absorb the overrun, the total equals
   * the income, and the budget is reported healthy.
   */
  lemma {:induction false} OverspentExample()
    ensures var c := Criteria(1000.0, 0.0, 900.0, 300.0, 0.0, 0.0, 100.0);
      var cats := Allocate(c);
      cats[4].amount == -48.0 && cats[5].amount == -24.0 && cats[6].amount == -40.0 &&
      cats[7].amount == -48.0 && cats[8].amount == -40.0 &&
      TotalBudgeted(c) == 1000.0 && BudgetHealth(c) == Healthy
  {
    var c := Criteria(1000.0, 0.0, 900.0, 300.0, 0.0, 0.0, 100.0);
    assert RecommendedSavings(c) == -40.0;
    assert Discretionary(c) == -160.0;
    RoundIsUnique(-48.0, -48);
    RoundIsUnique(-24.0, -24);
    RoundIsUnique(-40.0, -40);
    TotalIsSumOfAmounts(c);
  }

  /**
   * Fixed costs one above the income: every derived line rounds to zero,
   * the total is 1001, and the warning is raised.
   */
  lemma {:induction false} SlightOverrunWarns(c: Criteria)
    requires c == Criteria(1000.0, 0.0, 1001.0, 0.0, 0.0, 0.0, 100.0)
    ensures forall i :: 4 <= i < 9 ==> Allocate(c)[i].amount == 0.0
    ensures TotalBudgeted(c) == 1001.0 && BudgetHealth(c) == Warning
  {
    assert RecommendedSavings(c) == -0.2;
    assert Discretionary(c) == -0.8;
    RoundIsUnique(-0.24, 0);
    RoundIsUnique(-0.12, 0);
    RoundIsUnique(-0.2, 0);
    TotalIsSumOfAmounts(c);
  }

  /**
   * An income of 15 and no expenses at all: three of the five derived
   * lines round up (3.6, 1.8 and 3.6; the emergency fund and savings are
   * already whole at 3), the total is 16, and the warning is raised.
   */
  lemma {:induction false} NoExpensesCanWarn(c: Criteria)
    requires c == Criteria(15.0, 0.0, 0.0, 0.0, 0.0, 0.0, 100.0)
    ensures Allocate(c)[4].amount == 4.0 && Allocate(c)[5].amount == 2.0
    ensures Allocate(c)[6].amount == 3.0 && Allocate(c)[7].amount == 4.0
    ensures Allocate(c)[8].amount == 3.0
    ensures TotalBudgeted(c) == 16.0 && BudgetHealth(c) == Warning
  {
    assert RecommendedSavings(c) == 3.0;
    assert Discretionary(c) == 12.0;
    RoundIsUnique(3.6, 4);
    RoundIsUnique(1.8, 2);
    RoundIsUnique(3.0, 3);
    TotalIsSumOfAmounts(c);
  }
}
