/**
 * The input form: a criteria record held as component state, edited one
 * field at a time from free text, and handed on unchanged on submit.
 */
module BudgetForm {
  import opened Wrappers
  import opened BudgetCriteria

  /** JavaScript truthiness of a parsed number: NaN (None) and zero are falsy. */
  predicate Truthy(parsed: Option<real>)
  {
    parsed.Some? && parsed.value != 0.0
  }

  /**
   * `parseFloat(text) || 0`: a falsy parse falls back to zero. Because a
   * parsed zero falls back to zero as well, the stored value is simply the
   * parsed number, or zero for text that does not parse.
   */
  function Coerce(parsed: Option<real>): (v: real)
    ensures v == (if parsed.Some? then parsed.value else 0.0)
    ensures v == 0.0 <==> !Truthy(parsed)
  {
    if Truthy(parsed) then parsed.value else 0.0
  }

  /** `{...c, [f]: v}`: the record with one field replaced. */
  function With(c: Criteria, f: Field, v: real): (r: Criteria)
    ensures forall g :: Get(r, g) == if g == f then v else Get(c, g)
  {
    match f
    case MonthlyIncome => c.(monthlyIncome := v)
    case Tuition => c.(tuition := v)
    case Housing => c.(housing := v)
    case MealPlan => c.(mealPlan := v)
    case Textbooks => c.(textbooks := v)
    case Transportation => c.(transportation := v)
    case SavingsGoal => c.(savingsGoal := v)
  }

  /** What an input box shows: `value || ""`. */
  datatype Shown = Blank | Number(value: real)

  function Display(v: real): (s: Shown)
    ensures s == Blank <==> v == 0.0
    ensures s.Number? ==> s.value == v
  {
    if v != 0.0 then Number(v) else Blank
  }

  /** The six input boxes of the form; tuition has none. */
  datatype Input = IncomeBox | HousingBox | MealPlanBox | TextbooksBox | TransportationBox | SavingsBox

  /** The field each box's change handler updates. */
  function Wired(i: Input): (f: Field)
    ensures f != Tuition
  {
    match i
    case IncomeBox => MonthlyIncome
    case HousingBox => Housing
    case MealPlanBox => MealPlan
    case TextbooksBox => Textbooks
    case TransportationBox => Transportation
    case SavingsBox => SavingsGoal
  }

  /** The box that shows a field, for every field but tuition. */
  function BoxFor(f: Field): (i: Input)
    requires f != Tuition
    ensures Wired(i) == f
  {
    match f
    case MonthlyIncome => IncomeBox
    case Housing => HousingBox
    case MealPlan => MealPlanBox
    case Textbooks => TextbooksBox
    case Transportation => TransportationBox
    case SavingsGoal => SavingsBox
  }

  /** No two boxes update the same field. */
  lemma WiredInjective(i: Input, j: Input)
    ensures Wired(i) == Wired(j) ==> i == j
  {
  }

  /** The text typed into one box. */
  datatype Edit = Edit(box: Input, text: string)

  /** The state after one `updateCriteria` call. */
  function Update(c: Criteria, f: Field, text: string, parseFloat: string -> Option<real>): Criteria
  {
    With(c, f, Coerce(parseFloat(text)))
  }

  /** The state after a sequence of edits made through the boxes, oldest first. */
  function ApplyEdits(c: Criteria, edits: seq<Edit>, parseFloat: string -> Option<real>): Criteria
    decreases |edits|
  {
    if edits == [] then c
    else ApplyEdits(Update(c, Wired(edits[0].box), edits[0].text, parseFloat), edits[1..], parseFloat)
  }

  /** One update changes the named field and no other. */
  lemma UpdateTouchesOneField(c: Criteria, f: Field, text: string, parseFloat: string -> Option<real>, g: Field)
    ensures Get(Update(c, f, text, parseFloat), f) == Coerce(parseFloat(text))
    ensures g != f ==> Get(Update(c, f, text, parseFloat), g) == Get(c, g)
  {
  }

  /** Text that does not parse, or parses to zero, stores zero and shows a blank box. */
  lemma UnparsableShowsBlank(c: Criteria, f: Field, text: string, parseFloat: string -> Option<real>)
    ensures Display(Get(Update(c, f, text, parseFloat), f)) == Blank <==> !Truthy(parseFloat(text))
  {
  }

  /** No edit made through the boxes reaches tuition. */
  lemma {:induction false} EditsLeaveTuition(c: Criteria, edits: seq<Edit>, parseFloat: string -> Option<real>)
    ensures ApplyEdits(c, edits, parseFloat).tuition == c.tuition
    decreases |edits|
  {
    if edits != [] {
      var next := Update(c, Wired(edits[0].box), edits[0].text, parseFloat);
      assert Get(next, Tuition) == Get(c, Tuition);
      EditsLeaveTuition(next, edits[1..], parseFloat);
    }
  }

  /** Starting from the empty form, tuition is submitted as zero whatever was typed. */
  lemma TuitionStaysZero(edits: seq<Edit>, parseFloat: string -> Option<real>)
    ensures ApplyEdits(Zero, edits, parseFloat).tuition == 0.0
  {
    EditsLeaveTuition(Zero, edits, parseFloat);
  }

  /** The form component's state. `parseFloat` stands for the browser's number parser. */
  class Form {
    var criteria: Criteria
    const parseFloat: string -> Option<real>

    constructor (parseFloat: string -> Option<real>)
      ensures criteria == Zero && this.parseFloat == parseFloat
    {
      criteria := Zero;
      this.parseFloat := parseFloat;
    }

    method UpdateCriteria(field: Field, text: string)
      modifies this
      ensures criteria == Update(old(criteria), field, text, parseFloat)
      ensures Get(criteria, field) == Coerce(parseFloat(text))
      ensures forall g :: g != field ==> Get(criteria, g) == Get(old(criteria), g)
    {
      criteria := With(criteria, field, Coerce(parseFloat(text)));
    }

    /** A box's change handler. */
    method OnChange(e: Edit)
      modifies this
      ensures criteria == ApplyEdits(old(criteria), [e], parseFloat)
    {
      UpdateCriteria(Wired(e.box), e.text);
    }

    /** The record passed to `onBudgetGenerated`. */
    method HandleSubmit() returns (submitted: Criteria)
      ensures submitted == criteria
    {
      submitted := criteria;
    }

    function Shows(box: Input): (s: Shown)
      reads this
      ensures s == Blank <==> Get(criteria, Wired(box)) == 0.0
      ensures s.Number? ==> s.value == Get(criteria, Wired(box))
    {
      Display(Get(criteria, Wired(box)))
    }
  }
}
