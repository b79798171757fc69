/**
 * The analysis report: the editable copy of the food items, the totals
 * recomputed after an edit to a macro, the glycemic load kept in step with
 * GI and carbs, the budget card, and the meal entry made from the report.
 */
module ResultDisplay {
  import opened JsValues
  import opened Types
  import opened Gauge

  /** One `handleItemChange` call: the field and its new value. */
  datatype ItemEdit =
    | SetName(text: string)
    | SetCalories(n: Number)
    | SetCarbs(n: Number)
    | SetProtein(n: Number)
    | SetFat(n: Number)
    | SetGi(n: Number)

  /** The fields whose change triggers `recalculateSummary`. */
  predicate ChangesMacro(e: ItemEdit)
  {
    e.SetCalories? || e.SetCarbs? || e.SetProtein? || e.SetFat?
  }

  /** The fields whose change triggers the glycemic-load update. */
  predicate ChangesLoadInputs(e: ItemEdit)
  {
    e.SetGi? || e.SetCarbs?
  }

  /** `x` is an integer and the nearest one to `y` (as `Math.round` gives it). */
  predicate RoundedFrom(x: real, y: real)
  {
    x == x.Floor as real && x - 0.5 <= y < x + 0.5
  }

  /** `Math.round((gi * carbs) / 100)`, NaN counting as 0. */
  function GlycemicLoad(gi: Number, carbs: Number): (gl: real)
    ensures RoundedFrom(gl, OrZero(gi) * OrZero(carbs) / 100.0)
  {
    Round(OrZero(gi) * OrZero(carbs) / 100.0) as real
  }

  /** An item whose glycemic load is its documented value, GI times carbs over 100, rounded. */
  predicate LoadConsistent(item: FoodItem)
  {
    item.glycemicLoad.Num? && RoundedFrom(item.glycemicLoad.value, OrZero(item.giValue) * OrZero(item.carbsG) / 100.0)
  }

  /**
   * One edit to one item: the field takes the new value; a change to GI or
   * carbs also recomputes the glycemic load from the item's new values; the
   * GI level and the portion are never edited.
   */
  function EditItem(item: FoodItem, e: ItemEdit): (r: FoodItem)
    ensures r.name == (if e.SetName? then e.text else item.name)
    ensures r.caloriesApprox == (if e.SetCalories? then e.n else item.caloriesApprox)
    ensures r.carbsG == (if e.SetCarbs? then e.n else item.carbsG)
    ensures r.proteinG == (if e.SetProtein? then e.n else item.proteinG)
    ensures r.fatG == (if e.SetFat? then e.n else item.fatG)
    ensures r.giValue == (if e.SetGi? then e.n else item.giValue)
    ensures r.giLevel == item.giLevel && r.portionSize == item.portionSize
    ensures ChangesLoadInputs(e) ==> LoadConsistent(r)
    ensures !ChangesLoadInputs(e) ==> r.glycemicLoad == item.glycemicLoad
  {
    var updated := match e
      case SetName(t) => item.(name := t)
      case SetCalories(n) => item.(caloriesApprox := n)
      case SetCarbs(n) => item.(carbsG := n)
      case SetProtein(n) => item.(proteinG := n)
      case SetFat(n) => item.(fatG := n)
      case SetGi(n) => item.(giValue := n);
    if ChangesLoadInputs(e) then
      updated.(glycemicLoad := Num(GlycemicLoad(updated.giValue, updated.carbsG)))
    else updated
  }

  /** No edit breaks an item's glycemic load once it agrees with GI and carbs. */
  lemma EditKeepsLoadConsistent(item: FoodItem, e: ItemEdit)
    requires LoadConsistent(item)
    ensures LoadConsistent(EditItem(item, e))
  {
  }

  /** The four macro fields summed by `recalculateSummary`. */
  datatype Macro = Calories | Carbs | Protein | Fat

  function MacroOf(item: FoodItem, m: Macro): Number
  {
    match m
    case Calories => item.caloriesApprox
    case Carbs => item.carbsG
    case Protein => item.proteinG
    case Fat => item.fatG
  }

  /** `items.reduce((acc, item) => acc + (Number(item.<macro>) || 0), 0)`, peeling the last item off. */
  function MacroSum(items: seq<FoodItem>, m: Macro): (total: real)
    ensures items == [] ==> total == 0.0
    ensures (forall i :: 0 <= i < |items| ==> OrZero(MacroOf(items[i], m)) >= 0.0) ==> total >= 0.0
    decreases |items|
  {
    if items == [] then 0.0
    else MacroSum(items[..|items| - 1], m) + OrZero(MacroOf(items[|items| - 1], m))
  }

  /** Replacing one item changes a total by exactly the difference of that item's values. */
  lemma {:induction false} MacroSumUpdate(items: seq<FoodItem>, i: nat, x: FoodItem, m: Macro)
    requires i < |items|
    ensures MacroSum(items[i := x], m) == MacroSum(items, m) - OrZero(MacroOf(items[i], m)) + OrZero(MacroOf(x, m))
    decreases |items|
  {
    var n := |items|;
    var updated := items[i := x];
    if i == n - 1 {
      assert updated[..n - 1] == items[..n - 1];
    } else {
      MacroSumUpdate(items[..n - 1], i, x, m);
      assert updated[..n - 1] == items[..n - 1][i := x];
    }
  }

  /**
   * `recalculateSummary`: each total becomes the rounded sum over the items;
   * the meal type, the description and the score are kept.
   */
  function Recalculate(prev: AnalysisSummary, items: seq<FoodItem>): (s: AnalysisSummary)
    ensures s.mealType == prev.mealType && s.shortDescription == prev.shortDescription
    ensures s.overallHealthScore == prev.overallHealthScore
    ensures RoundedFrom(s.totalCalories, MacroSum(items, Calories))
    ensures RoundedFrom(s.totalCarbs, MacroSum(items, Carbs))
    ensures RoundedFrom(s.totalProtein, MacroSum(items, Protein))
    ensures RoundedFrom(s.totalFat, MacroSum(items, Fat))
  {
    prev.(totalCalories := Round(MacroSum(items, Calories)) as real,
          totalCarbs := Round(MacroSum(items, Carbs)) as real,
          totalProtein := Round(MacroSum(items, Protein)) as real,
          totalFat := Round(MacroSum(items, Fat)) as real)
  }

  /** An edit to a field other than `m` leaves the total of `m` as it was. */
  lemma OtherEditKeepsTotal(items: seq<FoodItem>, i: nat, e: ItemEdit, m: Macro)
    requires i < |items|
    requires !(e.SetCalories? && m == Calories) && !(e.SetCarbs? && m == Carbs)
    requires !(e.SetProtein? && m == Protein) && !(e.SetFat? && m == Fat)
    ensures MacroSum(items[i := EditItem(items[i], e)], m) == MacroSum(items, m)
  {
    MacroSumUpdate(items, i, EditItem(items[i], e), m);
  }

  /** Recomputing after an edit that touches no macro gives the same summary. */
  lemma NonMacroEditKeepsSummary(prev: AnalysisSummary, items: seq<FoodItem>, i: nat, e: ItemEdit)
    requires i < |items| && !ChangesMacro(e)
    ensures Recalculate(prev, items[i := EditItem(items[i], e)]) == Recalculate(prev, items)
  {
    OtherEditKeepsTotal(items, i, e, Calories);
    OtherEditKeepsTotal(items, i, e, Carbs);
    OtherEditKeepsTotal(items, i, e, Protein);
    OtherEditKeepsTotal(items, i, e, Fat);
  }

  /** `editableDetails.map(i => i.name)`. */
  function ItemNames(items: seq<FoodItem>): (names: seq<string>)
    ensures |names| == |items|
    ensures forall i :: 0 <= i < |items| ==> names[i] == items[i].name
    decreases |items|
  {
    if items == [] then [] else [items[0].name] + ItemNames(items[1..])
  }

  /** The meal entry `handleAdd` builds from the current summary and items. */
  function EntryFrom(id: string, timestamp: int, summary: AnalysisSummary, items: seq<FoodItem>): (e: MealEntry)
    ensures e.id == id && e.timestamp == timestamp && e.name == summary.mealType
    ensures e.calories == summary.totalCalories && e.carbs == summary.totalCarbs
    ensures e.protein == summary.totalProtein && e.fat == summary.totalFat
    ensures e.items == ItemNames(items)
  {
    MealEntry(id, timestamp, summary.mealType, summary.totalCalories, summary.totalCarbs,
              summary.totalProtein, summary.totalFat, ItemNames(items))
  }

  /** `userProfile?.tdee || 2000`: the profile's target, or 2000 when there is none or it is 0. */
  function BudgetTarget(profile: Option<UserProfile>): (t: int)
    ensures t != 0
    ensures profile.None? ==> t == 2000
    ensures profile.Some? && profile.value.tdee != 0 ==> t == profile.value.tdee
    ensures profile.Some? && profile.value.tdee == 0 ==> t == 2000
  {
    if profile.Some? && profile.value.tdee != 0 then profile.value.tdee else 2000
  }

  /** `Math.max(0, tdee - consumed)`. */
  function Remaining(consumed: real, t: int): (r: real)
    ensures r >= 0.0 && r >= t as real - consumed
    ensures consumed <= t as real ==> r + consumed == t as real
    ensures consumed >= t as real ==> r == 0.0
    ensures consumed >= 0.0 && t >= 0 ==> r <= t as real
  {
    MaxReal(0.0, t as real - consumed)
  }

  /** `Math.min((consumed / tdee) * 100, 100)`: the share of the budget used, capped at 100. */
  function CappedProgress(consumed: real, t: int): (p: real)
    requires t != 0
    ensures p <= 100.0
    ensures t > 0 ==> (p == 100.0 <==> consumed >= t as real)
    ensures p < 100.0 ==> p == Percent(consumed, t as real)
  {
    MinReal(Percent(consumed, t as real), 100.0)
  }

  /** The bar's red style as written: `progressPercent > 100` on the capped value. */
  predicate BarRedAsWritten(consumed: real, t: int): (red: bool)
    requires t != 0
    ensures red && t > 0 ==> consumed > t as real
  {
    CappedProgress(consumed, t) > 100.0
  }

  /** As written, the bar never turns red. */
  lemma BarNeverRedAsWritten(consumed: real, t: int)
    requires t != 0
    ensures !BarRedAsWritten(consumed, t)
  {
  }

  /** 2500 kcal against a 2000 kcal target is over budget, yet the bar as written stays green. */
  lemma OverBudgetBarStaysGreen()
    ensures 2500.0 > 2000.0 && !BarRedAsWritten(2500.0, 2000)
  {
    BarNeverRedAsWritten(2500.0, 2000);
  }

  /** The intended red style: the uncapped share of the budget exceeds 100. */
  function BarRed(consumed: real, t: int): (red: bool)
    requires t != 0
    ensures t > 0 ==> (red <==> consumed > t as real)
  {
    Percent(consumed, t as real) > 100.0
  }

  /** What the budget card shows. */
  datatype BudgetCard = BudgetCard(remaining: real, percentLabel: int, width: real, red: bool)

  /**
   * The budget card, shown only with a profile: the calories left, the
   * rounded capped percentage, the capped bar width, and the red style
   * exactly when the day is over the target.
   */
  function Budget(consumed: real, profile: Option<UserProfile>): (card: Option<BudgetCard>)
    ensures card.None? <==> profile.None?
    ensures card.Some? ==> var t := BudgetTarget(profile);
      card.value.remaining == Remaining(consumed, t)
      && card.value.width == CappedProgress(consumed, t)
      && card.value.percentLabel == Round(CappedProgress(consumed, t))
      && card.value.percentLabel <= 100
      && (t > 0 ==> (card.value.red <==> consumed > t as real))
  {
    if profile.None? then None
    else
      var t := BudgetTarget(profile);
      var p := CappedProgress(consumed, t);
      RoundMonotone(p, 100.0);
      Some(BudgetCard(Remaining(consumed, t), Round(p), p, BarRed(consumed, t)))
  }

  /** The two gauges drawn under an item: GL on a 30 scale, GI on a 100 scale. */
  function ItemGauges(item: FoodItem): (g: (GaugeView, GaugeView))
    ensures g.0 == Render(GL, item.glycemicLoad, 30.0)
    ensures g.1 == Render(GI, item.giValue, 100.0)
    ensures g.0.barClass == BarClass(Classify(GL, item.glycemicLoad))
    ensures g.1.barClass == BarClass(Classify(GI, item.giValue))
  {
    (Render(GL, item.glycemicLoad, 30.0), Render(GI, item.giValue, 100.0))
  }

  /** The report screen for one analysis result. */
  class ResultView {
    const result: AnalysisResult
    const profile: Option<UserProfile>
    var isEditing: bool
    var details: seq<FoodItem>
    var summary: AnalysisSummary
    var added: bool
    /** Whether a macro has been edited since the report opened. */
    ghost var recalculated: bool

    /**
     * The editable items are the result's items (none for a non-food
     * result), edited in place; the summary is the AI's until a macro is
     * edited, and from then on the rounded totals of the current items.
     */
    ghost predicate Valid()
      reads this
    {
      |details| == (if result.isFood then |result.foodDetails| else 0)
      && (!recalculated ==> summary == result.analysisSummary)
      && (recalculated ==> summary == Recalculate(result.analysisSummary, details))
    }

    /** The report opens on a copy of the items, showing the AI's summary, not yet added. */
    constructor (r: AnalysisResult, userProfile: Option<UserProfile>)
      ensures Valid()
      ensures result == r && profile == userProfile && !isEditing && !added
      ensures details == (if r.isFood then r.foodDetails else [])
      ensures summary == r.analysisSummary
    {
      result := r;
      profile := userProfile;
      isEditing := false;
      details := if r.isFood then r.foodDetails else [];
      summary := r.analysisSummary;
      added := false;
      recalculated := false;
    }

    /** A non-food result shows only the retry screen, and has no items to edit. */
    predicate ShowsReport(): (shown: bool)
      reads this
      ensures Valid() && !shown ==> details == []
    {
      result.isFood
    }

    /**
     * The add button shows on a food report with a profile (inside the
     * budget card), until the meal is added.
     */
    predicate AddButtonShown(): (shown: bool)
      reads this
      ensures shown ==> ShowsReport() && profile.Some? && !added
      ensures !result.isFood || profile.None? || added ==> !shown
    {
      ShowsReport() && profile.Some? && !added
    }

    /** The Edit / Save toggle. */
    method ToggleEditing()
      requires Valid()
      modifies this
      ensures Valid()
      ensures isEditing == !old(isEditing)
      ensures details == old(details) && summary == old(summary) && added == old(added)
    {
      isEditing := !isEditing;
    }

    /**
     * `handleItemChange`: the item at `index` takes the edit, and the
     * summary is recomputed from all items if a macro changed.
     */
    method ChangeItem(index: nat, e: ItemEdit)
      requires Valid() && index < |details|
      modifies this
      ensures Valid()
      ensures details == old(details)[index := EditItem(old(details)[index], e)]
      ensures ChangesMacro(e) ==> summary == Recalculate(old(summary), details)
      ensures !ChangesMacro(e) ==> summary == old(summary)
      ensures isEditing == old(isEditing) && added == old(added)
    {
      var updated := details[index := EditItem(details[index], e)];
      if !ChangesMacro(e) {
        NonMacroEditKeepsSummary(result.analysisSummary, details, index, e);
      }
      details := updated;
      if ChangesMacro(e) {
        summary := Recalculate(summary, updated);
        recalculated := true;
      }
    }

    /**
     * `handleAdd`, reachable only through the add button: the entry for the
     * log, built from the current summary and item names with the injected id
     * and time; the button then disappears, so a meal is added at most once.
     */
    method Add(id: string, timestamp: int) returns (entry: MealEntry)
      requires Valid() && AddButtonShown()
      modifies this
      ensures Valid()
      ensures entry == EntryFrom(id, timestamp, summary, details)
      ensures added && !AddButtonShown()
      ensures details == old(details) && summary == old(summary) && isEditing == old(isEditing)
    {
      entry := EntryFrom(id, timestamp, summary, details);
      added := true;
    }
  }
}
