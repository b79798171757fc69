/**
 * The side panel with the day's statistics against the target and the
 * count of logged meals. It is drawn only while open, and only once a
 * profile exists.
 */
module UserHub {
  import opened JsValues
  import opened Types
  import opened Ledger

  /** What the stats card shows. */
  datatype HubStats = HubStats(
    target: int,
    consumed: real,
    percentage: real,
    isOver: bool,
    displayPercentage: int,
    barWidth: real,
    entryCount: nat)

  /**
   * The panel: nothing while closed; otherwise today's calories, their
   * share of the target, the over-limit flag exactly when the target is
   * exceeded, the rounded share, the bar capped at 100 and the number of
   * entries.
   */
  function Hub(isOpen: bool, profile: UserProfile, log: DailyLog): (h: Option<HubStats>)
    requires profile.tdee != 0
    ensures h.None? <==> !isOpen
    ensures h.Some? ==>
      var s := h.value;
      s.target == profile.tdee
      && s.consumed == TotalCalories(log.entries)
      && s.percentage == Percent(s.consumed, profile.tdee as real)
      && (profile.tdee > 0 ==> (s.isOver <==> s.consumed > profile.tdee as real))
      && s.displayPercentage == Round(s.percentage)
      && (s.isOver ==> s.displayPercentage >= 100)
      && s.barWidth <= 100.0 && (s.isOver ==> s.barWidth == 100.0)
      && (s.percentage <= 100.0 ==> s.barWidth == s.percentage)
      && s.entryCount == |log.entries|
  {
    if !isOpen then None
    else
      var consumed := TotalCalories(log.entries);
      var percentage := Percent(consumed, profile.tdee as real);
      var isOver := percentage > 100.0;
      Some(HubStats(profile.tdee, consumed, percentage, isOver, Round(percentage),
                    MinReal(percentage, 100.0), |log.entries|))
  }

  /** Adding a meal adds one to the panel's entry count and its calories to the total. */
  lemma HubAfterAppend(profile: UserProfile, log: DailyLog, entry: MealEntry)
    requires profile.tdee != 0
    ensures Hub(true, profile, Append(log, entry)).value.entryCount == Hub(true, profile, log).value.entryCount + 1
    ensures Hub(true, profile, Append(log, entry)).value.consumed == Hub(true, profile, log).value.consumed + entry.calories
  {
    TotalAfterAppend(log, entry);
  }
}
