/**
 * The daily log's transformations as the app writes them: the day rollover
 * at load time, appending a meal, deleting by id, and the calorie sum that
 * every screen recomputes with the same `reduce`.
 */
module Ledger {
  import opened JsValues
  import opened Types

  /**
   * `entries.reduce((acc, e) => acc + e.calories, 0)`. The fold runs from
   * the left, so the definition peels off the last entry.
   */
  function TotalCalories(entries: seq<MealEntry>): (total: real)
    ensures entries == [] ==> total == 0.0
    ensures (forall i :: 0 <= i < |entries| ==> entries[i].calories >= 0.0) ==> total >= 0.0
    decreases |entries|
  {
    if entries == [] then 0.0
    else TotalCalories(entries[..|entries| - 1]) + entries[|entries| - 1].calories
  }

  /** The sum over two consecutive runs of entries is the sum of their sums. */
  lemma {:induction false} TotalOfConcat(a: seq<MealEntry>, b: seq<MealEntry>)
    ensures TotalCalories(a + b) == TotalCalories(a) + TotalCalories(b)
    decreases |b|
  {
    if b == [] {
      assert a + b == a;
    } else {
      var front := b[..|b| - 1];
      TotalOfConcat(a, front);
      assert (a + b)[..|a + b| - 1] == a + front;
    }
  }

  /**
   * The load-time rollover: the saved log survives only if it is dated
   * today; otherwise (or with nothing saved) today starts empty.
   */
  function Rollover(saved: Option<DailyLog>, today: string): (log: DailyLog)
    ensures log.date == today
    ensures saved.Some? && saved.value.date == today ==> log == saved.value
    ensures !(saved.Some? && saved.value.date == today) ==> log.entries == []
  {
    if saved.Some? then
      (if saved.value.date == today then saved.value else DailyLog(today, []))
    else DailyLog(today, [])
  }

  /** Rolling over a log that was just rolled over to the same day changes nothing. */
  lemma RolloverIdempotent(saved: Option<DailyLog>, today: string)
    ensures Rollover(Some(Rollover(saved, today)), today) == Rollover(saved, today)
  {
  }

  /** Adding a meal: the entry goes at the end; the date and the earlier entries stay. */
  function Append(log: DailyLog, entry: MealEntry): (r: DailyLog)
    ensures r.date == log.date
    ensures |r.entries| == |log.entries| + 1
    ensures r.entries[..|log.entries|] == log.entries && r.entries[|log.entries|] == entry
  {
    log.(entries := log.entries + [entry])
  }

  /** Appending a meal raises the day's total by exactly its calories. */
  lemma TotalAfterAppend(log: DailyLog, entry: MealEntry)
    ensures TotalCalories(Append(log, entry).entries) == TotalCalories(log.entries) + entry.calories
  {
    assert Append(log, entry).entries[..|log.entries|] == log.entries;
  }

  /** `entries.filter(e => e.id !== id)`. */
  function WithoutId(entries: seq<MealEntry>, id: string): (kept: seq<MealEntry>)
    ensures |kept| <= |entries|
    decreases |entries|
  {
    if entries == [] then []
    else
      var front, last := entries[..|entries| - 1], entries[|entries| - 1];
      WithoutId(front, id) + (if last.id != id then [last] else [])
  }

  /**
   * What the filter keeps: every entry with that id is gone, every other
   * entry stays, the list shrinks when the id was present, and an absent id
   * changes nothing.
   */
  lemma {:induction false} WithoutIdKeeps(entries: seq<MealEntry>, id: string)
    ensures forall e :: e in WithoutId(entries, id) <==> e in entries && e.id != id
    ensures (exists i :: 0 <= i < |entries| && entries[i].id == id) ==> |WithoutId(entries, id)| < |entries|
    ensures (forall i :: 0 <= i < |entries| ==> entries[i].id != id) ==> WithoutId(entries, id) == entries
    decreases |entries|
  {
    if entries != [] {
      var front, last := entries[..|entries| - 1], entries[|entries| - 1];
      WithoutIdKeeps(front, id);
      assert entries == front + [last];
      if exists i :: 0 <= i < |entries| && entries[i].id == id {
        var i :| 0 <= i < |entries| && entries[i].id == id;
        if i < |front| {
          assert front[i].id == id;
        }
      }
    }
  }

  /** Filtering works piecewise, so the kept entries keep their relative order. */
  lemma {:induction false} WithoutIdConcat(a: seq<MealEntry>, b: seq<MealEntry>, id: string)
    ensures WithoutId(a + b, id) == WithoutId(a, id) + WithoutId(b, id)
    decreases |b|
  {
    if b == [] {
      assert a + b == a;
    } else {
      var front, last := b[..|b| - 1], b[|b| - 1];
      var tail := if last.id != id then [last] else [];
      WithoutIdConcat(a, front, id);
      var ab := a + b;
      assert ab[..|ab| - 1] == a + front && ab[|ab| - 1] == last;
      assert WithoutId(ab, id) == WithoutId(a + front, id) + tail;
      assert WithoutId(b, id) == WithoutId(front, id) + tail;
    }
  }

  /** Deleting by id on the log: the date stays and the entries are filtered. */
  function Delete(log: DailyLog, id: string): (r: DailyLog)
    ensures r.date == log.date
    ensures forall e :: e in r.entries ==> e.id != id
    ensures (forall i :: 0 <= i < |log.entries| ==> log.entries[i].id != id) ==> r == log
  {
    WithoutIdKeeps(log.entries, id);
    log.(entries := WithoutId(log.entries, id))
  }

  /** Deleting a just-added entry whose id was fresh gives back the log as it was. */
  lemma DeleteUndoesAppend(log: DailyLog, entry: MealEntry)
    requires forall i :: 0 <= i < |log.entries| ==> log.entries[i].id != entry.id
    ensures Delete(Append(log, entry), entry.id) == log
  {
    var all := log.entries + [entry];
    assert all[..|all| - 1] == log.entries;
    WithoutIdKeeps(log.entries, entry.id);
  }

  /** With non-negative calories, deleting never raises the day's total. */
  lemma {:induction false} TotalAfterDelete(entries: seq<MealEntry>, id: string)
    requires forall i :: 0 <= i < |entries| ==> entries[i].calories >= 0.0
    ensures TotalCalories(WithoutId(entries, id)) <= TotalCalories(entries)
    decreases |entries|
  {
    if entries != [] {
      var front, last := entries[..|entries| - 1], entries[|entries| - 1];
      TotalAfterDelete(front, id);
      TotalOfConcat(WithoutId(front, id), if last.id != id then [last] else []);
      assert TotalCalories([last]) == last.calories by {
        assert [last][..0] == [];
      }
    }
  }

  /** Two meals of 300 and 450 kcal added to an empty day make 750. */
  lemma AppendTwoMeals(today: string, e1: MealEntry, e2: MealEntry)
    requires e1.calories == 300.0 && e2.calories == 450.0
    ensures TotalCalories(Append(Append(DailyLog(today, []), e1), e2).entries) == 750.0
  {
    TotalAfterAppend(DailyLog(today, []), e1);
    TotalAfterAppend(Append(DailyLog(today, []), e1), e2);
  }
}
