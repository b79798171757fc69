/**
 * Today's history sheet: one row per logged meal, in log order, each with a
 * delete button for its id, and the day's total at the foot.
 */
module DailyHistory {
  import opened Types
  import opened Ledger

  /** `parts.join(sep)`. */
  function Join(parts: seq<string>, sep: string): (s: string)
    ensures parts == [] ==> s == ""
    ensures |parts| == 1 ==> s == parts[0]
    decreases |parts|
  {
    if parts == [] then ""
    else if |parts| == 1 then parts[0]
    else Join(parts[..|parts| - 1], sep) + sep + parts[|parts| - 1]
  }

  /** The summed lengths of the parts. */
  function TotalLength(parts: seq<string>): nat
    decreases |parts|
  {
    if parts == [] then 0 else TotalLength(parts[..|parts| - 1]) + |parts[|parts| - 1]|
  }

  /** The length of a join: the parts' lengths plus one separator between each neighbouring pair. */
  lemma {:induction false} JoinLength(parts: seq<string>, sep: string)
    requires parts != []
    ensures |Join(parts, sep)| == TotalLength(parts) + (|parts| - 1) * |sep|
    decreases |parts|
  {
    if |parts| == 1 {
      assert parts[..0] == [];
    } else {
      JoinLength(parts[..|parts| - 1], sep);
    }
  }

  /** Joining two non-empty runs of parts is joining each run and putting one separator between them. */
  lemma {:induction false} JoinConcat(a: seq<string>, b: seq<string>, sep: string)
    requires a != [] && b != []
    ensures Join(a + b, sep) == Join(a, sep) + sep + Join(b, sep)
    decreases |b|
  {
    var ab := a + b;
    assert ab[..|ab| - 1] == a + b[..|b| - 1];
    if |b| == 1 {
      assert ab[..|ab| - 1] == a;
    } else {
      JoinConcat(a, b[..|b| - 1], sep);
    }
  }

  /** One row of the sheet. */
  datatype Row = Row(
    title: string,
    itemsLine: string,
    calories: real,
    protein: real,
    carbs: real,
    fat: real,
    deleteId: string)

  /** The row for one entry: its name, its item names joined by ", ", its numbers, and its id for the delete button. */
  function RowOf(e: MealEntry): (r: Row)
    ensures r.title == e.name && r.deleteId == e.id
    ensures r.itemsLine == Join(e.items, ", ")
    ensures r.calories == e.calories && r.protein == e.protein && r.carbs == e.carbs && r.fat == e.fat
  {
    Row(e.name, Join(e.items, ", "), e.calories, e.protein, e.carbs, e.fat, e.id)
  }

  /** `log.entries.map(...)`. */
  function Rows(entries: seq<MealEntry>): (rows: seq<Row>)
    ensures |rows| == |entries|
    ensures forall i :: 0 <= i < |entries| ==> rows[i] == RowOf(entries[i])
    decreases |entries|
  {
    if entries == [] then [] else [RowOf(entries[0])] + Rows(entries[1..])
  }

  /** What the sheet shows. */
  datatype HistoryView = HistoryView(showEmpty: bool, rows: seq<Row>, total: real)

  /** The sheet: the empty message exactly when nothing is logged, else one row per entry; the total always. */
  function History(log: DailyLog): (v: HistoryView)
    ensures v.showEmpty <==> |log.entries| == 0
    ensures v.showEmpty ==> v.rows == []
    ensures !v.showEmpty ==>
      (|v.rows| == |log.entries| && forall i :: 0 <= i < |log.entries| ==> v.rows[i] == RowOf(log.entries[i]))
    ensures v.total == TotalCalories(log.entries)
  {
    if |log.entries| == 0 then HistoryView(true, [], TotalCalories(log.entries))
    else HistoryView(false, Rows(log.entries), TotalCalories(log.entries))
  }

  /**
   * A row's delete button removes that row's entry: afterwards no entry has
   * its id, the log is shorter, and every entry with another id is still there.
   */
  lemma DeleteButtonRemovesItsEntry(log: DailyLog, i: nat)
    requires i < |log.entries|
    ensures var id := History(log).rows[i].deleteId;
      var after := Delete(log, id).entries;
      (forall e :: e in after ==> e.id != id)
      && |after| < |log.entries|
      && (forall e :: e in log.entries && e.id != id ==> e in after)
  {
    WithoutIdKeeps(log.entries, log.entries[i].id);
  }

  /** With non-negative calories, deleting a row never raises the sheet's total. */
  lemma DeleteLowersTotal(log: DailyLog, i: nat)
    requires i < |log.entries|
    requires forall j :: 0 <= j < |log.entries| ==> log.entries[j].calories >= 0.0
    ensures History(Delete(log, History(log).rows[i].deleteId)).total <= History(log).total
  {
    TotalAfterDelete(log.entries, log.entries[i].id);
  }
}
