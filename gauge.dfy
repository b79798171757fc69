/**
 * The glycemic gauge: a bar filled to the value's share of a maximum,
 * coloured by thresholds that depend on whether it shows a glycemic index
 * (GI) or a glycemic load (GL), with the rounded value as its label.
 */
module Gauge {
  import opened JsValues

  datatype GaugeKind = GI | GL

  /** The three colour bands, from harmless to high. */
  datatype Band = Emerald | Amber | Red

  /** Above this value the bar turns amber: GI 55, GL 10. */
  function AmberAbove(kind: GaugeKind): real
  {
    match kind
    case GI => 55.0
    case GL => 10.0
  }

  /** Above this value the bar turns red: GI 70, GL 20. */
  function RedAbove(kind: GaugeKind): real
  {
    match kind
    case GI => 70.0
    case GL => 20.0
  }

  /**
   * The colour band of a value: emerald up to the amber threshold, amber up
   * to the red threshold, red beyond it. NaN fails every comparison and so
   * stays emerald.
   */
  function Classify(kind: GaugeKind, value: Number): (b: Band)
    ensures b == Red <==> value.Num? && value.value > RedAbove(kind)
    ensures b == Amber <==> value.Num? && AmberAbove(kind) < value.value <= RedAbove(kind)
    ensures b == Emerald <==> value.NaN? || value.value <= AmberAbove(kind)
  {
    match value
    case NaN => Emerald
    case Num(v) =>
      if v > RedAbove(kind) then Red
      else if v > AmberAbove(kind) then Amber
      else Emerald
  }

  /** The `Gauge` component's `let color`: a default overwritten by two successive tests. */
  method ChooseBand(kind: GaugeKind, value: Number) returns (b: Band)
    ensures b == Classify(kind, value)
  {
    b := Emerald;
    if value.Num? && value.value > AmberAbove(kind) {
      b := Amber;
    }
    if value.Num? && value.value > RedAbove(kind) {
      b := Red;
    }
  }

  function BandRank(b: Band): nat
  {
    match b
    case Emerald => 0
    case Amber => 1
    case Red => 2
  }

  /** A larger value never has a milder colour. */
  lemma ClassifyMonotone(kind: GaugeKind, v1: real, v2: real)
    requires v1 <= v2
    ensures BandRank(Classify(kind, Num(v1))) <= BandRank(Classify(kind, Num(v2)))
  {
  }

  /** The thresholds are strict: a value equal to a threshold keeps the milder colour. */
  lemma BandBoundaries()
    ensures Classify(GI, Num(55.0)) == Emerald && Classify(GI, Num(56.0)) == Amber
    ensures Classify(GI, Num(70.0)) == Amber && Classify(GI, Num(71.0)) == Red
    ensures Classify(GL, Num(10.0)) == Emerald && Classify(GL, Num(11.0)) == Amber
    ensures Classify(GL, Num(20.0)) == Amber && Classify(GL, Num(21.0)) == Red
  {
  }

  /** The bar's background class. */
  function BarClass(b: Band): string
  {
    match b
    case Emerald => "bg-emerald-400"
    case Amber => "bg-amber-400"
    case Red => "bg-red-400"
  }

  /** `pat` occurs in `s` at position k. */
  predicate MatchAt(s: string, pat: string, k: int)
  {
    0 <= k && k + |pat| <= |s| && s[k..k + |pat|] == pat
  }

  /** k is the first position where `pat` occurs in `s`. */
  predicate FirstMatch(s: string, pat: string, k: int)
  {
    MatchAt(s, pat, k) && forall j :: 0 <= j < k ==> !MatchAt(s, pat, j)
  }

  /** `s.replace(pat, rep)` with a string pattern. */
  function ReplaceFirst(s: string, pat: string, rep: string): (r: string)
    ensures |r| == |s| || |r| == |s| - |pat| + |rep|
    decreases |s|
  {
    if MatchAt(s, pat, 0) then rep + s[|pat|..]
    else if s == [] then s
    else [s[0]] + ReplaceFirst(s[1..], pat, rep)
  }

  /** A string in which the pattern does not occur is returned as it is. */
  lemma {:induction false} ReplaceWithoutMatch(s: string, pat: string, rep: string)
    requires forall k :: 0 <= k <= |s| ==> !MatchAt(s, pat, k)
    ensures ReplaceFirst(s, pat, rep) == s
    decreases |s|
  {
    if s == [] {
      assert !MatchAt(s, pat, 0);
    } else {
      forall k | 0 <= k <= |s[1..]|
        ensures !MatchAt(s[1..], pat, k)
      {
        ShiftMatch(s, pat, k);
      }
      ReplaceWithoutMatch(s[1..], pat, rep);
    }
  }

  /** Only the first occurrence of the pattern is replaced. */
  lemma {:induction false} ReplaceAtFirstMatch(s: string, pat: string, rep: string, k: int)
    requires FirstMatch(s, pat, k)
    ensures ReplaceFirst(s, pat, rep) == s[..k] + rep + s[k + |pat|..]
    decreases |s|
  {
    if k > 0 {
      ShiftMatch(s, pat, k - 1);
      forall j | 0 <= j < k - 1
        ensures !MatchAt(s[1..], pat, j)
      {
        ShiftMatch(s, pat, j);
      }
      ReplaceAtFirstMatch(s[1..], pat, rep, k - 1);
      assert s[1..][..k - 1] == s[1..k];
      assert s[1..][k - 1 + |pat|..] == s[k + |pat|..];
      assert s[..k] == [s[0]] + s[1..k];
    }
  }

  /** A position in `s[1..]` is the next position in `s`. */
  lemma ShiftMatch(s: string, pat: string, k: int)
    requires s != [] && 0 <= k
    ensures MatchAt(s[1..], pat, k) <==> MatchAt(s, pat, k + 1)
  {
    if k + |pat| <= |s| - 1 {
      assert s[1..][k..k + |pat|] == s[k + 1..k + 1 + |pat|];
    }
  }

  /** `color.replace('bg-', 'text-')`: the label's text class. */
  function TextClass(b: Band): (c: string)
    ensures c == "text-" + BarClass(b)[3..]
  {
    assert FirstMatch(BarClass(b), "bg-", 0);
    ReplaceAtFirstMatch(BarClass(b), "bg-", "text-", 0);
    ReplaceFirst(BarClass(b), "bg-", "text-")
  }

  /** Each band's label colour is the bar's hue, as a text class. */
  lemma TextClasses()
    ensures TextClass(Emerald) == "text-emerald-400"
    ensures TextClass(Amber) == "text-amber-400"
    ensures TextClass(Red) == "text-red-400"
  {
  }

  /**
   * The bar's width in percent: `Math.min((value / max) * 100, 100)`; NaN
   * propagates through the division and through `Math.min`.
   */
  function FillPercent(value: Number, max: real): (p: Number)
    requires max > 0.0
    ensures p.NaN? <==> value.NaN?
    ensures p.Num? ==> p.value <= 100.0
    ensures p.Num? ==> (p.value == 100.0 <==> value.value >= max)
    ensures p.Num? && p.value < 100.0 ==> p.value == Percent(value.value, max)
    ensures p.Num? && value.value >= 0.0 ==> p.value >= 0.0
  {
    match value
    case NaN => NaN
    case Num(v) => Num(MinReal(Percent(v, max), 100.0))
  }

  /** `Math.round(value)`, NaN staying NaN. */
  function RoundLabel(value: Number): (l: Number)
    ensures l.NaN? <==> value.NaN?
    ensures l.Num? ==> l.value == l.value.Floor as real && l.value - 0.5 <= value.value < l.value + 0.5
  {
    match value
    case NaN => NaN
    case Num(v) => Num(Round(v) as real)
  }

  /** What one gauge draws. */
  datatype GaugeView = GaugeView(width: Number, barClass: string, textClass: string, caption: Number)

  /** The whole gauge: fill, bar colour, label colour and label all derive from the one value. */
  function Render(kind: GaugeKind, value: Number, max: real): (g: GaugeView)
    requires max > 0.0
    ensures g.width == FillPercent(value, max)
    ensures g.barClass == BarClass(Classify(kind, value))
    ensures g.textClass == "text-" + g.barClass[3..]
    ensures g.caption == RoundLabel(value)
  {
    var band := Classify(kind, value);
    GaugeView(FillPercent(value, max), BarClass(band), TextClass(band), RoundLabel(value))
  }

  /** A full GL bar on the 30 scale is always red; a full GI bar on the 100 scale is always red. */
  lemma FullBarIsRed(value: real)
    ensures FillPercent(Num(value), 30.0) == Num(100.0) ==> Classify(GL, Num(value)) == Red
    ensures FillPercent(Num(value), 100.0) == Num(100.0) ==> Classify(GI, Num(value)) == Red
  {
  }
}
