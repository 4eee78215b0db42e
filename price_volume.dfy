/** The ungrouped price-volume bridge (`price_volume_analysis`): each period's total
    `value * weight` is explained from the previous one by a value effect at the current
    weight and a weight effect at the previous value, with no residual. */
module PriceVolume {
  import opened Wrappers
  import opened Strings
  import opened Waterfall

  /** One input row: its period label, value (price) and weight (volume). */
  datatype Obs = Obs(period: string, value: int, weight: int)

  /** One row per period, periods strictly increasing, so grouping by period and sorting by
      period both leave the rows where they are. */
  predicate PeriodsIncreasing(rows: seq<Obs>) {
    forall i :: 0 < i < |rows| ==> StrLess(rows[i - 1].period, rows[i].period)
  }

  /** The `total_value` column. */
  function Total(o: Obs): int {
    o.value * o.weight
  }

  /** The `value_effect` column: the value change, weighted by the CURRENT weight. */
  function ValueEffectOf(o: Obs, lag: Obs): int {
    (o.value - lag.value) * o.weight
  }

  /** The `weight_effect` column: the weight change, valued at the previous value. */
  function WeightEffectOf(o: Obs, lag: Obs): int {
    (o.weight - lag.weight) * lag.value
  }

  /** The two effects explain the change of the total exactly. */
  lemma ValueWeightIdentity(o: Obs, lag: Obs)
    ensures ValueEffectOf(o, lag) + WeightEffectOf(o, lag) == Total(o) - Total(lag)
  {
    calc {
      ValueEffectOf(o, lag) + WeightEffectOf(o, lag);
      o.value * o.weight - lag.value * o.weight + (o.weight * lag.value - lag.weight * lag.value);
      { assert lag.value * o.weight == o.weight * lag.value; }
      o.value * o.weight - lag.weight * lag.value;
      { assert lag.weight * lag.value == lag.value * lag.weight; }
      Total(o) - Total(lag);
    }
  }

  /** The rows of period `i` in the melted, sorted, NA-free table: the first period keeps only
      its total (its effects are NA and dropped); every later one lists value effect, weight
      effect and total, in the order of the `variable` categorical. */
  function PeriodBlock(rows: seq<Obs>, i: nat): seq<Entry>
    requires i < |rows|
  {
    var o := rows[i];
    (if i == 0 then []
     else [Entry(o.period, "", EffectOf(ValueEffect), ValueEffectOf(o, rows[i - 1])),
           Entry(o.period, "", EffectOf(WeightEffect), WeightEffectOf(o, rows[i - 1]))])
    + [Entry(o.period, "", TotalValue, Total(o))]
  }

  function LongTable(rows: seq<Obs>): seq<Entry> {
    if rows == [] then []
    else LongTable(rows[..|rows| - 1]) + PeriodBlock(rows, |rows| - 1)
  }

  lemma {:induction false} LongTableLength(rows: seq<Obs>)
    ensures |LongTable(rows)| == if rows == [] then 0 else 3 * |rows| - 2
    decreases |rows|
  {
    if rows != [] {
      LongTableLength(rows[..|rows| - 1]);
    }
  }

  /** Where the long table puts each period: the total of period `i` at position `3i`, its
      value and weight effects just before it (none for the first period), and no mix effect. */
  lemma {:induction false} LongTableAt(rows: seq<Obs>, i: nat)
    requires i < |rows|
    ensures 3 * i < |LongTable(rows)|
    ensures LongTable(rows)[3 * i] == Entry(rows[i].period, "", TotalValue, Total(rows[i]))
    ensures i > 0 ==>
      && LongTable(rows)[3 * i - 2] == Entry(rows[i].period, "", EffectOf(ValueEffect), ValueEffectOf(rows[i], rows[i - 1]))
      && LongTable(rows)[3 * i - 1] == Entry(rows[i].period, "", EffectOf(WeightEffect), WeightEffectOf(rows[i], rows[i - 1]))
    decreases |rows|
  {
    var n := |rows| - 1;
    var front := rows[..n];
    LongTableLength(rows);
    LongTableLength(front);
    if i < n {
      LongTableAt(front, i);
      assert front[i] == rows[i];
      if i > 0 {
        assert front[i - 1] == rows[i - 1];
      }
    }
  }

  /** The long table has exactly one total per period. */
  lemma {:induction false} TotalsPerPeriod(rows: seq<Obs>)
    ensures TotalsIn(LongTable(rows)) == |rows|
    decreases |rows|
  {
    if rows != [] {
      var n := |rows| - 1;
      TotalsPerPeriod(rows[..n]);
      TotalsInAppend(LongTable(rows[..n]), PeriodBlock(rows, n));
      BlockTotals(rows, n);
    }
  }

  lemma BlockTotals(rows: seq<Obs>, n: nat)
    requires n < |rows|
    ensures TotalsIn(PeriodBlock(rows, n)) == 1
  {
    var b := PeriodBlock(rows, n);
    NoTotals(b, |b| - 1);
  }

  /** `price_volume_analysis`: the bridge of the rows, or the TypeError pandas raises when the
      100th total is relabelled (the blank-label vocabulary holds 1 to 99 spaces). The period
      column is the one named "period", which the labels are read from. */
  method PriceVolumeAnalysis(rows: seq<Obs>) returns (r: Result<Bridge, PyError>)
    requires PeriodsIncreasing(rows)
    ensures r.Success? <==> |rows| <= 99
    ensures r.Failure? ==> r.error == TypeError
    ensures r.Success? ==> r.value == BridgeOf(Periods(LongTable(rows)), LongTable(rows))
  {
    var es := LongTable(rows);
    TotalsPerPeriod(rows);
    var relabelled := RelabelTotals(es, 99);
    if relabelled.Failure? {
      return Failure(relabelled.error);
    }
    var labels := relabelled.value;
    var texts := seq(|es|, i requires 0 <= i < |es| => LabelText(labels[i]));
    var measures := seq(|es|, i requires 0 <= i < |es| => MeasureOf(texts[i]));
    var amounts := seq(|es|, i requires 0 <= i < |es| => es[i].amount);
    r := Success(Bridge(Periods(es), texts, amounts, measures));
  }

  /** The k-th period total (k from 1) is labelled with exactly k spaces and measured
      absolute. */
  lemma TotalLabel(rows: seq<Obs>, i: nat)
    requires i < |rows|
    ensures var es := LongTable(rows);
      var b := BridgeOf(Periods(es), es);
      && 3 * i < |b.inner| == |b.measures|
      && b.inner[3 * i] == Spaces(i + 1) && b.measures[3 * i] == Absolute
  {
    var es := LongTable(rows);
    LongTableAt(rows, i);
    TotalsBefore(rows, i);
    TotalAt(Periods(es), es, 3 * i);
  }

  /** The bar of the k-th period total stands under its period and shows its total. */
  lemma TotalAmount(rows: seq<Obs>, i: nat)
    requires i < |rows|
    ensures var es := LongTable(rows);
      var b := BridgeOf(Periods(es), es);
      && 3 * i < |b.outer| == |b.amounts|
      && b.outer[3 * i] == rows[i].period && b.amounts[3 * i] == Total(rows[i])
  {
    LongTableAt(rows, i);
    LongTableLength(rows);
  }

  /** Up to and including the total of period `i`, the long table holds `i + 1` totals. */
  lemma TotalsBefore(rows: seq<Obs>, i: nat)
    requires i < |rows|
    ensures 3 * i < |LongTable(rows)|
    ensures TotalsUpTo(LongTable(rows), 3 * i + 1) == i + 1
  {
    var es := LongTable(rows);
    var front := rows[..i + 1];
    var head := LongTable(front);
    LongTableLength(rows);
    PrefixTable(rows, i + 1);
    LongTableLength(front);
    TotalsUpToAgree(es, head, 3 * i + 1);
    TotalsPerPeriod(front);
  }

  /** Every later period shows its value effect then its weight effect, both relative and
      labelled by name. */
  lemma EffectLabels(rows: seq<Obs>, i: nat)
    requires 0 < i < |rows|
    ensures var es := LongTable(rows);
      var b := BridgeOf(Periods(es), es);
      && 3 * i < |b.inner| == |b.measures|
      && b.inner[3 * i - 2] == "value_effect" && b.inner[3 * i - 1] == "weight_effect"
      && b.measures[3 * i - 2] == b.measures[3 * i - 1] == Relative
  {
    var es := LongTable(rows);
    LongTableAt(rows, i);
    EffectAt(Periods(es), es, 3 * i - 2);
    EffectAt(Periods(es), es, 3 * i - 1);
  }

  /** The two effect bars of a later period stand under the period and show the effects. */
  lemma EffectAmounts(rows: seq<Obs>, i: nat)
    requires 0 < i < |rows|
    ensures var es := LongTable(rows);
      var b := BridgeOf(Periods(es), es);
      && 3 * i < |b.outer| == |b.amounts|
      && b.outer[3 * i - 2] == b.outer[3 * i - 1] == rows[i].period
      && b.amounts[3 * i - 2] == ValueEffectOf(rows[i], rows[i - 1])
      && b.amounts[3 * i - 1] == WeightEffectOf(rows[i], rows[i - 1])
  {
    LongTableAt(rows, i);
    LongTableLength(rows);
  }

  /** The long table of a prefix of the rows is a prefix of the long table. */
  lemma {:induction false} PrefixTable(rows: seq<Obs>, n: nat)
    requires n <= |rows|
    ensures LongTable(rows[..n]) <= LongTable(rows)
    decreases |rows| - n
  {
    if n < |rows| {
      var m := |rows| - 1;
      assert rows[..m][..n] == rows[..n];
      PrefixTable(rows[..m], n);
    } else {
      assert rows[..n] == rows;
    }
  }

  /** The bridge adds up: each period total equals the previous total plus the two effects
      between them, so the waterfall closes on every total. */
  lemma {:induction false} BridgeReconciles(rows: seq<Obs>)
    ensures Reconciles(BridgeOf(Periods(LongTable(rows)), LongTable(rows)))
  {
    var es := LongTable(rows);
    BridgeBars(Periods(es), es);
    TableCloses(rows);
  }

  lemma {:induction false} TableCloses(rows: seq<Obs>)
    ensures ClosesFrom(None, EntryBars(LongTable(rows)))
    ensures rows != [] ==> LevelAfter(None, EntryBars(LongTable(rows))) == Some(Total(rows[|rows| - 1]))
    decreases |rows|
  {
    if rows != [] {
      var n := |rows| - 1;
      var front := LongTable(rows[..n]);
      var block := PeriodBlock(rows, n);
      TableCloses(rows[..n]);
      assert EntryBars(front + block) == EntryBars(front) + EntryBars(block);
      ClosesAppend(None, EntryBars(front), EntryBars(block));
      if n > 0 {
        assert rows[..n][n - 1] == rows[n - 1];
      } else {
        assert front == [];
      }
      BlockCloses(rows, n, LevelAfter(None, EntryBars(front)));
    }
  }

  /** A period's block closes on its total: from the previous total, the two effects lead
      exactly to the current one; the first period's block just sets the level. */
  lemma BlockCloses(rows: seq<Obs>, n: nat, level: Option<int>)
    requires n < |rows|
    requires level == if n == 0 then None else Some(Total(rows[n - 1]))
    ensures ClosesFrom(level, EntryBars(PeriodBlock(rows, n)))
    ensures LevelAfter(level, EntryBars(PeriodBlock(rows, n))) == Some(Total(rows[n]))
  {
    var total := Bar(Total(rows[n]), Absolute);
    if n > 0 {
      var ve := Bar(ValueEffectOf(rows[n], rows[n - 1]), Relative);
      var we := Bar(WeightEffectOf(rows[n], rows[n - 1]), Relative);
      assert EntryBars(PeriodBlock(rows, n)) == [ve] + ([we] + [total]);
      ValueWeightIdentity(rows[n], rows[n - 1]);
      ClosesAppend(level, [ve], [we] + [total]);
      SingleBar(level, ve);
      ClosesAppend(Step(level, ve), [we], [total]);
      SingleBar(Step(level, ve), we);
      SingleBar(Step(Step(level, ve), we), total);
    } else {
      assert EntryBars(PeriodBlock(rows, n)) == [total];
      SingleBar(level, total);
    }
  }

  /** The worked example of the test suite, (FY23, 10, 100) then (FY24, 11, 110): the labels
      and measures of its four bars. */
  lemma TwoPeriodLabels()
    ensures var rows := [Obs("FY23", 10, 100), Obs("FY24", 11, 110)];
      var b := BridgeOf(Periods(LongTable(rows)), LongTable(rows));
      && b.inner == [" ", "value_effect", "weight_effect", "  "]
      && b.measures == [Absolute, Relative, Relative, Absolute]
  {
    var rows := [Obs("FY23", 10, 100), Obs("FY24", 11, 110)];
    var b := BridgeOf(Periods(LongTable(rows)), LongTable(rows));
    LongTableLength(rows);
    TotalLabel(rows, 0);
    TotalLabel(rows, 1);
    EffectLabels(rows, 1);
    assert Spaces(1) == " " && Spaces(2) == "  ";
  }

  /** The same example: the periods and amounts of its four bars. */
  lemma TwoPeriodAmounts()
    ensures var rows := [Obs("FY23", 10, 100), Obs("FY24", 11, 110)];
      var b := BridgeOf(Periods(LongTable(rows)), LongTable(rows));
      && b.outer == ["FY23", "FY24", "FY24", "FY24"]
      && b.amounts == [1000, 110, 100, 1210]
  {
    var rows := [Obs("FY23", 10, 100), Obs("FY24", 11, 110)];
    LongTableLength(rows);
    TotalAmount(rows, 0);
    TotalAmount(rows, 1);
    EffectAmounts(rows, 1);
  }

  /** Sorting by (period, variable) leaves the long table unchanged: each row's key is
      strictly below the next one's. */
  lemma LongTableSorted(rows: seq<Obs>)
    requires PeriodsIncreasing(rows)
    ensures var es := LongTable(rows);
      forall i :: 0 < i < |es| ==>
        || StrLess(es[i - 1].period, es[i].period)
        || (es[i - 1].period == es[i].period && VariableRank(es[i - 1].variable) < VariableRank(es[i].variable))
  {
    var es := LongTable(rows);
    LongTableLength(rows);
    forall i | 0 < i < |es|
      ensures || StrLess(es[i - 1].period, es[i].period)
              || (es[i - 1].period == es[i].period && VariableRank(es[i - 1].variable) < VariableRank(es[i].variable))
    {
      var k := (i + 2) / 3;
      assert 0 < k < |rows|;
      assert i == 3 * k - 2 || i == 3 * k - 1 || i == 3 * k;
      LongTableAt(rows, k);
      LongTableAt(rows, k - 1);
    }
  }
}
