/** The price-volume-mix bridge (`price_volume_mix_analysis`): per group, the change of
    `value * weight` between a row and the group's previous row splits into a value effect,
    a weight effect and the mix residual; the effects are shown either summed per period
    (aggregated output) or per group, between the period totals. */
module PriceVolumeMix {
  import opened Wrappers
  import opened Strings
  import opened Waterfall

  /** One input row: period, group (e.g. product), value (price) and weight (volume). */
  datatype Obs = Obs(period: string, group: string, value: int, weight: int)

  /** The order of the rows: by period, then by group. */
  predicate KeyLess(a: Obs, b: Obs) {
    StrLess(a.period, b.period) || (a.period == b.period && StrLess(a.group, b.group))
  }

  /** The rows come sorted by (period, group), one row per pair. */
  predicate RowsSorted(rows: seq<Obs>) {
    forall i :: 0 < i < |rows| ==> KeyLess(rows[i - 1], rows[i])
  }

  /** The `total_value` column. */
  function Total(o: Obs): int {
    o.value * o.weight
  }

  /** The group's most recent row among `rows`: what `groupby(group).shift(1)` sees for the
      next row of that group (None where it yields NaN). */
  function LastOfGroup(rows: seq<Obs>, g: string): (r: Option<Obs>)
    ensures r.Some? ==> r.value.group == g
    ensures r.None? <==> forall i :: 0 <= i < |rows| ==> rows[i].group != g
  {
    if rows == [] then None
    else if rows[|rows| - 1].group == g then Some(rows[|rows| - 1])
    else LastOfGroup(rows[..|rows| - 1], g)
  }

  /** A row together with its lagged row. */
  datatype Ann = Ann(row: Obs, lag: Option<Obs>)

  /** The lag columns: each row paired with the previous row of its group. */
  function Annotate(rows: seq<Obs>): (anns: seq<Ann>)
    ensures |anns| == |rows|
  {
    seq(|rows|, i requires 0 <= i < |rows| => Ann(rows[i], LastOfGroup(rows[..i], rows[i].group)))
  }

  /** The `value_effect` column: the value change, weighted by the PREVIOUS weight. */
  function ValueEffectOf(o: Obs, lag: Obs): int {
    (o.value - lag.value) * lag.weight
  }

  /** The `weight_effect` column: the weight change, valued at the previous value. */
  function WeightEffectOf(o: Obs, lag: Obs): int {
    (o.weight - lag.weight) * lag.value
  }

  /** The `mix_effect` column: what the two effects leave of the change of the total. */
  function MixEffectOf(o: Obs, lag: Obs): int {
    (Total(o) - Total(lag)) - ValueEffectOf(o, lag) - WeightEffectOf(o, lag)
  }

  function EffectAmount(e: Effect, o: Obs, lag: Obs): int {
    match e
    case ValueEffect => ValueEffectOf(o, lag)
    case WeightEffect => WeightEffectOf(o, lag)
    case MixEffect => MixEffectOf(o, lag)
  }

  /** The mix residual is the interaction term: value change times weight change. */
  lemma MixIsInteraction(o: Obs, lag: Obs)
    ensures MixEffectOf(o, lag) == (o.value - lag.value) * (o.weight - lag.weight)
  {
    var dv, dw := o.value - lag.value, o.weight - lag.weight;
    assert o.value == lag.value + dv && o.weight == lag.weight + dw;
    calc {
      Total(o);
      (lag.value + dv) * (lag.weight + dw);
      lag.value * lag.weight + dv * lag.weight + dw * lag.value + dv * dw;
    }
  }

  // ---------------------------------------------------------------------------------------
  // Periods: the groupby over the period column, as runs of consecutive rows.

  /** The rows of one period, in input order. */
  function RunPeriod(ms: seq<Ann>): string {
    if ms == [] then "" else ms[0].row.period
  }

  /** Splits the annotated rows into maximal runs of equal period. */
  function Runs(anns: seq<Ann>): (rs: seq<seq<Ann>>)
    ensures forall k :: 0 <= k < |rs| ==> rs[k] != []
    ensures |rs| <= |anns|
    ensures anns != [] ==> rs != [] && RunPeriod(rs[|rs| - 1]) == anns[|anns| - 1].row.period
    ensures anns != [] ==> var last := rs[|rs| - 1]; last[|last| - 1] == anns[|anns| - 1]
  {
    if anns == [] then []
    else
      var rs := Runs(anns[..|anns| - 1]);
      var a := anns[|anns| - 1];
      if rs != [] && RunPeriod(rs[|rs| - 1]) == a.row.period then rs[..|rs| - 1] + [rs[|rs| - 1] + [a]]
      else rs + [[a]]
  }

  /** Sum of the period's `total_value`. */
  function SumTotal(ms: seq<Ann>): int {
    if ms == [] then 0 else SumTotal(ms[..|ms| - 1]) + Total(ms[|ms| - 1].row)
  }

  /** Sum of one effect over the period; rows without a lag have NaN effects, which the sum skips. */
  function SumEffect(ms: seq<Ann>, e: Effect): int {
    if ms == [] then 0
    else
      var m := ms[|ms| - 1];
      SumEffect(ms[..|ms| - 1], e) + (if m.lag.Some? then EffectAmount(e, m.row, m.lag.value) else 0)
  }

  /** How much the rows that have a lag grew since their lags. */
  function Growth(ms: seq<Ann>): int {
    if ms == [] then 0
    else
      var m := ms[|ms| - 1];
      Growth(ms[..|ms| - 1]) + (if m.lag.Some? then Total(m.row) - Total(m.lag.value) else 0)
  }

  /** The three effects of a period add up to its growth. */
  lemma {:induction false} EffectsExplainGrowth(ms: seq<Ann>)
    ensures SumEffect(ms, ValueEffect) + SumEffect(ms, WeightEffect) + SumEffect(ms, MixEffect) == Growth(ms)
  {
    if ms != [] {
      EffectsExplainGrowth(ms[..|ms| - 1]);
    }
  }

  /** One period's rows: all of that period, groups strictly increasing. */
  predicate RunOK(ms: seq<Ann>) {
    && ms != []
    && (forall j :: 0 <= j < |ms| ==> ms[j].row.period == ms[0].row.period)
    && (forall i, j :: 0 <= i < j < |ms| ==> StrLess(ms[i].row.group, ms[j].row.group))
  }

  /** Every run is a well-formed period and the periods strictly increase from run to run. */
  predicate RunsOK(rs: seq<seq<Ann>>) {
    && (forall k :: 0 <= k < |rs| ==> RunOK(rs[k]))
    && (forall k :: 0 < k < |rs| ==> StrLess(RunPeriod(rs[k - 1]), RunPeriod(rs[k])))
  }

  predicate AnnsSorted(anns: seq<Ann>) {
    forall i :: 0 < i < |anns| ==> KeyLess(anns[i - 1].row, anns[i].row)
  }

  /** On rows sorted by (period, group), the runs are exactly the periods, in increasing order,
      each listing its groups in increasing order. */
  lemma {:induction false} RunsShape(anns: seq<Ann>)
    requires AnnsSorted(anns)
    ensures var rs := Runs(anns);
      && RunsOK(rs)
      && (anns != [] ==> var last := rs[|rs| - 1]; last[|last| - 1] == anns[|anns| - 1])
  {
    if anns != [] {
      var n := |anns| - 1;
      var front := anns[..n];
      var a := anns[n];
      var rs := Runs(front);
      SortedPrefix(anns, n);
      RunsShape(front);
      if rs != [] && RunPeriod(rs[|rs| - 1]) == a.row.period {
        var last := rs[|rs| - 1];
        assert last[|last| - 1] == anns[n - 1];
        ExtendRun(last, a);
        RunsExtend(rs, a);
        assert Runs(anns) == rs[..|rs| - 1] + [last + [a]];
      } else {
        if rs != [] {
          var last := rs[|rs| - 1];
          assert last[|last| - 1] == anns[n - 1];
          assert KeyLess(anns[n - 1].row, a.row);
        }
        RunsOpen(rs, a);
        assert Runs(anns) == rs + [[a]];
      }
    }
  }

  lemma SortedPrefix(anns: seq<Ann>, n: nat)
    requires AnnsSorted(anns) && n <= |anns|
    ensures AnnsSorted(anns[..n])
  {
    forall i | 0 < i < n
      ensures KeyLess(anns[..n][i - 1].row, anns[..n][i].row)
    {
      assert anns[..n][i - 1] == anns[i - 1] && anns[..n][i] == anns[i];
    }
  }

  /** Appending to the last run keeps the runs well formed. */
  lemma RunsExtend(rs: seq<seq<Ann>>, a: Ann)
    requires rs != [] && RunsOK(rs) && RunOK(rs[|rs| - 1] + [a])
    requires RunPeriod(rs[|rs| - 1]) == a.row.period
    ensures RunsOK(rs[..|rs| - 1] + [rs[|rs| - 1] + [a]])
  {
    var rs' := rs[..|rs| - 1] + [rs[|rs| - 1] + [a]];
    assert forall k :: 0 <= k < |rs| - 1 ==> rs'[k] == rs[k];
    assert RunPeriod(rs'[|rs| - 1]) == RunPeriod(rs[|rs| - 1]);
  }

  /** A row of a later period opens a new run. */
  lemma RunsOpen(rs: seq<seq<Ann>>, a: Ann)
    requires RunsOK(rs)
    requires rs != [] ==> StrLess(RunPeriod(rs[|rs| - 1]), a.row.period)
    ensures RunsOK(rs + [[a]])
  {
    var rs' := rs + [[a]];
    assert forall k :: 0 <= k < |rs| ==> rs'[k] == rs[k];
    assert RunOK([a]);
  }

  /** A row of the same period as the current run, and of a larger group, extends it. */
  lemma ExtendRun(last: seq<Ann>, a: Ann)
    requires RunOK(last) && RunPeriod(last) == a.row.period
    requires KeyLess(last[|last| - 1].row, a.row)
    ensures RunOK(last + [a])
  {
    var ext := last + [a];
    var top := last[|last| - 1].row.group;
    StrLessIrreflexive(a.row.period);
    assert StrLess(top, a.row.group);
    forall i, j | 0 <= i < j < |ext|
      ensures StrLess(ext[i].row.group, ext[j].row.group)
    {
      if j == |last| {
        if i < |last| - 1 {
          StrLessTransitive(last[i].row.group, top, a.row.group);
        }
      } else {
        assert ext[i] == last[i] && ext[j] == last[j];
      }
    }
  }

  // ---------------------------------------------------------------------------------------
  // The long table: melted, sorted by (period, group, variable) and stripped of NaN rows.

  /** The effect rows of one row in per-group mode: its value, weight and mix effect under its
      own group, or nothing when it has no lag (its effects are NaN and dropped). */
  function AnnEffects(m: Ann): (es: seq<Entry>)
    ensures forall i :: 0 <= i < |es| ==> es[i].variable != TotalValue
  {
    if m.lag.None? then []
    else
      var o, lag := m.row, m.lag.value;
      [Entry(o.period, o.group, EffectOf(ValueEffect), ValueEffectOf(o, lag)),
       Entry(o.period, o.group, EffectOf(WeightEffect), WeightEffectOf(o, lag)),
       Entry(o.period, o.group, EffectOf(MixEffect), MixEffectOf(o, lag))]
  }

  /** The effect rows of a period in per-group mode, row by row. */
  function RowEffects(ms: seq<Ann>): (es: seq<Entry>)
    ensures forall i :: 0 <= i < |es| ==> es[i].variable != TotalValue
  {
    if ms == [] then [] else RowEffects(ms[..|ms| - 1]) + AnnEffects(ms[|ms| - 1])
  }

  /** The label of the single group in aggregated mode. */
  const Fixed: string := "FIXED"

  /** The entries of the `k`-th period. Aggregated: the three summed effects (NA, hence
      dropped, for the first period) and the total, all under group "FIXED". Per group: the
      effect rows of each group, then the period's total under a group of `k + 1` spaces. */
  function Block(ms: seq<Ann>, k: nat, aggregated: bool): seq<Entry> {
    var p := RunPeriod(ms);
    if aggregated then
      (if k == 0 then []
       else [Entry(p, Fixed, EffectOf(ValueEffect), SumEffect(ms, ValueEffect)),
             Entry(p, Fixed, EffectOf(WeightEffect), SumEffect(ms, WeightEffect)),
             Entry(p, Fixed, EffectOf(MixEffect), SumEffect(ms, MixEffect))])
      + [TotalEntry(ms, k, aggregated)]
    else RowEffects(ms) + [TotalEntry(ms, k, aggregated)]
  }

  /** The total entry that closes the `k`-th period's block. */
  function TotalEntry(ms: seq<Ann>, k: nat, aggregated: bool): Entry {
    Entry(RunPeriod(ms), if aggregated then Fixed else Spaces(k + 1), TotalValue, SumTotal(ms))
  }

  /** The blocks of the periods, in period order. */
  function Blocks(rs: seq<seq<Ann>>, aggregated: bool): (bs: seq<seq<Entry>>)
    ensures |bs| == |rs|
  {
    if rs == [] then [] else Blocks(rs[..|rs| - 1], aggregated) + [Block(rs[|rs| - 1], |rs| - 1, aggregated)]
  }

  lemma {:induction false} BlockAt(rs: seq<seq<Ann>>, k: nat, aggregated: bool)
    requires k < |rs|
    ensures Blocks(rs, aggregated)[k] == Block(rs[k], k, aggregated)
  {
    if k < |rs| - 1 {
      BlockAt(rs[..|rs| - 1], k, aggregated);
    }
  }

  /** The long table: melted, sorted by (period, group, variable), NaN rows dropped. */
  function LongTable(rs: seq<seq<Ann>>, aggregated: bool): seq<Entry> {
    Concat(Blocks(rs, aggregated))
  }

  /** A block holds one total, last, after effect entries only. */
  lemma BlockShape(ms: seq<Ann>, k: nat, aggregated: bool)
    ensures var b := Block(ms, k, aggregated);
      TotalLast(b) && b[|b| - 1] == TotalEntry(ms, k, aggregated)
  {
  }

  lemma BlocksShape(rs: seq<seq<Ann>>, aggregated: bool)
    ensures AllTotalLast(Blocks(rs, aggregated))
  {
    forall k | 0 <= k < |rs|
      ensures TotalLast(Blocks(rs, aggregated)[k])
    {
      BlockAt(rs, k, aggregated);
      BlockShape(rs[k], k, aggregated);
    }
  }

  lemma BlockTotal(rs: seq<seq<Ann>>, k: nat, aggregated: bool)
    requires k < |rs|
    ensures var b := Blocks(rs, aggregated)[k];
      b != [] && b[|b| - 1] == TotalEntry(rs[k], k, aggregated)
  {
    BlockAt(rs, k, aggregated);
    BlockShape(rs[k], k, aggregated);
  }

  /** The number of rows of the table before the `k`-th period's block. */
  function BlockStart(rs: seq<seq<Ann>>, k: nat, aggregated: bool): nat
    requires k <= |rs|
  {
    |Concat(Blocks(rs, aggregated)[..k])|
  }

  /** Where the `k`-th period's total sits: after the table of the first `k` periods and the
      period's own effect rows. */
  function TotalPos(rs: seq<seq<Ann>>, k: nat, aggregated: bool): int
    requires k < |rs|
  {
    BlockStart(rs, k, aggregated) + |Blocks(rs, aggregated)[k]| - 1
  }

  /** The `k`-th total of the table is the `k`-th period's, and it is preceded by exactly `k`
      totals. */
  lemma TotalPosition(rs: seq<seq<Ann>>, k: nat, aggregated: bool)
    requires k < |rs|
    ensures 0 <= TotalPos(rs, k, aggregated) < |LongTable(rs, aggregated)|
    ensures LongTable(rs, aggregated)[TotalPos(rs, k, aggregated)] == TotalEntry(rs[k], k, aggregated)
    ensures TotalsUpTo(LongTable(rs, aggregated), TotalPos(rs, k, aggregated) + 1) == k + 1
  {
    var bs := Blocks(rs, aggregated);
    var es := LongTable(rs, aggregated);
    var pos := TotalPos(rs, k, aggregated);
    assert es == Concat(bs);
    assert pos == |Concat(bs[..k])| + |bs[k]| - 1;
    assert pos + 1 == |Concat(bs[..k])| + |bs[k]| - 1 + 1;
    BlocksShape(rs, aggregated);
    TotalOfBlock(bs, k);
    assert es[pos] == bs[k][|bs[k]| - 1];
    BlockTotal(rs, k, aggregated);
  }

  /** The `j`-th effect row of the `k`-th period in the per-group table: right after the table of
      the first `k` periods, after exactly `k` totals. */
  lemma EffectPosition(rs: seq<seq<Ann>>, k: nat, j: nat)
    requires k < |rs| && j < |RowEffects(rs[k])|
    ensures var es := LongTable(rs, false);
      var pos := BlockStart(rs, k, false) + j;
      && pos < |es| && es[pos] == RowEffects(rs[k])[j]
      && TotalsUpTo(es, pos) == k
  {
    var bs := Blocks(rs, false);
    var effects := RowEffects(rs[k]);
    BlocksShape(rs, false);
    BlockAt(rs, k, false);
    assert bs[k] == effects + [TotalEntry(rs[k], k, false)];
    assert bs[k][j] == effects[j];
    EffectOfBlock(bs, k, j);
  }

  // ---------------------------------------------------------------------------------------
  // The returned lists.

  /** The number of blank labels among the first `n` of `ts`. */
  function BlanksUpTo(ts: seq<string>, n: nat): nat
    requires n <= |ts|
  {
    if n == 0 then 0 else BlanksUpTo(ts, n - 1) + (if IsBlank(ts[n - 1]) then 1 else 0)
  }

  /** The per-group outer label of row `i`: a total shows its period; an effect shows its
      group followed by as many spaces as totals came before it, which keeps the labels of
      different periods apart on the axis. */
  function OuterAt(es: seq<Entry>, ts: seq<string>, i: nat): string
    requires i < |es| == |ts|
  {
    if IsBlank(ts[i]) then es[i].period else es[i].group + Spaces(BlanksUpTo(ts, i))
  }

  function OuterLabels(es: seq<Entry>, ts: seq<string>): (x1: seq<string>)
    requires |es| == |ts|
    ensures |x1| == |es|
  {
    seq(|es|, i requires 0 <= i < |es| => OuterAt(es, ts, i))
  }

  /** The per-group `x1` loop, with its `space_counter`. */
  method OuterAxis(es: seq<Entry>, ts: seq<string>) returns (x1: seq<string>)
    requires |es| == |ts|
    ensures x1 == OuterLabels(es, ts)
  {
    x1 := [];
    var spaceCounter := 0;
    var k := 0;
    while k < |es|
      invariant 0 <= k <= |es| && |x1| == k
      invariant spaceCounter == BlanksUpTo(ts, k)
      invariant forall j :: 0 <= j < k ==> x1[j] == OuterAt(es, ts, j)
    {
      if IsBlank(ts[k]) {
        x1 := x1 + [es[k].period];
        spaceCounter := spaceCounter + 1;
      } else {
        x1 := x1 + [es[k].group + Spaces(spaceCounter)];
      }
      k := k + 1;
    }
  }

  /** What `price_volume_mix_analysis` returns for the periods `rs`: aggregated, the outer
      axis is the period; per group, it is the `x1` list of the loop. */
  function MixBridge(rs: seq<seq<Ann>>, aggregated: bool): Bridge {
    var es := LongTable(rs, aggregated);
    BridgeOf(if aggregated then Periods(es) else OuterLabels(es, Texts(es)), es)
  }

  /** `price_volume_mix_analysis`: the bridge, or the TypeError pandas raises when the tenth
      total is relabelled (the blank-label vocabulary holds 1 to 9 spaces). Aggregated, an
      empty frame fails earlier: writing NA into row 0 of the empty sums adds a row whose
      group is NaN, and the group categories' sort key calls `strip` on it, an
      AttributeError. The period column is the one named "period", which the labels are read
      from. */
  method PriceVolumeMixAnalysis(rows: seq<Obs>, aggregated: bool) returns (r: Result<Bridge, PyError>)
    requires RowsSorted(rows)
    requires !aggregated ==> forall i :: 0 <= i < |rows| ==> !IsBlank(rows[i].group)
    ensures r.Success? <==> !(aggregated && rows == []) && |Runs(Annotate(rows))| <= 9
    ensures r.Failure? ==> r.error == if aggregated && rows == [] then AttributeError else TypeError
    ensures r.Success? ==> r.value == MixBridge(Runs(Annotate(rows)), aggregated)
  {
    if aggregated && rows == [] {
      return Failure(AttributeError);
    }
    var rs := Runs(Annotate(rows));
    var es := LongTable(rs, aggregated);
    BlocksShape(rs, aggregated);
    ConcatTotals(Blocks(rs, aggregated));
    var relabelled := RelabelTotals(es, 9);
    if relabelled.Failure? {
      return Failure(relabelled.error);
    }
    var labels := relabelled.value;
    var texts := seq(|es|, i requires 0 <= i < |es| => LabelText(labels[i]));
    var measures := seq(|es|, i requires 0 <= i < |es| => MeasureOf(texts[i]));
    var amounts := seq(|es|, i requires 0 <= i < |es| => es[i].amount);
    assert texts == Texts(es);
    assert measures == Measures(texts);
    assert amounts == Amounts(es);
    var outer: seq<string>;
    if aggregated {
      outer := seq(|es|, i requires 0 <= i < |es| => es[i].period);
      assert outer == Periods(es);
    } else {
      outer := OuterAxis(es, texts);
    }
    r := Success(Bridge(outer, texts, amounts, measures));
  }

  // ---------------------------------------------------------------------------------------
  // What the bridge shows.

  /** The blank texts are exactly the relabelled totals. */
  lemma {:induction false} BlanksAreTotals(es: seq<Entry>, i: nat)
    requires i <= |es|
    ensures BlanksUpTo(Texts(es), i) == TotalsUpTo(es, i)
  {
    if i > 0 {
      BlanksAreTotals(es, i - 1);
      MeasureOfLabel(LabelAt(es, i - 1));
    }
  }

  /** The `k`-th period total (k from 0) is labelled with `k + 1` spaces, is absolute, shows
      the period's summed `total_value`, and stands under the period in both modes. */
  lemma MixTotalLabel(rs: seq<seq<Ann>>, k: nat, aggregated: bool)
    requires k < |rs|
    ensures var b := MixBridge(rs, aggregated);
      var pos := TotalPos(rs, k, aggregated);
      && 0 <= pos < |b.inner| == |b.measures|
      && b.inner[pos] == Spaces(k + 1) && b.measures[pos] == Absolute
  {
    var es := LongTable(rs, aggregated);
    var pos := TotalPos(rs, k, aggregated);
    TotalPosition(rs, k, aggregated);
    TotalAt(if aggregated then Periods(es) else OuterLabels(es, Texts(es)), es, pos);
  }

  lemma MixTotalAmount(rs: seq<seq<Ann>>, k: nat, aggregated: bool)
    requires k < |rs|
    ensures var b := MixBridge(rs, aggregated);
      var pos := TotalPos(rs, k, aggregated);
      && 0 <= pos < |b.outer| == |b.amounts|
      && b.outer[pos] == RunPeriod(rs[k]) && b.amounts[pos] == SumTotal(rs[k])
  {
    var es := LongTable(rs, aggregated);
    var pos := TotalPos(rs, k, aggregated);
    TotalPosition(rs, k, aggregated);
    if !aggregated {
      MixTotalLabel(rs, k, aggregated);
      SpacesAreBlank(k + 1);
      assert Texts(es)[pos] == Spaces(k + 1);
    }
  }

  /** Per group, each effect shows its name, is relative, and keeps its amount. */
  lemma GroupEffectLabel(rs: seq<seq<Ann>>, k: nat, j: nat)
    requires k < |rs| && j < |RowEffects(rs[k])|
    ensures var b := MixBridge(rs, false);
      var e := RowEffects(rs[k])[j];
      var pos := BlockStart(rs, k, false) + j;
      && pos < |b.inner| == |b.measures| == |b.amounts|
      && b.inner[pos] == EffectName(e.variable.effect) && b.measures[pos] == Relative
      && b.amounts[pos] == e.amount
  {
    var es := LongTable(rs, false);
    EffectPosition(rs, k, j);
    EffectAt(OuterLabels(es, Texts(es)), es, BlockStart(rs, k, false) + j);
  }

  /** Per group, the effect rows of the `k`-th period (k from 0) are labelled by their group
      followed by `k` spaces. */
  lemma GroupEffectOuter(rs: seq<seq<Ann>>, k: nat, j: nat)
    requires k < |rs| && j < |RowEffects(rs[k])|
    ensures var b := MixBridge(rs, false);
      var pos := BlockStart(rs, k, false) + j;
      && pos < |b.outer|
      && b.outer[pos] == RowEffects(rs[k])[j].group + Spaces(k)
  {
    var es := LongTable(rs, false);
    var ts := Texts(es);
    var pos := BlockStart(rs, k, false) + j;
    EffectPosition(rs, k, j);
    var e := es[pos];
    assert e.variable != TotalValue;
    assert LabelAt(es, pos) == Named(e.variable.effect);
    MeasureOfLabel(LabelAt(es, pos));
    assert !IsBlank(ts[pos]);
    BlanksAreTotals(es, pos);
    assert OuterAt(es, ts, pos) == e.group + Spaces(k);
    assert OuterLabels(es, ts)[pos] == OuterAt(es, ts, pos);
  }

  // ---------------------------------------------------------------------------------------
  // When the bridge adds up.

  /** Each period total equals the previous one plus the growth of the rows that have a lag:
      the case when every group is present in consecutive periods. */
  predicate Balanced(rs: seq<seq<Ann>>) {
    forall k :: 0 < k < |rs| ==> SumTotal(rs[k - 1]) + Growth(rs[k]) == SumTotal(rs[k])
  }

  /** The per-group effect bars move the level by the period's growth and never break the
      closing. */
  lemma {:induction false} RowEffectsClose(ms: seq<Ann>, level: Option<int>)
    ensures ClosesFrom(level, EntryBars(RowEffects(ms)))
    ensures LevelAfter(level, EntryBars(RowEffects(ms)))
      == if level.Some? then Some(level.value + Growth(ms)) else None
  {
    if ms != [] {
      var n := |ms| - 1;
      var front := RowEffects(ms[..n]);
      RowEffectsClose(ms[..n], level);
      EntryBarsAppend(front, AnnEffects(ms[n]));
      ClosesAppend(level, EntryBars(front), EntryBars(AnnEffects(ms[n])));
      AnnEffectsClose(ms[n], LevelAfter(level, EntryBars(front)));
    }
  }

  /** The bars of one row's effects move the level by the row's growth since its lag. */
  lemma AnnEffectsClose(m: Ann, level: Option<int>)
    ensures ClosesFrom(level, EntryBars(AnnEffects(m)))
    ensures LevelAfter(level, EntryBars(AnnEffects(m)))
      == if level.Some? && m.lag.Some? then Some(level.value + Total(m.row) - Total(m.lag.value)) else level
  {
    if m.lag.Some? {
      var o, lag := m.row, m.lag.value;
      var b1, b2, b3 := Bar(ValueEffectOf(o, lag), Relative), Bar(WeightEffectOf(o, lag), Relative),
                        Bar(MixEffectOf(o, lag), Relative);
      assert EntryBars(AnnEffects(m)) == [b1, b2, b3];
      RelativeTriple(level, b1, b2, b3);
    }
  }

  /** A period's block ends on the period total; it closes exactly when the previous total
      plus the period's growth gives the new total. */
  lemma BlockCloses(ms: seq<Ann>, k: nat, aggregated: bool, level: Option<int>)
    requires k == 0 <==> level.None?
    ensures var bars := EntryBars(Block(ms, k, aggregated));
      && LevelAfter(level, bars) == Some(SumTotal(ms))
      && (ClosesFrom(level, bars) <==> k == 0 || level.value + Growth(ms) == SumTotal(ms))
  {
    var total := EntryBars([TotalEntry(ms, k, aggregated)]);
    assert total == [Bar(SumTotal(ms), Absolute)];
    var effects := Block(ms, k, aggregated)[..|Block(ms, k, aggregated)| - 1];
    assert Block(ms, k, aggregated) == effects + [TotalEntry(ms, k, aggregated)];
    EntryBarsAppend(effects, [TotalEntry(ms, k, aggregated)]);
    ClosesAppend(level, EntryBars(effects), total);
    var mid := LevelAfter(level, EntryBars(effects));
    if aggregated {
      if k == 0 {
        assert effects == [];
      } else {
        EffectsExplainGrowth(ms);
        assert EntryBars(effects) == [Bar(SumEffect(ms, ValueEffect), Relative), Bar(SumEffect(ms, WeightEffect), Relative),
                                      Bar(SumEffect(ms, MixEffect), Relative)];
        RelativeTriple(level, Bar(SumEffect(ms, ValueEffect), Relative), Bar(SumEffect(ms, WeightEffect), Relative),
                       Bar(SumEffect(ms, MixEffect), Relative));
      }
    } else {
      RowEffectsClose(ms, level);
    }
    SingleBar(mid, Bar(SumTotal(ms), Absolute));
  }

  /** The long table of the first periods starts the long table: it is the table of all but
      the last period, followed by the last period's block. */
  lemma LongTableSnoc(rs: seq<seq<Ann>>, aggregated: bool)
    requires rs != []
    ensures LongTable(rs, aggregated)
      == LongTable(rs[..|rs| - 1], aggregated) + Block(rs[|rs| - 1], |rs| - 1, aggregated)
  {
    var bs := Blocks(rs, aggregated);
    assert bs[..|bs| - 1] == Blocks(rs[..|rs| - 1], aggregated);
  }

  /** The table closes on every total exactly when the periods are balanced, and the level it
      ends on is the last period's total. */
  lemma {:induction false} TableCloses(rs: seq<seq<Ann>>, aggregated: bool)
    ensures ClosesFrom(None, EntryBars(LongTable(rs, aggregated))) <==> Balanced(rs)
    ensures rs != [] ==> LevelAfter(None, EntryBars(LongTable(rs, aggregated))) == Some(SumTotal(rs[|rs| - 1]))
    decreases |rs|
  {
    if rs != [] {
      var n := |rs| - 1;
      var front := LongTable(rs[..n], aggregated);
      var block := Block(rs[n], n, aggregated);
      TableCloses(rs[..n], aggregated);
      LongTableSnoc(rs, aggregated);
      EntryBarsAppend(front, block);
      ClosesAppend(None, EntryBars(front), EntryBars(block));
      if n == 0 {
        assert front == [];
      }
      BlockCloses(rs[n], n, aggregated, LevelAfter(None, EntryBars(front)));
      BalancedSnoc(rs);
    }
  }

  /** A grid is balanced when its front is and its last period follows from the one before. */
  lemma BalancedSnoc(rs: seq<seq<Ann>>)
    requires rs != []
    ensures var n := |rs| - 1;
      Balanced(rs) <==> Balanced(rs[..n]) && (n == 0 || SumTotal(rs[n - 1]) + Growth(rs[n]) == SumTotal(rs[n]))
  {
    var n := |rs| - 1;
    assert forall k :: 0 <= k < n ==> rs[..n][k] == rs[k];
  }

  // ---------------------------------------------------------------------------------------
  // The sort by (period, group, variable).

  /** The order of the group categories, sorted with the key `(x.strip() == "", x)`: the
      non-blank groups first, each part in string order. */
  predicate GroupBefore(a: string, b: string) {
    (!IsBlank(a) && IsBlank(b)) || (IsBlank(a) == IsBlank(b) && StrLess(a, b))
  }

  /** The key (period, group, variable) of `a` is strictly below that of `b`. */
  predicate EntryBefore(a: Entry, b: Entry) {
    || StrLess(a.period, b.period)
    || (a.period == b.period && GroupBefore(a.group, b.group))
    || (a.period == b.period && a.group == b.group && VariableRank(a.variable) < VariableRank(b.variable))
  }

  /** Each entry's key is strictly below the next one's. */
  predicate Ascending(es: seq<Entry>) {
    forall i :: 0 < i < |es| ==> EntryBefore(es[i - 1], es[i])
  }

  lemma AscendingAppend(a: seq<Entry>, b: seq<Entry>)
    requires Ascending(a) && Ascending(b)
    requires a != [] && b != [] ==> EntryBefore(a[|a| - 1], b[0])
    ensures Ascending(a + b)
  {
    var ab := a + b;
    forall i | 0 < i < |ab|
      ensures EntryBefore(ab[i - 1], ab[i])
    {
      if i < |a| {
        assert ab[i - 1] == a[i - 1] && ab[i] == a[i];
      } else if i == |a| {
        assert ab[i - 1] == a[|a| - 1] && ab[i] == b[0];
      } else {
        assert ab[i - 1] == b[i - 1 - |a|] && ab[i] == b[i - |a|];
      }
    }
  }

  /** No group of the runs is blank. */
  predicate GroupsNamed(ms: seq<Ann>) {
    forall j :: 0 <= j < |ms| ==> !IsBlank(ms[j].row.group)
  }

  /** One row's effects share its period and group and follow the variable order. */
  lemma AnnEffectsAscending(m: Ann)
    ensures var es := AnnEffects(m);
      && Ascending(es)
      && forall i :: 0 <= i < |es| ==> es[i].period == m.row.period && es[i].group == m.row.group
  {
  }

  /** Every entry sits under period `p`, in a named group no later than `top`. */
  predicate UnderGroup(es: seq<Entry>, p: string, top: string) {
    forall i :: 0 <= i < |es| ==>
      && es[i].period == p && !IsBlank(es[i].group)
      && (es[i].group == top || StrLess(es[i].group, top))
  }

  /** A period's per-group effect rows come in ascending key order, under the period, and
      under groups up to the period's last. */
  lemma {:induction false} RowEffectsAscending(ms: seq<Ann>)
    requires RunOK(ms) && GroupsNamed(ms)
    ensures Ascending(RowEffects(ms))
    ensures UnderGroup(RowEffects(ms), RunPeriod(ms), ms[|ms| - 1].row.group)
  {
    var n := |ms| - 1;
    var last := ms[n];
    var tail := AnnEffects(last);
    var g, p := last.row.group, RunPeriod(ms);
    assert RowEffects(ms) == RowEffects(ms[..n]) + tail;
    assert last.row.period == p && !IsBlank(g);
    AnnEffectsAscending(last);
    assert UnderGroup(tail, p, g);
    if n > 0 {
      var q := ms[..n];
      assert forall j :: 0 <= j < n ==> q[j] == ms[j];
      assert RunOK(q) && GroupsNamed(q) && RunPeriod(q) == p;
      RowEffectsAscending(q);
      var es := RowEffects(q);
      var top := ms[n - 1].row.group;
      assert StrLess(top, g);
      forall i | 0 <= i < |es|
        ensures StrLess(es[i].group, g)
      {
        if es[i].group != top {
          StrLessTransitive(es[i].group, top, g);
        }
      }
      AscendingAppend(es, tail);
      UnderAppend(es, tail, p, g);
    }
  }

  lemma UnderAppend(a: seq<Entry>, b: seq<Entry>, p: string, top: string)
    requires forall i :: 0 <= i < |a| ==> a[i].period == p && !IsBlank(a[i].group) && StrLess(a[i].group, top)
    requires UnderGroup(b, p, top)
    ensures UnderGroup(a + b, p, top)
  {
    var ab := a + b;
    forall i | 0 <= i < |ab|
      ensures ab[i].period == p && !IsBlank(ab[i].group) && (ab[i].group == top || StrLess(ab[i].group, top))
    {
      if i < |a| {
        assert ab[i] == a[i];
      } else {
        assert ab[i] == b[i - |a|];
      }
    }
  }

  /** A period's block is in ascending key order, all under the period. */
  lemma BlockAscending(ms: seq<Ann>, k: nat, aggregated: bool)
    requires RunOK(ms) && (!aggregated ==> GroupsNamed(ms))
    ensures var b := Block(ms, k, aggregated);
      && Ascending(b)
      && forall i :: 0 <= i < |b| ==> b[i].period == RunPeriod(ms)
  {
    var p := RunPeriod(ms);
    var total := TotalEntry(ms, k, aggregated);
    if !aggregated {
      var es := RowEffects(ms);
      RowEffectsAscending(ms);
      SpacesAreBlank(k + 1);
      assert IsBlank(total.group);
      AscendingAppend(es, [total]);
      assert Block(ms, k, aggregated) == es + [total];
    } else if k == 0 {
      assert Block(ms, k, aggregated) == [total];
    } else {
      var v := Entry(p, Fixed, EffectOf(ValueEffect), SumEffect(ms, ValueEffect));
      var w := Entry(p, Fixed, EffectOf(WeightEffect), SumEffect(ms, WeightEffect));
      var m := Entry(p, Fixed, EffectOf(MixEffect), SumEffect(ms, MixEffect));
      assert Block(ms, k, aggregated) == [v, w, m, total];
      assert EntryBefore(v, w) && EntryBefore(w, m) && EntryBefore(m, total);
    }
  }

  /** Sorting by (period, group, variable) leaves the long table unchanged: on periods in
      increasing order, each holding its groups in increasing order, every entry's key is
      strictly below the next one's. */
  lemma {:induction false} LongTableSorted(rs: seq<seq<Ann>>, aggregated: bool)
    requires RunsOK(rs)
    requires !aggregated ==> forall k :: 0 <= k < |rs| ==> GroupsNamed(rs[k])
    ensures var es := LongTable(rs, aggregated);
      && Ascending(es)
      && (rs != [] ==> es != [] && es[|es| - 1].period == RunPeriod(rs[|rs| - 1]))
  {
    if rs != [] {
      var n := |rs| - 1;
      var front := LongTable(rs[..n], aggregated);
      var b := Block(rs[n], n, aggregated);
      LongTableSnoc(rs, aggregated);
      assert forall k :: 0 <= k < n ==> rs[..n][k] == rs[k];
      LongTableSorted(rs[..n], aggregated);
      BlockAscending(rs[n], n, aggregated);
      BlockShape(rs[n], n, aggregated);
      if front != [] {
        assert n > 0;
        assert StrLess(RunPeriod(rs[n - 1]), RunPeriod(rs[n]));
      }
      AscendingAppend(front, b);
      assert (front + b)[|front + b| - 1] == b[|b| - 1];
    }
  }

  /** Runs of rows with named groups hold rows with named groups. */
  lemma {:induction false} RunsNamed(anns: seq<Ann>)
    requires GroupsNamed(anns)
    ensures forall k :: 0 <= k < |Runs(anns)| ==> GroupsNamed(Runs(anns)[k])
  {
    if anns != [] {
      var n := |anns| - 1;
      var front := anns[..n];
      var a := anns[n];
      assert GroupsNamed(front) by {
        forall j | 0 <= j < n
          ensures !IsBlank(front[j].row.group)
        {
          assert front[j] == anns[j];
        }
      }
      RunsNamed(front);
      var rs := Runs(front);
      if rs != [] && RunPeriod(rs[|rs| - 1]) == a.row.period {
        var ext := rs[|rs| - 1] + [a];
        var all := rs[..|rs| - 1] + [ext];
        assert Runs(anns) == all;
        assert GroupsNamed(ext) by {
          forall j | 0 <= j < |ext|
            ensures !IsBlank(ext[j].row.group)
          {
            if j < |ext| - 1 {
              assert ext[j] == rs[|rs| - 1][j];
            }
          }
        }
        forall k | 0 <= k < |all|
          ensures GroupsNamed(all[k])
        {
          if k < |rs| - 1 {
            assert all[k] == rs[k];
          }
        }
      } else {
        var all := rs + [[a]];
        assert Runs(anns) == all;
        forall k | 0 <= k < |all|
          ensures GroupsNamed(all[k])
        {
          if k < |rs| {
            assert all[k] == rs[k];
          }
        }
      }
    }
  }

  /** The table `price_volume_mix_analysis` builds from sorted rows is already in the order
      its `sort_values(by=[period, group, "variable"])` gives. */
  lemma MixTableSorted(rows: seq<Obs>, aggregated: bool)
    requires RowsSorted(rows)
    requires !aggregated ==> forall i :: 0 <= i < |rows| ==> !IsBlank(rows[i].group)
    ensures Ascending(LongTable(Runs(Annotate(rows)), aggregated))
  {
    var anns := Annotate(rows);
    var rs := Runs(anns);
    assert AnnsSorted(anns);
    RunsShape(anns);
    if !aggregated {
      assert GroupsNamed(anns);
      RunsNamed(anns);
    }
    LongTableSorted(rs, aggregated);
  }

  /** The returned bridge adds up, read as a waterfall, exactly when the periods are balanced. */
  lemma MixReconciles(rs: seq<seq<Ann>>, aggregated: bool)
    ensures Reconciles(MixBridge(rs, aggregated)) <==> Balanced(rs)
  {
    var es := LongTable(rs, aggregated);
    BridgeBars(if aggregated then Periods(es) else OuterLabels(es, Texts(es)), es);
    TableCloses(rs, aggregated);
  }

  /** Each row of `cur` has as its lag the row at the same place in `prev`: the same groups
      appear in both periods. */
  predicate LagsFrom(prev: seq<Ann>, cur: seq<Ann>) {
    |prev| == |cur| && forall j :: 0 <= j < |cur| ==> cur[j].lag == Some(prev[j].row)
  }

  /** When every row of a period has its lag in the previous period, the period's growth is
      exactly the change of the period total. */
  lemma {:induction false} GrowthIsTotalChange(prev: seq<Ann>, cur: seq<Ann>)
    requires LagsFrom(prev, cur)
    ensures SumTotal(prev) + Growth(cur) == SumTotal(cur)
  {
    if cur != [] {
      var n := |cur| - 1;
      assert LagsFrom(prev[..n], cur[..n]);
      GrowthIsTotalChange(prev[..n], cur[..n]);
    }
  }

  /** Periods over the same groups make the bridge balanced: in aggregated mode each later
      period's three summed effects then equal its total minus the previous total. */
  lemma GridBalanced(rs: seq<seq<Ann>>)
    requires forall k :: 0 < k < |rs| ==> LagsFrom(rs[k - 1], rs[k])
    ensures Balanced(rs)
    ensures forall k :: 0 < k < |rs| ==>
      SumEffect(rs[k], ValueEffect) + SumEffect(rs[k], WeightEffect) + SumEffect(rs[k], MixEffect)
        == SumTotal(rs[k]) - SumTotal(rs[k - 1])
  {
    forall k | 0 < k < |rs|
      ensures SumTotal(rs[k - 1]) + Growth(rs[k]) == SumTotal(rs[k])
      ensures SumEffect(rs[k], ValueEffect) + SumEffect(rs[k], WeightEffect) + SumEffect(rs[k], MixEffect)
        == SumTotal(rs[k]) - SumTotal(rs[k - 1])
    {
      GrowthIsTotalChange(rs[k - 1], rs[k]);
      EffectsExplainGrowth(rs[k]);
    }
  }

  /** Three products over two years: the effects of the second year sum to 2500 (value),
      4500 (weight) and 900 (mix), bridging the totals 32000 and 39900. */
  lemma AggregatedExample()
    ensures var fy23 := [Obs("FY23", "A", 10, 1000), Obs("FY23", "B", 15, 800), Obs("FY23", "C", 20, 500)];
      var fy24 := [Obs("FY24", "A", 11, 1000), Obs("FY24", "B", 15, 700), Obs("FY24", "C", 23, 800)];
      var prev := [Ann(fy23[0], None), Ann(fy23[1], None), Ann(fy23[2], None)];
      var cur := [Ann(fy24[0], Some(fy23[0])), Ann(fy24[1], Some(fy23[1])), Ann(fy24[2], Some(fy23[2]))];
      && Annotate(fy23 + fy24) == prev + cur
      && SumTotal(prev) == 32000 && SumTotal(cur) == 39900
      && SumEffect(cur, ValueEffect) == 2500
      && SumEffect(cur, WeightEffect) == 4500
      && SumEffect(cur, MixEffect) == 900
      && Balanced([prev, cur])
  {
    var fy23 := [Obs("FY23", "A", 10, 1000), Obs("FY23", "B", 15, 800), Obs("FY23", "C", 20, 500)];
    var fy24 := [Obs("FY24", "A", 11, 1000), Obs("FY24", "B", 15, 700), Obs("FY24", "C", 23, 800)];
    var prev := [Ann(fy23[0], None), Ann(fy23[1], None), Ann(fy23[2], None)];
    var cur := [Ann(fy24[0], Some(fy23[0])), Ann(fy24[1], Some(fy23[1])), Ann(fy24[2], Some(fy23[2]))];
    var rows := fy23 + fy24;
    Sums3(prev);
    Sums3(cur);
    forall i | 0 <= i < 6
      ensures Annotate(rows)[i] == (prev + cur)[i]
    {
      if i < 3 {
        assert forall j :: 0 <= j < i ==> rows[j].group != rows[i].group;
      } else {
        // Walk back from the row to the same group's row one period earlier.
        assert rows[..5][..4] == rows[..4] && rows[..4][..3] == rows[..3];
        assert rows[..3][..2] == rows[..2] && rows[..2][..1] == rows[..1];
        assert LastOfGroup(rows[..3], "A") == LastOfGroup(rows[..1], "A") == Some(rows[0]);
        assert LastOfGroup(rows[..4], "B") == LastOfGroup(rows[..2], "B") == Some(rows[1]);
        assert LastOfGroup(rows[..5], "C") == LastOfGroup(rows[..3], "C") == Some(rows[2]);
      }
    }
    GridBalanced([prev, cur]);
  }

  /** The sums over a period of three rows. */
  lemma Sums3(ms: seq<Ann>)
    requires |ms| == 3
    ensures SumTotal(ms) == Total(ms[0].row) + Total(ms[1].row) + Total(ms[2].row)
    ensures forall e :: (SumEffect(ms, e)
      == (if ms[0].lag.Some? then EffectAmount(e, ms[0].row, ms[0].lag.value) else 0)
       + (if ms[1].lag.Some? then EffectAmount(e, ms[1].row, ms[1].lag.value) else 0)
       + (if ms[2].lag.Some? then EffectAmount(e, ms[2].row, ms[2].lag.value) else 0))
  {
    var a, b := ms[..2], ms[..1];
    assert a[..1] == b && b[..0] == [] && ms[..2][..1] == b;
    assert SumTotal(b) == Total(ms[0].row);
    assert SumTotal(a) == Total(ms[0].row) + Total(ms[1].row);
    forall e
      ensures SumEffect(ms, e)
        == (if ms[0].lag.Some? then EffectAmount(e, ms[0].row, ms[0].lag.value) else 0)
         + (if ms[1].lag.Some? then EffectAmount(e, ms[1].row, ms[1].lag.value) else 0)
         + (if ms[2].lag.Some? then EffectAmount(e, ms[2].row, ms[2].lag.value) else 0)
    {
      assert SumEffect(b, e) == (if ms[0].lag.Some? then EffectAmount(e, ms[0].row, ms[0].lag.value) else 0);
    }
  }
}
