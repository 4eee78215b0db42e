/** The waterfall ("bridge") vocabulary shared by the price-volume and price-volume-mix
    analyses: effect names, the k-space labels that mark period totals, the
    absolute/relative measure, and what it means for a bridge to add up. */
module Waterfall {
  import opened Wrappers
  import opened Strings

  datatype Effect = ValueEffect | WeightEffect | MixEffect

  /** The `variable` column after the melt: one of the effects, or the period's `total_value`. */
  datatype Variable = EffectOf(effect: Effect) | TotalValue

  /** One row of the melted, sorted and NA-free long table. */
  datatype Entry = Entry(period: string, group: string, variable: Variable, amount: int)

  /** The inner axis label after the relabelling loop: an effect name, or `k` spaces for the k-th total. */
  datatype Label = Named(effect: Effect) | Blank(width: nat)

  datatype Measure = Absolute | Relative

  /** The three parallel lists the analyses return: `x = [outer, inner]`, `y` and `measure`. */
  datatype Bridge = Bridge(outer: seq<string>, inner: seq<string>, amounts: seq<int>, measures: seq<Measure>)

  function EffectName(e: Effect): string {
    match e
    case ValueEffect => "value_effect"
    case WeightEffect => "weight_effect"
    case MixEffect => "mix_effect"
  }

  /** The string the source stores in the `variable` column for this label. */
  function LabelText(l: Label): string {
    match l
    case Named(e) => EffectName(e)
    case Blank(k) => Spaces(k)
  }

  /** Reads a `variable` string back as a label. */
  function ParseLabel(s: string): Option<Label> {
    if s == "value_effect" then Some(Named(ValueEffect))
    else if s == "weight_effect" then Some(Named(WeightEffect))
    else if s == "mix_effect" then Some(Named(MixEffect))
    else if forall i :: 0 <= i < |s| ==> s[i] == ' ' then Some(Blank(|s|))
    else None
  }

  /** Every label is recovered from its text: a blank label is exactly `width` spaces. */
  lemma LabelTextRoundTrip(l: Label)
    ensures ParseLabel(LabelText(l)) == Some(l)
  {
    match l
    case Named(e) =>
    case Blank(k) =>
      var s := Spaces(k);
      if k > 0 {
        assert s[0] == ' ';
      }
  }

  /** The rank of the ordered categorical the source sorts the `variable` column by. */
  function VariableRank(v: Variable): nat {
    match v
    case EffectOf(ValueEffect) => 0
    case EffectOf(WeightEffect) => 1
    case EffectOf(MixEffect) => 2
    case TotalValue => 3
  }

  /** `"absolute"` by default, `"relative"` wherever `variable.str.strip() != ""`. */
  function MeasureOf(text: string): Measure {
    if IsBlank(text) then Absolute else Relative
  }

  /** A label measures "absolute" exactly when it is a blank (total) label. */
  lemma MeasureOfLabel(l: Label)
    ensures MeasureOf(LabelText(l)) == Absolute <==> l.Blank?
  {
    if l.Named? {
      assert !IsWhitespace(LabelText(l)[0]);
    } else {
      SpacesAreBlank(l.width);
    }
  }

  /** The number of period-total rows among the first `n` rows of a long table. */
  function TotalsUpTo(es: seq<Entry>, n: nat): nat
    requires n <= |es|
  {
    if n == 0 then 0
    else TotalsUpTo(es, n - 1) + (if es[n - 1].variable == TotalValue then 1 else 0)
  }

  /** The number of period-total rows in a long table. */
  function TotalsIn(es: seq<Entry>): nat {
    TotalsUpTo(es, |es|)
  }

  /** The count up to `n` only looks at the first `n` rows. */
  lemma {:induction false} TotalsUpToAgree(a: seq<Entry>, b: seq<Entry>, n: nat)
    requires n <= |a| && n <= |b|
    requires forall i :: 0 <= i < n ==> a[i] == b[i]
    ensures TotalsUpTo(a, n) == TotalsUpTo(b, n)
  {
    if n > 0 {
      TotalsUpToAgree(a, b, n - 1);
    }
  }

  /** The count never decreases along the table. */
  lemma {:induction false} TotalsUpToMonotone(es: seq<Entry>, k: nat, n: nat)
    requires k <= n <= |es|
    ensures TotalsUpTo(es, k) <= TotalsUpTo(es, n)
    decreases n
  {
    if k < n {
      TotalsUpToMonotone(es, k, n - 1);
    }
  }

  /** Rows that are all effects hold no total. */
  lemma {:induction false} NoTotals(es: seq<Entry>, n: nat)
    requires n <= |es|
    requires forall i :: 0 <= i < n ==> es[i].variable != TotalValue
    ensures TotalsUpTo(es, n) == 0
  {
    if n > 0 {
      NoTotals(es, n - 1);
    }
  }

  /** `block` sits in `es` right after `front`, which starts `es`. */
  predicate Placed(es: seq<Entry>, front: seq<Entry>, block: seq<Entry>) {
    && |front| + |block| <= |es|
    && (forall i :: 0 <= i < |front| ==> es[i] == front[i])
    && (forall j :: 0 <= j < |block| ==> es[|front| + j] == block[j])
  }

  /** The totals up to a point inside a placed block: those of `front`, then those of the block. */
  lemma {:induction false} TotalsAfter(es: seq<Entry>, front: seq<Entry>, block: seq<Entry>, j: nat)
    requires Placed(es, front, block) && j <= |block|
    ensures TotalsUpTo(es, |front| + j) == TotalsIn(front) + TotalsUpTo(block, j)
  {
    if j == 0 {
      TotalsUpToAgree(es, front, |front|);
    } else {
      TotalsAfter(es, front, block, j - 1);
      assert es[|front| + j - 1] == block[j - 1];
    }
  }

  lemma TotalsInAppend(a: seq<Entry>, b: seq<Entry>)
    ensures TotalsIn(a + b) == TotalsIn(a) + TotalsIn(b)
  {
    TotalsAfter(a + b, a, b, |b|);
  }

  /** The label of row `j`: an effect row keeps its effect's name; a total row is labelled by
      as many spaces as there are totals up to and including it. */
  function LabelAt(es: seq<Entry>, j: nat): Label
    requires j < |es|
  {
    if es[j].variable == TotalValue then Blank(TotalsUpTo(es, j + 1))
    else Named(es[j].variable.effect)
  }

  function Labels(es: seq<Entry>): (ls: seq<Label>)
    ensures |ls| == |es|
  {
    seq(|es|, j requires 0 <= j < |es| => LabelAt(es, j))
  }

  /** The loop of the source that replaces the i-th `total_value` by `i` spaces, counting the
      totals as it goes. The label vocabulary admits only `vocabulary` distinct blank labels;
      pandas refuses to store a label outside the categorical vocabulary, which ends the call
      with a TypeError. */
  method RelabelTotals(es: seq<Entry>, vocabulary: nat) returns (r: Result<seq<Label>, PyError>)
    ensures r.Success? <==> TotalsIn(es) <= vocabulary
    ensures r.Success? ==> r.value == Labels(es)
    ensures r.Failure? ==> r.error == TypeError
  {
    var labels: seq<Label> := [];
    var i := 0;
    var k := 0;
    while k < |es|
      invariant 0 <= k <= |es| && |labels| == k
      invariant i == TotalsUpTo(es, k) <= vocabulary
      invariant forall j :: 0 <= j < k ==> labels[j] == LabelAt(es, j)
    {
      if es[k].variable == TotalValue {
        i := i + 1;
        if i > vocabulary {
          TotalsUpToMonotone(es, k + 1, |es|);
          return Failure(TypeError);
        }
        labels := labels + [Blank(i)];
      } else {
        labels := labels + [Named(es[k].variable.effect)];
      }
      k := k + 1;
    }
    return Success(labels);
  }

  /** One bar of a waterfall: an absolute bar resets the running level, a relative bar moves it. */
  datatype Bar = Bar(amount: int, measure: Measure)

  function Step(level: Option<int>, b: Bar): Option<int> {
    if b.measure == Absolute then Some(b.amount)
    else if level.Some? then Some(level.value + b.amount)
    else None
  }

  /** The running level after the bars, starting from `start` (None: no absolute bar yet). */
  function LevelAfter(start: Option<int>, bars: seq<Bar>): Option<int>
    decreases |bars|
  {
    if bars == [] then start else LevelAfter(Step(start, bars[0]), bars[1..])
  }

  /** The bridge adds up: every absolute bar after the first equals the level the relative bars reached. */
  predicate ClosesFrom(start: Option<int>, bars: seq<Bar>)
    decreases |bars|
  {
    bars == [] ||
    ((bars[0].measure == Absolute && start.Some? ==> start.value == bars[0].amount)
     && ClosesFrom(Step(start, bars[0]), bars[1..]))
  }

  lemma {:induction false} ClosesAppend(start: Option<int>, a: seq<Bar>, b: seq<Bar>)
    ensures LevelAfter(start, a + b) == LevelAfter(LevelAfter(start, a), b)
    ensures ClosesFrom(start, a + b) <==> ClosesFrom(start, a) && ClosesFrom(LevelAfter(start, a), b)
    decreases |a|
  {
    if a == [] {
      assert a + b == b;
    } else {
      assert (a + b)[1..] == a[1..] + b;
      ClosesAppend(Step(start, a[0]), a[1..], b);
    }
  }

  lemma SingleBar(start: Option<int>, b: Bar)
    ensures LevelAfter(start, [b]) == Step(start, b)
    ensures ClosesFrom(start, [b]) <==> (b.measure == Absolute && start.Some? ==> start.value == b.amount)
  {
    assert [b][1..] == [];
  }

  /** Three relative bars move the level by their sum and never break the closing. */
  lemma RelativeTriple(level: Option<int>, b1: Bar, b2: Bar, b3: Bar)
    requires b1.measure == b2.measure == b3.measure == Relative
    ensures ClosesFrom(level, [b1, b2, b3])
    ensures LevelAfter(level, [b1, b2, b3])
      == if level.Some? then Some(level.value + b1.amount + b2.amount + b3.amount) else None
  {
    assert [b1, b2, b3] == [b1] + ([b2] + [b3]);
    ClosesAppend(level, [b1], [b2] + [b3]);
    SingleBar(level, b1);
    ClosesAppend(Step(level, b1), [b2], [b3]);
    SingleBar(Step(level, b1), b2);
    SingleBar(Step(Step(level, b1), b2), b3);
  }

  lemma EntryBarsAppend(a: seq<Entry>, b: seq<Entry>)
    ensures EntryBars(a + b) == EntryBars(a) + EntryBars(b)
  {
  }

  function BarsOf(b: Bridge): seq<Bar>
    requires |b.amounts| == |b.measures|
  {
    seq(|b.amounts|, i requires 0 <= i < |b.amounts| => Bar(b.amounts[i], b.measures[i]))
  }

  /** A returned bridge adds up when read as a waterfall from its first bar. */
  predicate Reconciles(b: Bridge) {
    |b.amounts| == |b.measures| && ClosesFrom(None, BarsOf(b))
  }

  /** The bar a long-table row becomes: totals are absolute, effects relative. */
  function EntryBar(e: Entry): Bar {
    Bar(e.amount, if e.variable == TotalValue then Absolute else Relative)
  }

  function EntryBars(es: seq<Entry>): (bs: seq<Bar>)
    ensures |bs| == |es|
    ensures forall i :: 0 <= i < |es| ==> bs[i] == EntryBar(es[i])
  {
    seq(|es|, i requires 0 <= i < |es| => EntryBar(es[i]))
  }

  /** The outer axis labels: every row is labelled by its period (`x = [period, variable]`). */
  function Periods(es: seq<Entry>): (ps: seq<string>)
    ensures |ps| == |es|
  {
    seq(|es|, i requires 0 <= i < |es| => es[i].period)
  }

  /** The `variable` strings after relabelling. */
  function Texts(es: seq<Entry>): (ts: seq<string>)
    ensures |ts| == |es|
    ensures forall i :: 0 <= i < |es| ==> ts[i] == LabelText(LabelAt(es, i))
  {
    seq(|es|, i requires 0 <= i < |es| => LabelText(LabelAt(es, i)))
  }

  function Amounts(es: seq<Entry>): (ys: seq<int>)
    ensures |ys| == |es|
    ensures forall i :: 0 <= i < |es| ==> ys[i] == es[i].amount
  {
    seq(|es|, i requires 0 <= i < |es| => es[i].amount)
  }

  function Measures(ts: seq<string>): (ms: seq<Measure>)
    ensures |ms| == |ts|
    ensures forall i :: 0 <= i < |ts| ==> ms[i] == MeasureOf(ts[i])
  {
    seq(|ts|, i requires 0 <= i < |ts| => MeasureOf(ts[i]))
  }

  /** The bridge the relabelled long table turns into; `outer` is given, the rest follows the
      source: inner labels as strings, amounts from `value`, measures from the label text. */
  function BridgeOf(outer: seq<string>, es: seq<Entry>): Bridge {
    Bridge(outer, Texts(es), Amounts(es), Measures(Texts(es)))
  }

  /** Row `i` of the built bridge: a total row shows `c` spaces, `c` counting the totals up to
      and including it, and is absolute; an effect row shows its name and is relative. */
  lemma BridgeAt(outer: seq<string>, es: seq<Entry>, i: nat)
    requires i < |es|
    ensures var b := BridgeOf(outer, es);
      && |b.inner| == |b.amounts| == |b.measures| == |es|
      && b.amounts[i] == es[i].amount
      && (es[i].variable == TotalValue ==>
            b.inner[i] == Spaces(TotalsUpTo(es, i + 1)) && b.measures[i] == Absolute)
      && (es[i].variable != TotalValue ==>
            b.inner[i] == EffectName(es[i].variable.effect) && b.measures[i] == Relative)
  {
    MeasureOfLabel(LabelAt(es, i));
  }

  /** A total row of the built bridge shows as many spaces as totals up to it and is absolute. */
  lemma TotalAt(outer: seq<string>, es: seq<Entry>, i: nat)
    requires i < |es| && es[i].variable == TotalValue
    ensures var b := BridgeOf(outer, es);
      && |b.inner| == |b.amounts| == |b.measures| == |es|
      && b.amounts[i] == es[i].amount
      && b.inner[i] == Spaces(TotalsUpTo(es, i + 1)) && b.measures[i] == Absolute
  {
    BridgeAt(outer, es, i);
  }

  /** Inside a block that follows `front` in a table, an entry preceded only by effects in its
      block comes after exactly the totals of `front`. */
  lemma InBlock(es: seq<Entry>, front: seq<Entry>, block: seq<Entry>, j: nat)
    requires Placed(es, front, block) && j < |block|
    requires forall i :: 0 <= i < j ==> block[i].variable != TotalValue
    ensures es[|front| + j] == block[j]
    ensures TotalsUpTo(es, |front| + j) == TotalsIn(front)
  {
    NoTotals(block, j);
    TotalsAfter(es, front, block, j);
  }

  /** The last entry of a block placed after `front`, and the totals up to and including it. */
  lemma BlockEnd(es: seq<Entry>, front: seq<Entry>, block: seq<Entry>)
    requires Placed(es, front, block) && block != []
    ensures es[|front| + |block| - 1] == block[|block| - 1]
    ensures TotalsUpTo(es, |front| + |block|) == TotalsIn(front) + TotalsIn(block)
  {
    TotalsAfter(es, front, block, |block|);
  }

  /** The long table as the rows of its per-period blocks, block after block. */
  function Concat(bs: seq<seq<Entry>>): seq<Entry> {
    if bs == [] then [] else Concat(bs[..|bs| - 1]) + bs[|bs| - 1]
  }

  /** A period's block: effect rows, then the period's one total, last. */
  predicate TotalLast(b: seq<Entry>) {
    && b != [] && b[|b| - 1].variable == TotalValue
    && forall i :: 0 <= i < |b| - 1 ==> b[i].variable != TotalValue
  }

  predicate AllTotalLast(bs: seq<seq<Entry>>) {
    forall k :: 0 <= k < |bs| ==> TotalLast(bs[k])
  }

  /** The table of the first blocks starts the table of all of them. */
  lemma {:induction false} ConcatPrefix(bs: seq<seq<Entry>>, k: nat)
    requires k <= |bs|
    ensures |Concat(bs[..k])| <= |Concat(bs)|
    ensures forall i :: 0 <= i < |Concat(bs[..k])| ==> Concat(bs)[i] == Concat(bs[..k])[i]
    decreases |bs| - k
  {
    if k < |bs| {
      var m := |bs| - 1;
      assert bs[..m][..k] == bs[..k];
      ConcatPrefix(bs[..m], k);
    } else {
      assert bs[..k] == bs;
    }
  }

  /** Block `k` follows the first `k` blocks. */
  lemma ConcatPlaced(bs: seq<seq<Entry>>, k: nat)
    requires k < |bs|
    ensures Placed(Concat(bs), Concat(bs[..k]), bs[k])
  {
    var front, upTo, all := Concat(bs[..k]), Concat(bs[..k + 1]), Concat(bs);
    ConcatSnoc(bs, k);
    ConcatPrefix(bs, k + 1);
    assert forall i :: 0 <= i < |upTo| ==> all[i] == upTo[i];
    assert forall j :: 0 <= j < |bs[k]| ==> upTo[|front| + j] == bs[k][j];
    assert forall i :: 0 <= i < |front| ==> upTo[i] == front[i];
  }

  /** The table of the first `k + 1` blocks is that of the first `k`, then block `k`. */
  lemma ConcatSnoc(bs: seq<seq<Entry>>, k: nat)
    requires k < |bs|
    ensures Concat(bs[..k + 1]) == Concat(bs[..k]) + bs[k]
  {
    assert bs[..k + 1][..k] == bs[..k];
  }

  /** One total per block. */
  lemma {:induction false} ConcatTotals(bs: seq<seq<Entry>>)
    requires AllTotalLast(bs)
    ensures TotalsIn(Concat(bs)) == |bs|
  {
    if bs != [] {
      var m := |bs| - 1;
      var b := bs[m];
      assert AllTotalLast(bs[..m]);
      ConcatTotals(bs[..m]);
      TotalsInAppend(Concat(bs[..m]), b);
      NoTotals(b, |b| - 1);
    }
  }

  /** The total of block `k` is the row right after the first `k` blocks and its own
      effects; up to and including it the table holds `k + 1` totals. */
  lemma TotalOfBlock(bs: seq<seq<Entry>>, k: nat)
    requires AllTotalLast(bs) && k < |bs|
    ensures var pos := |Concat(bs[..k])| + |bs[k]| - 1;
      && 0 <= pos < |Concat(bs)|
      && Concat(bs)[pos] == bs[k][|bs[k]| - 1]
      && TotalsUpTo(Concat(bs), pos + 1) == k + 1
  {
    assert AllTotalLast(bs[..k]);
    ConcatTotals(bs[..k]);
    ConcatPlaced(bs, k);
    NoTotals(bs[k], |bs[k]| - 1);
    BlockEnd(Concat(bs), Concat(bs[..k]), bs[k]);
    assert |Concat(bs[..k])| + |bs[k]| - 1 + 1 == |Concat(bs[..k])| + |bs[k]|;
  }

  /** An effect row of block `k` comes after exactly `k` totals. */
  lemma EffectOfBlock(bs: seq<seq<Entry>>, k: nat, j: nat)
    requires AllTotalLast(bs) && k < |bs| && j < |bs[k]| - 1
    ensures var pos := |Concat(bs[..k])| + j;
      && pos < |Concat(bs)|
      && Concat(bs)[pos] == bs[k][j]
      && TotalsUpTo(Concat(bs), pos) == k
  {
    assert AllTotalLast(bs[..k]);
    ConcatTotals(bs[..k]);
    ConcatPlaced(bs, k);
    InBlock(Concat(bs), Concat(bs[..k]), bs[k], j);
  }

  /** An effect row of the built bridge shows the effect's name and is relative. */
  lemma EffectAt(outer: seq<string>, es: seq<Entry>, i: nat)
    requires i < |es| && es[i].variable.EffectOf?
    ensures var b := BridgeOf(outer, es);
      && |b.inner| == |b.amounts| == |b.measures| == |es|
      && b.amounts[i] == es[i].amount
      && b.inner[i] == EffectName(es[i].variable.effect) && b.measures[i] == Relative
  {
    BridgeAt(outer, es, i);
  }

  /** The measures of the built bridge are those of the long table: absolute exactly on totals. */
  lemma BridgeBars(outer: seq<string>, es: seq<Entry>)
    ensures var b := BridgeOf(outer, es);
      |b.amounts| == |b.measures| == |b.inner| == |es| && BarsOf(b) == EntryBars(es)
  {
    var b := BridgeOf(outer, es);
    forall i | 0 <= i < |es|
      ensures BarsOf(b)[i] == EntryBars(es)[i]
    {
      BridgeAt(outer, es, i);
    }
  }
}
