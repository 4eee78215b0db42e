/** The total-row preparation behind the stacked bar charts with a total (`Comparison`):
    the rows are tagged as total or other, computed totals are optionally appended, one
    blank spacer row per colour is added, and the frame is sorted so that the totals, the
    spacers and the other rows form three bands in the requested order. */
module Comparison {
  import opened Wrappers
  import opened Strings
  import opened Sorting

  // ---------------------------------------------------------------------------------------
  // First occurrences (`_get_original_sorting`).

  /** `Series.unique()`: the distinct values, in order of first occurrence. */
  function Uniques(s: seq<string>): (u: seq<string>)
    ensures forall i, j :: 0 <= i < j < |u| ==> u[i] != u[j]
    ensures forall x :: x in u <==> x in s
  {
    if s == [] then []
    else
      var n := |s| - 1;
      assert s == s[..n] + [s[n]];
      var p := Uniques(s[..n]);
      if s[n] in p then p else p + [s[n]]
  }

  /** The position of `x` in a sequence that holds it. */
  function IndexOf(u: seq<string>, x: string): (i: nat)
    requires x in u
    ensures i < |u| && u[i] == x
  {
    if u[0] == x then 0 else 1 + IndexOf(u[1..], x)
  }

  /** `{val: i for i, val in enumerate(values.unique())}`. */
  function Ranks(s: seq<string>): (m: map<string, nat>)
    ensures forall x :: x in m <==> x in s
    ensures forall x :: x in m ==> m[x] < |Uniques(s)| && Uniques(s)[m[x]] == x
  {
    var u := Uniques(s);
    map x | x in u :: IndexOf(u, x)
  }

  /** The distinct values of a prefix start the distinct values of the whole. */
  lemma {:induction false} UniquesPrefix(s: seq<string>, i: nat)
    requires i <= |s|
    ensures Uniques(s[..i]) <= Uniques(s)
    decreases |s| - i
  {
    if i < |s| {
      var n := |s| - 1;
      assert s[..n][..i] == s[..i];
      UniquesPrefix(s[..n], i);
    } else {
      assert s[..i] == s;
    }
  }

  /** A value is numbered by how many distinct values occur before its first occurrence. */
  lemma FirstRank(s: seq<string>, i: nat)
    requires i < |s| && s[i] !in s[..i]
    ensures s[i] in Ranks(s) && Ranks(s)[s[i]] == |Uniques(s[..i])|
  {
    var u := Uniques(s);
    var front := Uniques(s[..i]);
    assert s[..i + 1][..i] == s[..i];
    assert Uniques(s[..i + 1]) == front + [s[i]];
    UniquesPrefix(s, i + 1);
    assert u[|front|] == s[i];
  }

  /** Values are numbered in the order they first occur. */
  lemma FirstOccurrenceOrder(s: seq<string>, i: nat, j: nat)
    requires i < j < |s| && s[i] !in s[..i] && s[j] !in s[..j]
    ensures Ranks(s)[s[i]] < Ranks(s)[s[j]]
  {
    FirstRank(s, i);
    FirstRank(s, j);
    assert s[..j][..i + 1] == s[..i + 1];
    UniquesPrefix(s[..j], i + 1);
    assert s[..i + 1][..i] == s[..i];
    assert Uniques(s[..i + 1]) == Uniques(s[..i]) + [s[i]];
  }

  /** The `columns` argument: one column name, or a list of them. */
  datatype Columns = Column(name: string) | ColumnList(names: seq<string>)

  /** A single name is read as a one-element list. */
  function ColumnNames(c: Columns): seq<string> {
    match c
    case Column(n) => [n]
    case ColumnList(ns) => ns
  }

  /** `_get_original_sorting`: for every requested column of `table`, the first-occurrence
      numbering of its values; a missing column ends the call with a KeyError. */
  method GetOriginalSorting(table: map<string, seq<string>>, columns: Columns)
    returns (r: Result<map<string, map<string, nat>>, PyError>)
    ensures r.Success? <==> forall c :: c in ColumnNames(columns) ==> c in table
    ensures r.Failure? ==> r.error == KeyError
    ensures r.Success? ==>
      && (forall c :: c in r.value <==> c in ColumnNames(columns))
      && (forall c :: c in r.value ==> c in table && r.value[c] == Ranks(table[c]))
  {
    var names := ColumnNames(columns);
    var d: map<string, map<string, nat>> := map[];
    var k := 0;
    while k < |names|
      invariant 0 <= k <= |names|
      invariant forall c :: c in names[..k] ==> c in table
      invariant forall c :: c in d <==> c in names[..k]
      invariant forall c :: c in d ==> c in table && d[c] == Ranks(table[c])
    {
      if names[k] !in table {
        return Failure(KeyError);
      }
      assert names[..k + 1] == names[..k] + [names[k]];
      d := d[names[k] := Ranks(table[names[k]])];
      k := k + 1;
    }
    assert names[..k] == names;
    return Success(d);
  }

  // ---------------------------------------------------------------------------------------
  // The frame.

  /** The `pivot` column. */
  datatype Pivot = TotalPivot | OtherPivot | EmptyPivot

  /** The columns that play no role: the input row's own cells, or NA throughout in a row the
      function adds. */
  datatype Rest = Kept(cells: seq<string>) | Missing

  /** One row: category, value (None for NA), colour (None when no colour column is used),
      the other columns, and the `pivot` column (None while it is absent or NA). */
  datatype Row = Row(category: string, value: Option<real>, color: Option<string>, rest: Rest, pivot: Option<Pivot>)

  /** The caller's data frame, which `_prepare_data_for_total` writes a `pivot` column into. */
  class Frame {
    var rows: seq<Row>

    constructor (rows: seq<Row>)
      ensures this.rows == rows
    {
      this.rows := rows;
    }
  }

  /** The colour column is used on every row, or on none. */
  predicate ColorsPresent(rows: seq<Row>, hasColor: bool) {
    forall i :: 0 <= i < |rows| ==> rows[i].color.Some? == hasColor
  }

  /** The keyword arguments of `_prepare_data_for_total`. */
  datatype Config = Config(
    hasColor: bool,
    totalCategory: Option<string>,
    calculateTotal: bool,
    totalFormula: Option<string>,
    totalAsFirst: bool,
    orderAscending: bool)

  function Categories(rows: seq<Row>): (cs: seq<string>)
    ensures |cs| == |rows|
    ensures forall i :: 0 <= i < |rows| ==> cs[i] == rows[i].category
  {
    seq(|rows|, i requires 0 <= i < |rows| => rows[i].category)
  }

  /** The colour column, of the rows that have one. */
  function Colors(rows: seq<Row>): (cs: seq<string>)
    ensures forall c :: c in cs <==> exists i :: 0 <= i < |rows| && rows[i].color == Some(c)
  {
    if rows == [] then []
    else
      var n := |rows| - 1;
      var p := Colors(rows[..n]);
      assert forall i :: 0 <= i < n ==> rows[..n][i] == rows[i];
      if rows[n].color.Some? then p + [rows[n].color.value] else p
  }

  /** The rows of colour `c`. */
  function OfColor(rows: seq<Row>, c: string): (r: seq<Row>)
    ensures forall x :: x in r <==> x in rows && x.color == Some(c)
  {
    if rows == [] then []
    else
      var n := |rows| - 1;
      assert rows == rows[..n] + [rows[n]];
      OfColor(rows[..n], c) + (if rows[n].color == Some(c) then [rows[n]] else [])
  }

  // ---------------------------------------------------------------------------------------
  // Computed totals (`_calculate_total`).

  /** The elements of `r`, drawn from the front of `s` and `x`, all precede the last of `s`. */
  lemma InsertedBelow(s: seq<string>, r: seq<string>, x: string)
    requires s != [] && StrictlyIncreasing(s) && StrLess(x, s[|s| - 1])
    requires forall y :: y in r ==> y in s[..|s| - 1] || y == x
    ensures forall y :: y in r ==> StrLess(y, s[|s| - 1])
  {
    var n := |s| - 1;
    forall y | y in r
      ensures StrLess(y, s[n])
    {
      if y != x {
        var i :| 0 <= i < n && s[..n][i] == y;
        assert s[i] == y;
      }
    }
  }

  /** Inserts `x` into a strictly increasing list of strings, unless it is there already. */
  function InsertString(s: seq<string>, x: string): (r: seq<string>)
    requires StrictlyIncreasing(s)
    ensures StrictlyIncreasing(r)
    ensures forall y :: y in r <==> y in s || y == x
  {
    if s == [] then [x]
    else
      var n := |s| - 1;
      assert s == s[..n] + [s[n]];
      if x == s[n] then s
      else if StrLess(x, s[n]) then
        var r := InsertString(s[..n], x);
        InsertedBelow(s, r, x);
        assert forall i :: 0 <= i < |r| ==> StrLess(r[i], s[n]) by {
          forall i | 0 <= i < |r| ensures StrLess(r[i], s[n]) { assert r[i] in r; }
        }
        r + [s[n]]
      else
        StrLessTotal(x, s[n]);
        assert forall i :: 0 <= i < n ==> StrLess(s[i], x) by {
          forall i | 0 <= i < n
            ensures StrLess(s[i], x)
          {
            StrLessTransitive(s[i], s[n], x);
          }
        }
        s + [x]
  }

  predicate StrictlyIncreasing(s: seq<string>) {
    forall i, j :: 0 <= i < j < |s| ==> StrLess(s[i], s[j])
  }

  /** The group keys of `groupby(color)`: the distinct colours, in ascending order. */
  function SortedDistinct(s: seq<string>): (r: seq<string>)
    ensures StrictlyIncreasing(r)
    ensures forall y :: y in r <==> y in s
  {
    if s == [] then []
    else
      var n := |s| - 1;
      assert s == s[..n] + [s[n]];
      InsertString(SortedDistinct(s[..n]), s[n])
  }

  /** The sum of the values, NA skipped. */
  function ValueSum(rows: seq<Row>): real {
    if rows == [] then 0.0
    else
      var n := |rows| - 1;
      ValueSum(rows[..n]) + (if rows[n].value.Some? then rows[n].value.value else 0.0)
  }

  /** The number of values that are not NA. */
  function ValueCount(rows: seq<Row>): nat {
    if rows == [] then 0
    else
      var n := |rows| - 1;
      ValueCount(rows[..n]) + (if rows[n].value.Some? then 1 else 0)
  }

  /** `agg("sum")` or `agg("mean")` over the value column; the mean of no value is NA. */
  function Aggregate(formula: string, rows: seq<Row>): Option<real>
    requires formula == "sum" || formula == "mean"
  {
    if formula == "sum" then Some(ValueSum(rows))
    else if ValueCount(rows) == 0 then None
    else Some(ValueSum(rows) / ValueCount(rows) as real)
  }

  const TotalName: string := "Total"

  /** One total row: category `name`, the aggregated value, NA in every other column. */
  function TotalRow(name: string, value: Option<real>, color: Option<string>): Row {
    Row(name, value, color, Missing, None)
  }

  /** `_calculate_total`. A formula whose lower-cased form is not "sum" or "mean" fails the
      check; one that passes it but is not spelled exactly "sum" or "mean" (say "Sum") is then
      not found by `agg`; a missing formula has no `lower`. All three end with an
      AttributeError. With a colour column: one row per colour, in ascending colour order;
      without: a single row over the whole frame. */
  function CalculateTotal(rows: seq<Row>, formula: Option<string>, hasColor: bool, name: string)
    : Result<seq<Row>, PyError>
  {
    if formula.None? || (formula.value != "sum" && formula.value != "mean") then Failure(AttributeError)
    else if hasColor then
      Success(GroupTotals(rows, SortedDistinct(Colors(rows)), formula.value, name))
    else Success([TotalRow(name, Aggregate(formula.value, rows), None)])
  }

  /** The computed totals: the formula decides success; with colours, exactly one row per
      distinct colour, in ascending order, each aggregating that colour's rows; without, one row
      over all rows. Every total row is named `name` and NA elsewhere. */
  lemma CalculateTotalSpec(rows: seq<Row>, formula: Option<string>, hasColor: bool, name: string)
    ensures var r := CalculateTotal(rows, formula, hasColor, name);
      && (r.Success? <==> formula == Some("sum") || formula == Some("mean"))
      && (r.Failure? ==> r.error == AttributeError)
      && (r.Success? && hasColor ==>
            && (forall c :: (exists i :: 0 <= i < |r.value| && r.value[i].color == Some(c)) <==> c in Colors(rows))
            && (forall i, j :: 0 <= i < j < |r.value| ==> StrLess(r.value[i].color.value, r.value[j].color.value))
            && (forall i :: 0 <= i < |r.value| ==>
                  && r.value[i].color.Some?
                  && r.value[i] == TotalRow(name, Aggregate(formula.value, OfColor(rows, r.value[i].color.value)), r.value[i].color)))
      && (r.Success? && !hasColor ==> r.value == [TotalRow(name, Aggregate(formula.value, rows), None)])
  {
    if hasColor && (formula == Some("sum") || formula == Some("mean")) {
      ColorTotals(rows, formula.value, name);
    }
  }

  /** One total row per group key, in the order of the keys. */
  function GroupTotals(rows: seq<Row>, groups: seq<string>, formula: string, name: string): (t: seq<Row>)
    requires formula == "sum" || formula == "mean"
    ensures |t| == |groups|
    ensures forall i :: 0 <= i < |t| ==> t[i].color == Some(groups[i])
  {
    seq(|groups|, i requires 0 <= i < |groups| =>
      TotalRow(name, Aggregate(formula, OfColor(rows, groups[i])), Some(groups[i])))
  }

  /** The per-colour totals: one per distinct colour, ascending, each over its colour's rows. */
  lemma ColorTotals(rows: seq<Row>, formula: string, name: string)
    requires formula == "sum" || formula == "mean"
    ensures var r := CalculateTotal(rows, Some(formula), true, name);
      && r.Success?
      && (forall c :: (exists i :: 0 <= i < |r.value| && r.value[i].color == Some(c)) <==> c in Colors(rows))
      && (forall i, j :: 0 <= i < j < |r.value| ==> StrLess(r.value[i].color.value, r.value[j].color.value))
      && (forall i :: 0 <= i < |r.value| ==>
            && r.value[i].color.Some?
            && r.value[i] == TotalRow(name, Aggregate(formula, OfColor(rows, r.value[i].color.value)), r.value[i].color))
  {
    GroupTotalsShape(rows, SortedDistinct(Colors(rows)), formula, name);
  }

  lemma GroupTotalsShape(rows: seq<Row>, groups: seq<string>, formula: string, name: string)
    requires formula == "sum" || formula == "mean"
    requires StrictlyIncreasing(groups)
    ensures var t := GroupTotals(rows, groups, formula, name);
      && (forall c :: (exists i :: 0 <= i < |t| && t[i].color == Some(c)) <==> c in groups)
      && (forall i, j :: 0 <= i < j < |t| ==> StrLess(t[i].color.value, t[j].color.value))
      && (forall i :: 0 <= i < |t| ==>
            && t[i].color.Some?
            && t[i] == TotalRow(name, Aggregate(formula, OfColor(rows, t[i].color.value)), t[i].color))
  {
    var t := GroupTotals(rows, groups, formula, name);
    forall c
      ensures (exists i :: 0 <= i < |t| && t[i].color == Some(c)) <==> c in groups
    {
      if c in groups {
        var i :| 0 <= i < |groups| && groups[i] == c;
        assert t[i].color == Some(c);
      }
    }
  }

  /** Every colour of a computed total is a colour of the caller's rows. */
  lemma TotalColorsKnown(rows: seq<Row>, cfg: Config)
    ensures var totals := TotalsOf(rows, cfg);
      forall i :: 0 <= i < |totals| && totals[i].color.Some? ==> totals[i].color.value in Colors(rows)
  {
    if cfg.calculateTotal && cfg.hasColor && (cfg.totalFormula == Some("sum") || cfg.totalFormula == Some("mean")) {
      ColorTotals(rows, cfg.totalFormula.value, TotalName);
    }
  }

  // ---------------------------------------------------------------------------------------
  // Tagging, spacing and sorting (`_prepare_data_for_total`).

  /** Sets the `pivot` column of every row. */
  function WithPivot(rows: seq<Row>, p: Pivot): (r: seq<Row>)
    ensures |r| == |rows|
    ensures forall i :: 0 <= i < |rows| ==> r[i] == rows[i].(pivot := Some(p))
  {
    seq(|rows|, i requires 0 <= i < |rows| => rows[i].(pivot := Some(p)))
  }

  /** `df.loc[df[category] == total_category, "pivot"] = "total"`. */
  function MarkTotals(rows: seq<Row>, total: string): (r: seq<Row>)
    ensures |r| == |rows|
  {
    seq(|rows|, i requires 0 <= i < |rows| =>
      if rows[i].category == total then rows[i].(pivot := Some(TotalPivot)) else rows[i])
  }

  /** The caller's rows once the pivot column is written. */
  function Written(rows: seq<Row>, cfg: Config): seq<Row> {
    if cfg.calculateTotal || cfg.totalCategory.None? then WithPivot(rows, OtherPivot)
    else MarkTotals(WithPivot(rows, OtherPivot), cfg.totalCategory.value)
  }

  /** The blank spacer row: category "", value 0, NA elsewhere, pivot "empty". */
  function Spacer(color: Option<string>): Row {
    Row("", Some(0.0), color, Missing, Some(EmptyPivot))
  }

  /** The spacers for the given distinct colours (`df[color].unique()`), or a single one
      without a colour column. */
  function Spacers(colors: seq<string>, hasColor: bool): (r: seq<Row>)
  {
    if hasColor then seq(|colors|, i requires 0 <= i < |colors| => Spacer(Some(colors[i])))
    else [Spacer(None)]
  }

  /** `pivot_order`, doubled so that the spacer's 0.5 is a whole number. */
  function PivotRank(p: Option<Pivot>, totalAsFirst: bool): Option<int> {
    match p
    case None => None
    case Some(TotalPivot) => Some(if totalAsFirst then 0 else 2)
    case Some(OtherPivot) => Some(if totalAsFirst then 2 else 0)
    case Some(EmptyPivot) => Some(1)
  }

  /** `Series.map(dict)`: NaN for a value the mapping does not hold. */
  function Lookup(m: map<string, nat>, x: string): Option<int> {
    if x in m then Some(m[x]) else None
  }

  /** The sort key (`pivot_sort`, `cat_sort` and, with colours, `color_sort`). */
  function SortKey(r: Row, categories: map<string, nat>, colors: map<string, nat>, cfg: Config): seq<Option<int>> {
    [PivotRank(r.pivot, cfg.totalAsFirst), Lookup(categories, r.category)]
    + (if cfg.hasColor then [if r.color.Some? then Lookup(colors, r.color.value) else None] else [])
  }

  function KeyedRows(rows: seq<Row>, categories: map<string, nat>, colors: map<string, nat>, cfg: Config)
    : (ks: seq<Keyed<Row>>)
    ensures |ks| == |rows|
    ensures forall i :: 0 <= i < |rows| ==> ks[i] == Keyed(SortKey(rows[i], categories, colors, cfg), rows[i])
  {
    seq(|rows|, i requires 0 <= i < |rows| => Keyed(SortKey(rows[i], categories, colors, cfg), rows[i]))
  }

  /** The rows that get sorted: the written rows, the computed totals, then the spacers. */
  function Unsorted(rows: seq<Row>, totals: seq<Row>, cfg: Config): seq<Row> {
    var all := Written(rows, cfg) + WithPivot(totals, TotalPivot);
    all + Spacers(Uniques(Colors(all)), cfg.hasColor)
  }

  /** The sort and the dropping of the helper columns. */
  function SortedRows(rows: seq<Row>, totals: seq<Row>, cfg: Config): seq<Row> {
    Items(Sort(KeyedRows(Unsorted(rows, totals, cfg), Ranks(Categories(rows)), Ranks(Colors(rows)), cfg),
               cfg.orderAscending))
  }

  /** The configuration is refused unless exactly one of `total_category` and
      `calculate_total` is given. */
  predicate ConfigRefused(cfg: Config) {
    cfg.totalCategory.None? == !cfg.calculateTotal
  }

  /** The computed totals, when there are any. */
  function TotalsOf(rows: seq<Row>, cfg: Config): seq<Row> {
    if !cfg.calculateTotal then []
    else match CalculateTotal(rows, cfg.totalFormula, cfg.hasColor, TotalName)
      case Success(t) => t
      case Failure(_) => []
  }

  /** The error `_prepare_data_for_total` ends with, if any, in the order the source checks. */
  function Refusal(rows: seq<Row>, cfg: Config): Option<PyError> {
    if ConfigRefused(cfg) then Some(ValueError)
    else if cfg.calculateTotal && CalculateTotal(rows, cfg.totalFormula, cfg.hasColor, TotalName).Failure? then
      Some(CalculateTotal(rows, cfg.totalFormula, cfg.hasColor, TotalName).error)
    else if !cfg.calculateTotal && cfg.totalCategory.value !in Categories(rows) then Some(ValueError)
    else if cfg.hasColor && Colors(Written(rows, cfg) + WithPivot(TotalsOf(rows, cfg), TotalPivot)) == [] then
      Some(ValueError)
    else None
  }

  /** What `_prepare_data_for_total` returns. */
  function Prepared(rows: seq<Row>, cfg: Config): Result<seq<Row>, PyError> {
    match Refusal(rows, cfg)
    case Some(e) => Failure(e)
    case None => Success(SortedRows(rows, TotalsOf(rows, cfg), cfg))
  }

  /** What the caller's frame holds afterwards: the pivot column is written exactly when the
      configuration, the formula and the total category have been accepted. */
  function Afterwards(rows: seq<Row>, cfg: Config): seq<Row> {
    if ConfigRefused(cfg) then rows
    else if cfg.calculateTotal && CalculateTotal(rows, cfg.totalFormula, cfg.hasColor, TotalName).Failure? then rows
    else if !cfg.calculateTotal && cfg.totalCategory.value !in Categories(rows) then rows
    else Written(rows, cfg)
  }

  /** The spacer loop: one spacer per distinct colour, or one overall. Without any colour
      there is nothing to concatenate, which pandas refuses with a ValueError. */
  method MakeSpacers(rows: seq<Row>, hasColor: bool) returns (r: Result<seq<Row>, PyError>)
    ensures r.Failure? <==> hasColor && Colors(rows) == []
    ensures r.Failure? ==> r.error == ValueError
    ensures r.Success? ==> r.value == Spacers(Uniques(Colors(rows)), hasColor) && r.value != []
  {
    if hasColor {
      var cs := Uniques(Colors(rows));
      var spacers: seq<Row> := [];
      for i := 0 to |cs|
        invariant |spacers| == i
        invariant forall j :: 0 <= j < i ==> spacers[j] == Spacer(Some(cs[j]))
      {
        spacers := spacers + [Spacer(Some(cs[i]))];
      }
      if spacers == [] {
        return Failure(ValueError);
      }
      return Success(spacers);
    } else {
      return Success([Spacer(None)]);
    }
  }

  /** `_prepare_data_for_total`. The colour column is present on every row exactly when one
      is used. */
  method PrepareDataForTotal(df: Frame, cfg: Config) returns (r: Result<seq<Row>, PyError>)
    requires ColorsPresent(df.rows, cfg.hasColor)
    modifies df
    ensures r == Prepared(old(df.rows), cfg)
    ensures df.rows == Afterwards(old(df.rows), cfg)
  {
    if cfg.totalCategory.None? && !cfg.calculateTotal {
      return Failure(ValueError);
    }
    if cfg.totalCategory.Some? && cfg.calculateTotal {
      return Failure(ValueError);
    }
    var input := df.rows;
    var categories := Ranks(Categories(input));
    var colors := Ranks(Colors(input));
    var rows: seq<Row>;
    var totals: seq<Row> := [];
    if cfg.calculateTotal {
      var computed := CalculateTotal(input, cfg.totalFormula, cfg.hasColor, TotalName);
      if computed.Failure? {
        return Failure(computed.error);
      }
      totals := computed.value;
      df.rows := WithPivot(df.rows, OtherPivot);
      rows := df.rows + WithPivot(totals, TotalPivot);
      assert rows == Written(input, cfg) + WithPivot(totals, TotalPivot);
    } else {
      if cfg.totalCategory.value !in Categories(input) {
        return Failure(ValueError);
      }
      df.rows := WithPivot(df.rows, OtherPivot);
      df.rows := MarkTotals(df.rows, cfg.totalCategory.value);
      rows := df.rows;
      assert rows == Written(input, cfg) + WithPivot(totals, TotalPivot);
    }
    var spacers := MakeSpacers(rows, cfg.hasColor);
    if spacers.Failure? {
      return Failure(spacers.error);
    }
    rows := rows + spacers.value;
    assert rows == Unsorted(input, totals, cfg);
    var sorted := Sort(KeyedRows(rows, categories, colors, cfg), cfg.orderAscending);
    return Success(Items(sorted));
  }

  // ---------------------------------------------------------------------------------------
  // What the prepared frame holds.

  /** `_prepare_data_for_total` fails exactly on a refused configuration (ValueError), an
      unknown formula (AttributeError), a total category the data lacks (ValueError), and a
      frame with a colour column but no row (ValueError). */
  lemma PreparedFailure(rows: seq<Row>, cfg: Config)
    requires ColorsPresent(rows, cfg.hasColor)
    ensures var r := Refusal(rows, cfg);
      var badFormula := cfg.totalFormula != Some("sum") && cfg.totalFormula != Some("mean");
      && (r.Some? <==>
            || ConfigRefused(cfg)
            || (cfg.calculateTotal && badFormula)
            || (cfg.totalCategory.Some? && !cfg.calculateTotal && cfg.totalCategory.value !in Categories(rows))
            || (cfg.hasColor && rows == []))
      && (r.Some? ==> r.value == if !ConfigRefused(cfg) && cfg.calculateTotal && badFormula then AttributeError else ValueError)
  {
    CalculateTotalOutcome(rows, cfg.totalFormula, cfg.hasColor, TotalName);
    if cfg.hasColor {
      NoColorsNoRows(rows, cfg);
    }
  }

  /** With a colour column the frame has no colour exactly when it has no row. */
  lemma NoColorsNoRows(rows: seq<Row>, cfg: Config)
    requires cfg.hasColor && ColorsPresent(rows, true)
    ensures Colors(Written(rows, cfg) + WithPivot(TotalsOf(rows, cfg), TotalPivot)) == [] <==> rows == []
  {
    var totals := WithPivot(TotalsOf(rows, cfg), TotalPivot);
    WrittenColors(rows, cfg);
    ColorsAppend(Written(rows, cfg), totals);
    if rows != [] {
      assert rows[0].color.value in Colors(rows);
    } else {
      TotalsColorsKnown(rows, cfg);
      assert Colors(rows) == [];
    }
  }

  /** `_calculate_total` succeeds exactly on the formulas "sum" and "mean". */
  lemma CalculateTotalOutcome(rows: seq<Row>, formula: Option<string>, hasColor: bool, name: string)
    ensures var r := CalculateTotal(rows, formula, hasColor, name);
      && (r.Success? <==> formula == Some("sum") || formula == Some("mean"))
      && (r.Failure? ==> r.error == AttributeError)
  {
  }

  /** Writing the pivot column touches nothing else: a row is tagged "total" exactly when a
      total category is given and the row belongs to it, "other" otherwise. */
  lemma WrittenSpec(rows: seq<Row>, cfg: Config)
    ensures var w := Written(rows, cfg);
      && |w| == |rows|
      && forall i :: 0 <= i < |rows| ==>
           && w[i].(pivot := rows[i].pivot) == rows[i]
           && (w[i].pivot == Some(TotalPivot) <==>
                 !cfg.calculateTotal && cfg.totalCategory == Some(rows[i].category))
           && (w[i].pivot == Some(TotalPivot) || w[i].pivot == Some(OtherPivot))
  {
  }

  /** Colours depend only on the colour column. */
  lemma {:induction false} ColorsAgree(a: seq<Row>, b: seq<Row>)
    requires |a| == |b| && forall i :: 0 <= i < |a| ==> a[i].color == b[i].color
    ensures Colors(a) == Colors(b)
  {
    if a != [] {
      var n := |a| - 1;
      ColorsAgree(a[..n], b[..n]);
    }
  }

  lemma {:induction false} ColorsAppend(a: seq<Row>, b: seq<Row>)
    ensures Colors(a + b) == Colors(a) + Colors(b)
    decreases |b|
  {
    if b == [] {
      assert a + b == a;
    } else {
      var n := |b| - 1;
      assert (a + b)[..|a + b| - 1] == a + b[..n];
      ColorsAppend(a, b[..n]);
    }
  }

  /** Appending values already seen adds no distinct value. */
  lemma {:induction false} UniquesAbsorb(a: seq<string>, b: seq<string>)
    requires forall x :: x in b ==> x in a
    ensures Uniques(a + b) == Uniques(a)
    decreases |b|
  {
    if b == [] {
      assert a + b == a;
    } else {
      var n := |b| - 1;
      assert (a + b)[..|a + b| - 1] == a + b[..n];
      UniquesAbsorb(a, b[..n]);
    }
  }

  /** The spacers follow the distinct colours of the caller's rows: the computed totals bring
      no new colour. */
  lemma SpacerColors(rows: seq<Row>, cfg: Config)
    ensures var all := Written(rows, cfg) + WithPivot(TotalsOf(rows, cfg), TotalPivot);
      Uniques(Colors(all)) == Uniques(Colors(rows))
  {
    var totals := WithPivot(TotalsOf(rows, cfg), TotalPivot);
    WrittenColors(rows, cfg);
    TotalsColorsKnown(rows, cfg);
    ColorsAppend(Written(rows, cfg), totals);
    UniquesAbsorb(Colors(rows), Colors(totals));
  }

  /** Writing the pivot column keeps the colours. */
  lemma WrittenColors(rows: seq<Row>, cfg: Config)
    ensures Colors(Written(rows, cfg)) == Colors(rows)
  {
    WrittenSpec(rows, cfg);
    ColorsAgree(Written(rows, cfg), rows);
  }

  /** The tagged totals bring only colours the rows already have. */
  lemma TotalsColorsKnown(rows: seq<Row>, cfg: Config)
    ensures forall c :: c in Colors(WithPivot(TotalsOf(rows, cfg), TotalPivot)) ==> c in Colors(rows)
  {
    var t := TotalsOf(rows, cfg);
    var totals := WithPivot(t, TotalPivot);
    TotalColorsKnown(rows, cfg);
    forall c | c in Colors(totals)
      ensures c in Colors(rows)
    {
      var i :| 0 <= i < |totals| && totals[i].color == Some(c);
      assert t[i].color == Some(c);
    }
  }

  /** With a colour column there is exactly one spacer per distinct colour of the rows; without,
      exactly one spacer. Every spacer has category "", value 0 and NA elsewhere. */
  lemma OneSpacerPerColor(rows: seq<Row>, hasColor: bool)
    ensures var sp := Spacers(Uniques(Colors(rows)), hasColor);
      && (forall i :: 0 <= i < |sp| ==> sp[i] == Spacer(sp[i].color))
      && (hasColor ==>
            && (forall c :: c in Colors(rows) <==> exists i :: 0 <= i < |sp| && sp[i].color == Some(c))
            && (forall i, j :: 0 <= i < j < |sp| ==> sp[i].color != sp[j].color))
      && (!hasColor ==> sp == [Spacer(None)])
  {
    var u := Uniques(Colors(rows));
    var sp := Spacers(u, hasColor);
    if hasColor {
      forall c | c in Colors(rows)
        ensures exists i :: 0 <= i < |sp| && sp[i].color == Some(c)
      {
        var i :| 0 <= i < |u| && u[i] == c;
        assert sp[i].color == Some(c);
      }
    }
  }

  /** Each sorted element carries the key of its row. */
  lemma SortedKeys(ks: seq<Keyed<Row>>, categories: map<string, nat>, colors: map<string, nat>, cfg: Config)
    requires forall i :: 0 <= i < |ks| ==> ks[i].key == SortKey(ks[i].item, categories, colors, cfg)
    ensures var s := Sort(ks, cfg.orderAscending);
      && multiset(s) == multiset(ks)
      && Sorted(s, cfg.orderAscending)
      && (forall i :: 0 <= i < |s| ==> s[i].key == SortKey(s[i].item, categories, colors, cfg) && s[i].item in Items(ks))
  {
    var s := Sort(ks, cfg.orderAscending);
    SortCorrect(ks, cfg.orderAscending);
    forall i | 0 <= i < |s|
      ensures s[i].key == SortKey(s[i].item, categories, colors, cfg) && s[i].item in Items(ks)
    {
      assert s[i] in multiset(ks);
      var j :| 0 <= j < |ks| && ks[j] == s[i];
      assert Items(ks)[j] == s[i].item;
    }
  }

  /** The prepared frame holds the caller's rows with their pivot, the computed totals tagged
      "total", and the spacers, each exactly as often as there, and nothing else. */
  lemma PreparedRows(rows: seq<Row>, cfg: Config)
    requires Prepared(rows, cfg).Success?
    ensures multiset(Prepared(rows, cfg).value)
      == multiset(Written(rows, cfg)) + multiset(WithPivot(TotalsOf(rows, cfg), TotalPivot))
         + multiset(Spacers(Uniques(Colors(rows)), cfg.hasColor))
  {
    var u := Unsorted(rows, TotalsOf(rows, cfg), cfg);
    var ks := KeyedRows(u, Ranks(Categories(rows)), Ranks(Colors(rows)), cfg);
    var s := Sort(ks, cfg.orderAscending);
    SpacerColors(rows, cfg);
    SortCorrect(ks, cfg.orderAscending);
    assert Items(ks) == u;
    ItemsPermute(s, ks);
  }

  /** The rank of a tagged row's pivot. */
  function Rank(r: Row, totalAsFirst: bool): int
    requires r.pivot.Some?
  {
    PivotRank(r.pivot, totalAsFirst).value
  }

  /** Sorting tagged rows by the key never puts a lower pivot rank after a higher one in the
      requested direction. */
  lemma SortedRanks(u: seq<Row>, categories: map<string, nat>, colors: map<string, nat>, cfg: Config)
    requires forall i :: 0 <= i < |u| ==> u[i].pivot.Some?
    ensures var out := Items(Sort(KeyedRows(u, categories, colors, cfg), cfg.orderAscending));
      RanksOrdered(out, cfg)
  {
    var ks := KeyedRows(u, categories, colors, cfg);
    var s := Sort(ks, cfg.orderAscending);
    var out := Items(s);
    assert Items(ks) == u;
    SortedKeys(ks, categories, colors, cfg);
    forall i | 0 <= i < |out|
      ensures out[i].pivot.Some?
    {
      var k :| 0 <= k < |u| && u[k] == out[i];
    }
    forall i, j | 0 <= i < j < |out| && Rank(out[i], cfg.totalAsFirst) != Rank(out[j], cfg.totalAsFirst)
      ensures Rank(out[i], cfg.totalAsFirst) < Rank(out[j], cfg.totalAsFirst) <==> cfg.orderAscending
    {
      assert !KeyBefore(s[j].key, s[i].key, cfg.orderAscending);
      RankBefore(out[j], out[i], categories, colors, cfg);
    }
  }

  /** Rows of different pivot rank are ordered by the rank alone. */
  lemma RankBefore(a: Row, b: Row, categories: map<string, nat>, colors: map<string, nat>, cfg: Config)
    requires a.pivot.Some? && b.pivot.Some? && Rank(a, cfg.totalAsFirst) != Rank(b, cfg.totalAsFirst)
    ensures KeyBefore(SortKey(a, categories, colors, cfg), SortKey(b, categories, colors, cfg), cfg.orderAscending)
      <==> (Rank(a, cfg.totalAsFirst) < Rank(b, cfg.totalAsFirst) <==> cfg.orderAscending)
  {
    var ka, kb := SortKey(a, categories, colors, cfg), SortKey(b, categories, colors, cfg);
    assert ka[0] == PivotRank(a.pivot, cfg.totalAsFirst) && kb[0] == PivotRank(b.pivot, cfg.totalAsFirst);
  }

  /** Every row is tagged, and no two rows of different pivot rank stand against the
      requested direction. */
  predicate RanksOrdered(out: seq<Row>, cfg: Config) {
    && (forall i :: 0 <= i < |out| ==> out[i].pivot.Some?)
    && (forall i, j :: 0 <= i < j < |out| ==>
          Rank(out[i], cfg.totalAsFirst) != Rank(out[j], cfg.totalAsFirst) ==>
          (Rank(out[i], cfg.totalAsFirst) < Rank(out[j], cfg.totalAsFirst) <==> cfg.orderAscending))
  }

  /** The three bands of a rank-ordered frame. */
  predicate Banded(out: seq<Row>, cfg: Config) {
    var inOrder := cfg.totalAsFirst == cfg.orderAscending;
    && (forall i, j :: 0 <= i < |out| && 0 <= j < |out| && out[i].pivot == Some(TotalPivot) && out[j].pivot == Some(EmptyPivot) ==>
          (i < j <==> inOrder))
    && (forall i, j :: 0 <= i < |out| && 0 <= j < |out| && out[i].pivot == Some(EmptyPivot) && out[j].pivot == Some(OtherPivot) ==>
          (i < j <==> inOrder))
    && (forall i, j :: 0 <= i < |out| && 0 <= j < |out| && out[i].pivot == Some(TotalPivot) && out[j].pivot == Some(OtherPivot) ==>
          (i < j <==> inOrder))
  }

  lemma RanksBanded(out: seq<Row>, cfg: Config)
    requires RanksOrdered(out, cfg)
    ensures Banded(out, cfg)
  {
  }

  /** The three bands: the totals, the spacers and the other rows never interleave; the totals
      come first exactly when `total_as_first` agrees with `order_ascending`, and the spacers
      always sit between the two other bands. */
  lemma PreparedBands(rows: seq<Row>, cfg: Config)
    requires Prepared(rows, cfg).Success?
    ensures Banded(Prepared(rows, cfg).value, cfg)
  {
    UnsortedTagged(rows, cfg);
    SortedRanks(Unsorted(rows, TotalsOf(rows, cfg), cfg), Ranks(Categories(rows)), Ranks(Colors(rows)), cfg);
    RanksBanded(Prepared(rows, cfg).value, cfg);
  }

  /** No row's key is strictly before the key of a row ahead of it. */
  predicate KeysInOrder(out: seq<Row>, categories: map<string, nat>, colors: map<string, nat>, cfg: Config) {
    forall i, j :: 0 <= i < j < |out| ==>
      !KeyBefore(SortKey(out[j], categories, colors, cfg), SortKey(out[i], categories, colors, cfg), cfg.orderAscending)
  }

  /** The sort leaves the rows with their keys in order. */
  lemma SortedByKey(u: seq<Row>, categories: map<string, nat>, colors: map<string, nat>, cfg: Config)
    ensures KeysInOrder(Items(Sort(KeyedRows(u, categories, colors, cfg), cfg.orderAscending)), categories, colors, cfg)
  {
    var ks := KeyedRows(u, categories, colors, cfg);
    var s := Sort(ks, cfg.orderAscending);
    var out := Items(s);
    SortedKeys(ks, categories, colors, cfg);
    forall i, j | 0 <= i < j < |out|
      ensures !KeyBefore(SortKey(out[j], categories, colors, cfg), SortKey(out[i], categories, colors, cfg), cfg.orderAscending)
    {
      assert s[i].key == SortKey(out[i], categories, colors, cfg);
      assert s[j].key == SortKey(out[j], categories, colors, cfg);
    }
  }

  /** The prepared frame is sorted by (pivot rank, first occurrence of the category, first
      occurrence of the colour), every column in the requested direction and unknown values
      last: no row's key is strictly before the key of a row ahead of it. */
  lemma PreparedSorted(rows: seq<Row>, cfg: Config)
    requires Prepared(rows, cfg).Success?
    ensures KeysInOrder(Prepared(rows, cfg).value, Ranks(Categories(rows)), Ranks(Colors(rows)), cfg)
  {
    assert Prepared(rows, cfg).value == SortedRows(rows, TotalsOf(rows, cfg), cfg);
    SortedByKey(Unsorted(rows, TotalsOf(rows, cfg), cfg), Ranks(Categories(rows)), Ranks(Colors(rows)), cfg);
  }

  /** The frame of the total-category examples: countries with a percentage and one more
      column, "All" being the total. */
  function CountryRows(): seq<Row> {
    [Row("All", Some(60.0), None, Kept(["300"]), None),
     Row("Germany", Some(80.0), None, Kept(["100"]), None),
     Row("France", Some(50.0), None, Kept(["200"]), None)]
  }

  /** The configuration of the total-category examples: no colour, "All" as the total
      category, ascending order. */
  function CountryConfig(totalAsFirst: bool): Config {
    Config(false, Some("All"), false, Some("sum"), totalAsFirst, true)
  }

  /** A sequence without repeats is its own list of distinct values. */
  lemma {:induction false} UniquesOfDistinct(s: seq<string>)
    requires forall i, j :: 0 <= i < j < |s| ==> s[i] != s[j]
    ensures Uniques(s) == s
  {
    if s != [] {
      var n := |s| - 1;
      UniquesOfDistinct(s[..n]);
      assert s[n] !in s[..n];
      assert s == s[..n] + [s[n]];
    }
  }

  /** Without repeats, every value is numbered by its own position. */
  lemma RanksOfDistinct(s: seq<string>, i: nat)
    requires forall i, j :: 0 <= i < j < |s| ==> s[i] != s[j]
    requires i < |s|
    ensures s[i] in Ranks(s) && Ranks(s)[s[i]] == i
  {
    UniquesOfDistinct(s);
  }

  /** Three distinct values are numbered 0, 1 and 2. */
  lemma RanksOfThree(x: string, y: string, z: string)
    requires x != y && y != z && x != z
    ensures Ranks([x, y, z]) == map[x := 0, y := 1, z := 2]
  {
    var s := [x, y, z];
    RanksOfDistinct(s, 0);
    RanksOfDistinct(s, 1);
    RanksOfDistinct(s, 2);
    assert Ranks(s).Keys == {x, y, z};
  }

  /** The first-occurrence numbering of the countries. */
  lemma CountryRanks()
    ensures Ranks(Categories(CountryRows())) == map["All" := 0, "Germany" := 1, "France" := 2]
  {
    assert Categories(CountryRows()) == ["All", "Germany", "France"];
    RanksOfThree("All", "Germany", "France");
  }

  /** The examples' configuration is accepted and computes no totals. */
  lemma CountryAccepted(totalAsFirst: bool)
    ensures Refusal(CountryRows(), CountryConfig(totalAsFirst)) == None
    ensures TotalsOf(CountryRows(), CountryConfig(totalAsFirst)) == []
  {
    assert Categories(CountryRows()) == ["All", "Germany", "France"];
  }

  /** The rows the examples sort: the countries tagged, "All" as the total, then one spacer. */
  function CountryTagged(): seq<Row> {
    var rows := CountryRows();
    [rows[0].(pivot := Some(TotalPivot)), rows[1].(pivot := Some(OtherPivot)),
     rows[2].(pivot := Some(OtherPivot)), Spacer(None)]
  }

  /** Tagging and the spacer turn the countries into those rows. */
  lemma CountryUnsorted(totalAsFirst: bool)
    ensures Unsorted(CountryRows(), [], CountryConfig(totalAsFirst)) == CountryTagged()
  {
    var rows, cfg := CountryRows(), CountryConfig(totalAsFirst);
    var a, g, f := rows[0].(pivot := Some(TotalPivot)), rows[1].(pivot := Some(OtherPivot)), rows[2].(pivot := Some(OtherPivot));
    assert Written(rows, cfg) == [a, g, f];
    var u := [a, g, f] + WithPivot([], TotalPivot);
    assert u == [a, g, f];
    assert [a][..0] == [] && [g][..0] == [] && [f][..0] == [];
    assert Colors([a]) == [] && Colors([g]) == [] && Colors([f]) == [];
    ColorsAppend([a], [g]);
    assert [a] + [g] == [a, g];
    ColorsAppend([a, g], [f]);
    assert [a, g] + [f] == u;
  }

  /** A sequence of four is the display of its items. */
  lemma FourItems<T>(s: seq<T>, a: T, b: T, c: T, d: T)
    requires |s| == 4 && s[0] == a && s[1] == b && s[2] == c && s[3] == d
    ensures s == [a, b, c, d]
  {
  }

  /** The items of four keyed entries. */
  lemma ItemsOfFour<T>(ks: seq<Keyed<T>>)
    requires |ks| == 4
    ensures Items(ks) == [ks[0].item, ks[1].item, ks[2].item, ks[3].item]
  {
  }

  /** The sort keys of those rows: pivot rank, then country rank. */
  lemma CountryKeys(totalAsFirst: bool, colors: map<string, nat>)
    ensures var u, t, o := CountryTagged(), if totalAsFirst then 0 else 2, if totalAsFirst then 2 else 0;
      KeyedRows(u, map["All" := 0, "Germany" := 1, "France" := 2], colors, CountryConfig(totalAsFirst))
      == [Keyed([Some(t), Some(0)], u[0]), Keyed([Some(o), Some(1)], u[1]),
          Keyed([Some(o), Some(2)], u[2]), Keyed([Some(1), None], u[3])]
  {
    var u, cfg := CountryTagged(), CountryConfig(totalAsFirst);
    var m := map["All" := 0, "Germany" := 1, "France" := 2];
    var ks := KeyedRows(u, m, colors, cfg);
    var t, o := if totalAsFirst then 0 else 2, if totalAsFirst then 2 else 0;
    var k0, k1 := Keyed([Some(t), Some(0)], u[0]), Keyed([Some(o), Some(1)], u[1]);
    var k2, k3 := Keyed([Some(o), Some(2)], u[2]), Keyed([Some(1), None], u[3]);
    assert ks[0] == k0;
    assert ks[1] == k1;
    assert ks[2] == k2;
    assert ks[3] == k3;
    FourItems(ks, k0, k1, k2, k3);
  }

  /** Sorting the keys of the total-first example: the total, the spacer, then the
      countries in their order of appearance. */
  lemma SortTotalFirst<T>(a: T, g: T, f: T, sp: T)
    ensures var ka, kg, kf, ks := Keyed([Some(0), Some(0)], a), Keyed([Some(2), Some(1)], g),
                                  Keyed([Some(2), Some(2)], f), Keyed([Some(1), None], sp);
      Sort([ka, kg, kf, ks], true) == [ka, ks, kg, kf]
  {
    var ka, kg, kf, ks := Keyed([Some(0), Some(0)], a), Keyed([Some(2), Some(1)], g),
                          Keyed([Some(2), Some(2)], f), Keyed([Some(1), None], sp);
    var all := [ka, kg, kf, ks];
    assert all[..3] == [ka, kg, kf] && [ka, kg, kf][..2] == [ka, kg] && [ka, kg][..1] == [ka] && [ka][..0] == [];
    assert Sort([ka, kg], true) == Insert([ka], kg, true) == [ka, kg];
    assert Sort([ka, kg, kf], true) == Insert([ka, kg], kf, true) == [ka, kg, kf];
    assert Insert([ka], ks, true) == [ka, ks];
    assert Insert([ka, kg], ks, true) == [ka, ks, kg];
    assert Sort(all, true) == Insert([ka, kg, kf], ks, true) == [ka, ks, kg, kf];
  }

  /** Sorting the keys of the total-last example: the countries, the spacer, then the
      total. */
  lemma SortTotalLast<T>(a: T, g: T, f: T, sp: T)
    ensures var ka, kg, kf, ks := Keyed([Some(2), Some(0)], a), Keyed([Some(0), Some(1)], g),
                                  Keyed([Some(0), Some(2)], f), Keyed([Some(1), None], sp);
      Sort([ka, kg, kf, ks], true) == [kg, kf, ks, ka]
  {
    var ka, kg, kf, ks := Keyed([Some(2), Some(0)], a), Keyed([Some(0), Some(1)], g),
                          Keyed([Some(0), Some(2)], f), Keyed([Some(1), None], sp);
    var all := [ka, kg, kf, ks];
    assert all[..3] == [ka, kg, kf] && [ka, kg, kf][..2] == [ka, kg] && [ka, kg][..1] == [ka] && [ka][..0] == [];
    assert [kg, ka][..1] == [kg] && [kg, kf, ka][..2] == [kg, kf] && [kg, kf][..1] == [kg];
    assert Sort([ka, kg], true) == Insert([ka], kg, true) == [kg, ka];
    assert Insert([kg], kf, true) == [kg, kf];
    assert Sort([ka, kg, kf], true) == Insert([kg, ka], kf, true) == [kg, kf, ka];
    assert Insert([kg, kf], ks, true) == [kg, kf, ks];
    assert Sort(all, true) == Insert([kg, kf, ka], ks, true) == [kg, kf, ks, ka];
  }

  /** With the total first and ascending order, the frame reads "All", "", "Germany",
      "France", tagged total, empty, other, other. */
  lemma TotalFirstExample()
    ensures var rows := CountryRows();
      Prepared(rows, CountryConfig(true))
      == Success([rows[0].(pivot := Some(TotalPivot)), Spacer(None),
                  rows[1].(pivot := Some(OtherPivot)), rows[2].(pivot := Some(OtherPivot))])
  {
    var rows, cfg := CountryRows(), CountryConfig(true);
    var u := CountryTagged();
    CountryAccepted(true);
    assert Prepared(rows, cfg) == Success(SortedRows(rows, [], cfg));
    CountryUnsorted(true);
    CountryRanks();
    CountryKeys(true, Ranks(Colors(rows)));
    SortTotalFirst(u[0], u[1], u[2], u[3]);
    ItemsOfFour(Sort(KeyedRows(u, Ranks(Categories(rows)), Ranks(Colors(rows)), cfg), true));
  }

  /** With the total last and ascending order, the frame reads "Germany", "France", "",
      "All". */
  lemma TotalLastExample()
    ensures var rows := CountryRows();
      Prepared(rows, CountryConfig(false))
      == Success([rows[1].(pivot := Some(OtherPivot)), rows[2].(pivot := Some(OtherPivot)), Spacer(None),
                  rows[0].(pivot := Some(TotalPivot))])
  {
    var rows, cfg := CountryRows(), CountryConfig(false);
    var u := CountryTagged();
    CountryAccepted(false);
    assert Prepared(rows, cfg) == Success(SortedRows(rows, [], cfg));
    CountryUnsorted(false);
    CountryRanks();
    CountryKeys(false, Ranks(Colors(rows)));
    SortTotalLast(u[0], u[1], u[2], u[3]);
    ItemsOfFour(Sort(KeyedRows(u, Ranks(Categories(rows)), Ranks(Colors(rows)), cfg), true));
  }

  /** Every row that gets sorted carries a pivot. */
  lemma UnsortedTagged(rows: seq<Row>, cfg: Config)
    ensures var u := Unsorted(rows, TotalsOf(rows, cfg), cfg);
      forall i :: 0 <= i < |u| ==> u[i].pivot.Some?
  {
    var w := Written(rows, cfg);
    var t := WithPivot(TotalsOf(rows, cfg), TotalPivot);
    WrittenSpec(rows, cfg);
    assert Tagged(w) && Tagged(t);
    TaggedAppend(w, t);
    TaggedAppend(w + t, Spacers(Uniques(Colors(w + t)), cfg.hasColor));
  }

  /** Every row has a pivot. */
  predicate Tagged(rows: seq<Row>) {
    forall i :: 0 <= i < |rows| ==> rows[i].pivot.Some?
  }

  lemma TaggedAppend(a: seq<Row>, b: seq<Row>)
    requires Tagged(a) && Tagged(b)
    ensures Tagged(a + b)
  {
    forall i | 0 <= i < |a + b|
      ensures (a + b)[i].pivot.Some?
    {
      if i >= |a| {
        assert (a + b)[i] == b[i - |a|];
      }
    }
  }
}
