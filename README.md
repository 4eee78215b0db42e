# plotly_presentation core, modelled in Dafny

plotly_presentation wraps a charting library for presentation slides. This project models the
library's own logic and proves properties of it:

- The **price-volume bridge** (`price_volume_analysis`) turns one row per period
  (value, weight) into the three parallel lists of a waterfall chart. These are a two-level
  label `[period, variable]`, the amounts, and the measures `"absolute"`/`"relative"`.
  Between two period totals the chart shows the value effect and the weight effect.
- The **price-volume-mix bridge** (`price_volume_mix_analysis`) does the same per group
  (for example per product). Lags are taken within each group, and a third *mix* effect is
  added. The effects are either summed per period (aggregated output) or shown per group,
  with outer labels `group + k spaces`.
- The **total-row preparation** behind the stacked bar charts with a total
  (`Comparison._get_original_sorting`, `_prepare_data_for_total`, `_calculate_total`):
  - it validates the total configuration;
  - it tags rows `total`/`other`, writing that tag into the caller's frame;
  - it computes totals by sum or mean;
  - it adds one blank spacer row per colour;
  - it sorts by (pivot rank, first-occurrence rank of the category, then of the colour).
- The utilities:
  - `update_dict`, an in-place nested dictionary merge;
  - `adjust_color_brightness`;
  - `create_diverging_color_list`;
  - the callout geometry (`_get_center_point`, `add_square_growth_line`,
    `add_dash_growth_lines`) on a figure reduced to its traces' axis values, shapes,
    annotations and layout size;
  - the slide-size table of `Style._set_width_and_height`.

Python exceptions become a `Failure` of the `PyError` datatype (module `Wrappers`). The bridge
amounts are integers, which matches the integer data the source's examples use.

Modules, one file each:
- `Wrappers`: `Option`, `Result`, `PyError`.
- `Strings`: spaces, Python whitespace and `strip`, the lexicographic order pandas sorts
  labels by.
- `Waterfall`: labels, measures, the relabelling loop, and what it means for a bridge to add
  up. Both bridges share it.
- The core modules: `PriceVolume`, `PriceVolumeMix`, `Sorting` (pandas' stable multi-key
  sort), `Comparison`, `DictFuncs`, `ColorHelper`, `Diverging`, `Figures` (the figure
  object), `Callouts`, `Style`.

Where the code keeps state, the model keeps it too:
- the caller's frame (`Comparison.Frame`);
- the dictionary (`DictFuncs.Dict`);
- the figure (`Figures.Figure`), the callout (`Callouts.Callout`) and the style
  (`Style.Style`);
- the source's loops, which are methods with loop invariants, proved against specification
  functions.

Source paths below are relative to the repository root.

## Model

| member | source | states |
|---|---|---|
| PriceVolume.ValueWeightIdentity | plotly_presentation/_core/analysis_helper/price_volume.py:25-32 | The value effect (valued at the current weight) plus the weight effect (valued at the lag value) equals the change of value·weight exactly, with no residual. |
| PriceVolume.LongTableLength | plotly_presentation/_core/analysis_helper/price_volume.py:34-63 | After the groupby, melt, sort and dropna, n periods give 3n−2 rows: the first period contributes only its total. |
| PriceVolume.LongTableAt | plotly_presentation/_core/analysis_helper/price_volume.py:34-63 | Period i's total sits at row 3i. For i > 0 its value effect sits at 3i−2 and its weight effect at 3i−1, with the amounts computed from period i−1; no mix row appears. |
| PriceVolume.TotalsPerPeriod | plotly_presentation/_core/analysis_helper/price_volume.py:34-63 | The long table holds exactly one total row per period. |
| PriceVolume.BlockTotals | plotly_presentation/_core/analysis_helper/price_volume.py:34-46 | Each period's block holds exactly one total. |
| PriceVolume.PriceVolumeAnalysis | plotly_presentation/_core/analysis_helper/price_volume.py:22-79 | With the period column named "period" (the only name the source's labels read), it succeeds exactly when there are at most 99 periods; otherwise relabelling the 100th total leaves the 1..99-space vocabulary, which is a TypeError. On success the result is the bridge of the long table, with the period as outer label. |
| PriceVolume.TotalLabel | plotly_presentation/_core/analysis_helper/price_volume.py:66-73 | The i-th period total (0-based) is relabelled with exactly i+1 spaces, and its measure is absolute. |
| PriceVolume.TotalAmount | plotly_presentation/_core/analysis_helper/price_volume.py:36-77 | That total row shows the period as outer label and value·weight as amount. |
| PriceVolume.TotalsBefore | plotly_presentation/_core/analysis_helper/price_volume.py:66-70 | Up to and including period i's total, the loop counter has reached i+1. |
| PriceVolume.EffectLabels | plotly_presentation/_core/analysis_helper/price_volume.py:48-73 | In each later block the order is value_effect, then weight_effect, then the total; both effects are relative. |
| PriceVolume.EffectAmounts | plotly_presentation/_core/analysis_helper/price_volume.py:31-77 | Those effect rows carry the period as outer label and the two effect amounts. |
| PriceVolume.PrefixTable | plotly_presentation/_core/analysis_helper/price_volume.py:34-63 | Adding later periods only extends the long table. |
| PriceVolume.TableCloses | plotly_presentation/_core/analysis_helper/price_volume.py:31-40 | Running through the bars (absolute bars reset the level, relative bars add to it), every total equals the level the bars before it reach. The final level is the last period's total. |
| PriceVolume.BlockCloses | plotly_presentation/_core/analysis_helper/price_volume.py:31-40 | From the previous total, each block's effects reach exactly that period's total. |
| PriceVolume.BridgeReconciles | plotly_presentation/_core/analysis_helper/price_volume.py:72-79 | The returned bridge always adds up. |
| PriceVolume.TwoPeriodLabels | plotly_presentation/_core/analysis_helper/price_volume.py:66-73 | Rows (FY23, 10, 100) and (FY24, 11, 110) give inner labels [" ", value_effect, weight_effect, "  "] and measures [absolute, relative, relative, absolute]. |
| PriceVolume.TwoPeriodAmounts | plotly_presentation/_core/analysis_helper/price_volume.py:75-77 | The same rows give outer labels [FY23, FY24, FY24, FY24] and amounts [1000, 110, 100, 1210]. |
| PriceVolume.LongTableSorted | plotly_presentation/_core/analysis_helper/price_volume.py:48-63 | The table is built in the order `sort_values(by=[period, variable])` produces: period ascending, then value_effect < weight_effect < total_value. |
| PriceVolumeMix.LastOfGroup | plotly_presentation/_core/analysis_helper/change/price_volume_mix.py:30-32 | The lag of a row is the previous row of the same group, and it is missing exactly when the group has no earlier row. |
| PriceVolumeMix.MixIsInteraction | plotly_presentation/_core/analysis_helper/change/price_volume_mix.py:35-41 | The mix effect equals (value − lag value)·(weight − lag weight). |
| PriceVolumeMix.EffectsExplainGrowth | plotly_presentation/_core/analysis_helper/change/price_volume_mix.py:35-53 | Over a period, the three summed effects equal the growth of value·weight of the rows that have a lag. |
| PriceVolumeMix.Runs | plotly_presentation/_core/analysis_helper/change/price_volume_mix.py:46-52 | The groupby over the period splits the rows into non-empty runs. |
| PriceVolumeMix.RunsShape | plotly_presentation/_core/analysis_helper/change/price_volume_mix.py:46-95 | For sorted rows, each run is exactly one period with its groups strictly increasing, and the periods are strictly increasing. |
| PriceVolumeMix.AnnEffects | plotly_presentation/_core/analysis_helper/change/price_volume_mix.py:56-95 | A row's melted effects never include a total. |
| PriceVolumeMix.BlockShape | plotly_presentation/_core/analysis_helper/change/price_volume_mix.py:61-95 | Every period block is its effect rows followed by exactly one total, last. |
| PriceVolumeMix.BlocksShape | plotly_presentation/_core/analysis_helper/change/price_volume_mix.py:61-95 | Every block of the table has that shape. |
| PriceVolumeMix.BlockAt | plotly_presentation/_core/analysis_helper/change/price_volume_mix.py:43-95 | Block k of the table is period k's block. |
| PriceVolumeMix.BlockTotal | plotly_presentation/_core/analysis_helper/change/price_volume_mix.py:61-70 | Block k ends with period k's total entry (the summed value·weight). |
| PriceVolumeMix.TotalPosition | plotly_presentation/_core/analysis_helper/change/price_volume_mix.py:91-102 | Period k's total lies in the table, and up to and including it exactly k+1 totals have been counted. |
| PriceVolumeMix.EffectPosition | plotly_presentation/_core/analysis_helper/change/price_volume_mix.py:91-102 | In per-group mode, period k's j-th effect lies in the table after exactly k totals. |
| PriceVolumeMix.OuterLabels | plotly_presentation/_core/analysis_helper/change/price_volume_mix.py:111-122 | The outer axis has one label per row. |
| PriceVolumeMix.OuterAxis | plotly_presentation/_core/analysis_helper/change/price_volume_mix.py:111-122 | The `space_counter` loop builds exactly the outer labels of the specification: the period at a blank label, and the group plus one space per blank so far elsewhere. |
| PriceVolumeMix.BlanksAreTotals | plotly_presentation/_core/analysis_helper/change/price_volume_mix.py:97-118 | The blank labels the x1 loop counts are exactly the totals the relabelling loop counted. |
| PriceVolumeMix.PriceVolumeMixAnalysis | plotly_presentation/_core/analysis_helper/change/price_volume_mix.py:26-126 | Aggregated mode with no rows is an AttributeError: the NaN-group row that `df.loc[0, …]` adds reaches `x.strip()`. Otherwise, with the period column named "period", it succeeds exactly when there are at most 9 periods, in both modes; the 10th total leaves the 1..9-space vocabulary, which is a TypeError. On success the result is the bridge of the period blocks. |
| PriceVolumeMix.MixTotalLabel | plotly_presentation/_core/analysis_helper/change/price_volume_mix.py:97-105 | The k-th period total (0-based) is labelled with exactly k+1 spaces and is absolute, in both modes. |
| PriceVolumeMix.MixTotalAmount | plotly_presentation/_core/analysis_helper/change/price_volume_mix.py:61-124 | That row's amount is the sum of value·weight over the period's groups, and its outer label is the period. |
| PriceVolumeMix.GroupEffectLabel | plotly_presentation/_core/analysis_helper/change/price_volume_mix.py:72-105 | In per-group mode, each effect row shows its effect name, is relative, and carries its amount. |
| PriceVolumeMix.GroupEffectOuter | plotly_presentation/_core/analysis_helper/change/price_volume_mix.py:111-122 | The outer label of period k's effect rows is the group name followed by k spaces ("A " in the second period, "A  " in the third). |
| PriceVolumeMix.RowEffectsClose | plotly_presentation/_core/analysis_helper/change/price_volume_mix.py:35-41 | The per-group effect bars move the level by exactly the period's growth. |
| PriceVolumeMix.AnnEffectsClose | plotly_presentation/_core/analysis_helper/change/price_volume_mix.py:35-41 | One row's three effects move the level by that row's growth since its lag. |
| PriceVolumeMix.BlockCloses | plotly_presentation/_core/analysis_helper/change/price_volume_mix.py:43-70 | A block ends at its period's total, and it closes exactly when the previous total plus the growth equals the new total. |
| PriceVolumeMix.TableCloses | plotly_presentation/_core/analysis_helper/change/price_volume_mix.py:43-95 | The table's bars close exactly when every period is balanced against the one before it. |
| PriceVolumeMix.LongTableSorted | plotly_presentation/_core/analysis_helper/change/price_volume_mix.py:83-95 | The long table built from well-formed runs ascends by period, then group with blank totals last, then variable rank: it is already in the order `sort_values` gives. |
| PriceVolumeMix.MixTableSorted | plotly_presentation/_core/analysis_helper/change/price_volume_mix.py:83-95 | For rows sorted by period and group (with non-blank groups in per-group mode), the table the analysis builds is in `sort_values` order, so modelling the sort as the identity is sound. |
| PriceVolumeMix.MixReconciles | plotly_presentation/_core/analysis_helper/change/price_volume_mix.py:104-126 | The returned bridge adds up if and only if the periods are balanced. |
| PriceVolumeMix.GrowthIsTotalChange | plotly_presentation/_core/analysis_helper/change/price_volume_mix.py:29-41 | When every row of a period has its lag at the same place in the previous period, the growth is the change of the period total. |
| PriceVolumeMix.GridBalanced | plotly_presentation/_core/analysis_helper/change/price_volume_mix.py:43-53 | When every period has the same groups, each later period's three summed effects equal its total minus the previous total, so the bridge is balanced. |
| PriceVolumeMix.AggregatedExample | plotly_presentation/_core/analysis_helper/change/price_volume_mix.py:29-53 | Products A, B, C over FY23/FY24 give summed effects 2500, 4500 and 900, bridging the totals 32000 and 39900. |
| Waterfall.LabelTextRoundTrip | plotly_presentation/_core/analysis_helper/change/price_volume_mix.py:97-102 | Every inner label is recovered from its text; a total's label is exactly k spaces. |
| Waterfall.MeasureOfLabel | plotly_presentation/_core/analysis_helper/change/price_volume_mix.py:104-105 | The measure is absolute exactly when the label is blank. |
| Waterfall.RelabelTotals | plotly_presentation/_core/analysis_helper/change/price_volume_mix.py:97-102 | The counter loop relabels the c-th total with c spaces and keeps effect names. It fails with a TypeError exactly when there are more totals than the vocabulary holds. |
| Waterfall.BridgeAt | plotly_presentation/_core/analysis_helper/price_volume.py:66-77 | All returned lists have the same length as the table. A total row shows as many spaces as the totals counted so far and is absolute; an effect row shows its name and is relative. |
| Waterfall.BridgeBars | plotly_presentation/_core/analysis_helper/price_volume.py:72-77 | The bars of the returned bridge are the bars of the table's rows. |
| Waterfall.ClosesAppend | plotly_presentation/_core/analysis_helper/price_volume.py:72-73 | A bridge built from two parts closes exactly when the first part closes and the second closes from where the first ends. |
| Waterfall.ConcatTotals | plotly_presentation/_core/analysis_helper/change/price_volume_mix.py:91-95 | Blocks that each end in one total give a table with one total per block. |
| Waterfall.TotalOfBlock | plotly_presentation/_core/analysis_helper/change/price_volume_mix.py:97-102 | The total of block k is the (k+1)-th total of the table. |
| Waterfall.EffectOfBlock | plotly_presentation/_core/analysis_helper/change/price_volume_mix.py:97-102 | An effect of block k comes after exactly k totals. |
| Strings.LStrip | plotly_presentation/_core/utils/color_helper.py:17 | `lstrip('#')` removes exactly the leading run of '#': what remains is a suffix that does not start with '#'. |
| Strings.IsBlankAll | plotly_presentation/_core/analysis_helper/change/price_volume_mix.py:105-115 | `strip() == ""` holds exactly when every character is Python whitespace. |
| Strings.SpacesOrdered | plotly_presentation/_core/analysis_helper/change/price_volume_mix.py:72-88 | Shorter blank labels sort before longer ones. |
| Strings.StrLessTransitive | plotly_presentation/_core/analysis_helper/change/price_volume_mix.py:91-95 | The label order pandas sorts by is transitive. |
| Strings.StrLessTotal | plotly_presentation/_core/analysis_helper/change/price_volume_mix.py:91-95 | The label order pandas sorts by is total. |
| Sorting.KeyBeforeTransitive | plotly_presentation/_core/analysis_helper/comparison.py:87 | The multi-column key order, with NaN last in both directions, is transitive. |
| Sorting.KeyBeforeTotal | plotly_presentation/_core/analysis_helper/comparison.py:87 | That order is total and irreflexive on distinct keys. |
| Sorting.SortCorrect | plotly_presentation/_core/analysis_helper/comparison.py:87 | `sort_values` returns a permutation that is sorted by the key and stable: rows with equal keys keep their relative order. |
| Sorting.ItemsPermute | plotly_presentation/_core/analysis_helper/comparison.py:87 | Dropping the helper columns of two permuted tables leaves permuted rows. |
| Comparison.Uniques | plotly_presentation/_core/analysis_helper/comparison.py:14 | `unique()` holds each value of the column exactly once and nothing else. |
| Comparison.Ranks | plotly_presentation/_core/analysis_helper/comparison.py:14 | Each value of the column maps to its position in `unique()`, and only those values are keys. |
| Comparison.FirstRank | plotly_presentation/_core/analysis_helper/comparison.py:14 | A value's number is the count of distinct values before its first occurrence. |
| Comparison.FirstOccurrenceOrder | plotly_presentation/_core/analysis_helper/comparison.py:14 | Values are numbered 0, 1, 2, … in the order they first occur. |
| Comparison.GetOriginalSorting | plotly_presentation/_core/analysis_helper/comparison.py:9-15 | A single column name counts as a one-element list. The method succeeds exactly when every column exists (otherwise KeyError) and maps each column to its first-occurrence numbering. |
| Comparison.SortedDistinct | plotly_presentation/_core/analysis_helper/comparison.py:146 | The groupby keys are the distinct colours, strictly ascending. |
| Comparison.CalculateTotalSpec | plotly_presentation/_core/analysis_helper/comparison.py:140-155 | Only "sum" and "mean" succeed; anything else, including "Sum" (accepted by the lower-cased check but unknown to `agg`) or a missing formula, is an AttributeError. With colours there is exactly one total row per distinct colour, ascending, aggregating that colour's rows. Without colours there is a single total row over all rows. Every total row is named "Total" and is NA elsewhere. |
| Comparison.WithPivot | plotly_presentation/_core/analysis_helper/comparison.py:39-45 | Writing the pivot column changes only that column of every row. |
| Comparison.WrittenSpec | plotly_presentation/_core/analysis_helper/comparison.py:37-46 | A row is tagged total exactly when a total category is given and the row belongs to it; every other row is tagged other. |
| Comparison.MakeSpacers | plotly_presentation/_core/analysis_helper/comparison.py:49-64 | The spacer loop makes one spacer per distinct colour, or one without colours. With a colour column but no row, the empty concat is a ValueError. |
| Comparison.OneSpacerPerColor | plotly_presentation/_core/analysis_helper/comparison.py:49-63 | With colours there is exactly one spacer per distinct colour and no two share a colour; without, exactly one. Each spacer has category "", value 0 and NA elsewhere. |
| Comparison.SpacerColors | plotly_presentation/_core/analysis_helper/comparison.py:37-51 | Computed totals bring no new colour, so the spacers follow the caller's colours. |
| Comparison.PrepareDataForTotal | plotly_presentation/_core/analysis_helper/comparison.py:17-89 | It returns the prepared rows or the error, and it leaves the caller's frame with the pivot column written exactly when the configuration, formula and total category were accepted. |
| Comparison.PreparedFailure | plotly_presentation/_core/analysis_helper/comparison.py:30-143 | It fails exactly on one of: neither or both of total_category and calculate_total given, an unknown formula (AttributeError), a total category absent from the data, or a colour column with no row. Every failure except the formula is a ValueError. |
| Comparison.PreparedRows | plotly_presentation/_core/analysis_helper/comparison.py:37-87 | The prepared frame holds the caller's tagged rows, the computed totals tagged total, and the spacers, each as often as produced, and nothing else. |
| Comparison.RankBefore | plotly_presentation/_core/analysis_helper/comparison.py:74-87 | Rows of different pivot rank are ordered by that rank alone, in the requested direction. |
| Comparison.SortedRanks | plotly_presentation/_core/analysis_helper/comparison.py:74-87 | After the sort, no two rows of different pivot rank stand against the requested direction. |
| Comparison.RanksBanded | plotly_presentation/_core/analysis_helper/comparison.py:74 | With total 0, spacer 0.5 and other 1 (or total and other swapped), rank order puts the spacers between the totals and the other rows. |
| Comparison.PreparedSorted | plotly_presentation/_core/analysis_helper/comparison.py:66-87 | No prepared row's sort key (pivot rank, category rank, colour rank) comes before the key of a row placed ahead of it, in the requested direction. |
| Comparison.TotalFirstExample | tests/_core/analysis_helper/test_comparison.py:90-111 | With "All" as total category, total first and ascending order, the frame reads "All" (total), the spacer, "Germany", "France". |
| Comparison.TotalLastExample | tests/_core/analysis_helper/test_comparison.py:113-155 | With the total last, the frame reads "Germany", "France", the spacer, "All" (total). |
| Comparison.PreparedBands | plotly_presentation/_core/analysis_helper/comparison.py:66-87 | The totals, spacers and other rows form three bands that never interleave. The totals come first exactly when total_as_first agrees with order_ascending, and the spacers always sit in the middle. |
| DictFuncs.UpdateDict | plotly_presentation/_core/utils/dict_funcs.py:4-11 | It succeeds exactly when no non-empty mapping of u meets a non-mapping value of d. Otherwise the recursion into that value fails on the mapping's first entry: an AttributeError (`d.get` on a non-dict) if that entry is a mapping, a TypeError (item assignment) if it is not. On success it returns the same object, now holding the recursive merge. |
| DictFuncs.FailureKinds | plotly_presentation/_core/utils/dict_funcs.py:6-10 | The merge fails exactly when it can fail with an AttributeError or a TypeError, and those are the only errors it raises. |
| DictFuncs.NestedOverLeaf | plotly_presentation/_core/utils/dict_funcs.py:6-10 | Merging {"a": {"b": {}}} into {"a": "x"} fails with an AttributeError and not a TypeError. |
| DictFuncs.LeafOverLeaf | plotly_presentation/_core/utils/dict_funcs.py:6-10 | Merging {"a": {"b": "y"}} into {"a": "x"} fails with a TypeError and not an AttributeError. |
| DictFuncs.MergeIntoEmpty | plotly_presentation/_core/utils/dict_funcs.py:8 | A mapping merged into the fresh `{}` of an absent key is copied exactly. |
| DictFuncs.MergedCovers | plotly_presentation/_core/utils/dict_funcs.py:6-10 | Every key of u is present in the result at every level; a non-mapping value of u replaces whatever d held, even a sub-dict. |
| DictFuncs.MergedKeyUnion | plotly_presentation/_core/utils/dict_funcs.py:6-10 | At every level where both hold mappings, the keys are the union of d's and u's, and keys only d has keep their values. |
| DictFuncs.MergeIdempotent | plotly_presentation/_core/utils/dict_funcs.py:6-10 | Merging the same u a second time changes nothing. |
| DictFuncs.MergeAbsorbs | plotly_presentation/_core/utils/dict_funcs.py:4-11 | Merging the merged result back into u gives the merged result again: the two updates of the test "test_order" agree. |
| ColorHelper.ParsePair | plotly_presentation/_core/utils/color_helper.py:19 | `int(pair, 16)` on two characters is within −15..255. |
| ColorHelper.RoundHalfEven | plotly_presentation/_core/utils/color_helper.py:31 | `round` gives an integer within ½ of x, and the even one on a tie. |
| ColorHelper.Clamp | plotly_presentation/_core/utils/color_helper.py:30-31 | The clamp lies in 0..255 and is the identity inside that range. |
| ColorHelper.AdjustColorBrightness | plotly_presentation/_core/utils/color_helper.py:1-39 | It succeeds exactly when the level is an int in −5..5 and the colour is a 6-digit hex string after stripping '#', or a 3-tuple; every refusal is a ValueError. The result is a "#RRGGBB" string (not a tuple) that reads back as the clamped, scaled channels. |
| ColorHelper.FormatOutputRoundTrip | plotly_presentation/_core/utils/color_helper.py:38 | The format "#{:02X}{:02X}{:02X}" gives 7 characters that read back as the three channels. |
| ColorHelper.AdjustChannelMonotone | plotly_presentation/_core/utils/color_helper.py:28-35 | A higher level never yields a smaller channel. |
| ColorHelper.BrighterWithLevel | plotly_presentation/_core/utils/color_helper.py:28-39 | For any accepted colour, a higher level gives a result whose every channel is at least as large. |
| ColorHelper.LevelZeroIdentity | plotly_presentation/_core/utils/color_helper.py:17-38 | At level 0 a hex colour comes back as itself, upper-cased, behind a single '#'. |
| ColorHelper.PairIdentity | plotly_presentation/_core/utils/color_helper.py:19-38 | A pair of hex digits scaled by 1 formats back to the same digits, upper-cased. |
| Diverging.NColors | plotly_presentation/_core/colors/diverging.py:22-27 | The interpolation with k colours fails (ZeroDivisionError) exactly at k = 1. Otherwise it gives max(k, 0) colours, running from the low to the high colour. |
| Diverging.CreateDivergingColorList | plotly_presentation/_core/colors/diverging.py:11-54 | For n ≥ 2 there are exactly n colours, even or odd, from low to high, and for odd n index (n−1)/2 is the mid colour. n = 0 and n = 1 fail with a ZeroDivisionError, and a negative n gives no colour. |
| Diverging.DivergingAt | plotly_presentation/_core/colors/diverging.py:21-52 | Both halves use n/2+1 colours (even n) or ⌈n/2⌉ (odd n). The first ⌊n/2⌋ colours come from the low half. The last ⌊n/2⌋ come from the high half past its first colour. For odd n the middle one is mid. |
| Diverging.DivergingMonotone | plotly_presentation/_core/colors/diverging.py:21-52 | When the channels rise from low to mid to high, they rise along the whole list. |
| Diverging.EvenOmitsMid | plotly_presentation/_core/colors/diverging.py:34-36 | For even n the mid colour does not appear: when a channel of mid lies strictly between low and high, no colour of the list has it. |
| Callouts.MidpointHalfway | plotly_presentation/_core/callouts.py:62 | `(b − a)/2 + a` is the midpoint: symmetric in a and b, twice it is a + b, and it lies between them. |
| Callouts.FirstIndex | plotly_presentation/_core/callouts.py:61 | `list(vals).index(c)` is the first position holding c. |
| Callouts.Callout.GetCenterPoint | plotly_presentation/_core/callouts.py:44-62 | For numbers the result is the midpoint. For a category a, a and b are first replaced by their first positions in the first trace's values on the axis. A missing trace is an IndexError, a value absent from the axis a ValueError, and a number paired with a category a TypeError. |
| Callouts.SquarePath | plotly_presentation/_core/callouts.py:66-77 | The three segments run (x0,y0)→(x0,y_top)→(x1,y_top)→(x1,y1), each starting where the previous one ends. |
| Callouts.Callout.AddSquareGrowthLine | plotly_presentation/_core/callouts.py:64-87 | It appends exactly the three segments. When text is given, it appends one annotation at (centre of x0 and x1, y_top); otherwise none. It returns the same figure and touches nothing else; a failing centre fails after the segments were drawn. |
| Callouts.Callout.AddDashGrowthLines | plotly_presentation/_core/callouts.py:89-103 | It appends the segments x0→x_end at y0 and x1→x_end at y1. It then appends an arrow at x_end from y0 to y1, and the text at the centre of y0 and y1, computed on the default axis "x". It returns the same figure and touches nothing else. |
| Style.SlideSize | plotly_presentation/_core/style.py:11-28 | "slide_75%" gives 576×432, "slide_50%" 480×540, "slide_25%" 480×270, and any other name 960×540. The width never exceeds 960 and the height never exceeds 540. |
| Style.Style.SetWidthAndHeight | plotly_presentation/_core/style.py:7-28 | It sets plot_width 960 and plot_height 540. The figure's layout gets the truncated products of the multipliers, which equal the table, and nothing else of the figure changes. |

## Left out

- Bridge inputs:
  - The bridges require rows sorted by period (and group), with one row per period (and
    group). The lags follow input order while the output follows label order, and the two
    agree only then.
  - Per-group mode also requires group names that are not blank. A blank group would sort
    among the period totals.
  - Unsorted or duplicated inputs are not modelled.
- Bridge amounts are integers. NaN values in the input, and floating-point value or weight
  columns, are not modelled.
- Table mechanics: pandas' categorical machinery, `melt` and `reset_index` are modelled by
  their effect on the rows, not as operations.
- Aggregated groups: in aggregated mode the group column holds "FIXED" and plays no role in
  the output.
- `price_volume.py` takes the lag with an ungrouped `shift(1)`. With one row per period, as
  required, this is the previous period.
- Colour handling in `create_diverging_color_list`:
  - The conversion of colour strings (`_convert_to_rgb`, in
    `plotly_presentation/_core/colors/utils.py`) is not part of this model.
  - The final `label_rgb` and the `colortype` dispatch of the charting library's `n_colors`
    are not part of this model either.
  - The model works on channel tuples, and `n_colors` is linear interpolation.
- Diverging.NColors: the channels are exact reals, while `n_colors` computes
  `lo + index * ((hi - lo) / (k - 1))` in floats. So the last colour can miss the high
  colour by a rounding step: from 0 to 29 with k = 8, 0 + 7·(29/7) is 29.000000000000004 in
  floats. The contract's `r.value[k - 1] == hi` holds in reals only.
- Diverging.CreateDivergingColorList: each half comes from `n_colors`, so in floats the mid
  colour at (n−1)/2 and the high colour at n−1 can be off by a rounding step. With low
  (0, 0, 0), mid (29, 29, 29) and n = 15, colour 7 is "rgb(29.000000000000004, …)" in Python.
  The exact equalities with mid and high hold in reals only.
  - For tuple and "rgb(...)" inputs the source applies `label_rgb` to strings that `n_colors`
    already labelled. That string form is not captured.
- The module-level palette loading in `diverging.py` and the configuration reading in
  `options.py` and `Callout.__init__` (default line and text styles) are I/O. The styles
  appear only as the tags `DefaultLine` and `DefaultDashLine`.
- AdjustColorBrightness: Python ints (bool included, which `isinstance` also accepts) are
  modelled as the level.
  - The channels are scaled by the exact rational (10 + level)/10 and rounded half to even.
  - Python scales by a float, so where the exact product is a .5 tie the float product can
    land just off it and round the other way. Channel 55 at level 1 is 60.50000000000001 in
    floats and rounds to 61, where the model gives 60. Channel 45 at level −3 is
    31.499999999999996 and rounds to 31, where the model gives 32.
  - Non-ASCII digits that `int(…, 16)` accepts are not modelled.
  - A tuple channel that is not a number (a TypeError in Python) is not modelled.
- DictFuncs.UpdateDict:
  - The model iterates u's keys in an unspecified order, while Python uses insertion order.
    On success the result is the same either way.
  - On failure, insertion order decides which offending key is met first, and which entry of
    its mapping comes first. So when a failing mapping mixes mapping and non-mapping entries,
    or several keys fail, the model only promises one of the exceptions that some order
    gives (`FailsWith`), not the one Python's order gives.
  - After either exception (AttributeError or TypeError), the partly written state of d is
    not described.
  - The model writes the merged sub-dictionary back instead of sharing it (aliasing), so a
    caller's other references to that sub-dictionary are not tracked.
- Comparison.PrepareDataForTotal:
  - Requires the colour column to be set on every row exactly when a colour column is used.
  - Columns other than category, value and colour are carried as opaque cells.
  - The value 0 of a spacer is kept as 0; pandas' dtype conversion is not modelled.
  - `Series.map` on a value the first-occurrence map lacks gives NaN, which is modelled as a
    missing key that sorts last.
- Comparison.CalculateTotal: `weight_column` is accepted by the source but unused, so it is
  absent from the model. The mean of a colour with no values is NA.
- `vertical_stacked_bar_with_total` and `horisontal_stacked_bar_with_total`
  (`plotly_presentation/_core/analysis_helper/comparison.py:91-138`) only call the charting
  library. They pass order_ascending True and False respectively, which the model's `Config`
  covers.
- Figure building and chart-library wrappers are not part of this model:
  - `plotly_presentation/_core/analysis_helper/comparison/comparison.py`;
  - `plotter.py`;
  - `analysis.py`;
  - `colors/sequential.py`;
  - the colour constant tables.
- Some tests disagree with the code, and the model follows the code:
  - `tests/_core/test_style.py:235-237` expects height 405 for "slide_wide", where the code
    gives 540.
  - `tests/_core/analysis_helper/test_comparison.py:369-404` expects `weighted_mean`, which
    the formula check refuses.
  - `tests/_core/test_comparison.py:53-146` expects no spacer rows.
- PriceVolume.PriceVolumeAnalysis: the source builds its labels from the column literally
  named "period" (`price_volume.py:75`), so with any other period column name it raises a
  KeyError. The model has no column names and succeeds on those inputs.
- PriceVolumeMix.PriceVolumeMixAnalysis: the same holds for `result["period"]` at
  `price_volume_mix.py:108` and `:116`; a period column with another name is a KeyError there,
  which the model does not represent.
- Style.Style.SetWidthAndHeight: the float multipliers are modelled as exact rationals. They
  give the same integers after `int()` for every layout in the table.
