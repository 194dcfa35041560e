# Chart part writer, modelled in Dafny

This project models the chart writer of `src/chart.c`. That module turns a chart object into the
DrawingML chart part of an XLSX package, written to the stream the caller hands it (the part's path
in the package is the caller's choice). The chart is a clustered bar chart: a list of
series, a counter that numbers the `c:ser` blocks, two axis ids, and the chart's number in its
workbook.

The model follows the source's own form:

- **`Charts.Chart`** (`chart.dfy`) is a class with the fields of `lxw_chart`: `series`,
  `seriesIndex`, `axisId1`, `axisId2`, `id` and `file`.
  - Each `_chart_write_*` routine is a method. It appends XML events to `file` and updates the
    counters as the C code does.
  - The loop over the series in `_chart_write_bar_chart` is a `for` loop with its invariants.
  - Each method's `ensures` ties the new stream and the new counters to specification functions of
    the old state.
- **`Xml`** (`xml.dfy`) models the output stream as a sequence of writer events. An event is the
  declaration, a start tag, an end tag, an empty tag or a data element.
  - It also defines nesting (`Balanced`), the sequence of top-level element names (`Children`),
    "one element with these children" (`IsElement`) and "declaration followed by one element"
    (`IsDocument`).
  - It proves generic lemmas about concatenating and wrapping well-nested streams.
- **`ChartElements`** (`chart_elements.dfy`) defines the element vocabulary.
  - `Tag` enumerates the local names; `QName` spells them with the `c:` prefix, and `TagNamed`
    reads a qualified name back, so distinct tags are distinct element names.
  - There is one specification function per element the writer produces.
  - The namespaces, attribute values and the axis-id base 50010000 are constants.
- **`ChartShape`**, **`ChartLinks`** and **`ChartCounters`** hold the properties of the chart part:
  - every element nests properly and has the schema-ordered children;
  - there is one `c:ser` block per series, in list order, numbered from the counter;
  - the two axes cross-link;
  - the axis ids are written once;
  - the series counter carries over from one assembly to the next.

Integer widths are explicit:

- the index written into `c:idx` and `c:order` is `uint16_t` (src/chart.c:158, 175, 276), so the
  serial numbers are taken modulo 2^16;
- the axis-id arithmetic is `uint32_t` (src/chart.c:194-197, 205), so 50010000 + id + 1 is computed
  modulo 2^32.

The widths of the fields themselves are assumed, because `src/chart.h`, which declares them, is not
part of this model: `series_index` is taken as `uint16_t`, so the counter itself wraps at 2^16, and
`id`, `axis_id_1` and `axis_id_2` as `uint32_t`. The wrap-to-zero case
(`ChartCounters.AxisIdWrapsToZero`) needs a chart number at least 32 bits wide.

The code itself does not reject a wrap-around, so no precondition excludes one. The lemmas state
which inputs avoid it and what happens when it occurs.

Two behaviours of the code that a caller might not expect are kept as written:

- The series counter is never reset. A second assembly of the same chart numbers its series from
  where the first stopped (`ChartCounters.ReassemblyNumbering`).
- `chart_add_series` checks only for a missing template and a failed allocation. It never looks at
  the series' range, which is written as given, NULL included.

## Model

| member | source | states |
|---|---|---|
| ChartElements.QNameRoundTrip | src/chart.c:81-822 | every element tag is read back from the `c:` qualified name the writers pass to the XML writer |
| ChartElements.QNameInjective | src/chart.c:81-822 | distinct tags have distinct qualified names, so the tag-level events fix the element names written |
| Charts.Chart.constructor | src/chart.c:27-43 | a new chart has an empty series list, counter 0, axis ids 0, id 0 and nothing written |
| Charts.Chart.Declaration | src/chart.c:81-85 | appends the XML declaration |
| Charts.Chart.WriteChartSpace | src/chart.c:90-108 | opens `c:chartSpace` with the `c`, `a` and `r` namespace declarations |
| Charts.Chart.WriteLang | src/chart.c:113-125 | writes `c:lang` with `val="en-US"` |
| Charts.Chart.WriteLayout | src/chart.c:130-134 | writes an empty `c:layout` |
| Charts.Chart.WriteGrouping | src/chart.c:139-152 | writes `c:grouping` with `val="clustered"` |
| Charts.Chart.WriteIdx | src/chart.c:157-169 | writes `c:idx` carrying the given index |
| Charts.Chart.WriteOrder | src/chart.c:174-186 | writes `c:order` carrying the given index |
| Charts.Chart.AddAxisIds | src/chart.c:191-199 | both axis ids become 50010000 + id + 1 in uint32_t arithmetic; nothing else changes |
| Charts.Chart.WriteAxisId | src/chart.c:204-216 | writes `c:axId` carrying the given id |
| Charts.Chart.WriteAxisIds | src/chart.c:221-229 | allocates the ids only if the first is 0, then writes `c:axId` for both ids in order |
| Charts.Chart.WriteF | src/chart.c:234-238 | writes `c:f` with the range as given, a NULL range included |
| Charts.Chart.WriteNumRef | src/chart.c:243-253 | writes `c:numRef` wrapping `c:f` |
| Charts.Chart.WriteVal | src/chart.c:258-268 | writes `c:val` wrapping the series' `c:numRef` |
| Charts.Chart.WriteSer | src/chart.c:273-290 | writes one `c:ser` numbered with the counter's old value, then post-increments the counter modulo 2^16 |
| Charts.Chart.WriteOrientation | src/chart.c:295-308 | writes `c:orientation` with `val="minMax"` |
| Charts.Chart.WriteScaling | src/chart.c:313-322 | writes `c:scaling` wrapping `c:orientation` |
| Charts.Chart.WriteAxisPos | src/chart.c:327-339 | writes `c:axPos` with the given position |
| Charts.Chart.WriteTickLblPos | src/chart.c:344-357 | writes `c:tickLblPos` with `val="nextTo"` |
| Charts.Chart.WriteCrossAxis | src/chart.c:362-374 | writes `c:crossAx` carrying the given id |
| Charts.Chart.WriteCrosses | src/chart.c:379-392 | writes `c:crosses` with `val="autoZero"` |
| Charts.Chart.WriteAuto | src/chart.c:397-410 | writes `c:auto` with `val="1"` |
| Charts.Chart.WriteLblAlgn | src/chart.c:415-428 | writes `c:lblAlgn` with `val="ctr"` |
| Charts.Chart.WriteLblOffset | src/chart.c:433-446 | writes `c:lblOffset` with `val="100"` |
| Charts.Chart.WriteMajorGridlines | src/chart.c:451-455 | writes an empty `c:majorGridlines` |
| Charts.Chart.WriteNumFmt | src/chart.c:460-475 | writes `c:numFmt` with `formatCode="General"` and `sourceLinked="1"` |
| Charts.Chart.WriteCrossBetween | src/chart.c:480-493 | writes `c:crossBetween` with `val="between"` |
| Charts.Chart.WriteLegendPos | src/chart.c:498-511 | writes `c:legendPos` with `val="r"` |
| Charts.Chart.WriteLegend | src/chart.c:516-528 | writes `c:legend` wrapping `c:legendPos` and `c:layout` |
| Charts.Chart.WritePlotVisOnly | src/chart.c:533-546 | writes `c:plotVisOnly` with `val="1"` |
| Charts.Chart.WriteHeaderFooter | src/chart.c:551-555 | writes an empty `c:headerFooter` |
| Charts.Chart.WritePageMargins | src/chart.c:560-583 | writes `c:pageMargins` with the six fixed margins |
| Charts.Chart.WritePageSetup | src/chart.c:588-592 | writes an empty `c:pageSetup` |
| Charts.Chart.WritePrintSettings | src/chart.c:597-612 | writes `c:printSettings` wrapping header/footer, margins and page setup |
| Charts.Chart.WriteCatAxis | src/chart.c:623-655 | writes the whole `c:catAx`: it declares the first axis id and crosses to the second; the counters are unchanged |
| Charts.Chart.WriteValAx | src/chart.c:660-692 | writes the whole `c:valAx`: it declares the second axis id and crosses to the first; the counters are unchanged |
| Charts.Chart.WriteBarDir | src/chart.c:701-713 | writes `c:barDir` with `val="bar"` |
| Charts.Chart.WriteBarChart | src/chart.c:718-740 | writes `c:barChart`: bar direction, grouping, one `c:ser` per series in list order numbered k, k+1, … modulo 2^16, then the axis ids; the counter ends advanced by the number of series, and the ids are allocated only if the first was 0 |
| Charts.Chart.WriteChartType | src/chart.c:749-754 | same stream and counters as the bar chart writer |
| Charts.Chart.WritePlotArea | src/chart.c:759-770 | opens `c:plotArea`, writes `c:layout` and the bar chart, and leaves `c:plotArea` open |
| Charts.Chart.WriteChart | src/chart.c:775-798 | writes `c:chart`: the plot area with both axes, closed after them, then the legend and `c:plotVisOnly` |
| Charts.Chart.AssembleXmlFile | src/chart.c:803-822 | writes the whole chart part: the declaration, then `c:chartSpace` wrapping lang, chart and print settings; counter and axis-id effects as for the bar chart |
| Charts.Chart.AddSeries | src/chart.c:833-854 | returns -1 exactly when the template is NULL or the allocation fails, leaving the list unchanged; otherwise returns 0 with a copy of the template appended at the tail |
| ChartElements.AxisIdFor | src/chart.c:191-199 | for every id below 2^32 − 50010001, the axis id is 50010000 + id + 1 and nonzero |
| ChartElements.Repeat | src/chart.c:731-734 | `n` copies of one element name |
| ChartShape.SerShape | src/chart.c:273-290 | `c:ser` holds `c:idx`, `c:order` and `c:val`; `c:val` holds `c:numRef`, which holds `c:f`; 9 events |
| ChartShape.SerElementsShape | src/chart.c:731-734 | the series blocks nest, are 9 events each, and are one `c:ser` element per series |
| ChartShape.SerElementAt | src/chart.c:731-734 | the i-th block is the i-th series numbered with the counter advanced i times |
| ChartShape.BarChartShape | src/chart.c:718-740 | `c:barChart` holds barDir, grouping, one `c:ser` per series, then two `c:axId`, in this order |
| ChartShape.BarChartContent | src/chart.c:723-737 | the content `c:barChart` wraps nests and is barDir, grouping, the ser blocks and two axId |
| ChartShape.AxisIdsShape | src/chart.c:221-229 | the two `c:axId` leaves nest and are two `axId` elements |
| ChartShape.BarChartWithoutSeries | src/chart.c:718-740 | with no series, `c:barChart` is barDir, grouping and the two axis ids only |
| ChartShape.ScalingShape | src/chart.c:313-322 | `c:scaling` holds `c:orientation` |
| ChartShape.CatAxShape | src/chart.c:623-655 | `c:catAx` holds axId, scaling, axPos, tickLblPos, crossAx, crosses, auto, lblAlgn, lblOffset in this order |
| ChartShape.CatAxContent | src/chart.c:628-654 | the content `c:catAx` wraps nests and has those nine children |
| ChartShape.ValAxShape | src/chart.c:660-692 | `c:valAx` holds axId, scaling, axPos, majorGridlines, numFmt, tickLblPos, crossAx, crosses, crossBetween in this order |
| ChartShape.ValAxContent | src/chart.c:665-691 | the content `c:valAx` wraps nests and has those nine children |
| ChartShape.PlotAreaShape | src/chart.c:759-798 | the plot area opened by one writer and closed by the chart writer is one element holding layout, barChart, catAx, valAx |
| ChartShape.PlotAreaClosed | src/chart.c:775-798 | closing the opened plot area after the two axes is the same as wrapping layout, bar chart and axes |
| ChartShape.PlotAreaWrapped | src/chart.c:759-770 | that wrapped plot area is one element with children layout, barChart, catAx, valAx |
| ChartShape.ChartShape | src/chart.c:775-798 | `c:chart` holds plotArea, legend and plotVisOnly; `c:legend` holds legendPos and layout |
| ChartShape.PrintSettingsShape | src/chart.c:597-612 | `c:printSettings` holds headerFooter, pageMargins and pageSetup |
| ChartShape.DocumentShape | src/chart.c:803-822 | the chart part is the declaration followed by one well-nested `c:chartSpace`, whose children are lang, chart and printSettings |
| ChartLinks.PlotAreaAroundSeries | src/chart.c:718-770 | the opened plot area is a fixed head, the series blocks, then the axis ids and the end of `c:barChart` |
| ChartLinks.ChartAroundSeries | src/chart.c:775-798 | `c:chart` is a fixed head, the series blocks, then a tail that depends only on the axis ids |
| ChartLinks.DocumentAroundSeries | src/chart.c:803-822 | the chart part is a nine-event head, the series blocks, then a tail that depends only on the axis ids |
| ChartLinks.DocumentLength | src/chart.c:803-822 | the chart part has 9 events per series on top of its fixed parts |
| ChartLinks.BlockBehindHead | src/chart.c:731-734 | behind a nine-event head, the i-th series block occupies events 9+9i to 18+9i |
| ChartLinks.SerElementParts | src/chart.c:273-290 | inside a `c:ser` block, events 1, 2 and 5 are idx, order and f |
| ChartLinks.DocumentSerAt | src/chart.c:273-290 | in the chart part, the i-th `c:ser` is the i-th series; its idx and order both hold k+i modulo 2^16, and its `c:f` holds the series' range |
| ChartLinks.SerElementsNameNoAxis | src/chart.c:273-290 | no series block names an axis id |
| ChartLinks.CatAxLinks | src/chart.c:628-641 | `c:catAx` declares exactly the first axis id and crosses exactly to the second |
| ChartLinks.ValAxLinks | src/chart.c:665-680 | `c:valAx` declares exactly the second axis id and crosses exactly to the first |
| ChartLinks.FixedPartsNameNoAxis | src/chart.c:516-612 | the head, the legend and the print settings name no axis id |
| ChartLinks.TailLinks | src/chart.c:718-798 | the tail of the chart part declares and crosses to exactly the two axis ids |
| ChartLinks.AxesCrossLinked | src/chart.c:623-740 | in the whole chart part, the ids declared by `c:axId` and the ids crossed to by `c:crossAx` are both exactly the two axis ids |
| ChartCounters.AxisIdsWrittenOnce | src/chart.c:191-229 | below the wrap-around, the first axis-id write sets both ids to 50010000 + id + 1; ids already set are kept; a second write changes nothing |
| ChartCounters.AxisIdWrapsToZero | src/chart.c:191-229 | for id = 2^32 − 50010001 the allocated ids wrap to 0, so they would be allocated again on every write |
| ChartCounters.FirstAssemblyNumbering | src/chart.c:157-186 | on a new chart's first assembly, the i-th `c:ser` carries idx and order equal to i, for up to 2^16 series |
| ChartCounters.ReassemblyNumbering | src/chart.c:273-290 | assembling again without a reset numbers the first `c:ser` with the series count, not with 0 |

## Left out

- The XML writer's internals: escaping, attribute formatting, indentation and the `FILE *` stream. Output is modelled as the sequence of writer calls. `Xml.Event` carries each call's element name, attributes and text.
- `lxw_chart_free` (src/chart.c:48-70) and all memory management: freeing, and the ownership of the series strings.
- `lxw_chart_new`'s NULL return when `calloc` fails. `Charts.Chart.constructor` always succeeds.
- The unchecked result of `lxw_strdup` in `chart_add_series`. The copied range and sheet name are modelled as copied, not as possibly NULL.
- The warning `chart_add_series` prints for a NULL series, and the one it prints when it runs out of memory. Only the -1 return is modelled.
- Which fields of a series other than `range` and `sheetname` get copied, and the `memcpy` of the list-link pointers. The list is a `seq`, so there are no links and no aliasing.
- `src/chart.h`, which gives `lxw_chart` its field types, is not part of this model. The field widths are therefore assumed: `uint16_t` for `series_index` and `uint32_t` for `id`, `axis_id_1` and `axis_id_2`. The code fixes only the width of the index it writes (src/chart.c:158, 175, 276) and of the axis-id arithmetic (src/chart.c:194-197, 205).
- Charts.Chart.AddSeries: allocation failure is an input flag (`outOfMemory`), not a real allocator. The contract covers both outcomes for either value.
