/**
 * The chart object of src/chart.c: its series list, its series counter, its
 * lazily allocated axis ids and its output stream, and the writers that
 * append the chart part to that stream one event at a time.
 *
 * Each writer is proved to append exactly the events of the element function
 * of the same name in ChartElements; what those events look like is proved in
 * ChartShape and ChartLinks.
 */
module Charts {
  import opened Options
  import opened Xml
  import opened ChartElements

  class Chart {
    /** The series list, in insertion order. */
    var series: seq<Series>
    /** The counter that numbers the `c:ser` blocks; it is never reset. */
    var seriesIndex: uint16
    var axisId1: uint32
    var axisId2: uint32
    /** The chart's number within its workbook, set by the caller after creation. */
    var id: uint32
    /** Everything written to the output stream so far. */
    var file: seq<Event<Tag>>

    /** A new chart: every field zero, as calloc leaves it, and an empty series list. */
    constructor ()
      ensures series == [] && seriesIndex == 0 && axisId1 == 0 && axisId2 == 0 && id == 0 && file == []
    {
      series := [];
      seriesIndex := 0;
      axisId1 := 0;
      axisId2 := 0;
      id := 0;
      file := [];
    }

    /**
     * Every field but the output stream. The composite writers snapshot it
     * between calls to spell out for the prover what each call leaves alone.
     */
    ghost function Settled(): (seq<Series>, uint32, uint16, uint32, uint32)
      reads this
    {
      (series, id, seriesIndex, axisId1, axisId2)
    }

    // The XML writer calls: each appends one event to the stream.

    method Declaration()
      modifies this`file
      ensures file == old(file) + [Decl]
    {
      file := file + [Decl];
    }

    method StartTag(name: Tag, attrs: seq<Attribute>)
      modifies this`file
      ensures file == old(file) + [Start(name, attrs)]
    {
      file := file + [Start(name, attrs)];
    }

    method EndTag(name: Tag)
      modifies this`file
      ensures file == old(file) + [End(name)]
    {
      file := file + [End(name)];
    }

    method EmptyTag(name: Tag, attrs: seq<Attribute>)
      modifies this`file
      ensures file == old(file) + [Empty(name, attrs)]
    {
      file := file + [Empty(name, attrs)];
    }

    method DataElement(name: Tag, text: Option<string>)
      modifies this`file
      ensures file == old(file) + [Data(name, text)]
    {
      file := file + [Data(name, text)];
    }

    // The fixed leaf writers.

    method WriteChartSpace()
      modifies this`file
      ensures file == old(file) + [Start(chartSpace, ChartSpaceNamespaces())]
    {
      StartTag(chartSpace, ChartSpaceNamespaces());
    }

    method WriteLang()
      modifies this`file
      ensures file == old(file) + [LangTag()]
    {
      EmptyTag(lang, ValStr("en-US"));
    }

    method WriteLayout()
      modifies this`file
      ensures file == old(file) + [LayoutTag()]
    {
      EmptyTag(layout, []);
    }

    method WriteGrouping()
      modifies this`file
      ensures file == old(file) + [GroupingTag()]
    {
      EmptyTag(grouping, ValStr("clustered"));
    }

    method WriteIdx(index: uint16)
      modifies this`file
      ensures file == old(file) + [IdxTag(index)]
    {
      EmptyTag(idx, ValInt(index));
    }

    method WriteOrder(index: uint16)
      modifies this`file
      ensures file == old(file) + [OrderTag(index)]
    {
      EmptyTag(order, ValInt(index));
    }

    method WriteAxisId(axisId: uint32)
      modifies this`file
      ensures file == old(file) + [AxIdTag(axisId)]
    {
      EmptyTag(axId, ValInt(axisId));
    }

    method WriteOrientation()
      modifies this`file
      ensures file == old(file) + [OrientationTag()]
    {
      EmptyTag(orientation, ValStr("minMax"));
    }

    method WriteAxisPos(position: string)
      modifies this`file
      ensures file == old(file) + [AxPosTag(position)]
    {
      EmptyTag(axPos, ValStr(position));
    }

    method WriteTickLblPos()
      modifies this`file
      ensures file == old(file) + [TickLblPosTag()]
    {
      EmptyTag(tickLblPos, ValStr("nextTo"));
    }

    method WriteCrossAxis(axisId: uint32)
      modifies this`file
      ensures file == old(file) + [CrossAxTag(axisId)]
    {
      EmptyTag(crossAx, ValInt(axisId));
    }

    method WriteCrosses()
      modifies this`file
      ensures file == old(file) + [CrossesTag()]
    {
      EmptyTag(crosses, ValStr("autoZero"));
    }

    method WriteAuto()
      modifies this`file
      ensures file == old(file) + [AutoTag()]
    {
      EmptyTag(auto, ValStr("1"));
    }

    method WriteLblAlgn()
      modifies this`file
      ensures file == old(file) + [LblAlgnTag()]
    {
      EmptyTag(lblAlgn, ValStr("ctr"));
    }

    method WriteLblOffset()
      modifies this`file
      ensures file == old(file) + [LblOffsetTag()]
    {
      EmptyTag(lblOffset, ValStr("100"));
    }

    method WriteMajorGridlines()
      modifies this`file
      ensures file == old(file) + [MajorGridlinesTag()]
    {
      EmptyTag(majorGridlines, []);
    }

    method WriteNumFmt()
      modifies this`file
      ensures file == old(file) + [NumFmtTag()]
    {
      EmptyTag(numFmt, [Attribute("formatCode", Str("General")), Attribute("sourceLinked", Str("1"))]);
    }

    method WriteCrossBetween()
      modifies this`file
      ensures file == old(file) + [CrossBetweenTag()]
    {
      EmptyTag(crossBetween, ValStr("between"));
    }

    method WriteLegendPos()
      modifies this`file
      ensures file == old(file) + [LegendPosTag()]
    {
      EmptyTag(legendPos, ValStr("r"));
    }

    method WritePlotVisOnly()
      modifies this`file
      ensures file == old(file) + [PlotVisOnlyTag()]
    {
      EmptyTag(plotVisOnly, ValStr("1"));
    }

    method WriteHeaderFooter()
      modifies this`file
      ensures file == old(file) + [HeaderFooterTag()]
    {
      EmptyTag(headerFooter, []);
    }

    method WritePageMargins()
      modifies this`file
      ensures file == old(file) + [PageMarginsTag()]
    {
      EmptyTag(pageMargins, [Attribute("b", Str("0.75")), Attribute("l", Str("0.7")), Attribute("r", Str("0.7")),
                             Attribute("t", Str("0.75")), Attribute("header", Str("0.3")), Attribute("footer", Str("0.3"))]);
    }

    method WritePageSetup()
      modifies this`file
      ensures file == old(file) + [PageSetupTag()]
    {
      EmptyTag(pageSetup, []);
    }

    method WriteBarDir()
      modifies this`file
      ensures file == old(file) + [BarDirTag()]
    {
      EmptyTag(barDir, ValStr("bar"));
    }

    // The axis ids.

    /** Both axis ids become 50010000 + id + 1, computed in uint32_t. */
    method AddAxisIds()
      modifies this`axisId1, this`axisId2
      ensures axisId1 == AxisIdFor(id) && axisId2 == AxisIdFor(id)
    {
      var chartId: uint32 := (AxisIdBase + id) % 0x1_0000_0000;
      var axisCount: uint32 := 1;
      axisId1 := (chartId + axisCount) % 0x1_0000_0000;
      axisId2 := axisId1;
    }

    /** Allocates the axis ids if the first one is still zero, then writes both. */
    method WriteAxisIds()
      modifies this`file, this`axisId1, this`axisId2
      ensures (axisId1, axisId2) == AxisIdsAfter(old(axisId1), old(axisId2), id)
      ensures file == old(file) + [AxIdTag(axisId1), AxIdTag(axisId2)]
    {
      if axisId1 == 0 {
        AddAxisIds();
      }
      WriteAxisId(axisId1);
      WriteAxisId(axisId2);
    }

    // The series blocks.

    /** The range pointer is passed on as it is, NULL included. */
    method WriteF(range: Option<string>)
      modifies this`file
      ensures file == old(file) + [FTag(range)]
    {
      DataElement(f, range);
    }

    method WriteNumRef(range: Option<string>)
      modifies this`file
      ensures file == old(file) + NumRefElement(range)
    {
      StartTag(numRef, []);
      WriteF(range);
      EndTag(numRef);
    }

    method WriteVal(s: Series)
      modifies this`file
      ensures file == old(file) + ValElement(s)
    {
      StartTag(val, []);
      WriteNumRef(s.range);
      EndTag(val);
    }

    /** Numbers the block with the counter and post-increments it, wrapping at 2^16. */
    method WriteSer(s: Series)
      modifies this`file, this`seriesIndex
      ensures seriesIndex == Advance(old(seriesIndex), 1)
      ensures file == old(file) + SerElement(old(seriesIndex), s)
    {
      ghost var f0 := file;
      var index := seriesIndex;
      seriesIndex := (seriesIndex + 1) % 0x1_0000;
      StartTag(ser, []);
      ghost var f1 := file;
      WriteIdx(index);
      ghost var f2 := file;
      WriteOrder(index);
      ghost var f3 := file;
      WriteVal(s);
      ghost var f4 := file;
      EndTag(ser);
      Chain5(f0, f1, f2, f3, f4, file, [Start(ser, [])], [IdxTag(index)], [OrderTag(index)], ValElement(s), [End(ser)]);
    }

    /** One `c:ser` block per series, in list order, then the axis ids. */
    method WriteBarChart()
      modifies this`file, this`seriesIndex, this`axisId1, this`axisId2
      ensures seriesIndex == Advance(old(seriesIndex), |series|)
      ensures (axisId1, axisId2) == AxisIdsAfter(old(axisId1), old(axisId2), id)
      ensures file == old(file) + BarChartElement(old(seriesIndex), series, axisId1, axisId2)
    {
      ghost var f0, k, before := file, seriesIndex, Settled();
      StartTag(barChart, []);
      ghost var f1 := file;
      assert Settled() == before;
      WriteBarDir();
      ghost var f2 := file;
      assert Settled() == before;
      WriteGrouping();
      ghost var f3 := file;
      assert Settled() == before;
      for i := 0 to |series|
        invariant seriesIndex == Advance(k, i)
        invariant file == f3 + SerElements(k, series[..i])
        invariant axisId1 == old(axisId1) && axisId2 == old(axisId2)
      {
        AdvanceStep(k, i);
        WriteSer(series[i]);
        calc {
          file;
          f3 + SerElements(k, series[..i]) + SerElement(Advance(k, i), series[i]);
          { Associate2(f3, SerElements(k, series[..i]), SerElement(Advance(k, i), series[i])); }
          f3 + (SerElements(k, series[..i]) + SerElement(Advance(k, i), series[i]));
          { SerElementsSnoc(k, series, i); }
          f3 + SerElements(k, series[..i + 1]);
        }
      }
      assert series[..|series|] == series;
      ghost var f4 := file;
      assert series == old(series) && id == old(id);
      WriteAxisIds();
      ghost var f5, settled := file, Settled();
      assert series == old(series) && id == old(id);
      EndTag(barChart);
      assert Settled() == settled;
      assert file == f0 + BarChartElement(k, series, axisId1, axisId2) by {
        Chain6(f0, f1, f2, f3, f4, f5, file,
               [Start(barChart, [])], [BarDirTag()], [GroupingTag()], SerElements(k, series),
               [AxIdTag(axisId1), AxIdTag(axisId2)], [End(barChart)]);
        BarChartPieces(k, series, axisId1, axisId2);
      }
    }

    method WriteChartType()
      modifies this`file, this`seriesIndex, this`axisId1, this`axisId2
      ensures seriesIndex == Advance(old(seriesIndex), |series|)
      ensures (axisId1, axisId2) == AxisIdsAfter(old(axisId1), old(axisId2), id)
      ensures file == old(file) + BarChartElement(old(seriesIndex), series, axisId1, axisId2)
    {
      WriteBarChart();
    }

    // The axes.

    method WriteScaling()
      modifies this`file
      ensures file == old(file) + ScalingElement()
    {
      StartTag(scaling, []);
      WriteOrientation();
      EndTag(scaling);
    }

    method WriteCatAxis()
      modifies this`file
      ensures file == old(file) + CatAxElement(axisId1, axisId2)
    {
      ghost var f0 := file;
      StartTag(catAx, []);
      ghost var f1 := file;
      WriteAxisId(axisId1);
      ghost var f2 := file;
      WriteScaling();
      ghost var f3 := file;
      WriteAxisPos("l");
      ghost var f4 := file;
      WriteTickLblPos();
      ghost var f5 := file;
      WriteCrossAxis(axisId2);
      ghost var f6 := file;
      WriteCrosses();
      ghost var f7 := file;
      WriteAuto();
      ghost var f8 := file;
      WriteLblAlgn();
      ghost var f9 := file;
      WriteLblOffset();
      ghost var f10 := file;
      EndTag(catAx);
      assert file == f0 + CatAxElement(axisId1, axisId2) by {
        Chain11(f0, f1, f2, f3, f4, f5, f6, f7, f8, f9, f10, file,
                [Start(catAx, [])], [AxIdTag(axisId1)], ScalingElement(), [AxPosTag("l")], [TickLblPosTag()],
                [CrossAxTag(axisId2)], [CrossesTag()], [AutoTag()], [LblAlgnTag()], [LblOffsetTag()], [End(catAx)]);
        CatAxPieces(axisId1, axisId2);
      }
    }

    method WriteValAx()
      modifies this`file
      ensures file == old(file) + ValAxElement(axisId1, axisId2)
    {
      ghost var f0 := file;
      StartTag(valAx, []);
      ghost var f1 := file;
      WriteAxisId(axisId2);
      ghost var f2 := file;
      WriteScaling();
      ghost var f3 := file;
      WriteAxisPos("b");
      ghost var f4 := file;
      WriteMajorGridlines();
      ghost var f5 := file;
      WriteNumFmt();
      ghost var f6 := file;
      WriteTickLblPos();
      ghost var f7 := file;
      WriteCrossAxis(axisId1);
      ghost var f8 := file;
      WriteCrosses();
      ghost var f9 := file;
      WriteCrossBetween();
      ghost var f10 := file;
      EndTag(valAx);
      assert file == f0 + ValAxElement(axisId1, axisId2) by {
        Chain11(f0, f1, f2, f3, f4, f5, f6, f7, f8, f9, f10, file,
                [Start(valAx, [])], [AxIdTag(axisId2)], ScalingElement(), [AxPosTag("b")], [MajorGridlinesTag()],
                [NumFmtTag()], [TickLblPosTag()], [CrossAxTag(axisId1)], [CrossesTag()], [CrossBetweenTag()], [End(valAx)]);
        ValAxPieces(axisId1, axisId2);
      }
    }

    // The enclosing elements.

    /** Opens `c:plotArea` and leaves it open: WriteChart closes it after the axes. */
    method WritePlotArea()
      modifies this`file, this`seriesIndex, this`axisId1, this`axisId2
      ensures seriesIndex == Advance(old(seriesIndex), |series|)
      ensures (axisId1, axisId2) == AxisIdsAfter(old(axisId1), old(axisId2), id)
      ensures file == old(file) + PlotAreaOpening(old(seriesIndex), series, axisId1, axisId2)
    {
      ghost var f0, k, before := file, seriesIndex, Settled();
      StartTag(plotArea, []);
      ghost var f1 := file;
      assert Settled() == before;
      WriteLayout();
      ghost var f2 := file;
      assert Settled() == before;
      WriteChartType();
      assert series == old(series) && id == old(id);
      assert file == f0 + PlotAreaOpening(k, series, axisId1, axisId2) by {
        Chain3(f0, f1, f2, file, [Start(plotArea, [])], [LayoutTag()], BarChartElement(k, series, axisId1, axisId2));
        PlotAreaPieces(k, series, axisId1, axisId2);
      }
    }

    method WriteLegend()
      modifies this`file
      ensures file == old(file) + LegendElement()
    {
      StartTag(legend, []);
      WriteLegendPos();
      WriteLayout();
      EndTag(legend);
    }

    method WriteChart()
      modifies this`file, this`seriesIndex, this`axisId1, this`axisId2
      ensures seriesIndex == Advance(old(seriesIndex), |series|)
      ensures (axisId1, axisId2) == AxisIdsAfter(old(axisId1), old(axisId2), id)
      ensures file == old(file) + ChartElement(old(seriesIndex), series, axisId1, axisId2)
    {
      ghost var f0, k := file, seriesIndex;
      StartTag(chart, []);
      ghost var f1 := file;
      assert series == old(series) && id == old(id);
      WritePlotArea();
      ghost var f2, settled := file, Settled();
      assert series == old(series) && id == old(id);
      WriteCatAxis();
      ghost var f3 := file;
      assert Settled() == settled;
      WriteValAx();
      ghost var f4 := file;
      assert Settled() == settled;
      EndTag(plotArea);
      ghost var f5 := file;
      assert Settled() == settled;
      WriteLegend();
      ghost var f6 := file;
      assert Settled() == settled;
      WritePlotVisOnly();
      ghost var f7 := file;
      assert Settled() == settled;
      EndTag(chart);
      assert Settled() == settled;
      assert file == f0 + ChartElement(k, series, axisId1, axisId2) by {
        Chain8(f0, f1, f2, f3, f4, f5, f6, f7, file,
               [Start(chart, [])], PlotAreaOpening(k, series, axisId1, axisId2), CatAxElement(axisId1, axisId2),
               ValAxElement(axisId1, axisId2), [End(plotArea)], LegendElement(), [PlotVisOnlyTag()], [End(chart)]);
        ChartPieces(k, series, axisId1, axisId2);
      }
    }

    method WritePrintSettings()
      modifies this`file
      ensures file == old(file) + PrintSettingsElement()
    {
      StartTag(printSettings, []);
      WriteHeaderFooter();
      WritePageMargins();
      WritePageSetup();
      EndTag(printSettings);
    }

    /**
     * Writes the whole chart part. The series are numbered from the current
     * counter value, which is 0 only on the first assembly of a new chart.
     */
    method AssembleXmlFile()
      modifies this`file, this`seriesIndex, this`axisId1, this`axisId2
      ensures seriesIndex == Advance(old(seriesIndex), |series|)
      ensures (axisId1, axisId2) == AxisIdsAfter(old(axisId1), old(axisId2), id)
      ensures file == old(file) + ChartDocument(old(seriesIndex), series, axisId1, axisId2)
    {
      ghost var f0, k, before := file, seriesIndex, Settled();
      Declaration();
      ghost var f1 := file;
      assert Settled() == before;
      WriteChartSpace();
      ghost var f2 := file;
      assert Settled() == before;
      WriteLang();
      ghost var f3 := file;
      assert Settled() == before;
      WriteChart();
      ghost var f4, settled := file, Settled();
      assert series == old(series) && id == old(id);
      WritePrintSettings();
      ghost var f5 := file;
      assert Settled() == settled;
      EndTag(chartSpace);
      assert Settled() == settled;
      assert file == f0 + ChartDocument(k, series, axisId1, axisId2) by {
        Chain6(f0, f1, f2, f3, f4, f5, file,
               [Decl], [Start(chartSpace, ChartSpaceNamespaces())], [LangTag()], ChartElement(k, series, axisId1, axisId2),
               PrintSettingsElement(), [End(chartSpace)]);
        DocumentPieces(k, series, axisId1, axisId2);
      }
    }

    // The public interface.

    /**
     * Appends a copy of the template at the tail of the series list and
     * returns 0. A missing template (a NULL pointer) is refused with -1, and
     * so is a failed allocation, which `outOfMemory` stands for; the list is
     * then unchanged. The template's range is not inspected.
     */
    method AddSeries(template: Option<Series>, outOfMemory: bool) returns (rc: int)
      modifies this`series
      ensures rc == (if template.None? || outOfMemory then -1 else 0)
      ensures rc == 0 ==> series == old(series) + [Series(template.value.range, template.value.sheetname)]
      ensures rc != 0 ==> series == old(series)
    {
      if template.None? {
        return -1;
      }
      if outOfMemory {
        return -1;
      }
      var copy := Series(template.value.range, template.value.sheetname);
      series := series + [copy];
      return 0;
    }
  }

  /** One more post-increment of the counter. */
  lemma AdvanceStep(k: uint16, i: nat)
    ensures Advance(k, i + 1) == (Advance(k, i) + 1) % 0x1_0000
  {
  }

  /** The blocks of one more series are the blocks so far followed by its own. */
  lemma SerElementsSnoc(k: uint16, ss: seq<Series>, i: nat)
    requires i < |ss|
    ensures SerElements(k, ss[..i + 1]) == SerElements(k, ss[..i]) + SerElement(Advance(k, i), ss[i])
  {
    assert ss[..i + 1][..i] == ss[..i];
  }

  // The element functions cut into the pieces that the writers append one call at a time.
  // These, and the regrouping and chaining lemmas below, hold by the definitions alone;
  // stating them once keeps the proofs of the composite writers small, since the prover
  // then need not rediscover the regrouping of long concatenations in every method.

  lemma BarChartPieces(k: uint16, ss: seq<Series>, axisId1: uint32, axisId2: uint32)
    ensures BarChartElement(k, ss, axisId1, axisId2) ==
            [Start(barChart, [])] + [BarDirTag()] + [GroupingTag()] + SerElements(k, ss) +
            [AxIdTag(axisId1), AxIdTag(axisId2)] + [End(barChart)]
  {
  }

  lemma PlotAreaPieces(k: uint16, ss: seq<Series>, axisId1: uint32, axisId2: uint32)
    ensures PlotAreaOpening(k, ss, axisId1, axisId2) ==
            [Start(plotArea, [])] + [LayoutTag()] + BarChartElement(k, ss, axisId1, axisId2)
  {
  }

  lemma CatAxPieces(axisId1: uint32, axisId2: uint32)
    ensures CatAxElement(axisId1, axisId2) ==
            [Start(catAx, [])] + [AxIdTag(axisId1)] + ScalingElement() + [AxPosTag("l")] + [TickLblPosTag()] +
            [CrossAxTag(axisId2)] + [CrossesTag()] + [AutoTag()] + [LblAlgnTag()] + [LblOffsetTag()] + [End(catAx)]
  {
  }

  lemma ValAxPieces(axisId1: uint32, axisId2: uint32)
    ensures ValAxElement(axisId1, axisId2) ==
            [Start(valAx, [])] + [AxIdTag(axisId2)] + ScalingElement() + [AxPosTag("b")] + [MajorGridlinesTag()] +
            [NumFmtTag()] + [TickLblPosTag()] + [CrossAxTag(axisId1)] + [CrossesTag()] + [CrossBetweenTag()] + [End(valAx)]
  {
  }

  lemma ChartPieces(k: uint16, ss: seq<Series>, axisId1: uint32, axisId2: uint32)
    ensures ChartElement(k, ss, axisId1, axisId2) ==
            [Start(chart, [])] + PlotAreaOpening(k, ss, axisId1, axisId2) + CatAxElement(axisId1, axisId2) +
            ValAxElement(axisId1, axisId2) + [End(plotArea)] + LegendElement() + [PlotVisOnlyTag()] + [End(chart)]
  {
  }

  lemma DocumentPieces(k: uint16, ss: seq<Series>, axisId1: uint32, axisId2: uint32)
    ensures ChartDocument(k, ss, axisId1, axisId2) ==
            [Decl] + [Start(chartSpace, ChartSpaceNamespaces())] + [LangTag()] + ChartElement(k, ss, axisId1, axisId2) +
            PrintSettingsElement() + [End(chartSpace)]
  {
  }

  // Regrouping a stream extended by two appends.

  lemma Associate2<T>(f: seq<T>, p1: seq<T>, p2: seq<T>)
    ensures f + p1 + p2 == f + (p1 + p2)
  {
  }

  // Chaining the snapshots of a stream taken after each of several appends.

  lemma Chain3<T>(f0: seq<T>, f1: seq<T>, f2: seq<T>, f3: seq<T>, p1: seq<T>, p2: seq<T>, p3: seq<T>)
    requires f1 == f0 + p1 && f2 == f1 + p2 && f3 == f2 + p3
    ensures f3 == f0 + (p1 + p2 + p3)
  {
  }

  lemma Chain5<T>(f0: seq<T>, f1: seq<T>, f2: seq<T>, f3: seq<T>, f4: seq<T>, f5: seq<T>,
                  p1: seq<T>, p2: seq<T>, p3: seq<T>, p4: seq<T>, p5: seq<T>)
    requires f1 == f0 + p1 && f2 == f1 + p2 && f3 == f2 + p3 && f4 == f3 + p4 && f5 == f4 + p5
    ensures f5 == f0 + (p1 + p2 + p3 + p4 + p5)
  {
  }

  lemma Chain6<T>(f0: seq<T>, f1: seq<T>, f2: seq<T>, f3: seq<T>, f4: seq<T>, f5: seq<T>, f6: seq<T>,
                  p1: seq<T>, p2: seq<T>, p3: seq<T>, p4: seq<T>, p5: seq<T>, p6: seq<T>)
    requires f1 == f0 + p1 && f2 == f1 + p2 && f3 == f2 + p3
    requires f4 == f3 + p4 && f5 == f4 + p5 && f6 == f5 + p6
    ensures f6 == f0 + (p1 + p2 + p3 + p4 + p5 + p6)
  {
  }

  lemma Chain8<T>(f0: seq<T>, f1: seq<T>, f2: seq<T>, f3: seq<T>, f4: seq<T>, f5: seq<T>, f6: seq<T>, f7: seq<T>,
                  f8: seq<T>, p1: seq<T>, p2: seq<T>, p3: seq<T>, p4: seq<T>, p5: seq<T>, p6: seq<T>, p7: seq<T>,
                  p8: seq<T>)
    requires f1 == f0 + p1 && f2 == f1 + p2 && f3 == f2 + p3 && f4 == f3 + p4
    requires f5 == f4 + p5 && f6 == f5 + p6 && f7 == f6 + p7 && f8 == f7 + p8
    ensures f8 == f0 + (p1 + p2 + p3 + p4 + p5 + p6 + p7 + p8)
  {
  }

  lemma Chain11<T>(f0: seq<T>, f1: seq<T>, f2: seq<T>, f3: seq<T>, f4: seq<T>, f5: seq<T>, f6: seq<T>, f7: seq<T>,
                   f8: seq<T>, f9: seq<T>, f10: seq<T>, f11: seq<T>,
                   p1: seq<T>, p2: seq<T>, p3: seq<T>, p4: seq<T>, p5: seq<T>, p6: seq<T>, p7: seq<T>, p8: seq<T>,
                   p9: seq<T>, p10: seq<T>, p11: seq<T>)
    requires f1 == f0 + p1 && f2 == f1 + p2 && f3 == f2 + p3 && f4 == f3 + p4
    requires f5 == f4 + p5 && f6 == f5 + p6 && f7 == f6 + p7 && f8 == f7 + p8
    requires f9 == f8 + p9 && f10 == f9 + p10 && f11 == f10 + p11
    ensures f11 == f0 + (p1 + p2 + p3 + p4 + p5 + p6 + p7 + p8 + p9 + p10 + p11)
  {
  }
}
