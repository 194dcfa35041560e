/**
 * Where the series blocks sit in the chart part, which counter values they
 * carry, and how the axis ids link `c:barChart`, `c:catAx` and `c:valAx`.
 */
module ChartLinks {
  import opened Options
  import opened Xml
  import opened ChartElements
  import opened ChartShape

  /** The nine events before the first `c:ser` block: everything up to `c:grouping`. */
  function DocumentHead(): seq<Event<Tag>> {
    [Decl, Start(chartSpace, ChartSpaceNamespaces()), LangTag(), Start(chart, []),
     Start(plotArea, []), LayoutTag(), Start(barChart, []), BarDirTag(), GroupingTag()]
  }

  /** Everything in `c:chart` after the last `c:ser` block. */
  function ChartTail(axisId1: uint32, axisId2: uint32): seq<Event<Tag>> {
    [AxIdTag(axisId1), AxIdTag(axisId2)] + [End(barChart)] +
    CatAxElement(axisId1, axisId2) + ValAxElement(axisId1, axisId2) + [End(plotArea)] +
    LegendElement() + [PlotVisOnlyTag()] + [End(chart)]
  }

  /** Everything in the chart part after the last `c:ser` block. */
  function DocumentTail(axisId1: uint32, axisId2: uint32): seq<Event<Tag>> {
    ChartTail(axisId1, axisId2) + PrintSettingsElement() + [End(chartSpace)]
  }

  // Regrouping a concatenation around a middle part `s`. These hold by the definitions of
  // `+` and slicing alone; they are stated separately so that the lemmas about the whole
  // chart part each need only a few small regrouping steps.

  lemma WrapAround(name: Tag, attrs: seq<Attribute>, q: seq<Event<Tag>>, s: seq<Event<Tag>>, r: seq<Event<Tag>>)
    ensures Wrap(name, attrs, q + s + r) == ([Start(name, attrs)] + q) + s + (r + [End(name)])
  {
  }

  lemma Extend(a: seq<Event<Tag>>, s: seq<Event<Tag>>, b: seq<Event<Tag>>, w: seq<Event<Tag>>)
    ensures (a + s + b) + w == a + s + (b + w)
  {
  }

  lemma Prepend(p: seq<Event<Tag>>, a: seq<Event<Tag>>, s: seq<Event<Tag>>, b: seq<Event<Tag>>)
    ensures p + (a + s + b) == (p + a) + s + b
  {
  }

  lemma MiddleSlice(h: seq<Event<Tag>>, m: seq<Event<Tag>>, t: seq<Event<Tag>>, lo: nat, hi: nat)
    requires lo <= hi <= |m|
    ensures (h + m + t)[|h| + lo .. |h| + hi] == m[lo .. hi]
  {
  }

  /** What the plot area writer emits is a fixed head, the series blocks, and the axis ids that close `c:barChart`. */
  lemma PlotAreaAroundSeries(k: uint16, ss: seq<Series>, axisId1: uint32, axisId2: uint32)
    ensures PlotAreaOpening(k, ss, axisId1, axisId2) ==
            [Start(plotArea, []), LayoutTag(), Start(barChart, []), BarDirTag(), GroupingTag()] +
            SerElements(k, ss) + ([AxIdTag(axisId1), AxIdTag(axisId2)] + [End(barChart)])
  {
    var s := SerElements(k, ss);
    var h1 := [Start(barChart, [])] + [BarDirTag(), GroupingTag()];
    var t1 := [AxIdTag(axisId1), AxIdTag(axisId2)] + [End(barChart)];
    WrapAround(barChart, [], [BarDirTag(), GroupingTag()], s, [AxIdTag(axisId1), AxIdTag(axisId2)]);
    Prepend([Start(plotArea, []), LayoutTag()], h1, s, t1);
    assert [Start(plotArea, []), LayoutTag()] + h1 ==
           [Start(plotArea, []), LayoutTag(), Start(barChart, []), BarDirTag(), GroupingTag()];
  }

  /** The `c:chart` element is a fixed head, the series blocks, and a tail that depends only on the axis ids. */
  lemma ChartAroundSeries(k: uint16, ss: seq<Series>, axisId1: uint32, axisId2: uint32)
    ensures ChartElement(k, ss, axisId1, axisId2) ==
            [Start(chart, []), Start(plotArea, []), LayoutTag(), Start(barChart, []), BarDirTag(), GroupingTag()] +
            SerElements(k, ss) + ChartTail(axisId1, axisId2)
  {
    var s := SerElements(k, ss);
    var catEvents := CatAxElement(axisId1, axisId2);
    var valEvents := ValAxElement(axisId1, axisId2);
    var h2 := [Start(plotArea, []), LayoutTag(), Start(barChart, []), BarDirTag(), GroupingTag()];
    var t1 := [AxIdTag(axisId1), AxIdTag(axisId2)] + [End(barChart)];
    PlotAreaAroundSeries(k, ss, axisId1, axisId2);
    Extend(h2, s, t1, catEvents);
    Extend(h2, s, t1 + catEvents, valEvents);
    Extend(h2, s, t1 + catEvents + valEvents, [End(plotArea)]);
    Extend(h2, s, t1 + catEvents + valEvents + [End(plotArea)], LegendElement());
    var t2 := t1 + catEvents + valEvents + [End(plotArea)] + LegendElement();
    Extend(h2, s, t2, [PlotVisOnlyTag()]);
    WrapAround(chart, [], h2, s, t2 + [PlotVisOnlyTag()]);
    assert [Start(chart, [])] + h2 ==
           [Start(chart, []), Start(plotArea, []), LayoutTag(), Start(barChart, []), BarDirTag(), GroupingTag()];
  }

  /** The chart part is a fixed head, the series blocks, and a tail that depends only on the axis ids. */
  lemma DocumentAroundSeries(k: uint16, ss: seq<Series>, axisId1: uint32, axisId2: uint32)
    ensures ChartDocument(k, ss, axisId1, axisId2) == DocumentHead() + SerElements(k, ss) + DocumentTail(axisId1, axisId2)
  {
    var s := SerElements(k, ss);
    var h3 := [Start(chart, []), Start(plotArea, []), LayoutTag(), Start(barChart, []), BarDirTag(), GroupingTag()];
    var t3 := ChartTail(axisId1, axisId2);
    ChartAroundSeries(k, ss, axisId1, axisId2);
    Prepend([LangTag()], h3, s, t3);
    Extend([LangTag()] + h3, s, t3, PrintSettingsElement());
    WrapAround(chartSpace, ChartSpaceNamespaces(), [LangTag()] + h3, s, t3 + PrintSettingsElement());
    var h4 := [Start(chartSpace, ChartSpaceNamespaces())] + ([LangTag()] + h3);
    Prepend([Decl], h4, s, t3 + PrintSettingsElement() + [End(chartSpace)]);
    assert [Decl] + h4 == DocumentHead();
  }

  lemma DocumentLength(k: uint16, ss: seq<Series>, axisId1: uint32, axisId2: uint32)
    ensures |ChartDocument(k, ss, axisId1, axisId2)| == 9 + 9 * |ss| + |DocumentTail(axisId1, axisId2)|
  {
    DocumentAroundSeries(k, ss, axisId1, axisId2);
    SerElementsShape(k, ss);
  }

  /** Behind a nine-event head, the i-th series block starts at 9 + 9 * i, whatever follows the blocks. */
  lemma BlockBehindHead(head: seq<Event<Tag>>, k: uint16, ss: seq<Series>, tail: seq<Event<Tag>>, i: nat)
    requires |head| == 9 && i < |ss|
    ensures 18 + 9 * i <= |head + SerElements(k, ss) + tail|
    ensures (head + SerElements(k, ss) + tail)[9 + 9 * i .. 18 + 9 * i] == SerElement(Advance(k, i), ss[i])
  {
    SerElementsShape(k, ss);
    SerElementAt(k, ss, i);
    MiddleSlice(head, SerElements(k, ss), tail, 9 * i, 9 * i + 9);
  }

  lemma SerElementParts(block: seq<Event<Tag>>, index: uint16, s: Series)
    requires block == SerElement(index, s)
    ensures |block| == 9 && block[1] == IdxTag(index) && block[2] == OrderTag(index) && block[5] == FTag(s.range)
  {
  }

  /**
   * The i-th block of the chart part is the i-th series' `c:ser`: its `c:idx`
   * and `c:order` both hold the counter advanced i times, and its `c:f` holds
   * the series' range.
   */
  lemma DocumentSerAt(k: uint16, ss: seq<Series>, axisId1: uint32, axisId2: uint32, i: nat)
    requires i < |ss|
    ensures 18 + 9 * i <= |ChartDocument(k, ss, axisId1, axisId2)|
    ensures ChartDocument(k, ss, axisId1, axisId2)[9 + 9 * i .. 18 + 9 * i] == SerElement(Advance(k, i), ss[i])
    ensures ChartDocument(k, ss, axisId1, axisId2)[10 + 9 * i] == IdxTag(Advance(k, i))
    ensures ChartDocument(k, ss, axisId1, axisId2)[11 + 9 * i] == OrderTag(Advance(k, i))
    ensures ChartDocument(k, ss, axisId1, axisId2)[14 + 9 * i] == FTag(ss[i].range)
  {
    var block := SerElement(Advance(k, i), ss[i]);
    DocumentAroundSeries(k, ss, axisId1, axisId2);
    BlockBehindHead(DocumentHead(), k, ss, DocumentTail(axisId1, axisId2), i);
    SerElementParts(block, Advance(k, i), ss[i]);
    SlicePositions(ChartDocument(k, ss, axisId1, axisId2), 9 + 9 * i, block);
  }

  /** The positions 1, 2 and 5 of a nine-event slice, read in the whole sequence. */
  lemma SlicePositions(doc: seq<Event<Tag>>, lo: nat, block: seq<Event<Tag>>)
    requires |block| == 9 && lo + 9 <= |doc| && doc[lo .. lo + 9] == block
    ensures doc[lo + 1] == block[1] && doc[lo + 2] == block[2] && doc[lo + 5] == block[5]
  {
  }

  /** The series blocks name no axis. */
  lemma {:induction false} SerElementsNameNoAxis(k: uint16, ss: seq<Series>)
    ensures forall v: uint32 :: AxIdTag(v) !in SerElements(k, ss) && CrossAxTag(v) !in SerElements(k, ss)
    decreases |ss|
  {
    if |ss| > 0 {
      SerElementsNameNoAxis(k, ss[..|ss| - 1]);
    }
  }

  /** `c:catAx` declares the first axis id and crosses to the second. */
  lemma CatAxLinks(axisId1: uint32, axisId2: uint32)
    ensures forall v: uint32 :: AxIdTag(v) in CatAxElement(axisId1, axisId2) <==> v == axisId1
    ensures forall v: uint32 :: CrossAxTag(v) in CatAxElement(axisId1, axisId2) <==> v == axisId2
  {
  }

  /** `c:valAx` declares the second axis id and crosses to the first. */
  lemma ValAxLinks(axisId1: uint32, axisId2: uint32)
    ensures forall v: uint32 :: AxIdTag(v) in ValAxElement(axisId1, axisId2) <==> v == axisId2
    ensures forall v: uint32 :: CrossAxTag(v) in ValAxElement(axisId1, axisId2) <==> v == axisId1
  {
  }

  lemma FixedPartsNameNoAxis()
    ensures forall v: uint32 :: AxIdTag(v) !in DocumentHead() && CrossAxTag(v) !in DocumentHead()
    ensures forall v: uint32 :: AxIdTag(v) !in LegendElement() && CrossAxTag(v) !in LegendElement()
    ensures forall v: uint32 :: AxIdTag(v) !in PrintSettingsElement() && CrossAxTag(v) !in PrintSettingsElement()
  {
  }

  /** The tail of the chart part: the bar chart's axis ids and the two axes, then fixed elements. */
  function TailAxes(axisId1: uint32, axisId2: uint32): seq<Event<Tag>> {
    [AxIdTag(axisId1), AxIdTag(axisId2)] + [End(barChart)] + CatAxElement(axisId1, axisId2) + ValAxElement(axisId1, axisId2)
  }

  function TailRest(): seq<Event<Tag>> {
    [End(plotArea)] + LegendElement() + [PlotVisOnlyTag()] + [End(chart)] + PrintSettingsElement() + [End(chartSpace)]
  }

  lemma TailSplit(axisId1: uint32, axisId2: uint32)
    ensures DocumentTail(axisId1, axisId2) == TailAxes(axisId1, axisId2) + TailRest()
  {
  }

  lemma TailRestNoAxis(v: uint32)
    ensures AxIdTag(v) !in TailRest() && CrossAxTag(v) !in TailRest()
  {
  }

  lemma TailAxesLinks(axisId1: uint32, axisId2: uint32, v: uint32)
    ensures AxIdTag(v) in TailAxes(axisId1, axisId2) <==> v == axisId1 || v == axisId2
    ensures CrossAxTag(v) in TailAxes(axisId1, axisId2) <==> v == axisId1 || v == axisId2
  {
    CatAxLinks(axisId1, axisId2);
    ValAxLinks(axisId1, axisId2);
  }

  /** The tail of the chart part declares and crosses to exactly the two axis ids. */
  lemma TailLinks(axisId1: uint32, axisId2: uint32)
    ensures forall v: uint32 :: AxIdTag(v) in DocumentTail(axisId1, axisId2) <==> v == axisId1 || v == axisId2
    ensures forall v: uint32 :: CrossAxTag(v) in DocumentTail(axisId1, axisId2) <==> v == axisId1 || v == axisId2
  {
    TailSplit(axisId1, axisId2);
    forall v: uint32
      ensures AxIdTag(v) in TailAxes(axisId1, axisId2) + TailRest() <==> v == axisId1 || v == axisId2
      ensures CrossAxTag(v) in TailAxes(axisId1, axisId2) + TailRest() <==> v == axisId1 || v == axisId2
    {
      TailRestNoAxis(v);
      TailAxesLinks(axisId1, axisId2, v);
    }
  }

  /**
   * The axis ids link the plot area: the ids that the axes cross to are
   * exactly the two axis ids, and so are the ids that `c:axId` declares.
   */
  lemma AxesCrossLinked(k: uint16, ss: seq<Series>, axisId1: uint32, axisId2: uint32)
    ensures forall v: uint32 :: CrossAxTag(v) in ChartDocument(k, ss, axisId1, axisId2) <==> v == axisId1 || v == axisId2
    ensures forall v: uint32 :: AxIdTag(v) in ChartDocument(k, ss, axisId1, axisId2) <==> v == axisId1 || v == axisId2
  {
    var h := DocumentHead();
    var s := SerElements(k, ss);
    var t := DocumentTail(axisId1, axisId2);
    DocumentAroundSeries(k, ss, axisId1, axisId2);
    SerElementsNameNoAxis(k, ss);
    FixedPartsNameNoAxis();
    TailLinks(axisId1, axisId2);
    forall v: uint32
      ensures CrossAxTag(v) in h + s + t <==> v == axisId1 || v == axisId2
      ensures AxIdTag(v) in h + s + t <==> v == axisId1 || v == axisId2
    {
      InThree(CrossAxTag(v), h, s, t);
      InThree(AxIdTag(v), h, s, t);
    }
  }

  lemma InThree(e: Event<Tag>, a: seq<Event<Tag>>, b: seq<Event<Tag>>, c: seq<Event<Tag>>)
    ensures e in a + b + c <==> e in a || e in b || e in c
  {
  }
}
