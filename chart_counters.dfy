/**
 * The two pieces of state the chart part depends on besides the series list:
 * the axis ids, allocated once, and the series counter, which carries over
 * from one assembly to the next.
 */
module ChartCounters {
  import opened Xml
  import opened ChartElements
  import opened ChartLinks

  /**
   * The axis ids are written once: after the first allocation they are
   * 50010000 + id + 1 and nonzero, so every later run of the axis-id writer
   * keeps them; ids already set are never touched.
   */
  lemma AxisIdsWrittenOnce(axisId1: uint32, axisId2: uint32, id: uint32)
    requires id < 0x1_0000_0000 - AxisIdBase - 1
    ensures axisId1 == 0 ==> AxisIdsAfter(axisId1, axisId2, id) == (AxisIdBase + id + 1, AxisIdBase + id + 1)
    ensures axisId1 != 0 ==> AxisIdsAfter(axisId1, axisId2, id) == (axisId1, axisId2)
    ensures var after := AxisIdsAfter(axisId1, axisId2, id);
            AxisIdsAfter(after.0, after.1, id) == after
  {
    var a := AxisIdFor(id);
    assert a == AxisIdBase + id + 1 && a != 0;
  }

  /**
   * For the one chart number where 50010000 + id + 1 wraps around to 0 in
   * uint32_t, the allocated ids are 0, so they are reallocated on every run.
   */
  lemma AxisIdWrapsToZero()
    ensures AxisIdFor(0x1_0000_0000 - AxisIdBase - 1) == 0
    ensures AxisIdsAfter(0, 0, 0x1_0000_0000 - AxisIdBase - 1) == (0, 0)
  {
  }

  /**
   * On the first assembly of a new chart the counter starts at 0, so the
   * i-th `c:ser` block carries `c:idx` and `c:order` equal to i, for up to
   * 2^16 series.
   */
  lemma FirstAssemblyNumbering(ss: seq<Series>, axisId1: uint32, axisId2: uint32, i: nat)
    requires i < |ss| <= 0x1_0000
    ensures 18 + 9 * i <= |ChartDocument(0, ss, axisId1, axisId2)|
    ensures ChartDocument(0, ss, axisId1, axisId2)[10 + 9 * i] == IdxTag(i)
    ensures ChartDocument(0, ss, axisId1, axisId2)[11 + 9 * i] == OrderTag(i)
  {
    AdvanceFromZero(i);
    DocumentSerAt(0, ss, axisId1, axisId2, i);
  }

  /**
   * The counter is never reset: assembling the same chart again numbers its
   * first `c:ser` block with the number of series, not with 0.
   */
  lemma ReassemblyNumbering(ss: seq<Series>, axisId1: uint32, axisId2: uint32)
    requires 0 < |ss| < 0x1_0000
    ensures ChartDocument(Advance(0, |ss|), ss, axisId1, axisId2)[10] == IdxTag(|ss|)
    ensures ChartDocument(Advance(0, |ss|), ss, axisId1, axisId2)[10] != IdxTag(0)
  {
    AdvanceFromZero(|ss|);
    DocumentSerAt(Advance(0, |ss|), ss, axisId1, axisId2, 0);
    IdxTagsDiffer(|ss|, 0);
  }

  lemma AdvanceFromZero(n: nat)
    requires n < 0x1_0000
    ensures Advance(0, n) == n && Advance(Advance(0, n), 0) == n
  {
  }

  lemma IdxTagsDiffer(a: uint16, b: uint16)
    requires a != b
    ensures IdxTag(a) != IdxTag(b)
  {
    assert IdxTag(a).attrs[0].value.n == a;
  }
}
