/**
 * The signal-quality bar chart (SignalQualityView): one bar per satellite in
 * its list, the view width split into equal slots with a quarter of each slot
 * left as spacing, and bar heights proportional to the signal strength.
 */
module SignalBars {
  import opened JavaLang

  /** SignalQualityView.SatelliteInfo. */
  datatype SatelliteInfo = SatelliteInfo(svid: int, snr: real)

  /** The bar width and spacing onDraw derives from the view width. */
  datatype Layout = Layout(barWidth: int, barSpacing: int)

  /** The horizontal step from one bar to the next. */
  function Slot(layout: Layout): int
  {
    layout.barWidth + layout.barSpacing
  }

  /** The slot is the width over the bar count (over 1 for an empty list),
      and a quarter of it is spacing. */
  function LayoutFor(width: int, count: nat): (layout: Layout)
    ensures Slot(layout) == JavaDiv(width, if count == 0 then 1 else count)
    ensures layout.barSpacing == JavaDiv(Slot(layout), 4)
    ensures 0 <= width ==> 0 <= layout.barSpacing <= layout.barWidth
    ensures 0 <= width ==> 0 <= Slot(layout) && (if count == 0 then 1 else count) * Slot(layout) <= width
  {
    var divisor := if count == 0 then 1 else count;
    var slot := JavaDiv(width, divisor);
    var barSpacing := JavaDiv(slot, 4);
    DivBound(width, divisor);
    Layout(slot - barSpacing, barSpacing)
  }

  lemma DivBound(a: int, b: int)
    requires 0 < b
    ensures 0 <= a ==> 0 <= a / b && b * (a / b) <= a
  {
    assert a == b * (a / b) + a % b;
  }

  lemma MulSucc(i: int, s: int)
    ensures (i + 1) * s == i * s + s
  {
  }

  /** A drawn bar: its rectangle and the position and text of its label. */
  datatype Bar = Bar(left: int, top: int, right: int, bottom: int, labelX: int, labelY: int, text: string)

  /** The bar height for a signal strength: snr/100 of the view height, truncated. */
  function BarHeight(snr: real, height: int): (h: int)
    ensures 0.0 <= snr && 0 <= height ==> 0 <= h
    ensures snr == 0.0 ==> h == 0
  {
    Trunc(snr / 100.0 * height as real)
  }

  /** Bar i of the chart: it starts i slots from the left edge, is one bar
      width wide, rises BarHeight from the bottom of the view and is labelled
      with the svid. */
  function BarAt(i: int, sat: SatelliteInfo, layout: Layout, height: int): (bar: Bar)
    ensures bar.left == i * Slot(layout) && bar.right - bar.left == layout.barWidth
    ensures bar.bottom == height && bar.bottom - bar.top == BarHeight(sat.snr, height)
    ensures bar.text == IntToString(sat.svid)
  {
    var barHeight := BarHeight(sat.snr, height);
    var left := i * Slot(layout);
    Bar(left, height - barHeight, left + layout.barWidth, height,
        left + JavaDiv(layout.barWidth, 2), height - JavaDiv(barHeight, 2), IntToString(sat.svid))
  }

  /** Four satellites on a 400-wide view get bars 75 wide with 25 between them. */
  lemma LayoutExample()
    ensures LayoutFor(400, 4) == Layout(75, 25)
  {
  }

  lemma MulLeftMonotone(a: int, b: int, c: int)
    requires a <= b && 0 <= c
    ensures a * c <= b * c
  {
  }

  /** Slot i of `count` slots, with a bar narrower than the slot, lies
      within the width the slots fill. */
  lemma SlotWithinWidth(i: int, count: int, slot: int, barWidth: int, width: int)
    requires 0 <= i < count && 0 <= barWidth <= slot && count * slot <= width
    ensures 0 <= i * slot && i * slot + barWidth <= width
  {
    MulLeftMonotone(0, i, slot);
    MulLeftMonotone(i + 1, count, slot);
    MulSucc(i, slot);
  }

  /** A bar in an earlier slot ends before a bar in a later slot starts. */
  lemma SlotsInOrder(i: int, j: int, slot: int, barWidth: int)
    requires i < j && 0 <= slot && barWidth <= slot
    ensures i * slot + barWidth <= j * slot
    ensures 0 < slot ==> i * slot < j * slot
  {
    MulLeftMonotone(i + 1, j, slot);
    MulSucc(i, slot);
  }

  /** Every bar lies within [0, width]. */
  lemma BarInsideView(width: int, height: int, count: nat, i: int, sat: SatelliteInfo)
    requires 0 <= width
    requires 0 <= i < count
    ensures var bar := BarAt(i, sat, LayoutFor(width, count), height);
      0 <= bar.left <= bar.right <= width
  {
    var layout := LayoutFor(width, count);
    SlotWithinWidth(i, count, Slot(layout), layout.barWidth, width);
  }

  /** Bars are laid out left to right and do not overlap. */
  lemma BarsInOrder(width: int, height: int, count: nat, i: int, j: int, a: SatelliteInfo, b: SatelliteInfo)
    requires 0 <= width
    requires 0 <= i < j
    ensures var layout := LayoutFor(width, count);
      var barI, barJ := BarAt(i, a, layout, height), BarAt(j, b, layout, height);
      barI.right <= barJ.left && (Slot(layout) > 0 ==> barI.left < barJ.left)
  {
    var layout := LayoutFor(width, count);
    SlotsInOrder(i, j, Slot(layout), layout.barWidth);
  }

  /** A signal strength within [0, 100] gives a bar from the bottom of the view
      that stays within it. */
  lemma BarHeightInsideView(snr: real, height: int)
    requires 0.0 <= snr <= 100.0
    requires 0 <= height
    ensures 0 <= BarHeight(snr, height) <= height
  {
    var h, fraction := height as real, snr / 100.0;
    var v := fraction * h;
    assert 0.0 <= fraction <= 1.0;
    assert v <= h by {
      assert fraction * h <= 1.0 * h;
    }
    TruncMonotone(v, h);
    TruncOfInt(height);
    assert BarHeight(snr, height) == Trunc(v);
  }

  /** The label of a bar is anchored inside the bar. */
  lemma LabelInsideBar(width: int, height: int, count: nat, i: int, sat: SatelliteInfo)
    requires 0 <= width
    requires 0 <= BarHeight(sat.snr, height)
    ensures var bar := BarAt(i, sat, LayoutFor(width, count), height);
      bar.left <= bar.labelX <= bar.right && bar.top <= bar.labelY <= bar.bottom
  {
  }

  class SignalQualityView {
    var satelliteInfoList: seq<SatelliteInfo>

    constructor ()
      ensures satelliteInfoList == []
    {
      satelliteInfoList := [];
    }

    /** Replaces the list wholesale. */
    method SetSatelliteInfoList(list: seq<SatelliteInfo>)
      modifies this
      ensures satelliteInfoList == list
    {
      satelliteInfoList := list;
    }

    /** onDraw: the bars for a view of the given size, one per satellite, in
        list order; an empty list draws nothing and divides by 1. */
    method OnDraw(width: int, height: int) returns (bars: seq<Bar>)
      ensures |bars| == |satelliteInfoList|
      ensures forall i :: 0 <= i < |bars| ==>
        bars[i] == BarAt(i, satelliteInfoList[i], LayoutFor(width, |satelliteInfoList|), height)
    {
      var n := |satelliteInfoList|;
      var layout := LayoutFor(width, n);
      var barWidth, barSpacing := layout.barWidth, layout.barSpacing;
      bars := [];
      for i := 0 to n
        invariant |bars| == i
        invariant forall k :: 0 <= k < i ==> bars[k] == BarAt(k, satelliteInfoList[k], layout, height)
      {
        var satInfo := satelliteInfoList[i];
        var barHeight := BarHeight(satInfo.snr, height);
        var left := i * (barWidth + barSpacing);
        var bar := Bar(left, height - barHeight, left + barWidth, height,
                       left + JavaDiv(barWidth, 2), height - JavaDiv(barHeight, 2), IntToString(satInfo.svid));
        assert bar == BarAt(i, satInfo, layout, height);
        bars := bars + [bar];
      }
    }
  }
}
