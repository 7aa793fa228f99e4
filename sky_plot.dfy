/**
 * The sky-plot view (EsferaCelesteView): the satellite view-model that the
 * latest GNSS status snapshot fills, the constellation / used-in-fix filter
 * applied to it, and the integer screen geometry of the plot.
 */
module SkyPlot {
  import opened Wrappers
  import opened JavaLang

  /** Values of android.location.GnssStatus.CONSTELLATION_* that the view names. */
  const ConstellationGps: int := 1
  const ConstellationGlonass: int := 3
  const ConstellationGalileo: int := 6

  /** The filter value that lets every constellation through. */
  const AllConstellations: string := "ALL"

  /** Satellite i of a GnssStatus snapshot, as its indexed accessors report it. */
  datatype GnssSatellite = GnssSatellite(
    svid: int,
    constellationType: int,
    usedInFix: bool,
    azimuthDegrees: real,
    elevationDegrees: real,
    cn0DbHz: real)

  /** The trigonometric projection (radius, azimuth, elevation) -> (x, y) offset
      from the plot centre; it is a parameter of the model, not computed by it. */
  type Projection = (int, real, real) -> (real, real)

  /** EsferaCelesteView.SatelliteInfo. */
  datatype SatelliteInfo = SatelliteInfo(
    svid: int,
    constellation: string,
    usedInFix: bool,
    x: real,
    y: real,
    snr: real)

  /** Name shown for a GnssStatus constellation code. */
  function GetConstellation(constellationType: int): (name: string)
    ensures name in {"GPS", "Glonass", "Galileo", "Other"}
    ensures name == "GPS" <==> constellationType == ConstellationGps
    ensures name == "Glonass" <==> constellationType == ConstellationGlonass
    ensures name == "Galileo" <==> constellationType == ConstellationGalileo
    ensures name != AllConstellations
  {
    if constellationType == ConstellationGps then "GPS"
    else if constellationType == ConstellationGlonass then "Glonass"
    else if constellationType == ConstellationGalileo then "Galileo"
    else "Other"
  }

  /** The record setNewStatus builds for one satellite, projected with radius r. */
  function SatelliteInfoOf(sat: GnssSatellite, r: int, project: Projection): (info: SatelliteInfo)
    ensures info.svid == sat.svid && info.usedInFix == sat.usedInFix && info.snr == sat.cn0DbHz
    ensures info.constellation == GetConstellation(sat.constellationType) && info.constellation != AllConstellations
    ensures (info.x, info.y) == project(r, sat.azimuthDegrees, sat.elevationDegrees)
  {
    var p := project(r, sat.azimuthDegrees, sat.elevationDegrees);
    SatelliteInfo(sat.svid, GetConstellation(sat.constellationType), sat.usedInFix, p.0, p.1, sat.cn0DbHz)
  }

  /** The whole list setNewStatus builds from a snapshot. */
  function Snapshot(status: seq<GnssSatellite>, r: int, project: Projection): (snap: seq<SatelliteInfo>)
    ensures |snap| == |status|
    ensures forall i :: 0 <= i < |status| ==>
      snap[i].svid == status[i].svid && snap[i].usedInFix == status[i].usedInFix && snap[i].constellation != AllConstellations
  {
    seq(|status|, i requires 0 <= i < |status| => SatelliteInfoOf(status[i], r, project))
  }

  /** The filter condition, shared by getFilteredSatelliteInfoList and the draw loop. */
  predicate Selected(sat: SatelliteInfo, filterConstellation: string, usedOnly: bool)
  {
    (filterConstellation == AllConstellations || sat.constellation == filterConstellation)
    && (!usedOnly || sat.usedInFix)
  }

  /** The satellites of `list` that pass the filter, in list order. */
  function Filtered(list: seq<SatelliteInfo>, filterConstellation: string, usedOnly: bool): (r: seq<SatelliteInfo>)
    ensures |r| <= |list|
  {
    if list == [] then []
    else
      (if Selected(list[0], filterConstellation, usedOnly) then [list[0]] else [])
      + Filtered(list[1..], filterConstellation, usedOnly)
  }

  /** `r` can be obtained from `s` by deleting elements. */
  ghost predicate IsSubsequence<T>(r: seq<T>, s: seq<T>)
    decreases |s|
  {
    if r == [] then true
    else if s == [] then false
    else (r[0] == s[0] && IsSubsequence(r[1..], s[1..])) || IsSubsequence(r, s[1..])
  }

  lemma {:induction false} FilteredAppend(a: seq<SatelliteInfo>, b: seq<SatelliteInfo>, c: string, u: bool)
    ensures Filtered(a + b, c, u) == Filtered(a, c, u) + Filtered(b, c, u)
  {
    if a == [] {
      assert a + b == b;
    } else {
      var head := if Selected(a[0], c, u) then [a[0]] else [];
      var ab := a + b;
      assert ab != [] && ab[0] == a[0];
      assert ab[1..] == a[1..] + b;
      assert Filtered(ab, c, u) == head + Filtered(a[1..] + b, c, u);
      FilteredAppend(a[1..], b, c, u);
      assert Filtered(a, c, u) == head + Filtered(a[1..], c, u);
      assert head + (Filtered(a[1..], c, u) + Filtered(b, c, u))
          == (head + Filtered(a[1..], c, u)) + Filtered(b, c, u);
    }
  }

  /** Each satellite occurs in the filtered list exactly as often as in the
      whole list if it passes the filter, and not at all otherwise: nothing is
      added, dropped or duplicated. */
  lemma {:induction false} FilteredMultiplicity(list: seq<SatelliteInfo>, c: string, u: bool, x: SatelliteInfo)
    ensures multiset(Filtered(list, c, u))[x] == if Selected(x, c, u) then multiset(list)[x] else 0
  {
    if list != [] {
      assert list == [list[0]] + list[1..];
      FilteredMultiplicity(list[1..], c, u, x);
    }
  }

  /** A satellite is in the filtered list exactly when it is in the list and passes the filter. */
  lemma {:induction false} FilteredMembership(list: seq<SatelliteInfo>, c: string, u: bool, x: SatelliteInfo)
    ensures x in Filtered(list, c, u) <==> x in list && Selected(x, c, u)
  {
    FilteredMultiplicity(list, c, u, x);
  }

  /** The filtered list keeps the order of the list. */
  lemma {:induction false} FilteredIsSubsequence(list: seq<SatelliteInfo>, c: string, u: bool)
    ensures IsSubsequence(Filtered(list, c, u), list)
  {
    if list != [] {
      FilteredIsSubsequence(list[1..], c, u);
      var rest := Filtered(list[1..], c, u);
      if Selected(list[0], c, u) {
        assert Filtered(list, c, u) == [list[0]] + rest;
        assert ([list[0]] + rest)[1..] == rest;
      } else {
        assert Filtered(list, c, u) == rest;
      }
    }
  }

  lemma {:induction false} SubsequenceMultiset<T>(r: seq<T>, s: seq<T>)
    requires IsSubsequence(r, s)
    ensures multiset(r) <= multiset(s)
    decreases |s|
  {
    if r != [] {
      assert s == [s[0]] + s[1..];
      if r[0] == s[0] && IsSubsequence(r[1..], s[1..]) {
        SubsequenceMultiset(r[1..], s[1..]);
        assert r == [r[0]] + r[1..];
      } else {
        SubsequenceMultiset(r, s[1..]);
      }
    }
  }

  /** The two properties above determine the filtered list: any order-preserving
      selection from `list` with the filtered multiplicities is Filtered(list). */
  lemma {:induction false} FilteredUnique(list: seq<SatelliteInfo>, c: string, u: bool, r: seq<SatelliteInfo>)
    requires IsSubsequence(r, list)
    requires forall x :: multiset(r)[x] == if Selected(x, c, u) then multiset(list)[x] else 0
    ensures r == Filtered(list, c, u)
    decreases |list|
  {
    if list == [] {
      assert r == [];
    } else {
      var h, t := list[0], list[1..];
      assert list == [h] + t;
      if r != [] && r[0] == h && IsSubsequence(r[1..], t) {
        assert r == [h] + r[1..];
        assert multiset(r)[h] > 0;
        assert Selected(h, c, u);
        forall x
          ensures multiset(r[1..])[x] == if Selected(x, c, u) then multiset(t)[x] else 0
        {
          assert multiset(r)[x] == multiset([h])[x] + multiset(r[1..])[x];
          assert multiset(list)[x] == multiset([h])[x] + multiset(t)[x];
        }
        FilteredUnique(t, c, u, r[1..]);
      } else {
        assert IsSubsequence(r, t);
        SubsequenceMultiset(r, t);
        assert multiset(list)[h] == multiset(t)[h] + 1;
        assert !Selected(h, c, u);
        forall x
          ensures multiset(r)[x] == if Selected(x, c, u) then multiset(t)[x] else 0
        {
          assert multiset(list)[x] == multiset([h])[x] + multiset(t)[x];
        }
        FilteredUnique(t, c, u, r);
      }
    }
  }

  /** With the initial filter ("ALL", false) nothing is filtered out. */
  lemma {:induction false} FilterAllKeepsEverything(list: seq<SatelliteInfo>)
    ensures Filtered(list, AllConstellations, false) == list
  {
    if list != [] {
      FilterAllKeepsEverything(list[1..]);
      assert list == [list[0]] + list[1..];
    }
  }

  /** Filtering twice with the same filter changes nothing. */
  lemma {:induction false} FilteredIdempotent(list: seq<SatelliteInfo>, c: string, u: bool)
    ensures Filtered(Filtered(list, c, u), c, u) == Filtered(list, c, u)
  {
    if list != [] {
      FilteredIdempotent(list[1..], c, u);
      var rest := Filtered(list[1..], c, u);
      if Selected(list[0], c, u) {
        var f := [list[0]] + rest;
        assert Filtered(list, c, u) == f;
        assert f[0] == list[0] && f[1..] == rest;
        assert Filtered(f, c, u) == [list[0]] + Filtered(rest, c, u);
      } else {
        assert Filtered(list, c, u) == rest;
      }
    }
  }

  /** The used-in-fix condition applied on top of the constellation filter gives
      the combined filter: the two conditions are a conjunction. */
  lemma {:induction false} FilterComposition(list: seq<SatelliteInfo>, c: string, u: bool)
    ensures Filtered(Filtered(list, c, false), AllConstellations, u) == Filtered(list, c, u)
  {
    if list != [] {
      FilterComposition(list[1..], c, u);
      var rest := Filtered(list[1..], c, false);
      if Selected(list[0], c, false) {
        var f := [list[0]] + rest;
        assert Filtered(list, c, false) == f;
        assert f[0] == list[0] && f[1..] == rest;
        assert Filtered(f, AllConstellations, u)
          == (if Selected(list[0], AllConstellations, u) then [list[0]] else []) + Filtered(rest, AllConstellations, u);
      } else {
        assert Filtered(list, c, false) == rest;
      }
    }
  }

  /** The sky radius: 0.9 of half the smaller view dimension, truncated.
      The double 0.9 rounds up, and for every non-negative Java int the
      rounding error of the product is far below the 0.1 gap to the next
      integer, so the double product truncates to the same integer as the
      exact one. */
  function Radius(width: int, height: int): (r: int)
    ensures 0 <= width && 0 <= height ==> 0 <= r <= Min(width, height) / 2
    ensures 0 <= width && 0 <= height ==> r == (Min(width, height) / 2) * 9 / 10
  {
    if width < height then Trunc(JavaDiv(width, 2) as real * 0.9)
    else Trunc(JavaDiv(height, 2) as real * 0.9)
  }

  /** computeXc: an x offset from the plot centre to a screen column. */
  function ComputeXc(width: int, x: real): (column: int)
    ensures x == 0.0 ==> column == JavaDiv(width, 2)
    ensures -1.0 < column as real - (JavaDiv(width, 2) as real + x) < 1.0
  {
    Trunc(x + JavaDiv(width, 2) as real)
  }

  /** computeYc: a y offset from the plot centre to a screen row; positive
      offsets point up, so the axis is flipped. */
  function ComputeYc(height: int, y: real): (row: int)
    ensures y == 0.0 ==> row == JavaDiv(height, 2)
    ensures -1.0 < row as real - (JavaDiv(height, 2) as real - y) < 1.0
  {
    Trunc(-y + JavaDiv(height, 2) as real)
  }

  /** Integer offsets map exactly: offset 0 is the centre of the view, x grows
      to the right and y grows upward (screen rows decrease). */
  lemma CentreTransformOnIntegers(width: int, height: int, k: int)
    ensures ComputeXc(width, k as real) == JavaDiv(width, 2) + k
    ensures ComputeYc(height, k as real) == JavaDiv(height, 2) - k
  {
    TruncOfInt(JavaDiv(width, 2) + k);
    assert k as real + JavaDiv(width, 2) as real == (JavaDiv(width, 2) + k) as real;
    TruncOfInt(JavaDiv(height, 2) - k);
    assert -(k as real) + JavaDiv(height, 2) as real == (JavaDiv(height, 2) - k) as real;
  }

  /** The screen points onDraw places at offsets 0, r, -r and -r - 50. */
  lemma FrameGeometry(width: int, height: int, r: int)
    ensures ComputeXc(width, 0.0) == JavaDiv(width, 2) && ComputeYc(height, 0.0) == JavaDiv(height, 2)
    ensures ComputeXc(width, r as real) == JavaDiv(width, 2) + r
    ensures ComputeXc(width, (-r) as real) == JavaDiv(width, 2) - r
    ensures ComputeYc(height, r as real) == JavaDiv(height, 2) - r
    ensures ComputeYc(height, (-r) as real) == JavaDiv(height, 2) + r
    ensures ComputeYc(height, (-r - 50) as real) == JavaDiv(height, 2) + r + 50
  {
    CentreTransformOnIntegers(width, height, 0);
    CentreTransformOnIntegers(width, height, r);
    CentreTransformOnIntegers(width, height, -r);
    CentreTransformOnIntegers(width, height, -r - 50);
  }

  /** For any offsets, x keeps its order on screen and y reverses it. */
  lemma CentreTransformOrder(width: int, height: int, a: real, b: real)
    requires a <= b
    ensures ComputeXc(width, a) <= ComputeXc(width, b)
    ensures ComputeYc(height, b) <= ComputeYc(height, a)
  {
    TruncMonotone(a + JavaDiv(width, 2) as real, b + JavaDiv(width, 2) as real);
    TruncMonotone(-b + JavaDiv(height, 2) as real, -a + JavaDiv(height, 2) as real);
  }

  /** adjustTextSize: from size 40, shrink one step at a time while the
      measured text is wider than the view and the size is positive.
      `measure` gives the width of the text at a given size. */
  method AdjustTextSize(width: int, measure: int -> real) returns (size: int)
    ensures 0 <= size <= 40
    ensures size == 0 || measure(size) <= width as real
    ensures forall s :: size < s <= 40 ==> measure(s) > width as real
  {
    size := 40;
    var textWidth := measure(size);
    while textWidth > width as real && size > 0
      invariant 0 <= size <= 40
      invariant textWidth == measure(size)
      invariant forall s :: size < s <= 40 ==> measure(s) > width as real
      decreases size
    {
      size := size - 1;
      textWidth := measure(size);
    }
  }

  /** Ring radii as lines 64-69 compute them: the 60-degree ring scales the
      already scaled 45-degree radius. */
  function RingRadiiAsWritten(r: int, cos45: real, cos60: real): seq<int>
  {
    var r45 := Trunc(r as real * cos45);
    [r, r45, Trunc(r45 as real * cos60)]
  }

  /** Ring radii at elevations 0, 45 and 60 degrees, each scaled from the horizon radius. */
  function RingRadii(r: int, cos45: real, cos60: real): seq<int>
  {
    [r, Trunc(r as real * cos45), Trunc(r as real * cos60)]
  }

  /** With the horizon radius 100 and cos 60 = 1/2, the third ring as written
      has radius 35 instead of 50. */
  lemma RingRadiiAsWrittenCounterexample(cos45: real)
    requires 0.70 < cos45 < 0.71
    ensures RingRadiiAsWritten(100, cos45, 0.5)[2] == 35
    ensures RingRadii(100, cos45, 0.5)[2] == 50
  {
    assert Trunc(100.0 * cos45) == 70;
    TruncOfInt(35);
    TruncOfInt(50);
    assert 70 as real * 0.5 == 35 as real;
    assert 100 as real * 0.5 == 50 as real;
  }

  lemma ScaledBetween(x: real, c: real)
    requires 0.0 <= x && 0.5 <= c <= 1.0
    ensures x * 0.5 <= x * c <= x
  {
    assert x * c <= x * 1.0;
  }

  lemma TruncScaledBetween(x: real, c: real)
    requires 0.0 <= x && 0.5 <= c <= 1.0
    ensures Trunc(x * 0.5) <= Trunc(x * c) <= Trunc(x)
  {
    var half, scaled := x * 0.5, x * c;
    ScaledBetween(x, c);
    assert half <= scaled <= x;
    TruncMonotone(half, scaled);
    TruncMonotone(scaled, x);
  }

  lemma HalfOfInt(r: int)
    requires 0 <= r
    ensures Trunc(r as real * 0.5) == r / 2
  {
    var q := r / 2;
    assert r == 2 * q || r == 2 * q + 1;
    assert q as real <= r as real * 0.5 < q as real + 1.0;
  }

  /** The corrected rings shrink toward the zenith, stay inside the horizon
      ring, and the 60-degree ring is half the horizon radius. */
  lemma RingRadiiMatchElevations(r: int, cos45: real)
    requires 0 <= r
    requires 0.5 <= cos45 <= 1.0
    ensures var radii := RingRadii(r, cos45, 0.5);
      0 <= radii[2] <= radii[1] <= radii[0] == r && radii[2] == r / 2
  {
    var radii := RingRadii(r, cos45, 0.5);
    var outer, middle, inner := Trunc(r as real), Trunc(r as real * cos45), Trunc(r as real * 0.5);
    TruncScaledBetween(r as real, cos45);
    TruncOfInt(r);
    HalfOfInt(r);
    assert inner <= middle <= outer == r;
    assert radii[0] == r && radii[1] == middle && radii[2] == inner;
  }

  /** Where one satellite is drawn: its marker centre, its label position and text. */
  datatype Marker = Marker(cx: int, cy: int, labelX: int, labelY: int, text: string)

  /** A line segment from (x0, y0) to (x1, y1). */
  datatype Line = Line(x0: int, y0: int, x1: int, y1: int)

  /** The location text: its fitted size and its anchor. */
  datatype TextPlacement = TextPlacement(size: int, x: int, y: int)

  /** The computed coordinates of one onDraw. */
  datatype Frame = Frame(
    centreX: int,
    centreY: int,
    radius: int,
    verticalAxis: Line,
    horizontalAxis: Line,
    markers: seq<Marker>,
    locationText: Option<TextPlacement>)

  /** The svid, the constellation in parentheses, then "Used" or "Not Used". */
  function SatelliteLabel(sat: SatelliteInfo): (text: string)
    ensures var id := IntToString(sat.svid);
      |id| + 2 <= |text| && text[..|id|] == id && text[|id|..|id| + 2] == " ("
    ensures sat.usedInFix ==> 6 <= |text| && text[|text| - 6..] == ") Used"
    ensures !sat.usedInFix ==> 10 <= |text| && text[|text| - 10..] == ") Not Used"
  {
    IntToString(sat.svid) + " (" + sat.constellation + ") " + (if sat.usedInFix then "Used" else "Not Used")
  }

  /** The dot of a satellite at its screen point, with its label 10 pixels to
      the right and below. */
  function MarkerOf(sat: SatelliteInfo, width: int, height: int): (marker: Marker)
    ensures marker.cx == ComputeXc(width, sat.x) && marker.cy == ComputeYc(height, sat.y)
    ensures sat.x == 0.0 && sat.y == 0.0 ==> marker.cx == JavaDiv(width, 2) && marker.cy == JavaDiv(height, 2)
    ensures marker.labelX == marker.cx + 10 && marker.labelY == marker.cy + 10
    ensures marker.text == SatelliteLabel(sat)
  {
    var cx := ComputeXc(width, sat.x);
    var cy := ComputeYc(height, sat.y);
    Marker(cx, cy, cx + 10, cy + 10, SatelliteLabel(sat))
  }

  function MarkersOf(list: seq<SatelliteInfo>, width: int, height: int): seq<Marker>
  {
    seq(|list|, i requires 0 <= i < |list| => MarkerOf(list[i], width, height))
  }

  lemma MarkersOfAppend(a: seq<SatelliteInfo>, b: seq<SatelliteInfo>, width: int, height: int)
    ensures MarkersOf(a + b, width, height) == MarkersOf(a, width, height) + MarkersOf(b, width, height)
  {
  }

  class EsferaCelesteView {
    /** newStatus != null */
    var hasStatus: bool
    /** formattedText != null */
    var hasLocation: bool
    var r: int
    var width: int
    var height: int
    var latitude: real
    var longitude: real
    var altitude: real
    var filterConstellation: string
    var filterUsedInFix: bool
    var satelliteInfoList: seq<SatelliteInfo>

    constructor ()
      ensures !hasStatus && !hasLocation
      ensures r == 0 && width == 0 && height == 0
      ensures latitude == 0.0 && longitude == 0.0 && altitude == 0.0
      ensures filterConstellation == AllConstellations && !filterUsedInFix
      ensures satelliteInfoList == []
    {
      hasStatus, hasLocation := false, false;
      r, width, height := 0, 0, 0;
      latitude, longitude, altitude := 0.0, 0.0, 0.0;
      filterConstellation, filterUsedInFix := AllConstellations, false;
      satelliteInfoList := [];
    }

    function GetCurrentConstellationFilter(): (constellation: string)
      reads this
      ensures constellation == filterConstellation
    {
      filterConstellation
    }

    /** Discards the previous list and rebuilds it from the snapshot, projecting
        with the radius of the last onDraw (0 before the first one). */
    method SetNewStatus(status: seq<GnssSatellite>, project: Projection)
      modifies this`hasStatus, this`satelliteInfoList
      ensures hasStatus
      ensures satelliteInfoList == Snapshot(status, r, project)
      ensures |satelliteInfoList| == |status|
      ensures forall i :: 0 <= i < |status| ==>
        && satelliteInfoList[i].svid == status[i].svid
        && satelliteInfoList[i].constellation == GetConstellation(status[i].constellationType)
        && satelliteInfoList[i].usedInFix == status[i].usedInFix
        && satelliteInfoList[i].snr == status[i].cn0DbHz
    {
      hasStatus := true;
      satelliteInfoList := [];
      for i := 0 to |status|
        invariant hasStatus
        invariant |satelliteInfoList| == i
        invariant forall k :: 0 <= k < i ==> satelliteInfoList[k] == SatelliteInfoOf(status[k], r, project)
      {
        var p := project(r, status[i].azimuthDegrees, status[i].elevationDegrees);
        var constellation := GetConstellation(status[i].constellationType);
        satelliteInfoList := satelliteInfoList
          + [SatelliteInfo(status[i].svid, constellation, status[i].usedInFix, p.0, p.1, status[i].cn0DbHz)];
      }
    }

    /** Stores a new location; the text rendering of it is not modelled. */
    method SetNewLocation(lat: real, lon: real, alt: real)
      modifies this`latitude, this`longitude, this`altitude, this`hasLocation
      ensures latitude == lat && longitude == lon && altitude == alt && hasLocation
    {
      latitude, longitude, altitude := lat, lon, alt;
      hasLocation := true;
    }

    /** Replaces the filter and nothing else. */
    method SetFilter(constellation: string, usedInFix: bool)
      modifies this`filterConstellation, this`filterUsedInFix
      ensures filterConstellation == constellation && filterUsedInFix == usedInFix
      ensures GetCurrentConstellationFilter() == constellation
      ensures satelliteInfoList == old(satelliteInfoList) && hasStatus == old(hasStatus)
    {
      filterConstellation := constellation;
      filterUsedInFix := usedInFix;
    }

    /** The satellites that pass the current filter, in list order. */
    method GetFilteredSatelliteInfoList() returns (filtered: seq<SatelliteInfo>)
      ensures filtered == Filtered(satelliteInfoList, filterConstellation, filterUsedInFix)
    {
      filtered := [];
      for i := 0 to |satelliteInfoList|
        invariant filtered == Filtered(satelliteInfoList[..i], filterConstellation, filterUsedInFix)
      {
        var satInfo := satelliteInfoList[i];
        if (filterConstellation == AllConstellations || satInfo.constellation == filterConstellation)
          && (!filterUsedInFix || satInfo.usedInFix)
        {
          filtered := filtered + [satInfo];
        }
        assert satelliteInfoList[..i + 1] == satelliteInfoList[..i] + [satInfo];
        FilteredAppend(satelliteInfoList[..i], [satInfo], filterConstellation, filterUsedInFix);
      }
      assert satelliteInfoList[..|satelliteInfoList|] == satelliteInfoList;
    }

    /** The satellite part of onDraw: one marker per satellite that passes the
        filter, in list order, and none before the first status. */
    method DrawSatellites() returns (markers: seq<Marker>)
      ensures markers == if hasStatus then MarkersOf(Filtered(satelliteInfoList, filterConstellation, filterUsedInFix), width, height) else []
    {
      markers := [];
      if hasStatus {
        for i := 0 to |satelliteInfoList|
          invariant markers == MarkersOf(Filtered(satelliteInfoList[..i], filterConstellation, filterUsedInFix), width, height)
        {
          var satInfo := satelliteInfoList[i];
          ghost var before := Filtered(satelliteInfoList[..i], filterConstellation, filterUsedInFix);
          ghost var added := Filtered([satInfo], filterConstellation, filterUsedInFix);
          if filterConstellation == AllConstellations || satInfo.constellation == filterConstellation {
            if !filterUsedInFix || satInfo.usedInFix {
              markers := markers + [MarkerOf(satInfo, width, height)];
              assert added == [satInfo];
            }
          }
          assert MarkersOf(added, width, height) == if Selected(satInfo, filterConstellation, filterUsedInFix) then [MarkerOf(satInfo, width, height)] else [];
          assert markers == MarkersOf(before, width, height) + MarkersOf(added, width, height);
          assert satelliteInfoList[..i + 1] == satelliteInfoList[..i] + [satInfo];
          FilteredAppend(satelliteInfoList[..i], [satInfo], filterConstellation, filterUsedInFix);
          MarkersOfAppend(before, added, width, height);
        }
        assert satelliteInfoList[..|satelliteInfoList|] == satelliteInfoList;
      }
    }

    /** onDraw: takes the measured size, derives the radius, and computes the
        axes, the satellite markers and the placement of the location text.
        `measureText` is the width of the location text at a given size. */
    method OnDraw(measuredWidth: int, measuredHeight: int, measureText: int -> real) returns (frame: Frame)
      modifies this`width, this`height, this`r
      ensures width == measuredWidth && height == measuredHeight
      ensures r == Radius(measuredWidth, measuredHeight)
      ensures frame.centreX == JavaDiv(width, 2) && frame.centreY == JavaDiv(height, 2) && frame.radius == r
      ensures frame.verticalAxis == Line(frame.centreX, frame.centreY + r, frame.centreX, frame.centreY - r)
      ensures frame.horizontalAxis == Line(frame.centreX - r, frame.centreY, frame.centreX + r, frame.centreY)
      ensures frame.markers == if hasStatus then MarkersOf(Filtered(satelliteInfoList, filterConstellation, filterUsedInFix), width, height) else []
      ensures frame.locationText.Some? <==> hasLocation
      ensures frame.locationText.Some? ==>
        && 0 <= frame.locationText.value.size <= 40
        && (frame.locationText.value.size == 0 || measureText(frame.locationText.value.size) <= width as real)
        && (forall s :: frame.locationText.value.size < s <= 40 ==> measureText(s) > width as real)
        && frame.locationText.value.x == frame.centreX
        && frame.locationText.value.y == frame.centreY + r + 50
    {
      width := measuredWidth;
      height := measuredHeight;
      r := Radius(width, height);
      FrameGeometry(width, height, r);
      var cx, cy := ComputeXc(width, 0.0), ComputeYc(height, 0.0);
      var verticalAxis := Line(cx, ComputeYc(height, (-r) as real), cx, ComputeYc(height, r as real));
      var horizontalAxis := Line(ComputeXc(width, (-r) as real), cy, ComputeXc(width, r as real), cy);
      var markers := DrawSatellites();
      var locationText := None;
      if hasLocation {
        var size := AdjustTextSize(width, measureText);
        locationText := Some(TextPlacement(size, cx, ComputeYc(height, (-r - 50) as real)));
      }
      frame := Frame(cx, cy, r, verticalAxis, horizontalAxis, markers, locationText);
    }
  }
}
