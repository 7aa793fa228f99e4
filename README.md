# GNSS sky plot and signal bars — a verified model

This project models the core of an Android GNSS viewer. The viewer has two parts:

- `EsferaCelesteView` is the "celestial sphere" sky plot. It holds a list of satellite records that each satellite-status snapshot rebuilds. It keeps a constellation / used-in-fix filter. It draws the satellites that pass the filter around the centre of the view, and below the plot it draws the location text, shrunk until it fits.
- `SignalQualityView` is a bar chart with one bar per satellite. Its height is proportional to the signal strength.
- `GNSSActivity` connects the two. It turns the filter dialog's radio-button label into a filter. After each status, location or filter event it gives the bar chart the sky plot's filtered satellites.

Modules:

- `SkyPlot` covers `EsferaCelesteView.java`: the view-model class, the filter, the constellation names, the radius, the centre transforms, the text shrink loop and the satellite part of `onDraw`.
- `LocationFormat` covers the numbers behind the degrees-minutes and degrees-minutes-seconds texts.
- `SignalBars` covers `SignalQualityView.java`.
- `GnssActivity` covers `GNSSActivity.java`.
- `JavaLang` holds the Java semantics the views rely on. `Trunc` is the `(int)` cast of a floating-point value, which truncates toward zero. `JavaDiv` is int division, which also truncates toward zero. `IntToString` stands for string concatenation of an int.
- `Wrappers` holds `Option`, which stands for a nullable reference.

Inputs from the platform become parameters:

- The status snapshot is a `seq<GnssSatellite>`.
- The trigonometric projection (radius, azimuth, elevation) → (x, y) is a function parameter `Projection`.
- `Paint.measureText` for the location text is a function from text size to width.
- The measured view size is a pair of parameters of `OnDraw`.

The constellation codes are Android's `GnssStatus.CONSTELLATION_GPS = 1`, `CONSTELLATION_GLONASS = 3` and `CONSTELLATION_GALILEO = 6`.

The source computes the radius as `(int)(k * 0.9)` with `k = min/2` in double precision. The double nearest to 0.9 is slightly above 0.9, so the product never drops below the exact value. For every non-negative Java `int` `k` the rounding error of the product is also far below the 0.1 gap between `9k/10` and the next integer. So the exact real 9/10 used here gives the same truncated result over the whole `int` range. (For much larger `k`, near 2^51, the double product can truncate one higher.)

## Model

| member | source | states |
|---|---|---|
| SkyPlot.GetConstellation | app/src/main/java/edublt/com/locationapi/EsferaCelesteView.java:188-199 | Total. The result is one of "GPS", "Glonass", "Galileo", "Other". Each of the first three is returned exactly for its Android code, so every other code gives "Other". No code is named "ALL". |
| SkyPlot.SatelliteInfoOf | app/src/main/java/edublt/com/locationapi/EsferaCelesteView.java:134-141 | One satellite's record carries its svid, usedInFix and signal strength (cn0DbHz). It also carries the name GetConstellation gives its code, which is never "ALL", and the position the projection gives for radius r, azimuth and elevation. |
| SkyPlot.Snapshot | app/src/main/java/edublt/com/locationapi/EsferaCelesteView.java:132-142 | One record per snapshot entry, in snapshot order: entry i has the svid and usedInFix of satellite i, and no record is named "ALL". |
| SkyPlot.Filtered | app/src/main/java/edublt/com/locationapi/EsferaCelesteView.java:171-180 | The filtered list is no longer than the list. Which elements it keeps is stated by the lemmas below, against the filter predicate `(c == "ALL" or constellation == c) and (not usedOnly or usedInFix)`. |
| SkyPlot.FilteredMultiplicity | app/src/main/java/edublt/com/locationapi/EsferaCelesteView.java:171-180 | Each record occurs in the filtered list exactly as often as in the list if it passes the filter, and not at all otherwise. So nothing is added or duplicated, and an empty list gives an empty result. |
| SkyPlot.FilteredMembership | app/src/main/java/edublt/com/locationapi/EsferaCelesteView.java:174-176 | A record is in the filtered list if and only if it is in the list and passes the filter. |
| SkyPlot.FilteredIsSubsequence | app/src/main/java/edublt/com/locationapi/EsferaCelesteView.java:172-178 | The filtered list is a subsequence of the list, so the original order is kept. |
| SkyPlot.FilteredUnique | app/src/main/java/edublt/com/locationapi/EsferaCelesteView.java:171-180 | Any order-preserving selection from the list with the filtered multiplicities equals the filtered list. Together with the two lemmas above, this characterises the filtered list completely. |
| SkyPlot.FilteredAppend | app/src/main/java/edublt/com/locationapi/EsferaCelesteView.java:173-178 | Filtering distributes over concatenation, one element at a time, as the loop does. |
| SkyPlot.FilterAllKeepsEverything | app/src/main/java/edublt/com/locationapi/EsferaCelesteView.java:29-30 | With the initial filter ("ALL", false), the filtered list is the whole list. |
| SkyPlot.FilteredIdempotent | app/src/main/java/edublt/com/locationapi/EsferaCelesteView.java:171-180 | Filtering an already filtered list with the same filter changes nothing. |
| SkyPlot.FilterComposition | app/src/main/java/edublt/com/locationapi/EsferaCelesteView.java:174-175 | The used-in-fix condition applied on top of the constellation-only filter gives the combined filter. The two conditions combine by AND. |
| SkyPlot.Radius | app/src/main/java/edublt/com/locationapi/EsferaCelesteView.java:53-56 | For non-negative sizes, 0 ≤ r ≤ min(width, height)/2, and r = (min(width, height)/2)·9/10 in integer arithmetic. So the radius comes from the smaller dimension. |
| SkyPlot.ComputeXc | app/src/main/java/edublt/com/locationapi/EsferaCelesteView.java:120-122 | Offset 0 maps to the centre column width/2 (Java division). Every offset lands within one pixel of the exact column width/2 + x, because the cast truncates. |
| SkyPlot.ComputeYc | app/src/main/java/edublt/com/locationapi/EsferaCelesteView.java:125-127 | Offset 0 maps to the centre row height/2. Every offset lands within one pixel of the exact row height/2 − y, so upward offsets give smaller rows. |
| SkyPlot.SatelliteLabel | app/src/main/java/edublt/com/locationapi/EsferaCelesteView.java:87 | The label starts with the svid followed by " (", and ends with ") Used" for a satellite used in the fix or ") Not Used" otherwise. |
| SkyPlot.MarkerOf | app/src/main/java/edublt/com/locationapi/EsferaCelesteView.java:84-88 | The dot sits at (computeXc(x), computeYc(y)), so a satellite at offset (0, 0) is at the view centre. The label is drawn 10 pixels right and below the dot, with the text of SatelliteLabel. |
| SkyPlot.CentreTransformOnIntegers | app/src/main/java/edublt/com/locationapi/EsferaCelesteView.java:120-127 | For an integer offset k, computeXc(k) = width/2 + k and computeYc(k) = height/2 − k. Offset 0 is the centre, and the y axis is flipped. |
| SkyPlot.CentreTransformOrder | app/src/main/java/edublt/com/locationapi/EsferaCelesteView.java:119-127 | For any real offsets, computeXc keeps their order and computeYc reverses it. |
| SkyPlot.AdjustTextSize | app/src/main/java/edublt/com/locationapi/EsferaCelesteView.java:110-117 | The loop terminates with a size in [0, 40]. A positive final size has a measured width within the available width. Every larger size up to 40 was too wide, so the result is the largest size that fits, or 0. |
| SkyPlot.RingRadiiAsWrittenCounterexample | app/src/main/java/edublt/com/locationapi/EsferaCelesteView.java:64-69 | Take horizon radius 100, cos 45° in (0.70, 0.71) and cos 60° = 1/2. Then the third ring as written has radius 35, where the 60° ring should have radius 50. |
| SkyPlot.RingRadiiMatchElevations | app/src/main/java/edublt/com/locationapi/EsferaCelesteView.java:63-69 | With each ring scaled from the horizon radius, the radii shrink toward the zenith and stay inside the horizon ring. The 60° ring is exactly half the horizon radius. |
| SkyPlot.EsferaCelesteView.constructor | app/src/main/java/edublt/com/locationapi/EsferaCelesteView.java:22-32 | A new view has no status, no location, r = 0, the filter ("ALL", false) and an empty list. |
| SkyPlot.EsferaCelesteView.SetNewStatus | app/src/main/java/edublt/com/locationapi/EsferaCelesteView.java:130-144 | The previous list is replaced by one record per snapshot entry. Entry i carries the svid, the constellation name, usedInFix and snr of status index i. Its position is projected with the r of the last onDraw. |
| SkyPlot.EsferaCelesteView.GetCurrentConstellationFilter | app/src/main/java/edublt/com/locationapi/EsferaCelesteView.java:183-185 | Returns the stored constellation filter, which SetFilter sets and the "Usados" choice reuses. |
| SkyPlot.EsferaCelesteView.SetNewLocation | app/src/main/java/edublt/com/locationapi/EsferaCelesteView.java:147-155 | Stores latitude, longitude and altitude, and marks the location text as present. |
| SkyPlot.EsferaCelesteView.SetFilter | app/src/main/java/edublt/com/locationapi/EsferaCelesteView.java:164-168 | Only the two filter fields change. Afterwards getCurrentConstellationFilter returns the new constellation, and the satellite list is untouched. |
| SkyPlot.EsferaCelesteView.GetFilteredSatelliteInfoList | app/src/main/java/edublt/com/locationapi/EsferaCelesteView.java:171-180 | The loop returns exactly `Filtered` of the current list and filter, so the lemmas about `Filtered` hold of its result. |
| SkyPlot.EsferaCelesteView.DrawSatellites | app/src/main/java/edublt/com/locationapi/EsferaCelesteView.java:79-92 | The draw loop's nested tests select the same satellites as getFilteredSatelliteInfoList. It draws one marker per filtered satellite, in order, at its centre-transformed position, and draws none before the first status. |
| SkyPlot.EsferaCelesteView.OnDraw | app/src/main/java/edublt/com/locationapi/EsferaCelesteView.java:45-107 | Stores the size and sets r = Radius(width, height). The axes are centred and 2r long. The markers are those of DrawSatellites. Location text is placed only when a location is present, 50 below the plot. Its size is the largest in [0, 40] whose text fits the width, or 0 when none fits. |
| LocationFormat.ConvertToDegreesMinutes | app/src/main/java/edublt/com/locationapi/EsferaCelesteView.java:260-264 | The degrees are the value truncated toward zero, with the value's sign, and are negative for values ≤ −1. The minutes lie in [0, 60). abs(value) = abs(degrees) + minutes/60. |
| LocationFormat.ConvertToDegreesMinutesSeconds | app/src/main/java/edublt/com/locationapi/EsferaCelesteView.java:267-273 | The degrees are the same as in the degrees-minutes form. Whole minutes lie in [0, 59] and seconds in [0, 60). abs(value) = abs(degrees) + minutes/60 + seconds/3600. |
| LocationFormat.DegreesMinutesReadBack | app/src/main/java/edublt/com/locationapi/EsferaCelesteView.java:260-264 | Outside (−1, 0), reading the signed degrees and the minutes back gives the value. |
| LocationFormat.NegativeValueExample | app/src/main/java/edublt/com/locationapi/EsferaCelesteView.java:260-273 | −23.5 gives −23° 30', and in DMS form −23° 30' 0". |
| LocationFormat.DegreesMinutesLosesSign | app/src/main/java/edublt/com/locationapi/EsferaCelesteView.java:261-263 | −0.5 and 0.5 both give 0° 30', and reading that back gives 0.5. |
| LocationFormat.ToSignedDegreesMinutes | app/src/main/java/edublt/com/locationapi/EsferaCelesteView.java:260-264 | The corrected decomposition keeps the sign in its own flag: the flag is set exactly for negative values. The whole degrees are those of the magnitude, and the minutes lie in [0, 60). |
| LocationFormat.SignedDegreesMinutesReadBack | app/src/main/java/edublt/com/locationapi/EsferaCelesteView.java:260-264 | Every value reads back from its signed decomposition. |
| SignalBars.LayoutFor | app/src/main/java/edublt/com/locationapi/SignalQualityView.java:34-36 | barWidth + barSpacing is the slot width, width / max(n, 1), so there is no division by zero. The spacing is a quarter of the slot (Java division). For width ≥ 0: 0 ≤ barSpacing ≤ barWidth and max(n, 1)·slot ≤ width. |
| SignalBars.BarHeight | app/src/main/java/edublt/com/locationapi/SignalQualityView.java:40-41 | A non-negative signal strength on a non-negative height gives a non-negative bar height, and strength 0 gives height 0. |
| SignalBars.BarAt | app/src/main/java/edublt/com/locationapi/SignalQualityView.java:39-50 | Bar i starts i slots from the left edge and is one bar width wide. It rises BarHeight from the bottom of the view and is labelled with the svid. |
| SignalBars.LayoutExample | app/src/main/java/edublt/com/locationapi/SignalQualityView.java:34-36 | Four satellites on a 400-wide view get bars 75 wide with spacing 25. |
| SignalBars.BarInsideView | app/src/main/java/edublt/com/locationapi/SignalQualityView.java:34-44 | For width ≥ 0, bar i of n spans [i·slot, i·slot + barWidth] ⊆ [0, width]. |
| SignalBars.BarsInOrder | app/src/main/java/edublt/com/locationapi/SignalQualityView.java:44 | For i < j, bar i ends at or before the start of bar j, and left edges strictly increase when the slot is positive. |
| SignalBars.BarHeightInsideView | app/src/main/java/edublt/com/locationapi/SignalQualityView.java:41 | For 0 ≤ snr ≤ 100 and height ≥ 0, the bar height trunc(snr/100·height) lies in [0, height]. |
| SignalBars.LabelInsideBar | app/src/main/java/edublt/com/locationapi/SignalQualityView.java:50 | The svid label anchor (left + barWidth/2, height − barHeight/2) lies inside the bar. |
| SignalBars.SignalQualityView.SetSatelliteInfoList | app/src/main/java/edublt/com/locationapi/SignalQualityView.java:56-59 | The stored list is replaced wholesale. |
| SignalBars.SignalQualityView.OnDraw | app/src/main/java/edublt/com/locationapi/SignalQualityView.java:25-54 | One bar per list entry, in order, with bar i at index i of the layout for the list's length. An empty list draws nothing. |
| GnssActivity.ChosenFilter | app/src/main/java/edublt/com/locationapi/GNSSActivity.java:81-102 | "Usados" keeps the current constellation and sets usedOnly. Every other label clears usedOnly and gives "ALL", "GPS", "Galileo" or "Glonass". An unlisted label gives ("ALL", false). |
| GnssActivity.ConstellationChoiceSelectsItsCode | app/src/main/java/edublt/com/locationapi/GNSSActivity.java:89-97 | The dialog's "GPS", "Galileo" and "Glonass" strings match the sky plot's constellation names. Choosing one shows exactly the snapshot's satellites with that Android code, in order. |
| GnssActivity.TodosShowsEverything | app/src/main/java/edublt/com/locationapi/GNSSActivity.java:86-88 | Choosing "Todos" shows every satellite. |
| GnssActivity.UsadosNarrowsCurrentSelection | app/src/main/java/edublt/com/locationapi/GNSSActivity.java:98-101 | Choosing "Usados" shows the used-in-fix satellites among those the current constellation filter shows. |
| GnssActivity.GNSSActivity.constructor | app/src/main/java/edublt/com/locationapi/GNSSActivity.java:34-39 | Both views start fresh and empty: no satellites in either list, no status, no location, r = 0. The filter is ("ALL", false), and the bar chart is in step with the sky plot. |
| GnssActivity.GNSSActivity.UpdateSignalQualityView | app/src/main/java/edublt/com/locationapi/GNSSActivity.java:120-126 | The bar chart receives a list with the same length and order as the filtered list. Each entry copies svid and snr. |
| GnssActivity.GNSSActivity.OnFilterOk | app/src/main/java/edublt/com/locationapi/GNSSActivity.java:76-107 | With no button checked, neither view changes. Otherwise the filter becomes ChosenFilter(label, previous constellation) and the bar chart shows the new filtered list. Only the two filter fields of the sky plot change: its list, status, location and radius stay as they were. |
| GnssActivity.GNSSActivity.OnSatelliteStatusChanged | app/src/main/java/edublt/com/locationapi/GNSSActivity.java:151-154 | The sky plot has a status and holds the new snapshot, projected with the unchanged radius of the last onDraw. Only its status and list change, so the filter is kept, and the bar chart shows its filtered list. |
| GnssActivity.GNSSActivity.OnLocationChanged | app/src/main/java/edublt/com/locationapi/GNSSActivity.java:130-133 | The sky plot holds the new location and has location text. Only the location fields change, so the list and the filter are kept, and the bar chart shows its filtered list. |

## Findings

| source | as written | input that shows it | evidently intended | confidence | as-written member | corrected member |
|---|---|---|---|---|---|---|
| app/src/main/java/edublt/com/locationapi/EsferaCelesteView.java:66-68 | the 60° ring multiplies the already scaled 45° radius by cos 60° | r = 100: third ring 35 (about r·cos45·cos60) | each ring at r·cos(elevation), so the 60° ring has radius 50 = r/2 | medium, not executed | SkyPlot.RingRadiiAsWrittenCounterexample | SkyPlot.RingRadiiMatchElevations |
| app/src/main/java/edublt/com/locationapi/EsferaCelesteView.java:261-263 | the sign lives only in the `(int)` degrees, which are 0 for values in (−1, 0) | −0.5 prints like 0.5: 0° 30' | the text shows the hemisphere of every negative value | medium, not executed | LocationFormat.DegreesMinutesLosesSign | LocationFormat.SignedDegreesMinutesReadBack |

The model's `RingRadii` and `ToSignedDegreesMinutes` are the corrected definitions. Nothing else in the model is built on ring radii or on the location text, because the drawing of rings and the text rendering are outside the model (see below).

## Left out

- Trigonometry: the satellite projection is the `Projection` parameter, and the ring radii take cos 45° and cos 60° as parameters. Nothing is proved about sine and cosine themselves.
- Floating point: satellite positions, signal strengths and coordinates are exact reals. The `float` casts of x, y and snr, double rounding in the degree conversions, and NaN or saturation in `(int)` casts are not modelled.
- 32-bit int overflow in `i * (barWidth + barSpacing)` and the other int arithmetic is not modelled. For non-negative view sizes the products stay below the width.
- SkyPlot.AdjustTextSize: the text size is a float in `Paint`. The model steps it as an integer from 40 down, which is the set of values the loop can reach. The `Paint` object it mutates is not modelled; the size is returned instead.
- SkyPlot.EsferaCelesteView.SetNewLocation: `updateLocationTextFormat` (String.format with `%.5f` / `%.2f`, locale dependent) and the saved-format lookup are not modelled. Only the numeric decomposition in `LocationFormat` is.
- The location-format dialog and the SharedPreferences persistence (EsferaCelesteView.java:158-161, 202-240) are left out as UI and external storage. That dialog can also set the location text before any location arrives; the model's `hasLocation` becomes true only through SetNewLocation.
- The click listener set in `onDraw`, `invalidate()`, and all Canvas/Paint drawing calls and style changes are left out. Only the computed coordinates are modelled: axes, markers, label anchors, the text placement and bars.
- Drawing the three rings inside `OnDraw` is left out. Their radii are modelled separately, as written and corrected, because they need cosine.
- Permission checks, LocationManager registration, the provider-disabled Toast and settings Intent, and the dialog construction in GNSSActivity.java are platform UI and I/O. Only the OK handler's label-to-filter mapping and its effect are modelled. The constructor stands for the state after `onCreate` has found the two views.
- GnssActivity.GNSSActivity.OnFilterOk requires the two views to be in step before the event, which the constructor establishes and every event method keeps.
- MainActivity.java (screen navigation) is not part of this model.
