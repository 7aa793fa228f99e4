/**
 * The GNSS screen (GNSSActivity): it forwards satellite-status, location and
 * filter events to the sky-plot view and, after each one, hands the bar
 * chart the sky plot's filtered satellites.
 */
module GnssActivity {
  import opened Wrappers
  import SkyPlot
  import SignalBars

  /** The filter the OK button of the filter dialog applies. */
  datatype FilterChoice = FilterChoice(constellation: string, usedOnly: bool)

  /** The radio-button label to filter mapping. "Usados" keeps the sky plot's
      current constellation; a label the switch does not list keeps the
      defaults ("ALL", false). */
  function ChosenFilter(text: string, currentConstellation: string): (choice: FilterChoice)
    ensures text == "Usados" ==> choice == FilterChoice(currentConstellation, true)
    ensures text != "Usados" ==> !choice.usedOnly
    ensures text != "Usados" ==> choice.constellation in {SkyPlot.AllConstellations, "GPS", "Galileo", "Glonass"}
    ensures text !in {"Todos", "GPS", "Galileo", "Glonass", "Usados"} ==> choice == FilterChoice(SkyPlot.AllConstellations, false)
  {
    if text == "Todos" then FilterChoice(SkyPlot.AllConstellations, false)
    else if text == "GPS" then FilterChoice("GPS", false)
    else if text == "Galileo" then FilterChoice("Galileo", false)
    else if text == "Glonass" then FilterChoice("Glonass", false)
    else if text == "Usados" then FilterChoice(currentConstellation, true)
    else FilterChoice(SkyPlot.AllConstellations, false)
  }

  /** The satellites of a snapshot whose constellation code is `code`, in order. */
  function OfType(status: seq<SkyPlot.GnssSatellite>, code: int): seq<SkyPlot.GnssSatellite>
  {
    if status == [] then []
    else (if status[0].constellationType == code then [status[0]] else []) + OfType(status[1..], code)
  }

  lemma SnapshotCons(status: seq<SkyPlot.GnssSatellite>, r: int, project: SkyPlot.Projection)
    requires status != []
    ensures SkyPlot.Snapshot(status, r, project)
      == [SkyPlot.SatelliteInfoOf(status[0], r, project)] + SkyPlot.Snapshot(status[1..], r, project)
  {
  }

  /** The constellation labels of the dialog and the names the sky plot gives
      the constellation codes agree: choosing "GPS", "Galileo" or "Glonass"
      shows exactly the satellites the snapshot reports with that code. */
  lemma {:induction false} ConstellationChoiceSelectsItsCode(
    status: seq<SkyPlot.GnssSatellite>, r: int, project: SkyPlot.Projection,
    text: string, code: int, currentConstellation: string)
    requires || (text == "GPS" && code == SkyPlot.ConstellationGps)
             || (text == "Galileo" && code == SkyPlot.ConstellationGalileo)
             || (text == "Glonass" && code == SkyPlot.ConstellationGlonass)
    ensures var choice := ChosenFilter(text, currentConstellation);
      SkyPlot.Filtered(SkyPlot.Snapshot(status, r, project), choice.constellation, choice.usedOnly)
      == SkyPlot.Snapshot(OfType(status, code), r, project)
    decreases |status|
  {
    var choice := ChosenFilter(text, currentConstellation);
    if status == [] {
      assert SkyPlot.Snapshot(status, r, project) == [];
    } else {
      var h, t := status[0], status[1..];
      var info := SkyPlot.SatelliteInfoOf(h, r, project);
      SnapshotCons(status, r, project);
      var snap := SkyPlot.Snapshot(status, r, project);
      assert snap[0] == info && snap[1..] == SkyPlot.Snapshot(t, r, project);
      ConstellationChoiceSelectsItsCode(t, r, project, text, code, currentConstellation);
      assert SkyPlot.Selected(info, choice.constellation, choice.usedOnly) <==> h.constellationType == code;
      if h.constellationType == code {
        assert OfType(status, code) == [h] + OfType(t, code);
        SnapshotCons([h] + OfType(t, code), r, project);
        assert ([h] + OfType(t, code))[1..] == OfType(t, code);
      } else {
        assert OfType(status, code) == OfType(t, code);
      }
    }
  }

  /** Choosing "Todos" shows every satellite. */
  lemma TodosShowsEverything(list: seq<SkyPlot.SatelliteInfo>, currentConstellation: string)
    ensures var choice := ChosenFilter("Todos", currentConstellation);
      SkyPlot.Filtered(list, choice.constellation, choice.usedOnly) == list
  {
    SkyPlot.FilterAllKeepsEverything(list);
  }

  /** Choosing "Usados" shows the satellites of the current constellation
      selection that are used in the fix. */
  lemma UsadosNarrowsCurrentSelection(list: seq<SkyPlot.SatelliteInfo>, currentConstellation: string)
    ensures var choice := ChosenFilter("Usados", currentConstellation);
      SkyPlot.Filtered(list, choice.constellation, choice.usedOnly)
      == SkyPlot.Filtered(SkyPlot.Filtered(list, currentConstellation, false), SkyPlot.AllConstellations, true)
  {
    SkyPlot.FilterComposition(list, currentConstellation, true);
  }

  /** The bar chart's entry for one sky-plot satellite. */
  function BarInfoOf(sat: SkyPlot.SatelliteInfo): SignalBars.SatelliteInfo
  {
    SignalBars.SatelliteInfo(sat.svid, sat.snr)
  }

  function BarInfos(list: seq<SkyPlot.SatelliteInfo>): seq<SignalBars.SatelliteInfo>
  {
    seq(|list|, i requires 0 <= i < |list| => BarInfoOf(list[i]))
  }

  class GNSSActivity {
    const esferaCelesteView: SkyPlot.EsferaCelesteView
    const signalQualityView: SignalBars.SignalQualityView

    /** The bar chart shows the sky plot's filtered satellites. */
    ghost predicate Synced()
      reads esferaCelesteView, signalQualityView
    {
      signalQualityView.satelliteInfoList
      == BarInfos(SkyPlot.Filtered(esferaCelesteView.satelliteInfoList,
                                   esferaCelesteView.filterConstellation,
                                   esferaCelesteView.filterUsedInFix))
    }

    /** The screen once onCreate has found its two views. */
    constructor ()
      ensures fresh(esferaCelesteView) && fresh(signalQualityView)
      ensures esferaCelesteView.filterConstellation == SkyPlot.AllConstellations
      ensures !esferaCelesteView.filterUsedInFix
      ensures esferaCelesteView.satelliteInfoList == [] && signalQualityView.satelliteInfoList == []
      ensures !esferaCelesteView.hasStatus && !esferaCelesteView.hasLocation
      ensures esferaCelesteView.r == 0
      ensures Synced()
    {
      esferaCelesteView := new SkyPlot.EsferaCelesteView();
      signalQualityView := new SignalBars.SignalQualityView();
    }

    /** updateSignalQualityView: copies svid and snr of each filtered satellite,
        in order, into a new list and gives it to the bar chart. */
    method UpdateSignalQualityView()
      modifies signalQualityView
      ensures Synced()
      ensures |signalQualityView.satelliteInfoList|
        == |SkyPlot.Filtered(esferaCelesteView.satelliteInfoList, esferaCelesteView.filterConstellation, esferaCelesteView.filterUsedInFix)|
      ensures forall i :: 0 <= i < |signalQualityView.satelliteInfoList| ==>
        var sat := SkyPlot.Filtered(esferaCelesteView.satelliteInfoList, esferaCelesteView.filterConstellation, esferaCelesteView.filterUsedInFix)[i];
        signalQualityView.satelliteInfoList[i].svid == sat.svid && signalQualityView.satelliteInfoList[i].snr == sat.snr
    {
      var filtered := esferaCelesteView.GetFilteredSatelliteInfoList();
      var satelliteInfoList: seq<SignalBars.SatelliteInfo> := [];
      for i := 0 to |filtered|
        invariant |satelliteInfoList| == i
        invariant forall k :: 0 <= k < i ==> satelliteInfoList[k] == BarInfoOf(filtered[k])
      {
        satelliteInfoList := satelliteInfoList + [SignalBars.SatelliteInfo(filtered[i].svid, filtered[i].snr)];
      }
      signalQualityView.SetSatelliteInfoList(satelliteInfoList);
    }

    /** The OK button of the filter dialog; `selected` is the text of the
        checked radio button, None when none is checked. */
    method OnFilterOk(selected: Option<string>)
      requires Synced()
      modifies esferaCelesteView`filterConstellation, esferaCelesteView`filterUsedInFix, signalQualityView
      ensures selected.None? ==> unchanged(esferaCelesteView) && unchanged(signalQualityView)
      ensures selected.Some? ==>
        var choice := ChosenFilter(selected.value, old(esferaCelesteView.filterConstellation));
        esferaCelesteView.filterConstellation == choice.constellation
        && esferaCelesteView.filterUsedInFix == choice.usedOnly
      ensures esferaCelesteView.satelliteInfoList == old(esferaCelesteView.satelliteInfoList)
      ensures esferaCelesteView.hasStatus == old(esferaCelesteView.hasStatus)
      ensures esferaCelesteView.hasLocation == old(esferaCelesteView.hasLocation)
      ensures esferaCelesteView.r == old(esferaCelesteView.r)
      ensures Synced()
    {
      if selected.Some? {
        var choice := ChosenFilter(selected.value, esferaCelesteView.GetCurrentConstellationFilter());
        esferaCelesteView.SetFilter(choice.constellation, choice.usedOnly);
        UpdateSignalQualityView();
      }
    }

    /** onSatelliteStatusChanged: the sky plot takes the new snapshot, then the
        bar chart is refreshed. */
    method OnSatelliteStatusChanged(status: seq<SkyPlot.GnssSatellite>, project: SkyPlot.Projection)
      modifies esferaCelesteView`hasStatus, esferaCelesteView`satelliteInfoList, signalQualityView
      ensures esferaCelesteView.hasStatus && esferaCelesteView.r == old(esferaCelesteView.r)
      ensures esferaCelesteView.satelliteInfoList == SkyPlot.Snapshot(status, old(esferaCelesteView.r), project)
      ensures esferaCelesteView.filterConstellation == old(esferaCelesteView.filterConstellation)
      ensures esferaCelesteView.filterUsedInFix == old(esferaCelesteView.filterUsedInFix)
      ensures Synced()
    {
      esferaCelesteView.SetNewStatus(status, project);
      UpdateSignalQualityView();
    }

    /** onLocationChanged: the sky plot takes the new location, then the bar
        chart is refreshed. */
    method OnLocationChanged(latitude: real, longitude: real, altitude: real)
      modifies esferaCelesteView`latitude, esferaCelesteView`longitude, esferaCelesteView`altitude
      modifies esferaCelesteView`hasLocation, signalQualityView
      ensures esferaCelesteView.latitude == latitude && esferaCelesteView.longitude == longitude
      ensures esferaCelesteView.altitude == altitude && esferaCelesteView.hasLocation
      ensures esferaCelesteView.filterConstellation == old(esferaCelesteView.filterConstellation)
      ensures esferaCelesteView.filterUsedInFix == old(esferaCelesteView.filterUsedInFix)
      ensures esferaCelesteView.satelliteInfoList == old(esferaCelesteView.satelliteInfoList)
      ensures Synced()
    {
      esferaCelesteView.SetNewLocation(latitude, longitude, altitude);
      UpdateSignalQualityView();
    }
  }
}
