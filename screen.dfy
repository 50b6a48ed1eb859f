/**
 * The screen itself (`MainActivity`): the state its widgets hold, and the
 * handlers that change it: the info spinner, the retrieve button, and
 * the callbacks that receive the service's answers.
 */
module Screen {
  import opened Wrappers
  import opened Labels
  import opened Countries
  import opened CasesText
  import opened Chart

  /** A query handed to the view model: the service, the country's slug and the status key. */
  datatype Request =
    | DayOneRequest(slug: string, status: string)
    | ByCountryRequest(slug: string, status: string)

  class MainActivity {
    /** The country spinner's entries (`countryAdapter`). */
    var countryAdapter: seq<string>
    /** `countryNameSlugMap`: the slug of each country name in the spinner. */
    var countryNameSlugMap: map<string, string>
    /** `viewModeTv` and `viewModeRg`, which are always shown or hidden together. */
    var viewModeVisible: bool
    /** `resultTv`, the text pane. */
    var textVisible: bool
    /** `resultGv`, the graph. */
    var graphVisible: bool
    /** `progressBar`. */
    var progressVisible: bool
    /** What `resultTv` shows. */
    var resultText: string
    /** How many "no results" toasts have been shown. */
    var notices: nat
    /** The graph's series; each holds its points. */
    var series: seq<seq<Point>>
    /** The manual bounds of the graph, once they have been set. */
    var viewport: Option<Viewport>
    /** The queries sent to the view model, oldest first. */
    var requests: seq<Request>
    /** Whether a callback has thrown, which ends the activity. */
    var crashed: bool

    /** Every spinner entry is a non-empty name, and the map's keys are exactly the entries. */
    ghost predicate Tables()
      reads this
    {
      Consistent(countryAdapter, countryNameSlugMap)
    }

    /**
     * Whatever the country spinner shows can be looked up: a selected entry
     * is a key of the map, so the `!!` in the fetches does not throw.
     */
    lemma SelectedCountryResolves(countryName: string)
      requires Tables() && countryName in countryAdapter
      ensures countryName in countryNameSlugMap
    {
    }

    /**
     * `onCreate`: the layout's initial visibilities are given; the country
     * adapter and map start out empty, nothing has been queried or shown.
     */
    constructor(textShown: bool, graphShown: bool, viewModeShown: bool)
      ensures Tables()
      ensures countryAdapter == [] && countryNameSlugMap == map[]
      ensures textVisible == textShown && graphVisible == graphShown && viewModeVisible == viewModeShown
      ensures !progressVisible && resultText == "" && notices == 0
      ensures series == [] && viewport == None && requests == [] && !crashed
    {
      countryAdapter := [];
      countryNameSlugMap := map[];
      textVisible := textShown;
      graphVisible := graphShown;
      viewModeVisible := viewModeShown;
      progressVisible := false;
      resultText := "";
      notices := 0;
      series := [];
      viewport := None;
      requests := [];
      crashed := false;
    }

    /**
     * The observer of the country list: walks the list sorted by name and,
     * for each non-empty name, adds it to the spinner and binds it to its
     * slug in the map.
     */
    method OnCountriesFetched(countryList: seq<CountryEntry>)
      requires Tables()
      modifies this`countryAdapter, this`countryNameSlugMap
      ensures Tables()
      ensures countryAdapter == old(countryAdapter) + AdapterNames(SortByName(countryList))
      ensures countryNameSlugMap == Bind(old(countryNameSlugMap), SortByName(countryList))
      ensures old(countryAdapter) == [] ==> SortedNames(countryAdapter)
    {
      var sorted := SortByName(countryList);
      var i := 0;
      while i < |sorted|
        invariant i <= |sorted|
        invariant countryAdapter == old(countryAdapter) + AdapterNames(sorted[..i])
        invariant countryNameSlugMap == Bind(old(countryNameSlugMap), sorted[..i])
      {
        var entry := sorted[i];
        WalkStep(old(countryNameSlugMap), sorted, i);
        if entry.country != "" {
          assert countryAdapter + [entry.country] == old(countryAdapter) + (AdapterNames(sorted[..i]) + [entry.country]);
          countryAdapter := countryAdapter + [entry.country];
          countryNameSlugMap := countryNameSlugMap[entry.country := entry.slug];
        }
        i := i + 1;
      }
      assert sorted[..i] == sorted;
      AfterCallback(old(countryAdapter), old(countryNameSlugMap), countryList);
    }

    /** `modoGrafico`: exactly one of the text pane and the graph is shown, the graph when `ligado`. */
    method ModoGrafico(ligado: bool)
      modifies this`textVisible, this`graphVisible
      ensures graphVisible == ligado && textVisible == !ligado
    {
      if ligado {
        textVisible := false;
        graphVisible := true;
      } else {
        textVisible := true;
        graphVisible := false;
      }
    }

    /**
     * The info spinner's `onItemSelected`: the view-mode controls are shown
     * for "Por dia", hidden for "Por país", and left alone for any other
     * position.
     */
    method OnInfoItemSelected(position: int)
      modifies this`viewModeVisible
      ensures InformationAt(position) == Some(DayOneInfo) ==> viewModeVisible
      ensures InformationAt(position) == Some(ByCountryInfo) ==> !viewModeVisible
      ensures InformationAt(position) == None ==> viewModeVisible == old(viewModeVisible)
    {
      if position == DayOneInfo.Ordinal() {
        viewModeVisible := true;
      } else if position == ByCountryInfo.Ordinal() {
        viewModeVisible := false;
      }
    }

    /**
     * `onRetrieveClick`: shows the progress bar and queries the day-one
     * service when the info spinner shows "Por dia", the by-country service
     * otherwise; the latter also switches to the text pane.
     */
    method OnRetrieveClick(infoLabel: string, countryName: string, statusLabel: string)
      requires countryName in countryNameSlugMap
      modifies this`progressVisible, this`textVisible, this`graphVisible, this`requests
      ensures progressVisible
      ensures infoLabel == DayOneInfo.Desc() ==>
                requests == old(requests) + [DayOneRequest(countryNameSlugMap[countryName], TypeByDesc(statusLabel))] &&
                textVisible == old(textVisible) && graphVisible == old(graphVisible)
      ensures infoLabel != DayOneInfo.Desc() ==>
                requests == old(requests) + [ByCountryRequest(countryNameSlugMap[countryName], TypeByDesc(statusLabel))] &&
                textVisible && !graphVisible
    {
      progressVisible := true;
      if infoLabel == DayOneInfo.Desc() {
        FetchDayOne(countryName, statusLabel);
      } else {
        FetchByCountry(countryName, statusLabel);
      }
    }

    /** `fetchDayOne`, up to the query: the selected country's slug and the selected status's key. */
    method FetchDayOne(countryName: string, statusLabel: string)
      requires countryName in countryNameSlugMap
      modifies this`requests
      ensures requests == old(requests) + [DayOneRequest(countryNameSlugMap[countryName], TypeByDesc(statusLabel))]
    {
      var countrySlug := countryNameSlugMap[countryName];
      requests := requests + [DayOneRequest(countrySlug, TypeByDesc(statusLabel))];
    }

    /** `fetchByCountry`, up to the query: switches to the text pane, then queries. */
    method FetchByCountry(countryName: string, statusLabel: string)
      requires countryName in countryNameSlugMap
      modifies this`textVisible, this`graphVisible, this`requests
      ensures requests == old(requests) + [ByCountryRequest(countryNameSlugMap[countryName], TypeByDesc(statusLabel))]
      ensures textVisible && !graphVisible
    {
      var countrySlug := countryNameSlugMap[countryName];
      ModoGrafico(false);
      requests := requests + [ByCountryRequest(countrySlug, TypeByDesc(statusLabel))];
    }

    /**
     * The observer of a day-one answer. In text mode the records' text is
     * shown in the text pane. In graph mode the graph's series are replaced
     * by one series of the records' points and, when there is at least one
     * point, the bounds are set from the first and the last point; an empty
     * answer raises the notice and leaves the previous bounds. A date that
     * cannot be read ends the activity.
     */
    method OnDayOneFetched(items: seq<DayOneItem>, textModeChecked: bool)
      modifies this`progressVisible, this`textVisible, this`graphVisible, this`resultText
      modifies this`notices, this`series, this`viewport, this`crashed
      ensures !progressVisible
      ensures graphVisible == !textModeChecked && textVisible == textModeChecked
      ensures textModeChecked ==>
                && crashed == (old(crashed) || Text(DayOne(items)).Failure?)
                && resultText == (if Text(DayOne(items)).Success? then Text(DayOne(items)).value else old(resultText))
                && notices == old(notices) + (if items == [] then 1 else 0)
                && series == old(series) && viewport == old(viewport)
      ensures !textModeChecked && Points(items).Failure? ==>
                crashed && series == [] && viewport == old(viewport) && notices == old(notices)
      ensures !textModeChecked && Points(items).Success? ==>
                && crashed == old(crashed)
                && series == [Points(items).value]
                && viewport == (if items == [] then old(viewport) else Bounds(Points(items).value))
                && notices == old(notices) + (if items == [] then 1 else 0)
      ensures !textModeChecked ==> resultText == old(resultText)
    {
      progressVisible := false;
      if textModeChecked {
        ModoGrafico(false);
        var text, notice := CasesListToString(DayOne(items));
        if notice {
          notices := notices + 1;
        }
        if text.Failure? {
          crashed := true;
          return;
        }
        resultText := text.value;
      } else {
        ModoGrafico(true);
        series := [];
        var points := PreparePoints(items);
        if points.Failure? {
          crashed := true;
          return;
        }
        series := [points.value];
        PointsSpec(items);
        if points.value != [] {
          viewport := Bounds(points.value);
        } else {
          notices := notices + 1;
        }
      }
    }

    /** The observer of a by-country answer: the records' text, in the text pane. */
    method OnByCountryFetched(items: seq<ByCountryItem>)
      modifies this`progressVisible, this`resultText, this`notices, this`crashed
      ensures !progressVisible
      ensures crashed == (old(crashed) || Text(ByCountry(items)).Failure?)
      ensures resultText == (if Text(ByCountry(items)).Success? then Text(ByCountry(items)).value else old(resultText))
      ensures notices == old(notices) + (if items == [] then 1 else 0)
    {
      progressVisible := false;
      var text, notice := CasesListToString(ByCountry(items));
      if notice {
        notices := notices + 1;
      }
      if text.Failure? {
        crashed := true;
        return;
      }
      resultText := text.value;
    }
  }
}
