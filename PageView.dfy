/**
 * What app/page.tsx shows for a given state: the `Loading` component, the list
 * of daily rows, and the two `Loading` panels of `Home`. Markup and styling are
 * not modelled; a row is the pair of values it displays.
 * `new Date(time).getDate()` belongs to the JavaScript runtime, so the
 * day-of-month of a timestamp is the parameter `dayOf`.
 */
module PageView {
  import opened Wrappers
  import opened ForecastTypes
  import opened PageState

  /** What `Loading` renders: its placeholder text, or its children as given. */
  datatype Shown<C> = Placeholder(text: string) | Content(children: C)

  /** `Loading`: the placeholder "Loading <title>" while loading, otherwise the children untouched. */
  function Loading<C>(isLoading: bool, title: string, children: C): (r: Shown<C>)
    ensures r.Placeholder? <==> isLoading
    ensures r.Placeholder? ==> r.text == "Loading " + title
    ensures r.Content? ==> r.children == children
  {
    if isLoading then Placeholder("Loading " + title) else Content(children)
  }

  /** One daily row, "<day of month> average <temperatureApparentAvg> C". */
  datatype Row = Row(dayOfMonth: int, temperatureApparentAvg: real)

  function DayRow(day: DailyTimelineValue, dayOf: string -> int): Row {
    Row(dayOf(day.time), day.values.temperatureApparentAvg)
  }

  /** The `map` over the daily list: one row per entry, in the entries' order. */
  function DayRows(days: seq<DailyTimelineValue>, dayOf: string -> int): (r: seq<Row>)
    ensures |r| == |days|
    ensures forall i :: 0 <= i < |days| ==> r[i] == DayRow(days[i], dayOf)
  {
    if days == [] then [] else [DayRow(days[0], dayOf)] + DayRows(days[1..], dayOf)
  }

  /**
   * `forecast.timelines?.daily.map(...)`: nothing (`undefined`) when the
   * forecast has no timelines, otherwise the rows of the daily list.
   */
  function DailyRows(f: Forecast, dayOf: string -> int): (r: Option<seq<Row>>)
    ensures r.None? <==> f.timelines.None?
    ensures r.Some? ==> |r.value| == |f.timelines.value.daily|
    ensures r.Some? ==> forall i :: 0 <= i < |r.value| ==>
      r.value[i].dayOfMonth == dayOf(f.timelines.value.daily[i].time) &&
      r.value[i].temperatureApparentAvg == f.timelines.value.daily[i].values.temperatureApparentAvg
  {
    match f.timelines
    case None => None
    case Some(t) => Some(DayRows(t.daily, dayOf))
  }

  /** The rows on screen: an absent list renders as no rows at all. */
  function RenderedRows(f: Forecast, dayOf: string -> int): (r: seq<Row>)
    ensures f.timelines.None? ==> r == []
    ensures f.timelines.Some? ==> |r| == |f.timelines.value.daily|
    ensures f.timelines.Some? ==> r == DayRows(f.timelines.value.daily, dayOf)
  {
    DailyRows(f, dayOf).GetOr([])
  }

  /** The two panels of `Home`: the coordinate line and the forecast rows. */
  datatype Screen = Screen(coordinates: Shown<Coordinate>, forecast: Shown<Option<seq<Row>>>)

  function HomeView(h: HookState, dayOf: string -> int): (r: Screen)
    ensures r.coordinates.Placeholder? <==> h.isLoadingCoords
    ensures r.forecast.Placeholder? <==> h.isLoadingForecast
    ensures r.coordinates.Content? ==> r.coordinates.children == h.coords
    ensures r.forecast.Content? ==> r.forecast.children == DailyRows(h.forecast, dayOf)
  {
    Screen(Loading(h.isLoadingCoords, "Coordinates", h.coords),
           Loading(h.isLoadingForecast, "Forecast", DailyRows(h.forecast, dayOf)))
  }

  /**
   * In every reachable state, whenever the forecast panel shows its rows the
   * coordinate panel shows a coordinate, and that is the one the request carried.
   */
  lemma ForecastShownOnlyWithCoords(es: seq<Event>, dayOf: string -> int)
    requires ValidTrace(Init(), es)
    ensures var s := Run(Init(), es);
      var sc := HomeView(s.hooks, dayOf);
      sc.forecast.Content? ==>
        sc.coordinates.Content? && s.fetches == [ForecastRequest(sc.coordinates.children)]
  {
    ReachableInv(es);
  }

  /** Without a position success (no geolocation, or a position error) both placeholders stay up. */
  lemma NoPositionShowsPlaceholders(es: seq<Event>, dayOf: string -> int)
    requires ValidTrace(Init(), es)
    requires forall i :: 0 <= i < |es| ==> !es[i].PositionSuccess?
    ensures HomeView(Run(Init(), es).hooks, dayOf) ==
      Screen(Placeholder("Loading Coordinates"), Placeholder("Loading Forecast"))
  {
    NoPositionStaysLoading(es);
    assert "Loading " + "Coordinates" == "Loading Coordinates";
    assert "Loading " + "Forecast" == "Loading Forecast";
  }

  /** After a fetch failure the forecast panel shows its content, which holds no rows. */
  lemma FetchFailureShowsNoRows(es: seq<Event>, i: nat, dayOf: string -> int)
    requires ValidTrace(Init(), es)
    requires i < |es| && es[i].FetchFailure?
    ensures HomeView(Run(Init(), es).hooks, dayOf).forecast == Content(None)
    ensures RenderedRows(Run(Init(), es).hooks.forecast, dayOf) == []
  {
    FetchOutcomeSettles(es, i);
  }

  /** After a fetch success the forecast panel shows one row per daily entry of the body. */
  lemma FetchSuccessShowsBodyRows(es: seq<Event>, i: nat, dayOf: string -> int)
    requires ValidTrace(Init(), es)
    requires i < |es| && es[i].FetchSuccess?
    ensures HomeView(Run(Init(), es).hooks, dayOf).forecast == Content(DailyRows(es[i].body, dayOf))
    ensures HomeView(Run(Init(), es).hooks, dayOf).coordinates.Content?
  {
    FetchOutcomeSettles(es, i);
    ReachableInv(es);
  }

  /**
   * Position (51.5, -0.12), then a body whose daily list is one entry dated the
   * first of a month with average 5.2: the page shows the coordinate and the one
   * row (1, 5.2).
   */
  lemma OneDayScenario(dayOf: string -> int, v: ForecastValue)
    requires dayOf("2024-01-01T00:00:00Z") == 1
    ensures var day := DailyTimelineValue("2024-01-01T00:00:00Z", DailyForecastValue(v, 5.2, 5.2, 5.2));
      var body := Forecast(Some(Timelines([], [], [day])), None);
      var es := [Mount(true), PositionSuccess(51.5, -0.12), FetchSuccess(body)];
      ValidTrace(Init(), es) &&
      HomeView(Run(Init(), es).hooks, dayOf) ==
        Screen(Content(Coordinate(51.5, -0.12)), Content(Some([Row(1, 5.2)])))
  {
    var day := DailyTimelineValue("2024-01-01T00:00:00Z", DailyForecastValue(v, 5.2, 5.2, 5.2));
    var body := Forecast(Some(Timelines([], [], [day])), None);
    var es := [Mount(true), PositionSuccess(51.5, -0.12), FetchSuccess(body)];
    var s1 := Step(Init(), es[0]);
    var s2 := Step(s1, es[1]);
    var s3 := Step(s2, es[2]);
    assert ValidTrace(s3, es[3..]);
    assert ValidTrace(s2, es[2..]);
    assert ValidTrace(s1, es[1..]);
    assert Run(Init(), es) == s3 by {
      assert Run(s2, es[2..]) == s3;
      assert Run(s1, es[1..]) == s3;
    }
    assert DayRows([day], dayOf) == [Row(1, 5.2)];
  }
}
