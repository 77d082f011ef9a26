/**
 * The loading-state machine of the `Home` component of app/page.tsx, as pure
 * functions over a state value. The four React hooks are `HookState`; the rest
 * of `State` is bookkeeping of the environment: whether the mount effect ran,
 * which browser callback is outstanding, and the log of forecast requests sent.
 * The class `Page.Home` is proved to follow `Step`.
 */
module PageState {
  import opened Wrappers
  import opened ForecastTypes

  /** The provider endpoint the page requests its forecast from. */
  const ForecastEndpoint: string := "https://api.tomorrow.io/v4/weather/forecast"

  /** One forecast request: its endpoint, the `location` it carries, the HTTP method and `accept` header. */
  datatype FetchRequest = FetchRequest(endpoint: string, location: Coordinate, httpMethod: string, accept: string)

  /** The request the position-success callback sends for a reported position. */
  function ForecastRequest(c: Coordinate): (r: FetchRequest)
    ensures r.location == c && r.endpoint == ForecastEndpoint
    ensures r.httpMethod == "GET" && r.accept == "application/json"
  {
    FetchRequest(ForecastEndpoint, c, "GET", "application/json")
  }

  /** The four `useState` hooks of `Home`. */
  datatype HookState = HookState(
    coords: Coordinate,
    isLoadingCoords: bool,
    forecast: Forecast,
    isLoadingForecast: bool)

  datatype State = State(
    hooks: HookState,
    mounted: bool,           // the one-shot mount effect has run
    positionPending: bool,   // getCurrentPosition was called and has not called back
    fetchPending: bool,      // the forecast request was sent and has not settled
    fetches: seq<FetchRequest>)

  /** What happens to the page: its mount, and the callbacks of the two browser calls. */
  datatype Event =
    | Mount(hasGeolocation: bool)
    | PositionSuccess(lat: real, lon: real)
    | PositionError
    | FetchSuccess(body: Forecast)
    | FetchFailure

  /** The hooks' initial values: the default coordinate, both flags set, the empty forecast. */
  function InitialHooks(): (h: HookState)
    ensures h.coords == Coordinate(90.0, 0.0)
    ensures h.isLoadingCoords && h.isLoadingForecast
    ensures h.forecast.timelines.None? && h.forecast.location.None?
  {
    HookState(DefaultCoordinates, true, EmptyForecast, true)
  }

  function Init(): (s: State)
    ensures Inv(s)
    ensures s.hooks == InitialHooks() && s.fetches == []
  {
    State(InitialHooks(), false, false, false, [])
  }

  /**
   * The invariant of every state the page can reach. Among others: the forecast
   * flag clears only after the coordinate flag; a request has been sent exactly
   * when the coordinate flag is clear, and it carries the coordinate in state.
   */
  ghost predicate Inv(s: State) {
    var h := s.hooks;
    && (!h.isLoadingForecast ==> !h.isLoadingCoords)
    && (h.isLoadingCoords ==> h.coords == DefaultCoordinates && s.fetches == [])
    && (!h.isLoadingCoords ==> s.fetches == [ForecastRequest(h.coords)])
    && (h.isLoadingForecast ==> h.forecast == EmptyForecast)
    && (!s.mounted ==> !s.positionPending && h.isLoadingCoords)
    && (s.positionPending ==> h.isLoadingCoords)
    && (s.fetchPending <==> !h.isLoadingCoords && h.isLoadingForecast)
  }

  /** Whether an event can happen: mount once, and a callback only while its call is outstanding. */
  predicate Enabled(s: State, e: Event) {
    match e
    case Mount(_) => !s.mounted
    case PositionSuccess(_, _) => s.positionPending
    case PositionError => s.positionPending
    case FetchSuccess(_) => s.fetchPending
    case FetchFailure => s.fetchPending
  }

  /**
   * The effect of one event. Mount calls getCurrentPosition only when geolocation
   * exists. A position success sets the coordinate, clears its flag and sends one
   * request. A position error changes nothing. Either fetch outcome clears the
   * forecast flag (the `finally`); only a success stores the decoded body.
   */
  function Step(s: State, e: Event): (r: State)
    requires Enabled(s, e)
    ensures Inv(s) ==> Inv(r)
  {
    match e
    case Mount(hasGeolocation) =>
      s.(mounted := true, positionPending := hasGeolocation)
    case PositionSuccess(lat, lon) =>
      var c := Coordinate(lat, lon);
      s.(hooks := s.hooks.(coords := c, isLoadingCoords := false),
         positionPending := false, fetchPending := true,
         fetches := s.fetches + [ForecastRequest(c)])
    case PositionError =>
      s.(positionPending := false)
    case FetchSuccess(body) =>
      s.(hooks := s.hooks.(forecast := body, isLoadingForecast := false), fetchPending := false)
    case FetchFailure =>
      s.(hooks := s.hooks.(isLoadingForecast := false), fetchPending := false)
  }

  /** A state in which no callback is outstanding and the mount has happened: nothing more can occur. */
  predicate Resting(s: State) {
    s.mounted && !s.positionPending && !s.fetchPending
  }

  /** Every event of `es` is enabled in the state the events before it lead to. */
  predicate ValidTrace(s: State, es: seq<Event>)
    decreases |es|
  {
    es == [] || (Enabled(s, es[0]) && ValidTrace(Step(s, es[0]), es[1..]))
  }

  function Run(s: State, es: seq<Event>): (r: State)
    requires ValidTrace(s, es)
    decreases |es|
  {
    if es == [] then s else Run(Step(s, es[0]), es[1..])
  }

  lemma {:induction false} RunPreservesInv(s: State, es: seq<Event>)
    requires Inv(s) && ValidTrace(s, es)
    ensures Inv(Run(s, es))
    decreases |es|
  {
    if es != [] {
      RunPreservesInv(Step(s, es[0]), es[1..]);
    }
  }

  /** Running `a` then `b` is running `a + b`. */
  lemma {:induction false} RunAppend(s: State, a: seq<Event>, b: seq<Event>)
    requires ValidTrace(s, a + b)
    ensures ValidTrace(s, a) && ValidTrace(Run(s, a), b)
    ensures Run(s, a + b) == Run(Run(s, a), b)
    decreases |a|
  {
    if a != [] {
      assert (a + b)[0] == a[0];
      assert (a + b)[1..] == a[1..] + b;
      RunAppend(Step(s, a[0]), a[1..], b);
    } else {
      assert a + b == b;
    }
  }

  /** A trace splits at index `i` into the run before it, the event at `i`, and the rest. */
  lemma RunSplit(s: State, es: seq<Event>, i: nat)
    requires ValidTrace(s, es) && i < |es|
    ensures ValidTrace(s, es[..i]) && Enabled(Run(s, es[..i]), es[i])
    ensures ValidTrace(Step(Run(s, es[..i]), es[i]), es[i + 1..])
    ensures Run(s, es) == Run(Step(Run(s, es[..i]), es[i]), es[i + 1..])
  {
    assert es == es[..i] + [es[i]] + es[i + 1..];
    RunAppend(s, es[..i] + [es[i]], es[i + 1..]);
    RunAppend(s, es[..i], [es[i]]);
    var before := Run(s, es[..i]);
    assert ValidTrace(before, [es[i]]);
    assert [es[i]][1..] == [];
    assert Run(before, [es[i]]) == Step(before, es[i]);
  }

  /** A resting state admits only the empty trace. */
  lemma RestingIsFinal(s: State, es: seq<Event>)
    requires Resting(s) && ValidTrace(s, es)
    ensures es == [] && Run(s, es) == s
  {
  }

  /** Every reachable state keeps the invariant, so at most one forecast request is ever sent. */
  lemma ReachableInv(es: seq<Event>)
    requires ValidTrace(Init(), es)
    ensures Inv(Run(Init(), es)) && |Run(Init(), es).fetches| <= 1
  {
    RunPreservesInv(Init(), es);
  }

  /**
   * While no position success happens, no request is sent and the hooks do not
   * change: this covers a missing geolocation capability and a position error.
   */
  lemma {:induction false} NoPositionNoChange(s: State, es: seq<Event>)
    requires Inv(s) && s.hooks.isLoadingCoords && ValidTrace(s, es)
    requires forall i :: 0 <= i < |es| ==> !es[i].PositionSuccess?
    ensures Run(s, es).hooks == s.hooks && Run(s, es).fetches == s.fetches
    decreases |es|
  {
    if es != [] {
      assert !es[0].PositionSuccess?;
      NoPositionNoChange(Step(s, es[0]), es[1..]);
    }
  }

  /** From the start, without a position success both flags stay set and nothing is fetched. */
  lemma NoPositionStaysLoading(es: seq<Event>)
    requires ValidTrace(Init(), es)
    requires forall i :: 0 <= i < |es| ==> !es[i].PositionSuccess?
    ensures Run(Init(), es).hooks == InitialHooks()
    ensures Run(Init(), es).hooks.isLoadingCoords && Run(Init(), es).hooks.isLoadingForecast
    ensures Run(Init(), es).fetches == []
  {
    NoPositionNoChange(Init(), es);
  }

  /** Once the coordinate is settled (mounted, no position call outstanding) it never changes again. */
  lemma {:induction false} CoordsSettled(s: State, es: seq<Event>)
    requires Inv(s) && s.mounted && !s.positionPending && ValidTrace(s, es)
    ensures Run(s, es).hooks.coords == s.hooks.coords
    ensures Run(s, es).hooks.isLoadingCoords == s.hooks.isLoadingCoords
    ensures Run(s, es).fetches == s.fetches
    decreases |es|
  {
    if es != [] {
      CoordsSettled(Step(s, es[0]), es[1..]);
    }
  }

  /**
   * A position success for (lat, lon) leaves that exact coordinate in state, the
   * coordinate flag clear, and exactly one request carrying it.
   */
  lemma PositionSuccessSendsOneRequest(es: seq<Event>, i: nat)
    requires ValidTrace(Init(), es)
    requires i < |es| && es[i].PositionSuccess?
    ensures var c := Coordinate(es[i].lat, es[i].lon);
      && Run(Init(), es).hooks.coords == c
      && !Run(Init(), es).hooks.isLoadingCoords
      && Run(Init(), es).fetches == [ForecastRequest(c)]
  {
    RunSplit(Init(), es, i);
    var before := Run(Init(), es[..i]);
    RunPreservesInv(Init(), es[..i]);
    var after := Step(before, es[i]);
    CoordsSettled(after, es[i + 1..]);
  }

  /**
   * A position error is final: it is the last thing that happens, so the page
   * keeps its initial hooks (both flags set) and no request is ever sent.
   */
  lemma PositionErrorIsFinal(es: seq<Event>, i: nat)
    requires ValidTrace(Init(), es)
    requires i < |es| && es[i].PositionError?
    ensures i == |es| - 1
    ensures Run(Init(), es).hooks == InitialHooks()
    ensures Run(Init(), es).fetches == []
  {
    RunSplit(Init(), es, i);
    var before := Run(Init(), es[..i]);
    RunPreservesInv(Init(), es[..i]);
    var after := Step(before, es[i]);
    assert after.hooks == before.hooks == InitialHooks();
    RestingIsFinal(after, es[i + 1..]);
  }

  /**
   * Mounting without geolocation is final: nothing else happens, the page keeps
   * its initial hooks (both flags set) and no request is ever sent.
   */
  lemma NoGeolocationIsFinal(es: seq<Event>, i: nat)
    requires ValidTrace(Init(), es)
    requires i < |es| && es[i] == Mount(false)
    ensures i == 0 && |es| == 1
    ensures Run(Init(), es).hooks == InitialHooks()
    ensures Run(Init(), es).fetches == []
  {
    RunSplit(Init(), es, i);
    var before := Run(Init(), es[..i]);
    RunPreservesInv(Init(), es[..i]);
    if i > 0 {
      RunSplit(Init(), es[..i], 0);
      assert es[..i][0] == es[0] && es[..i][1..] == es[1..i];
      MountedStaysMounted(Step(Init(), es[0]), es[1..i]);
      assert false;
    }
    var after := Step(before, es[i]);
    RestingIsFinal(after, es[i + 1..]);
  }

  /** The mount effect runs once: after any event the page stays mounted. */
  lemma {:induction false} MountedStaysMounted(s: State, es: seq<Event>)
    requires ValidTrace(s, es) && s.mounted
    ensures Run(s, es).mounted
    decreases |es|
  {
    if es != [] {
      MountedStaysMounted(Step(s, es[0]), es[1..]);
    }
  }

  /** Before either fetch outcome the forecast flag stays set and the forecast stays empty. */
  lemma {:induction false} NoCompletionStaysLoading(s: State, es: seq<Event>)
    requires Inv(s) && s.hooks.isLoadingForecast && ValidTrace(s, es)
    requires forall i :: 0 <= i < |es| ==> !es[i].FetchSuccess? && !es[i].FetchFailure?
    ensures Run(s, es).hooks.isLoadingForecast
    ensures Run(s, es).hooks.forecast == EmptyForecast
    decreases |es|
  {
    if es != [] {
      assert !es[0].FetchSuccess? && !es[0].FetchFailure?;
      NoCompletionStaysLoading(Step(s, es[0]), es[1..]);
    }
  }

  /**
   * A fetch outcome is the last thing that happens; afterwards the forecast flag
   * is clear, and the forecast is the decoded body on success and still empty on failure.
   */
  lemma FetchOutcomeSettles(es: seq<Event>, i: nat)
    requires ValidTrace(Init(), es)
    requires i < |es| && (es[i].FetchSuccess? || es[i].FetchFailure?)
    ensures i == |es| - 1
    ensures !Run(Init(), es).hooks.isLoadingForecast
    ensures Run(Init(), es).hooks.forecast == if es[i].FetchSuccess? then es[i].body else EmptyForecast
  {
    RunSplit(Init(), es, i);
    var before := Run(Init(), es[..i]);
    RunPreservesInv(Init(), es[..i]);
    var after := Step(before, es[i]);
    assert after.mounted;
    RestingIsFinal(after, es[i + 1..]);
  }

  /** The forecast flag is clear exactly when one of the two fetch outcomes has happened. */
  lemma ForecastLoadedIffFetchSettled(es: seq<Event>)
    requires ValidTrace(Init(), es)
    ensures !Run(Init(), es).hooks.isLoadingForecast
      <==> exists i :: 0 <= i < |es| && (es[i].FetchSuccess? || es[i].FetchFailure?)
  {
    if i :| 0 <= i < |es| && (es[i].FetchSuccess? || es[i].FetchFailure?) {
      FetchOutcomeSettles(es, i);
    } else {
      NoCompletionStaysLoading(Init(), es);
    }
  }
}
