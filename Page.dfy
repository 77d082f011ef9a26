/**
 * The `Home` component of app/page.tsx as an object: its four `useState` hooks
 * are fields, and the callbacks of its mount effect are event methods. The
 * browser's geolocation and fetch calls are outside the model: a method that
 * would call one reports the call in its result, and the call's outcome arrives
 * later as another event. Each method is proved to follow `PageState.Step`.
 */
module Page {
  import opened Wrappers
  import opened ForecastTypes
  import opened PageState

  class Home {
    var coords: Coordinate
    var isLoadingCoords: bool
    var forecast: Forecast
    var isLoadingForecast: bool

    // What the environment has been asked for and has not yet answered.
    ghost var mounted: bool
    ghost var positionPending: bool
    ghost var fetchPending: bool
    /** Every forecast request the page has sent, in order. */
    ghost var fetches: seq<FetchRequest>

    ghost function Snapshot(): State
      reads this
    {
      State(HookState(coords, isLoadingCoords, forecast, isLoadingForecast),
            mounted, positionPending, fetchPending, fetches)
    }

    ghost predicate Valid()
      reads this
    {
      Inv(Snapshot())
    }

    /** The first render: the hooks take their initial values; nothing is requested yet. */
    constructor ()
      ensures Valid() && Snapshot() == Init()
      ensures coords == DefaultCoordinates && isLoadingCoords
      ensures forecast == EmptyForecast && isLoadingForecast
      ensures !mounted && fetches == []
    {
      coords := DefaultCoordinates;
      isLoadingCoords := true;
      forecast := EmptyForecast;
      isLoadingForecast := true;
      mounted, positionPending, fetchPending := false, false, false;
      fetches := [];
    }

    /**
     * The mount effect: asks for the current position when the browser has
     * geolocation (`positionRequested`), and otherwise only logs. No hook changes.
     */
    method Mount(hasGeolocation: bool) returns (positionRequested: bool)
      requires Valid() && !mounted
      modifies this
      ensures Valid() && Snapshot() == Step(old(Snapshot()), Event.Mount(hasGeolocation))
      ensures positionRequested == hasGeolocation && positionPending == hasGeolocation
      ensures coords == old(coords) && isLoadingCoords == old(isLoadingCoords)
      ensures forecast == old(forecast) && isLoadingForecast == old(isLoadingForecast)
      ensures fetches == old(fetches)
    {
      mounted := true;
      positionRequested := hasGeolocation;
      positionPending := positionRequested;
    }

    /**
     * The position-success callback: stores the reported coordinate, clears the
     * coordinate flag and sends one forecast request for that coordinate.
     */
    method OnPositionSuccess(lat: real, lon: real) returns (request: FetchRequest)
      requires Valid() && positionPending
      modifies this
      ensures Valid() && Snapshot() == Step(old(Snapshot()), PositionSuccess(lat, lon))
      ensures coords == Coordinate(lat, lon) && !isLoadingCoords
      ensures forecast == old(forecast) && isLoadingForecast == old(isLoadingForecast)
      ensures request.location == Coordinate(lat, lon)
      ensures request.httpMethod == "GET" && request.accept == "application/json"
      ensures fetches == old(fetches) + [request] && |fetches| == 1
    {
      coords := Coordinate(lat, lon);
      isLoadingCoords := false;
      request := ForecastRequest(Coordinate(lat, lon));
      fetches := fetches + [request];
      positionPending, fetchPending := false, true;
    }

    /** The position-error callback: only logs, so no hook changes and nothing is fetched. */
    method OnPositionError()
      requires Valid() && positionPending
      modifies this
      ensures Valid() && Snapshot() == Step(old(Snapshot()), PositionError)
      ensures coords == old(coords) && isLoadingCoords && isLoadingForecast
      ensures forecast == old(forecast) && fetches == old(fetches) == []
    {
      positionPending := false;
    }

    /** The request and its JSON decoding succeeded: the body replaces the forecast, then `finally` clears the flag. */
    method OnFetchSuccess(body: Forecast)
      requires Valid() && fetchPending
      modifies this
      ensures Valid() && Snapshot() == Step(old(Snapshot()), FetchSuccess(body))
      ensures forecast == body && !isLoadingForecast
      ensures coords == old(coords) && isLoadingCoords == old(isLoadingCoords) == false
      ensures fetches == old(fetches)
    {
      forecast := body;
      isLoadingForecast := false;
      fetchPending := false;
    }

    /** The request or its decoding failed: `catch` only logs, then `finally` clears the flag. */
    method OnFetchFailure()
      requires Valid() && fetchPending
      modifies this
      ensures Valid() && Snapshot() == Step(old(Snapshot()), FetchFailure)
      ensures forecast == old(forecast) == EmptyForecast && !isLoadingForecast
      ensures coords == old(coords) && isLoadingCoords == old(isLoadingCoords) == false
      ensures fetches == old(fetches)
    {
      isLoadingForecast := false;
      fetchPending := false;
    }
  }

  /** A page whose browser has no geolocation: both placeholders stay and nothing is fetched. */
  method NoGeolocationRun() returns (home: Home)
    ensures home.Valid() && home.isLoadingCoords && home.isLoadingForecast
    ensures home.coords == DefaultCoordinates && home.forecast == EmptyForecast && home.fetches == []
  {
    home := new Home();
    var requested := home.Mount(false);
    assert !requested;
  }

  /** Position (51.5, -0.12), then a response that fails to decode. */
  method MalformedResponseRun() returns (home: Home)
    ensures home.Valid() && !home.isLoadingCoords && !home.isLoadingForecast
    ensures home.coords == Coordinate(51.5, -0.12) && home.forecast == EmptyForecast
    ensures home.fetches == [ForecastRequest(Coordinate(51.5, -0.12))]
  {
    home := new Home();
    var requested := home.Mount(true);
    var request := home.OnPositionSuccess(51.5, -0.12);
    home.OnFetchFailure();
  }
}
