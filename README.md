# Weather page loading state, in Dafny

This project models the home page of the tenki weather app (`app/page.tsx`).
When the page mounts, it asks the browser for the current position. When the position
arrives, it stores the position and requests a forecast for it from the tomorrow.io
forecast endpoint. It stores the decoded response and shows two panels: the coordinate,
and one row per day of the forecast. Each panel shows "Loading ..." until its data is in.

The model has five modules:

- `Wrappers`: the `Option` type, used for the fields the source marks optional.
- `ForecastTypes`: the page's data types. These are the coordinate with its default `(90, 0)`,
  the forecast value records, the timelines and the location echo. `Forecast` keeps `timelines`
  and `location` as `Option`s. So "no timelines" and "timelines with an empty daily list" stay distinct.
- `PageState`: the state machine as pure functions. `HookState` holds the four `useState`
  hooks. `State` adds the environment's bookkeeping: whether the mount effect ran, which
  browser callback is outstanding, and the log of forecast requests sent. `Step` gives the
  effect of each event, and `Inv` is the invariant of every reachable state. Lemmas about
  `Run` state what any sequence of events leads to.
- `Page`: the `Home` component as a class. The four hooks are its fields, and each callback
  of the mount effect is a method. Every method states which fields it changes and which it
  leaves alone. Each is also proved to follow `PageState.Step` and to keep `Inv`.
- `PageView`: `Loading`, the daily-row mapping and the two panels of `Home`. It also holds
  lemmas on what reachable states display.

The page tracks two independent booleans, `isLoadingCoords` and `isLoadingForecast`, and
always shows the row list once the forecast flag is clear; the model does the same. In the
code, a non-2xx response does not make `fetch` reject. If its body decodes as JSON, that body
is stored as the forecast, usually without timelines. The model treats that as a fetch success
whose body has no timelines, not as a network error.

## Model

| member | source | states |
|---|---|---|
| `PageState.InitialHooks` | app/page.tsx:82-85 | the hooks start at coordinate (90, 0), with both loading flags set and a forecast with neither timelines nor location |
| `PageState.Init` | app/page.tsx:11-85 | the initial state has the initial hooks, no request sent, and satisfies the reachable-state invariant |
| `PageState.ForecastRequest` | app/page.tsx:96-97 | the request for a position carries exactly that latitude/longitude as its location, on the forecast endpoint, as a GET accepting JSON |
| `PageState.Step` | app/page.tsx:87-112 | every event preserves the invariant: the forecast flag clears only after the coordinate flag; a request is sent exactly when the coordinate flag is clear, and it carries the stored coordinate; the forecast stays empty while its flag is set |
| `PageState.RunPreservesInv` | app/page.tsx:87-112 | any sequence of enabled events from a state satisfying the invariant ends in one that satisfies it |
| `PageState.ReachableInv` | app/page.tsx:95-103 | every reachable state satisfies the invariant, so `!isLoadingForecast ==> !isLoadingCoords` and at most one forecast request is ever sent |
| `PageState.RestingIsFinal` | app/page.tsx:99-107 | once mounted with no callback outstanding, no further event can happen |
| `PageState.NoPositionNoChange` | app/page.tsx:105-111 | while no position success occurs (missing geolocation or a position error), no hook changes and no request is sent |
| `PageState.NoPositionStaysLoading` | app/page.tsx:88-111 | from the start, without a position success both flags stay true, the coordinate stays (90, 0), the forecast stays empty and the request log stays empty |
| `PageState.PositionErrorIsFinal` | app/page.tsx:105-107 | a position error is the last event: afterwards the hooks are their initial values (both flags set) and no request was ever sent |
| `PageState.NoGeolocationIsFinal` | app/page.tsx:109-111 | mounting without geolocation is the only event that ever happens; the hooks stay initial and no request is sent |
| `PageState.MountedStaysMounted` | app/page.tsx:87-112 | the mount effect runs once: after any events a mounted page stays mounted |
| `PageState.CoordsSettled` | app/page.tsx:89-95 | after the position callback has fired, the coordinate, its flag and the request log never change again |
| `PageState.PositionSuccessSendsOneRequest` | app/page.tsx:90-99 | after a position success for (lat, lon), the coordinate is exactly (lat, lon), its flag is clear, and exactly one request was sent, carrying (lat, lon) |
| `PageState.NoCompletionStaysLoading` | app/page.tsx:99-103 | until the fetch settles, the forecast flag stays set and the forecast stays empty |
| `PageState.FetchOutcomeSettles` | app/page.tsx:99-103 | a fetch outcome is the last event; afterwards the forecast flag is clear, and the forecast is the decoded body on success and still empty on failure |
| `PageState.ForecastLoadedIffFetchSettled` | app/page.tsx:100-103 | the forecast flag is clear if and only if a fetch success or a fetch failure has happened |
| `Page.Home.constructor` | app/page.tsx:82-85 | the hooks take their initial values, and no request has been sent |
| `Page.Home.Mount` | app/page.tsx:87-89 | the position is requested exactly when geolocation exists; no hook changes and no request is sent |
| `Page.Home.OnPositionSuccess` | app/page.tsx:90-99 | the coordinate becomes (lat, lon) and its flag clears; forecast state is untouched; exactly one GET request for (lat, lon) is appended to the log, which then holds one request |
| `Page.Home.OnPositionError` | app/page.tsx:105-107 | no hook changes; both flags are still set and no request has been sent |
| `Page.Home.OnFetchSuccess` | app/page.tsx:100-103 | the forecast is replaced wholesale by the decoded body and its flag clears; coordinate state and request log are untouched |
| `Page.Home.OnFetchFailure` | app/page.tsx:99-103 | the forecast stays the empty initial value and its flag still clears; coordinate state and request log are untouched |
| `Page.NoGeolocationRun` | app/page.tsx:109-111 | mounting without geolocation leaves both flags set, the default coordinate, an empty forecast and no request |
| `Page.MalformedResponseRun` | app/page.tsx:87-112 | position (51.5, -0.12) then a failed decode leaves both flags clear, that coordinate, an empty forecast and one request for it |
| `PageView.Loading` | app/page.tsx:76-78 | the placeholder is shown exactly when loading, with text "Loading " + title; otherwise the children are returned unchanged |
| `PageView.DayRows` | app/page.tsx:127 | one row per daily entry, in the same order, showing that entry's day of month and its `temperatureApparentAvg` unmodified |
| `PageView.DailyRows` | app/page.tsx:127 | there is no row list (undefined) exactly when `timelines` is absent; otherwise it has one row per daily entry, each with that entry's day and average |
| `PageView.RenderedRows` | app/page.tsx:127 | absent timelines render zero rows; present timelines render exactly the rows of the daily list, one per entry in order |
| `PageView.HomeView` | app/page.tsx:120-129 | each panel shows its placeholder exactly when its flag is set; otherwise the coordinate panel shows the stored coordinate and the forecast panel shows the daily rows |
| `PageView.ForecastShownOnlyWithCoords` | app/page.tsx:95-103 | in every reachable state, when the forecast panel shows content, the coordinate panel does too, and its coordinate is the one the request carried |
| `PageView.NoPositionShowsPlaceholders` | app/page.tsx:105-111 | without a position success, the page shows "Loading Coordinates" and "Loading Forecast" |
| `PageView.FetchFailureShowsNoRows` | app/page.tsx:99-102 | after a fetch failure the forecast panel shows content with no row list, and no rows are rendered |
| `PageView.FetchSuccessShowsBodyRows` | app/page.tsx:100-127 | after a fetch success the forecast panel shows the rows of the decoded body, and the coordinate panel shows its coordinate |
| `PageView.OneDayScenario` | app/page.tsx:90-127 | position (51.5, -0.12) and a body with one daily entry dated the 1st with average 5.2 display that coordinate and the single row (1, 5.2) |

## Left out

- JSX markup, CSS classes and page layout (app/page.tsx:114-132) are not modelled. A row is the pair (day of month, average) it displays, not its text.
- The browser geolocation call and `fetch` are not modelled as I/O. Their calls are results of `Mount` and `OnPositionSuccess`, and their outcomes are the events `PositionSuccess`, `PositionError`, `FetchSuccess` and `FetchFailure`.
- JSON decoding (`res.json()`) is not modelled. A successful decode is any `Forecast` value, stored without validation.
- `Forecast` holds only well-shaped bodies. The source stores any decoded JSON, including `null` or a body whose `timelines` lacks `daily`; rendering either throws a TypeError at app/page.tsx:127, because `?.` guards only `timelines`. The model cannot express those bodies or that throw.
- `new Date(time).getDate()` comes from the JavaScript runtime. It is the function parameter `dayOf`, which the model does not interpret.
- `dayOf` is a function of the time string alone and always yields an integer. The real call depends on the browser's local time zone and yields NaN for an unparsable string. So `PageView.OneDayScenario`'s premise that the 2024-01-01T00:00:00Z entry is day 1 holds only in time zones at or east of UTC.
- Turning latitude and longitude into text in the URL is not modelled, and neither is the API key from the environment. A request carries the coordinate as a value, and the key is not part of it.
- `console.error` logging has no effect on state and is not modelled.
- React's scheduling is not modelled: batched setter updates, re-renders, and effects run twice in development mode. The model is one mount followed by callbacks, each applied as one step.
- The distinction between a network error and a decode error is not kept. Both reach the same `catch` and are the single event `FetchFailure`.
