/**
 * The widget's controller as a pure transition function. The three page
 * regions, the selected location and the location button's disabled flag form
 * the state; user actions and the settling of the host's asynchronous requests
 * are events; the requests the controller issues are effects. Each fetch join
 * is one event, so overlapping loads settle in whatever order the events come.
 */
module Controller {

  import opened Common
  import Hourly
  import Daily
  import Current
  import Search

  /** A location: coordinates and the name shown for it. */
  datatype Location = Location(lat: real, lon: real, name: string)

  /** What a page region shows. */
  datatype Region<T> = Loading | Populated(content: T) | Error(message: string)

  datatype App = App(
    current: Region<Current.Card>,
    hourly: Region<seq<Hourly.Entry>>,
    daily: Region<seq<Daily.Card>>,
    location: Option<Location>,  // the selected location, `null` before the first load
    locating: bool)              // the location button is disabled

  const NotFoundMessage: string := "No se encontró la ubicación. Intenta con otra ciudad o usa coordenadas."
  const SearchFailedMessage: string := "Error al buscar la ubicación. Inténtalo de nuevo."
  const NoGeolocationMessage: string := "Geolocalización no disponible en este navegador."
  const PositionFailedMessage: string := "No se pudo obtener tu ubicación. Verifica los permisos."
  const LoadFailedMessage: string := "Error al cargar los datos meteorológicos. Inténtalo de nuevo."
  const DeviceLocationName: string := "Tu ubicación"
  const Madrid: Location := Location(40.4168, -3.7038, "Madrid, España")

  /** A weather load: where, and whether it came from the location button. */
  datatype LoadRequest = LoadRequest(location: Location, fromDevice: bool)

  datatype Forecast = Forecast(hourly: Hourly.AlignedSeries, daily: Daily.AlignedSeries)

  /**
   * The joint outcome of the current-conditions fetch and the forecast fetch.
   * `LoadFailed` stands for either fetch failing (a non-success status or an
   * unreadable body) and for a render step throwing on the payload.
   */
  datatype LoadOutcome = Loaded(reading: Current.Reading, forecast: Forecast) | LoadFailed

  /** One fetch of the pair: its parsed payload, or a rejection. */
  datatype Fetch<T> = Fetched(value: T) | FetchFailed

  /**
   * `Promise.all` over the two fetches: the load succeeds only when both do,
   * with both payloads; a rejection of either fails the whole load.
   */
  function Join(current: Fetch<Current.Reading>, forecast: Fetch<Forecast>): (outcome: LoadOutcome)
    ensures outcome.Loaded? <==> current.Fetched? && forecast.Fetched?
    ensures outcome.Loaded? ==> outcome.reading == current.value && outcome.forecast == forecast.value
  {
    match (current, forecast)
    case (Fetched(reading), Fetched(f)) => Loaded(reading, f)
    case _ => LoadFailed
  }

  /** The geocoder either answers (with a possibly missing or empty list) or throws. */
  datatype GeocodeOutcome = GeocodeAnswered(results: Option<seq<Search.Place>>) | GeocodeFailed

  datatype PositionOutcome = PositionFound(latitude: real, longitude: real) | PositionFailed

  datatype Event =
    | SearchSubmitted(text: string)                                // search button or Enter
    | GeocodeSettled(geocode: GeocodeOutcome)
    | LoadSettled(request: LoadRequest, now: int, load: LoadOutcome)
    | LocationClicked(geolocationSupported: bool)
    | PositionSettled(position: PositionOutcome)

  /** The requests the controller hands to the host. */
  datatype Effect =
    | NoEffect
    | FetchWeather(request: LoadRequest)
    | FetchGeocode(query: string)
    | RequestPosition

  predicate AllLoading(s: App)
  {
    s.current.Loading? && s.hourly.Loading? && s.daily.Loading?
  }

  predicate AllError(s: App, message: string)
  {
    s.current == Error(message) && s.hourly == Error(message) && s.daily == Error(message)
  }

  predicate AllPopulated(s: App)
  {
    s.current.Populated? && s.hourly.Populated? && s.daily.Populated?
  }

  /** The regions move together: all loading, all populated, or all the same error. */
  predicate Coherent(s: App)
  {
    AllLoading(s) || AllPopulated(s) || (s.current.Error? && AllError(s, s.current.message))
  }

  /**
   * The three regions are exactly what the settling of the successful load
   * `e` renders: its reading under its request's name, and the hourly and
   * daily strips of its forecast at its instant.
   */
  predicate RenderedBy(s: App, e: Event)
  {
    && e.LoadSettled? && e.load.Loaded?
    && s.current == Populated(Current.Render(e.load.reading, e.request.location.name))
    && s.hourly == Populated(Hourly.Window(e.load.forecast.hourly, e.now))
    && s.daily == Populated(Daily.View(e.load.forecast.daily))
  }

  predicate SameRegions(s: App, t: App)
  {
    s.current == t.current && s.hourly == t.hourly && s.daily == t.daily
  }

  /** `loadWeatherData` up to its join: select the location, show loading, fetch. */
  function BeginLoad(s: App, loc: Location, fromDevice: bool): (r: (App, Effect))
    ensures r.0.location == Some(loc) && r.0.locating == s.locating
    ensures AllLoading(r.0)
    ensures r.1 == FetchWeather(LoadRequest(loc, fromDevice))
  {
    (s.(current := Loading, hourly := Loading, daily := Loading, location := Some(loc)),
     FetchWeather(LoadRequest(loc, fromDevice)))
  }

  /** `showError`: the same message in all three regions; nothing else changes. */
  function ShowError(s: App, message: string): (t: App)
    ensures AllError(t, message)
    ensures t.location == s.location && t.locating == s.locating
  {
    s.(current := Error(message), hourly := Error(message), daily := Error(message))
  }

  /**
   * `loadWeatherData` after its join: on success all three regions are
   * rendered from that one load, the current panel under the name the load
   * was asked with; on failure all three show the load error. The selected
   * location stays as it is, and a load started by the location button
   * re-enables the button once it settles.
   */
  function FinishLoad(s: App, req: LoadRequest, now: int, outcome: LoadOutcome): (t: App)
    ensures t.location == s.location
    ensures t.locating == (s.locating && !req.fromDevice)
    ensures outcome.LoadFailed? ==> AllError(t, LoadFailedMessage)
    ensures outcome.Loaded? ==>
      && t.current == Populated(Current.Render(outcome.reading, req.location.name))
      && t.hourly == Populated(Hourly.Window(outcome.forecast.hourly, now))
      && t.daily == Populated(Daily.View(outcome.forecast.daily))
  {
    var settled :=
      match outcome
      case Loaded(reading, forecast) =>
        s.(current := Populated(Current.Render(reading, req.location.name)),
           hourly := Populated(Hourly.Window(forecast.hourly, now)),
           daily := Populated(Daily.View(forecast.daily)))
      case LoadFailed => ShowError(s, LoadFailedMessage);
    if req.fromDevice then settled.(locating := false) else settled
  }

  /** The location a coordinate search loads: parsed groups, named by their 4-decimal forms. */
  function CoordinateLocation(num: Search.Numerics, latText: string, lonText: string): Location
  {
    var lat := num.parseFloat(latText);
    var lon := num.parseFloat(lonText);
    Location(lat, lon, num.toFixed4(lat) + ", " + num.toFixed4(lon))
  }

  /**
   * `handleSearch`: blank text changes nothing and issues nothing; text whose
   * trim has the coordinate form loads those coordinates without geocoding;
   * any other text is geocoded as trimmed, with the state unchanged.
   */
  function HandleSearch(s: App, text: string, num: Search.Numerics): (r: (App, Effect))
    ensures Search.AllSpace(text) ==> r == (s, NoEffect)
    ensures forall lat, lon :: Search.CoordinateForm(Search.Trim(text), lat, lon) ==>
      r == BeginLoad(s, CoordinateLocation(num, lat, lon), false)
    ensures !Search.AllSpace(text) && (forall lat, lon :: !Search.CoordinateForm(Search.Trim(text), lat, lon)) ==>
      r == (s, FetchGeocode(Search.Trim(text)))
  {
    Search.CoordinateFormDetermined(Search.Trim(text));
    match Search.Classify(text)
    case Ignore => (s, NoEffect)
    case Coordinates(lat, lon) => BeginLoad(s, CoordinateLocation(num, lat, lon), false)
    case PlaceName(query) => (s, FetchGeocode(query))
  }

  /**
   * `searchLocation` after the geocoder settles: a first result is selected
   * and loaded under its composed name, with every region loading; no result or a thrown error shows its own
   * message, issues no load and keeps the selected location.
   */
  function HandleGeocode(s: App, outcome: GeocodeOutcome): (r: (App, Effect))
    ensures outcome.GeocodeAnswered? && Search.FirstResult(outcome.results).Some? ==>
      var p := Search.FirstResult(outcome.results).value;
      && r.0.location == Some(Location(p.latitude, p.longitude, Search.PlaceLabel(p)))
      && AllLoading(r.0)
      && r.1 == FetchWeather(LoadRequest(Location(p.latitude, p.longitude, Search.PlaceLabel(p)), false))
    ensures outcome.GeocodeAnswered? && Search.FirstResult(outcome.results).None? ==>
      AllError(r.0, NotFoundMessage) && r.1 == NoEffect && r.0.location == s.location
    ensures outcome.GeocodeFailed? ==>
      AllError(r.0, SearchFailedMessage) && r.1 == NoEffect && r.0.location == s.location
    ensures r.0.locating == s.locating
  {
    match outcome
    case GeocodeAnswered(results) =>
      (match Search.FirstResult(results)
       case Some(p) => BeginLoad(s, Location(p.latitude, p.longitude, Search.PlaceLabel(p)), false)
       case None => (ShowError(s, NotFoundMessage), NoEffect))
    case GeocodeFailed => (ShowError(s, SearchFailedMessage), NoEffect)
  }

  /**
   * `getUserLocation` when the button is clicked: without geolocation an error
   * shows and the button is untouched; otherwise the button is disabled and
   * the position is requested. A disabled button receives no click, so a
   * click while locating changes nothing.
   */
  function HandleLocationClick(s: App, supported: bool): (r: (App, Effect))
    ensures s.locating ==> r == (s, NoEffect)
    ensures !s.locating && !supported ==>
      AllError(r.0, NoGeolocationMessage) && !r.0.locating && r.0.location == s.location && r.1 == NoEffect
    ensures !s.locating && supported ==>
      r.0.locating && SameRegions(r.0, s) && r.0.location == s.location && r.1 == RequestPosition
  {
    if s.locating then (s, NoEffect)
    else if !supported then (ShowError(s, NoGeolocationMessage), NoEffect)
    else (s.(locating := true), RequestPosition)
  }

  /**
   * The two callbacks of the position request: a found position loads under
   * "Tu ubicación" with the button still disabled (it is enabled when that
   * load settles); a failure shows its message and enables the button.
   */
  function HandlePosition(s: App, outcome: PositionOutcome): (r: (App, Effect))
    ensures outcome.PositionFound? ==>
      var loc := Location(outcome.latitude, outcome.longitude, DeviceLocationName);
      && r.1 == FetchWeather(LoadRequest(loc, true))
      && r.0.location == Some(loc) && AllLoading(r.0) && r.0.locating == s.locating
    ensures outcome.PositionFailed? ==>
      AllError(r.0, PositionFailedMessage) && !r.0.locating && r.0.location == s.location && r.1 == NoEffect
  {
    match outcome
    case PositionFound(lat, lon) => BeginLoad(s, Location(lat, lon, DeviceLocationName), true)
    case PositionFailed => (ShowError(s, PositionFailedMessage).(locating := false), NoEffect)
  }

  /**
   * One event. Whatever happens, the regions stay together; an event that
   * leaves the regions populated and changes them is a successful load that
   * rendered all three; the selected location changes only when a weather
   * load begins (and then to that load's location); and only the location
   * button's own events touch its flag.
   */
  function Step(s: App, e: Event, num: Search.Numerics): (r: (App, Effect))
    ensures Coherent(s) ==> Coherent(r.0)
    ensures r.0.current.Populated? && !SameRegions(r.0, s) ==> RenderedBy(r.0, e)
    ensures r.1.FetchWeather? ==> r.0.location == Some(r.1.request.location) && AllLoading(r.0)
    ensures r.0.location != s.location ==> r.1.FetchWeather?
    ensures r.0.locating != s.locating ==>
      e.LocationClicked? || e.PositionSettled? || (e.LoadSettled? && e.request.fromDevice)
  {
    match e
    case SearchSubmitted(text) => HandleSearch(s, text, num)
    case GeocodeSettled(outcome) => HandleGeocode(s, outcome)
    case LoadSettled(req, now, outcome) => (FinishLoad(s, req, now, outcome), NoEffect)
    case LocationClicked(supported) => HandleLocationClick(s, supported)
    case PositionSettled(outcome) => HandlePosition(s, outcome)
  }

  /**
   * Page start-up: no location yet, then the default load of Madrid, which
   * shows loading in every region.
   */
  function Start(): (r: (App, Effect))
    ensures AllLoading(r.0) && Coherent(r.0) && !r.0.locating
    ensures r.0.location == Some(Madrid)
    ensures r.1 == FetchWeather(LoadRequest(Madrid, false))
  {
    BeginLoad(App(Loading, Loading, Loading, None, false), Madrid, false)
  }

  /**
   * A load whose current-conditions fetch succeeds while its forecast fetch
   * fails leaves no region populated: all three show the load error.
   */
  lemma OneFailedFetchFailsAll(s: App, req: LoadRequest, now: int, reading: Current.Reading, num: Search.Numerics)
    ensures AllError(Step(s, LoadSettled(req, now, Join(Fetched(reading), FetchFailed)), num).0, LoadFailedMessage)
  {
  }

  /** The events in order, with the effects they issued. */
  function Run(s: App, es: seq<Event>, num: Search.Numerics): (App, seq<Effect>)
    decreases |es|
  {
    if |es| == 0 then (s, [])
    else
      var (t, eff) := Step(s, es[0], num);
      var (u, effs) := Run(t, es[1..], num);
      (u, [eff] + effs)
  }

  /** The location of the last weather load among the effects, if any. */
  function LastLoad(effs: seq<Effect>): Option<Location>
  {
    if |effs| == 0 then None
    else match LastLoad(effs[1..])
      case Some(loc) => Some(loc)
      case None => if effs[0].FetchWeather? then Some(effs[0].request.location) else None
  }

  /** After any sequence of events from a coherent state, the regions are still together. */
  lemma {:induction false} RunCoherent(s: App, es: seq<Event>, num: Search.Numerics)
    requires Coherent(s)
    ensures Coherent(Run(s, es, num).0)
    decreases |es|
  {
    if |es| > 0 {
      RunCoherent(Step(s, es[0], num).0, es[1..], num);
    }
  }

  /**
   * The selected location after any sequence of events is the location of the
   * last weather load issued, or the starting one if none was: nothing but
   * `loadWeatherData` changes it, and a failing load does not undo it.
   */
  lemma {:induction false} RunLocation(s: App, es: seq<Event>, num: Search.Numerics)
    ensures Run(s, es, num).0.location ==
      (if LastLoad(Run(s, es, num).1).Some? then LastLoad(Run(s, es, num).1) else s.location)
    decreases |es|
  {
    if |es| > 0 {
      RunLocation(Step(s, es[0], num).0, es[1..], num);
    }
  }

  /** Populated regions are the rendering of one successful load in `history`. */
  ghost predicate FromHistory(s: App, history: seq<Event>)
  {
    s.current.Populated? ==> exists j :: 0 <= j < |history| && RenderedBy(s, history[j])
  }

  /** One event keeps the regions accounted for by the history that includes it. */
  lemma StepFromHistory(s: App, history: seq<Event>, e: Event, num: Search.Numerics)
    requires FromHistory(s, history)
    ensures FromHistory(Step(s, e, num).0, history + [e])
  {
    var t := Step(s, e, num).0;
    var h := history + [e];
    if t.current.Populated? {
      if SameRegions(t, s) {
        var j :| 0 <= j < |history| && RenderedBy(s, history[j]);
        assert h[j] == history[j];
      } else {
        assert h[|history|] == e;
      }
    }
  }

  /**
   * After any sequence of events, populated regions were all rendered by one
   * successful load settled in the history: the events before (`pre`) or
   * during (`es`) the run.
   */
  lemma {:induction false} RunFromOneLoad(s: App, pre: seq<Event>, es: seq<Event>, num: Search.Numerics)
    requires FromHistory(s, pre)
    ensures FromHistory(Run(s, es, num).0, pre + es)
    decreases |es|
  {
    if |es| == 0 {
      assert pre + es == pre;
    } else {
      StepFromHistory(s, pre, es[0], num);
      RunFromOneLoad(Step(s, es[0], num).0, pre + [es[0]], es[1..], num);
      assert pre + [es[0]] + es[1..] == pre + es;
    }
  }

  /**
   * From start-up, whatever the events, the three regions are never mixed:
   * they are all loading, all the same error, or all the rendering of one
   * successful load among the events.
   */
  lemma NeverMixed(es: seq<Event>, num: Search.Numerics)
    ensures Coherent(Run(Start().0, es, num).0)
    ensures Run(Start().0, es, num).0.current.Populated? ==>
      exists j :: 0 <= j < |es| && RenderedBy(Run(Start().0, es, num).0, es[j])
  {
    RunCoherent(Start().0, es, num);
    RunFromOneLoad(Start().0, [], es, num);
    assert [] + es == es;
    assert FromHistory(Run(Start().0, es, num).0, es);
  }
}
