/** The weather resolution pipeline of `WeatherClient`: geocode the
    (city, state) pair, look up the forecast grid point for the first
    candidate's coordinates, fetch the forecast the grid point names, and
    assemble the result dictionary. Each HTTP exchange is one call of an
    abstract `http` function; the record of the requests a run issued shows
    which stages it reached. */
module Weather {
  import opened Values

  const BASE_URL := "https://api.weather.gov"
  const GEO_URL := "https://nominatim.openstreetmap.org/search"
  const DEFAULT_TIMEOUT := 5
  /** The current period and the twelve after it. */
  const MAX_PERIODS: nat := 13

  const GEOCODE_FAILED := "Geocoding failed: "
  const GRID_FAILED := "Failed to get grid point: "
  const FORECAST_FAILED := "Failed to fetch forecast: "
  const NOT_A_FLOAT := "could not convert string to float"
  const FLOAT_ARGUMENT := "float() argument must be a string or a real number"

  /** One GET: the URL (whatever value the code passes), the query
      parameters and the timeout. */
  datatype Request = Request(url: Json, params: map<string, string>, timeout: int)

  /** The outcome of `requests.get`, `raise_for_status` and `.json()`:
      the decoded body, or a `RequestException` with its text. */
  datatype Response = Received(body: Json) | NetErr(reason: string)

  /** The collaborators the client cannot see into: the network, and
      Python's parsing of float text and `str()` formatting of floats. */
  datatype Env = Env(http: Request -> Response, parseFloat: string -> Option<real>, showFloat: real -> string)

  /** The dictionary `get_weather` returns. */
  datatype WeatherResult = WeatherResult(
    location: Json, periods: Json, gridId: Json, gridX: Json, gridY: Json, lat: real, lon: real)

  /** The result as the dictionary that is cached and displayed. */
  function ToJson(w: WeatherResult): (j: Json)
    ensures j.JObj? && Truthy(j)
    ensures j.fields.Keys == {"location", "periods", "grid_id", "grid_point", "lat", "lon"}
    ensures j.fields["location"] == w.location && j.fields["periods"] == w.periods
    ensures j.fields["grid_id"] == w.gridId
    ensures j.fields["grid_point"] == JObj(map["x" := w.gridX, "y" := w.gridY])
    ensures j.fields["lat"] == JFloat(w.lat) && j.fields["lon"] == JFloat(w.lon)
  {
    JObj(map["location" := w.location, "periods" := w.periods, "grid_id" := w.gridId,
             "grid_point" := JObj(map["x" := w.gridX, "y" := w.gridY]),
             "lat" := JFloat(w.lat), "lon" := JFloat(w.lon)])
  }

  /** Everything one call of `get_weather` did: what it returned or
      raised, and the requests it issued, in order. */
  datatype Run = Run(outcome: Result<WeatherResult>, calls: seq<Request>)

  /** The message prefix of the stage whose request is the `n`-th. */
  function StagePrefix(n: nat): string
  {
    if n <= 1 then GEOCODE_FAILED else if n == 2 then GRID_FAILED else FORECAST_FAILED
  }

  /** `float(j)`: numbers convert exactly, text through `parseFloat`
      (`ValueError` when it is not a float), anything else is a `TypeError`. */
  function Float(env: Env, j: Json): (r: Result<real>)
    ensures j.JInt? ==> r == Ok(j.i as real)
    ensures j.JFloat? ==> r == Ok(j.x)
    ensures j.JStr? ==> (r.Ok? <==> env.parseFloat(j.s).Some?)
    ensures j.JStr? && r.Ok? ==> Some(r.value) == env.parseFloat(j.s)
    ensures j.JStr? && r.Err? ==> r == Err(ValueError(NOT_A_FLOAT))
    ensures j.JNull? || j.JArr? || j.JObj? ==> r == Err(TypeError(FLOAT_ARGUMENT))
  {
    match j
    case JInt(i) => Ok(i as real)
    case JFloat(x) => Ok(x)
    case JBool(b) => Ok(if b then 1.0 else 0.0)
    case JStr(text) =>
      (match env.parseFloat(text)
       case None => Err(ValueError(NOT_A_FLOAT))
       case Some(x) => Ok(x))
    case _ => Err(TypeError(FLOAT_ARGUMENT))
  }

  /** `float(candidate[field])`: the subscript's error if the field cannot
      be read, otherwise the conversion of its value. */
  function Coordinate(env: Env, candidate: Json, field: string): (r: Result<real>)
    ensures r.Err? ==> !r.error.RuntimeError?
    ensures Index(candidate, field).Err? ==> r == Err(Index(candidate, field).error)
    ensures candidate.JObj? && field !in candidate.fields ==> r == Err(KeyError(Field(field)))
    ensures Index(candidate, field).Ok? ==> r == Float(env, candidate.fields[field])
  {
    var raw :- Index(candidate, field);
    Float(env, raw)
  }

  /** `properties = grid_data["properties"]` and `properties["forecast"]`,
      read before the forecast is fetched. */
  function ForecastLink(grid: Json): (r: Result<(Json, Json)>)
    ensures r.Ok? <==> Dig(grid, ["properties", "forecast"]).Ok?
    ensures r.Ok? ==> Dig(grid, ["properties"]) == Ok(r.value.0)
                      && Dig(grid, ["properties", "forecast"]) == Ok(r.value.1)
    ensures r.Err? ==> r == Err(Dig(grid, ["properties", "forecast"]).error)
  {
    var properties :- Index(grid, "properties");
    var url :- Index(properties, "forecast");
    Ok((properties, url))
  }

  /** The forecast response has a `properties.periods` value that can be sliced. */
  predicate PeriodsReadable(forecast: Json)
  {
    Dig(forecast, ["properties", "periods"]).Ok? && Take(Dig(forecast, ["properties", "periods"]).value, MAX_PERIODS).Ok?
  }

  /** The reads after the forecast fetch, in the order the source does
      them: the forecast's periods (cut to 13), then the location name,
      the grid id and the grid coordinates from the grid properties. */
  function Assemble(properties: Json, forecast: Json, lat: real, lon: real): (r: Result<WeatherResult>)
    ensures r.Err? ==> r.error.KeyError? || r.error.TypeError?
    ensures r.Ok? ==> && Dig(forecast, ["properties", "periods"]).Ok?
                      && Take(Dig(forecast, ["properties", "periods"]).value, MAX_PERIODS) == Ok(r.value.periods)
                      && Dig(properties, ["relativeLocation", "properties", "city"]) == Ok(r.value.location)
                      && Index(properties, "gridId") == Ok(r.value.gridId)
                      && Index(properties, "gridX") == Ok(r.value.gridX)
                      && Index(properties, "gridY") == Ok(r.value.gridY)
                      && r.value.lat == lat && r.value.lon == lon
    ensures Dig(forecast, ["properties", "periods"]).Err? ==> r == Err(Dig(forecast, ["properties", "periods"]).error)
    ensures PeriodsReadable(forecast) && Dig(properties, ["relativeLocation", "properties", "city"]).Err? ==>
              r == Err(Dig(properties, ["relativeLocation", "properties", "city"]).error)
    ensures PeriodsReadable(forecast) && Dig(properties, ["relativeLocation", "properties", "city"]).Ok?
              && Index(properties, "gridId").Err? ==>
              r == Err(Index(properties, "gridId").error)
    ensures PeriodsReadable(forecast) && Dig(properties, ["relativeLocation", "properties", "city"]).Ok?
              && Index(properties, "gridId").Ok? && Index(properties, "gridX").Err? ==>
              r == Err(Index(properties, "gridX").error)
    ensures PeriodsReadable(forecast) && Dig(properties, ["relativeLocation", "properties", "city"]).Ok?
              && Index(properties, "gridId").Ok? && Index(properties, "gridX").Ok? && Index(properties, "gridY").Err? ==>
              r == Err(Index(properties, "gridY").error)
    // every read succeeds: a result
    ensures PeriodsReadable(forecast) && Dig(properties, ["relativeLocation", "properties", "city"]).Ok?
              && Index(properties, "gridId").Ok? && Index(properties, "gridX").Ok? && Index(properties, "gridY").Ok? ==>
              r.Ok?
  {
    var forecastProperties :- Index(forecast, "properties");
    var all :- Index(forecastProperties, "periods");
    var periods :- Take(all, MAX_PERIODS);
    var relativeLocation :- Index(properties, "relativeLocation");
    var relativeProperties :- Index(relativeLocation, "properties");
    var city :- Index(relativeProperties, "city");
    var gridId :- Index(properties, "gridId");
    var gridX :- Index(properties, "gridX");
    var gridY :- Index(properties, "gridY");
    Ok(WeatherResult(city, periods, gridId, gridX, gridY, lat, lon))
  }

  datatype WeatherClient = WeatherClient(timeout: int) {

    /** The geocoding query: `GEO_URL` with the city, the state, the
        country `USA` and the JSON format as parameters. */
    function GeocodeRequest(city: string, state: string): (r: Request)
      ensures r.url == JStr(GEO_URL) && r.timeout == timeout
      ensures r.params.Keys == {"city", "state", "country", "format"}
      ensures r.params["city"] == city && r.params["state"] == state
      ensures r.params["country"] == "USA" && r.params["format"] == "json"
    {
      Request(JStr(GEO_URL), map["city" := city, "state" := state, "country" := "USA", "format" := "json"],
              timeout)
    }

    /** The grid-point lookup: `BASE_URL/points/<lat>,<lon>`, no query
        parameters. */
    function PointsRequest(env: Env, lat: real, lon: real): (r: Request)
      ensures r.params == map[] && r.timeout == timeout
      ensures r.url.JStr? && |r.url.s| > |BASE_URL + "/points/"|
      ensures r.url.s[..|BASE_URL + "/points/"|] == BASE_URL + "/points/"
      ensures r.url.s[|BASE_URL + "/points/"|..] == env.showFloat(lat) + "," + env.showFloat(lon)
    {
      Request(JStr(BASE_URL + "/points/" + env.showFloat(lat) + "," + env.showFloat(lon)), map[], timeout)
    }

    /** The forecast fetch: exactly the URL the grid response named, no
        query parameters. */
    function ForecastRequest(url: Json): (r: Request)
      ensures r.url == url && r.params == map[] && r.timeout == timeout
    {
      Request(url, map[], timeout)
    }

    /** `_geocode`: the coordinates of the first candidate the geocoder
        returns. A network failure becomes `RuntimeError`; an empty answer
        is `ValueError("Location not found: ...")`. */
    function Geocode(env: Env, city: string, state: string): (r: Result<(real, real)>)
      ensures env.http(GeocodeRequest(city, state)).NetErr? <==> r.Err? && r.error.RuntimeError?
      ensures env.http(GeocodeRequest(city, state)).NetErr? ==>
                r == Err(RuntimeError(GEOCODE_FAILED + env.http(GeocodeRequest(city, state)).reason))
      ensures env.http(GeocodeRequest(city, state)).Received? && !Truthy(env.http(GeocodeRequest(city, state)).body) ==>
                r == Err(ValueError("Location not found: " + city + ", " + state))
      ensures r.Ok? ==> env.http(GeocodeRequest(city, state)).Received?
                        && Truthy(env.http(GeocodeRequest(city, state)).body)
      // a truthy dict has no key 0
      ensures env.http(GeocodeRequest(city, state)).Received? && Truthy(env.http(GeocodeRequest(city, state)).body)
              && env.http(GeocodeRequest(city, state)).body.JObj? ==>
                r == Err(KeyError(Position(0)))
      // a non-empty list: the first candidate's `lat`, then its `lon`
      ensures env.http(GeocodeRequest(city, state)).Received? && Truthy(env.http(GeocodeRequest(city, state)).body)
              && env.http(GeocodeRequest(city, state)).body.JArr? ==>
                var first := env.http(GeocodeRequest(city, state)).body.items[0];
                && (Coordinate(env, first, "lat").Err? ==> r == Err(Coordinate(env, first, "lat").error))
                && (Coordinate(env, first, "lat").Ok? && Coordinate(env, first, "lon").Err? ==>
                      r == Err(Coordinate(env, first, "lon").error))
                && (r.Ok? <==> Coordinate(env, first, "lat").Ok? && Coordinate(env, first, "lon").Ok?)
                && (r.Ok? ==> r.value == (Coordinate(env, first, "lat").value, Coordinate(env, first, "lon").value))
    {
      match env.http(GeocodeRequest(city, state))
      case NetErr(reason) => Err(RuntimeError(GEOCODE_FAILED + reason))
      case Received(data) =>
        if !Truthy(data) then Err(ValueError("Location not found: " + city + ", " + state))
        else
          var first :- First(data);
          var lat :- Coordinate(env, first, "lat");
          var lon :- Coordinate(env, first, "lon");
          Ok((lat, lon))
    }

    /** `_get_grid_point`: the grid response for the coordinates. */
    function GridPoint(env: Env, lat: real, lon: real): (r: Result<Json>)
      ensures env.http(PointsRequest(env, lat, lon)).NetErr? ==>
                r == Err(RuntimeError(GRID_FAILED + env.http(PointsRequest(env, lat, lon)).reason))
      ensures env.http(PointsRequest(env, lat, lon)).Received? ==>
                r == Ok(env.http(PointsRequest(env, lat, lon)).body)
    {
      match env.http(PointsRequest(env, lat, lon))
      case NetErr(reason) => Err(RuntimeError(GRID_FAILED + reason))
      case Received(body) => Ok(body)
    }

    /** `_fetch_forecast`: the forecast response at the given URL. */
    function FetchForecast(env: Env, url: Json): (r: Result<Json>)
      ensures env.http(ForecastRequest(url)).NetErr? ==>
                r == Err(RuntimeError(FORECAST_FAILED + env.http(ForecastRequest(url)).reason))
      ensures env.http(ForecastRequest(url)).Received? ==> r == Ok(env.http(ForecastRequest(url)).body)
    {
      match env.http(ForecastRequest(url))
      case NetErr(reason) => Err(RuntimeError(FORECAST_FAILED + reason))
      case Received(body) => Ok(body)
    }

    /** `get_weather`: the stages in order, each run only when the one
        before it succeeded, every exception passed through unchanged. */
    function GetWeather(env: Env, city: string, state: string): (run: Run)
      ensures 1 <= |run.calls| <= 3
      ensures run.calls[0] == GeocodeRequest(city, state)
      ensures run.outcome.Ok? ==> |run.calls| == 3
    {
      var geocodeRequest := GeocodeRequest(city, state);
      match Geocode(env, city, state)
      case Err(e) => Run(Err(e), [geocodeRequest])
      case Ok(coordinates) =>
        var (lat, lon) := coordinates;
        var pointsRequest := PointsRequest(env, lat, lon);
        match GridPoint(env, lat, lon)
        case Err(e) => Run(Err(e), [geocodeRequest, pointsRequest])
        case Ok(grid) =>
          match ForecastLink(grid)
          case Err(e) => Run(Err(e), [geocodeRequest, pointsRequest])
          case Ok(link) =>
            var (properties, url) := link;
            var forecastRequest := ForecastRequest(url);
            match FetchForecast(env, url)
            case Err(e) => Run(Err(e), [geocodeRequest, pointsRequest, forecastRequest])
            case Ok(forecast) =>
              Run(Assemble(properties, forecast, lat, lon), [geocodeRequest, pointsRequest, forecastRequest])
    }
  }

  /** The client the command constructs. */
  const DEFAULT_CLIENT := WeatherClient(DEFAULT_TIMEOUT)

  // ---------------------------------------------------------------------
  // Properties of the pipeline

  /** `http` with the answer to one request replaced. */
  function WithReply(http: Request -> Response, request: Request, reply: Response): Request -> Response
  {
    r => if r == request then reply else http(r)
  }

  /** An empty geocoding answer raises `ValueError` and no grid or forecast
      request is made. */
  lemma EmptyGeocodeStopsPipeline(client: WeatherClient, env: Env, city: string, state: string)
    requires env.http(client.GeocodeRequest(city, state)).Received?
    requires !Truthy(env.http(client.GeocodeRequest(city, state)).body)
    ensures client.GetWeather(env, city, state)
            == Run(Err(ValueError("Location not found: " + city + ", " + state)), [client.GeocodeRequest(city, state)])
  {
  }

  /** Only the first geocoding candidate matters: whatever follows it, the
      run is the same. */
  lemma GeocodeUsesFirstCandidate(client: WeatherClient, env: Env, city: string, state: string,
                                  first: Json, rest: seq<Json>, rest': seq<Json>)
    requires env.http(client.GeocodeRequest(city, state)) == Received(JArr([first] + rest))
    ensures client.GetWeather(env, city, state)
            == client.GetWeather(env.(http := WithReply(env.http, client.GeocodeRequest(city, state),
                                                        Received(JArr([first] + rest')))), city, state)
  {
    var geocodeRequest := client.GeocodeRequest(city, state);
    var env' := env.(http := WithReply(env.http, geocodeRequest, Received(JArr([first] + rest'))));
    assert client.Geocode(env', city, state) == client.Geocode(env, city, state);
    match client.Geocode(env, city, state)
    case Err(_) =>
    case Ok(coordinates) =>
      var pointsRequest := client.PointsRequest(env, coordinates.0, coordinates.1);
      assert "city" !in pointsRequest.params;
      assert env'.http(pointsRequest) == env.http(pointsRequest);
      match client.GridPoint(env, coordinates.0, coordinates.1)
      case Err(_) =>
      case Ok(grid) =>
        match ForecastLink(grid)
        case Err(_) =>
        case Ok(link) =>
          var forecastRequest := client.ForecastRequest(link.1);
          assert "city" !in forecastRequest.params;
          assert env'.http(forecastRequest) == env.http(forecastRequest);
  }

  /** A network failure in any stage is a `RuntimeError` whose message is
      that stage's prefix followed by the failure's text, and it ends the
      run with that stage; no other failure is a `RuntimeError`. */
  lemma NetworkFailureIsRuntimeError(client: WeatherClient, env: Env, city: string, state: string)
    ensures var run := client.GetWeather(env, city, state);
            var last := run.calls[|run.calls| - 1];
            && (env.http(last).NetErr? ==>
                  run.outcome == Err(RuntimeError(StagePrefix(|run.calls|) + env.http(last).reason)))
            && (run.outcome.Err? && run.outcome.error.RuntimeError? ==> env.http(last).NetErr?)
  {
  }

  /** `ValueError` comes only from geocoding; after the forecast request a
      run fails only by a network failure of that request or a missing or
      mistyped field (`KeyError`, `TypeError`). */
  lemma ErrorTaxonomy(client: WeatherClient, env: Env, city: string, state: string)
    ensures var run := client.GetWeather(env, city, state);
            && (run.outcome.Err? && run.outcome.error.ValueError? ==> |run.calls| == 1)
            // a geocoding failure is the run's failure, unchanged, after one request
            && (client.Geocode(env, city, state).Err? ==>
                  run == Run(Err(client.Geocode(env, city, state).error), [client.GeocodeRequest(city, state)]))
            // so is a failure of the grid request, after two
            && (client.Geocode(env, city, state).Ok?
                && client.GridPoint(env, client.Geocode(env, city, state).value.0,
                                    client.Geocode(env, city, state).value.1).Err? ==>
                  && |run.calls| == 2
                  && run.outcome == Err(client.GridPoint(env, client.Geocode(env, city, state).value.0,
                                                         client.Geocode(env, city, state).value.1).error))
            && (run.outcome.Err? && |run.calls| == 3 ==>
                  (run.outcome.error.RuntimeError? && env.http(run.calls[2]).NetErr?)
                  || run.outcome.error.KeyError? || run.outcome.error.TypeError?)
  {
  }

  /** The grid lookup runs only after geocoding succeeded, at
      `BASE_URL/points/<lat>,<lon>`; the forecast is fetched only after the
      grid response gave `properties.forecast`, and at exactly that URL. */
  lemma StagesRunInOrder(client: WeatherClient, env: Env, city: string, state: string)
    ensures var run := client.GetWeather(env, city, state);
            |run.calls| >= 2 ==>
              && client.Geocode(env, city, state).Ok?
              && var (lat, lon) := client.Geocode(env, city, state).value;
                 run.calls[1] == client.PointsRequest(env, lat, lon)
                 && run.calls[1].url == JStr(BASE_URL + "/points/" + env.showFloat(lat) + "," + env.showFloat(lon))
    ensures var run := client.GetWeather(env, city, state);
            |run.calls| == 3 ==>
              && env.http(run.calls[1]).Received?
              && Dig(env.http(run.calls[1]).body, ["properties", "forecast"]).Ok?
              && run.calls[2] == client.ForecastRequest(Dig(env.http(run.calls[1]).body, ["properties", "forecast"]).value)
  {
  }

  /** A missing `properties` or `forecast` in the grid response fails
      before the forecast is fetched, with that field's error. */
  lemma ForecastLinkReadBeforeFetch(client: WeatherClient, env: Env, city: string, state: string)
    requires client.Geocode(env, city, state).Ok?
    requires var (lat, lon) := client.Geocode(env, city, state).value;
             env.http(client.PointsRequest(env, lat, lon)).Received?
    requires var (lat, lon) := client.Geocode(env, city, state).value;
             Dig(env.http(client.PointsRequest(env, lat, lon)).body, ["properties", "forecast"]).Err?
    ensures var (lat, lon) := client.Geocode(env, city, state).value;
            var run := client.GetWeather(env, city, state);
            |run.calls| == 2
            && run.outcome == Err(Dig(env.http(client.PointsRequest(env, lat, lon)).body, ["properties", "forecast"]).error)
  {
  }

  /** Once the forecast response is in, the run's outcome is the assembly
      from the grid properties and that response, whose reads come in the
      source's order (so a missing `relativeLocation`, `city`, `gridId`,
      `gridX` or `gridY` fails only after the fetch). */
  lemma LaterFieldsReadAfterFetch(client: WeatherClient, env: Env, city: string, state: string)
    ensures var run := client.GetWeather(env, city, state);
            |run.calls| == 3 && env.http(run.calls[2]).Received? ==>
              && var grid := env.http(run.calls[1]).body;
                 var (lat, lon) := client.Geocode(env, city, state).value;
                 Dig(grid, ["properties"]).Ok?
                 && run.outcome == Assemble(Dig(grid, ["properties"]).value, env.http(run.calls[2]).body, lat, lon)
  {
  }

  /** The fields of a successful result: the geocoded coordinates, the
      location name at `properties.relativeLocation.properties.city`, the
      grid id and point from `properties.gridId/gridX/gridY`, and the
      forecast's periods cut to 13. */
  lemma ResultFields(client: WeatherClient, env: Env, city: string, state: string)
    requires client.GetWeather(env, city, state).outcome.Ok?
    ensures var run := client.GetWeather(env, city, state);
            var w := run.outcome.value;
            && env.http(run.calls[1]).Received? && env.http(run.calls[2]).Received?
            && var grid := env.http(run.calls[1]).body;
               var forecast := env.http(run.calls[2]).body;
               && client.Geocode(env, city, state) == Ok((w.lat, w.lon))
               && Dig(grid, ["properties", "relativeLocation", "properties", "city"]) == Ok(w.location)
               && Dig(grid, ["properties", "gridId"]) == Ok(w.gridId)
               && Dig(grid, ["properties", "gridX"]) == Ok(w.gridX)
               && Dig(grid, ["properties", "gridY"]) == Ok(w.gridY)
               && Dig(forecast, ["properties", "periods"]).Ok?
               && Take(Dig(forecast, ["properties", "periods"]).value, MAX_PERIODS) == Ok(w.periods)
  {
  }

  /** A successful result holds the first `min(13, n)` of the `n` forecast
      periods, in their original order. */
  lemma PeriodsTruncated(client: WeatherClient, env: Env, city: string, state: string, all: seq<Json>)
    requires client.GetWeather(env, city, state).outcome.Ok?
    requires Dig(env.http(client.GetWeather(env, city, state).calls[2]).body, ["properties", "periods"]) == Ok(JArr(all))
    ensures client.GetWeather(env, city, state).outcome.value.periods == JArr(all[..Min(MAX_PERIODS, |all|)])
  {
  }

  // ---------------------------------------------------------------------
  // An end-to-end run: Springfield, IL

  const SPRINGFIELD_FORECAST_URL := "https://x/forecast"

  function SpringfieldPeriods(): seq<Json>
  {
    seq(14, i => JObj(map["number" := JInt(i + 1)]))
  }

  function SpringfieldGrid(): Json
  {
    JObj(map["properties" := JObj(map[
      "forecast" := JStr(SPRINGFIELD_FORECAST_URL),
      "gridId" := JStr("LOT"), "gridX" := JInt(10), "gridY" := JInt(20),
      "relativeLocation" := JObj(map["properties" := JObj(map["city" := JStr("Springfield")])])])])
  }

  function SpringfieldForecast(): Json
  {
    JObj(map["properties" := JObj(map["periods" := JArr(SpringfieldPeriods())])])
  }

  /** A network that knows one place, and float text for its two coordinates. */
  function SpringfieldEnv(): Env
  {
    Env(
      (r: Request) => if r.url == JStr(GEO_URL) then Received(JArr([JObj(map["lat" := JStr("39.78"), "lon" := JStr("-89.65")])]))
           else if r.url == JStr(BASE_URL + "/points/39.78,-89.65") then Received(SpringfieldGrid())
           else if r.url == JStr(SPRINGFIELD_FORECAST_URL) then Received(SpringfieldForecast())
           else NetErr("404 Client Error: Not Found"),
      (text: string) => if text == "39.78" then Some(39.78) else if text == "-89.65" then Some(-89.65) else None,
      (x: real) => if x == 39.78 then "39.78" else "-89.65")
  }

  function SpringfieldProperties(): Json
  {
    SpringfieldGrid().fields["properties"]
  }

  lemma SpringfieldGeocodes()
    ensures DEFAULT_CLIENT.Geocode(SpringfieldEnv(), "Springfield", "IL") == Ok((39.78, -89.65))
  {
  }

  lemma SpringfieldGridPoint()
    ensures DEFAULT_CLIENT.GridPoint(SpringfieldEnv(), 39.78, -89.65) == Ok(SpringfieldGrid())
    ensures ForecastLink(SpringfieldGrid()) == Ok((SpringfieldProperties(), JStr(SPRINGFIELD_FORECAST_URL)))
  {
  }

  lemma SpringfieldFetches()
    ensures DEFAULT_CLIENT.FetchForecast(SpringfieldEnv(), JStr(SPRINGFIELD_FORECAST_URL)) == Ok(SpringfieldForecast())
  {
  }

  lemma SpringfieldAssembles()
    ensures Assemble(SpringfieldProperties(), SpringfieldForecast(), 39.78, -89.65)
            == Ok(WeatherResult(JStr("Springfield"), JArr(SpringfieldPeriods()[..13]), JStr("LOT"),
                                JInt(10), JInt(20), 39.78, -89.65))
  {
  }

  /** Fourteen forecast periods give a result with the first thirteen and
      the grid and location fields of the grid response. */
  lemma SpringfieldScenario()
    ensures DEFAULT_CLIENT.GetWeather(SpringfieldEnv(), "Springfield", "IL").outcome
            == Ok(WeatherResult(JStr("Springfield"), JArr(SpringfieldPeriods()[..13]), JStr("LOT"),
                                JInt(10), JInt(20), 39.78, -89.65))
    ensures |DEFAULT_CLIENT.GetWeather(SpringfieldEnv(), "Springfield", "IL").calls| == 3
  {
    SpringfieldGeocodes();
    SpringfieldGridPoint();
    SpringfieldFetches();
    SpringfieldAssembles();
  }
}
