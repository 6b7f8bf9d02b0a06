# cli-mate weather core in Dafny

This project models the core of `cli-mate`, a command-line tool that shows the
forecast for a US city. The command asks a geocoder for the place's
coordinates, asks the weather service for the forecast grid point at those
coordinates, fetches the forecast the grid point names, and keeps the result
in a local cache for 30 minutes.

Files and modules:

- `values.dfy` (`Values`): the Python values the core handles. It defines
  decoded JSON (`Json`), the exceptions that can leave the core (`Exc`), and
  `Result`. It also gives Python's rules for `d["k"]`, `d[0]`, `d[:13]` and
  truthiness on those values.
- `cache.dfy` (`Cache`): `WeatherCache`, a class whose `files` field maps a
  file path to the record stored there. This module covers key derivation
  (lower-case, comma-join, digest), the `.json` path, the timestamped record,
  the TTL check, and `get`/`set`.
- `weather.dfy` (`Weather`): `WeatherClient` as pure functions. Each HTTP
  exchange is one call of an abstract `http` function. A run returns its
  outcome together with the list of requests it issued, so the lemmas can
  say which stages ran.
- `main.dfy` (`Cli`): the body of the `weather` command as a method. It
  updates the cache object and returns its exit code and the sequence of
  calls it made on its collaborators.

The clock is a count of microseconds, so the default TTL is
`30 * 60_000_000`. The current time is passed to `get` and `set` as a
parameter.

Errors and failures, as the program has them:

- The exceptions that can leave the client are Python's own classes:
  - `ValueError`: the place is not found, or a coordinate is text that is
    not a float;
  - `RuntimeError`: a network failure, with a per-stage message prefix;
  - `KeyError`: a missing field;
  - `TypeError`: a value of the wrong JSON shape.
- A cache write can fail in two ways:
  - `open` fails: the old record stays.
  - The dump fails after the file was opened, so the file was already
    truncated: the record becomes unreadable, and `get` then reports a miss.
- Some corrupt records make `get` raise `TypeError` instead of reporting a
  miss (see Findings). The cache object and the command keep this
  behaviour: such a record makes every cached run of the command show the
  error and exit 1 without fetching, until a `--no-cache` run overwrites
  it. `Cache.Read` is the corrected read, in which every corrupt record is
  a miss.

## Model

| member | source | states |
|---|---|---|
| `Values.Truthy` | cli_mate/weather.py:32 | Python truthiness, used by `if not data` and by `if cached_data` (cli_mate/main.py:31): `None`, `False`, `0`, `""`, `[]` and `{}` are false. |
| `Values.Take` | cli_mate/weather.py:82-84 | `[:13]` keeps the first `min(13, n)` elements of a list, or characters of a string, in order. A dict raises `KeyError` for the slice `[:13]`, and any other value raises `TypeError`. |
| `Values.TakeTwentyGivesThirteen` | cli_mate/weather.py:82-84 | Twenty forecast periods are cut to exactly their first thirteen. |
| `Values.First` | cli_mate/weather.py:35-36 | `data[0]` on a truthy answer is the first element of a list. On a dict it raises `KeyError(0)`. |
| `Values.Index` | cli_mate/weather.py:73-99 | `j["k"]` gives the field when `j` is a dict that has it. A dict without it raises `KeyError("k")`, and any other value raises `TypeError`. |
| `Cache.Lower` | cli_mate/cache.py:23 | `str.lower()` keeps the length. |
| `Cache.LowerAt` | cli_mate/cache.py:23 | `str.lower()` maps each character on its own: position `i` of the result is character `i` lower-cased. |
| `Cache.Upper` | cli_mate/cache.py:23 | `str.upper()` keeps the length. It is used only to state that the key ignores case. |
| `Cache.UpperAt` | cli_mate/cache.py:23 | `str.upper()` maps each character on its own. |
| `Cache.KeyText` | cli_mate/cache.py:23 | The hashed text is the lower-cased city, one comma, then the lower-cased state. |
| `Cache.CacheKey` | cli_mate/cache.py:21-24 | The key is the digest of the key text, and lower-casing either part first does not change it. |
| `Cache.CachePath` | cli_mate/cache.py:26-28 | The path is the directory, `/`, the key and `.json`, each part at its own position. |
| `Cache.WeatherCache.Path` | cli_mate/cache.py:26-28 | The path of a (city, state) lies directly in the cache directory, ends in `.json`, and is named by the key of the lower-cased pair. |
| `Cache.CacheKeyIgnoresCase` | cli_mate/cache.py:21-24 | The key of `(c, s)` equals the key of `(lower(c), lower(s))`, of `(upper(c), lower(s))` and of `(upper(c), upper(s))`. |
| `Cache.KeySeparatorIsAmbiguous` | cli_mate/cache.py:23-24 | Moving a comma between city and state never changes the key: `key(a+","+b, c) == key(a, b+","+c)`. |
| `Cache.KeyCollisionExample` | cli_mate/cache.py:23-24 | `("a,b", "c")` and `("a", "b,c")` share one key. |
| `Cache.CachePathInjective` | cli_mate/cache.py:26-28 | Two keys give the same `<dir>/<key>.json` path exactly when they are equal. |
| `Cache.ShowStamp` | cli_mate/cache.py:58 | The written timestamp is a non-empty numeral whose value is the write time. |
| `Cache.ParseStamp` | cli_mate/cache.py:41 | Exactly the non-empty numerals parse, to their value. Any other text is the `ValueError` that `get` catches. |
| `Cache.ParseShowStamp` | cli_mate/cache.py:41 | Reading back the written timestamp text gives the same instant. |
| `Cache.FreshRecord` | cli_mate/cache.py:57-60 | The record `set` writes is an object with exactly the fields `_timestamp` (the write time's text) and `data`. |
| `Cache.FreshRecordStamp` | cli_mate/cache.py:57-60 | The record `set` writes carries the write time as its readable timestamp. |
| `Cache.ReadAsWritten` | cli_mate/cache.py:37-50 | As written, the read raises exactly on a document that is not an object, or whose `_timestamp` is present but not a string, and what it raises is a `TypeError`. It returns the data exactly when the stamp parses and is within the TTL and `data` is present. |
| `Cache.Read` | cli_mate/cache.py:37-50 | A record is returned exactly when it decodes to an object with a string `_timestamp` that parses to `t`, `now - t <= ttl`, and it has `data`. The result is then `data`, and every other record is a miss. |
| `Cache.ReadAgreesWithSource` | cli_mate/cache.py:37-50 | Wherever `get` as written returns, the corrected read returns the same value. Where it raises, the exception is a `TypeError` and the corrected read misses. |
| `Cache.ListRecordRaises` | cli_mate/cache.py:39-41 | As written, a record whose top level is a list raises from `get`. |
| `Cache.NumericStampRaises` | cli_mate/cache.py:41 | As written, a record whose `_timestamp` is a number raises `TypeError` from `get`. |
| `Cache.ReadFreshRecord` | cli_mate/cache.py:41-47 | A record written at `now` and read at `later` gives the data when `later - now <= ttl`, and nothing otherwise. |
| `Cache.ExpiryBoundary` | cli_mate/cache.py:42-44 | A record exactly `ttl` old is still served, and one a microsecond older is not. |
| `Cache.Written` | cli_mate/cache.py:56-65 | A completed write puts the fresh record `(now, data)` at the path. A failed `open` leaves the store as it was. A dump that fails after `open` leaves an unreadable file at the path. |
| `Cache.WrittenFrame` | cli_mate/cache.py:54-65 | The store after `set` differs from the old one at most at the written path. |
| `Cache.ReadAfterWrite` | cli_mate/cache.py:52-65 | `set` itself raises nothing. After it, the corrected read of that path gives the data within the TTL if the write completed. It gives the previous record if `open` failed, and a miss if the dump failed. |
| `Cache.OtherKeysUnchanged` | cli_mate/cache.py:54-62 | A `set` for one key leaves the presence and the read result of every other key's record as they were. |
| `Cache.WeatherCache.constructor` | cli_mate/cache.py:14-19 | The default cache directory is `<home>/.cache/cli-mate`, and the TTL is 30 minutes. Records already on disk are kept. |
| `Cache.WeatherCache.Get` | cli_mate/cache.py:30-50 | No file means `None`. A file whose record is a non-object or has a non-string `_timestamp` raises, and what it raises is a `TypeError`. Otherwise the result is present exactly when the record is well formed and fresh, and it is then the record's `data`. |
| `Cache.WeatherCache.Set` | cli_mate/cache.py:52-65 | Only the record at this key's path is replaced, by `(now, data)` or an unreadable file as the fault decides. A completed write is read back as `data` at the same instant. |
| `Weather.ToJson` | cli_mate/weather.py:90-103 | The result is a truthy dict with exactly the keys `location`, `periods`, `grid_id`, `grid_point`, `lat` and `lon`. They hold the result's location, periods and grid id, `{"x": gridX, "y": gridY}`, and the two coordinates as floats. |
| `Weather.Float` | cli_mate/weather.py:35-36 | `float(v)`: integers and floats convert exactly, and text converts through the float parser, or else raises `ValueError`. `None`, lists and dicts raise `TypeError`. |
| `Weather.Coordinate` | cli_mate/weather.py:35-36 | `float(candidate[field])` raises the subscript's error when the field cannot be read. That is `KeyError(field)` for a dict without it. Otherwise the result is the conversion of the field's value. It never raises `RuntimeError`. |
| `Weather.ForecastLink` | cli_mate/weather.py:73-77 | Succeeds exactly when `properties.forecast` can be read, and gives `properties` and that URL. Otherwise it fails with that read's error. |
| `Weather.Assemble` | cli_mate/weather.py:79-103 | A result holds the periods cut to 13, `relativeLocation.properties.city`, `gridId`, `gridX`, `gridY` and the coordinates. Failures are `KeyError`/`TypeError`. The reads happen in source order (periods, the city, `gridId`, `gridX`, `gridY`), and the first that fails gives the error. When every read succeeds, the result is `Ok`. |
| `Weather.WeatherClient.Geocode` | cli_mate/weather.py:17-39 | A network failure becomes `RuntimeError("Geocoding failed: ...")`, and it is the only source of a `RuntimeError` here. A falsy answer gives `ValueError("Location not found: <city>, <state>")`, and a truthy dict gives `KeyError(0)`. For a non-empty list, the result succeeds exactly when the first candidate's `lat` and `lon` both convert, and it is then those two values. Otherwise it is the error of the first that fails, `lat` before `lon`. |
| `Weather.WeatherClient.GeocodeRequest` | cli_mate/weather.py:20-28 | The geocoding request goes to `GEO_URL` with exactly the parameters `city`, `state`, `country=USA` and `format=json`, and the client's timeout. |
| `Weather.WeatherClient.PointsRequest` | cli_mate/weather.py:44-45 | The grid request is `BASE_URL/points/<lat>,<lon>`, with no query parameters and the client's timeout. |
| `Weather.WeatherClient.ForecastRequest` | cli_mate/weather.py:54-56 | The forecast request goes to exactly the given URL, with no parameters and the client's timeout. |
| `Weather.WeatherClient.GridPoint` | cli_mate/weather.py:41-49 | Gives the grid response. A network failure becomes `RuntimeError("Failed to get grid point: ...")`. |
| `Weather.WeatherClient.FetchForecast` | cli_mate/weather.py:51-60 | Gives the forecast response. A network failure becomes `RuntimeError("Failed to fetch forecast: ...")`. |
| `Weather.WeatherClient.GetWeather` | cli_mate/weather.py:62-106 | A run issues one to three requests, the first always the geocoding request. A success has issued all three. |
| `Weather.EmptyGeocodeStopsPipeline` | cli_mate/weather.py:32-33 | An empty geocoding answer ends the run with `ValueError("Location not found: ...")`, after the geocoding request alone. |
| `Weather.GeocodeUsesFirstCandidate` | cli_mate/weather.py:35-37 | Replacing every candidate after the first leaves the whole run unchanged. |
| `Weather.NetworkFailureIsRuntimeError` | cli_mate/weather.py:38-60 | A network failure of the last request issued ends the run with `RuntimeError(prefix of that stage + reason)`. A `RuntimeError` arises only that way. |
| `Weather.ErrorTaxonomy` | cli_mate/weather.py:70-106 | Exceptions pass through unchanged. A geocoding failure of any kind (`RuntimeError`, `ValueError`, `KeyError`, `TypeError`) is the run's outcome after the geocoding request alone. A grid-request failure is the outcome after two requests. `ValueError` only comes from geocoding. After the forecast request, the only failures are that request's network failure, `KeyError` and `TypeError`. |
| `Weather.StagesRunInOrder` | cli_mate/weather.py:71-78 | A grid request is issued only after geocoding succeeded, at `BASE_URL/points/<lat>,<lon>`. A forecast request is issued only after the grid response gave `properties.forecast`, and at that URL. |
| `Weather.ForecastLinkReadBeforeFetch` | cli_mate/weather.py:72-78 | A missing `properties` or `forecast` fails with two requests issued, so no forecast fetch is made. |
| `Weather.LaterFieldsReadAfterFetch` | cli_mate/weather.py:78-99 | Once the forecast has arrived, the outcome is the assembly from the grid properties, so the later fields are read only after the fetch. |
| `Weather.ResultFields` | cli_mate/weather.py:90-103 | In a success, `lat`/`lon` are the geocoded values, and `location` is `properties.relativeLocation.properties.city`. `grid_id`, `x` and `y` come from `properties.gridId`/`gridX`/`gridY`, and `periods` is the forecast's `properties.periods` cut to 13. |
| `Weather.PeriodsTruncated` | cli_mate/weather.py:82-84 | With `n` forecast periods, the result holds the first `min(13, n)` of them, in order. |
| `Weather.SpringfieldScenario` | cli_mate/weather.py:62-106 | Springfield, IL at `(39.78, -89.65)` with grid `LOT` `(10, 20)` and 14 periods gives that location and grid, and the first 13 periods. |
| `Cli.IsHit` | cli_mate/main.py:31 | Only a present value counts as a hit, and an empty dict does not. |
| `Cli.StoredResultIsHit` | cli_mate/main.py:31-40 | The dict stored for any client result is truthy, so when `get` returns it, it counts as a hit. |
| `Cli.FetchStoreDisplay` | cli_mate/main.py:35-47 | The client runs once. A failure is displayed and writes nothing. A result is stored and then displayed, and the store changes only what `set` writes. |
| `Cli.WeatherCommand` | cli_mate/main.py:27-47 | With `--no-cache` there is no lookup. A lookup that raises is displayed and exits 1, with no fetch and no write. A truthy hit is displayed, with no fetch and no write. Otherwise the client runs once: a failure is displayed, writes nothing and exits 1. A result is stored and then that same value is displayed. Every exception exits 1. |
| `Cli.CorruptRecordFailsCachedRun` | cli_mate/main.py:29-30 | A cached run over a record that makes `get` raise shows a `TypeError` and exits 1, with no fetch and no store. The record stays in place, so the next cached run fails the same way. |
| `Cli.HitMakesNoRequest` | cli_mate/main.py:29-33 | A run of the command on a cache hit makes no request and no store, displays the cached value, and leaves the cache as it was. |
| `Cli.FailedFetchStoresNothing` | cli_mate/main.py:36-47 | A run of the command whose fetch fails makes the fetch and no store, leaves the cache as it was, and ends with the error display and exit 1. There is a lookup exactly when `--no-cache` is absent. |
| `Cli.SingleStore` | cli_mate/main.py:36-43 | The events of a successful fetch hold exactly one store, followed immediately by the display of the stored value. |
| `Cli.StoredValueIsDisplayed` | cli_mate/main.py:36-43 | In a run of the command that fetches a result, there is exactly one store, and it is followed immediately by a display of the same value. |
| `Cli.RepeatWithinTtl` | cli_mate/main.py:29-43 | After a fetch whose write completed, a second run within the TTL is served from the cache and makes no request. |
| `Cli.UnknownPlaceWritesNothing` | cli_mate/main.py:27-47 | With the real client, an empty geocoding answer leaves the cache as it was and exits 1. The exit follows the display of `ValueError("Location not found: ...")`. |

## Left out

- HTTP transport (`requests.get`, `raise_for_status`, `.json()`, timeouts) is the abstract `Env.http`. Any failure in it is a `NetErr` with its text; this includes an undecodable body, which `requests` raises as a `RequestException`.
- Weather.Float: the texts of the `ValueError` and `TypeError` from `float()` are fixed messages. `float()` of a string is the abstract `Env.parseFloat`.
- Parsing and formatting floats are the abstract `Env.parseFloat` and `Env.showFloat`. Coordinates are `real`; binary floating point and its rounding are not modelled.
- Importing `cache.py` before Python 3.14: cli_mate/cache.py:30 annotates `get` with the undefined name `optional`, and line 5 imports only `Any`. Without `from __future__ import annotations`, earlier versions evaluate the annotation when the class is defined, so the import raises `NameError` and main.py:4 stops the program before any command runs. The model assumes the module imports, as on Python 3.14 or with the annotation read as `Optional`. Its Python rules follow those versions, for example slicing a dict raises `KeyError` (see `Values.Take`).
- MD5 is the abstract `digest` of the cache object, and no property relies on it being injective.
- Cache.Lower: only ASCII letters change case. Unicode case mapping is not modelled.
- Cache.CacheKeyIgnoresCase: the two clauses with `Upper` hold only for the ASCII case maps of the model. In Python, `"ß".upper().lower()` is `"ss"`, so an upper-cased city can have a different key.
- The cache directory is a map from path to record. `mkdir`, and a failure of it at construction, are not modelled.
- A record is stored as its decoded JSON value. The JSON text and its encoding are not modelled.
- Cache.WeatherCache.Get: in the source, an existing file that cannot be opened (for example, a permissions error) raises `OSError`. The model has no such file state.
- `isoformat`/`fromisoformat` are modelled as the decimal numeral of the microsecond clock. Calendar text is not modelled, and neither is the `TypeError` from subtracting a timezone-aware stamp.
- The constructor with an explicit `cache_dir` is not modelled. In the source, that path leaves `ttl` (and the directory) unset, because the assignments are nested under `if cache_dir is None` (cli_mate/cache.py:15-19). Only the default constructor is used.
- Logging, including `logging.basicConfig`, is not modelled.
- `cli_mate/tui.py` (rendering) is the `display` parameter, which says only whether displaying a dictionary raises. The text `display_error` shows (`str(e)`) is not modelled, and the `ErrorShown` event carries the exception itself.
- Typer wiring is not modelled: decorators, option parsing, the progress bar, the `version` command and module-level construction. `typer.Exit(code=1)` is the exit code 1.
- Cli.WeatherCommand: the client is an abstract `getWeather` function. `Cli.UnknownPlaceWritesNothing` instantiates it with `WeatherClient.GetWeather`.
- Concurrent invocations and racing cache writes are not modelled.

## Findings

| source | as written | input that shows it | evidently intended | confidence | as-written member | corrected member |
|---|---|---|---|---|---|---|
| cli_mate/cache.py:37-50 | `get` catches only `JSONDecodeError`, `KeyError` and `ValueError` around the record read. | A record whose JSON top level is a list (`[]`), or whose `_timestamp` is a number (`{"_timestamp": 0, "data": ...}`). `data["_timestamp"]` or `fromisoformat` raises `TypeError`, which escapes `get`. | A corrupt record is a cache miss, as for undecodable text or a missing field. | high; not executed | `Cache.ListRecordRaises` | `Cache.Read` |
