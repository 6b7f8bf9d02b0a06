/** The body of the `weather` command: cache-aside around the weather
    client. The cache object is updated in place; the client, the clock,
    the outcome of the cache write and the terminal display are
    collaborators given as parameters. What the command did is returned as
    its exit code and the sequence of collaborator calls it made. */
module Cli {
  import opened Values
  import opened Cache
  import opened Weather

  /** One call on a collaborator. */
  datatype Event =
    | CacheLookup
    | Fetch(calls: seq<Request>)
    | CacheStore(data: Json)
    | Shown(data: Json)
    | ErrorShown(error: Exc)

  /** `if cached_data:` — a missing or falsy value (an empty dictionary,
      say) is not a hit. */
  predicate IsHit(cached: Option<Json>)
    ensures IsHit(cached) ==> cached.Some?
    ensures cached == Some(JObj(map[])) ==> !IsHit(cached)
  {
    cached.Some? && Truthy(cached.value)
  }

  /** The command goes on to the client: with `--no-cache`, or when `get`
      returned without a hit. A `get` that raises ends the command. */
  predicate GoesToFetch(noCache: bool, lookup: ReadOutcome)
  {
    noCache || (lookup.Returned? && !IsHit(lookup.value))
  }

  predicate Fetched(events: seq<Event>)
  {
    exists i :: 0 <= i < |events| && events[i].Fetch?
  }

  predicate Stored(events: seq<Event>)
  {
    exists i :: 0 <= i < |events| && events[i].CacheStore?
  }

  /** The cache lookup the command makes before fetching: none with `--no-cache`. */
  function Lookups(noCache: bool): seq<Event>
  {
    if noCache then [] else [CacheLookup]
  }

  /** The events of a display of `data`: the display, then the error it
      raised, if any. */
  function Display(display: Json -> Option<Exc>, data: Json): seq<Event>
  {
    [Shown(data)] + if display(data).Some? then [ErrorShown(display(data).value)] else []
  }

  /** The events from the fetch on: the fetch, then the error display when
      the client raised, or else the store and the display of the result. */
  function FetchEvents(run: Run, display: Json -> Option<Exc>): seq<Event>
  {
    match run.outcome
    case Err(e) => [Fetch(run.calls), ErrorShown(e)]
    case Ok(w) => [Fetch(run.calls), CacheStore(ToJson(w))] + Display(display, ToJson(w))
  }

  /** Every result the client returns is stored as a truthy dictionary, so
      a fresh record of it is a hit. */
  lemma StoredResultIsHit(w: WeatherResult)
    ensures IsHit(Some(ToJson(w)))
  {
  }

  /** The part of the command after the lookup: fetch, store the result,
      display it; an exception from the client is displayed instead, and
      nothing is stored. */
  method FetchStoreDisplay(cache: WeatherCache, getWeather: (string, string) -> Run, display: Json -> Option<Exc>,
                           city: string, state: string, writeTime: nat, fault: WriteFault)
    returns (exitCode: int, events: seq<Event>)
    modifies cache
    ensures events == FetchEvents(getWeather(city, state), display)
    ensures getWeather(city, state).outcome.Err? ==> cache.files == old(cache.files)
    ensures getWeather(city, state).outcome.Ok? ==>
              cache.files == Written(old(cache.files), cache.Path(city, state), writeTime,
                                     ToJson(getWeather(city, state).outcome.value), fault)
    ensures |events| >= 2
    ensures exitCode == 0 || exitCode == 1
    ensures exitCode == 1 <==> events[|events| - 1].ErrorShown?
  {
    var run := getWeather(city, state);
    if run.outcome.Err? {
      events := [Fetch(run.calls), ErrorShown(run.outcome.error)];
      exitCode := 1;
      return;
    }
    var data := ToJson(run.outcome.value);
    cache.Set(city, state, data, writeTime, fault);
    events := [Fetch(run.calls), CacheStore(data)] + Display(display, data);
    exitCode := if display(data).Some? then 1 else 0;
  }

  /** `weather(city, state, no_cache)`. `getWeather` is the client's
      `get_weather` (`DEFAULT_CLIENT.GetWeather` over the network in the
      command itself); `display` gives the exception the terminal display
      of a dictionary raises, if any. Exit code 1 is `typer.Exit(code=1)`,
      0 a normal return. */
  method WeatherCommand(cache: WeatherCache, getWeather: (string, string) -> Run, display: Json -> Option<Exc>,
                        city: string, state: string, noCache: bool,
                        readTime: nat, writeTime: nat, fault: WriteFault)
    returns (exitCode: int, events: seq<Event>)
    modifies cache
    // a lookup that raises is displayed; nothing is fetched or stored
    ensures !noCache && old(cache.Get(city, state, readTime)).Raised? ==>
              && events == [CacheLookup, ErrorShown(old(cache.Get(city, state, readTime)).error)]
              && cache.files == old(cache.files)
    // a truthy cached value is displayed; nothing is fetched or stored
    ensures !noCache && old(cache.Get(city, state, readTime)).Returned? && IsHit(old(cache.Get(city, state, readTime)).value) ==>
              && events == [CacheLookup] + Display(display, old(cache.Get(city, state, readTime)).value.value)
              && cache.files == old(cache.files)
    // otherwise the client runs once; a failure is shown and writes nothing,
    // a result is stored first and then the same value is displayed
    ensures GoesToFetch(noCache, old(cache.Get(city, state, readTime))) ==>
              events == Lookups(noCache) + FetchEvents(getWeather(city, state), display)
    ensures GoesToFetch(noCache, old(cache.Get(city, state, readTime))) && getWeather(city, state).outcome.Err? ==>
              cache.files == old(cache.files)
    ensures GoesToFetch(noCache, old(cache.Get(city, state, readTime))) && getWeather(city, state).outcome.Ok? ==>
              cache.files == Written(old(cache.files), cache.Path(city, state), writeTime,
                                     ToJson(getWeather(city, state).outcome.value), fault)
    // any exception ends in its display and exit code 1
    ensures |events| >= 2
    ensures exitCode == 0 || exitCode == 1
    ensures exitCode == 1 <==> events[|events| - 1].ErrorShown?
  {
    if noCache {
      exitCode, events := FetchStoreDisplay(cache, getWeather, display, city, state, writeTime, fault);
      return;
    }
    var lookup := cache.Get(city, state, readTime);
    if lookup.Raised? {
      events := [CacheLookup, ErrorShown(lookup.error)];
      exitCode := 1;
      return;
    }
    if IsHit(lookup.value) {
      events := [CacheLookup] + Display(display, lookup.value.value);
      exitCode := if display(lookup.value.value).Some? then 1 else 0;
      return;
    }
    var rest;
    exitCode, rest := FetchStoreDisplay(cache, getWeather, display, city, state, writeTime, fault);
    events := [CacheLookup] + rest;
  }

  /** A cached run over a record `get` cannot read fails with that
      `TypeError` before any request, and leaves the record in place, so
      every later cached run fails the same way. */
  method CorruptRecordFailsCachedRun(cache: WeatherCache, getWeather: (string, string) -> Run,
                                     display: Json -> Option<Exc>, city: string, state: string,
                                     readTime: nat, writeTime: nat, fault: WriteFault)
    returns (exitCode: int, events: seq<Event>)
    requires cache.Path(city, state) in cache.files && RaisesOnRead(cache.files[cache.Path(city, state)])
    modifies cache
    ensures exitCode == 1 && |events| == 2 && events[0] == CacheLookup
    ensures events[1].ErrorShown? && events[1].error.TypeError?
    ensures !Fetched(events) && !Stored(events)
    ensures cache.files == old(cache.files)
    ensures cache.Path(city, state) in cache.files && RaisesOnRead(cache.files[cache.Path(city, state)])
  {
    exitCode, events := WeatherCommand(cache, getWeather, display, city, state, false, readTime, writeTime, fault);
  }

  /** On a cache hit the command makes no request and writes nothing. */
  method HitMakesNoRequest(cache: WeatherCache, getWeather: (string, string) -> Run, display: Json -> Option<Exc>,
                           city: string, state: string, readTime: nat, writeTime: nat, fault: WriteFault)
    returns (exitCode: int, events: seq<Event>)
    requires cache.Get(city, state, readTime).Returned? && IsHit(cache.Get(city, state, readTime).value)
    modifies cache
    ensures !Fetched(events) && !Stored(events)
    ensures |events| >= 2 && events[1] == Shown(old(cache.Get(city, state, readTime)).value.value)
    ensures cache.files == old(cache.files)
  {
    exitCode, events := WeatherCommand(cache, getWeather, display, city, state, false, readTime, writeTime, fault);
  }

  /** A failed fetch stores nothing and is the last thing before the error
      display; the cache was looked up exactly when `--no-cache` was absent. */
  method FailedFetchStoresNothing(cache: WeatherCache, getWeather: (string, string) -> Run,
                                  display: Json -> Option<Exc>, city: string, state: string, noCache: bool,
                                  readTime: nat, writeTime: nat, fault: WriteFault)
    returns (exitCode: int, events: seq<Event>)
    requires GoesToFetch(noCache, cache.Get(city, state, readTime))
    requires getWeather(city, state).outcome.Err?
    modifies cache
    ensures Fetched(events) && !Stored(events)
    ensures events[0] == CacheLookup <==> !noCache
    ensures exitCode == 1 && events[|events| - 1] == ErrorShown(getWeather(city, state).outcome.error)
    ensures cache.files == old(cache.files)
  {
    exitCode, events := WeatherCommand(cache, getWeather, display, city, state, noCache, readTime, writeTime, fault);
    assert events[|events| - 2].Fetch?;
  }

  /** The events of a successful fetch hold one store, followed by the
      display of the stored value. */
  lemma SingleStore(noCache: bool, run: Run, display: Json -> Option<Exc>)
    requires run.outcome.Ok?
    ensures var events := Lookups(noCache) + FetchEvents(run, display);
            var data := ToJson(run.outcome.value);
            var at := |Lookups(noCache)| + 1;
            && at + 1 < |events|
            && events[at] == CacheStore(data) && events[at + 1] == Shown(data)
            && (forall i :: 0 <= i < |events| && events[i].CacheStore? ==> i == at)
            && (events[0] == CacheLookup <==> !noCache)
  {
  }

  /** On the fetch path the result is stored once, and the value displayed
      right after is the value stored. */
  method StoredValueIsDisplayed(cache: WeatherCache, getWeather: (string, string) -> Run,
                                display: Json -> Option<Exc>, city: string, state: string, noCache: bool,
                                readTime: nat, writeTime: nat, fault: WriteFault)
    returns (exitCode: int, events: seq<Event>)
    requires GoesToFetch(noCache, cache.Get(city, state, readTime))
    requires getWeather(city, state).outcome.Ok?
    modifies cache
    ensures var at := |Lookups(noCache)| + 1;
            var data := ToJson(getWeather(city, state).outcome.value);
            && at + 1 < |events|
            && events[at] == CacheStore(data) && events[at + 1] == Shown(data)
            && (forall i :: 0 <= i < |events| && events[i].CacheStore? ==> i == at)
    ensures events[0] == CacheLookup <==> !noCache
  {
    exitCode, events := WeatherCommand(cache, getWeather, display, city, state, noCache, readTime, writeTime, fault);
    SingleStore(noCache, getWeather(city, state), display);
  }

  /** Two runs of the command: after a fetch whose result was stored, a
      second run within the TTL is served from the cache and makes no
      request. */
  method RepeatWithinTtl(cache: WeatherCache, getWeather: (string, string) -> Run, display: Json -> Option<Exc>,
                         city: string, state: string, firstRead: nat, written: nat, secondRead: nat)
    returns (second: seq<Event>)
    requires getWeather(city, state).outcome.Ok?
    requires secondRead - written <= cache.ttl
    modifies cache
    ensures !Fetched(second)
    ensures second == [CacheLookup] + Display(display, ToJson(getWeather(city, state).outcome.value))
  {
    var _, first := WeatherCommand(cache, getWeather, display, city, state, true, firstRead, written, NoFault);
    var data := ToJson(getWeather(city, state).outcome.value);
    ReadAfterWrite(old(cache.files), cache.Path(city, state), written, data, NoFault, secondRead, cache.ttl);
    assert cache.Get(city, state, secondRead) == Returned(Some(data));
    StoredResultIsHit(getWeather(city, state).outcome.value);
    var _, events := WeatherCommand(cache, getWeather, display, city, state, false, secondRead, secondRead, NoFault);
    second := events;
  }

  /** With the real client, a place the geocoder does not know ends in
      `ValueError("Location not found: ...")`, exit code 1, and no write to
      the cache. */
  method UnknownPlaceWritesNothing(cache: WeatherCache, env: Env, display: Json -> Option<Exc>,
                                   city: string, state: string, noCache: bool,
                                   readTime: nat, writeTime: nat, fault: WriteFault)
    returns (exitCode: int, events: seq<Event>)
    requires env.http(DEFAULT_CLIENT.GeocodeRequest(city, state)) == Received(JArr([]))
    requires GoesToFetch(noCache, cache.Get(city, state, readTime))
    modifies cache
    ensures cache.files == old(cache.files)
    ensures exitCode == 1
    ensures |events| > 0 && events[|events| - 1] == ErrorShown(ValueError("Location not found: " + city + ", " + state))
  {
    EmptyGeocodeStopsPipeline(DEFAULT_CLIENT, env, city, state);
    exitCode, events := WeatherCommand(cache, (c, s) => DEFAULT_CLIENT.GetWeather(env, c, s), display,
                                       city, state, noCache, readTime, writeTime, fault);
  }
}
