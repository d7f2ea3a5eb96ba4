/** The weather lookup of backend/app/services/weather_service.py: an in-memory
    cache keyed by village id with a freshness window, in front of one
    OpenWeather call whose every failure yields the all-zero default. The clock,
    the window length and the API key are parameters, and the HTTP call is
    given by its outcome. */
module WeatherService {
  import opened Common

  /** The weather record the services use. */
  datatype Weather = Weather(rainfallMmLastHour: real, humidityPercent: real, temperatureCelsius: real)

  /** What the OpenWeather JSON holds at `rain.1h`, `main.humidity` and `main.temp`. */
  datatype RawWeather = RawWeather(rain1h: Option<real>, humidity: Option<real>, temp: Option<real>)

  /** How the request ends: an HTTP status with the JSON body (None when the body is
      not JSON), a timeout, or another request error. */
  datatype HttpOutcome = Response(status: int, body: Option<RawWeather>) | Timeout | RequestError

  /** `_default_weather()`. */
  const DefaultWeather: Weather := Weather(0.0, 0.0, 0.0)

  /** `_parse_weather_response`: each missing field reads as 0.0. */
  function ParseWeather(raw: RawWeather): (w: Weather)
    ensures raw.rain1h.None? ==> w.rainfallMmLastHour == 0.0
    ensures raw.humidity.None? ==> w.humidityPercent == 0.0
    ensures raw.temp.None? ==> w.temperatureCelsius == 0.0
    ensures raw.rain1h.Some? ==> w.rainfallMmLastHour == raw.rain1h.value
    ensures raw.humidity.Some? ==> w.humidityPercent == raw.humidity.value
    ensures raw.temp.Some? ==> w.temperatureCelsius == raw.temp.value
  {
    Weather(if raw.rain1h.Some? then raw.rain1h.value else 0.0,
            if raw.humidity.Some? then raw.humidity.value else 0.0,
            if raw.temp.Some? then raw.temp.value else 0.0)
  }

  /** A body without a humidity parses like the default as far as humidity goes. */
  lemma MissingHumidityLooksFailed(raw: RawWeather)
    requires raw.humidity.None?
    ensures ParseWeather(raw).humidityPercent == DefaultWeather.humidityPercent
  {
  }

  datatype CacheEntry = CacheEntry(data: Weather, timestamp: real)

  class Cache {
    /** `_weather_cache`. */
    var entries: map<string, CacheEntry>

    constructor ()
      ensures entries == map[]
    {
      entries := map[];
    }

    /** `_get_cached`: the stored data while it is younger than the window (strictly). */
    function GetCached(villageId: string, now: real, ttl: real): (r: Option<Weather>)
      reads this
      ensures r.Some? <==> villageId in entries && now - entries[villageId].timestamp < ttl
      ensures r.Some? ==> r.value == entries[villageId].data
    {
      if villageId in entries && now - entries[villageId].timestamp < ttl then Some(entries[villageId].data) else None
    }

    /** `_set_cache`: only the given key changes, stamped with the current time. */
    method SetCache(villageId: string, data: Weather, now: real)
      modifies this
      ensures entries == old(entries)[villageId := CacheEntry(data, now)]
      ensures forall ttl :: ttl > 0.0 ==> GetCached(villageId, now, ttl) == Some(data)
      ensures forall k :: k in old(entries) && k != villageId ==> k in entries && entries[k] == old(entries)[k]
    {
      entries := entries[villageId := CacheEntry(data, now)];
    }

    /** `fetch_weather`. `now` is the time of the cache lookup and `doneAt` the time
        the answer is stored; `requested` tells whether the HTTP call was made. */
    method FetchWeather(villageId: string, now: real, doneAt: real, ttl: real, apiKey: Option<string>, outcome: HttpOutcome)
      returns (w: Weather, requested: bool)
      modifies this
      ensures old(GetCached(villageId, now, ttl)).Some? ==>
        w == old(GetCached(villageId, now, ttl)).value && !requested && entries == old(entries)
      ensures old(GetCached(villageId, now, ttl)).None? ==> (requested <==> Truthy(apiKey))
      ensures old(GetCached(villageId, now, ttl)).None? && requested && outcome.Response? && outcome.status == 200 && outcome.body.Some? ==>
        w == ParseWeather(outcome.body.value) && entries == old(entries)[villageId := CacheEntry(w, doneAt)]
      ensures old(GetCached(villageId, now, ttl)).None? && !(requested && outcome.Response? && outcome.status == 200 && outcome.body.Some?) ==>
        w == DefaultWeather && entries == old(entries)
    {
      var cached := GetCached(villageId, now, ttl);
      if cached.Some? {
        return cached.value, false;
      }
      if !Truthy(apiKey) {
        return DefaultWeather, false;
      }
      requested := true;
      if outcome.Response? && outcome.status == 200 && outcome.body.Some? {
        w := ParseWeather(outcome.body.value);
        SetCache(villageId, w, doneAt);
      } else {
        w := DefaultWeather;
      }
    }
  }
}
