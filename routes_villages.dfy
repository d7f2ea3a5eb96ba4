/** The village endpoints of backend/app/api/routes_villages.py: the status
    list (live rainfall folded into the stored deviation, scored and sorted by
    priority), the AI advisory for one village, and its forecast. The weather
    lookups, the advisory engine and the forecast service are given as inputs. */
module RoutesVillages {
  import opened Common
  import opened Seqs
  import opened Sorting
  import opened ServerData
  import opened WsiCalculator
  import opened WeatherService
  import Severity

  /** `_wsi_status_label`. */
  function StatusLabel(wsi: real): (r: string)
    ensures r == "Severe Stress" <==> Severity.TierOf(wsi) == Severity.Critical
    ensures r == "Moderate Stress" <==> Severity.TierOf(wsi) == Severity.Warning
    ensures r == "Safe" <==> Severity.TierOf(wsi) == Severity.Safe
  {
    if wsi > 70.0 then "Severe Stress"
    else if wsi > 40.0 then "Moderate Stress"
    else "Safe"
  }

  /** The deviation used for scoring: current rain improves the stored seasonal
      deviation by 5 points per millimetre, capped at 100, but only when the
      weather reading is live (a humidity above 0) and it is raining. */
  function AdjustedDeviation(base: real, w: Weather): (r: real)
    ensures !(w.humidityPercent > 0.0 && w.rainfallMmLastHour > 0.0) ==> r == base
    ensures w.humidityPercent > 0.0 && w.rainfallMmLastHour > 0.0 ==>
      r <= 100.0 && (base <= 100.0 ==> r >= base) && (base < 100.0 ==> r > base) && (r == 100.0 || r == base + 5.0 * w.rainfallMmLastHour)
  {
    if w.humidityPercent > 0.0 then
      if w.rainfallMmLastHour > 0.0 then Min(100.0, base + w.rainfallMmLastHour * 5.0)
      else base
    else base
  }

  /** When the weather service fell back to its default the stored deviation is used as is. */
  lemma DefaultWeatherKeepsBase(base: real)
    ensures AdjustedDeviation(base, DefaultWeather) == base
  {
  }

  /** Rain never makes a village look more stressed than the stored reading does. */
  lemma RainNeverRaisesWsi(v: Joined, w: Weather)
    ensures ComputeWsi(v.gwCurrentLevel, v.gwMinRequired, AdjustedDeviation(v.rainfallDevPct, w))
         <= ComputeWsi(v.gwCurrentLevel, v.gwMinRequired, v.rainfallDevPct)
  {
    var adjusted := AdjustedDeviation(v.rainfallDevPct, w);
    if adjusted >= v.rainfallDevPct {
      WsiMonotone(v.gwCurrentLevel, v.gwCurrentLevel, v.gwMinRequired, v.rainfallDevPct, adjusted);
    } else {
      // A stored deviation above 100 is capped down to 100; neither is a shortfall.
      assert RainfallStress(adjusted) == RainfallStress(v.rainfallDevPct) == 0.0;
    }
  }

  /** One element of the status list: the village record with its computed keys
      and the live weather it was scored with. */
  datatype StatusRow = StatusRow(village: Joined, wsi: real, priorityScore: real, rainfallDevPct: real, liveWeather: Weather)

  function Scored(v: Joined, w: Weather): (r: StatusRow)
    ensures r.village == v && r.liveWeather == w
    ensures r.rainfallDevPct == AdjustedDeviation(v.rainfallDevPct, w)
    ensures r.wsi == ComputeWsi(v.gwCurrentLevel, v.gwMinRequired, r.rainfallDevPct)
    ensures r.priorityScore == PriorityScore(v.population, r.wsi)
  {
    var dev := AdjustedDeviation(v.rainfallDevPct, w);
    var wsi := ComputeWsi(v.gwCurrentLevel, v.gwMinRequired, dev);
    StatusRow(v, wsi, PriorityScore(v.population, wsi), dev, w)
  }

  function PriorityOf(r: StatusRow): real {
    r.priorityScore
  }

  /** The rows before sorting, one per village, scored with its own weather reading. */
  function ScoredAll(villages: seq<Joined>, weather: seq<Weather>): (r: seq<StatusRow>)
    requires |weather| == |villages|
    ensures |r| == |villages|
    ensures forall i :: 0 <= i < |r| ==> r[i] == Scored(villages[i], weather[i])
  {
    if villages == [] then []
    else ScoredAll(villages[..|villages| - 1], weather[..|weather| - 1]) + [Scored(villages[|villages| - 1], weather[|weather| - 1])]
  }

  /** `get_villages_status`, given the joined rows and the reading `fetch_weather`
      returned for each of them in turn. */
  method GetVillagesStatus(villages: seq<Joined>, weather: seq<Weather>) returns (results: seq<StatusRow>)
    requires |weather| == |villages|
    ensures results == SortBy(ScoredAll(villages, weather), PriorityOf, false)
    ensures |results| == |villages|
    ensures multiset(results) == multiset(ScoredAll(villages, weather))
    ensures forall i, j :: 0 <= i < j < |results| ==> results[i].priorityScore >= results[j].priorityScore
  {
    results := [];
    var i := 0;
    while i < |villages|
      invariant 0 <= i <= |villages|
      invariant results == ScoredAll(villages[..i], weather[..i])
    {
      ScoredAllSnoc(villages, weather, i);
      results := results + [Scored(villages[i], weather[i])];
      i := i + 1;
    }
    assert villages[..i] == villages && weather[..i] == weather;
    results := SortBy(results, PriorityOf, false);
    PriorityNonIncreasing(results);
  }

  /** A list sorted by descending priority has non-increasing priority scores. */
  lemma PriorityNonIncreasing(rs: seq<StatusRow>)
    requires SortedBy(rs, PriorityOf, false)
    ensures forall i, j :: 0 <= i < j < |rs| ==> rs[i].priorityScore >= rs[j].priorityScore
  {
    forall a, b | 0 <= a < b < |rs|
      ensures rs[a].priorityScore >= rs[b].priorityScore
    {
      assert !Before(rs[b], rs[a], PriorityOf, false);
    }
  }

  lemma ScoredAllSnoc(villages: seq<Joined>, weather: seq<Weather>, i: nat)
    requires |weather| == |villages| && i < |villages|
    ensures ScoredAll(villages[..i + 1], weather[..i + 1])
         == ScoredAll(villages[..i], weather[..i]) + [Scored(villages[i], weather[i])]
  {
    assert villages[..i + 1][..i] == villages[..i];
    assert weather[..i + 1][..i] == weather[..i];
  }

  /** Villages of equal priority keep the order in which they were fetched. */
  lemma StatusTiesKeepOrder(villages: seq<Joined>, weather: seq<Weather>, p: real)
    requires |weather| == |villages|
    ensures Filter(SortBy(ScoredAll(villages, weather), PriorityOf, false), KeyIs(PriorityOf, p))
         == Filter(ScoredAll(villages, weather), KeyIs(PriorityOf, p))
  {
    SortByStable(ScoredAll(villages, weather), PriorityOf, false, p);
  }

  /** What `generate_drought_insight` is called with. */
  datatype InsightArgs = InsightArgs(
    villageName: string, population: int, wsi: real, status: string,
    rDev: real, gDrop: real, tankers: nat, targetLanguage: string)

  /** The arguments the route passes for a village with a capacity: its name and
      population, its WSI (a value in [0, 100]) with that WSI's status label, its
      stored rainfall deviation, the groundwater drop (capacity minus current
      level), no tankers yet, and the requested language. */
  function ArgsFor(v: Joined, lang: string): (a: InsightArgs)
    requires v.gwMaxCapacity.Some?
    ensures a.villageName == v.name && a.population == v.population && a.targetLanguage == lang
    ensures a.wsi == ComputeWsi(v.gwCurrentLevel, v.gwMinRequired, v.rainfallDevPct)
    ensures 0.0 <= a.wsi <= 100.0
    ensures a.status == StatusLabel(a.wsi)
    ensures a.rDev == v.rainfallDevPct
    ensures a.gDrop == v.gwMaxCapacity.value - v.gwCurrentLevel
    ensures a.tankers == 0
  {
    var wsi := ComputeWsi(v.gwCurrentLevel, v.gwMinRequired, v.rainfallDevPct);
    InsightArgs(v.name, v.population, wsi, StatusLabel(wsi), v.rainfallDevPct,
                v.gwMaxCapacity.value - v.gwCurrentLevel, 0, lang)
  }

  datatype InsightReply = InsightReply(villageId: string, villageName: string, language: string, insight: string)

  /** `get_village_insight`: `village` is what `get_village_by_id` returned and
      `engine` stands for the advisory engine. An absent capacity makes the
      subtraction raise, which the framework answers with a 500. */
  function VillageInsight(village: Option<Joined>, lang: string, engine: InsightArgs -> string): (r: Reply<InsightReply>)
    ensures village.None? ==> r == Fail(404, "Village not found")
    ensures village.Some? && village.value.gwMaxCapacity.None? ==> r.Fail? && r.status == 500
    ensures r.Fail? && r.status == 503 ==> village.Some? && "Error:" <= r.detail
    ensures r.Body? ==>
      village.Some? && r.value.villageId == village.value.id && r.value.villageName == village.value.name
      && r.value.language == lang && !("Error:" <= r.value.insight)
  {
    if village.None? then Fail(404, "Village not found")
    else
      var v := village.value;
      if v.gwMaxCapacity.None? then Fail(500, "TypeError")
      else
        var insight := engine(ArgsFor(v, lang));
        if "Error:" <= insight then Fail(503, insight)
        else Body(InsightReply(v.id, v.name, lang, insight))
  }

  /** For a known village with a capacity the engine is asked about that
      village (ArgsFor), the route fails with a 503 exactly when the engine's
      text starts with "Error:", passing that text on, and otherwise answers with
      the engine's text unchanged. */
  lemma InsightAsksAboutVillage(v: Joined, lang: string, engine: InsightArgs -> string)
    requires v.gwMaxCapacity.Some?
    ensures var r := VillageInsight(Some(v), lang, engine);
      (r.Fail? && r.status == 503 <==> "Error:" <= engine(ArgsFor(v, lang)))
      && (r.Fail? ==> r.status == 503 && r.detail == engine(ArgsFor(v, lang)))
      && (r.Body? ==> r.value.insight == engine(ArgsFor(v, lang)))
  {
  }

  datatype ForecastReply<T> = ForecastReply(villageId: string, villageName: string, forecast: T)

  /** `get_village_forecast`. The route imports `fetch_forecast` before anything
      else, so when the weather service does not define it (`serviceDefined`
      false) every request fails with a 500; otherwise an unknown village is a
      404 and a known one echoes the requested id with the forecast. */
  function VillageForecast<T>(serviceDefined: bool, villageId: string, village: Option<Joined>, forecast: T): (r: Reply<ForecastReply<T>>)
    ensures !serviceDefined ==> r.Fail? && r.status == 500
    ensures serviceDefined && village.None? ==> r == Fail(404, "Village not found")
    ensures r.Body? <==> serviceDefined && village.Some?
    ensures r.Body? ==> r.value == ForecastReply(villageId, village.value.name, forecast)
  {
    if !serviceDefined then Fail(500, "ImportError")
    else if village.None? then Fail(404, "Village not found")
    else Body(ForecastReply(villageId, village.value.name, forecast))
  }
}
