/** The forecast view of frontend/src/components/WeatherPanel.jsx: a selected
    village id that defaults to the first village, and a forecast fetched each
    time the selection changes, with no guard against answers arriving late. */
module WeatherPanel {
  import opened Common
  import opened ClientData

  const FetchError: string := "Failed to load forecast data from OpenWeather API."

  /** One day of `response.data.forecast`. */
  datatype ForecastDay = ForecastDay(date: Option<string>, rainfallMm: JsNumber, tempMax: JsNumber, tempMin: JsNumber, humidityAvg: JsNumber)

  /** `getWeatherIcon(rain)`. */
  function WeatherIcon(rain: JsNumber): (r: string)
    ensures r == "thunderstorm" <==> Gt(rain, 5.0)
    ensures r == "rainy" <==> Gt(rain, 0.0) && !Gt(rain, 5.0)
    ensures r == "wb_sunny" <==> !Gt(rain, 0.0)
  {
    if Gt(rain, 5.0) then "thunderstorm" else if Gt(rain, 0.0) then "rainy" else "wb_sunny"
  }

  /** The initial selection: the first village's id, or nothing for an empty list. */
  function FirstId(villages: seq<Village>): (r: Option<string>)
    ensures |villages| == 0 ==> r == None
    ensures |villages| > 0 ==> r == villages[0].id
  {
    if |villages| > 0 then villages[0].id else None
  }

  datatype Display = Spinner | ErrorBox(message: string) | NoForecast | Days(days: seq<ForecastDay>)

  class Panel {
    var villages: seq<Village>
    var selected: Option<string>
    var forecast: seq<ForecastDay>
    var loading: bool
    var error: Option<string>
    /** Every forecast request, by village id, in the order sent. */
    var requests: seq<string>
    /** Requests not yet settled. */
    var inFlight: nat

    /** Every settled request was sent, and the only error text is the fixed one. */
    predicate Valid()
      reads this
    {
      inFlight <= |requests| && (error.Some? ==> error.value == FetchError)
    }

    /** The fetch effect, run whenever the selection changes: nothing while no
        (truthy) id is selected, else start the request. */
    method FetchEffect() returns (sent: Option<string>)
      modifies this
      requires Valid()
      ensures Valid()
      ensures sent.Some? <==> Truthy(selected)
      ensures villages == old(villages) && selected == old(selected) && forecast == old(forecast)
      ensures sent.None? ==> requests == old(requests) && inFlight == old(inFlight) && loading == old(loading) && error == old(error)
      ensures sent.Some? ==>
        sent.value == selected.value && requests == old(requests) + [selected.value]
        && inFlight == old(inFlight) + 1 && loading && error == None
    {
      sent := None;
      if Truthy(selected) {
        loading := true;
        error := None;
        requests := requests + [selected.value];
        inFlight := inFlight + 1;
        sent := selected;
      }
    }

    /** Mounting with `villages`: the selection starts at the first id and the
        fetch effect runs once. */
    constructor (vs: seq<Village>)
      ensures Valid()
      ensures villages == vs && selected == FirstId(vs) && forecast == [] && inFlight == |requests|
      ensures Truthy(FirstId(vs)) ==> requests == [FirstId(vs).value] && loading && error == None
      ensures !Truthy(FirstId(vs)) ==> requests == [] && !loading && error == None
    {
      villages := vs;
      selected := FirstId(vs);
      forecast := [];
      error := None;
      if Truthy(FirstId(vs)) {
        requests := [FirstId(vs).value];
        inFlight := 1;
        loading := true;
      } else {
        requests := [];
        inFlight := 0;
        loading := false;
      }
    }

    /** A new `villages` prop. With no (truthy) selection and a non-empty list the
        selection becomes the first id; an existing selection is never replaced. */
    method SetVillages(vs: seq<Village>) returns (sent: Option<string>)
      modifies this
      requires Valid()
      ensures Valid() && villages == vs && forecast == old(forecast)
      ensures Truthy(old(selected)) ==> selected == old(selected) && sent.None? && requests == old(requests)
      ensures !Truthy(old(selected)) && |vs| == 0 ==> selected == old(selected) && sent.None? && requests == old(requests)
      ensures !Truthy(old(selected)) && |vs| > 0 ==> selected == vs[0].id
      ensures sent.Some? ==> selected != old(selected) && requests == old(requests) + [sent.value] && loading && error == None
    {
      villages := vs;
      sent := None;
      if !Truthy(selected) && |vs| > 0 && vs[0].id != selected {
        selected := vs[0].id;
        sent := FetchEffect();
      }
    }

    /** A click on a village button; the fetch effect re-runs only on a new id. */
    method Select(id: Option<string>) returns (sent: Option<string>)
      modifies this
      requires Valid()
      ensures Valid() && selected == id && villages == old(villages) && forecast == old(forecast)
      ensures id == old(selected) ==> sent.None? && requests == old(requests)
      ensures sent.Some? <==> id != old(selected) && Truthy(id)
      ensures sent.Some? ==> requests == old(requests) + [id.value] && loading && error == None
    {
      sent := None;
      if id != selected {
        selected := id;
        sent := FetchEffect();
      }
    }

    /** Some forecast request settles; nothing checks which one, so a late answer
        for an earlier selection overwrites the forecast too. */
    method Resolve(outcome: Response<Option<seq<ForecastDay>>>)
      modifies this
      requires Valid() && inFlight > 0
      ensures Valid() && !loading && inFlight == old(inFlight) - 1
      ensures selected == old(selected) && villages == old(villages) && requests == old(requests)
      ensures outcome.Success? ==> forecast == OrNil(outcome.data) && error == old(error)
      ensures outcome.Failure? ==> forecast == old(forecast) && error == Some(FetchError)
    {
      if outcome.Success? {
        forecast := OrNil(outcome.data);
      } else {
        error := Some(FetchError);
      }
      loading := false;
      inFlight := inFlight - 1;
    }

    /** The forecast area: spinner, then the error, then the empty note, then the days. */
    function Show(): (d: Display)
      reads this
      requires Valid()
      ensures d == Spinner <==> loading
      ensures d.ErrorBox? <==> !loading && error.Some?
      ensures d.ErrorBox? ==> d.message == FetchError
      ensures d == NoForecast <==> !loading && error.None? && forecast == []
      ensures d.Days? ==> d.days == forecast && |forecast| > 0
    {
      if loading then Spinner
      else if error.Some? && error.value != "" then ErrorBox(error.value)
      else if |forecast| == 0 then NoForecast
      else Days(forecast)
    }
  }
}
