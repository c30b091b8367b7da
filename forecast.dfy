/** What loadWeather writes into the weather card for a forecast answer. Numbers from the
    forecast service are kept as the strings JavaScript renders them as. */
module Forecast {
  import opened Wrappers
  import opened WeatherCodes
  import opened Labels

  /** The `current` object: temperature_2m, relative_humidity_2m and wind_speed_10m. */
  datatype Current = Current(temperature: string, humidity: string, windSpeed: string)

  /** The `daily` object: weather_code and precipitation_probability_max, day by day. */
  datatype Daily = Daily(weatherCodes: seq<int>, precipitationMax: seq<string>)

  /** A parsed forecast body; either object may be missing. */
  datatype Reply = Reply(current: Option<Current>, daily: Option<Daily>)

  /** The card's text fields: heading, flag address, condition, temperature, humidity,
      rain probability and wind. */
  datatype Card = Card(header: string, flag: string, condition: string, temperature: string,
                       humidity: string, rain: string, wind: string)

  /** The card after a load and the state passed to the last updateUIState call. */
  datatype Outcome = Outcome(card: Card, state: string)

  /** How JavaScript renders `xs[0]` inside a concatenation: "undefined" when `xs` is empty. */
  function FirstText(xs: seq<string>): (r: string)
    ensures |xs| > 0 ==> r == xs[0]
    ensures |xs| == 0 ==> r == "undefined"
  {
    if |xs| > 0 then xs[0] else "undefined"
  }

  /** The condition line for today's code; an empty code list reads `weatherMap[undefined]`,
      which is "Unknown". Never empty. */
  function ConditionText(codes: seq<int>): (r: string)
    ensures r != ""
    ensures |codes| > 0 ==> r == WeatherStatus(codes[0])
    ensures |codes| == 0 ==> r == "Unknown"
  {
    if |codes| > 0 then WeatherStatus(codes[0]) else "Unknown"
  }

  /** The body of loadWeather's `try`, once the forecast request has settled (`None` when
      fetch or its JSON rejected). Each statement that dereferences a missing object throws,
      so the fields written before it stay written and the catch shows the error screen. */
  function Render(card: Card, name: string, countryCode: string, reply: Option<Reply>): (o: Outcome)
    ensures o.state == "success" || o.state == "error"
    ensures o.state == "success" <==> reply.Some? && reply.value.current.Some? && reply.value.daily.Some?
    ensures reply.None? ==> o.card == card
    ensures reply.Some? ==> o.card.header == HeaderText(name, countryCode) && o.card.flag == FlagUrl(countryCode)
    ensures reply.Some? && reply.value.daily.None? ==> o.card.condition == card.condition
    ensures reply.Some? && reply.value.daily.Some? ==>
              o.card.condition == ConditionText(reply.value.daily.value.weatherCodes)
    ensures o.state == "error" ==>
              o.card.(header := card.header, flag := card.flag, condition := card.condition) == card
    ensures o.state == "success" ==>
              var now, daily := reply.value.current.value, reply.value.daily.value;
              o.card.temperature == now.temperature + "\U{B0}C" && o.card.humidity == now.humidity + "%"
              && o.card.rain == FirstText(daily.precipitationMax) + "%" && o.card.wind == now.windSpeed + " kmph"
  {
    match reply
    case None => Outcome(card, "error")
    case Some(body) =>
      var named := card.(header := HeaderText(name, countryCode), flag := FlagUrl(countryCode));
      match body.daily
      case None => Outcome(named, "error")
      case Some(daily) =>
        var described := named.(condition := ConditionText(daily.weatherCodes));
        match body.current
        case None => Outcome(described, "error")
        case Some(now) =>
          Outcome(described.(temperature := now.temperature + "\U{B0}C", humidity := now.humidity + "%",
                             rain := FirstText(daily.precipitationMax) + "%",
                             wind := now.windSpeed + " kmph"),
                  "success")
  }
}
