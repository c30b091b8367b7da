/** getWeatherStatus: the description of a WMO weather interpretation code
    (WMO code table 4677) as Open-Meteo reports it in `daily.weather_code`. */
module WeatherCodes {

  /** The codes the page knows, with the text it shows for each. */
  const Descriptions: map<int, string> := map[
    0 := "Clear Sky", 1 := "Mainly Clear", 2 := "Partly Cloudy", 3 := "Overcast",
    45 := "Fog", 48 := "Depositing Rime Fog", 51 := "Light Drizzle", 53 := "Moderate Drizzle",
    55 := "Dense Drizzle", 61 := "Slight Rain", 63 := "Moderate Rain", 65 := "Heavy Rain",
    80 := "Rain Showers", 95 := "Thunderstorm"]

  /** The table entry when there is a truthy one, "Unknown" otherwise. Never empty, and
      "Unknown" exactly for the codes outside the table (no description is "Unknown"). */
  function WeatherStatus(code: int): (r: string)
    ensures r != ""
    ensures r == "Unknown" <==> code !in Descriptions
    ensures code in Descriptions ==> r == Descriptions[code]
  {
    if code in Descriptions && Descriptions[code] != "" then Descriptions[code] else "Unknown"
  }

  /** The six sky and fog codes, each with its description. */
  lemma KnownSkyCodes()
    ensures WeatherStatus(0) == "Clear Sky" && WeatherStatus(1) == "Mainly Clear"
    ensures WeatherStatus(2) == "Partly Cloudy" && WeatherStatus(3) == "Overcast"
    ensures WeatherStatus(45) == "Fog" && WeatherStatus(48) == "Depositing Rime Fog"
  {
  }

  /** The eight drizzle, rain and thunderstorm codes, each with its description. */
  lemma KnownPrecipitationCodes()
    ensures WeatherStatus(51) == "Light Drizzle" && WeatherStatus(53) == "Moderate Drizzle"
    ensures WeatherStatus(55) == "Dense Drizzle" && WeatherStatus(61) == "Slight Rain"
    ensures WeatherStatus(63) == "Moderate Rain" && WeatherStatus(65) == "Heavy Rain"
    ensures WeatherStatus(80) == "Rain Showers" && WeatherStatus(95) == "Thunderstorm"
  {
  }

  /** Any code other than those fourteen (drizzle 57, snow 71, a negative number, ...)
      reads "Unknown", and none of the fourteen does. */
  lemma UnknownExactlyOffTable(code: int)
    ensures WeatherStatus(code) == "Unknown"
        <==> code !in {0, 1, 2, 3, 45, 48, 51, 53, 55, 61, 63, 65, 80, 95}
  {
  }
}
