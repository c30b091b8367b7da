/** The texts and names the page derives from geocoding and reverse-geocoding data. */
module Labels {
  import opened Wrappers
  import opened Text

  /** One entry of the geocoder's `results`: its name, its optional first-level
      administrative region and its country code. */
  datatype City = City(name: string, admin1: Option<string>, countryCode: string)

  /** The reverse geocoder's answer; each field may be absent. */
  datatype Place = Place(locality: Option<string>, city: Option<string>, countryCode: Option<string>)

  /** The text of a suggestion: the city's name, followed by ", " and its region exactly
      when the region is truthy. */
  function OptionLabel(city: City): (r: string)
    ensures |city.name| <= |r| && r[..|city.name|] == city.name
    ensures |r| > |city.name| <==> Truthy(city.admin1)
    ensures Truthy(city.admin1) ==> r[|city.name|..] == ", " + city.admin1.value
  {
    var region := if Truthy(city.admin1) then ", " + city.admin1.value else "";
    city.name + region
  }

  /** The heading `name + ", " + countryCode`: the name, a comma and a space, the code. */
  function HeaderText(name: string, countryCode: string): (r: string)
    ensures |r| == |name| + 2 + |countryCode|
    ensures r[..|name|] == name && r[|name|..|name| + 2] == ", " && r[|name| + 2..] == countryCode
  {
    name + ", " + countryCode
  }

  /** The address of the flag picture for a country code. */
  function FlagUrl(countryCode: string): (r: string)
    ensures |r| == 21 + |countryCode| + 13
    ensures r[..21] == "https://flagsapi.com/" && r[21..21 + |countryCode|] == countryCode
    ensures r[21 + |countryCode|..] == "/shiny/64.png"
  {
    "https://flagsapi.com/" + countryCode + "/shiny/64.png"
  }

  /** `data.locality || data.city || "Current Location"`: never empty. */
  function PlaceName(p: Place): (r: string)
    ensures r != ""
    ensures Truthy(p.locality) ==> r == p.locality.value
    ensures !Truthy(p.locality) && Truthy(p.city) ==> r == p.city.value
    ensures !Truthy(p.locality) && !Truthy(p.city) ==> r == "Current Location"
  {
    if Truthy(p.locality) then p.locality.value
    else if Truthy(p.city) then p.city.value
    else "Current Location"
  }

  /** `data.countryCode || ""`: empty exactly when the code is absent or empty. */
  function PlaceCountry(p: Place): (r: string)
    ensures r == "" <==> !Truthy(p.countryCode)
    ensures r != "" ==> r == p.countryCode.value
  {
    if Truthy(p.countryCode) then p.countryCode.value else ""
  }

  /** The name and country the current position is shown under: those derived from the
      reverse geocoder's answer, or "My Location" and no country when that request or its
      JSON failed. The name is never empty. */
  function CurrentPlace(answer: Option<Place>): (r: (string, string))
    ensures r.0 != ""
    ensures answer.None? ==> r == ("My Location", "")
    ensures answer.Some? ==> r == (PlaceName(answer.value), PlaceCountry(answer.value))
  {
    match answer
    case None => ("My Location", "")
    case Some(p) => (PlaceName(p), PlaceCountry(p))
  }
}
