/** The page's mutable state, that is the module-level variables and the DOM properties
    the script writes, and its handlers as methods. Network answers arrive as parameters. */
module WeatherPage {
  import opened Wrappers
  import opened Text
  import opened Labels
  import opened Screens
  import opened Forecast
  import opened Search

  class Page {
    // the search bar, the suggestion list and timeoutId
    var searchText: string
    var listHidden: bool
    var options: seq<City>
    var timer: Option<string>
    var sent: seq<string>
    // the three screens updateUIState switches
    var loadingShown: bool
    var notFoundShown: bool
    var detailsShown: bool
    // the weather card
    var header: string
    var flag: string
    var condition: string
    var temperature: string
    var humidity: string
    var rain: string
    var wind: string
    // the "my location" button carries the class "hidden"
    var myLocHidden: bool

    function SearchBar(): SearchBox
      reads this`searchText, this`listHidden, this`options, this`timer, this`sent
    {
      SearchBox(searchText, listHidden, options, timer, sent)
    }

    function Visible(): Visibility
      reads this`loadingShown, this`notFoundShown, this`detailsShown
    {
      Visibility(loadingShown, notFoundShown, detailsShown)
    }

    function Weather(): Card
      reads this`header, this`flag, this`condition, this`temperature, this`humidity, this`rain, this`wind
    {
      Card(header, flag, condition, temperature, humidity, rain, wind)
    }

    /** The search state keeps Search.Valid. The screens need no invariant of their own:
        every method that touches them leaves them as `Reveal` of some state. */
    ghost predicate Valid()
      reads this`searchText, this`listHidden, this`options, this`timer, this`sent
    {
      Search.Valid(SearchBar())
    }

    /** The page as the script leaves it on load: the first updateUIState("loading"),
        an empty bar and a hidden, empty list, nothing scheduled or sent. */
    constructor ()
      ensures Valid()
      ensures SearchBar() == SearchBox("", true, [], None, [])
      ensures Visible() == Reveal("loading")
      ensures Weather() == Card("", "", "", "", "", "", "") && !myLocHidden
    {
      searchText, listHidden, options, timer, sent := "", true, [], None, [];
      header, flag, condition, temperature, humidity, rain, wind := "", "", "", "", "", "", "";
      myLocHidden := false;
      loadingShown, notFoundShown, detailsShown := true, false, false;
    }

    /** updateUIState: hide all three screens, then uncover the one `state` names. The new
        screens depend on `state` alone, so a second call with the same state changes nothing. */
    method UpdateUIState(state: string)
      modifies this`loadingShown, this`notFoundShown, this`detailsShown
      ensures Visible() == Reveal(state)
    {
      loadingShown := false;
      notFoundShown := false;
      detailsShown := false;
      if state == "loading" {
        loadingShown := true;
      } else if state == "error" {
        notFoundShown := true;
      } else if state == "success" {
        detailsShown := true;
      }
    }

    /** searchCityOptions up to its request. */
    method SearchCityOptions(query: string)
      requires Valid()
      modifies this`sent
      ensures Valid()
      ensures SearchBar() == Search.SearchCityOptions(old(SearchBar()), query)
    {
      if query == "" {
        return;
      }
      sent := sent + [query];
    }

    /** The `input` handler; `raw` is the bar's new value. */
    method Input(raw: string)
      requires Valid()
      modifies this`searchText, this`listHidden, this`timer
      ensures Valid()
      ensures SearchBar() == OnInput(old(SearchBar()), raw)
    {
      ghost var after := OnInput(SearchBar(), raw);
      assert Search.Valid(after);
      searchText := raw;
      var query := Trim(raw);
      if |query| == 0 {
        listHidden := true;
      } else {
        timer := None;          // clearTimeout(timeoutId)
        timer := Some(query);   // timeoutId = setTimeout(...)
      }
      assert SearchBar() == after;
    }

    /** The debounce delay elapses. */
    method Fire()
      requires Valid()
      modifies this`timer, this`sent
      ensures Valid()
      ensures SearchBar() == OnTimer(old(SearchBar()))
    {
      if timer.Some? {
        var query := timer.value;
        timer := None;
        SearchCityOptions(query);
      }
    }

    /** Enter in the bar, or a click on the search icon. */
    method Submit()
      requires Valid()
      modifies this`sent
      ensures Valid()
      ensures SearchBar() == OnSubmit(old(SearchBar()))
    {
      SearchCityOptions(searchText);
    }

    /** A click outside the bar, the list and the icon. */
    method ClickOutside()
      requires Valid()
      modifies this`listHidden
      ensures Valid()
      ensures SearchBar() == OnClickOutside(old(SearchBar()))
    {
      listHidden := true;
    }

    /** The rest of searchCityOptions once its geocoding request settled. */
    method Respond(reply: GeoReply)
      requires Valid()
      modifies this`listHidden, this`options, this`loadingShown, this`notFoundShown, this`detailsShown
      ensures Valid()
      ensures SearchBar() == OnReply(old(SearchBar()), reply)
      ensures Visible() == if NotFound(reply) then Reveal("error") else old(Visible())
    {
      match reply
      case Failed =>
      case Answered(results) =>
        options := [];
        listHidden := true;
        if results.None? {
          UpdateUIState("error");
          return;
        }
        listHidden := false;
        options := results.value;
    }

    /** loadWeather, once the forecast request settled (`None` when it or its JSON
        rejected). Whatever happened, the "my location" button is hidden exactly when the
        load was for the user's own position. */
    method LoadWeather(name: string, countryCode: string, isMyLoc: bool, reply: Option<Reply>)
      modifies this`header, this`flag, this`condition, this`temperature, this`humidity, this`rain, this`wind
      modifies this`loadingShown, this`notFoundShown, this`detailsShown, this`myLocHidden
      ensures Weather() == Render(old(Weather()), name, countryCode, reply).card
      ensures Visible() == Reveal(Render(old(Weather()), name, countryCode, reply).state)
      ensures myLocHidden == isMyLoc
    {
      UpdateUIState("loading");
      match reply {
        case None =>
          UpdateUIState("error");
        case Some(body) =>
          ShowForecast(name, countryCode, body);
      }
      if !isMyLoc {
        myLocHidden := false;
      } else {
        myLocHidden := true;
      }
    }

    /** The statements of loadWeather's `try` after the forecast arrived, up to the first
        one that throws on a missing object. */
    method ShowForecast(name: string, countryCode: string, body: Reply)
      modifies this`header, this`flag, this`condition, this`temperature, this`humidity, this`rain, this`wind
      modifies this`loadingShown, this`notFoundShown, this`detailsShown
      ensures Weather() == Render(old(Weather()), name, countryCode, Some(body)).card
      ensures Visible() == Reveal(Render(old(Weather()), name, countryCode, Some(body)).state)
    {
      ghost var o := Render(Weather(), name, countryCode, Some(body));
      header := HeaderText(name, countryCode);
      flag := FlagUrl(countryCode);
      if body.daily.None? {
        UpdateUIState("error");
        assert Weather() == o.card && o.state == "error";
        return;
      }
      var daily := body.daily.value;
      condition := ConditionText(daily.weatherCodes);
      if body.current.None? {
        UpdateUIState("error");
        assert Weather() == o.card && o.state == "error";
        return;
      }
      var now := body.current.value;
      temperature := now.temperature + "\U{B0}C";
      humidity := now.humidity + "%";
      rain := FirstText(daily.precipitationMax) + "%";
      wind := now.windSpeed + " kmph";
      UpdateUIState("success");
      assert Weather() == o.card && o.state == "success";
    }

    /** A click on suggestion `i`: the bar takes the city's name, the list hides, and the
        city's weather loads. */
    method Select(i: nat, reply: Option<Reply>)
      requires Valid() && i < |options|
      modifies this`searchText, this`listHidden
      modifies this`header, this`flag, this`condition, this`temperature, this`humidity, this`rain, this`wind
      modifies this`loadingShown, this`notFoundShown, this`detailsShown, this`myLocHidden
      ensures Valid()
      ensures SearchBar() == OnPick(old(SearchBar()), i)
      ensures var city := old(options[i]);
              var o := Render(old(Weather()), city.name, city.countryCode, reply);
              Weather() == o.card && Visible() == Reveal(o.state)
      ensures !myLocHidden
    {
      var city := options[i];
      ghost var picked := OnPick(SearchBar(), i);
      searchText := city.name;
      listHidden := true;
      assert SearchBar() == picked;
      LoadWeather(city.name, city.countryCode, false, reply);
    }
  }
}
