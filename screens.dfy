/** updateUIState's three screens: the loading picture, the not-found picture and the
    weather details. A screen is shown when it does not carry the CSS class opacity-0. */
module Screens {

  datatype Visibility = Visibility(loading: bool, notFound: bool, details: bool)

  const AllHidden := Visibility(false, false, false)

  /** Never more than one screen is shown. */
  predicate AtMostOne(v: Visibility) {
    (v.loading ==> !v.notFound && !v.details) && (v.notFound ==> !v.details)
  }

  /** The screens after `updateUIState(state)`: everything hidden first, then the one the
      state asks for uncovered. Each known state shows exactly its own screen, and any other
      string leaves all three hidden. */
  function Reveal(state: string): (v: Visibility)
    ensures AtMostOne(v)
    ensures v.loading <==> state == "loading"
    ensures v.notFound <==> state == "error"
    ensures v.details <==> state == "success"
    ensures state !in {"loading", "error", "success"} ==> v == AllHidden
  {
    var reset := AllHidden;
    if state == "loading" then reset.(loading := true)
    else if state == "error" then reset.(notFound := true)
    else if state == "success" then reset.(details := true)
    else reset
  }
}
