/** The search bar, its suggestion list and the autocomplete debounce. The single timer
    slot `timeoutId` is modelled as the query of the search it will run, if it has not
    run yet; time passing is the explicit event that fires it. */
module Search {
  import opened Wrappers
  import opened Text
  import opened Labels

  /** How a geocoding request settled: fetch or its JSON rejected, or a body whose
      `results` array may be missing. */
  datatype GeoReply = Failed | Answered(results: Option<seq<City>>)

  datatype SearchBox = SearchBox(
    text: string,             // the search bar's value
    listHidden: bool,         // the suggestion list carries the class "hidden"
    options: seq<City>,       // the suggestions in the list
    pending: Option<string>,  // the query of the scheduled search that has not fired
    sent: seq<string>)        // the queries sent to the geocoder, oldest first

  /** A query as the `input` handler schedules it: not empty, and neither starting nor
      ending with whitespace. */
  predicate IsTrimmedQuery(q: string) {
    q != "" && !IsWhitespace(q[0]) && !IsWhitespace(q[|q| - 1])
  }

  /** What every reachable state keeps: the scheduled query is a trimmed, non-empty one,
      and no empty query was ever sent. */
  predicate Valid(b: SearchBox) {
    (b.pending.Some? ==> IsTrimmedQuery(b.pending.value))
    && forall i :: 0 <= i < |b.sent| ==> b.sent[i] != ""
  }

  /** searchCityOptions up to its request: a falsy (empty) query changes nothing. */
  function SearchCityOptions(b: SearchBox, query: string): (r: SearchBox)
    ensures query == "" ==> r == b
    ensures query != "" ==> r == b.(sent := b.sent + [query])
    ensures Valid(b) ==> Valid(r)
  {
    if query == "" then b else b.(sent := b.sent + [query])
  }

  /** The `input` handler, for a bar whose value is now `raw`. A blank value hides the list
      and neither schedules nor cancels; any other value replaces whatever was scheduled
      by one search for the trimmed value. */
  function OnInput(b: SearchBox, raw: string): (r: SearchBox)
    ensures IsBlank(raw) ==> r == b.(text := raw, listHidden := true)
    ensures !IsBlank(raw) ==> r == b.(text := raw, pending := Some(Trim(raw)))
    ensures Valid(b) ==> Valid(r)
  {
    var query := Trim(raw);
    if |query| == 0 then b.(text := raw, listHidden := true)
    else b.(text := raw, pending := Some(query))
  }

  /** The debounce delay elapses: the scheduled search, if any, runs once and the slot
      is free again. */
  function OnTimer(b: SearchBox): (r: SearchBox)
    ensures r.pending.None?
    ensures b.pending.None? ==> r == b
    ensures Valid(b) && b.pending.Some? ==> r == b.(pending := None, sent := b.sent + [b.pending.value])
    ensures Valid(b) ==> Valid(r)
  {
    match b.pending
    case None => b
    case Some(query) => SearchCityOptions(b.(pending := None), query)
  }

  /** Enter in the bar or a click on the search icon: an immediate search for the bar's
      untrimmed value, which leaves a scheduled search in place. */
  function OnSubmit(b: SearchBox): (r: SearchBox)
    ensures r.pending == b.pending
    ensures b.text == "" ==> r == b
    ensures b.text != "" ==> r == b.(sent := b.sent + [b.text])
    ensures Valid(b) ==> Valid(r)
  {
    SearchCityOptions(b, b.text)
  }

  /** The answer to a geocoding request: no `results` is reported as "not found". */
  predicate NotFound(reply: GeoReply) {
    reply.Answered? && reply.results.None?
  }

  /** The rest of searchCityOptions once its request settled: a failed request changes
      nothing; an answer clears the list, then shows it with the results it has, even an
      empty array, and keeps it hidden when there are no results at all. */
  function OnReply(b: SearchBox, reply: GeoReply): (r: SearchBox)
    ensures r.text == b.text && r.pending == b.pending && r.sent == b.sent
    ensures reply.Failed? ==> r == b
    ensures reply.Answered? ==> (r.listHidden <==> NotFound(reply))
    ensures reply.Answered? ==> r.options == (if NotFound(reply) then [] else reply.results.value)
    ensures Valid(b) ==> Valid(r)
  {
    match reply
    case Failed => b
    case Answered(None) => b.(options := [], listHidden := true)
    case Answered(Some(cities)) => b.(options := cities, listHidden := false)
  }

  /** A click on suggestion `i`: the bar shows the city's name and the list hides. */
  function OnPick(b: SearchBox, i: nat): (r: SearchBox)
    requires i < |b.options|
    ensures r == b.(text := b.options[i].name, listHidden := true)
    ensures Valid(b) ==> Valid(r)
  {
    b.(text := b.options[i].name, listHidden := true)
  }

  /** A click outside the bar, the list and the icon hides the list. */
  function OnClickOutside(b: SearchBox): (r: SearchBox)
    ensures r == b.(listHidden := true)
  {
    b.(listHidden := true)
  }

  datatype Event =
    | Typed(raw: string)
    | TimerFired
    | Submitted
    | Replied(reply: GeoReply)
    | Picked(index: nat)
    | ClickedOutside

  /** One event. A click on a suggestion that the list does not hold cannot happen, so
      it changes nothing. */
  function Step(b: SearchBox, e: Event): SearchBox {
    match e
    case Typed(raw) => OnInput(b, raw)
    case TimerFired => OnTimer(b)
    case Submitted => OnSubmit(b)
    case Replied(reply) => OnReply(b, reply)
    case Picked(i) => if i < |b.options| then OnPick(b, i) else b
    case ClickedOutside => OnClickOutside(b)
  }

  /** The events in order, the first one first. */
  function Run(b: SearchBox, events: seq<Event>): SearchBox
    decreases |events|
  {
    if events == [] then b else Run(Step(b, events[0]), events[1..])
  }

  /** The debounce rule read backwards from the last event: what is scheduled is the
      trimmed text of the last non-blank input, unless the timer fired after it; with no such
      event, what was scheduled before. */
  function Scheduled(before: Option<string>, events: seq<Event>): Option<string>
    decreases |events|
  {
    if events == [] then before
    else
      var last := events[|events| - 1];
      if last.TimerFired? then None
      else if last.Typed? && !IsBlank(last.raw) then Some(Trim(last.raw))
      else Scheduled(before, events[..|events| - 1])
  }

  lemma {:induction false} RunSnoc(b: SearchBox, events: seq<Event>, e: Event)
    ensures Run(b, events + [e]) == Step(Run(b, events), e)
    decreases |events|
  {
    if events == [] {
      assert [e][1..] == [];
    } else {
      assert (events + [e])[0] == events[0];
      assert (events + [e])[1..] == events[1..] + [e];
      RunSnoc(Step(b, events[0]), events[1..], e);
    }
  }

  /** Every run keeps Valid: no blank query is ever scheduled or sent. */
  lemma {:induction false} RunValid(b: SearchBox, events: seq<Event>)
    requires Valid(b)
    ensures Valid(Run(b, events))
    decreases |events|
  {
    if events != [] {
      RunValid(Step(b, events[0]), events[1..]);
    }
  }

  /** The slot after one event: which events schedule, which cancel, which leave it. */
  lemma StepPending(b: SearchBox, e: Event)
    ensures Step(b, e).pending
              == if e.TimerFired? then None
                 else if e.Typed? && !IsBlank(e.raw) then Some(Trim(e.raw))
                 else b.pending
  {
  }

  /** At any moment at most one search is scheduled, and it is the one the debounce rule
      names: the latest non-blank input since the timer last fired. */
  lemma {:induction false} RunScheduled(b: SearchBox, events: seq<Event>)
    ensures Run(b, events).pending == Scheduled(b.pending, events)
    decreases |events|
  {
    if events != [] {
      var init, last := events[..|events| - 1], events[|events| - 1];
      assert events == init + [last];
      RunSnoc(b, init, last);
      RunScheduled(b, init);
      StepPending(Run(b, init), last);
    }
  }

  /** When the timer fires it sends exactly the query the debounce rule names, and nothing
      when none is scheduled. */
  lemma TimerSendsLatest(b: SearchBox, events: seq<Event>)
    requires Valid(b)
    ensures var s := Scheduled(b.pending, events);
            Run(b, events + [TimerFired]).sent
              == Run(b, events).sent + (if s.Some? then [s.value] else [])
  {
    RunSnoc(b, events, TimerFired);
    RunValid(b, events);
    RunScheduled(b, events);
  }

  /** Typing on cancels the earlier search: two non-blank inputs before the timer fires
      send only the second. */
  lemma TypingOnCancels(b: SearchBox, first: string, second: string)
    requires Valid(b) && !IsBlank(first) && !IsBlank(second)
    ensures Run(b, [Typed(first), Typed(second), TimerFired]).sent == b.sent + [Trim(second)]
  {
    var b1 := OnInput(b, first);
    var b2 := OnInput(b1, second);
    ThreeSteps(b, Typed(first), Typed(second), TimerFired);
    assert Run(b, [Typed(first), Typed(second), TimerFired]) == OnTimer(b2);
  }

  /** Clearing the bar does not cancel: a non-blank input followed by a blank one still
      sends the non-blank query when the timer fires. */
  lemma ClearingDoesNotCancel(b: SearchBox, typed: string, blank: string)
    requires Valid(b) && !IsBlank(typed) && IsBlank(blank)
    ensures Run(b, [Typed(typed), Typed(blank), TimerFired]).sent == b.sent + [Trim(typed)]
    ensures Run(b, [Typed(typed), Typed(blank), TimerFired]).listHidden
  {
    var b1 := OnInput(b, typed);
    var b2 := OnInput(b1, blank);
    ThreeSteps(b, Typed(typed), Typed(blank), TimerFired);
    assert Run(b, [Typed(typed), Typed(blank), TimerFired]) == OnTimer(b2);
  }

  lemma ThreeSteps(b: SearchBox, e1: Event, e2: Event, e3: Event)
    ensures Run(b, [e1, e2, e3]) == Step(Step(Step(b, e1), e2), e3)
  {
    var b1 := Step(b, e1);
    var b2 := Step(b1, e2);
    var b3 := Step(b2, e3);
    assert [e1, e2, e3][1..] == [e2, e3];
    assert [e2, e3][1..] == [e3];
    assert Run(b2, [e3]) == Run(b3, []);
    assert Run(b1, [e2, e3]) == Run(b2, [e3]);
    assert Run(b, [e1, e2, e3]) == Run(b1, [e2, e3]);
  }
}
