/** The two screens composed through the shared browser session. */
module App {
  import opened JsString
  import opened Browser
  import opened EntryScreen
  import opened ResultScreen

  /** A city accepted by the entry screen always passes the result screen's mount guard. */
  lemma AcceptedCityPassesGuard(draft: string)
    requires Validate(draft).Accepted?
    ensures !CityMissing(Some(Validate(draft).city))
  {
  }

  /**
   * One visit from a fresh browser session: type `draft`, submit, and, when the entry
   * screen navigates, mount the result screen and let the request succeed with
   * `response` or fail when it is absent.
   */
  method Visit(draft: string, response: Option<Snapshot>)
    returns (stored: Option<string>, route: Route, sent: seq<Request>, view: Option<View>)
    ensures Blank(draft) ==> stored == None && route == Root && sent == [] && view == None
    ensures !Blank(draft) ==>
      stored == Some(Trim(draft)) && route == WeatherPage && sent == [Request(Trim(draft))] &&
      view == Some(if response.Some? then Succeeded(CardOf(response.value)) else Failed)
  {
    var session := new Session(None, Root);
    var home := new Home(session);
    home.Change(draft);
    home.Submit();
    stored, route, sent, view := session.city, session.route, [], None;
    if session.route == WeatherPage {
      var screen := new Weather(session);
      screen.Mount();
      sent := screen.requests;
      match response {
        case Some(data) => screen.FetchSucceeded(data);
        case None => screen.FetchFailed();
      }
      view := Some(Select(screen.loading, screen.weather));
    }
  }

  /** Typing "  London" followed by a tab stores "London". */
  lemma LondonIsTrimmed()
    ensures Validate("  London\t") == Accepted("London")
  {
    TrimRemovesPadding("  ", "London", "\t");
    assert "  " + "London" + "\t" == "  London\t";
  }
}
