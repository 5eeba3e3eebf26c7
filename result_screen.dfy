/**
 * The result screen: on mount it reads the stored city, issues one request to the
 * weather provider and shows a loading, failure or weather view.
 */
module ResultScreen {
  import opened Browser

  /** The fields of the provider's response that the screen reads. */
  datatype Snapshot = Snapshot(locationName: string, condition: string, tempC: real, humidity: real, windKph: real)

  /** One outbound request to the provider; `q` carries the stored city verbatim (it is not URL-encoded). */
  datatype Request = Request(q: string)

  /** The labelled fields of the weather view. */
  datatype Card = Card(locationName: string, condition: string, tempC: real, tempF: real, humidity: real, windKph: real)

  /** What the screen renders: exactly one of the three. */
  datatype View = Loading | Failed | Succeeded(card: Card)

  /** Celsius to Fahrenheit, `c * 9 / 5 + 32`, over exact reals. */
  function Fahrenheit(c: real): (f: real)
    ensures (f - 32.0) * 5.0 / 9.0 == c
  {
    (c * 9.0) / 5.0 + 32.0
  }

  /** The conversion preserves order strictly. */
  lemma FahrenheitIncreasing(c1: real, c2: real)
    requires c1 < c2
    ensures Fahrenheit(c1) < Fahrenheit(c2)
  {
  }

  /** Freezing and boiling points, 20 °C, and the Celsius value that converts to 0 °F. */
  lemma FahrenheitReferencePoints()
    ensures Fahrenheit(0.0) == 32.0 && Fahrenheit(100.0) == 212.0
    ensures Fahrenheit(20.0) == 68.0 && Fahrenheit(-160.0 / 9.0) == 0.0
  {
  }

  /** The derived Fahrenheit value: present exactly when a snapshot is. */
  function TempF(weather: Option<Snapshot>): (f: Option<real>)
    ensures f.Some? <==> weather.Some?
    ensures weather.Some? ==> (f.value - 32.0) * 5.0 / 9.0 == weather.value.tempC
  {
    if weather.Some? then Some(Fahrenheit(weather.value.tempC)) else None
  }

  /** The weather view's fields: the snapshot's values unmodified, plus the derived Fahrenheit value. */
  function CardOf(w: Snapshot): (c: Card)
    ensures c.locationName == w.locationName && c.condition == w.condition
    ensures c.tempC == w.tempC && c.humidity == w.humidity && c.windKph == w.windKph
    ensures Some(c.tempF) == TempF(Some(w))
  {
    Card(w.locationName, w.condition, w.tempC, Fahrenheit(w.tempC), w.humidity, w.windKph)
  }

  /** Render selection: loading first, then a missing snapshot, then the weather view. */
  function Select(loading: bool, weather: Option<Snapshot>): (v: View)
    ensures v.Loading? <==> loading
    ensures v.Failed? <==> !loading && weather.None?
    ensures v.Succeeded? <==> !loading && weather.Some?
    ensures v.Succeeded? ==> v.card == CardOf(weather.value)
  {
    if loading then Loading
    else if weather.None? then Failed
    else Succeeded(CardOf(weather.value))
  }

  /** The mount guard: no stored city, or the empty string, sends the user back. */
  predicate CityMissing(city: Option<string>): (missing: bool)
    ensures missing <==> city == None || city == Some("")
    ensures !missing ==> city.Some? && |city.value| > 0
  {
    city.None? || city.value == ""
  }

  /** The result screen's component state, and the browser services it reads and writes. */
  class Weather {
    /** True until the request completes, whatever its outcome. */
    var loading: bool
    /** The provider's response, absent before completion and after a failure. */
    var weather: Option<Snapshot>
    /** Requests issued so far. */
    var requests: seq<Request>
    /** A request is in flight and its completion has not yet been handled. */
    var pending: bool
    /** The mount effect has run. */
    var mounted: bool
    const session: Session

    /** At most one request per mount; loading ends only when that request has completed. */
    ghost predicate Valid()
      reads this
    {
      |requests| <= 1 &&
      (|requests| == 1 ==> mounted) &&
      (pending ==> loading && |requests| == 1) &&
      (loading ==> weather.None?) &&
      (!loading ==> |requests| == 1 && !pending)
    }

    /** The first render: loading, no snapshot, nothing requested yet. */
    constructor (session: Session)
      ensures Valid()
      ensures loading && weather == None && requests == [] && !pending && !mounted
      ensures this.session == session && unchanged(session)
      ensures Select(loading, weather) == Loading
    {
      loading := true;
      weather := None;
      requests := [];
      pending := false;
      mounted := false;
      this.session := session;
    }

    /** The mount effect: redirect when the stored city is missing or empty, otherwise issue one request. */
    method Mount()
      requires Valid() && !mounted
      modifies this, session`route
      ensures Valid() && mounted
      ensures loading && weather == None && Select(loading, weather) == Loading
      ensures CityMissing(session.city) ==>
        session.route == Root && Path(session.route) == "/" && requests == [] && !pending
      ensures !CityMissing(session.city) ==>
        requests == [Request(session.city.value)] && pending && session.route == old(session.route)
    {
      mounted := true;
      if CityMissing(session.city) {
        session.route := Root;
        return;
      }
      requests := requests + [Request(session.city.value)];
      pending := true;
    }

    /** The request resolved: keep the response and stop loading. */
    method FetchSucceeded(data: Snapshot)
      requires Valid() && pending
      modifies this
      ensures Valid() && mounted && !pending && requests == old(requests)
      ensures !loading && weather == Some(data)
      ensures Select(loading, weather) == Succeeded(CardOf(data))
    {
      weather := Some(data);
      loading := false;
      pending := false;
    }

    /** The request failed: no snapshot, and stop loading. */
    method FetchFailed()
      requires Valid() && pending
      modifies this
      ensures Valid() && mounted && !pending && requests == old(requests)
      ensures !loading && weather == None
      ensures Select(loading, weather) == Failed
    {
      weather := None;
      loading := false;
      pending := false;
    }
  }
}
