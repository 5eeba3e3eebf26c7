/**
 * The two browser services both screens share: the `localStorage` entry under the key
 * `city` and the client-side router's current location.
 */
module Browser {

  datatype Option<+T> = None | Some(value: T)

  /** The application's two routes. */
  datatype Route = Root | WeatherPage

  /** The path each route is registered under. */
  function Path(r: Route): (p: string)
    ensures |p| > 0 && p[0] == '/'
    ensures r == Root <==> p == "/"
    ensures r == WeatherPage <==> p == "/weather"
  {
    match r
    case Root => "/"
    case WeatherPage => "/weather"
  }

  /** Browser state shared by the screens: the stored city (absent until written) and the route. */
  class Session {
    var city: Option<string>
    var route: Route

    constructor (city: Option<string>, route: Route)
      ensures this.city == city && this.route == route
    {
      this.city := city;
      this.route := route;
    }
  }
}
