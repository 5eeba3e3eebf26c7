# SkyCast: the two screens as verified state machines

SkyCast is a two-screen weather client. On the entry screen the user types a city
name. Submitting trims it, rejects it with "City name cannot be empty" when nothing
is left, and otherwise writes it to `localStorage` under `city` and navigates to
`/weather`. On mount, the result screen reads that key. When the key is missing or
empty it redirects to `/`. Otherwise it issues one request to the weather provider
and renders a loading, failure or weather view; the weather view adds a Fahrenheit
value derived from the Celsius temperature.

The project models that logic:

- `js_string.dfy` (module `JsString`): ECMAScript's `String.prototype.trim` over the
  WhiteSpace and LineTerminator code points. It comes with a reference description of a
  trim result (`TrimmedAt`), proved to determine `Trim` uniquely.
- `browser.dfy` (module `Browser`): the shared browser services. Class `Session` holds
  the stored city as an optional string and the current route.
- `entry_screen.dfy` (module `EntryScreen`): class `Home` holds the draft and error
  state. `Change` and `Submit` are its event handlers, and `Valid()` is the invariant
  they keep: a shown error means the draft trims to nothing. The pure `Validate`
  specifies submission and `ErrorBanner` specifies when the message is shown.
- `result_screen.dfy` (module `ResultScreen`): class `Weather` holds the `loading` and
  `weather` state plus the requests issued. `Mount`, `FetchSucceeded` and `FetchFailed`
  are its transitions. The pure `Select` gives the render-state choice and
  `Fahrenheit`/`TempF` the derived temperature.
- `app.dfy` (module `App`): the screens composed through one session, including a
  whole visit from typing to the rendered view.

## Model

| member | source | states |
|---|---|---|
| `JsString.IsWhiteSpace` | src/pages/Home.jsx:11 | the WhiteSpace code points `trim` removes (TAB, VT, FF, ZWNBSP and category Zs); none is a line terminator and all lie in the Basic Multilingual Plane |
| `JsString.IsLineTerminator` | src/pages/Home.jsx:11 | the LineTerminator code points `trim` removes (LF, CR, U+2028, U+2029), all in the Basic Multilingual Plane |
| `JsString.IsTrimmable` | src/pages/Home.jsx:11 | a code point is removed by `trim` when it is WhiteSpace or a LineTerminator; no ASCII letter or digit is ever removed |
| `JsString.Trim` | src/pages/Home.jsx:11 | the result is an infix of the input with only trimmable characters around it and no trimmable character at either end; it is empty exactly when every character is trimmable |
| `JsString.FirstKept` | src/pages/Home.jsx:11 | the index of the first kept character: everything before it is trimmable and the character there is not |
| `JsString.LastKept` | src/pages/Home.jsx:11 | one past the last kept character: everything after it is trimmable and the character before it is not |
| `JsString.TrimUnique` | src/pages/Home.jsx:11 | any split of a string into trimmable padding and a tight middle makes that middle the trim result |
| `JsString.TrimIdempotent` | src/pages/Home.jsx:15 | trimming the stored (already trimmed) value again changes nothing |
| `JsString.TrimRemovesPadding` | src/pages/Home.jsx:11 | whitespace and line terminators around a tight name are all removed, whatever they are |
| `EntryScreen.Validate` | src/pages/Home.jsx:11-15 | a draft is accepted exactly when it does not trim to empty; an accepted city is the trimmed draft, non-empty and its own trim; a rejection carries "City name cannot be empty" |
| `EntryScreen.ErrorBanner` | src/pages/Home.jsx:34 | the validation message is rendered exactly when the error string is non-empty, and it shows that string |
| `EntryScreen.Home.constructor` | src/pages/Home.jsx:5-6 | initial state: empty draft, no error shown, nothing stored and no navigation |
| `EntryScreen.Home.Change` | src/pages/Home.jsx:26-29 | the draft becomes the typed value verbatim and the error is cleared, whatever the value; the invariant holds |
| `EntryScreen.Home.Submit` | src/pages/Home.jsx:9-17 | the draft never changes; a draft that trims to empty sets the error and leaves the store and the route alone; otherwise the store holds exactly the trimmed draft, the route's path is `/weather` and the error is unchanged; a shown error always means the draft trims to empty |
| `EntryScreen.StoredCityIsClean` | src/pages/Home.jsx:15 | whatever submission stores is non-empty and has no leading or trailing whitespace |
| `Browser.Path` | src/pages/Home.jsx:16 | the routes' paths start with `/`; the entry screen's route is exactly the one at `/` and the result screen's route exactly the one at `/weather` |
| `ResultScreen.CityMissing` | src/pages/Weather.jsx:12 | `!city` holds exactly when the stored value is absent (`null`) or the empty string; otherwise the city has at least one character |
| `ResultScreen.Weather.constructor` | src/pages/Weather.jsx:6-7 | initial state: loading, no snapshot, no request issued, rendered as Loading |
| `ResultScreen.Weather.Mount` | src/pages/Weather.jsx:11-32 | a missing or empty stored city routes to the path `/` and issues no request; otherwise exactly one request is issued with the city verbatim as `q`; loading stays true either way |
| `ResultScreen.Weather.FetchSucceeded` | src/pages/Weather.jsx:19-28 | the snapshot becomes the response data, loading ends, and the view is the weather card for that data |
| `ResultScreen.Weather.FetchFailed` | src/pages/Weather.jsx:23-28 | the snapshot becomes absent, loading ends, and the view is Failed |
| `ResultScreen.Fahrenheit` | src/pages/Weather.jsx:35 | `c * 9 / 5 + 32`, stated as its inverse: converting the result back with `(f - 32) * 5 / 9` gives `c` |
| `ResultScreen.FahrenheitIncreasing` | src/pages/Weather.jsx:35 | a higher Celsius temperature gives a strictly higher Fahrenheit value |
| `ResultScreen.FahrenheitReferencePoints` | src/pages/Weather.jsx:35 | 0 maps to 32, 100 to 212, 20 to 68 and -160/9 to 0 |
| `ResultScreen.TempF` | src/pages/Weather.jsx:34-36 | the Fahrenheit value is present exactly when a snapshot is, and is then the conversion of its `temp_c` |
| `ResultScreen.CardOf` | src/pages/Weather.jsx:43-48 | the weather view shows the location name, condition text, unmodified `temp_c`, humidity and `wind_kph`, plus the derived Fahrenheit value |
| `ResultScreen.Select` | src/pages/Weather.jsx:38-41 | Loading exactly when loading; otherwise Failed exactly when there is no snapshot; otherwise the weather view of the snapshot. Exactly one outcome holds |
| `App.AcceptedCityPassesGuard` | src/pages/Weather.jsx:12-15 | a city accepted by the entry screen never triggers the result screen's redirect |
| `App.Visit` | src/pages/Weather.jsx:11-32 | from a fresh session, a blank draft stores nothing, stays on `/` and sends nothing. Any other draft stores and sends its trim, and the view is the weather card on success or Failed on failure |
| `App.LondonIsTrimmed` | src/pages/Home.jsx:11-15 | the draft "  London" followed by a tab is accepted as "London" |

## Left out

- JSX markup, CSS classes and React's hook scheduling. Only the state that `useState`, `useMemo` and `useEffect` hold is modelled. The model does not capture a re-run of the effect when the stored city changes between renders.
- The HTTP request itself, the provider URL and the API key (src/pages/Weather.jsx:19-21). A request is modelled as `Request(q)`, and its completion as the events `FetchSucceeded(data)` and `FetchFailed`. The city is put into `q` verbatim, as the code does: it is not URL-encoded.
- `ResultScreen.Weather`'s `pending` and `mounted` fields stand for the in-flight promise and for "the effect has run"; the component has no such variables.
- `console.error` logging on failure (src/pages/Weather.jsx:24): diagnostic output only.
- IEEE-754 doubles and `toFixed(2)` (src/pages/Weather.jsx:46): temperatures are exact `real`s, and the view carries the unrounded Fahrenheit value.
- Responses that arrive after the screen unmounts. The code has no guard against them, and the model has no unmount.
- Responses without `current` or `location` fields: the code would throw while rendering, and the model's `Snapshot` always has the fields it reads.
- A falsy response body (`""`, `0`, `false`, `null`) is rendered by the code as the failure message, since `!weather` holds; the model reaches the same Failed view through `FetchFailed`, holding `None` where the code holds the falsy value.
- JavaScript strings are UTF-16 code units; the model's `char` is a Unicode scalar value, so lone surrogates cannot be represented. Every character `trim` removes is in the Basic Multilingual Plane. The space separators are those of Unicode category Zs.
- `e.preventDefault()` (src/pages/Home.jsx:10): browser form plumbing.
- `localStorage` and the router as real services: they are the `city` and `route` fields of `Browser.Session`, not synchronised across tabs.
