/** The entry screen: a single text field whose submission validates and stores the city name. */
module EntryScreen {
  import opened JsString
  import opened Browser

  /** The validation message shown when the submitted name trims to nothing. */
  const EmptyCityMessage: string := "City name cannot be empty"

  /** What a submission of the current draft leads to. */
  datatype Outcome = Accepted(city: string) | Rejected(message: string)

  /** Trims the draft and rejects it when nothing is left. */
  function Validate(draft: string): (o: Outcome)
    ensures o.Accepted? <==> !Blank(draft)
    ensures o.Rejected? ==> o.message == EmptyCityMessage
    ensures o.Accepted? ==> o.city == Trim(draft) && o.city != [] && Trim(o.city) == o.city
  {
    var t := Trim(draft);
    TrimIdempotent(draft);
    if t == "" then Rejected(EmptyCityMessage) else Accepted(t)
  }

  /** The message under the form: rendered exactly when the error string is non-empty (JavaScript truthiness). */
  function ErrorBanner(error: string): (shown: Option<string>)
    ensures shown.Some? <==> error != []
    ensures shown.Some? ==> shown.value == error
  {
    if error != "" then Some(error) else None
  }

  /** The entry screen's component state, and the browser services it writes to. */
  class Home {
    /** The text field's content, exactly as typed. */
    var draft: string
    /** The validation message, or "" when none is shown. */
    var error: string
    const session: Session

    /** An error is only ever the validation message, and only while the draft trims to nothing. */
    ghost predicate Valid()
      reads this
    {
      error == "" || (error == EmptyCityMessage && Trim(draft) == "")
    }

    /** A freshly rendered screen: empty field, no message, nothing stored and no navigation. */
    constructor (session: Session)
      ensures Valid()
      ensures draft == "" && error == "" && this.session == session
      ensures ErrorBanner(error) == None
      ensures unchanged(session)
    {
      draft := "";
      error := "";
      this.session := session;
    }

    /** A change event on the text field: keep the value verbatim and clear the message. */
    method Change(value: string)
      modifies this
      ensures Valid()
      ensures draft == value && error == ""
      ensures ErrorBanner(error) == None
    {
      draft := value;
      error := "";
    }

    /** A submission of the form. */
    method Submit()
      requires Valid()
      modifies this, session
      ensures Valid()
      ensures draft == old(draft)
      ensures Validate(draft).Rejected? ==>
        error == EmptyCityMessage && ErrorBanner(error) == Some(EmptyCityMessage) &&
        session.city == old(session.city) && session.route == old(session.route)
      ensures Validate(draft).Accepted? ==>
        error == old(error) &&
        session.city == Some(Trim(draft)) && session.route == WeatherPage && Path(session.route) == "/weather"
    {
      var trimmed := Trim(draft);
      if trimmed == "" {
        error := EmptyCityMessage;
        return;
      }
      session.city := Some(trimmed);
      session.route := WeatherPage;
    }
  }

  /** Whatever a submission stores is a non-empty name with no surrounding whitespace. */
  lemma StoredCityIsClean(draft: string)
    requires Validate(draft).Accepted?
    ensures Validate(draft).city != [] && Tight(Validate(draft).city)
  {
  }
}
