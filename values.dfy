/** The records exchanged with the Ayla device-management API and the two tolerant
    scalar decoders of package client (client/client.go). */
module Values {

  datatype Option<T> = None | Some(value: T)

  /** A Go `error` value; only its presence and identity matter to the model. */
  datatype Error = Error(reason: string)

  datatype Result<T> = Ok(value: T) | Err(error: Error)

  /** What `json.Unmarshal` leaves in its target, together with the error it returns.
      Go keeps whatever was decoded before an error, so both halves are always present. */
  datatype Decoded<T> = Decoded(value: T, err: Option<Error>)

  /** An instant, counted in ticks from Go's zero time (January 1, year 1, UTC). */
  datatype Time = Time(ticks: int)

  const ZeroTime: Time := Time(0)

  datatype Device = Device(
    dsn: string,
    productName: string,
    model: string,
    connectionStatus: string,
    deviceType: string,
    swVersion: string,
    mac: string,
    connectedAt: Time)

  /** The `{"device": {...}}` envelope of the device list. */
  datatype DeviceRoot = DeviceRoot(device: Device)

  /** A device property; `value` is the text a FlexValue decoded, `updatedAt` a FlexTime. */
  datatype Property = Property(
    key: int,
    baseType: string,
    name: string,
    displayName: string,
    value: string,
    updatedAt: Time)

  /** The `{"property": {...}}` envelope; Go holds a pointer, so the property may be absent. */
  datatype PropertyRoot = PropertyRoot(property: Option<Property>)

  datatype Authentication = Authentication(
    accessToken: string,
    refreshToken: string,
    expiresIn: int,
    role: string)

  const Quote: char := '"'
  const Null: string := "null"
  /** The six bytes `"null"`: the JSON string whose text is null. */
  const QuotedNull: string := "\"null\""

  function Quoted(s: string): string
  {
    [Quote] + s + [Quote]
  }

  /** Text a JSON string literal can carry without escapes: no quote, no backslash and
      no control character below U+0020 (JSON requires those to be escaped). */
  predicate IsPlain(s: string)
  {
    forall i :: 0 <= i < |s| ==> s[i] != Quote && s[i] != '\\' && s[i] >= ' '
  }

  /** What the model asks of the JSON string decoder it is given: an escape-free literal
      without control characters decodes to the text between its quotes. */
  ghost predicate DecodesPlainLiterals(unquote: string -> Result<string>)
  {
    forall s :: IsPlain(s) ==> unquote(Quoted(s)) == Ok(s)
  }

  /** FlexValue.UnmarshalJSON, as a function of the raw bytes `b` and the text the target
      held before. A JSON string goes through `unquote` (an error leaves the target alone),
      `null` stores the empty text, and anything else is stored between two quote
      characters. An empty `b` indexes out of range in Go, hence the precondition. */
  function UnmarshalFlexValue(b: string, current: string, unquote: string -> Result<string>): (r: Decoded<string>)
    requires |b| > 0
    ensures r.err.Some? ==> b[0] == Quote && r.value == current
    ensures b[0] == Quote && unquote(b).Ok? ==> r == Decoded(unquote(b).value, None)
    ensures b[0] != Quote ==> r.err.None? && r.value != b
  {
    if b[0] == Quote then
      match unquote(b)
      case Ok(s) => Decoded(s, None)
      case Err(e) => Decoded(current, Some(e))
    else if b == Null then
      Decoded("", None)
    else
      Decoded(Quoted(b), None)
  }

  /** FlexTime.UnmarshalJSON: exactly the six bytes `"null"` give the zero time; any other
      input goes to `parse` (json.Unmarshal into a time.Time), and on its error the target
      keeps the instant it held. */
  function UnmarshalFlexTime(b: string, current: Time, parse: string -> Result<Time>): (r: Decoded<Time>)
    ensures b == QuotedNull ==> r == Decoded(ZeroTime, None)
    ensures r.err.Some? ==> b != QuotedNull && r.value == current
  {
    if b == QuotedNull then
      Decoded(ZeroTime, None)
    else
      match parse(b)
      case Ok(t) => Decoded(t, None)
      case Err(e) => Decoded(current, Some(e))
  }

  /** A FlexValue field being decoded in place: Go writes through the receiver pointer. */
  class FlexValue {
    var text: string

    constructor ()
      ensures text == ""
    {
      text := "";
    }

    method UnmarshalJSON(b: string, unquote: string -> Result<string>) returns (err: Option<Error>)
      requires |b| > 0
      modifies this
      ensures Decoded(text, err) == UnmarshalFlexValue(b, old(text), unquote)
    {
      if b[0] == Quote {
        var s := unquote(b);
        if s.Ok? {
          text := s.value;
          err := None;
        } else {
          err := Some(s.error);
        }
        return;
      }
      if b == Null {
        text := "";
        return None;
      }
      text := Quoted(b);
      err := None;
    }
  }

  /** A FlexTime field being decoded in place. */
  class FlexTime {
    var time: Time

    constructor ()
      ensures time == ZeroTime
    {
      time := ZeroTime;
    }

    method UnmarshalJSON(b: string, parse: string -> Result<Time>) returns (err: Option<Error>)
      modifies this
      ensures Decoded(time, err) == UnmarshalFlexTime(b, old(time), parse)
    {
      if b == QuotedNull {
        time := ZeroTime;
        return None;
      }
      var t := parse(b);
      if t.Err? {
        return Some(t.error);
      }
      time := t.value;
      err := None;
    }
  }

  /** A quoted, escape-free JSON string is stored without its quotes and without error. */
  lemma FlexValueStringRoundTrip(s: string, current: string, unquote: string -> Result<string>)
    requires DecodesPlainLiterals(unquote)
    requires IsPlain(s)
    ensures UnmarshalFlexValue(Quoted(s), current, unquote) == Decoded(s, None)
  {
  }

  /** Any quoted input, escaped or not, is exactly what the string decoder makes of it,
      the target being left as it was on a decode error. */
  lemma FlexValueStringDelegates(b: string, current: string, unquote: string -> Result<string>)
    requires |b| > 0 && b[0] == Quote
    ensures unquote(b).Ok? ==> UnmarshalFlexValue(b, current, unquote) == Decoded(unquote(b).value, None)
    ensures unquote(b).Err? ==> UnmarshalFlexValue(b, current, unquote) == Decoded(current, Some(unquote(b).error))
  {
  }

  /** A string decode error is handed back as it is and leaves the target unchanged. */
  lemma FlexValueStringError(b: string, current: string, unquote: string -> Result<string>)
    requires |b| > 0 && b[0] == Quote && unquote(b).Err?
    ensures UnmarshalFlexValue(b, current, unquote) == Decoded(current, Some(unquote(b).error))
  {
  }

  /** The bare literal null stores the empty text, whatever the target held. */
  lemma FlexValueNull(current: string, unquote: string -> Result<string>)
    ensures UnmarshalFlexValue(Null, current, unquote) == Decoded("", None)
  {
  }

  /** Any other input is stored between two quote characters and never fails: the stored
      text is never the raw input itself, and the raw input sits between the quotes. */
  lemma FlexValueBareIsWrapped(b: string, current: string, unquote: string -> Result<string>)
    requires |b| > 0 && b[0] != Quote && b != Null
    ensures var r := UnmarshalFlexValue(b, current, unquote);
      r.err.None? && r.value != b && |r.value| == |b| + 2 &&
      r.value[0] == Quote && r.value[|b| + 1] == Quote && r.value[1..|b| + 1] == b
  {
  }

  /** The bare number 2 is stored as the three characters "2" (quotes included), so it
      differs both from the text 2 and from what the JSON string "2" decodes to. */
  lemma BareTwoIsNotTwo(current: string, unquote: string -> Result<string>)
    requires DecodesPlainLiterals(unquote)
    ensures UnmarshalFlexValue("2", current, unquote).value == "\"2\""
    ensures UnmarshalFlexValue("2", current, unquote).value != "2"
    ensures UnmarshalFlexValue("\"2\"", current, unquote).value == "2"
  {
  }

  /** Only the six bytes "null" are special: the four-byte bare null goes to the parser. */
  lemma FlexTimeOnlyQuotedNullIsZero(current: Time, parse: string -> Result<Time>)
    ensures UnmarshalFlexTime(QuotedNull, current, parse) == Decoded(ZeroTime, None)
    ensures UnmarshalFlexTime(Null, current, parse) ==
      match parse(Null)
      case Ok(t) => Decoded(t, None)
      case Err(e) => Decoded(current, Some(e))
  {
  }

  /** Any input other than "null" is exactly what the parser makes of it, the target
      being left as it was on a parse error. */
  lemma FlexTimeDelegates(b: string, current: Time, parse: string -> Result<Time>)
    requires b != QuotedNull
    ensures parse(b).Ok? ==> UnmarshalFlexTime(b, current, parse) == Decoded(parse(b).value, None)
    ensures parse(b).Err? ==> UnmarshalFlexTime(b, current, parse) == Decoded(current, Some(parse(b).error))
  {
  }
}
