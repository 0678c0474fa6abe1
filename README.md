# owlet-golang in Dafny

A model of the core of owlet-golang. That program polls the Ayla device-management
cloud for telemetry from one Owlet smart sock and appends each snapshot to a local
log file. The model covers two parts:

- **The API client** of package `client` (`client/client.go`). It covers the tolerant
  `FlexValue` and `FlexTime` JSON decoders and the session held in `Client.Auth`
  (`login`, `authenticate`, `New`). It also covers request construction (URL
  template, headers, endpoints), the one-shot `MakeRequest`, and the gateway
  operations: `GetDevices`, `SetFirstDevice`, `GetPropertyByName`, `GetProperties`
  and `SetAppActiveStatus`.
- **The poll driver** of `main.go`. It covers `backoff`, one iteration of the
  unbounded `for` loop as a state transition, the loop run over a finite sequence of
  polls, and the setup steps whose failure ends `main` before the loop starts.

Files:

- `values.dfy` (module `Values`): the records and the two decoders. Each decoder is a
  function of the raw bytes and the previous value. It also appears as a class method
  that writes through its receiver, as Go does.
- `requests.dfy` (module `Requests`): `NewRequest`, `NewRequestWithAuthoriztion`
  (spelled `NewRequestWithAuthorization` here) and the endpoint strings.
- `client.dfy` (module `Client`): the HTTP transport and the `Client` class with its
  `Auth` and `Device` fields. It also holds the envelope-unwrapping loops and the
  functions that specify them.
- `poller.dfy` (module `Poller`): `Backoff`, the loop state `LoopState`, the
  transition `Next`, the `PollDriver` class whose `Step` updates the loop variables in
  place, and `Launch`.

External effects are inputs to the model:

- **The network.** `Transport` records every request handed to `Do`. It answers the
  n-th request with an oracle `answer(n, request)`, which gives a transport error, or
  a body and the error `ioutil.ReadAll` returned. "Exactly one attempt" is stated as
  `http.sent == old(http.sent) + [request]`.
- **JSON decoding of whole records** is an oracle `string -> Decoded<T>`. It gives
  what `json.Unmarshal` leaves in its target and the error it returns.
- **JSON string unquoting** (inside `FlexValue`) is an oracle. It is constrained only
  by `DecodesPlainLiterals`: a literal with no escape and no control character
  decodes to the text between its quotes.
- **RFC 3339 parsing** (inside `FlexTime`) is an oracle `string -> Result<Time>`.
- **The driver's poll outcome.** Each poll's fetch outcome and the outcome of
  marshalling the fetched map are given as a `Poll` value.

Go panics become preconditions:

- `b[0]` on empty input to `FlexValue.UnmarshalJSON`.
- A nil `Auth` in `NewRequestWithAuthoriztion`.
- `devices[0]` on an empty device list.
- A nil `Property` pointer in an envelope.
- A missing `CHARGE_STATUS` entry in the driver.

### Behaviour as written

The model follows the code, including where its behaviour is easy to miss:

- **FlexValue.** A bare literal such as `2` is not stored verbatim. The code stores
  it between two `"` characters, so it becomes the three characters `"2"`
  (`FlexValueBareIsWrapped`). Consequence: a numeric `CHARGE_STATUS` of `2` never
  equals `"2"`, while the JSON string `"2"` does (`BareTwoIsNotTwo`).
- **No 401 handling.** There is no re-authentication and no retry. `MakeRequest`
  makes exactly one transport attempt and returns its error. A 401 response arrives
  as an ordinary body.
- **Login errors.** `login` discards the JSON decode error of the sign-in body, stores
  whatever was decoded and returns nil. Only transport and read errors leave `Auth`
  unchanged.
- **Charging polls.** The `CHARGE_STATUS == "2"` branch does `continue` before the file
  write, so charging polls are neither logged nor followed by `SetAppActiveStatus`
  (`ChargingLogsNothing`, `ChargingThenNormal`).
- **Empty device list.** `SetFirstDevice` indexes `devices[0]` unchecked, which panics
  on an empty list, so the model has a precondition instead of an error result.
- **Absent property.** `GetPropertyByName` does not report a missing property as an
  error: when the envelope holds no property it returns nil together with whatever
  error the request produced, possibly none.
- **Token refresh.** There is no background token refresh. The only such code
  (`refreshAuth`) is commented out.

## Model

| member | source | states |
|---|---|---|
| Values.UnmarshalFlexValue | client/client.go:90-102 | an error can only come from the quoted-string branch and then leaves the target unchanged; a quoted input the string decoder accepts is stored as the decoder's text with no error; any input not starting with a quote never errors and is never stored as the raw input itself |
| Values.FlexValue.UnmarshalJSON | client/client.go:90-102 | writing through the receiver leaves exactly the text and error of UnmarshalFlexValue on the old text |
| Values.FlexValueStringRoundTrip | client/client.go:91-93 | a quoted string with no escape and no control character is stored without its quotes and without error |
| Values.FlexValueStringDelegates | client/client.go:91-93 | any quoted input, escaped or not, yields the string decoder's text, or its error with the target unchanged |
| Values.FlexValueStringError | client/client.go:91-93 | a string decode error is returned as it is and the stored text is unchanged |
| Values.FlexValueNull | client/client.go:95-98 | the literal null stores the empty text with no error, whatever was stored before |
| Values.FlexValueBareIsWrapped | client/client.go:100-101 | any other input is stored as quote + raw text + quote, never errors, and never equals the raw text |
| Values.BareTwoIsNotTwo | client/client.go:90-101 | bare 2 is stored as the three characters "2", which differs from the text 2 that the JSON string "2" decodes to |
| Values.UnmarshalFlexTime | client/client.go:104-117 | exactly the six bytes "null" give the zero time without error; an error leaves the previous instant |
| Values.FlexTime.UnmarshalJSON | client/client.go:104-117 | writing through the receiver leaves exactly the instant and error of UnmarshalFlexTime on the old instant |
| Values.FlexTimeOnlyQuotedNullIsZero | client/client.go:105-108 | "null" gives the zero time, while the bare null goes to the time parser like any other input |
| Values.FlexTimeDelegates | client/client.go:110-116 | any input other than "null" yields the parser's instant, or its error with the target unchanged |
| Requests.Url | client/client.go:297 | the URL starts with https:// and the subdomain, and ends with the endpoint unchanged |
| Requests.PropertiesEndpoint | client/client.go:196 | the path is apiv1/dsns/, then the device serial, then /properties.json |
| Requests.PropertyEndpoint | client/client.go:189 | the path is apiv1/dsns/, then the device serial, and ends with the property name |
| Requests.AppActiveEndpoint | client/client.go:213 | the APP_ACTIVE datapoint path is the single-property path for the name APP_ACTIVE/datapoints.json |
| Requests.NewRequest | client/client.go:296-306 | the request keeps verb and body, its URL is Url(subdomain, endpoint), and its headers are exactly Accept and Content-Type, both application/json |
| Requests.NewRequestWithAuthorization | client/client.go:287-294 | requires a session; the same URL, verb and body, with exactly the three headers, the Authorization header carrying the session's access token under the auth_token scheme |
| Requests.BearerTokenOfHeader | client/client.go:292 | the token read back from an "auth_token " header is the token written into it |
| Requests.UrlRoundTrip | client/client.go:297 | the URL of any request, whatever its verb and body, splits back into host `<subdomain>.aylanetworks.com` and the endpoint, for any subdomain without a slash |
| Requests.EndpointsIdentifyDevice | client/client.go:196-213 | distinct DSNs give distinct property-list and APP_ACTIVE endpoints |
| Client.Transport.Do | client/client.go:143 | one call records one request and returns the oracle's answer for that attempt |
| Client.RequestOutcome | client/client.go:143-154 | success implies a body arrived; a transport error is returned with the target left at its initial value; a body yields exactly its decoding |
| Client.RequestOutcomeIgnoresReadError | client/client.go:149-154 | the outcome of a reply with a body does not depend on the read error that came with it |
| Client.SignInRequest | client/client.go:236-252 | an unauthenticated POST to the sign-in URL on the user host, carrying the email, the password and the fixed application id and secret |
| Client.ActiveDatapoint | client/client.go:215-219 | the posted datapoint has value 1, with no metadata and the zero time |
| Client.LoginOutcome | client/client.go:257-273 | an error is returned exactly on a transport or read error, and then Auth is unchanged; otherwise Auth becomes the decoded record, even if decoding failed |
| Client.Client.MakeRequest | client/client.go:135-155 | exactly one authorised request is sent, with no retry; target and error are the RequestOutcome of its reply |
| Client.Client.Login | client/client.go:234-274 | sends exactly one sign-in request with the fixed application id and secret; Auth and the error follow LoginOutcome; Device is unchanged |
| Client.Client.Authenticate | client/client.go:157-162 | with a session: no request, Auth unchanged, no error; without one: exactly the login |
| Client.New | client/client.go:276-285 | a fresh client with no device, which always logs in since it starts without a session |
| Client.Client.constructor | client/client.go:277-281 | the client holds the credentials and transport, with no session and no device |
| Client.UnwrapDevices | client/client.go:181-185 | the devices are as many as the envelopes, with devices[i] the device of envelope i |
| Client.Client.GetDevices | client/client.go:174-186 | one request; on error an empty list and the error; otherwise the envelopes' devices in order |
| Client.Client.SetFirstDevice | client/client.go:164-172 | on success Device becomes the first listed device; on error it is unchanged and the error is returned; Auth is untouched |
| Client.Client.GetPropertyByName | client/client.go:188-193 | one request to the single-property endpoint; returns the envelope's property, possibly absent, and the error as decoding left them |
| Client.UnwrapProperties | client/client.go:203-209 | the map built by inserting each envelope's property under its name, in order |
| Client.PropertiesByNameKeys | client/client.go:203-209 | the map's keys are exactly the names the envelopes carry |
| Client.PropertiesByNameLastWins | client/client.go:203-209 | each name maps to the property of the last envelope carrying that name |
| Client.LaterDuplicateWins | client/client.go:204-207 | two envelopes with one name give a one-entry map holding the later property |
| Client.Client.GetProperties | client/client.go:195-210 | one request; on error an empty map and the error; otherwise the envelopes' properties keyed by name |
| Client.Client.SetAppActiveStatus | client/client.go:212-232 | posts the datapoint with value 1 to the device's APP_ACTIVE endpoint in one request; returns true exactly when no error came back |
| Poller.NextAttempt | main.go:42-47 | the counter backoff returns is min(attempt + 1, 20) for every input |
| Poller.BackoffDelayMonotone | main.go:38 | over all integer exponents, negative ones sleeping 0 ms, a larger exponent never gives a shorter sleep |
| Poller.Backoff | main.go:36-49 | returns min(attempt + 1, 20) and sleeps BackoffDelay(attempt), 2^attempt ms computed from the input before capping |
| Poller.Pow2Monotone | main.go:38 | 2^a <= 2^b whenever a <= b |
| Poller.BackoffDelayBounds | main.go:38-46 | for a counter in [1, 20] the next delay is no shorter, and no delay exceeds 2^20 ms |
| Poller.ConsecutiveFailures | main.go:42-47 | n consecutive backoffs from 1 leave the counter at min(1 + n, 20) |
| Poller.Next | main.go:75-113 | fetch error: propAttempts backs off and only a sleep of 2^propAttempts ms is added. Marshal error: only propAttempts resets to 1, with no sleep. Success: propAttempts resets to 1. Charging: attempts backs off with a sleep of 2^attempts ms, nothing logged, no SetAppActiveStatus. Otherwise: attempts resets to 1, one line logged, one call, a 2000 ms sleep. Counters stay in [1, 20] |
| Poller.RunStaysInRange | main.go:73-95 | over any sequence of polls, both counters stay in [1, 20] and every sleep is at most 2^20 ms |
| Poller.CountersFromStart | main.go:73-95 | from attempts = propAttempts = 1, both counters stay in [1, 20] whatever the polls |
| Poller.LoggedLinesMatchActiveCalls | main.go:95-110 | the log only grows at its end, by exactly as many lines as SetAppActiveStatus calls |
| Poller.ChargingLogsNothing | main.go:89-94 | a run of charging polls appends nothing, never calls SetAppActiveStatus, and leaves attempts at min(1 + polls, 20) |
| Poller.ChargingThenNormal | main.go:75-113 | three charging polls then a normal one log only the fourth snapshot and make one SetAppActiveStatus call, after sleeps of 2, 4, 8 and 2000 ms |
| Poller.PollDriver.constructor | main.go:73-74 | the loop starts with both counters at 1, an empty log and no calls |
| Poller.PollDriver.Step | main.go:75-113 | one iteration updates the loop variables in place to exactly Next of the old state |
| Poller.PollDriver.Drive | main.go:75-113 | running the loop over a sequence of polls leaves exactly Run of the old state |
| Poller.Launch | main.go:51-72 | a login, device-listing or file-open error ends setup with no poll driver, so nothing is logged; otherwise the first device is selected and the loop starts from the initial state |

## Left out

- HTTP transport, `logRequest`/`httputil.DumpRequest`, and `ioutil.ReadAll`: network I/O, replaced by the `Transport` oracle. The request dump is diagnostic output only.
- JSON marshalling and unmarshalling of whole records (`json.Marshal`, `json.Unmarshal`, `StructToReader`): library code, replaced by decode oracles. Request bodies are kept as the records they serialise. `StructToReader` cannot fail on the sign-in payload or the fixed datapoint.
- The errors of `http.NewRequest` (invalid method or unparsable URL): the methods are the constants GET and POST, and URL parsing is library code. `NewRequest` and `NewRequestWithAuthorization` are total here.
- JSON string unescaping and RFC 3339 parsing: library code, kept as oracles. Only string literals with no escape and no control character are constrained.
- Client.ActiveDatapoint: Go leaves `Metadata` a nil map, which `json.Marshal` writes as null; bodies are not serialised here, so the model holds the empty map.
- `Client.Post` and `Client.Get`: one-line wrappers that fix the HTTP verb. The gateway methods call `MakeRequest` with that verb directly.
- `backoff`'s `math.Pow` float arithmetic and its `%.2f` output: the delay is the exact integer 2^attempt.
- Backoff: does not model the int64 overflow of the sleep duration for attempts of 44 or more, which the poll loop never reaches because its counters stay at most 20.
- `time.Sleep`: sleeps are recorded as milliseconds in the loop state instead of being taken.
- All `fmt.Print*` output, `LoadConfig` (viper configuration), and `os.OpenFile`: the file-open outcome is an input to `Launch`, and the log file is a sequence of lines.
- The error of `SetAppActiveStatus` inside the loop: it is only printed, so the loop state counts calls and ignores their outcome.
- The unbounded loop: the loop runs over a finite sequence of polls (`Run`, `PollDriver.Drive`). An endless loop has no termination measure to verify.
- Poller.Launch: its precondition requires a non-empty successful device listing, because Go panics on `devices[0]`.
- Time values: an instant is an integer tick count from Go's zero time. Time zones and monotonic clock readings are not modelled.
- Background token refresh: only a commented-out `refreshAuth` stub exists in the code, and there is no 401 retry.
