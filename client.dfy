/** The API client of package client (client/client.go): the session held in `Auth`,
    the selected `Device`, one-shot requests, and the gateway operations that unwrap the
    server's envelopes. The network is a Transport whose replies come from an oracle. */
module Client {
  import opened Values
  import opened Requests

  /** What `http.Client.Do` and the body read produce: a transport error, or a body
      together with the error `ioutil.ReadAll` returned (which may come with partial data). */
  datatype Reply = Failed(err: Error) | Received(body: string, readErr: Option<Error>)

  /** The HTTP transport. Every call to Do is recorded in `sent`, and the n-th request
      is answered by `answer(n, request)`. */
  class Transport {
    var sent: seq<Request>
    const answer: (nat, Request) -> Reply

    constructor (answer: (nat, Request) -> Reply)
      ensures sent == [] && this.answer == answer
    {
      sent := [];
      this.answer := answer;
    }

    method Do(req: Request) returns (reply: Reply)
      modifies this
      ensures sent == old(sent) + [req]
      ensures reply == answer(|old(sent)|, req)
    {
      reply := answer(|sent|, req);
      sent := sent + [req];
    }
  }

  const AppId: string := "OWL-id"
  const AppSecret: string := "OWL-4163742"

  /** The request `login` sends: an unauthenticated POST to the sign-in endpoint on the user
      host, carrying the credentials under the fixed application id and secret. */
  function SignInRequest(email: string, password: string): (r: Request)
    ensures r.verb == "POST" && r.url == Url(UserSubdomain, SignInEndpoint)
    ensures "Authorization" !in r.header
    ensures r.body.SignIn? && r.body.payload.user.email == email && r.body.payload.user.password == password
    ensures r.body.payload.user.application == Application(AppId, AppSecret)
  {
    NewRequest("POST", UserSubdomain, SignInEndpoint,
      SignIn(Payload(User(email, password, Application(AppId, AppSecret)))))
  }

  /** The datapoint SetAppActiveStatus posts: only the value is set, to 1, so the metadata
      and the timestamp keep Go's zero values. */
  function ActiveDatapoint(): (d: DatapointRequest)
    ensures d.datapoint.value == 1
    ensures d.datapoint.metadata == map[] && d.datapoint.updatedAt == ZeroTime
  {
    DatapointRequest(IntDatapoint(1, map[], ZeroTime))
  }

  /** What MakeRequest leaves in its target `v` and returns, given the reply: a transport
      error leaves `initial` in place and is returned; otherwise the body is decoded, a
      read error being ignored. */
  function RequestOutcome<T>(reply: Reply, initial: T, decode: string -> Decoded<T>): (d: Decoded<T>)
    ensures d.err.None? ==> reply.Received?
    ensures reply.Failed? ==> d.value == initial && d.err == Some(reply.err)
    ensures reply.Received? ==> d == decode(reply.body)
  {
    match reply
    case Failed(e) => Decoded(initial, Some(e))
    case Received(body, _) => decode(body)
  }

  /** A read error that comes with the body changes nothing: the partial body is decoded
      as if it had been read in full. */
  lemma RequestOutcomeIgnoresReadError<T>(body: string, e1: Option<Error>, e2: Option<Error>,
                                          initial: T, decode: string -> Decoded<T>)
    ensures RequestOutcome(Received(body, e1), initial, decode) == RequestOutcome(Received(body, e2), initial, decode)
  {
  }

  /** The new `Auth` and the error of `login`, given the sign-in reply: a transport or read
      error keeps `Auth`; a body always replaces it with whatever decoded, and the JSON
      decode error is dropped. */
  function LoginOutcome(reply: Reply, current: Option<Authentication>,
                        decodeAuth: string -> Decoded<Authentication>): (r: (Option<Authentication>, Option<Error>))
    ensures r.1.Some? <==> reply.Failed? || reply.readErr.Some?
    ensures r.1.Some? ==> r.0 == current
    ensures r.1.None? ==> r.0 == Some(decodeAuth(reply.body).value)
  {
    match reply
    case Failed(e) => (current, Some(e))
    case Received(body, Some(e)) => (current, Some(e))
    case Received(body, None) => (Some(decodeAuth(body).value), None)
  }

  /** Every envelope of the list holds a property (Go dereferences each one). */
  predicate AllPresent(roots: seq<PropertyRoot>)
  {
    forall i :: 0 <= i < |roots| ==> roots[i].property.Some?
  }

  function NameAt(roots: seq<PropertyRoot>, i: nat): string
    requires i < |roots| && roots[i].property.Some?
  {
    roots[i].property.value.name
  }

  /** No envelope after position i carries i's name: i is the last envelope of its name. */
  ghost predicate IsLastOfName(roots: seq<PropertyRoot>, i: nat)
    requires i < |roots| && AllPresent(roots)
  {
    forall j :: i < j < |roots| ==> NameAt(roots, j) != NameAt(roots, i)
  }

  /** The map GetProperties builds, envelope by envelope, from first to last. */
  function PropertiesByName(roots: seq<PropertyRoot>): map<string, Property>
    requires AllPresent(roots)
  {
    if roots == [] then map[]
    else
      var last := roots[|roots| - 1].property.value;
      PropertiesByName(roots[..|roots| - 1])[last.name := last]
  }

  /** The loop of GetDevices: a slice as long as the envelope list, filled by index. */
  method UnwrapDevices(roots: seq<DeviceRoot>) returns (devices: seq<Device>)
    ensures |devices| == |roots|
    ensures forall i :: 0 <= i < |roots| ==> devices[i] == roots[i].device
  {
    var a := new Device[|roots|];
    var i := 0;
    while i < |roots|
      invariant 0 <= i <= |roots|
      invariant a.Length == |roots|
      invariant forall k :: 0 <= k < i ==> a[k] == roots[k].device
    {
      a[i] := roots[i].device;
      i := i + 1;
    }
    devices := a[..];
  }

  /** The loop of GetProperties: each envelope's property is stored under its name. */
  method UnwrapProperties(roots: seq<PropertyRoot>) returns (props: map<string, Property>)
    requires AllPresent(roots)
    ensures props == PropertiesByName(roots)
  {
    props := map[];
    var n := 0;
    while n < |roots|
      invariant 0 <= n <= |roots|
      invariant props == PropertiesByName(roots[..n])
    {
      assert roots[..n + 1][..n] == roots[..n];
      var property := roots[n].property.value;
      props := props[property.name := property];
      n := n + 1;
    }
    assert roots[..n] == roots;
  }

  class Client {
    const http: Transport
    const email: string
    const password: string
    var activePropId: int
    var auth: Option<Authentication>
    var device: Option<Device>

    constructor (email: string, password: string, http: Transport)
      ensures this.email == email && this.password == password && this.http == http
      ensures auth == None && device == None && activePropId == 0
    {
      this.email := email;
      this.password := password;
      this.http := http;
      activePropId := 0;
      auth := None;
      device := None;
    }

    /** The outcome the next request with these arguments would have. */
    ghost function Pending<T>(verb: string, subdomain: string, endpoint: string, body: Body,
                              initial: T, decode: string -> Decoded<T>): Decoded<T>
      reads this, http
      requires auth.Some?
    {
      RequestOutcome(http.answer(|http.sent|, NewRequestWithAuthorization(auth, verb, subdomain, endpoint, body)),
                     initial, decode)
    }

    /** MakeRequest: one authorised request, one transport attempt, no retry. */
    method MakeRequest<T>(verb: string, subdomain: string, endpoint: string, body: Body,
                          initial: T, decode: string -> Decoded<T>) returns (v: T, err: Option<Error>)
      requires auth.Some?
      modifies http
      ensures http.sent == old(http.sent) + [NewRequestWithAuthorization(auth, verb, subdomain, endpoint, body)]
      ensures Decoded(v, err) == old(Pending(verb, subdomain, endpoint, body, initial, decode))
    {
      var req := NewRequestWithAuthorization(auth, verb, subdomain, endpoint, body);
      var reply := http.Do(req);
      if reply.Failed? {
        return initial, Some(reply.err);
      }
      var d := decode(reply.body);
      v, err := d.value, d.err;
    }

    /** login: always posts the credentials, and replaces `Auth` whenever a body arrived. */
    method Login(decodeAuth: string -> Decoded<Authentication>) returns (err: Option<Error>)
      modifies this, http
      ensures http.sent == old(http.sent) + [SignInRequest(email, password)]
      ensures (auth, err) == LoginOutcome(http.answer(|old(http.sent)|, SignInRequest(email, password)),
                                          old(auth), decodeAuth)
      ensures device == old(device) && activePropId == old(activePropId)
    {
      var reply := http.Do(SignInRequest(email, password));
      if reply.Failed? {
        return Some(reply.err);
      }
      if reply.readErr.Some? {
        return reply.readErr;
      }
      var decoded := decodeAuth(reply.body);
      auth := Some(decoded.value);
      err := None;
    }

    /** authenticate: logs in only when there is no session yet. */
    method Authenticate(decodeAuth: string -> Decoded<Authentication>) returns (err: Option<Error>)
      modifies this, http
      ensures old(auth).Some? ==> err == None && auth == old(auth) && http.sent == old(http.sent)
      ensures old(auth).None? ==>
        http.sent == old(http.sent) + [SignInRequest(email, password)] &&
        (auth, err) == LoginOutcome(http.answer(|old(http.sent)|, SignInRequest(email, password)), None, decodeAuth)
      ensures device == old(device) && activePropId == old(activePropId)
    {
      if auth.None? {
        err := Login(decodeAuth);
        return;
      }
      err := None;
    }

    /** GetDevices: the devices in the order of their envelopes, or no devices and the error. */
    method GetDevices(decode: string -> Decoded<seq<DeviceRoot>>) returns (devices: seq<Device>, err: Option<Error>)
      requires auth.Some?
      modifies http
      ensures http.sent == old(http.sent) + [NewRequestWithAuthorization(auth, "GET", DataSubdomain, DevicesEndpoint, NoBody)]
      ensures var d := old(Pending("GET", DataSubdomain, DevicesEndpoint, NoBody, [], decode));
        err == d.err &&
        (err.Some? ==> devices == []) &&
        (err.None? ==> |devices| == |d.value| && forall i :: 0 <= i < |devices| ==> devices[i] == d.value[i].device)
    {
      var roots;
      roots, err := MakeRequest("GET", DataSubdomain, DevicesEndpoint, NoBody, [], decode);
      if err.Some? {
        return [], err;
      }
      devices := UnwrapDevices(roots);
    }

    /** SetFirstDevice: selects the first device listed. Go indexes the list unchecked,
        so a successful listing must not be empty. */
    method SetFirstDevice(decode: string -> Decoded<seq<DeviceRoot>>) returns (err: Option<Error>)
      requires auth.Some?
      requires var d := Pending("GET", DataSubdomain, DevicesEndpoint, NoBody, [], decode);
        d.err.None? ==> |d.value| > 0
      modifies this, http
      ensures auth == old(auth) && activePropId == old(activePropId)
      ensures http.sent == old(http.sent) + [NewRequestWithAuthorization(auth, "GET", DataSubdomain, DevicesEndpoint, NoBody)]
      ensures var d := old(Pending("GET", DataSubdomain, DevicesEndpoint, NoBody, [], decode));
        err == d.err &&
        device == (if err.None? then Some(d.value[0].device) else old(device))
    {
      var devices;
      devices, err := GetDevices(decode);
      if err.Some? {
        return;
      }
      device := Some(devices[0]);
    }

    /** GetPropertyByName: the envelope's property (possibly absent) and the error, as the
        decoder left them; nothing is checked. */
    method GetPropertyByName(deviceId: string, name: string, decode: string -> Decoded<PropertyRoot>)
      returns (property: Option<Property>, err: Option<Error>)
      requires auth.Some?
      modifies http
      ensures http.sent == old(http.sent) +
        [NewRequestWithAuthorization(auth, "GET", DataSubdomain, PropertyEndpoint(deviceId, name), NoBody)]
      ensures var d := old(Pending("GET", DataSubdomain, PropertyEndpoint(deviceId, name), NoBody, PropertyRoot(None), decode));
        property == d.value.property && err == d.err
    {
      var root;
      root, err := MakeRequest("GET", DataSubdomain, PropertyEndpoint(deviceId, name), NoBody, PropertyRoot(None), decode);
      property := root.property;
    }

    /** GetProperties: the properties keyed by name, the last envelope with a name winning,
        or an empty map and the error. Go dereferences every envelope's property. */
    method GetProperties(deviceId: string, decode: string -> Decoded<seq<PropertyRoot>>)
      returns (props: map<string, Property>, err: Option<Error>)
      requires auth.Some?
      requires var d := Pending("GET", DataSubdomain, PropertiesEndpoint(deviceId), NoBody, [], decode);
        d.err.None? ==> AllPresent(d.value)
      modifies http
      ensures http.sent == old(http.sent) +
        [NewRequestWithAuthorization(auth, "GET", DataSubdomain, PropertiesEndpoint(deviceId), NoBody)]
      ensures var d := old(Pending("GET", DataSubdomain, PropertiesEndpoint(deviceId), NoBody, [], decode));
        err == d.err &&
        (err.Some? ==> props == map[]) &&
        (err.None? ==> props == PropertiesByName(d.value))
    {
      var roots;
      roots, err := MakeRequest("GET", DataSubdomain, PropertiesEndpoint(deviceId), NoBody, [], decode);
      if err.Some? {
        return map[], err;
      }
      props := UnwrapProperties(roots);
    }

    /** SetAppActiveStatus: posts the fixed datapoint; true exactly when the call succeeded. */
    method SetAppActiveStatus(deviceId: string, decode: string -> Decoded<DatapointRequest>)
      returns (ok: bool, err: Option<Error>)
      requires auth.Some?
      modifies http
      ensures http.sent == old(http.sent) +
        [NewRequestWithAuthorization(auth, "POST", DataSubdomain, AppActiveEndpoint(deviceId), Datapoint(ActiveDatapoint()))]
      ensures var d := old(Pending("POST", DataSubdomain, AppActiveEndpoint(deviceId), Datapoint(ActiveDatapoint()),
                                   DatapointRequest(IntDatapoint(0, map[], ZeroTime)), decode));
        err == d.err && ok == d.err.None?
    {
      var response;
      response, err := MakeRequest("POST", DataSubdomain, AppActiveEndpoint(deviceId), Datapoint(ActiveDatapoint()),
                                   DatapointRequest(IntDatapoint(0, map[], ZeroTime)), decode);
      if err.Some? {
        return false, err;
      }
      ok := true;
    }
  }

  /** New: a client for the credentials, which always logs in since it starts without a
      session. */
  method New(email: string, password: string, http: Transport, decodeAuth: string -> Decoded<Authentication>)
    returns (c: Client, err: Option<Error>)
    modifies http
    ensures fresh(c) && c.http == http && c.email == email && c.password == password && c.device == None
    ensures http.sent == old(http.sent) + [SignInRequest(email, password)]
    ensures (c.auth, err) == LoginOutcome(http.answer(|old(http.sent)|, SignInRequest(email, password)), None, decodeAuth)
  {
    c := new Client(email, password, http);
    err := c.Authenticate(decodeAuth);
  }

  /** The keys of the map are exactly the names the envelopes carry. */
  lemma {:induction false} PropertiesByNameKeys(roots: seq<PropertyRoot>)
    requires AllPresent(roots)
    ensures forall k :: k in PropertiesByName(roots) <==> exists i :: 0 <= i < |roots| && NameAt(roots, i) == k
  {
    if roots != [] {
      var n := |roots| - 1;
      var init := roots[..n];
      PropertiesByNameKeys(init);
      forall k ensures k in PropertiesByName(roots) <==> exists i :: 0 <= i < |roots| && NameAt(roots, i) == k {
        if k in PropertiesByName(roots) && k != NameAt(roots, n) {
          assert k in PropertiesByName(init);
          var i :| 0 <= i < |init| && NameAt(init, i) == k;
          assert NameAt(roots, i) == k;
        }
        if exists i :: 0 <= i < |roots| && NameAt(roots, i) == k {
          var i :| 0 <= i < |roots| && NameAt(roots, i) == k;
          if i < n {
            assert NameAt(init, i) == k;
          }
        }
      }
    }
  }

  /** Each name maps to the property of the last envelope carrying it. */
  lemma {:induction false} PropertiesByNameLastWins(roots: seq<PropertyRoot>, i: nat)
    requires AllPresent(roots) && i < |roots| && IsLastOfName(roots, i)
    ensures NameAt(roots, i) in PropertiesByName(roots)
    ensures PropertiesByName(roots)[NameAt(roots, i)] == roots[i].property.value
  {
    if i < |roots| - 1 {
      var init := roots[..|roots| - 1];
      assert NameAt(roots, |roots| - 1) != NameAt(roots, i);
      assert NameAt(init, i) == NameAt(roots, i);
      forall j | i < j < |init| ensures NameAt(init, j) != NameAt(init, i) {
        assert NameAt(init, j) == NameAt(roots, j);
      }
      PropertiesByNameLastWins(init, i);
    }
  }

  /** Two envelopes with one name collapse to a one-entry map holding the later property. */
  lemma LaterDuplicateWins(p: Property, q: Property)
    requires p.name == q.name
    ensures PropertiesByName([PropertyRoot(Some(p)), PropertyRoot(Some(q))]) == map[q.name := q]
  {
    var roots := [PropertyRoot(Some(p)), PropertyRoot(Some(q))];
    assert roots[..1] == [PropertyRoot(Some(p))];
    assert roots[..1][..0] == [];
    assert PropertiesByName(roots[..1]) == map[p.name := p];
  }
}
