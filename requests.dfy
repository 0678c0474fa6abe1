/** Request construction of package client (client/client.go): the URL template, the
    three headers, and the endpoints the gateway operations address. */
module Requests {
  import opened Values

  datatype Application = Application(id: string, secret: string)
  datatype User = User(email: string, password: string, application: Application)
  /** The sign-in payload `{"user": {...}}`. */
  datatype Payload = Payload(user: User)

  datatype IntDatapoint = IntDatapoint(value: int, metadata: map<string, string>, updatedAt: Time)
  /** The `{"datapoint": {...}}` envelope, sent and received by SetAppActiveStatus. */
  datatype DatapointRequest = DatapointRequest(datapoint: IntDatapoint)

  /** A request body, kept as the record it serialises; marshalling is not modelled. */
  datatype Body = NoBody | SignIn(payload: Payload) | Datapoint(request: DatapointRequest)

  datatype Request = Request(verb: string, url: string, header: map<string, string>, body: Body)

  const Scheme: string := "https://"
  const HostSuffix: string := ".aylanetworks.com"
  const JsonMedia: string := "application/json"
  const AuthScheme: string := "auth_token "

  const UserSubdomain: string := "user-field"
  const DataSubdomain: string := "ads-field"

  const SignInEndpoint: string := "users/sign_in"
  const DevicesEndpoint: string := "apiv1/devices.json"

  /** The path prefix of every per-device endpoint. */
  const DsnsPrefix: string := "apiv1/dsns/"

  /** The property list of device `dsn`: the serial sits right after the prefix and the
      path ends in the JSON collection name. */
  function PropertiesEndpoint(dsn: string): (e: string)
    ensures |e| == |DsnsPrefix| + |dsn| + |"/properties.json"|
    ensures e[..|DsnsPrefix|] == DsnsPrefix && e[|DsnsPrefix|..|DsnsPrefix| + |dsn|] == dsn
    ensures e[|DsnsPrefix| + |dsn|..] == "/properties.json"
  {
    DsnsPrefix + dsn + "/properties.json"
  }

  /** One named property of device `dsn`: the serial after the prefix, the name at the end. */
  function PropertyEndpoint(dsn: string, name: string): (e: string)
    ensures |e| == |DsnsPrefix| + |dsn| + |"/properties/"| + |name|
    ensures e[..|DsnsPrefix|] == DsnsPrefix && e[|DsnsPrefix|..|DsnsPrefix| + |dsn|] == dsn
    ensures e[|e| - |name|..] == name
  {
    DsnsPrefix + dsn + "/properties/" + name
  }

  /** The datapoint collection of the device's APP_ACTIVE property: the single-property
      endpoint for the name `APP_ACTIVE/datapoints.json`. */
  function AppActiveEndpoint(dsn: string): (e: string)
    ensures e == PropertyEndpoint(dsn, "APP_ACTIVE/datapoints.json")
  {
    DsnsPrefix + dsn + "/properties/APP_ACTIVE/datapoints.json"
  }

  /** The https URL of `endpoint` on host `<subdomain>.aylanetworks.com`: it starts with the
      scheme and the subdomain, and ends with the endpoint unchanged. */
  function Url(subdomain: string, endpoint: string): (u: string)
    ensures |u| == |Scheme| + |subdomain| + |HostSuffix| + 1 + |endpoint|
    ensures u[..|Scheme|] == Scheme && u[|Scheme|..|Scheme| + |subdomain|] == subdomain
    ensures u[|u| - |endpoint|..] == endpoint
  {
    Scheme + subdomain + HostSuffix + "/" + endpoint
  }

  /** NewRequest: the templated URL, the body as given, and both Accept and Content-Type
      set to JSON and nothing else. */
  function NewRequest(verb: string, subdomain: string, endpoint: string, body: Body): (r: Request)
    ensures r.verb == verb && r.body == body && r.url == Url(subdomain, endpoint)
    ensures r.header.Keys == {"Accept", "Content-Type"}
    ensures forall k :: k in r.header ==> r.header[k] == JsonMedia
  {
    Request(verb, Url(subdomain, endpoint), map["Accept" := JsonMedia, "Content-Type" := JsonMedia], body)
  }

  /** NewRequestWithAuthoriztion: the same request with an Authorization header added.
      Go dereferences `auth` unconditionally, so it must be present. */
  function NewRequestWithAuthorization(auth: Option<Authentication>, verb: string, subdomain: string,
                                       endpoint: string, body: Body): (r: Request)
    requires auth.Some?
    ensures r.verb == verb && r.body == body && r.url == Url(subdomain, endpoint)
    ensures r.header.Keys == {"Accept", "Content-Type", "Authorization"}
    ensures r.header["Accept"] == JsonMedia && r.header["Content-Type"] == JsonMedia
    ensures BearerToken(r.header["Authorization"]) == Some(auth.value.accessToken)
  {
    var req := NewRequest(verb, subdomain, endpoint, body);
    var h := AuthScheme + auth.value.accessToken;
    BearerTokenOfHeader(auth.value.accessToken);
    req.(header := req.header["Authorization" := h])
  }

  /** The token an Authorization header carries, if it uses the `auth_token` scheme. */
  function BearerToken(h: string): Option<string>
  {
    if |AuthScheme| <= |h| && h[..|AuthScheme|] == AuthScheme then Some(h[|AuthScheme|..]) else None
  }

  lemma BearerTokenOfHeader(token: string)
    ensures BearerToken(AuthScheme + token) == Some(token)
  {
  }

  /** The position of the first `c` in `s`, or |s| when there is none. */
  function IndexOf(s: string, c: char): (i: nat)
    ensures i <= |s|
    ensures i < |s| ==> s[i] == c
    ensures forall j :: 0 <= j < i ==> s[j] != c
  {
    if |s| == 0 then 0
    else if s[0] == c then 0
    else 1 + IndexOf(s[1..], c)
  }

  /** Splits an https URL into its host and the path after the host's slash. */
  function SplitUrl(url: string): Option<(string, string)>
  {
    if |Scheme| <= |url| && url[..|Scheme|] == Scheme then
      var rest := url[|Scheme|..];
      var i := IndexOf(rest, '/');
      if i < |rest| then Some((rest[..i], rest[i + 1..])) else None
    else
      None
  }

  /** The URL NewRequest builds, whatever the verb and body, addresses the host `<subdomain>.aylanetworks.com` and
      carries the endpoint unchanged as its path, for any subdomain without a slash. */
  lemma {:induction false} UrlRoundTrip(subdomain: string, endpoint: string)
    requires forall i :: 0 <= i < |subdomain| ==> subdomain[i] != '/'
    ensures SplitUrl(Url(subdomain, endpoint)) == Some((subdomain + HostSuffix, endpoint))
  {
    var host := subdomain + HostSuffix;
    var rest := host + "/" + endpoint;
    var url := Url(subdomain, endpoint);
    assert url == Scheme + rest;
    assert url[|Scheme|..] == rest;
    var i := IndexOf(rest, '/');
    forall j | 0 <= j < |host|
      ensures rest[j] != '/'
    {
      assert rest[j] == host[j];
    }
    assert rest[|host|] == '/';
    assert i == |host|;
    assert rest[..i] == host;
    assert rest[i + 1..] == endpoint;
  }

  /** Distinct devices are addressed at distinct property-list and APP_ACTIVE endpoints. */
  lemma EndpointsIdentifyDevice(a: string, b: string)
    ensures PropertiesEndpoint(a) == PropertiesEndpoint(b) ==> a == b
    ensures AppActiveEndpoint(a) == AppActiveEndpoint(b) ==> a == b
  {
    if AppActiveEndpoint(a) == AppActiveEndpoint(b) {
      assert |a| == |b|;
    }
  }
}
