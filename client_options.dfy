/** How the input builds its Pub/Sub client: the client options chosen from
    the configuration, and the transport decorator that adds the user agent
    to outgoing requests (newPubsubClient and userAgentDecorator in
    x-pack/filebeat/input/gcppubsub/input.go). */
module ClientOptions {

  import opened Wrappers
  import opened Errors

  /** The configuration newPubsubClient reads. An empty alternative host or
      credentials file means "not set"; the proxy URL is optional. */
  datatype Settings = Settings(
    project: string,
    alternativeHost: string,
    credentialsFile: string,
    credentialsJSON: string,
    proxyDisabled: bool,
    proxyURL: Option<string>)

  /** option.ClientOption values. HTTPClient is an HTTP client whose
      transport goes through the proxy and is wrapped in the user agent
      decorator. */
  datatype ClientOption =
    | GRPCConn(host: string)
    | TelemetryDisabled
    | CredentialsFile(path: string)
    | CredentialsJSON(json: string)
    | HTTPClient(proxyURL: string, userAgent: string)
    | UserAgent(userAgent: string)

  /** The proxy is used when it is not disabled and a URL is set. */
  predicate UsesProxy(st: Settings) {
    !st.proxyDisabled && st.proxyURL.Some?
  }

  /** The emulator connection: none, or the gRPC connection and telemetry
      switched off, in that order. */
  function HostOptions(st: Settings): (opts: seq<ClientOption>)
    ensures st.alternativeHost == "" ==> opts == []
    ensures st.alternativeHost != "" ==> opts == [GRPCConn(st.alternativeHost), TelemetryDisabled]
  {
    if st.alternativeHost == "" then [] else [GRPCConn(st.alternativeHost), TelemetryDisabled]
  }

  /** The credentials: the file when one is named, else the JSON when it is
      not empty, else none. */
  function CredentialOptions(st: Settings): (opts: seq<ClientOption>)
    ensures |opts| <= 1
    ensures st.credentialsFile != "" ==> opts == [CredentialsFile(st.credentialsFile)]
    ensures st.credentialsFile == "" && |st.credentialsJSON| > 0 ==> opts == [CredentialsJSON(st.credentialsJSON)]
    ensures st.credentialsFile == "" && |st.credentialsJSON| == 0 ==> opts == []
  {
    if st.credentialsFile != "" then [CredentialsFile(st.credentialsFile)]
    else if |st.credentialsJSON| > 0 then [CredentialsJSON(st.credentialsJSON)]
    else []
  }

  /** The options newPubsubClient passes to pubsub.NewClient. The dial of
      the alternative host and the building of the proxy client are outside
      this model: their errors are parameters. A failed dial is wrapped with
      the host; a failed proxy client is returned as it is. */
  function Options(st: Settings, userAgent: string, dialError: Option<Error>, proxyError: Option<Error>)
    : (r: Result<seq<ClientOption>>)
    ensures r.Err? <==>
      (st.alternativeHost != "" && dialError.Some?) || (UsesProxy(st) && proxyError.Some?)
    ensures st.alternativeHost != "" && dialError.Some? ==>
      r == Err(AlternativeHostFailed(st.alternativeHost, dialError.value))
    ensures r.Ok? ==> 1 <= |r.value| <= 4
    ensures r.Ok? ==> (GRPCConn(st.alternativeHost) in r.value <==> st.alternativeHost != "")
    ensures r.Ok? && st.alternativeHost != "" ==> |r.value| >= 3 && r.value[..2] == [GRPCConn(st.alternativeHost), TelemetryDisabled]
    ensures r.Ok? ==>
      (r.value[|r.value| - 1] == if UsesProxy(st) then HTTPClient(st.proxyURL.value, userAgent) else UserAgent(userAgent))
  {
    if st.alternativeHost != "" && dialError.Some? then
      Err(AlternativeHostFailed(st.alternativeHost, dialError.value))
    else if UsesProxy(st) && proxyError.Some? then
      Err(proxyError.value)
    else
      var transport := if UsesProxy(st) then HTTPClient(st.proxyURL.value, userAgent) else UserAgent(userAgent);
      Ok(HostOptions(st) + CredentialOptions(st) + [transport])
  }

  /** Whether an option carries credentials. */
  predicate IsCredential(o: ClientOption) {
    o.CredentialsFile? || o.CredentialsJSON?
  }

  /** Whether an option carries the user agent. */
  predicate CarriesUserAgent(o: ClientOption) {
    o.HTTPClient? || o.UserAgent?
  }

  /** At most one credential option, and the credentials file wins over the
      JSON: the JSON is passed only when no file is named. */
  lemma CredentialPrecedence(st: Settings, userAgent: string, dialError: Option<Error>, proxyError: Option<Error>)
    requires Options(st, userAgent, dialError, proxyError).Ok?
    ensures var opts := Options(st, userAgent, dialError, proxyError).value;
      && (forall i, j | 0 <= i < j < |opts| :: !(IsCredential(opts[i]) && IsCredential(opts[j])))
      && (CredentialsFile(st.credentialsFile) in opts <==> st.credentialsFile != "")
      && (forall o | o in opts && o.CredentialsJSON? :: st.credentialsFile == "" && o.json == st.credentialsJSON)
      && (CredentialsJSON(st.credentialsJSON) in opts <==> st.credentialsFile == "" && |st.credentialsJSON| > 0)
  {
    var opts := Options(st, userAgent, dialError, proxyError).value;
    var host := HostOptions(st);
    var creds := CredentialOptions(st);
    var last := opts[|opts| - 1];
    assert opts == host + creds + [last];
    assert forall i | 0 <= i < |opts| && IsCredential(opts[i]) :: i == |host|;
  }

  /** The user agent reaches the client exactly once: through the proxy
      client's decorator when the proxy is used, as a plain option
      otherwise. */
  lemma UserAgentOnce(st: Settings, userAgent: string, dialError: Option<Error>, proxyError: Option<Error>)
    requires Options(st, userAgent, dialError, proxyError).Ok?
    ensures var opts := Options(st, userAgent, dialError, proxyError).value;
      && (forall i | 0 <= i < |opts| - 1 :: !CarriesUserAgent(opts[i]))
      && opts[|opts| - 1].userAgent == userAgent
      && (UserAgent(userAgent) in opts <==> !UsesProxy(st))
  {
    var opts := Options(st, userAgent, dialError, proxyError).value;
    var prefix := HostOptions(st) + CredentialOptions(st);
    assert opts == prefix + [opts[|opts| - 1]];
    forall i | 0 <= i < |opts| - 1
      ensures !CarriesUserAgent(opts[i])
    {
      assert opts[i] == prefix[i];
    }
    if UserAgent(userAgent) in opts {
      var i :| 0 <= i < |opts| && opts[i] == UserAgent(userAgent);
      assert i == |opts| - 1;
    }
  }

  /** newPubsubClient: the options, then pubsub.NewClient for the project,
      whose own failure is a parameter. */
  function NewPubsubClient(st: Settings, userAgent: string, dialError: Option<Error>, proxyError: Option<Error>,
                           clientError: Option<Error>): (r: Result<seq<ClientOption>>)
    ensures r.Ok? <==> Options(st, userAgent, dialError, proxyError).Ok? && clientError.None?
    ensures r.Ok? ==> r == Options(st, userAgent, dialError, proxyError)
    ensures Options(st, userAgent, dialError, proxyError).Err? ==> r == Options(st, userAgent, dialError, proxyError)
    ensures Options(st, userAgent, dialError, proxyError).Ok? && clientError.Some? ==> r == Err(clientError.value)
  {
    match Options(st, userAgent, dialError, proxyError)
    case Err(e) => Err(e)
    case Ok(opts) => if clientError.Some? then Err(clientError.value) else Ok(opts)
  }

  /** The error newPubsubClient returns is what a run attempt sees as its
      client error. It is a cancellation exactly when the step that failed
      was cancelled: the wrapper around a failed dial keeps its cause. */
  lemma NewPubsubClientCanceled(st: Settings, userAgent: string, dialError: Option<Error>, proxyError: Option<Error>,
                                clientError: Option<Error>)
    requires NewPubsubClient(st, userAgent, dialError, proxyError, clientError).Err?
    ensures IsCanceled(NewPubsubClient(st, userAgent, dialError, proxyError, clientError).error) <==>
      if st.alternativeHost != "" && dialError.Some? then IsCanceled(dialError.value)
      else if UsesProxy(st) && proxyError.Some? then IsCanceled(proxyError.value)
      else clientError.Some? && IsCanceled(clientError.value)
  {
  }

  // ---------------------------------------------------------------------
  // The user agent decorator
  // ---------------------------------------------------------------------

  /** HTTP header fields: each name maps to its values. */
  type Header = map<string, seq<string>>

  const UserAgentKey: string := "User-Agent"

  /** The header the decorator forwards: a User-Agent the request already
      has is kept; otherwise it is set to the decorator's user agent. */
  function WithUserAgent(h: Header, userAgent: string): (r: Header)
    ensures UserAgentKey in r
    ensures r.Keys == h.Keys + {UserAgentKey}
    ensures forall k | k in h :: r[k] == h[k]
    ensures UserAgentKey !in h ==> r[UserAgentKey] == [userAgent]
  {
    if UserAgentKey in h then h else h[UserAgentKey := [userAgent]]
  }

  /** Decorating twice is decorating once, whatever the second user agent. */
  lemma WithUserAgentIdempotent(h: Header, ua1: string, ua2: string)
    ensures WithUserAgent(WithUserAgent(h, ua1), ua2) == WithUserAgent(h, ua1)
  {
    var once := WithUserAgent(h, ua1);
    assert WithUserAgent(once, ua2) == once by {
      assert UserAgentKey in once;
    }
  }

  /** An outgoing HTTP request, whose header the decorator changes in place. */
  class Request {
    var header: Header

    constructor (header: Header)
      ensures this.header == header
    {
      this.header := header;
    }
  }

  /** userAgentDecorator: the user agent it adds. The wrapped transport is
      outside this model. */
  datatype UserAgentDecorator = UserAgentDecorator(userAgent: string) {

    /** RoundTrip: set User-Agent on the request when it is missing, then
        hand the request to the wrapped transport; the header handed on is
        returned. */
    method RoundTrip(r: Request) returns (forwarded: Header)
      modifies r
      ensures r.header == WithUserAgent(old(r.header), userAgent)
      ensures forwarded == r.header
    {
      if UserAgentKey !in r.header {
        r.header := r.header[UserAgentKey := [userAgent]];
      }
      forwarded := r.header;
    }
  }
}
