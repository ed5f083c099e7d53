/**
 * The classification rules of the `ErrorHandler` class in
 * src/assets/js/main.js: which hosts count as production, local development
 * or debug mode, when a failed request is taken for a CORS problem, which
 * label and user message a network error gets, and which text an HTTP status
 * is shown with.
 */
module ErrorHandler {
  import opened Strings
  import opened Browser

  /** The production domains: the apex domain and its `www` host. */
  const ProductionDomains: seq<string> := ["zkynet.org", "www.zkynet.org"]

  /** The API host whose CORS configuration is known to be broken. */
  const KnownCorsApiHost: string := "france-lauterbourg.vpn.zkynet.org"

  /** `hostname` is `domain` itself or one of its subdomains. */
  function MatchesDomain(hostname: string, domain: string): (r: bool)
    ensures r ==> EndsWith(hostname, domain)
    ensures r && hostname != domain ==> |hostname| > |domain| && hostname[|hostname| - |domain| - 1] == '.'
  {
    hostname == domain || EndsWith(hostname, "." + domain)
  }

  /** `domains.some(domain => hostname === domain || hostname.endsWith('.' + domain))`. */
  function SomeDomainMatches(hostname: string, domains: seq<string>): (r: bool)
    ensures r <==> exists k :: 0 <= k < |domains| && MatchesDomain(hostname, domains[k])
  {
    if domains == [] then false
    else MatchesDomain(hostname, domains[0]) || SomeDomainMatches(hostname, domains[1..])
  }

  /** A subdomain of `www.zkynet.org` is a subdomain of `zkynet.org`. */
  lemma WwwSubdomainIsSubdomain(hostname: string)
    requires EndsWith(hostname, ".www.zkynet.org")
    ensures EndsWith(hostname, ".zkynet.org")
  {
    var n := |hostname|;
    assert hostname[n - 11..] == hostname[n - 15..][4..];
    assert ".www.zkynet.org"[4..] == ".zkynet.org";
  }

  /** The `some` over the two production domains, unrolled. */
  lemma ProductionDomainsMatch(hostname: string)
    ensures SomeDomainMatches(hostname, ProductionDomains) <==>
      hostname == "zkynet.org" || EndsWith(hostname, ".zkynet.org")
      || hostname == "www.zkynet.org" || EndsWith(hostname, ".www.zkynet.org")
  {
    var ds := ProductionDomains;
    assert ds[1..][1..] == [];
    assert SomeDomainMatches(hostname, ds[1..][1..]) == false;
    assert "." + ds[0] == ".zkynet.org";
    assert "." + ds[1..][0] == ".www.zkynet.org";
  }

  /**
   * `isProductionDomain`: the host is `zkynet.org`, `www.zkynet.org`, or any
   * subdomain of `zkynet.org` (which covers every subdomain of `www.zkynet.org`).
   */
  function IsProductionDomain(hostname: string): (r: bool)
    ensures r <==> hostname == "zkynet.org" || hostname == "www.zkynet.org"
                   || EndsWith(hostname, ".zkynet.org")
  {
    ProductionDomainsMatch(hostname);
    assert EndsWith(hostname, ".www.zkynet.org") ==> EndsWith(hostname, ".zkynet.org") by {
      if EndsWith(hostname, ".www.zkynet.org") {
        WwwSubdomainIsSubdomain(hostname);
      }
    }
    SomeDomainMatches(hostname, ProductionDomains)
  }

  /** Because `www.zkynet.org` is itself a subdomain, production is "the apex or a subdomain". */
  lemma ProductionIsApexOrSubdomain(hostname: string)
    ensures IsProductionDomain(hostname) <==> hostname == "zkynet.org" || EndsWith(hostname, ".zkynet.org")
  {
    if hostname == "www.zkynet.org" {
      assert hostname[|hostname| - 11..] == ".zkynet.org";
    }
  }

  /**
   * `detectDebugMode`: never on a production domain; elsewhere on localhost,
   * 127.0.0.1, with `debug=true` in the query string, or when local storage
   * holds `zkynet-debug` = 'true' (`debugItem` is what `getItem` returned).
   */
  function DetectDebugMode(loc: Location, debugItem: Option<string>): (r: bool)
    ensures IsProductionDomain(loc.hostname) ==> !r
    ensures !IsProductionDomain(loc.hostname) ==>
      (r <==> loc.hostname == "localhost" || loc.hostname == "127.0.0.1"
              || Contains(loc.search, "debug=true") || debugItem == Some("true"))
  {
    if IsProductionDomain(loc.hostname) then false
    else
      loc.hostname == "localhost" || loc.hostname == "127.0.0.1"
      || Contains(loc.search, "debug=true") || debugItem == Some("true")
  }

  /** No request flag switches debug mode on for the production site. */
  lemma ProductionNeverDebugs(loc: Location, debugItem: Option<string>)
    requires loc.hostname == "zkynet.org" || loc.hostname == "www.zkynet.org"
             || EndsWith(loc.hostname, ".zkynet.org")
    ensures !DetectDebugMode(loc, debugItem)
  {
  }

  /**
   * `isLocalDevelopment`: localhost, 127.0.0.1, a host containing `192.168`,
   * or any explicit port. It is identical in both copies of main.js.
   */
  function IsLocalDevelopment(loc: Location): (r: bool)
    ensures loc.port != "" ==> r
    ensures loc.port == "" ==>
      (r <==> loc.hostname == "localhost" || loc.hostname == "127.0.0.1" || Contains(loc.hostname, "192.168"))
  {
    loc.hostname == "localhost" || loc.hostname == "127.0.0.1"
    || Contains(loc.hostname, "192.168") || loc.port != ""
  }

  /**
   * `isLikelyCorsError(details)`, with `url` standing for `details.url`:
   * only a truthy url can be a CORS suspect; the known API host always is;
   * otherwise only during local development and only when the url does not
   * mention the page's own host.
   */
  function IsLikelyCorsError(loc: Location, url: Option<string>): (r: bool)
    ensures !Truthy(url) ==> !r
    ensures Truthy(url) && Contains(url.value, KnownCorsApiHost) ==> r
    ensures Truthy(url) && !Contains(url.value, KnownCorsApiHost) ==>
      (r <==> IsLocalDevelopment(loc) && !Contains(url.value, loc.hostname))
  {
    if Truthy(url) then
      if Contains(url.value, KnownCorsApiHost) then true
      else IsLocalDevelopment(loc) && !Contains(url.value, loc.hostname)
    else false
  }

  /** The known API host is a CORS suspect from any page, local or not. */
  lemma KnownApiAlwaysCors(loc: Location, loc': Location, url: string)
    requires Contains(url, KnownCorsApiHost)
    ensures IsLikelyCorsError(loc, Some(url)) && IsLikelyCorsError(loc', Some(url))
  {
    assert OccursAt(url, KnownCorsApiHost, IndexOf(url, KnownCorsApiHost));
    assert |KnownCorsApiHost| > 0;
  }

  // ---- messages -----------------------------------------------------------

  const DefaultNetworkMessage := "Network error. Please check your connection and try again."
  const ServerConfigMessage := "Server Configuration Error: The API server has a CORS configuration issue. Please contact the development team to fix the Access-Control-Allow-Origin header format."
  const KnownIssueMessage := "Known Server Issue: The API server has a CORS configuration problem (multiple origins in header). This affects all domains until the server is fixed."
  const DevCorsMessage := "Development Mode: CORS policy blocks localhost requests to the API. This form works on the live site (zkynet.org). Enable debug mode with ?debug=true to see technical details."
  const BlockedMessage := "Connection blocked by security policy. Please contact support."
  const UnableToConnectMessage := "Unable to connect to server. Please check your internet connection or try again later."
  const NetworkOccurredMessage := "Network error occurred. Please check your connection and try again."
  const TimedOutMessage := "Request timed out. Please try again."

  /** The four messages of the CORS family, and all eight messages `handleNetworkError` can return. */
  const CorsMessages: set<string> := {ServerConfigMessage, KnownIssueMessage, DevCorsMessage, BlockedMessage}
  const NetworkMessages: set<string> :=
    CorsMessages + {UnableToConnectMessage, NetworkOccurredMessage, TimedOutMessage, DefaultNetworkMessage}

  /** The `type` labels `handleNetworkError` returns. */
  datatype NetworkErrorType = Cors | CorsServerConfig | Fetch | Network | Timeout

  /** What `handleNetworkError` returns, without the original error. */
  datatype NetworkErrorInfo = NetworkErrorInfo(errorType: NetworkErrorType, message: string)

  /** `error?.message?.includes(p)` is truthy. */
  predicate MessageIncludes(error: Option<JsError>, p: string) {
    error.Some? && error.value.message.Some? && Contains(error.value.message.value, p)
  }

  /** The `isCorsError` test of `handleNetworkError`. */
  function IsCorsError(loc: Location, error: Option<JsError>, url: Option<string>): (r: bool)
    ensures error.None? ==> !r
    ensures r ==> MessageIncludes(error, "CORS") || MessageIncludes(error, "Cross-Origin")
                  || MessageIncludes(error, "Failed to fetch")
    ensures !Truthy(url) ==> (r <==> MessageIncludes(error, "CORS") || MessageIncludes(error, "Cross-Origin"))
  {
    || MessageIncludes(error, "CORS")
    || MessageIncludes(error, "Cross-Origin")
    || (MessageIncludes(error, "Failed to fetch") && IsLikelyCorsError(loc, url))
  }

  /** The `isServerCorsConfig` test: a malformed Access-Control-Allow-Origin header. */
  function IsServerCorsConfig(error: Option<JsError>): (r: bool)
    ensures r ==> error.Some? && error.value.message.Some?
  {
    MessageIncludes(error, "multiple values") && MessageIncludes(error, "Access-Control-Allow-Origin")
  }

  /**
   * The label of a network error, decided in priority order: CORS, then a
   * server CORS misconfiguration, then "Failed to fetch", then "timeout"
   * (unless the message also mentions "NetworkError"), else "network".
   */
  function NetworkErrorTypeOf(loc: Location, error: Option<JsError>, url: Option<string>): (r: NetworkErrorType)
    ensures error.None? ==> r == Network
    ensures r == Cors <==> IsCorsError(loc, error, url)
    ensures r == Fetch ==> MessageIncludes(error, "Failed to fetch") && !IsCorsError(loc, error, url)
    ensures r == Timeout ==> MessageIncludes(error, "timeout") && !MessageIncludes(error, "NetworkError")
  {
    if IsCorsError(loc, error, url) then Cors
    else if IsServerCorsConfig(error) then CorsServerConfig
    else if MessageIncludes(error, "Failed to fetch") then Fetch
    else if MessageIncludes(error, "timeout") && !MessageIncludes(error, "NetworkError") then Timeout
    else Network
  }

  /**
   * The user message for each label. Both CORS labels share one message
   * family, in which a server misconfiguration takes precedence.
   */
  function NetworkMessageFor(t: NetworkErrorType, loc: Location, error: Option<JsError>, url: Option<string>): (r: string)
    ensures r in NetworkMessages
    ensures (t == Cors || t == CorsServerConfig) ==> r in CorsMessages
    ensures !(t == Cors || t == CorsServerConfig) ==> r !in CorsMessages
  {
    match t
    case Cors | CorsServerConfig =>
      if IsServerCorsConfig(error) then ServerConfigMessage
      else if Truthy(url) && Contains(url.value, KnownCorsApiHost) then KnownIssueMessage
      else if IsLocalDevelopment(loc) then DevCorsMessage
      else BlockedMessage
    case Fetch => UnableToConnectMessage
    case Timeout => TimedOutMessage
    case Network =>
      if MessageIncludes(error, "NetworkError") then NetworkOccurredMessage else DefaultNetworkMessage
  }

  /** The classification `handleNetworkError` returns. */
  function NetworkErrorInfoOf(loc: Location, error: Option<JsError>, url: Option<string>): (r: NetworkErrorInfo)
    ensures r.message in NetworkMessages
    ensures r.errorType in {Cors, CorsServerConfig} <==> r.message in CorsMessages
    ensures r.errorType == Timeout <==> r.message == TimedOutMessage
    ensures r.errorType == Fetch <==> r.message == UnableToConnectMessage
  {
    var t := NetworkErrorTypeOf(loc, error, url);
    NetworkErrorInfo(t, NetworkMessageFor(t, loc, error, url))
  }

  /**
   * `handleNetworkError(error, context, details)`, with `url` for
   * `details.url`: the source's chain of reassignments of `errorType` and
   * `userMessage` (logging left out).
   */
  method HandleNetworkError(loc: Location, error: Option<JsError>, url: Option<string>)
    returns (info: NetworkErrorInfo)
    ensures info == NetworkErrorInfoOf(loc, error, url)
  {
    var userMessage := DefaultNetworkMessage;
    var errorType := Network;

    var isCorsError := MessageIncludes(error, "CORS") || MessageIncludes(error, "Cross-Origin")
      || (MessageIncludes(error, "Failed to fetch") && IsLikelyCorsError(loc, url));
    var isServerCorsConfig := MessageIncludes(error, "multiple values")
      && MessageIncludes(error, "Access-Control-Allow-Origin");

    if isCorsError || isServerCorsConfig {
      errorType := if isCorsError then Cors else CorsServerConfig;
      if isServerCorsConfig {
        userMessage := ServerConfigMessage;
      } else if Truthy(url) && Contains(url.value, KnownCorsApiHost) {
        userMessage := KnownIssueMessage;
      } else if IsLocalDevelopment(loc) {
        userMessage := DevCorsMessage;
      } else {
        userMessage := BlockedMessage;
      }
    } else if MessageIncludes(error, "Failed to fetch") {
      errorType := Fetch;
      userMessage := UnableToConnectMessage;
    } else if MessageIncludes(error, "NetworkError") {
      errorType := Network;
      userMessage := NetworkOccurredMessage;
    } else if MessageIncludes(error, "timeout") {
      errorType := Timeout;
      userMessage := TimedOutMessage;
    }

    info := NetworkErrorInfo(errorType, userMessage);
  }

  /** Without any recognised substring the error is a plain network error. */
  lemma NetworkIsTheDefault(loc: Location, error: Option<JsError>, url: Option<string>)
    requires !MessageIncludes(error, "CORS") && !MessageIncludes(error, "Cross-Origin")
    requires !MessageIncludes(error, "Failed to fetch") && !MessageIncludes(error, "timeout")
    requires !IsServerCorsConfig(error)
    ensures NetworkErrorInfoOf(loc, error, url).errorType == Network
    ensures error.None? || error.value.message.None? ==>
      NetworkErrorInfoOf(loc, error, url) == NetworkErrorInfo(Network, DefaultNetworkMessage)
  {
  }

  /**
   * When a message names CORS and also reports a malformed allow-origin
   * header, the label is `cors` but the message is the server-configuration one.
   */
  lemma CorsLabelWithServerMessage(loc: Location, error: Option<JsError>, url: Option<string>)
    requires IsCorsError(loc, error, url) && IsServerCorsConfig(error)
    ensures NetworkErrorInfoOf(loc, error, url) == NetworkErrorInfo(Cors, ServerConfigMessage)
  {
  }

  /** The `cors_server_config` label is given exactly when only the server test holds. */
  lemma ServerConfigLabel(loc: Location, error: Option<JsError>, url: Option<string>)
    ensures NetworkErrorInfoOf(loc, error, url).errorType == CorsServerConfig
      <==> !IsCorsError(loc, error, url) && IsServerCorsConfig(error)
  {
  }

  /**
   * A "Failed to fetch" from the known API host is a CORS error with the
   * known-issue message (unless the server test also holds), from any page.
   */
  lemma FailedFetchToKnownApi(loc: Location, error: JsError, url: string)
    requires MessageIncludes(Some(error), "Failed to fetch")
    requires Contains(url, KnownCorsApiHost)
    requires !IsServerCorsConfig(Some(error))
    ensures NetworkErrorInfoOf(loc, Some(error), Some(url)) == NetworkErrorInfo(Cors, KnownIssueMessage)
  {
    KnownApiAlwaysCors(loc, loc, url);
  }

  // ---- HTTP status texts ----------------------------------------------------

  /** The `statusMessages` table of `getStatusMessage`. */
  const StatusMessages: map<int, string> := map[
    400 := "Please check your input and try again.",
    401 := "Authentication required. Please refresh the page.",
    403 := "Access denied. You don't have permission for this action.",
    404 := "Service not found. Please try again later.",
    429 := "Too many requests. Please wait a moment before trying again.",
    500 := "Server error. Please try again later.",
    502 := "Service temporarily unavailable. Please try again later.",
    503 := "Service maintenance in progress. Please try again later."
  ]

  /** The statuses with a text of their own. */
  const KnownStatuses: set<int> := {400, 401, 403, 404, 429, 500, 502, 503}

  /**
   * `getStatusMessage(status, defaultMessage)`: `statusMessages[status] ||
   * defaultMessage`. Every table entry is a non-empty text, so the default is
   * used exactly for the statuses outside the table. Both copies of main.js
   * hold the same table.
   */
  function StatusMessage(status: int, defaultMessage: string): (r: string)
    ensures status in KnownStatuses ==> r == StatusMessages[status] && r != ""
    ensures status !in KnownStatuses ==> r == defaultMessage
  {
    assert StatusMessages.Keys == KnownStatuses;
    if status in StatusMessages && StatusMessages[status] != "" then StatusMessages[status]
    else defaultMessage
  }

  /** The fixed texts, status by status. */
  lemma StatusTexts(defaultMessage: string)
    ensures StatusMessage(400, defaultMessage) == "Please check your input and try again."
    ensures StatusMessage(401, defaultMessage) == "Authentication required. Please refresh the page."
    ensures StatusMessage(403, defaultMessage) == "Access denied. You don't have permission for this action."
    ensures StatusMessage(404, defaultMessage) == "Service not found. Please try again later."
    ensures StatusMessage(429, defaultMessage) == "Too many requests. Please wait a moment before trying again."
    ensures StatusMessage(500, defaultMessage) == "Server error. Please try again later."
    ensures StatusMessage(502, defaultMessage) == "Service temporarily unavailable. Please try again later."
    ensures StatusMessage(503, defaultMessage) == "Service maintenance in progress. Please try again later."
  {
  }

  /** The body of a failed response as far as `handleApiError` reads it. */
  datatype ErrorBody = ErrorBody(detail: Option<string>, message: Option<string>)

  const UnexpectedApiMessage := "An unexpected error occurred"

  /**
   * The fallback order of `handleApiError`: a parsed body's `detail`, then its
   * `message`; when the body does not parse (`body` is `None`), the status
   * text; the generic text last.
   */
  function ApiErrorMessage(body: Option<ErrorBody>, statusText: string): (r: string)
    ensures r != ""
    ensures body.Some? && Truthy(body.value.detail) ==> r == body.value.detail.value
    ensures body.Some? && !Truthy(body.value.detail) && Truthy(body.value.message) ==> r == body.value.message.value
    ensures body.Some? && !Truthy(body.value.detail) && !Truthy(body.value.message) ==> r == UnexpectedApiMessage
    ensures body.None? ==> r == (if statusText != "" then statusText else UnexpectedApiMessage)
  {
    match body
    case Some(b) =>
      if Truthy(b.detail) then b.detail.value
      else if Truthy(b.message) then b.message.value
      else UnexpectedApiMessage
    case None =>
      if statusText != "" then statusText else UnexpectedApiMessage
  }

  /** The message `handleApiError` returns for a failed response. */
  function ApiErrorNoticeText(status: int, body: Option<ErrorBody>, statusText: string): (r: string)
    ensures status in KnownStatuses ==> r == StatusMessages[status]
    ensures status !in KnownStatuses ==> r == ApiErrorMessage(body, statusText) && r != ""
  {
    StatusMessage(status, ApiErrorMessage(body, statusText))
  }

  // ---- connection-error labels of the diagnostics ---------------------------

  /** The labels `classifyConnectionError` returns. */
  datatype ConnectionErrorType = ConnTimeout | ConnCors | ConnNetwork | ConnDns | ConnSsl | ConnUnknown

  /**
   * `classifyConnectionError(error)`: an `AbortError` is a timeout whatever
   * its message; then CORS, then network ("Failed to fetch" or
   * "NetworkError"), then DNS, then SSL/TLS, else unknown.
   */
  function ClassifyConnectionError(error: JsError): (r: ConnectionErrorType)
    ensures error.name == "AbortError" ==> r == ConnTimeout
    ensures r == ConnCors <==> error.name != "AbortError" && MessageIncludes(Some(error), "CORS")
    ensures r == ConnNetwork <==>
      (error.name != "AbortError" && !MessageIncludes(Some(error), "CORS")
       && (MessageIncludes(Some(error), "Failed to fetch") || MessageIncludes(Some(error), "NetworkError")))
    ensures error.message.None? ==> r == (if error.name == "AbortError" then ConnTimeout else ConnUnknown)
  {
    if error.name == "AbortError" then ConnTimeout
    else if MessageIncludes(Some(error), "CORS") then ConnCors
    else if MessageIncludes(Some(error), "Failed to fetch") then ConnNetwork
    else if MessageIncludes(Some(error), "NetworkError") then ConnNetwork
    else if MessageIncludes(Some(error), "DNS") then ConnDns
    else if MessageIncludes(Some(error), "SSL") || MessageIncludes(Some(error), "TLS") then ConnSsl
    else ConnUnknown
  }

  /** `dns`, `ssl` and `unknown` are reached only when no earlier test matched. */
  lemma ConnectionLaterLabels(error: JsError)
    requires error.name != "AbortError"
    requires !MessageIncludes(Some(error), "CORS") && !MessageIncludes(Some(error), "Failed to fetch")
    requires !MessageIncludes(Some(error), "NetworkError")
    ensures ClassifyConnectionError(error) == ConnDns <==> MessageIncludes(Some(error), "DNS")
    ensures ClassifyConnectionError(error) == ConnSsl <==>
      !MessageIncludes(Some(error), "DNS") && (MessageIncludes(Some(error), "SSL") || MessageIncludes(Some(error), "TLS"))
  {
  }
}
