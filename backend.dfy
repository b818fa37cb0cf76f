/**
 * The Rust command layer of the desktop shell (src-tauri/src/lib.rs): the stored API
 * configuration, the guard every command applies when none is stored, the choice of
 * endpoint and payload, and the request helper's method dispatch and reply handling.
 *
 * The network is not modelled: each command takes the HTTP exchange's outcome as an
 * input (`HttpReply`) and returns the request it issued, if any, with its result.
 * Commands read the configuration slot's current value; the mutex around it is left out.
 */
module Backend {
  import opened Common
  import opened Text

  /** JSON values as `serde_json::Value` holds them (numbers kept as integers). */
  datatype Json =
    | JNull
    | JBool(b: bool)
    | JNumber(n: int)
    | JString(s: string)
    | JArray(items: seq<Json>)
    | JObject(fields: seq<(string, Json)>)

  datatype ApiConfig = ApiConfig(serverUrl: string, apiSecret: string)

  /** The embed as the command receives it; `thumbnail`, `image`, `footer`, `author`
      are string-keyed objects such as `{"url": ...}`. */
  datatype EmbedData = EmbedData(
    title: Option<string>,
    description: Option<string>,
    color: Option<string>,
    thumbnail: Option<map<string, string>>,
    image: Option<map<string, string>>,
    footer: Option<map<string, string>>,
    author: Option<map<string, string>>,
    fields: Option<seq<map<string, Json>>>,
    timestamp: Option<string>)

  /** The JSON bodies the commands post, one constructor per `json!` literal. */
  datatype Payload =
    | ChannelMessage(channelId: string, message: string)   // {"channelId", "message"}
    | DirectMessage(userId: string, message: string)       // {"userId", "message"}
    | EmbedMessage(channel: Option<string>, user: Option<string>,
                   embedData: EmbedData, messageType: string)  // {"channelId", "userId", "embedData", "type"}

  datatype Method = Get | Post | Put | Delete

  function MethodName(m: Method): string {
    match m
    case Get => "GET"
    case Post => "POST"
    case Put => "PUT"
    case Delete => "DELETE"
  }

  /** The `match method` of make_api_request: only the four upper-case names are accepted. */
  function ParseMethod(name: string): (m: Option<Method>)
    ensures m.Some? ==> MethodName(m.value) == name
    ensures m.None? <==> name !in {"GET", "POST", "PUT", "DELETE"}
  {
    if name == "GET" then Some(Get)
    else if name == "POST" then Some(Post)
    else if name == "PUT" then Some(Put)
    else if name == "DELETE" then Some(Delete)
    else None
  }

  /** Every method's name is accepted and parses back to that method. */
  lemma ParseMethodName(m: Method)
    ensures ParseMethod(MethodName(m)) == Some(m)
  {
  }

  datatype Request = Request(verb: Method, url: string, headers: seq<(string, string)>, body: Option<Payload>)

  /** The codes an HTTP `StatusCode` can hold: three decimal digits, 100 to 999. */
  type StatusCode = n: nat | 100 <= n <= 999 witness 200

  /** What the network gave back for a sent request: a transport failure, or a status with
      the outcome of reading the body as text (for errors) and as JSON (for successes). */
  datatype HttpReply =
    | Unreachable(cause: string)
    | Response(status: StatusCode, reason: Option<string>, text: Result<string, string>, json: Result<Json, string>)

  /** A command's observable effect: the request it sent, if any, and what it returned. */
  datatype Exchange<T> = Exchange(sent: Option<Request>, result: Result<T, string>)

  /** The `ApiResponse` struct the message commands return. */
  datatype ApiResponse = ApiResponse(success: bool, message: Option<string>, data: Option<Json>)

  const UnsupportedMethod := "Unsupported HTTP method"
  const NotConfigured := "API not configured"
  const NotConfiguredForServers := "API not configured. Please set server URL and API secret first."
  const MissingRecipient := "Either channel_id or user_id must be provided"

  predicate IsSuccessStatus(status: nat) {
    200 <= status <= 299
  }

  /** `StatusCode`'s `Display`: the code, a space, and its canonical reason. */
  function StatusText(status: nat, reason: Option<string>): string {
    Decimal(status) + " " + (if reason.Some? then reason.value else "<unknown status code>")
  }

  function Headers(apiSecret: string): seq<(string, string)> {
    [("Content-Type", "application/json"), ("x-api-secret", apiSecret)]
  }

  /** The result make_api_request derives from a reply once the request is sent. */
  function Interpret(reply: HttpReply): (r: Result<Json, string>)
    ensures r.Success? <==> reply.Response? && IsSuccessStatus(reply.status) && reply.json.Success?
    ensures r.Success? ==> r.value == reply.json.value
    ensures reply.Unreachable? ==> r == Failure("Request failed: " + reply.cause)
    ensures reply.Response? && !IsSuccessStatus(reply.status) ==>
              r == Failure("HTTP " + StatusText(reply.status, reply.reason) + ": "
                           + (if reply.text.Success? then reply.text.value else "Unknown error"))
    ensures reply.Response? && IsSuccessStatus(reply.status) && reply.json.Failure? ==>
              r == Failure("Failed to parse JSON: " + reply.json.error)
  {
    match reply
    case Unreachable(cause) => Failure("Request failed: " + cause)
    case Response(status, reason, text, json) =>
      if !IsSuccessStatus(status) then
        Failure("HTTP " + StatusText(status, reason) + ": " + (if text.Success? then text.value else "Unknown error"))
      else if json.Failure? then
        Failure("Failed to parse JSON: " + json.error)
      else
        Success(json.value)
  }

  /** The status code in a non-success error message can be read back from its digits. */
  lemma HttpErrorCarriesStatus(reply: HttpReply)
    requires reply.Response? && !IsSuccessStatus(reply.status)
    ensures var e := Interpret(reply).error;
            var d := Decimal(reply.status);
            e[..5] == "HTTP " && e[5..5 + |d|] == d && DecimalValue(e[5..5 + |d|]) == reply.status
  {
    DecimalRoundTrip(reply.status);
  }

  /** make_api_request: an unsupported method fails before anything is sent; otherwise the
      request carries the JSON content type and the API secret, and the reply decides. */
  function MakeApiRequest(verb: string, url: string, apiSecret: string, body: Option<Payload>,
                          reply: HttpReply): (x: Exchange<Json>)
    ensures x.sent.Some? <==> verb in {"GET", "POST", "PUT", "DELETE"}
    ensures x.sent.None? ==> x.result == Failure(UnsupportedMethod)
    ensures x.sent.Some? ==> MethodName(x.sent.value.verb) == verb && x.sent.value.url == url
                             && x.sent.value.headers == [("Content-Type", "application/json"), ("x-api-secret", apiSecret)]
                             && x.sent.value.body == body
    ensures x.sent.Some? ==> x.result == Interpret(reply)
  {
    match ParseMethod(verb)
    case None => Exchange(None, Failure(UnsupportedMethod))
    case Some(m) => Exchange(Some(Request(m, url, Headers(apiSecret), body)), Interpret(reply))
  }

  /** The `AppState` slot holding the configuration, empty until set_api_config runs. */
  class AppState {
    var apiConfig: Option<ApiConfig>

    constructor ()
      ensures apiConfig == None
    {
      apiConfig := None;
    }

    /** set_api_config: replaces any stored configuration; the URL loses every trailing '/'. */
    method SetApiConfig(serverUrl: string, apiSecret: string) returns (r: ApiResponse)
      modifies this
      ensures apiConfig == Some(ApiConfig(TrimEndSlashes(serverUrl), apiSecret))
      ensures r == ApiResponse(true, Some("API configuration set successfully"), None)
    {
      apiConfig := Some(ApiConfig(TrimEndSlashes(serverUrl), apiSecret));
      r := ApiResponse(true, Some("API configuration set successfully"), None);
    }
  }

  /** A stored URL never ends in '/', so the paths below join it with exactly one slash. */
  lemma StoredUrlJoinsCleanly(serverUrl: string, path: string)
    requires |path| > 0 && path[0] == '/'
    ensures var u := TrimEndSlashes(serverUrl) + path;
            u[..|TrimEndSlashes(serverUrl)|] == TrimEndSlashes(serverUrl)
            && (|TrimEndSlashes(serverUrl)| > 0 ==> u[|TrimEndSlashes(serverUrl)| - 1] != '/')
  {
  }

  /** get_servers: GET `<url>/api/servers`, refused without a configuration. */
  function GetServers(config: Option<ApiConfig>, reply: HttpReply): (x: Exchange<Json>)
    ensures config.None? ==> x == Exchange(None, Failure(NotConfiguredForServers))
    ensures config.Some? ==>
              x.sent == Some(Request(Get, config.value.serverUrl + "/api/servers", Headers(config.value.apiSecret), None))
              && x.result == Interpret(reply)
  {
    match config
    case None => Exchange(None, Failure(NotConfiguredForServers))
    case Some(c) => MakeApiRequest("GET", c.serverUrl + "/api/servers", c.apiSecret, None, reply)
  }

  /** get_channels: GET `<url>/api/channels/<server_id>`, refused without a configuration. */
  function GetChannels(config: Option<ApiConfig>, serverId: string, reply: HttpReply): (x: Exchange<Json>)
    ensures config.None? ==> x == Exchange(None, Failure(NotConfigured))
    ensures config.Some? ==>
              x.sent == Some(Request(Get, config.value.serverUrl + "/api/channels/" + serverId,
                                     Headers(config.value.apiSecret), None))
              && x.result == Interpret(reply)
  {
    match config
    case None => Exchange(None, Failure(NotConfigured))
    case Some(c) => MakeApiRequest("GET", c.serverUrl + "/api/channels/" + serverId, c.apiSecret, None, reply)
  }

  /** search_users: GET `<url>/api/users/search/<encoded query>`; `encode` stands for
      `urlencoding::encode`, which is not part of this model. */
  function SearchUsers(config: Option<ApiConfig>, query: string, encode: string -> string,
                       reply: HttpReply): (x: Exchange<Json>)
    ensures config.None? ==> x == Exchange(None, Failure(NotConfigured))
    ensures config.Some? ==>
              x.sent == Some(Request(Get, config.value.serverUrl + "/api/users/search/" + encode(query),
                                     Headers(config.value.apiSecret), None))
              && x.result == Interpret(reply)
  {
    match config
    case None => Exchange(None, Failure(NotConfigured))
    case Some(c) => MakeApiRequest("GET", c.serverUrl + "/api/users/search/" + encode(query), c.apiSecret, None, reply)
  }

  /** The endpoint and body send_simple_message picks: the channel wins over the user. */
  function SimpleRoute(channelId: Option<string>, userId: Option<string>, message: string): Option<(string, Payload)> {
    if channelId.Some? then Some(("/api/send-message", ChannelMessage(channelId.value, message)))
    else if userId.Some? then Some(("/api/send-dm", DirectMessage(userId.value, message)))
    else None
  }

  /** Wraps a sent message's reply as the command's `ApiResponse`. */
  function Acknowledge(x: Exchange<Json>, confirmation: string): Exchange<ApiResponse> {
    match x.result
    case Failure(e) => Exchange(x.sent, Failure(e))
    case Success(data) => Exchange(x.sent, Success(ApiResponse(true, Some(confirmation), Some(data))))
  }

  /** send_simple_message: refused without a configuration, then without a recipient; a
      channel id posts to /api/send-message (even when a user id is also given), a user id
      alone posts to /api/send-dm. */
  function SendSimpleMessage(config: Option<ApiConfig>, channelId: Option<string>, userId: Option<string>,
                             message: string, reply: HttpReply): (x: Exchange<ApiResponse>)
    ensures config.None? ==> x == Exchange(None, Failure(NotConfigured))
    ensures config.Some? && channelId.None? && userId.None? ==> x == Exchange(None, Failure(MissingRecipient))
    ensures config.Some? && channelId.Some? ==>
              x.sent == Some(Request(Post, config.value.serverUrl + "/api/send-message", Headers(config.value.apiSecret),
                                     Some(ChannelMessage(channelId.value, message))))
    ensures config.Some? && channelId.None? && userId.Some? ==>
              x.sent == Some(Request(Post, config.value.serverUrl + "/api/send-dm", Headers(config.value.apiSecret),
                                     Some(DirectMessage(userId.value, message))))
    ensures x.sent.Some? ==>
              (x.result.Success? <==> Interpret(reply).Success?)
              && (x.result.Success? ==> x.result.value == ApiResponse(true, Some("Message sent successfully"), Some(Interpret(reply).value)))
              && (x.result.Failure? ==> x.result.error == Interpret(reply).error)
  {
    match config
    case None => Exchange(None, Failure(NotConfigured))
    case Some(c) =>
      match SimpleRoute(channelId, userId, message)
      case None => Exchange(None, Failure(MissingRecipient))
      case Some((endpoint, payload)) =>
        Acknowledge(MakeApiRequest("POST", c.serverUrl + endpoint, c.apiSecret, Some(payload), reply),
                    "Message sent successfully")
  }

  /** send_embed_message: refused without a configuration; otherwise always posts to
      /api/send-embed, with `type` "channel" exactly when a channel id is given, else "dm". */
  function SendEmbedMessage(config: Option<ApiConfig>, channelId: Option<string>, userId: Option<string>,
                            embedData: EmbedData, reply: HttpReply): (x: Exchange<ApiResponse>)
    ensures config.None? ==> x == Exchange(None, Failure(NotConfigured))
    ensures x.sent.Some? <==> config.Some?
    ensures x.sent.Some? ==>
              var body := x.sent.value.body;
              x.sent.value.verb == Post && x.sent.value.url == config.value.serverUrl + "/api/send-embed"
              && x.sent.value.headers == Headers(config.value.apiSecret)
              && body.Some? && body.value.EmbedMessage?
              && body.value.channel == channelId && body.value.user == userId && body.value.embedData == embedData
              && (body.value.messageType == "channel" <==> channelId.Some?)
              && (body.value.messageType == "dm" <==> channelId.None?)
    ensures x.sent.Some? ==>
              (x.result.Success? <==> Interpret(reply).Success?)
              && (x.result.Success? ==> x.result.value == ApiResponse(true, Some("Embed message sent successfully"), Some(Interpret(reply).value)))
              && (x.result.Failure? ==> x.result.error == Interpret(reply).error)
  {
    match config
    case None => Exchange(None, Failure(NotConfigured))
    case Some(c) =>
      var messageType := if channelId.Some? then "channel" else "dm";
      Acknowledge(MakeApiRequest("POST", c.serverUrl + "/api/send-embed", c.apiSecret,
                                 Some(EmbedMessage(channelId, userId, embedData, messageType)), reply),
                  "Embed message sent successfully")
  }

  /** test_connection: GET `<url>/api/servers`; a failure is reported with a "Connection failed: " prefix. */
  function TestConnection(config: Option<ApiConfig>, reply: HttpReply): (x: Exchange<ApiResponse>)
    ensures config.None? ==> x == Exchange(None, Failure(NotConfigured))
    ensures config.Some? ==>
              x.sent == Some(Request(Get, config.value.serverUrl + "/api/servers", Headers(config.value.apiSecret), None))
              && (x.result.Success? <==> Interpret(reply).Success?)
              && (x.result.Success? ==> x.result.value == ApiResponse(true, Some("Connection successful"), None))
              && (x.result.Failure? ==> x.result.error == "Connection failed: " + Interpret(reply).error)
  {
    match config
    case None => Exchange(None, Failure(NotConfigured))
    case Some(c) =>
      var x := MakeApiRequest("GET", c.serverUrl + "/api/servers", c.apiSecret, None, reply);
      match x.result
      case Success(_) => Exchange(x.sent, Success(ApiResponse(true, Some("Connection successful"), None)))
      case Failure(e) => Exchange(x.sent, Failure("Connection failed: " + e))
  }
}
