/**
 The client object and its connection life cycle: building the target of
 `connect` and `connect_multiple`, establishing the connection directly or
 through a SOCKS5 proxy, and `disconnect`. The network is not modelled: the
 outcome of every foreign step (URL parsing, the proxy tunnel, the WebSocket
 handshake, closing the socket) is a parameter, and each result records the
 steps taken so the order of attempts can be stated.
 */
module Connection {

  import opened Options
  import opened Errors
  import opened Topics
  import Text

  /** Path segment for a single named endpoint. */
  const WsEndpoint: string := "ws"

  /** Path segment for a combined multi-stream subscription. */
  const StreamEndpoint: string := "stream"

  /** Prefix of the query of a combined subscription. */
  const StreamsPrefix: string := "streams="

  /** Error text of `disconnect` when no connection is held. */
  const NotConnectedText: string := "Not able to close the connection"

  datatype Config = Config(wsEndpoint: string)

  /** Metadata of the server's handshake answer. */
  datatype Response = Response(status: nat)

  /** The two shapes of an open connection; both offer the same operations. */
  datatype Transport = Direct(response: Response) | Proxied(response: Response)

  /** The streaming client; the handler lives beside it in `Dispatch`. */
  datatype Client = Client(socket: Option<Transport>, conf: Config)

  /** What the URL library is handed before it parses: a full URL string for
      one endpoint, or a base URL with a segment to push and a query to set. */
  datatype Target =
    | Single(url: string)
    | Combined(base: string, segment: string, query: string)

  /** One foreign step of connection establishment. */
  datatype Stage =
    | Tunnel(proxy: string, target: Target)
    | Handshake(target: Target, tunneled: bool)

  datatype Attempt = Attempt(client: Client, result: Result<()>, stages: seq<Stage>)

  datatype Closing = Closing(client: Client, result: Result<()>)

  /** A client with the given configuration and no connection. */
  function New(conf: Config): (c: Client)
    ensures c.socket.None? && c.conf == conf
  {
    Client(None, conf)
  }

  /** The URL string for one named endpoint: `<base>/ws/<endpoint>`. */
  function SingleUrl(conf: Config, endpoint: string): (url: string)
    ensures |url| == |conf.wsEndpoint| + |WsEndpoint| + 2 + |endpoint|
    ensures url[..|conf.wsEndpoint|] == conf.wsEndpoint
    ensures url[|conf.wsEndpoint|..|conf.wsEndpoint| + |WsEndpoint| + 2] == "/ws/"
    ensures url[|conf.wsEndpoint| + |WsEndpoint| + 2..] == endpoint
  {
    conf.wsEndpoint + "/" + WsEndpoint + "/" + endpoint
  }

  /** The query of a combined subscription: `streams=` and the joined topics. */
  function StreamsQuery(endpoints: seq<string>): (q: string)
    ensures |q| >= |StreamsPrefix| && q[..|StreamsPrefix|] == "streams="
    ensures q[|StreamsPrefix|..] == CombinedStream(endpoints)
  {
    StreamsPrefix + CombinedStream(endpoints)
  }

  /** Establishes a connection to `target`. With a proxy address a SOCKS5
      tunnel is opened first and the handshake runs through it; without one
      the handshake runs directly. On success the client holds the matching
      transport; on failure it is left as it was. */
  function HandleConnect(c: Client, target: Target, proxy: Option<string>,
                         tunnel: External<()>, handshake: External<Response>): (r: Attempt)
    ensures proxy.None? ==> r.stages == [Handshake(target, false)]
    ensures proxy.Some? ==> |r.stages| > 0 && r.stages[0] == Tunnel(proxy.value, target)
    ensures proxy.Some? ==> (|r.stages| == 2 <==> tunnel.Done?)
    ensures proxy.Some? && tunnel.Failed? ==> r.stages == [Tunnel(proxy.value, target)]
    ensures proxy.Some? && tunnel.Done? ==> r.stages == [Tunnel(proxy.value, target), Handshake(target, true)]
    ensures r.result.Ok? <==> (proxy.None? || tunnel.Done?) && handshake.Done?
    ensures r.result.Ok? ==> r.client == c.(socket := Some(
              if proxy.Some? then Proxied(handshake.value) else Direct(handshake.value)))
    ensures r.result.Err? ==> r.client == c
    ensures proxy.Some? && tunnel.Failed? ==>
              r.result == Err(Msg("Error creating proxy stream: " + tunnel.cause))
    ensures proxy.Some? && tunnel.Done? && handshake.Failed? ==>
              r.result == Err(Msg("Error during handshake: " + handshake.cause))
    ensures proxy.None? && handshake.Failed? ==>
              r.result == Err(Msg("Error during handshake " + handshake.cause))
  {
    match proxy
    case Some(addr) =>
      (match tunnel
       case Failed(e) =>
         Attempt(c, Err(Msg("Error creating proxy stream: " + e)), [Tunnel(addr, target)])
       case Done(_) =>
         var stages := [Tunnel(addr, target), Handshake(target, true)];
         match handshake
         case Done(response) => Attempt(c.(socket := Some(Proxied(response))), Ok(()), stages)
         case Failed(e) => Attempt(c, Err(Msg("Error during handshake: " + e)), stages))
    case None =>
      var stages := [Handshake(target, false)];
      match handshake
      case Done(response) => Attempt(c.(socket := Some(Direct(response))), Ok(()), stages)
      case Failed(e) => Attempt(c, Err(Msg("Error during handshake " + e)), stages)
  }

  /** Connects to one named endpoint. `urlError` is the URL library's verdict
      on the URL string: the text of its parse error, if it rejects it. */
  function Connect(c: Client, endpoint: string, urlError: Option<string>, proxy: Option<string>,
                   tunnel: External<()>, handshake: External<Response>): (r: Attempt)
    ensures urlError.Some? ==> r == Attempt(c, Err(UrlParser(urlError.value)), [])
    ensures urlError.None? ==> |r.stages| > 0 && r.stages[0].target == Single(SingleUrl(c.conf, endpoint))
    ensures urlError.None? ==>
              r == HandleConnect(c, Single(SingleUrl(c.conf, endpoint)), proxy, tunnel, handshake)
  {
    match urlError
    case Some(e) => Attempt(c, Err(UrlParser(e)), [])
    case None => HandleConnect(c, Single(SingleUrl(c.conf, endpoint)), proxy, tunnel, handshake)
  }

  /** Connects to a combined subscription of several topics. `urlError` is
      the URL library's verdict on the base URL. */
  function ConnectMultiple(c: Client, endpoints: seq<string>, urlError: Option<string>, proxy: Option<string>,
                           tunnel: External<()>, handshake: External<Response>): (r: Attempt)
    ensures urlError.Some? ==> r == Attempt(c, Err(UrlParser(urlError.value)), [])
    ensures urlError.None? ==>
              |r.stages| > 0 && r.stages[0].target == Combined(c.conf.wsEndpoint, StreamEndpoint, StreamsQuery(endpoints))
    ensures urlError.None? ==>
              r == HandleConnect(c, Combined(c.conf.wsEndpoint, StreamEndpoint, StreamsQuery(endpoints)),
                                 proxy, tunnel, handshake)
  {
    match urlError
    case Some(e) => Attempt(c, Err(UrlParser(e)), [])
    case None =>
      HandleConnect(c, Combined(c.conf.wsEndpoint, StreamEndpoint, StreamsQuery(endpoints)), proxy, tunnel, handshake)
  }

  /** Closes the held connection and reports the outcome of the close. The
      connection stays held afterwards, whatever the outcome. Without a
      connection it fails with the not-connected message. */
  function Disconnect(c: Client, close: External<()>): (r: Closing)
    ensures r.client == c
    ensures c.socket.None? ==> r.result == Err(Msg(NotConnectedText))
    ensures c.socket.Some? ==> (r.result.Ok? <==> close.Done?)
    ensures c.socket.Some? && close.Failed? ==> r.result == Err(WebSocket(close.cause))
  {
    match c.socket
    case None => Closing(c, Err(Msg(NotConnectedText)))
    case Some(_) =>
      match close
      case Done(_) => Closing(c, Ok(()))
      case Failed(e) => Closing(c, Err(WebSocket(e)))
  }

  /** Different endpoints give different URL strings. */
  lemma SingleUrlInjective(conf: Config, a: string, b: string)
    requires SingleUrl(conf, a) == SingleUrl(conf, b)
    ensures a == b
  {
  }

  /** The topics of a combined subscription are recovered from its query, in
      order, when none contains `/`. */
  lemma StreamsQueryRoundTrip(endpoints: seq<string>)
    requires |endpoints| > 0
    requires forall i :: 0 <= i < |endpoints| ==> '/' !in endpoints[i]
    ensures Text.Split(StreamsQuery(endpoints)[|StreamsPrefix|..], '/') == endpoints
  {
    CombinedStreamRoundTrip(endpoints);
  }

  /** A new client holds no connection, so disconnecting it fails. */
  lemma NewClientCannotDisconnect(conf: Config, close: External<()>)
    ensures Disconnect(New(conf), close).result == Err(Msg(NotConnectedText))
  {
  }

  /** After a successful connect, disconnect reaches the socket instead of
      reporting that no connection is held. */
  lemma ConnectedClientDisconnects(c: Client, target: Target, proxy: Option<string>,
                                   tunnel: External<()>, handshake: External<Response>, close: External<()>)
    requires HandleConnect(c, target, proxy, tunnel, handshake).result.Ok?
    ensures var d := Disconnect(HandleConnect(c, target, proxy, tunnel, handshake).client, close);
            d.result.Ok? <==> close.Done?
  {
  }

  /** Disconnect does not release the connection: a second disconnect reaches
      the socket again rather than failing with the not-connected message. */
  lemma DisconnectKeepsConnection(c: Client, first: External<()>, second: External<()>)
    requires c.socket.Some?
    ensures Disconnect(Disconnect(c, first).client, second).result != Err(Msg(NotConnectedText))
  {
  }
}
