/**
 * `AutoReconnectClient` (src/api.rs): a request/response client over one
 * websocket that it opens lazily through the reconnecting connector, logs
 * on to when it holds credentials, and reopens once when a request cannot
 * be sent or its response cannot be read.
 *
 * The operations are functions from the client's state to a result and a
 * new state; the class in auto_client_class.dfy runs them in place.
 */
module AutoClient {
  import opened Wrappers
  import opened Transport
  import opened Reconnect
  import opened Session
  import opened Api

  /**
   * What a client is built with: the credential, the receive window, the
   * connector's retry limit, and whether a text decodes as the
   * `SessionStatus` response a logon gets.
   */
  datatype Config = Config(auth: Option<Logon>, recvWindow: int, maxRetries: nat, statusDecodes: string -> bool)

  /**
   * The fields the client updates: the last request id, the connector's
   * failure counter, the parked responses and the open stream, with the
   * environment the stream talks to.
   */
  datatype State = State(reqId: nat, tryTimes: nat, messages: map<nat, string>, stream: Option<Stream>, net: Net<Request>)

  /** `AutoReconnectClient::new`: no request sent, nothing parked, no stream. */
  function Initial(net: Net<Request>): (s: State)
    ensures s.reqId == 0 && s.messages == map[] && s.stream.None?
  {
    State(0, 0, map[], None, net)
  }

  /** The key `wrap` puts in an authorized query: the credential's, or empty without one. */
  function ApiKey(c: Config): string {
    if c.auth.Some? then c.auth.value.apiKey else ""
  }

  /** The logon query `auth.sign(recv_window)` builds, signed at `now`. */
  function LogonCall(c: Config, now: int): (q: Call)
    requires c.auth.Some?
    ensures q.methodName == LogonMethod && q.ty == NoAuth
    ensures q.params == LogonParams(Sign(c.auth.value, c.recvWindow, now))
  {
    Call(LogonMethod, NoAuth, LogonParams(Sign(c.auth.value, c.recvWindow, now)), c.statusDecodes)
  }

  /** The wrapped parameters of `q`; a logon goes out with no authentication field. */
  function WrapCall(c: Config, q: Call, now: int): (w: ParamWrapper)
    ensures w.other == q.params
    ensures q.ty == NoAuth ==> w == ParamWrapper(None, None, 0, q.params)
  {
    Wrap(q.ty, c.recvWindow, ApiKey(c), now, q.params)
  }

  /** `get_stream`: the open stream, or a new one from the connector. */
  function GetStream(c: Config, s: State): (r: (Result<Stream, WsError>, State))
    ensures s.stream.Some? ==> r == (Ok(s.stream.value), s)
    ensures r.0.Ok? ==> r.1.stream == Some(r.0.value)
    ensures r.0.Err? ==> r.1.stream.None? && r.1.net.log == s.net.log
    ensures s.stream.None? && r.0.Ok? ==> r.1.net.log == s.net.log + [Opened] && Fuel(r.1.net) < Fuel(s.net)
    ensures Fuel(r.1.net) <= Fuel(s.net) && r.1.net.inbox == s.net.inbox
    ensures r.1.reqId == s.reqId && r.1.messages == s.messages
  {
    if s.stream.Some? then (Ok(s.stream.value), s)
    else
      var (res, tryTimes, n) := Acquire(c.maxRetries, s.tryTimes, s.net);
      (res, s.(tryTimes := tryTimes, net := n, stream := if res.Ok? then Some(res.value) else None))
  }

  /** `_send`: takes the next request id, then writes the request on the (re)opened stream. */
  function Send(c: Config, s: State, methodName: string, params: ParamWrapper): (r: (Result<nat, ClientError>, State))
    ensures r.1.reqId == s.reqId + 1 && r.1.messages == s.messages
    ensures r.0.Ok? ==> r.0.value == r.1.reqId && r.1.stream.Some?
    ensures r.0.Err? ==> r.0.error.WsError?
    ensures s.stream.Some? ==> r.1.stream == s.stream
    ensures var newConn := if s.stream.None? && r.1.stream.Some? then [Opened] else [];
      r.1.net.log == s.net.log + newConn + if r.0.Ok? then [Sent(Request(s.reqId + 1, methodName, params))] else []
    ensures Fuel(r.1.net) <= Fuel(s.net) && r.1.net.inbox == s.net.inbox
  {
    var s1 := s.(reqId := s.reqId + 1);
    var (g, s2) := GetStream(c, s1);
    if g.Err? then (Err(WsError(g.error)), s2)
    else
      var (ok, n) := Write(s2.net, Sent(Request(s1.reqId, methodName, params)));
      (if ok then Ok(s1.reqId) else Err(WsError(WriteFailed)), s2.(net := n))
  }

  /** `_recv`: the parked response to `id`, or the receive loop on the (re)opened stream. */
  function Recv(c: Config, s: State, id: nat): (r: (Result<string, ClientError>, State))
    ensures id in s.messages ==> r == (Ok(s.messages[id]), s.(messages := s.messages - {id}))
    ensures s.stream.Some? ==> r.1.stream == s.stream && OnlyPongsAdded(s.net.log, r.1.net.log)
    ensures r.1.reqId == s.reqId && Fuel(r.1.net) <= Fuel(s.net)
  {
    if id in s.messages then (Ok(s.messages[id]), s.(messages := s.messages - {id}))
    else
      var (g, s1) := GetStream(c, s);
      if g.Err? then (Err(WsError(g.error)), s1)
      else
        var (res, m, n) := RecvLoop(id, s1.messages, s1.net);
        (res, s1.(messages := m, net := n))
  }

  /** `query_without_retry`: one send and one receive, no reconnection. */
  function QueryWithoutRetry(c: Config, s: State, methodName: string, params: ParamWrapper, decodes: string -> bool): (r: (Result<string, ClientError>, State))
    ensures r.0.Ok? ==> r.1.stream.Some?
    ensures r.1.reqId >= s.reqId && Fuel(r.1.net) <= Fuel(s.net)
  {
    var (g, s1) := GetStream(c, s);
    if g.Err? then (Err(WsError(g.error)), s1)
    else
      var (sent, s2) := Send(c, s1, methodName, params);
      if sent.Err? then (Err(sent.error), s2)
      else
        var (resp, s3) := Recv(c, s2, sent.value);
        if resp.Err? then (resp, s3) else (Decode(decodes, resp.value), s3)
  }

  /** The measure under which `query` and its nested logons terminate. */
  function Weight(s: State): nat {
    2 * Fuel(s.net) + if s.stream.Some? then 1 else 0
  }

  /**
   * `query`: on first use (no stream) connect and log on; then send and
   * receive once, falling back to a reconnection on a websocket error.
   */
  function Query(c: Config, s: State, q: Call, now: int): (r: (Result<string, ClientError>, State))
    decreases Weight(s), 2
    ensures r.0.Ok? ==> r.1.stream.Some?
    ensures r.1.reqId >= s.reqId && Fuel(r.1.net) <= Fuel(s.net)
  {
    if s.stream.Some? then Attempt(c, s, q, now)
    else
      var (g, s0) := GetStream(c, s);
      if g.Err? then (Err(WsError(g.error)), s0)
      else if c.auth.None? then Attempt(c, s0, q, now)
      else
        var (logon, s1) := Query(c, s0, LogonCall(c, now), now);
        if logon.Err? then (logon, s1) else Attempt(c, s1, q, now)
  }

  /** The send and receive `query` tries first, with its fallbacks. */
  function Attempt(c: Config, s: State, q: Call, now: int): (r: (Result<string, ClientError>, State))
    decreases 2 * Fuel(s.net) + 1, 1
    ensures r.0.Ok? ==> r.1.stream.Some?
    ensures r.1.reqId >= s.reqId && Fuel(r.1.net) <= Fuel(s.net)
  {
    var param := WrapCall(c, q, now);
    var (sent, s2) := Send(c, s, q.methodName, param);
    if sent.Err? then Retry(c, s2, q, now)
    else
      var (resp, s3) := Recv(c, s2, sent.value);
      if resp.Ok? then (Decode(q.decodes, resp.value), s3)
      else if resp.error.WsError? then Retry(c, s3, q, now)
      else QueryWithoutRetry(c, s3, q.methodName, param, q.decodes)
  }

  /** The fallback: drop the stream, log on again over a new one, and send once more. */
  function Retry(c: Config, s: State, q: Call, now: int): (r: (Result<string, ClientError>, State))
    decreases 2 * Fuel(s.net) + 1, 0
    ensures r.0.Ok? ==> r.1.stream.Some?
    ensures r.1.reqId >= s.reqId && Fuel(r.1.net) <= Fuel(s.net)
  {
    var s1 := s.(stream := None);
    var param := WrapCall(c, q, now);
    if c.auth.None? then QueryWithoutRetry(c, s1, q.methodName, param, q.decodes)
    else
      var (logon, s2) := Query(c, s1, LogonCall(c, now), now);
      if logon.Err? then (logon, s2) else QueryWithoutRetry(c, s2, q.methodName, param, q.decodes)
  }
}
