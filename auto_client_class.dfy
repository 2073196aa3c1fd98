/**
 * `AutoReconnectClient` as the object the source declares: its fields are
 * updated in place, and each method is proved to do what the function of
 * the same name in `AutoClient` says.  The connector closure's captured
 * failure counter is the field `tryTimes`; the websocket and the peer
 * behind it are the scripted environment `net`.
 */
module AutoReconnect {
  import opened Wrappers
  import opened Transport
  import opened Reconnect
  import opened Session
  import opened Api
  import AutoClient

  class AutoReconnectClient {
    var reqId: nat
    const auth: Option<Logon>
    const recvWindow: int
    const maxRetries: nat
    const statusDecodes: string -> bool
    var tryTimes: nat
    var messages: map<nat, string>
    var stream: Option<Stream>
    var net: Net<Request>

    function Cfg(): AutoClient.Config {
      AutoClient.Config(auth, recvWindow, maxRetries, statusDecodes)
    }

    ghost function State(): AutoClient.State
      reads this
    {
      AutoClient.State(reqId, tryTimes, messages, stream, net)
    }

    /** `AutoReconnectClient::client` with `new`: nothing sent, nothing parked, no stream yet. */
    constructor (auth: Option<Logon>, recvWindow: int, maxRetries: nat, statusDecodes: string -> bool, net: Net<Request>)
      ensures Cfg() == AutoClient.Config(auth, recvWindow, maxRetries, statusDecodes)
      ensures State() == AutoClient.Initial(net)
    {
      this.reqId := 0;
      this.auth := auth;
      this.recvWindow := recvWindow;
      this.maxRetries := maxRetries;
      this.statusDecodes := statusDecodes;
      this.tryTimes := 0;
      this.messages := map[];
      this.stream := None;
      this.net := net;
    }

    /** The key an authorized query carries. */
    function ApiKey(): (k: string)
      ensures k == AutoClient.ApiKey(Cfg())
    {
      if auth.Some? then auth.value.apiKey else ""
    }

    method GetStream() returns (r: Result<Stream, WsError>)
      modifies this
      ensures (r, State()) == AutoClient.GetStream(Cfg(), old(State()))
    {
      if stream.None? {
        var t, n;
        r, t, n := Connect(maxRetries, tryTimes, net);
        tryTimes, net := t, n;
        if r.Ok? {
          stream := Some(r.value);
        }
        return;
      }
      r := Ok(stream.value);
    }

    method Send(methodName: string, params: ParamWrapper) returns (r: Result<nat, ClientError>)
      modifies this
      ensures (r, State()) == AutoClient.Send(Cfg(), old(State()), methodName, params)
    {
      reqId := reqId + 1;
      var id := reqId;
      var g := GetStream();
      if g.Err? {
        return Err(WsError(g.error));
      }
      var (ok, n) := Write(net, Sent(Request(id, methodName, params)));
      net := n;
      if !ok {
        return Err(WsError(WriteFailed));
      }
      r := Ok(id);
    }

    /**
     * `_recv`.  The stream stays open for the whole loop, so the source's
     * repeated `get_stream` inside it returns the same stream each time.
     */
    method Recv(id: nat) returns (r: Result<string, ClientError>)
      modifies this
      ensures (r, State()) == AutoClient.Recv(Cfg(), old(State()), id)
    {
      if id in messages {
        r := Ok(messages[id]);
        messages := messages - {id};
        return;
      }
      var g := GetStream();
      if g.Err? {
        return Err(WsError(g.error));
      }
      ghost var target := RecvLoop(id, messages, net);
      assert AutoClient.Recv(Cfg(), old(State()), id) == (target.0, State().(messages := target.1, net := target.2));
      while true
        invariant RecvLoop(id, messages, net) == target
        invariant AutoClient.Recv(Cfg(), old(State()), id) == (target.0, State().(messages := target.1, net := target.2))
        decreases |net.inbox|
      {
        var (f, n1) := Receive(net);
        net := n1;
        if f.None? {
          return Err(WsError(ReadFailed));
        }
        var x := f.value;
        var v := Verdict(id, x);
        if v.Some? {
          return v.value;
        }
        if x.Ping? {
          var (ok, n2) := Write(net, Ponged(x.data));
          net := n2;
          if !ok {
            return Err(WsError(WriteFailed));
          }
        } else if Parked(id, x) {
          messages := messages[x.envelope.value.id.value := x.data];
        }
      }
    }

    method QueryWithoutRetry(methodName: string, params: ParamWrapper, decodes: string -> bool) returns (r: Result<string, ClientError>)
      modifies this
      ensures (r, State()) == AutoClient.QueryWithoutRetry(Cfg(), old(State()), methodName, params, decodes)
    {
      var g := GetStream();
      if g.Err? {
        return Err(WsError(g.error));
      }
      var sent := Send(methodName, params);
      if sent.Err? {
        return Err(sent.error);
      }
      var resp := Recv(sent.value);
      if resp.Err? {
        return resp;
      }
      r := Decode(decodes, resp.value);
    }

    /** `query`, with the clock reading `now` used for the signature and the wrapper. */
    method Query(q: Call, now: int) returns (r: Result<string, ClientError>)
      modifies this
      decreases AutoClient.Weight(State()), 2
      ensures (r, State()) == AutoClient.Query(Cfg(), old(State()), q, now)
    {
      var param := Wrap(q.ty, recvWindow, ApiKey(), now, q.params);
      if stream.None? {
        var g := GetStream();
        if g.Err? {
          return Err(WsError(g.error));
        }
        if auth.Some? {
          var logon := Query(AutoClient.LogonCall(Cfg(), now), now);
          if logon.Err? {
            return logon;
          }
        }
      }
      ghost var entry := State();
      assert AutoClient.Query(Cfg(), old(State()), q, now) == AutoClient.Attempt(Cfg(), entry, q, now);
      assert Fuel(entry.net) <= Fuel(old(State()).net) && (old(stream).None? ==> Fuel(entry.net) < Fuel(old(State()).net));
      var sent := Send(q.methodName, param);
      if sent.Ok? {
        var resp := Recv(sent.value);
        if resp.Ok? {
          return Decode(q.decodes, resp.value);
        } else if resp.error.WsError? {
          r := Retry(q, param, now);
        } else {
          r := QueryWithoutRetry(q.methodName, param, q.decodes);
        }
      } else {
        r := Retry(q, param, now);
      }
    }

    /** The fallback `query` takes twice: drop the stream, log on again, send once more. */
    method Retry(q: Call, param: ParamWrapper, now: int) returns (r: Result<string, ClientError>)
      requires param == AutoClient.WrapCall(Cfg(), q, now)
      modifies this
      decreases 2 * Fuel(net) + 1, 0
      ensures (r, State()) == AutoClient.Retry(Cfg(), old(State()), q, now)
    {
      stream := None;
      if auth.Some? {
        var logon := Query(AutoClient.LogonCall(Cfg(), now), now);
        if logon.Err? {
          return logon;
        }
      }
      r := QueryWithoutRetry(q.methodName, param, q.decodes);
    }
  }
}
