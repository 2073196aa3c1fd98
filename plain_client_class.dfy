/**
 * `Client` as the object the source declares: its counter and its buffer
 * of parked responses are updated in place, and each method is proved to
 * do what the function of the same name in `PlainClient` says.  The
 * connection and the peer behind it are the scripted environment `net`.
 */
module ClientObject {
  import opened Wrappers
  import opened Transport
  import opened Api
  import opened PlainClient

  class Client {
    var reqId: nat
    const apiKey: string
    const recvWindow: int
    var messages: map<nat, string>
    var net: Net<Request>

    function Cfg(): Config {
      Config(apiKey, recvWindow)
    }

    ghost function State(): PlainClient.State
      reads this
    {
      PlainClient.State(reqId, messages, net)
    }

    /** `Client::conn` once the connection is up: no request sent, nothing parked, an empty API key. */
    constructor (recvWindow: int, net: Net<Request>)
      ensures Cfg() == Config("", recvWindow)
      ensures State() == PlainClient.State(0, map[], net)
    {
      this.reqId := 0;
      this.apiKey := "";
      this.recvWindow := recvWindow;
      this.messages := map[];
      this.net := net;
    }

    method Send(methodName: string, params: ParamWrapper) returns (r: Result<nat, ClientError>)
      modifies this
      ensures (r, State()) == PlainClient.Send(old(State()), methodName, params)
    {
      reqId := reqId + 1;
      var (ok, n) := Write(net, Sent(Request(reqId, methodName, params)));
      net := n;
      if !ok {
        return Err(WsError(WriteFailed));
      }
      r := Ok(reqId);
    }

    method Recv(id: nat) returns (r: Result<string, ClientError>)
      modifies this
      ensures (r, State()) == PlainClient.Recv(old(State()), id)
    {
      if id in messages {
        r := Ok(messages[id]);
        messages := messages - {id};
        return;
      }
      ghost var target := RecvLoop(id, messages, net);
      while true
        invariant RecvLoop(id, messages, net) == target
        invariant PlainClient.Recv(old(State()), id) == (target.0, State().(messages := target.1, net := target.2))
        decreases |net.inbox|
      {
        var (f, n1) := Receive(net);
        net := n1;
        if f.None? {
          return Err(WsError(ReadFailed));
        }
        var x := f.value;
        var v := Verdict(id, x);
        if v.Some? {
          return v.value;
        }
        if x.Ping? {
          var (ok, n2) := Write(net, Ponged(x.data));
          net := n2;
          if !ok {
            return Err(WsError(WriteFailed));
          }
        } else if Parked(id, x) {
          messages := messages[x.envelope.value.id.value := x.data];
        }
      }
    }

    /** `Client::query`, with the clock reading `now` used by `wrap`. */
    method Query(q: Call, now: int) returns (r: Result<string, ClientError>)
      modifies this
      ensures (r, State()) == PlainClient.Query(Cfg(), old(State()), q, now)
    {
      var param := WrapFor(Cfg(), q.ty, q.params, now);
      var sent := Send(q.methodName, param);
      if sent.Err? {
        return Err(sent.error);
      }
      var resp := Recv(sent.value);
      if resp.Err? {
        return resp;
      }
      r := Decode(q.decodes, resp.value);
    }

    /** The inner loop of `batch_query`: the responses to `ids` in turn, decoded and appended to `results`. */
    method Collect(ids: seq<nat>, decodes: string -> bool, results: seq<string>) returns (r: Result<seq<string>, ClientError>)
      modifies this
      ensures (r, State()) == PlainClient.Collect(old(State()), ids, decodes, results)
    {
      var acc := results;
      for j := 0 to |ids|
        invariant PlainClient.Collect(State(), ids[j..], decodes, acc) == PlainClient.Collect(old(State()), ids, decodes, results)
      {
        var resp := Recv(ids[j]);
        if resp.Err? {
          return Err(resp.error);
        }
        var d := Decode(decodes, resp.value);
        if d.Err? {
          return Err(d.error);
        }
        acc := acc + [d.value];
        assert ids[j..][1..] == ids[j + 1..];
      }
      r := Ok(acc);
    }

    /**
     * `batch_query`: sends the queries one by one and, after query `idx`
     * with `idx` a non-zero multiple of `b` and after the last one,
     * receives the responses to the requests sent since the last time.
     */
    method BatchQuery(b: nat, k: Kind, params: seq<Params>, nows: seq<int>) returns (r: Result<seq<string>, ClientError>)
      requires |nows| == |params| && (b > 0 || |params| <= 1)
      modifies this
      ensures (r, State()) == PlainClient.BatchQuery(Cfg(), old(State()), b, k, params, nows)
    {
      ghost var target := PlainClient.BatchQuery(Cfg(), State(), b, k, params, nows);
      var reqIds: seq<nat> := [];
      var results: seq<string> := [];
      var total := |params|;
      for idx := 0 to total
        invariant idx < total ==> |reqIds| == PendingCount(idx, b)
        invariant idx == total ==> reqIds == []
        invariant Batch(Cfg(), State(), b, k, params, nows, idx, reqIds, results) == target
      {
        var sent := Send(k.methodName, WrapFor(Cfg(), k.ty, params[idx], nows[idx]));
        if sent.Err? {
          return Err(sent.error);
        }
        reqIds := reqIds + [sent.value];
        PendingAfterSend(idx, total, b);
        if idx != 0 {
          RemIsMod(idx, b);
        }
        if (idx != 0 && idx % b == 0) || idx + 1 == total {
          var got := Collect(reqIds, k.decodes, results);
          if got.Err? {
            return Err(got.error);
          }
          results, reqIds := got.value, [];
        }
      }
      r := Ok(results);
    }
  }
}
