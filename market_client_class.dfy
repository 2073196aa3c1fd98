/**
 * `AutoReconnectMarketClient` as the object the source declares: its
 * counter, subscription set and stream are updated in place, and each
 * method is proved to do what the function of the same name in
 * `MarketClient` says.  The connector closure's captured failure counter
 * is the field `tryTimes`; the websocket and the peer behind it are the
 * scripted environment `net`.
 */
module MarketObject {
  import opened Wrappers
  import opened Transport
  import opened Reconnect
  import opened MarketClient

  class AutoReconnectMarketClient {
    var reqId: nat
    const maxRetries: nat
    var tryTimes: nat
    var subscriptions: set<string>
    var stream: Option<Stream>
    var net: Net<Control>

    function Cfg(): Config {
      Config(maxRetries)
    }

    ghost function State(): MarketClient.State
      reads this
    {
      MarketClient.State(reqId, tryTimes, subscriptions, stream, net)
    }

    /** `AutoReconnectMarketClient::new`: no request sent, no subscription, no stream yet. */
    constructor (maxRetries: nat, net: Net<Control>)
      ensures Cfg() == Config(maxRetries)
      ensures State() == Initial(net)
    {
      this.reqId := 0;
      this.maxRetries := maxRetries;
      this.tryTimes := 0;
      this.subscriptions := {};
      this.stream := None;
      this.net := net;
    }

    method GetStream() returns (r: Result<Stream, WsError>)
      modifies this
      ensures (r, State()) == MarketClient.GetStream(Cfg(), old(State()))
    {
      if stream.None? {
        var t, n;
        r, t, n := Connect(maxRetries, tryTimes, net);
        tryTimes, net := t, n;
        if r.Ok? {
          stream := Some(r.value);
        }
        return;
      }
      r := Ok(stream.value);
    }

    method SubWithoutRetried(streams: set<string>) returns (r: Result<(), WsError>)
      modifies this
      ensures (r, State()) == MarketClient.SubWithoutRetried(Cfg(), old(State()), streams)
    {
      reqId := reqId + 1;
      var id := reqId;
      var g := GetStream();
      if g.Err? {
        return Err(g.error);
      }
      var (ok, n) := Write(net, Sent(Replay(streams, id)));
      net := n;
      r := if ok then Ok(()) else Err(WriteFailed);
    }

    method Subscribe(params: seq<string>) returns (r: Result<(), WsError>)
      modifies this
      ensures (r, State()) == MarketClient.Subscribe(Cfg(), old(State()), params)
    {
      reqId := reqId + 1;
      var id := reqId;
      subscriptions := subscriptions + set p | p in params;
      var g := GetStream();
      if g.Err? {
        return Err(g.error);
      }
      var (ok, n) := Write(net, Sent(Control(SubscribeMethod, params, id)));
      net := n;
      if ok {
        return Ok(());
      }
      stream := None;
      r := SubWithoutRetried(subscriptions);
    }

    /** `unsubscribe`, removing the given streams one at a time as the source does. */
    method Unsubscribe(params: seq<string>) returns (r: Result<(), WsError>)
      modifies this
      ensures (r, State()) == MarketClient.Unsubscribe(Cfg(), old(State()), params)
    {
      reqId := reqId + 1;
      var id := reqId;
      for j := 0 to |params|
        invariant subscriptions == old(subscriptions) - set p | p in params[..j]
        invariant reqId == old(reqId) + 1 && tryTimes == old(tryTimes) && stream == old(stream) && net == old(net)
      {
        assert params[..j + 1] == params[..j] + [params[j]];
        subscriptions := subscriptions - {params[j]};
      }
      assert params[..|params|] == params;
      var g := GetStream();
      if g.Err? {
        return Err(g.error);
      }
      var (ok, n) := Write(net, Sent(Control(UnsubscribeMethod, params, id)));
      net := n;
      if ok {
        return Ok(());
      }
      stream := None;
      r := SubWithoutRetried(subscriptions);
    }

    /**
     * `recv`.  The stream is open whenever the source calls `get_stream`
     * again inside the loop (for a pong, and after a successful replay),
     * so those calls return it unchanged and are not repeated here.
     */
    method Recv() returns (r: Result<string, WsError>)
      modifies this
      ensures (r, State()) == MarketClient.Recv(Cfg(), old(State()))
    {
      while true
        invariant MarketClient.Recv(Cfg(), State()) == MarketClient.Recv(Cfg(), old(State()))
        decreases |net.inbox|
      {
        var g := GetStream();
        if g.Err? {
          return Err(g.error);
        }
        var (f, n1) := Receive(net);
        net := n1;
        match f {
          case Some(Ping(data)) =>
            var (_, n2) := Write(net, Ponged(data));
            net := n2;
          case Some(Text(data, _)) =>
            return Ok(data);
          case Some(Other(_)) =>
          case None =>
            stream := None;
            var sub := SubWithoutRetried(subscriptions);
            if sub.Err? {
              return Err(sub.error);
            }
            var (f2, n3) := Receive(net);
            net := n3;
            match f2 {
              case None =>
                return Err(ReadFailed);
              case Some(Ping(data)) =>
                var (_, n4) := Write(net, Ponged(data));
                net := n4;
              case Some(Text(data, _)) =>
                return Ok(data);
              case Some(Other(_)) =>
            }
        }
      }
    }
  }
}
