/**
 * `AutoReconnectMarketClient` (src/realtime_market.rs): a market-stream
 * client that keeps the set of streams it is subscribed to, opens its
 * websocket lazily through the reconnecting connector, and after a failed
 * send or a failed read drops the connection and replays the whole
 * subscription set on a new one.
 *
 * The operations are functions from the client's state to a result and a
 * new state; the class in market_client_class.dfy runs them in place.
 */
module MarketClient {
  import opened Wrappers
  import opened Transport
  import opened Reconnect

  const SubscribeMethod: string := "SUBSCRIBE"
  const UnsubscribeMethod: string := "UNSUBSCRIBE"

  /**
   * A control frame: a `SUBSCRIBE` or `UNSUBSCRIBE` request listing the
   * streams it was given, in order, or the `SUBSCRIBE` request that
   * replays the whole subscription set (listed in a hash set's order,
   * which is not modelled).
   */
  datatype Control =
    | Control(methodName: string, params: seq<string>, id: nat)
    | Replay(streams: set<string>, id: nat)

  datatype Config = Config(maxRetries: nat)

  /**
   * The fields the client updates, with the connector's failure counter
   * and the environment its stream talks to.
   */
  datatype State = State(reqId: nat, tryTimes: nat, subscriptions: set<string>, stream: Option<Stream>, net: Net<Control>)

  /** `AutoReconnectMarketClient::new`: no request sent, no subscription, no stream. */
  function Initial(net: Net<Control>): (s: State)
    ensures s.reqId == 0 && s.tryTimes == 0 && s.subscriptions == {} && s.stream.None? && s.net == net
  {
    State(0, 0, {}, None, net)
  }

  /** `get_stream`: the open stream, or a new one from the connector. */
  function GetStream(c: Config, s: State): (r: (Result<Stream, WsError>, State))
    ensures s.stream.Some? ==> r == (Ok(s.stream.value), s)
    ensures r.0.Ok? ==> r.1.stream == Some(r.0.value)
    ensures r.0.Err? ==> r.1.stream.None? && r.1.net.log == s.net.log && r.0.error == ConnectionFailed(c.maxRetries)
    ensures s.stream.None? && r.0.Ok? ==> r.1.net.log == s.net.log + [Opened]
    ensures r.1.net.inbox == s.net.inbox && r.1.net.writes == s.net.writes
    ensures r.1.reqId == s.reqId && r.1.subscriptions == s.subscriptions
  {
    if s.stream.Some? then (Ok(s.stream.value), s)
    else
      var (res, tryTimes, n) := Acquire(c.maxRetries, s.tryTimes, s.net);
      (res, s.(tryTimes := tryTimes, net := n, stream := if res.Ok? then Some(res.value) else None))
  }

  /**
   * `sub_without_retried`: a fresh id, then one `SUBSCRIBE` of `streams`
   * on the (re)opened stream.  A failed write is reported and the stream
   * is kept.
   */
  function SubWithoutRetried(c: Config, s: State, streams: set<string>): (r: (Result<(), WsError>, State))
    ensures r.1.reqId == s.reqId + 1 && r.1.subscriptions == s.subscriptions
    ensures r.1.net.inbox == s.net.inbox
    ensures r.0.Ok? ==>
      (r.1.stream.Some? &&
       r.1.net.log == s.net.log + (if s.stream.None? then [Opened] else []) + [Sent(Replay(streams, s.reqId + 1))])
    ensures r.0.Err? ==> r.1.net.log == s.net.log + (if s.stream.None? && r.1.stream.Some? then [Opened] else [])
    ensures r.0.Err? ==> (r.0.error == WriteFailed && r.1.stream.Some?) || (r.0.error == ConnectionFailed(c.maxRetries) && r.1.stream.None?)
  {
    var s1 := s.(reqId := s.reqId + 1);
    var (g, s2) := GetStream(c, s1);
    if g.Err? then (Err(g.error), s2)
    else
      var (ok, n) := Write(s2.net, Sent(Replay(streams, s1.reqId)));
      (if ok then Ok(()) else Err(WriteFailed), s2.(net := n))
  }

  /**
   * What `subscribe` and `unsubscribe` share once they have taken a fresh
   * id and updated the subscription set to `subscriptions`: send the
   * request and, when the send fails, drop the stream and replay the
   * updated set on a new one.  A success means that either the request or
   * the replay of the updated set reached the peer.
   */
  function SendControl(c: Config, s: State, methodName: string, params: seq<string>, subscriptions: set<string>): (r: (Result<(), WsError>, State))
    ensures r.1.subscriptions == subscriptions && r.1.net.inbox == s.net.inbox
    ensures r.1.reqId == s.reqId + 1 || r.1.reqId == s.reqId + 2
    ensures r.0.Ok? ==>
      (r.1.stream.Some? && |r.1.net.log| > |s.net.log| &&
       (r.1.net.log[|r.1.net.log| - 1] == Sent(Control(methodName, params, s.reqId + 1)) ||
        r.1.net.log[|r.1.net.log| - 1] == Sent(Replay(subscriptions, s.reqId + 2))))
  {
    var s1 := s.(reqId := s.reqId + 1, subscriptions := subscriptions);
    var (g, s2) := GetStream(c, s1);
    if g.Err? then (Err(g.error), s2)
    else
      var (ok, n) := Write(s2.net, Sent(Control(methodName, params, s1.reqId)));
      if ok then (Ok(()), s2.(net := n))
      else SubWithoutRetried(c, s2.(net := n, stream := None), subscriptions)
  }

  /** `subscribe`: every given stream joins the subscription set, whatever the send does. */
  function Subscribe(c: Config, s: State, params: seq<string>): (r: (Result<(), WsError>, State))
    ensures r.1.subscriptions == s.subscriptions + set p | p in params
  {
    SendControl(c, s, SubscribeMethod, params, s.subscriptions + set p | p in params)
  }

  /** `unsubscribe`: every given stream leaves the subscription set, the others stay. */
  function Unsubscribe(c: Config, s: State, params: seq<string>): (r: (Result<(), WsError>, State))
    ensures r.1.subscriptions == s.subscriptions - set p | p in params
  {
    SendControl(c, s, UnsubscribeMethod, params, s.subscriptions - set p | p in params)
  }

  /**
   * `recv`: read until a text frame arrives and return its data.  A ping
   * is answered with a pong whose failure is ignored; other frames are
   * skipped; a failed read goes on in `Resubscribe`.
   */
  function Recv(c: Config, s: State): (r: (Result<string, WsError>, State))
    decreases |s.net.inbox|, 1
    ensures r.1.subscriptions == s.subscriptions && r.1.reqId >= s.reqId
    ensures r.0.Ok? ==> r.1.stream.Some?
  {
    var (g, s1) := GetStream(c, s);
    if g.Err? then (Err(g.error), s1)
    else
      var (f, n1) := Receive(s1.net);
      var s2 := s1.(net := n1);
      if f.None? then Resubscribe(c, s2)
      else
        match f.value
        case Ping(data) => Recv(c, s2.(net := Write(s2.net, Ponged(data)).1))
        case Text(data, _) => (Ok(data), s2)
        case Other(_) => Recv(c, s2)
  }

  /**
   * The branch of `recv` after a failed read: drop the stream, replay the
   * subscriptions on a new one and read one frame there.  Any error now
   * ends the call; a ping or another frame goes back to the loop.  After a
   * successful replay the stream is open, so the source's second
   * `get_stream` returns it unchanged.
   */
  function Resubscribe(c: Config, s: State): (r: (Result<string, WsError>, State))
    decreases |s.net.inbox|, 0
    ensures r.1.subscriptions == s.subscriptions && r.1.reqId > s.reqId
    ensures r.0.Ok? ==> r.1.stream.Some?
  {
    var (sub, s1) := SubWithoutRetried(c, s.(stream := None), s.subscriptions);
    if sub.Err? then (Err(sub.error), s1)
    else
      var (f, n1) := Receive(s1.net);
      var s2 := s1.(net := n1);
      if f.None? then (Err(ReadFailed), s2)
      else
        match f.value
        case Ping(data) => Recv(c, s2.(net := Write(s2.net, Ponged(data)).1))
        case Text(data, _) => (Ok(data), s2)
        case Other(_) => Recv(c, s2)
  }

  // ---------------------------------------------------------------------
  // Subscribing and unsubscribing
  // ---------------------------------------------------------------------

  /** On an open stream a successful send is all that happens: one request, one id. */
  lemma ControlOnOpenStream(c: Config, s: State, methodName: string, params: seq<string>, subscriptions: set<string>)
    requires s.stream.Some? && s.net.writes != [] && s.net.writes[0]
    ensures SendControl(c, s, methodName, params, subscriptions) ==
      (Ok(()), s.(reqId := s.reqId + 1, subscriptions := subscriptions,
                  net := s.net.(writes := s.net.writes[1..], log := s.net.log + [Sent(Control(methodName, params, s.reqId + 1))])))
  {
  }

  /**
   * A failed send drops the stream and replays the updated set with the
   * next id on a new connection; the original request is lost.  When the
   * connector succeeds at once and the next write goes through, the call
   * succeeds.
   */
  lemma FailedControlReplays(c: Config, s: State, methodName: string, params: seq<string>, subscriptions: set<string>)
    requires s.stream.Some? && s.net.writes != [] && !s.net.writes[0]
    ensures var r := SendControl(c, s, methodName, params, subscriptions);
      r.1.reqId == s.reqId + 2 &&
      (r.0.Ok? ==> r.1.net.log == s.net.log + [Opened, Sent(Replay(subscriptions, s.reqId + 2))] && r.1.stream == Some(Stream(|s.net.log|))) &&
      (r.0.Err? ==> r.0.error == WriteFailed || r.0.error == ConnectionFailed(c.maxRetries))
    ensures s.tryTimes < c.maxRetries && s.net.dials != [] && s.net.dials[0] && |s.net.writes| >= 2 && s.net.writes[1] ==>
      SendControl(c, s, methodName, params, subscriptions).0.Ok?
  {
    var s1 := s.(reqId := s.reqId + 1, subscriptions := subscriptions);
    var (ok, n) := Write(s1.net, Sent(Control(methodName, params, s1.reqId)));
    assert !ok;
    var s2 := s1.(net := n, stream := None);
    assert SendControl(c, s, methodName, params, subscriptions) == SubWithoutRetried(c, s2, subscriptions);
  }

  /**
   * After a failed `subscribe` send, a successful call has put exactly a
   * new connection and one replay on the wire, and the replay carries the
   * old subscriptions and every stream the call named.
   */
  lemma SubscribeReplayCarriesParams(c: Config, s: State, params: seq<string>)
    requires s.stream.Some? && s.net.writes != [] && !s.net.writes[0]
    ensures var r := Subscribe(c, s, params);
      r.0.Ok? ==>
        (|r.1.net.log| == |s.net.log| + 2 && r.1.net.log[..|s.net.log|] == s.net.log &&
         r.1.net.log[|s.net.log|] == Opened &&
         var m := r.1.net.log[|s.net.log| + 1].msg;
         r.1.net.log[|s.net.log| + 1].Sent? && m.Replay? && m.id == s.reqId + 2 &&
         s.subscriptions <= m.streams && forall p :: p in params ==> p in m.streams)
  {
    var streams := s.subscriptions + set p | p in params;
    FailedControlReplays(c, s, SubscribeMethod, params, streams);
  }

  /**
   * After a failed `unsubscribe` send, a successful call has put exactly
   * a new connection and one replay on the wire, and the replay carries
   * none of the streams the call named and nothing new.
   */
  lemma UnsubscribeReplayDropsParams(c: Config, s: State, params: seq<string>)
    requires s.stream.Some? && s.net.writes != [] && !s.net.writes[0]
    ensures var r := Unsubscribe(c, s, params);
      r.0.Ok? ==>
        (|r.1.net.log| == |s.net.log| + 2 && r.1.net.log[..|s.net.log|] == s.net.log &&
         r.1.net.log[|s.net.log|] == Opened &&
         var m := r.1.net.log[|s.net.log| + 1].msg;
         r.1.net.log[|s.net.log| + 1].Sent? && m.Replay? && m.id == s.reqId + 2 &&
         m.streams <= s.subscriptions && forall p :: p in params ==> p !in m.streams)
  {
    var streams := s.subscriptions - set p | p in params;
    FailedControlReplays(c, s, UnsubscribeMethod, params, streams);
  }

  // ---------------------------------------------------------------------
  // Receiving
  // ---------------------------------------------------------------------

  /** A text frame carrying `data` is among `frames`. */
  ghost predicate TextAmong(frames: seq<Read>, data: string) {
    exists k :: 0 <= k < |frames| && frames[k].Got? && frames[k].frame.Text? && frames[k].frame.data == data
  }

  lemma TextAmongTail(frames: seq<Read>, data: string)
    requires frames != [] && TextAmong(frames[1..], data)
    ensures TextAmong(frames, data)
  {
    var k :| 0 <= k < |frames[1..]| && frames[1..][k].Got? && frames[1..][k].frame.Text? && frames[1..][k].frame.data == data;
    assert frames[k + 1] == frames[1..][k];
  }

  /** What `recv` returns is the data of a text frame the peer sent. */
  lemma {:induction false} RecvReturnsText(c: Config, s: State)
    decreases |s.net.inbox|, 1
    ensures var r := Recv(c, s); r.0.Ok? ==> TextAmong(s.net.inbox, r.0.value)
  {
    var (g, s1) := GetStream(c, s);
    var r := Recv(c, s);
    if g.Ok? && r.0.Ok? {
      var (f, n1) := Receive(s1.net);
      var s2 := s1.(net := n1);
      if f.None? {
        ResubscribeReturnsText(c, s2);
        TextAmongTail(s.net.inbox, r.0.value);
      } else {
        match f.value
        case Ping(data) =>
          RecvReturnsText(c, s2.(net := Write(s2.net, Ponged(data)).1));
          TextAmongTail(s.net.inbox, r.0.value);
        case Text(data, _) =>
          assert s.net.inbox[0].frame.data == data;
        case Other(_) =>
          RecvReturnsText(c, s2);
          TextAmongTail(s.net.inbox, r.0.value);
      }
    }
  }

  lemma {:induction false} ResubscribeReturnsText(c: Config, s: State)
    decreases |s.net.inbox|, 0
    ensures var r := Resubscribe(c, s); r.0.Ok? ==> TextAmong(s.net.inbox, r.0.value)
  {
    var (sub, s1) := SubWithoutRetried(c, s.(stream := None), s.subscriptions);
    var r := Resubscribe(c, s);
    if sub.Ok? && r.0.Ok? {
      var (f, n1) := Receive(s1.net);
      var s2 := s1.(net := n1);
      match f.value
      case Ping(data) =>
        RecvReturnsText(c, s2.(net := Write(s2.net, Ponged(data)).1));
        TextAmongTail(s.net.inbox, r.0.value);
      case Text(data, _) =>
        assert s.net.inbox[0].frame.data == data;
      case Other(_) =>
        RecvReturnsText(c, s2);
        TextAmongTail(s.net.inbox, r.0.value);
    }
  }

  /** An event `recv` may cause on the wire: a new connection, a pong, a replay of `streams`. */
  ghost predicate Upkeep(e: Event<Control>, streams: set<string>) {
    e.Opened? || e.Ponged? || e == Sent(Replay(streams, e.msg.id))
  }

  /** `log'` is `log` followed by upkeep events only. */
  ghost predicate OnlyUpkeep(log: seq<Event<Control>>, log': seq<Event<Control>>, streams: set<string>) {
    |log| <= |log'| && log'[..|log|] == log &&
    forall k :: |log| <= k < |log'| ==> Upkeep(log'[k], streams)
  }

  lemma UpkeepAppended(log: seq<Event<Control>>, extra: seq<Event<Control>>, log': seq<Event<Control>>, streams: set<string>)
    requires OnlyUpkeep(log + extra, log', streams)
    requires forall k :: 0 <= k < |extra| ==> Upkeep(extra[k], streams)
    ensures OnlyUpkeep(log, log', streams)
  {
    assert log'[..|log|] == (log + extra)[..|log|];
    forall k | |log| <= k < |log'|
      ensures Upkeep(log'[k], streams)
    {
      if k < |log + extra| {
        assert log'[k] == (log + extra)[k] == extra[k - |log|];
      }
    }
  }

  /** A pong, sent or not, followed by upkeep, is upkeep. */
  lemma PongThenUpkeep(n: Net<Control>, data: string, log': seq<Event<Control>>, streams: set<string>)
    requires OnlyUpkeep(Write(n, Ponged(data)).1.log, log', streams)
    ensures OnlyUpkeep(n.log, log', streams)
  {
    if Write(n, Ponged(data)).0 {
      UpkeepAppended(n.log, [Ponged(data)], log', streams);
    } else {
      assert n.log + [] == n.log;
      UpkeepAppended(n.log, [], log', streams);
    }
  }

  /**
   * `recv` puts nothing on the wire but new connections, pongs and
   * replays of the subscription set (which it leaves as it was): it never
   * subscribes to anything new and never sends a request of its own.
   */
  lemma {:induction false} RecvOnlyUpkeep(c: Config, s: State)
    decreases |s.net.inbox|, 1
    ensures OnlyUpkeep(s.net.log, Recv(c, s).1.net.log, s.subscriptions)
  {
    var subs := s.subscriptions;
    var (g, s1) := GetStream(c, s);
    var r := Recv(c, s);
    var newConn := if s.stream.None? && g.Ok? then [Opened] else [];
    assert s1.net.log == s.net.log + newConn;
    if g.Ok? {
      var (f, n1) := Receive(s1.net);
      var s2 := s1.(net := n1);
      if f.None? {
        ResubscribeOnlyUpkeep(c, s2);
      } else {
        match f.value
        case Ping(data) =>
          RecvOnlyUpkeep(c, s2.(net := Write(s2.net, Ponged(data)).1));
          PongThenUpkeep(s2.net, data, r.1.net.log, subs);
        case Text(data, _) =>
        case Other(_) =>
          RecvOnlyUpkeep(c, s2);
      }
    }
    UpkeepAppended(s.net.log, newConn, r.1.net.log, subs);
  }

  lemma {:induction false} ResubscribeOnlyUpkeep(c: Config, s: State)
    decreases |s.net.inbox|, 0
    ensures OnlyUpkeep(s.net.log, Resubscribe(c, s).1.net.log, s.subscriptions)
  {
    var subs := s.subscriptions;
    var (sub, s1) := SubWithoutRetried(c, s.(stream := None), subs);
    var r := Resubscribe(c, s);
    var added := s1.net.log[|s.net.log|..];
    assert s1.net.log == s.net.log + added;
    assert forall k :: 0 <= k < |added| ==> Upkeep(added[k], subs);
    if sub.Ok? {
      var (f, n1) := Receive(s1.net);
      var s2 := s1.(net := n1);
      if f.Some? {
        match f.value
        case Ping(data) =>
          RecvOnlyUpkeep(c, s2.(net := Write(s2.net, Ponged(data)).1));
          PongThenUpkeep(s2.net, data, r.1.net.log, subs);
        case Text(data, _) =>
        case Other(_) =>
          RecvOnlyUpkeep(c, s2);
      }
    }
    UpkeepAppended(s.net.log, added, r.1.net.log, subs);
  }

  /**
   * On an open stream, pings and other frames are skipped up to the first
   * text frame, whose data is returned, whatever becomes of the pongs;
   * nothing but pongs reaches the peer and no id is used.
   */
  lemma {:induction false} RecvSkipsToText(c: Config, s: State, k: nat, data: string, e: Option<Envelope>)
    requires s.stream.Some? && k < |s.net.inbox| && s.net.inbox[k] == Got(Text(data, e))
    requires forall j :: 0 <= j < k ==> s.net.inbox[j].Got? && !s.net.inbox[j].frame.Text?
    decreases k
    ensures var r := Recv(c, s);
      r.0 == Ok(data) && r.1.stream == s.stream && r.1.reqId == s.reqId && r.1.tryTimes == s.tryTimes &&
      r.1.net.inbox == s.net.inbox[k + 1..] && OnlyPongsAdded(s.net.log, r.1.net.log)
  {
    var n1 := Receive(s.net).1;
    var s2 := s.(net := n1);
    if k > 0 {
      var s3 := if s.net.inbox[0].frame.Ping? then s2.(net := Write(s2.net, Ponged(s.net.inbox[0].frame.data)).1) else s2;
      assert Recv(c, s) == Recv(c, s3);
      assert s3.net.inbox == s.net.inbox[1..];
      assert s3.net.inbox[1..][k - 1..] == s.net.inbox[k + 1..];
      RecvSkipsToText(c, s3, k - 1, data, e);
      assert OnlyPongsAdded(s.net.log, s3.net.log);
      OnlyPongsAddedTransitive(s.net.log, s3.net.log, Recv(c, s).1.net.log);
    }
  }

  /**
   * A broken read on an open stream: the client reconnects, replays its
   * subscriptions with the next id and returns the text frame read next.
   */
  lemma RecvAfterBrokenRead(c: Config, s: State, data: string, e: Option<Envelope>)
    requires s.stream.Some? && |s.net.inbox| >= 2 && s.net.inbox[0] == Broken && s.net.inbox[1] == Got(Text(data, e))
    requires s.tryTimes < c.maxRetries && s.net.dials != [] && s.net.dials[0]
    requires s.net.writes != [] && s.net.writes[0]
    ensures var r := Recv(c, s);
      r.0 == Ok(data) && r.1.reqId == s.reqId + 1 && r.1.stream == Some(Stream(|s.net.log|)) &&
      r.1.net.log == s.net.log + [Opened, Sent(Replay(s.subscriptions, s.reqId + 1))] &&
      r.1.net.inbox == s.net.inbox[2..]
  {
  }

  /**
   * Unlike the reads of the loop, what goes wrong after a broken read ends
   * the call: a connector out of attempts, a failed replay, a second
   * failed read.
   */
  lemma RecvAfterBrokenReadFails(c: Config, s: State)
    requires s.stream.Some? && s.net.inbox != [] && s.net.inbox[0] == Broken
    ensures var r := Recv(c, s);
      (s.tryTimes >= c.maxRetries ==> r.0 == Err(ConnectionFailed(c.maxRetries)) && r.1.stream.None? && r.1.net.log == s.net.log)
    ensures var r := Recv(c, s);
      (s.tryTimes < c.maxRetries && s.net.dials != [] && s.net.dials[0] && (s.net.writes == [] || !s.net.writes[0]) ==>
        r.0 == Err(WriteFailed) && r.1.stream == Some(Stream(|s.net.log|)) && r.1.net.log == s.net.log + [Opened])
    ensures var r := Recv(c, s);
      (s.tryTimes < c.maxRetries && s.net.dials != [] && s.net.dials[0] && s.net.writes != [] && s.net.writes[0] &&
       (|s.net.inbox| == 1 || s.net.inbox[1] == Broken) ==>
        r.0 == Err(ReadFailed) && r.1.net.log == s.net.log + [Opened, Sent(Replay(s.subscriptions, s.reqId + 1))])
  {
  }
}
