/**
 * What `AutoReconnectClient::query` guarantees about the frames it puts on
 * the wire, whatever the connector, the writes and the reads do:
 *
 * - request ids are strictly increasing across every connection, and never
 *   above the client's counter;
 * - with credentials, no request other than a logon goes out on a
 *   connection before a logon has gone out on it;
 * - a query's own request is sent at most twice (once, and once more after
 *   a reconnection or a failed response), whatever the nested logons do.
 *
 * Each is proved for `query` together with its fallbacks, by the same
 * recursion the functions follow.
 */
module AutoClientProps {
  import opened Wrappers
  import opened Transport
  import opened Reconnect
  import opened Session
  import opened Api
  import opened AutoClient

  // ---------------------------------------------------------------------
  // Request ids

  predicate IdsOk(s: State) {
    IdsIncreasing(s.net.log) && MaxSentId(s.net.log) <= s.reqId
  }

  lemma GetStreamIds(c: Config, s: State)
    requires IdsOk(s)
    ensures IdsOk(GetStream(c, s).1)
  {
    if s.stream.None? && GetStream(c, s).0.Ok? {
      AppendOne(s.net.log, Opened);
    }
  }

  lemma SendIds(c: Config, s: State, methodName: string, params: ParamWrapper)
    requires IdsOk(s)
    ensures IdsOk(Send(c, s, methodName, params).1)
  {
    var r := Send(c, s, methodName, params);
    var mid := s.net.log + if s.stream.None? && r.1.stream.Some? then [Opened] else [];
    if s.stream.None? && r.1.stream.Some? {
      AppendOne(s.net.log, Opened);
    }
    if r.0.Ok? {
      AppendOne(mid, Sent(Request(s.reqId + 1, methodName, params)));
    }
  }

  lemma RecvIds(c: Config, s: State, id: nat)
    requires IdsOk(s)
    ensures IdsOk(Recv(c, s, id).1)
  {
    if id !in s.messages {
      GetStreamIds(c, s);
      var (g, s1) := GetStream(c, s);
      if g.Ok? {
        PongsKeepRequests(s1.net.log, RecvLoop(id, s1.messages, s1.net).2.log);
      }
    }
  }

  lemma QueryWithoutRetryIds(c: Config, s: State, methodName: string, params: ParamWrapper, decodes: string -> bool)
    requires IdsOk(s)
    ensures IdsOk(QueryWithoutRetry(c, s, methodName, params, decodes).1)
  {
    GetStreamIds(c, s);
    var (g, s1) := GetStream(c, s);
    if g.Ok? {
      SendIds(c, s1, methodName, params);
      var (sent, s2) := Send(c, s1, methodName, params);
      if sent.Ok? {
        RecvIds(c, s2, sent.value);
      }
    }
  }

  /** `query` keeps request ids strictly increasing and within the counter. */
  lemma {:induction false} QueryIds(c: Config, s: State, q: Call, now: int)
    requires IdsOk(s)
    ensures IdsOk(Query(c, s, q, now).1)
    decreases Weight(s), 2
  {
    if s.stream.Some? {
      AttemptIds(c, s, q, now);
    } else {
      GetStreamIds(c, s);
      var (g, s0) := GetStream(c, s);
      if g.Ok? {
        if c.auth.None? {
          AttemptIds(c, s0, q, now);
        } else {
          QueryIds(c, s0, LogonCall(c, now), now);
          var (logon, s1) := Query(c, s0, LogonCall(c, now), now);
          if logon.Ok? {
            AttemptIds(c, s1, q, now);
          }
        }
      }
    }
  }

  lemma {:induction false} AttemptIds(c: Config, s: State, q: Call, now: int)
    requires IdsOk(s)
    ensures IdsOk(Attempt(c, s, q, now).1)
    decreases 2 * Fuel(s.net) + 1, 1
  {
    var param := WrapCall(c, q, now);
    SendIds(c, s, q.methodName, param);
    var (sent, s2) := Send(c, s, q.methodName, param);
    if sent.Err? {
      RetryIds(c, s2, q, now);
    } else {
      RecvIds(c, s2, sent.value);
      var (resp, s3) := Recv(c, s2, sent.value);
      if resp.Err? && resp.error.WsError? {
        RetryIds(c, s3, q, now);
      } else if resp.Err? {
        QueryWithoutRetryIds(c, s3, q.methodName, param, q.decodes);
      }
    }
  }

  lemma {:induction false} RetryIds(c: Config, s: State, q: Call, now: int)
    requires IdsOk(s)
    ensures IdsOk(Retry(c, s, q, now).1)
    decreases 2 * Fuel(s.net) + 1, 0
  {
    var s1 := s.(stream := None);
    var param := WrapCall(c, q, now);
    if c.auth.None? {
      QueryWithoutRetryIds(c, s1, q.methodName, param, q.decodes);
    } else {
      QueryIds(c, s1, LogonCall(c, now), now);
      var (logon, s2) := Query(c, s1, LogonCall(c, now), now);
      if logon.Ok? {
        QueryWithoutRetryIds(c, s2, q.methodName, param, q.decodes);
      }
    }
  }

  /** Over any run of queries from a new client, the ids on the wire increase strictly. */
  lemma QueriesNumberRequestsInOrder(c: Config, s: State, q: Call, now: int)
    requires IdsOk(s)
    ensures var log := Query(c, s, q, now).1.net.log;
      forall i, j :: 0 <= i < j < |log| && log[i].Sent? && log[j].Sent? ==> log[i].msg.id < log[j].msg.id
  {
    QueryIds(c, s, q, now);
    IdsIncreasingOrdered(Query(c, s, q, now).1.net.log);
  }

  // ---------------------------------------------------------------------
  // The logon guard

  predicate IsLogonRequest(m: Request) {
    m.params.other.LogonParams?
  }

  /** A logon has been sent since the last connection was opened. */
  predicate LogonSinceOpen(log: seq<Event<Request>>)
    decreases |log|
  {
    log != [] &&
    var e := log[|log| - 1];
    !e.Opened? && ((e.Sent? && IsLogonRequest(e.msg)) || LogonSinceOpen(log[..|log| - 1]))
  }

  /** Every request other than a logon follows a logon on the same connection. */
  predicate Guarded(log: seq<Event<Request>>)
    decreases |log|
  {
    log == [] ||
    (Guarded(log[..|log| - 1]) &&
     (log[|log| - 1].Sent? && !IsLogonRequest(log[|log| - 1].msg) ==> LogonSinceOpen(log[..|log| - 1])))
  }

  /** With credentials, an open stream has carried a logon. */
  predicate Ready(c: Config, s: State) {
    c.auth.Some? && s.stream.Some? ==> LogonSinceOpen(s.net.log)
  }

  lemma GuardAppend(log: seq<Event<Request>>, e: Event<Request>)
    ensures LogonSinceOpen(log + [e]) == (!e.Opened? && ((e.Sent? && IsLogonRequest(e.msg)) || LogonSinceOpen(log)))
    ensures Guarded(log + [e]) == (Guarded(log) && (e.Sent? && !IsLogonRequest(e.msg) ==> LogonSinceOpen(log)))
  {
    AppendOne(log, e);
  }

  lemma {:induction false} PongsKeepGuard(log: seq<Event<Request>>, log': seq<Event<Request>>)
    requires OnlyPongsAdded(log, log')
    ensures LogonSinceOpen(log') == LogonSinceOpen(log)
    ensures Guarded(log') == Guarded(log)
    decreases |log'|
  {
    if |log'| > |log| {
      var prefix := log'[..|log'| - 1];
      assert prefix[..|log|] == log;
      PongsKeepGuard(log, prefix);
      GuardAppend(prefix, log'[|log'| - 1]);
      assert prefix + [log'[|log'| - 1]] == log';
    } else {
      assert log' == log;
    }
  }

  /** `Guarded` means what it says: each non-logon request follows a logon since the last opening. */
  lemma {:induction false} GuardedMeaning(log: seq<Event<Request>>)
    ensures Guarded(log) <==>
      forall j :: 0 <= j < |log| && log[j].Sent? && !IsLogonRequest(log[j].msg) ==> LogonSinceOpen(log[..j])
    decreases |log|
  {
    if log != [] {
      var prefix := log[..|log| - 1];
      GuardedMeaning(prefix);
      forall j | 0 <= j < |prefix|
        ensures log[j] == prefix[j] && log[..j] == prefix[..j]
      {
      }
    }
  }

  lemma SendGuard(c: Config, s: State, methodName: string, params: ParamWrapper)
    requires Guarded(s.net.log) && s.stream.Some?
    requires params.other.LogonParams? || LogonSinceOpen(s.net.log)
    ensures var r := Send(c, s, methodName, params);
      Guarded(r.1.net.log) && r.1.stream == s.stream &&
      (LogonSinceOpen(s.net.log) || (r.0.Ok? && params.other.LogonParams?) ==> LogonSinceOpen(r.1.net.log))
  {
    var r := Send(c, s, methodName, params);
    if r.0.Ok? {
      GuardAppend(s.net.log, Sent(Request(s.reqId + 1, methodName, params)));
      assert s.net.log + [] == s.net.log;
    } else {
      assert r.1.net.log == s.net.log + [] + [];
    }
  }

  lemma RecvGuard(c: Config, s: State, id: nat)
    requires s.stream.Some?
    ensures var r := Recv(c, s, id);
      r.1.stream == s.stream && LogonSinceOpen(r.1.net.log) == LogonSinceOpen(s.net.log) && Guarded(r.1.net.log) == Guarded(s.net.log)
  {
    PongsKeepGuard(s.net.log, Recv(c, s, id).1.net.log);
  }

  lemma QueryWithoutRetryGuard(c: Config, s: State, methodName: string, params: ParamWrapper, decodes: string -> bool)
    requires Guarded(s.net.log) && s.stream.Some? && LogonSinceOpen(s.net.log)
    ensures var r := QueryWithoutRetry(c, s, methodName, params, decodes);
      Guarded(r.1.net.log) && Ready(c, r.1)
  {
    SendGuard(c, s, methodName, params);
    var (sent, s2) := Send(c, s, methodName, params);
    if sent.Ok? {
      RecvGuard(c, s2, sent.value);
    }
  }

  /**
   * With credentials, `query` never sends a request other than a logon on
   * a connection that has not carried a logon, and leaves an open stream
   * logged on.  The logon query itself may start on a fresh connection.
   */
  lemma {:induction false} QueryGuard(c: Config, s: State, q: Call, now: int)
    requires c.auth.Some? && Guarded(s.net.log)
    requires q.params.LogonParams? || Ready(c, s)
    ensures Guarded(Query(c, s, q, now).1.net.log) && Ready(c, Query(c, s, q, now).1)
    decreases Weight(s), 2
  {
    if s.stream.Some? {
      AttemptGuard(c, s, q, now);
    } else {
      var (g, s0) := GetStream(c, s);
      if g.Ok? {
        GuardAppend(s.net.log, Opened);
        QueryGuard(c, s0, LogonCall(c, now), now);
        var (logon, s1) := Query(c, s0, LogonCall(c, now), now);
        if logon.Ok? {
          AttemptGuard(c, s1, q, now);
        }
      }
    }
  }

  lemma {:induction false} AttemptGuard(c: Config, s: State, q: Call, now: int)
    requires c.auth.Some? && Guarded(s.net.log) && s.stream.Some?
    requires q.params.LogonParams? || LogonSinceOpen(s.net.log)
    ensures Guarded(Attempt(c, s, q, now).1.net.log) && Ready(c, Attempt(c, s, q, now).1)
    decreases 2 * Fuel(s.net) + 1, 1
  {
    var param := WrapCall(c, q, now);
    SendGuard(c, s, q.methodName, param);
    var (sent, s2) := Send(c, s, q.methodName, param);
    if sent.Err? {
      RetryGuard(c, s2, q, now);
    } else {
      RecvGuard(c, s2, sent.value);
      var (resp, s3) := Recv(c, s2, sent.value);
      if resp.Err? && resp.error.WsError? {
        RetryGuard(c, s3, q, now);
      } else if resp.Err? {
        QueryWithoutRetryGuard(c, s3, q.methodName, param, q.decodes);
      }
    }
  }

  lemma {:induction false} RetryGuard(c: Config, s: State, q: Call, now: int)
    requires c.auth.Some? && Guarded(s.net.log)
    ensures Guarded(Retry(c, s, q, now).1.net.log) && Ready(c, Retry(c, s, q, now).1)
    decreases 2 * Fuel(s.net) + 1, 0
  {
    var s1 := s.(stream := None);
    QueryGuard(c, s1, LogonCall(c, now), now);
    var (logon, s2) := Query(c, s1, LogonCall(c, now), now);
    if logon.Ok? {
      QueryWithoutRetryGuard(c, s2, q.methodName, WrapCall(c, q, now), q.decodes);
    }
  }

  // ---------------------------------------------------------------------
  // Resending

  /** The parameters a logon goes out with. */
  function LogonWrapper(c: Config, now: int): ParamWrapper
    requires c.auth.Some?
  {
    WrapCall(c, LogonCall(c, now), now)
  }

  /** The requests `query(q)` may put on the wire: its own, and logons. */
  predicate MaySend(c: Config, q: Call, now: int, p: ParamWrapper) {
    p == WrapCall(c, q, now) || (c.auth.Some? && p == LogonWrapper(c, now))
  }

  /** `q` is not itself the logon. */
  predicate NotLogon(c: Config, q: Call, now: int) {
    c.auth.Some? ==> WrapCall(c, q, now) != LogonWrapper(c, now)
  }

  lemma SendCount(c: Config, s: State, methodName: string, params: ParamWrapper)
    ensures var r := Send(c, s, methodName, params);
      forall p :: CountSent(r.1.net.log, p) == CountSent(s.net.log, p) + if r.0.Ok? && p == params then 1 else 0
  {
    var r := Send(c, s, methodName, params);
    var mid := s.net.log + if s.stream.None? && r.1.stream.Some? then [Opened] else [];
    if s.stream.None? && r.1.stream.Some? {
      AppendOne(s.net.log, Opened);
    } else {
      assert mid == s.net.log;
    }
    if r.0.Ok? {
      AppendOne(mid, Sent(Request(s.reqId + 1, methodName, params)));
    } else {
      assert r.1.net.log == mid;
    }
  }

  lemma RecvCount(c: Config, s: State, id: nat)
    ensures forall p :: CountSent(Recv(c, s, id).1.net.log, p) == CountSent(s.net.log, p)
  {
    if id !in s.messages {
      var (g, s1) := GetStream(c, s);
      if s.stream.None? && g.Ok? {
        AppendOne(s.net.log, Opened);
      }
      if g.Ok? {
        PongsKeepRequests(s1.net.log, RecvLoop(id, s1.messages, s1.net).2.log);
      }
    }
  }

  lemma QueryWithoutRetryCount(c: Config, s: State, methodName: string, params: ParamWrapper, decodes: string -> bool)
    ensures var r := QueryWithoutRetry(c, s, methodName, params, decodes);
      (forall p :: p != params ==> CountSent(r.1.net.log, p) == CountSent(s.net.log, p)) &&
      CountSent(r.1.net.log, params) <= CountSent(s.net.log, params) + 1
  {
    var (g, s1) := GetStream(c, s);
    if s.stream.None? && g.Ok? {
      AppendOne(s.net.log, Opened);
    }
    if g.Ok? {
      SendCount(c, s1, methodName, params);
      var (sent, s2) := Send(c, s1, methodName, params);
      if sent.Ok? {
        RecvCount(c, s2, sent.value);
      }
    }
  }

  /**
   * `query(q)` sends nothing but its own request and logons, and its own
   * request at most twice: once, and once more after a reconnection or a
   * response it could not use.
   */
  lemma {:induction false} QuerySendsOwnRequestAtMostTwice(c: Config, s: State, q: Call, now: int)
    ensures var r := Query(c, s, q, now);
      (forall p :: !MaySend(c, q, now, p) ==> CountSent(r.1.net.log, p) == CountSent(s.net.log, p)) &&
      (NotLogon(c, q, now) ==> CountSent(r.1.net.log, WrapCall(c, q, now)) <= CountSent(s.net.log, WrapCall(c, q, now)) + 2)
    decreases Weight(s), 2
  {
    if s.stream.Some? {
      AttemptSendsAtMostTwice(c, s, q, now);
    } else {
      var (g, s0) := GetStream(c, s);
      if g.Ok? {
        AppendOne(s.net.log, Opened);
        if c.auth.None? {
          AttemptSendsAtMostTwice(c, s0, q, now);
        } else {
          QuerySendsOwnRequestAtMostTwice(c, s0, LogonCall(c, now), now);
          var (logon, s1) := Query(c, s0, LogonCall(c, now), now);
          if logon.Ok? {
            AttemptSendsAtMostTwice(c, s1, q, now);
          }
        }
      }
    }
  }

  lemma {:induction false} AttemptSendsAtMostTwice(c: Config, s: State, q: Call, now: int)
    ensures var r := Attempt(c, s, q, now);
      (forall p :: !MaySend(c, q, now, p) ==> CountSent(r.1.net.log, p) == CountSent(s.net.log, p)) &&
      (NotLogon(c, q, now) ==> CountSent(r.1.net.log, WrapCall(c, q, now)) <= CountSent(s.net.log, WrapCall(c, q, now)) + 2)
    decreases 2 * Fuel(s.net) + 1, 1
  {
    var param := WrapCall(c, q, now);
    SendCount(c, s, q.methodName, param);
    var (sent, s2) := Send(c, s, q.methodName, param);
    if sent.Err? {
      RetrySendsOnce(c, s2, q, now);
    } else {
      RecvCount(c, s2, sent.value);
      var (resp, s3) := Recv(c, s2, sent.value);
      if resp.Err? && resp.error.WsError? {
        RetrySendsOnce(c, s3, q, now);
      } else if resp.Err? {
        QueryWithoutRetryCount(c, s3, q.methodName, param, q.decodes);
      }
    }
  }

  lemma {:induction false} RetrySendsOnce(c: Config, s: State, q: Call, now: int)
    ensures var r := Retry(c, s, q, now);
      (forall p :: !MaySend(c, q, now, p) ==> CountSent(r.1.net.log, p) == CountSent(s.net.log, p)) &&
      (NotLogon(c, q, now) ==> CountSent(r.1.net.log, WrapCall(c, q, now)) <= CountSent(s.net.log, WrapCall(c, q, now)) + 1)
    decreases 2 * Fuel(s.net) + 1, 0
  {
    var s1 := s.(stream := None);
    var param := WrapCall(c, q, now);
    if c.auth.None? {
      QueryWithoutRetryCount(c, s1, q.methodName, param, q.decodes);
    } else {
      QuerySendsOwnRequestAtMostTwice(c, s1, LogonCall(c, now), now);
      var (logon, s2) := Query(c, s1, LogonCall(c, now), now);
      if logon.Ok? {
        QueryWithoutRetryCount(c, s2, q.methodName, param, q.decodes);
      }
    }
  }

  // ---------------------------------------------------------------------
  // Receiving

  /** After `_recv(id)` no response to `id` is left parked. */
  lemma RecvForgets(c: Config, s: State, id: nat)
    ensures id !in Recv(c, s, id).1.messages
  {
    if id !in s.messages {
      var (g, s1) := GetStream(c, s);
      if g.Ok? {
        RecvLoopBuffers(id, s1.messages, s1.net);
        BufferedKeys(id, s1.messages, s1.net.inbox[..Consumed(id, s1.messages, s1.net)]);
      }
    }
  }

  /**
   * A response `_recv(id)` returns without a parked copy is the last frame
   * it read: a text frame with that id and status 200.
   */
  lemma RecvAnswersFromWire(c: Config, s: State, id: nat)
    requires id !in s.messages && s.stream.Some?
    ensures var r := Recv(c, s, id); var k := Consumed(id, s.messages, s.net);
      r.0.Ok? ==>
        0 < k && s.net.inbox[k - 1].Got? && s.net.inbox[k - 1].frame.Text? &&
        s.net.inbox[k - 1].frame.data == r.0.value &&
        s.net.inbox[k - 1].frame.envelope.Some? &&
        s.net.inbox[k - 1].frame.envelope.value.id == Some(id) &&
        s.net.inbox[k - 1].frame.envelope.value.status == 200
  {
    RecvLoopOutcome(id, s.messages, s.net);
  }

  /** The two reads of `ResponsesOutOfOrder`: `b`'s response is parked, `a`'s returned. */
  lemma ParkThenAnswer(a: nat, b: nat, da: string, db: string, m: map<nat, string>, n: Net<Request>)
    requires a != b && 0 < a && 0 < b
    requires n.inbox == [Got(Text(db, Some(Envelope(Some(b), 200, None)))), Got(Text(da, Some(Envelope(Some(a), 200, None))))]
    ensures RecvLoop(a, m, n) == (Ok(da), m[b := db], n.(inbox := []))
  {
    var n1 := n.(inbox := n.inbox[1..]);
    assert n1.inbox == [Got(Text(da, Some(Envelope(Some(a), 200, None))))];
    RecvLoopDecides(a, m[b := db], n1);
    assert PassesOne(a, n);
    RecvLoopUnfold(a, m, n);
  }

  /**
   * Responses may arrive out of order: waiting for `a` parks the response
   * to `b` read before it, and `_recv(b)` then returns that response
   * without reading anything.
   */
  lemma ResponsesOutOfOrder(c: Config, s: State, a: nat, b: nat, da: string, db: string)
    requires s.stream.Some? && a != b && 0 < a && 0 < b && a !in s.messages && b !in s.messages
    requires s.net.inbox == [Got(Text(db, Some(Envelope(Some(b), 200, None)))), Got(Text(da, Some(Envelope(Some(a), 200, None))))]
    ensures Recv(c, s, a).0 == Ok(da)
    ensures Recv(c, Recv(c, s, a).1, b).0 == Ok(db)
    ensures Recv(c, Recv(c, s, a).1, b).1.net == Recv(c, s, a).1.net
    ensures Recv(c, s, a).1.net.inbox == []
  {
    ParkThenAnswer(a, b, da, db, s.messages, s.net);
    var s1 := s.(messages := s.messages[b := db], net := s.net.(inbox := []));
    assert Recv(c, s, a) == (Ok(da), s1);
    assert b in s1.messages;
  }

  // ---------------------------------------------------------------------
  // Reconnection

  /** A send on an open stream whose write succeeds. */
  lemma SendOnOpenStream(c: Config, s: State, methodName: string, p: ParamWrapper)
    requires s.stream.Some? && s.net.writes != [] && s.net.writes[0]
    ensures Send(c, s, methodName, p) ==
      (Ok(s.reqId + 1), s.(reqId := s.reqId + 1, net := s.net.(writes := s.net.writes[1..], log := s.net.log + [Sent(Request(s.reqId + 1, methodName, p))])))
  {
  }

  /** A receive on an open stream whose next frame is the awaited response. */
  lemma RecvOnOpenStream(c: Config, s: State, id: nat, data: string)
    requires s.stream.Some? && id !in s.messages && 0 < id
    requires s.net.inbox != [] && s.net.inbox[0] == Got(Text(data, Some(Envelope(Some(id), 200, None))))
    ensures Recv(c, s, id) == (Ok(data), s.(net := s.net.(inbox := s.net.inbox[1..])))
  {
    RecvLoopDecides(id, s.messages, s.net);
  }

  /** One logon query on an open stream, answered at once. */
  lemma LogonOnOpenStream(c: Config, s: State, now: int)
    requires c.auth.Some? && s.stream.Some? && s.reqId + 1 !in s.messages && c.statusDecodes("{}")
    requires s.net.writes != [] && s.net.writes[0]
    requires s.net.inbox != [] && s.net.inbox[0] == Got(Text("{}", Some(Envelope(Some(s.reqId + 1), 200, None))))
    ensures Query(c, s, LogonCall(c, now), now) ==
      (Ok("{}"), s.(reqId := s.reqId + 1, net := s.net.(writes := s.net.writes[1..], inbox := s.net.inbox[1..],
                                                       log := s.net.log + [Sent(Request(s.reqId + 1, LogonMethod, LogonWrapper(c, now)))])))
  {
    SendOnOpenStream(c, s, LogonMethod, LogonWrapper(c, now));
    var s2 := Send(c, s, LogonMethod, LogonWrapper(c, now)).1;
    RecvOnOpenStream(c, s2, s.reqId + 1, "{}");
  }

  /**
   * The logon query on a client without a stream logs on twice: it
   * connects, logs on as part of its own first use, and then sends itself.
   */
  lemma LogonWithoutStreamLogsOnTwice(c: Config, t: State, now: int)
    requires c.auth.Some? && t.stream.None? && c.statusDecodes("{}")
    requires t.tryTimes < c.maxRetries && t.net.dials != [] && t.net.dials[0]
    requires |t.net.writes| >= 2 && t.net.writes[0] && t.net.writes[1]
    requires t.reqId + 1 !in t.messages && t.reqId + 2 !in t.messages
    requires |t.net.inbox| >= 2
    requires t.net.inbox[0] == Got(Text("{}", Some(Envelope(Some(t.reqId + 1), 200, None))))
    requires t.net.inbox[1] == Got(Text("{}", Some(Envelope(Some(t.reqId + 2), 200, None))))
    ensures Query(c, t, LogonCall(c, now), now) ==
      (Ok("{}"), t.(reqId := t.reqId + 2, tryTimes := 0, stream := Some(Stream(|t.net.log|)),
                    net := t.net.(dials := t.net.dials[1..], writes := t.net.writes[2..], inbox := t.net.inbox[2..],
                                  log := t.net.log + [Opened, Sent(Request(t.reqId + 1, LogonMethod, LogonWrapper(c, now))),
                                                      Sent(Request(t.reqId + 2, LogonMethod, LogonWrapper(c, now)))])))
  {
    var t0 := t.(tryTimes := 0, stream := Some(Stream(|t.net.log|)), net := t.net.(dials := t.net.dials[1..], log := t.net.log + [Opened]));
    assert GetStream(c, t) == (Ok(Stream(|t.net.log|)), t0);
    LogonOnOpenStream(c, t0, now);
    var t1 := Query(c, t0, LogonCall(c, now), now).1;
    LogonOnOpenStream(c, t1, now);
    assert Query(c, t, LogonCall(c, now), now) == Query(c, t1, LogonCall(c, now), now);
    assert t.net.writes[2..] == t.net.writes[1..][1..] && t.net.inbox[2..] == t.net.inbox[1..][1..];
    assert t.net.log + [Opened, Sent(Request(t.reqId + 1, LogonMethod, LogonWrapper(c, now))), Sent(Request(t.reqId + 2, LogonMethod, LogonWrapper(c, now)))] ==
      t.net.log + [Opened] + [Sent(Request(t.reqId + 1, LogonMethod, LogonWrapper(c, now)))] + [Sent(Request(t.reqId + 2, LogonMethod, LogonWrapper(c, now)))];
  }

  /** A query whose response read breaks falls back to the reconnection. */
  lemma BrokenReadFallsBack(c: Config, s: State, q: Call, now: int)
    requires s.stream.Some? && s.net.writes != [] && s.net.writes[0] && s.reqId + 1 !in s.messages
    requires s.net.inbox != [] && s.net.inbox[0] == Broken
    ensures Query(c, s, q, now) ==
      Retry(c, s.(reqId := s.reqId + 1, net := s.net.(writes := s.net.writes[1..], inbox := s.net.inbox[1..],
                                                       log := s.net.log + [Sent(Request(s.reqId + 1, q.methodName, WrapCall(c, q, now)))])), q, now)
  {
    SendOnOpenStream(c, s, q.methodName, WrapCall(c, q, now));
    var s2 := Send(c, s, q.methodName, WrapCall(c, q, now)).1;
    assert Receive(s2.net) == (None, s2.net.(inbox := s2.net.inbox[1..]));
  }

  /** A query whose send fails on the open stream falls back to the reconnection at once. */
  lemma FailedSendFallsBack(c: Config, s: State, q: Call, now: int)
    requires s.stream.Some? && (s.net.writes == [] || !s.net.writes[0])
    ensures Query(c, s, q, now) == Retry(c, s.(reqId := s.reqId + 1, net := s.net.(writes := Rest(s.net.writes))), q, now)
  {
    assert Send(c, s, q.methodName, WrapCall(c, q, now)) ==
      (Err(WsError(WriteFailed)), s.(reqId := s.reqId + 1, net := s.net.(writes := Rest(s.net.writes))));
  }

  /**
   * An error read in response to the first attempt that is not a websocket
   * error (an API error, or a frame that does not decode as a response or
   * as an error response): the query is sent once more on the same stream,
   * with no reconnection and no logon.
   */
  lemma ApiErrorRetriesOnSameStream(c: Config, s: State, q: Call, now: int)
    requires s.stream.Some? && s.net.writes != [] && s.net.writes[0] && s.reqId + 1 !in s.messages
    requires s.net.inbox != [] && s.net.inbox[0].Got?
    requires Verdict(s.reqId + 1, s.net.inbox[0].frame).Some? && Verdict(s.reqId + 1, s.net.inbox[0].frame).value.Err?
    ensures var s3 := s.(reqId := s.reqId + 1, net := s.net.(writes := s.net.writes[1..], inbox := s.net.inbox[1..],
                                                            log := s.net.log + [Sent(Request(s.reqId + 1, q.methodName, WrapCall(c, q, now)))]));
      Query(c, s, q, now) == QueryWithoutRetry(c, s3, q.methodName, WrapCall(c, q, now), q.decodes) &&
      Query(c, s, q, now).1.stream == s.stream
  {
    SendOnOpenStream(c, s, q.methodName, WrapCall(c, q, now));
    var s2 := Send(c, s, q.methodName, WrapCall(c, q, now)).1;
    RecvLoopDecides(s.reqId + 1, s2.messages, s2.net);
    assert !Verdict(s.reqId + 1, s.net.inbox[0].frame).value.error.WsError?;
  }

  /** The two read errors `SerdeError` covers take the same branch: an undecodable text, and an error frame without `id` or `error`. */
  lemma SerdeErrorRetriesOnSameStream(c: Config, s: State, q: Call, now: int, data: string, env: Option<Envelope>)
    requires s.stream.Some? && s.net.writes != [] && s.net.writes[0] && s.reqId + 1 !in s.messages
    requires s.net.inbox != [] && s.net.inbox[0] == Got(Text(data, env))
    requires env.None? || ((env.value.id.None? || env.value.id == Some(0) || env.value.status != 200) && (env.value.id.None? || env.value.error.None?))
    ensures Verdict(s.reqId + 1, s.net.inbox[0].frame) == Some(Err(SerdeError))
    ensures var s3 := s.(reqId := s.reqId + 1, net := s.net.(writes := s.net.writes[1..], inbox := s.net.inbox[1..],
                                                            log := s.net.log + [Sent(Request(s.reqId + 1, q.methodName, WrapCall(c, q, now)))]));
      Query(c, s, q, now) == QueryWithoutRetry(c, s3, q.methodName, WrapCall(c, q, now), q.decodes)
  {
    ApiErrorRetriesOnSameStream(c, s, q, now);
  }

  /** The awaited answer that does not decode is a serde error, with no second attempt. */
  lemma UndecodableAnswerNotRetried(c: Config, s: State, q: Call, now: int, data: string)
    requires s.stream.Some? && s.net.writes != [] && s.net.writes[0] && s.reqId + 1 !in s.messages
    requires s.net.inbox != [] && s.net.inbox[0] == Answer(s.reqId + 1, data) && !q.decodes(data)
    ensures Query(c, s, q, now) ==
      (Err(SerdeError), s.(reqId := s.reqId + 1, net := s.net.(writes := s.net.writes[1..], inbox := s.net.inbox[1..],
                                                               log := s.net.log + [Sent(Request(s.reqId + 1, q.methodName, WrapCall(c, q, now)))])))
  {
    SendOnOpenStream(c, s, q.methodName, WrapCall(c, q, now));
    var s2 := Send(c, s, q.methodName, WrapCall(c, q, now)).1;
    RecvOnOpenStream(c, s2, s.reqId + 1, data);
  }

  /** `k` connection openings. */
  function Openings(k: nat): seq<Event<Request>> {
    if k == 0 then [] else [Opened] + Openings(k - 1)
  }

  /**
   * The number of reconnections in one query has no bound of its own:
   * with credentials, when every write fails and every connection attempt
   * succeeds, each fallback's logon fails to send and falls back in turn,
   * and the connector resets its failure count on every success.  The
   * query opens one connection per successful attempt the script holds
   * and ends only when the connector gives up.
   */
  lemma {:induction false} ReconnectsWhileConnecting(c: Config, s: State, q: Call, now: int)
    requires c.auth.Some? && s.tryTimes < c.maxRetries
    requires forall k :: 0 <= k < |s.net.dials| ==> s.net.dials[k]
    requires forall k :: 0 <= k < |s.net.writes| ==> !s.net.writes[k]
    ensures var r := Query(c, s, q, now);
      r.0 == Err(WsError(ConnectionFailed(c.maxRetries))) && r.1.net.log == s.net.log + Openings(|s.net.dials|)
    decreases Weight(s)
  {
    if s.stream.Some? {
      var s2 := s.(reqId := s.reqId + 1, net := s.net.(writes := Rest(s.net.writes)));
      FailedSendFallsBack(c, s, q, now);
      var s1 := s2.(stream := None);
      ReconnectsWhileConnecting(c, s1, LogonCall(c, now), now);
    } else if s.net.dials == [] {
      assert GetStream(c, s).0.Err?;
    } else {
      var n0 := s.net.(dials := s.net.dials[1..], log := s.net.log + [Opened]);
      assert Acquire(c.maxRetries, s.tryTimes, s.net) == (Ok(Stream(|s.net.log|)), 0, n0);
      var s0 := s.(tryTimes := 0, stream := Some(Stream(|s.net.log|)), net := n0);
      ReconnectsWhileConnecting(c, s0, LogonCall(c, now), now);
      assert s.net.log + Openings(|s.net.dials|) == n0.log + Openings(|n0.dials|);
    }
  }

  /**
   * Two successful connections and two failed writes on an open stream:
   * the query reconnects twice, sends nothing, and the connector gives up.
   */
  lemma TwoReconnectionsForOneQuery(c: Config, s: State, q: Call, now: int)
    requires c.auth.Some? && s.tryTimes < c.maxRetries && s.stream.Some?
    requires s.net.dials == [true, true] && s.net.writes == [false, false]
    ensures var r := Query(c, s, q, now);
      r.0 == Err(WsError(ConnectionFailed(c.maxRetries))) && r.1.net.log == s.net.log + [Opened, Opened]
  {
    ReconnectsWhileConnecting(c, s, q, now);
    assert Openings(2) == [Opened, Opened];
  }

  /** An answer with status 200 to request `id`. */
  function Answer(id: nat, data: string): Read {
    Got(Text(data, Some(Envelope(Some(id), 200, None))))
  }

  /**
   * The fallback with credentials, when the new connection and every
   * write succeed: one `Opened`, two logons, and the query once more.
   */
  lemma RetryLogsOnTwice(c: Config, s: State, q: Call, now: int, data: string)
    requires c.auth.Some? && c.statusDecodes("{}")
    requires s.tryTimes < c.maxRetries && s.net.dials != [] && s.net.dials[0]
    requires |s.net.writes| >= 3 && s.net.writes[0] && s.net.writes[1] && s.net.writes[2]
    requires s.reqId + 1 !in s.messages && s.reqId + 2 !in s.messages && s.reqId + 3 !in s.messages
    requires |s.net.inbox| >= 3 && s.net.inbox[..3] == [Answer(s.reqId + 1, "{}"), Answer(s.reqId + 2, "{}"), Answer(s.reqId + 3, data)]
    ensures var r := Retry(c, s, q, now);
      r.0 == Decode(q.decodes, data) &&
      r.1.net.log == s.net.log + [Opened, Sent(Request(s.reqId + 1, LogonMethod, LogonWrapper(c, now))),
                                  Sent(Request(s.reqId + 2, LogonMethod, LogonWrapper(c, now))),
                                  Sent(Request(s.reqId + 3, q.methodName, WrapCall(c, q, now)))]
  {
    var t := s.(stream := None);
    assert s.net.inbox[0] == s.net.inbox[..3][0] && s.net.inbox[1] == s.net.inbox[..3][1] && s.net.inbox[2] == s.net.inbox[..3][2];
    LogonWithoutStreamLogsOnTwice(c, t, now);
    var t2 := Query(c, t, LogonCall(c, now), now).1;
    SendOnOpenStream(c, t2, q.methodName, WrapCall(c, q, now));
    var t3 := Send(c, t2, q.methodName, WrapCall(c, q, now)).1;
    RecvOnOpenStream(c, t3, s.reqId + 3, data);
    var t4 := Recv(c, t3, s.reqId + 3).1;
    assert QueryWithoutRetry(c, t2, q.methodName, WrapCall(c, q, now), q.decodes) == (Decode(q.decodes, data), t4);
  }
}
