/**
 * `Client` (src/api.rs): the request/response client over one websocket
 * that never reconnects.  Requests are numbered by the client's counter;
 * responses are matched to requests by id, those to other requests being
 * parked until asked for.  `batch_query` sends a whole list of queries of
 * one type and collects their responses group by group.
 *
 * The operations are functions from the client's state to a result and a
 * new state; the class in plain_client_class.dfy runs them in place.
 */
module PlainClient {
  import opened Wrappers
  import opened Transport
  import opened Api

  /** What the client is built with: its API key and receive window. */
  datatype Config = Config(apiKey: string, recvWindow: int)

  /** The fields the client updates: the last request id, the parked responses, the connection. */
  datatype State = State(reqId: nat, messages: map<nat, string>, net: Net<Request>)

  /** An `ApiQuery` type: its `METHOD`, its `TYPE`, and whether a text decodes as its response. */
  datatype Kind = Kind(methodName: string, ty: QueryType, decodes: string -> bool)

  /** The requests on the wire, in the order they were sent. */
  function Requests(log: seq<Event<Request>>): seq<Request>
    decreases |log|
  {
    if log == [] then []
    else Requests(log[..|log| - 1]) + if log[|log| - 1].Sent? then [log[|log| - 1].msg] else []
  }

  lemma RequestsAppend(log: seq<Event<Request>>, e: Event<Request>)
    ensures Requests(log + [e]) == Requests(log) + if e.Sent? then [e.msg] else []
  {
    assert (log + [e])[..|log|] == log;
  }

  /** Pongs put no request on the wire. */
  lemma {:induction false} PongsSendNoRequest(log: seq<Event<Request>>, log': seq<Event<Request>>)
    requires OnlyPongsAdded(log, log')
    ensures Requests(log') == Requests(log)
    decreases |log'|
  {
    if |log'| > |log| {
      var prefix := log'[..|log'| - 1];
      assert prefix[..|log|] == log;
      PongsSendNoRequest(log, prefix);
    } else {
      assert log' == log;
    }
  }

  /** `_send`: takes the next request id and writes the request; a failed write is a websocket error. */
  function Send(s: State, methodName: string, params: ParamWrapper): (r: (Result<nat, ClientError>, State))
    ensures r.1.reqId == s.reqId + 1 && r.1.messages == s.messages && r.1.net.inbox == s.net.inbox
    ensures r.0.Ok? <==> s.net.writes != [] && s.net.writes[0]
    ensures r.0.Ok? ==> r.0.value == r.1.reqId
    ensures r.0.Err? ==> r.0.error == WsError(WriteFailed)
    ensures Requests(r.1.net.log) == Requests(s.net.log) + if r.0.Ok? then [Request(r.1.reqId, methodName, params)] else []
  {
    var id := s.reqId + 1;
    var (ok, n) := Write(s.net, Sent(Request(id, methodName, params)));
    RequestsAppend(s.net.log, Sent(Request(id, methodName, params)));
    (if ok then Ok(id) else Err(WsError(WriteFailed)), s.(reqId := id, net := n))
  }

  /** `_recv`: the parked response to `id`, or the receive loop on the connection. */
  function Recv(s: State, id: nat): (r: (Result<string, ClientError>, State))
    ensures id in s.messages ==> r == (Ok(s.messages[id]), s.(messages := s.messages - {id}))
    ensures id !in s.messages ==> r == (RecvLoop(id, s.messages, s.net).0, s.(messages := RecvLoop(id, s.messages, s.net).1, net := RecvLoop(id, s.messages, s.net).2))
    ensures r.1.reqId == s.reqId && OnlyPongsAdded(s.net.log, r.1.net.log)
  {
    if id in s.messages then (Ok(s.messages[id]), s.(messages := s.messages - {id}))
    else
      var (res, m, n) := RecvLoop(id, s.messages, s.net);
      (res, s.(messages := m, net := n))
  }

  /** `Client::wrap`, with the clock reading `now`. */
  function WrapFor(c: Config, ty: QueryType, p: Params, now: int): ParamWrapper {
    Wrap(ty, c.recvWindow, c.apiKey, now, p)
  }

  /** `Client::query`: wrap, send, receive the response to the request, decode it. */
  function Query(c: Config, s: State, q: Call, now: int): (r: (Result<string, ClientError>, State))
    ensures r.1.reqId == s.reqId + 1
    ensures var sent := Request(s.reqId + 1, q.methodName, WrapFor(c, q.ty, q.params, now));
      Requests(r.1.net.log) == Requests(s.net.log) + [sent] ||
      (r.0 == Err(WsError(WriteFailed)) && Requests(r.1.net.log) == Requests(s.net.log))
    ensures r.0.Ok? ==> Requests(r.1.net.log) == Requests(s.net.log) + [Request(s.reqId + 1, q.methodName, WrapFor(c, q.ty, q.params, now))]
    ensures r.0.Ok? ==> q.decodes(r.0.value) && Traced(s.messages, s.net.inbox, s.reqId + 1, r.0.value)
  {
    var (sent, s1) := Send(s, q.methodName, WrapFor(c, q.ty, q.params, now));
    if sent.Err? then (Err(sent.error), s1)
    else
      var (resp, s2) := Recv(s1, sent.value);
      PongsSendNoRequest(s1.net.log, s2.net.log);
      TracedFromStart(s.messages, s.net.inbox, 0);
      RecvTraced(s1, sent.value, s.messages, s.net.inbox);
      if resp.Err? then (resp, s2) else (Decode(q.decodes, resp.value), s2)
  }

  /**
   * The inner loop of `batch_query`: the responses to `ids`, in the order
   * of `ids`, decoded and appended to `results`; the first error stops it.
   */
  function Collect(s: State, ids: seq<nat>, decodes: string -> bool, results: seq<string>): (r: (Result<seq<string>, ClientError>, State))
    decreases |ids|
    ensures r.0.Ok? ==> |r.0.value| == |results| + |ids| && r.0.value[..|results|] == results
    ensures r.1.reqId == s.reqId && OnlyPongsAdded(s.net.log, r.1.net.log)
  {
    if ids == [] then (Ok(results), s)
    else
      var (resp, s1) := Recv(s, ids[0]);
      if resp.Err? then (Err(resp.error), s1)
      else
        var d := Decode(decodes, resp.value);
        if d.Err? then (Err(d.error), s1)
        else
          var r := Collect(s1, ids[1..], decodes, results + [d.value]);
          OnlyPongsAddedTransitive(s.net.log, s1.net.log, r.1.net.log);
          assert r.0.Ok? ==> r.0.value[..|results|] == (r.0.value[..|results| + 1])[..|results|];
          r
  }

  /** A response `Recv` returns is accounted for as the response to `id`, and so is what it leaves in the buffer. */
  lemma RecvTraced(s: State, id: nat, m0: map<nat, string>, frames: seq<Read>)
    requires AllTraced(m0, frames, s.messages) && SuffixOf(s.net.inbox, frames)
    ensures var r := Recv(s, id);
      AllTraced(m0, frames, r.1.messages) && SuffixOf(r.1.net.inbox, frames) && (r.0.Ok? ==> Traced(m0, frames, id, r.0.value))
  {
    if id !in s.messages {
      RecvLoopTraced(id, s.messages, s.net, m0, frames);
    }
  }

  /**
   * `values` are the responses to `ids`, position by position: each is
   * accounted for as the response to its id, and each decodes.
   */
  ghost predicate AnswersTo(m0: map<nat, string>, frames: seq<Read>, decodes: string -> bool, ids: seq<nat>, values: seq<string>)
    decreases |ids|
  {
    |values| == |ids| &&
    (ids != [] ==>
       decodes(values[0]) && Traced(m0, frames, ids[0], values[0]) && AnswersTo(m0, frames, decodes, ids[1..], values[1..]))
  }

  /** `AnswersTo` position by position. */
  lemma {:induction false} AnswersToAt(m0: map<nat, string>, frames: seq<Read>, decodes: string -> bool, ids: seq<nat>, values: seq<string>)
    requires AnswersTo(m0, frames, decodes, ids, values)
    decreases |ids|
    ensures |values| == |ids| && forall j :: 0 <= j < |ids| ==> decodes(values[j]) && Traced(m0, frames, ids[j], values[j])
  {
    if ids != [] {
      AnswersToAt(m0, frames, decodes, ids[1..], values[1..]);
      forall j | 1 <= j < |ids|
        ensures decodes(values[j]) && Traced(m0, frames, ids[j], values[j])
      {
        assert ids[j] == ids[1..][j - 1] && values[j] == values[1..][j - 1];
      }
    }
  }

  /** Responses to two runs of ids, one after the other. */
  lemma {:induction false} AnswersToAppend(m0: map<nat, string>, frames: seq<Read>, decodes: string -> bool,
                                           ids: seq<nat>, values: seq<string>, ids': seq<nat>, values': seq<string>)
    requires AnswersTo(m0, frames, decodes, ids, values) && AnswersTo(m0, frames, decodes, ids', values')
    decreases |ids|
    ensures AnswersTo(m0, frames, decodes, ids + ids', values + values')
  {
    if ids == [] {
      assert ids + ids' == ids' && values + values' == values';
    } else {
      AnswersToAppend(m0, frames, decodes, ids[1..], values[1..], ids', values');
      assert (ids + ids')[1..] == ids[1..] + ids' && (values + values')[1..] == values[1..] + values';
    }
  }

  /** The response to the first id collected before those to the rest. */
  lemma AnswersToCons(m0: map<nat, string>, frames: seq<Read>, decodes: string -> bool,
                      ids: seq<nat>, results: seq<string>, v: string, value: seq<string>)
    requires ids != [] && decodes(v) && Traced(m0, frames, ids[0], v)
    requires |results| + 1 <= |value| && value[..|results| + 1] == results + [v]
    requires AnswersTo(m0, frames, decodes, ids[1..], value[|results| + 1..])
    ensures AnswersTo(m0, frames, decodes, ids, value[|results|..])
  {
    assert value[|results|] == (results + [v])[|results|];
    assert value[|results|..][1..] == value[|results| + 1..];
  }

  /**
   * Each value collected is the response to the id at the same position:
   * parked under that id before, or a good answer to it read from the
   * connection; and it decodes.
   */
  lemma {:induction false} CollectTraced(s: State, ids: seq<nat>, decodes: string -> bool, results: seq<string>,
                                         m0: map<nat, string>, frames: seq<Read>)
    requires AllTraced(m0, frames, s.messages) && SuffixOf(s.net.inbox, frames)
    decreases |ids|
    ensures var r := Collect(s, ids, decodes, results);
      AllTraced(m0, frames, r.1.messages) && SuffixOf(r.1.net.inbox, frames) &&
      (r.0.Ok? ==> AnswersTo(m0, frames, decodes, ids, r.0.value[|results|..]))
  {
    if ids == [] {
      assert Collect(s, ids, decodes, results).0.value[|results|..] == [];
    } else {
      var got := Recv(s, ids[0]);
      RecvTraced(s, ids[0], m0, frames);
      if got.0.Err? || !decodes(got.0.value) {
        assert Collect(s, ids, decodes, results) == (Err(if got.0.Err? then got.0.error else SerdeError), got.1);
      } else {
        var v := got.0.value;
        var results' := results + [v];
        CollectTraced(got.1, ids[1..], decodes, results', m0, frames);
        var r := Collect(got.1, ids[1..], decodes, results');
        assert Collect(s, ids, decodes, results) == r;
        if r.0.Ok? {
          AnswersToCons(m0, frames, decodes, ids, results, v, r.0.value);
        }
      }
    }
  }

  /**
   * The remainder of `n` by `b`, as `usize`'s `%` computes it; `RemIsMod`
   * shows it is Dafny's `n % b`.
   */
  function Rem(n: nat, b: nat): (r: nat)
    requires b > 0
    decreases n
    ensures r < b
  {
    if n < b then n else Rem(n - b, b)
  }

  /** Whether `batch_query` collects the pending responses after sending query `idx` of `total`. */
  predicate FlushesAt(idx: nat, total: nat, b: nat)
    requires idx != 0 ==> b > 0
  {
    (idx != 0 && Rem(idx, b) == 0) || idx + 1 == total
  }

  /** How many requests await their responses when query `idx` is about to be sent. */
  function PendingCount(idx: nat, b: nat): nat
    requires idx > b ==> b > 0
  {
    if idx <= b then idx else Rem(idx - 1, b)
  }

  /**
   * The requests `batch_query` sends for queries `from` onwards when the
   * counter stands at `id`.
   */
  function Planned(c: Config, k: Kind, id: nat, params: seq<Params>, nows: seq<int>, from: nat): (r: seq<Request>)
    requires |nows| == |params| && from <= |params|
    decreases |params| - from
    ensures |r| == |params| - from
  {
    if from == |params| then []
    else [Request(id + 1, k.methodName, WrapFor(c, k.ty, params[from], nows[from]))] + Planned(c, k, id + 1, params, nows, from + 1)
  }

  /** The plan spelled out: query `from + i` goes out as request `id + 1 + i`, with its own clock reading. */
  lemma {:induction false} PlannedRequests(c: Config, k: Kind, id: nat, params: seq<Params>, nows: seq<int>, from: nat)
    requires |nows| == |params| && from <= |params|
    decreases |params| - from
    ensures forall i :: 0 <= i < |params| - from ==>
      Planned(c, k, id, params, nows, from)[i] == Request(id + 1 + i, k.methodName, WrapFor(c, k.ty, params[from + i], nows[from + i]))
  {
    if from < |params| {
      PlannedRequests(c, k, id + 1, params, nows, from + 1);
      var rest := Planned(c, k, id + 1, params, nows, from + 1);
      forall i | 0 <= i < |params| - from
        ensures Planned(c, k, id, params, nows, from)[i] == Request(id + 1 + i, k.methodName, WrapFor(c, k.ty, params[from + i], nows[from + i]))
      {
        if i > 0 {
          assert Planned(c, k, id, params, nows, from)[i] == rest[i - 1];
        }
      }
    }
  }

  /**
   * The outer loop of `batch_query` from query `idx` on, with `pending`
   * the ids awaiting their responses and `results` those collected.
   * `nows[i]` is the clock reading when query `i` is wrapped.
   */
  function Batch(c: Config, s: State, b: nat, k: Kind, params: seq<Params>, nows: seq<int>,
                 idx: nat, pending: seq<nat>, results: seq<string>): (r: (Result<seq<string>, ClientError>, State))
    requires |nows| == |params| && idx <= |params| && (b > 0 || |params| <= 1)
    requires idx < |params| ==> |pending| == PendingCount(idx, b)
    requires idx == |params| ==> pending == []
    decreases |params| - idx
  {
    if idx == |params| then (Ok(results), s)
    else
      var sent := Send(s, k.methodName, WrapFor(c, k.ty, params[idx], nows[idx]));
      if sent.0.Err? then (Err(sent.0.error), sent.1)
      else
        var pending' := pending + [sent.0.value];
        PendingAfterSend(idx, |params|, b);
        if FlushesAt(idx, |params|, b) then
          var got := Collect(sent.1, pending', k.decodes, results);
          if got.0.Err? then (Err(got.0.error), got.1)
          else
            Batch(c, got.1, b, k, params, nows, idx + 1, [], got.0.value)
        else
          Batch(c, sent.1, b, k, params, nows, idx + 1, pending', results)
  }

  /**
   * A batch that succeeds returns one result per query, the results
   * already collected first, and has used one id per query.
   */
  lemma {:induction false} BatchCounts(c: Config, s: State, b: nat, k: Kind, params: seq<Params>, nows: seq<int>,
                                       idx: nat, pending: seq<nat>, results: seq<string>)
    requires |nows| == |params| && idx <= |params| && (b > 0 || |params| <= 1)
    requires idx < |params| ==> |pending| == PendingCount(idx, b)
    requires idx == |params| ==> pending == []
    decreases |params| - idx
    ensures var r := Batch(c, s, b, k, params, nows, idx, pending, results);
      r.0.Ok? ==>
        (|r.0.value| == |results| + |pending| + |params| - idx && r.0.value[..|results|] == results &&
         r.1.reqId == s.reqId + |params| - idx)
  {
    if idx == |params| {
      return;
    }
    var sent := Send(s, k.methodName, WrapFor(c, k.ty, params[idx], nows[idx]));
    if sent.0.Err? {
      return;
    }
    var s1 := sent.1;
    var pending' := pending + [s1.reqId];
    PendingAfterSend(idx, |params|, b);
    var r := Batch(c, s, b, k, params, nows, idx, pending, results);
    if FlushesAt(idx, |params|, b) {
      var got := Collect(s1, pending', k.decodes, results);
      if got.0.Ok? {
        BatchCounts(c, got.1, b, k, params, nows, idx + 1, [], got.0.value);
        if r.0.Ok? {
          assert r.0.value[..|results|] == (r.0.value[..|got.0.value|])[..|results|];
        }
      }
    } else {
      BatchCounts(c, s1, b, k, params, nows, idx + 1, pending', results);
    }
  }

  /** A batch that succeeds has put exactly the planned requests on the wire, in order. */
  lemma {:induction false} BatchSendsPlanned(c: Config, s: State, b: nat, k: Kind, params: seq<Params>, nows: seq<int>,
                                             idx: nat, pending: seq<nat>, results: seq<string>)
    requires |nows| == |params| && idx <= |params| && (b > 0 || |params| <= 1)
    requires idx < |params| ==> |pending| == PendingCount(idx, b)
    requires idx == |params| ==> pending == []
    decreases |params| - idx
    ensures var r := Batch(c, s, b, k, params, nows, idx, pending, results);
      r.0.Ok? ==> Requests(r.1.net.log) == Requests(s.net.log) + Planned(c, k, s.reqId, params, nows, idx)
  {
    if idx == |params| {
      return;
    }
    var sent := Send(s, k.methodName, WrapFor(c, k.ty, params[idx], nows[idx]));
    if sent.0.Err? {
      return;
    }
    var s1 := sent.1;
    var pending' := pending + [s1.reqId];
    PendingAfterSend(idx, |params|, b);
    SendThenPlanned(c, s, k, params, nows, idx);
    if FlushesAt(idx, |params|, b) {
      var got := Collect(s1, pending', k.decodes, results);
      if got.0.Ok? {
        PongsSendNoRequest(s1.net.log, got.1.net.log);
        BatchSendsPlanned(c, got.1, b, k, params, nows, idx + 1, [], got.0.value);
      }
    } else {
      BatchSendsPlanned(c, s1, b, k, params, nows, idx + 1, pending', results);
    }
  }

  /** `n` consecutive ids, the first being `from`. */
  function IdsFrom(from: nat, n: nat): (r: seq<nat>)
    ensures |r| == n && forall i :: 0 <= i < n ==> r[i] == from + i
  {
    seq(n, i requires 0 <= i < n => from + i)
  }

  /**
   * A batch that succeeds returns, after the results already collected,
   * the response to each of the ids it used, in order: query `j` of the
   * batch gets the response to id `start + 1 + j`.
   */
  lemma {:induction false} BatchTraced(c: Config, s: State, b: nat, k: Kind, params: seq<Params>, nows: seq<int>,
                                       idx: nat, pending: seq<nat>, results: seq<string>,
                                       start: nat, m0: map<nat, string>, frames: seq<Read>)
    requires |nows| == |params| && idx <= |params| && (b > 0 || |params| <= 1)
    requires idx < |params| ==> |pending| == PendingCount(idx, b)
    requires idx == |params| ==> pending == []
    requires s.reqId == start + idx && |results| + |pending| == idx && pending == IdsFrom(start + 1 + |results|, |pending|)
    requires AllTraced(m0, frames, s.messages) && SuffixOf(s.net.inbox, frames)
    decreases |params| - idx, 1
    ensures AnswersAfter(m0, frames, k.decodes, start + 1 + |results|, results, Batch(c, s, b, k, params, nows, idx, pending, results).0)
  {
    if idx == |params| {
      return;
    }
    var sent := Send(s, k.methodName, WrapFor(c, k.ty, params[idx], nows[idx]));
    if sent.0.Err? {
      return;
    }
    var s1 := sent.1;
    var pending' := pending + [s1.reqId];
    assert pending' == IdsFrom(start + 1 + |results|, |pending'|);
    PendingAfterSend(idx, |params|, b);
    if FlushesAt(idx, |params|, b) {
      var got := Collect(s1, pending', k.decodes, results);
      CollectTracedFrom(s1, pending', k.decodes, results, m0, frames, start + 1 + |results|);
      if got.0.Ok? {
        assert Batch(c, s, b, k, params, nows, idx, pending, results) == Batch(c, got.1, b, k, params, nows, idx + 1, [], got.0.value);
        FlushedTraced(c, got.1, b, k, params, nows, idx, results, got.0.value, start, m0, frames);
      } else {
        assert Batch(c, s, b, k, params, nows, idx, pending, results).0.Err?;
      }
    } else {
      assert Batch(c, s, b, k, params, nows, idx, pending, results) == Batch(c, s1, b, k, params, nows, idx + 1, pending', results);
      BatchTraced(c, s1, b, k, params, nows, idx + 1, pending', results, start, m0, frames);
    }
  }

  /** The batch after a group is collected: the group's responses come before those of the later groups. */
  lemma {:induction false} FlushedTraced(c: Config, s: State, b: nat, k: Kind, params: seq<Params>, nows: seq<int>,
                                         idx: nat, results: seq<string>, group: seq<string>,
                                         start: nat, m0: map<nat, string>, frames: seq<Read>)
    requires |nows| == |params| && idx < |params| && (b > 0 || |params| <= 1)
    requires idx + 1 < |params| ==> PendingCount(idx + 1, b) == 0
    requires s.reqId == start + idx + 1 && |group| == idx + 1
    requires |results| <= |group| && AnswersFrom(m0, frames, k.decodes, start + 1 + |results|, group[|results|..])
    requires AllTraced(m0, frames, s.messages) && SuffixOf(s.net.inbox, frames)
    decreases |params| - idx, 0
    ensures AnswersAfter(m0, frames, k.decodes, start + 1 + |results|, results, Batch(c, s, b, k, params, nows, idx + 1, [], group).0)
  {
    var r := Batch(c, s, b, k, params, nows, idx + 1, [], group);
    BatchTraced(c, s, b, k, params, nows, idx + 1, [], group, start, m0, frames);
    BatchCounts(c, s, b, k, params, nows, idx + 1, [], group);
    AnswersJoin(m0, frames, k.decodes, start + 1, results, group, r.0);
  }

  /** `values` are the responses to consecutive ids starting at `from`, and each decodes. */
  ghost predicate AnswersFrom(m0: map<nat, string>, frames: seq<Read>, decodes: string -> bool, from: nat, values: seq<string>) {
    forall j :: 0 <= j < |values| ==> decodes(values[j]) && Traced(m0, frames, from + j, values[j])
  }

  /**
   * A batch result that, when it succeeds, holds after `results` the
   * responses to consecutive ids starting at `from`.
   */
  ghost predicate AnswersAfter(m0: map<nat, string>, frames: seq<Read>, decodes: string -> bool, from: nat,
                               results: seq<string>, r: Result<seq<string>, ClientError>) {
    r.Ok? ==> |results| <= |r.value| && AnswersFrom(m0, frames, decodes, from, r.value[|results|..])
  }

  /** `AnswersAfter` with nothing collected before, position by position. */
  lemma AnswersAfterAt(m0: map<nat, string>, frames: seq<Read>, decodes: string -> bool, base: nat, results: seq<string>,
                       r: Result<seq<string>, ClientError>)
    requires results == [] && AnswersAfter(m0, frames, decodes, base + |results|, results, r)
    ensures r.Ok? ==> forall j :: 0 <= j < |r.value| ==> decodes(r.value[j]) && Traced(m0, frames, base + j, r.value[j])
  {
    if r.Ok? {
      assert r.value[|results|..] == r.value;
    }
  }

  /** The responses of one collected group followed by those of the later groups. */
  lemma AnswersJoin(m0: map<nat, string>, frames: seq<Read>, decodes: string -> bool, base: nat,
                    results: seq<string>, group: seq<string>, r: Result<seq<string>, ClientError>)
    requires |results| <= |group| && (r.Ok? ==> |group| <= |r.value| && r.value[..|group|] == group)
    requires AnswersFrom(m0, frames, decodes, base + |results|, group[|results|..])
    requires AnswersAfter(m0, frames, decodes, base + |group|, group, r)
    ensures AnswersAfter(m0, frames, decodes, base + |results|, results, r)
  {
    if r.Ok? {
      var value := r.value;
      forall j | 0 <= j < |value[|results|..]|
        ensures decodes(value[|results|..][j]) && Traced(m0, frames, base + |results| + j, value[|results|..][j])
      {
        if j < |group| - |results| {
          assert value[|results|..][j] == group[|results|..][j] by {
            assert value[|results| + j] == value[..|group|][|results| + j];
          }
        } else {
          var i := j - (|group| - |results|);
          assert value[|results|..][j] == value[|group|..][i];
        }
      }
    }
  }

  /** A collected group of consecutive ids, position by position. */
  lemma CollectTracedFrom(s: State, ids: seq<nat>, decodes: string -> bool, results: seq<string>,
                          m0: map<nat, string>, frames: seq<Read>, from: nat)
    requires AllTraced(m0, frames, s.messages) && SuffixOf(s.net.inbox, frames) && ids == IdsFrom(from, |ids|)
    ensures var r := Collect(s, ids, decodes, results);
      AllTraced(m0, frames, r.1.messages) && SuffixOf(r.1.net.inbox, frames) &&
      (r.0.Ok? ==> AnswersFrom(m0, frames, decodes, from, r.0.value[|results|..]))
  {
    CollectTraced(s, ids, decodes, results, m0, frames);
    var r := Collect(s, ids, decodes, results);
    if r.0.Ok? {
      AnswersToFrom(m0, frames, decodes, ids, r.0.value[|results|..], from);
    }
  }

  /** Responses to consecutive ids, position by position. */
  lemma AnswersToFrom(m0: map<nat, string>, frames: seq<Read>, decodes: string -> bool, ids: seq<nat>, values: seq<string>, from: nat)
    requires AnswersTo(m0, frames, decodes, ids, values) && ids == IdsFrom(from, |ids|)
    ensures AnswersFrom(m0, frames, decodes, from, values)
  {
    AnswersToAt(m0, frames, decodes, ids, values);
  }

  /** Sending query `idx` moves its request from the plan to the wire. */
  lemma SendThenPlanned(c: Config, s: State, k: Kind, params: seq<Params>, nows: seq<int>, idx: nat)
    requires |nows| == |params| && idx < |params|
    ensures var s1 := Send(s, k.methodName, WrapFor(c, k.ty, params[idx], nows[idx])).1;
      s1.net.log != s.net.log ==>
      Requests(s1.net.log) + Planned(c, k, s1.reqId, params, nows, idx + 1) ==
      Requests(s.net.log) + Planned(c, k, s.reqId, params, nows, idx)
  {
    var x := Request(s.reqId + 1, k.methodName, WrapFor(c, k.ty, params[idx], nows[idx]));
    SentRequest(c, s, k, params[idx], nows[idx]);
    PlannedStep(c, k, s.reqId, params, nows, idx);
    var before := Requests(s.net.log);
    var next := Planned(c, k, s.reqId + 1, params, nows, idx + 1);
    assert (before + [x]) + next == before + ([x] + next);
  }

  lemma SentRequest(c: Config, s: State, k: Kind, p: Params, now: int)
    ensures var s1 := Send(s, k.methodName, WrapFor(c, k.ty, p, now)).1;
      s1.reqId == s.reqId + 1 &&
      (s1.net.log != s.net.log ==> Requests(s1.net.log) == Requests(s.net.log) + [Request(s.reqId + 1, k.methodName, WrapFor(c, k.ty, p, now))])
  {
  }

  lemma PlannedStep(c: Config, k: Kind, id: nat, params: seq<Params>, nows: seq<int>, idx: nat)
    requires |nows| == |params| && idx < |params|
    ensures Planned(c, k, id, params, nows, idx) ==
      [Request(id + 1, k.methodName, WrapFor(c, k.ty, params[idx], nows[idx]))] + Planned(c, k, id + 1, params, nows, idx + 1)
  {
  }

  /**
   * After query `idx` is sent, the pending ids are collected and none is
   * left, or there is a next query and one more id is pending.
   */
  lemma PendingAfterSend(idx: nat, total: nat, b: nat)
    requires idx < total && (b > 0 || total <= 1)
    ensures FlushesAt(idx, total, b) && idx + 1 < total ==> PendingCount(idx + 1, b) == 0
    ensures !FlushesAt(idx, total, b) ==> idx + 1 < total && PendingCount(idx + 1, b) == PendingCount(idx, b) + 1
  {
    if idx + 1 < total && !(idx != 0 && Rem(idx, b) == 0) {
      PendingStep(idx, b);
    }
  }

  /** Between two collections the pending count grows by one. */
  lemma PendingStep(idx: nat, b: nat)
    requires b > 0 && (idx == 0 || Rem(idx, b) != 0)
    ensures PendingCount(idx + 1, b) == PendingCount(idx, b) + 1
  {
    if idx > b {
      RemStep(idx - 1, b);
    }
  }

  /** Counting up by one: the remainder grows by one, or wraps to 0 at `b`. */
  lemma {:induction false} RemStep(n: nat, b: nat)
    requires b > 0
    ensures Rem(n + 1, b) == if Rem(n, b) + 1 == b then 0 else Rem(n, b) + 1
    decreases n
  {
    if n + 1 >= b && n >= b {
      RemStep(n - b, b);
    }
  }

  /** `Rem` is the remainder of Euclidean division, Dafny's `%` on naturals. */
  lemma {:induction false} RemIsMod(n: nat, b: nat)
    requires b > 0
    ensures Rem(n, b) == n % b
    decreases n
  {
    if n < b {
      DivUnique(n, b, 0, n);
    } else {
      RemIsMod(n - b, b);
      DivUnique(n, b, (n - b) / b + 1, (n - b) % b);
    }
  }

  /** `batch_query`: every query sent and answered in turn, or the first error. */
  function BatchQuery(c: Config, s: State, b: nat, k: Kind, params: seq<Params>, nows: seq<int>): (r: (Result<seq<string>, ClientError>, State))
    requires |nows| == |params| && (b > 0 || |params| <= 1)
    ensures r.0.Ok? ==> |r.0.value| == |params| && r.1.reqId == s.reqId + |params|
    ensures r.0.Ok? ==> Requests(r.1.net.log) == Requests(s.net.log) + Planned(c, k, s.reqId, params, nows, 0)
    ensures r.0.Ok? ==> forall j :: 0 <= j < |params| ==>
      k.decodes(r.0.value[j]) && Traced(s.messages, s.net.inbox, s.reqId + 1 + j, r.0.value[j])
  {
    BatchCounts(c, s, b, k, params, nows, 0, [], []);
    BatchAnswers(c, s, b, k, params, nows);
    BatchSendsPlanned(c, s, b, k, params, nows, 0, [], []);
    Batch(c, s, b, k, params, nows, 0, [], [])
  }

  /**
   * The whole batch, position by position: query `j` gets the response to
   * id `s.reqId + 1 + j`, taken from the buffer or read from the connection.
   */
  lemma BatchAnswers(c: Config, s: State, b: nat, k: Kind, params: seq<Params>, nows: seq<int>)
    requires |nows| == |params| && (b > 0 || |params| <= 1)
    ensures var r := Batch(c, s, b, k, params, nows, 0, [], []).0;
      r.Ok? ==> forall j :: 0 <= j < |r.value| ==> k.decodes(r.value[j]) && Traced(s.messages, s.net.inbox, s.reqId + 1 + j, r.value[j])
  {
    TracedFromStart(s.messages, s.net.inbox, s.reqId + 1);
    BatchTraced(c, s, b, k, params, nows, 0, [], [], s.reqId, s.messages, s.net.inbox);
    AnswersAfterAt(s.messages, s.net.inbox, k.decodes, s.reqId + 1, [], Batch(c, s, b, k, params, nows, 0, [], []).0);
  }

  /** At the start of a batch the buffer is accounted for by itself, and no id is pending. */
  lemma TracedFromStart(m0: map<nat, string>, frames: seq<Read>, from: nat)
    ensures AllTraced(m0, frames, m0) && SuffixOf(frames, frames) && [] == IdsFrom(from, 0)
  {
  }

  /**
   * The groups `batch_query` collects: after query `b` it collects the
   * responses to queries 0 to `b`, `b + 1` of them; after each later
   * multiple of `b` it collects `b`; no group holds more than `b + 1`.
   */
  lemma GroupSizes(idx: nat, total: nat, b: nat)
    requires b > 0 && idx < total && FlushesAt(idx, total, b)
    ensures idx == b ==> PendingCount(idx, b) + 1 == b + 1
    ensures idx > b && idx % b == 0 ==> PendingCount(idx, b) + 1 == b
    ensures PendingCount(idx, b) + 1 <= b + 1
  {
    if idx > b {
      RemIsMod(idx, b);
      RemStep(idx - 1, b);
    }
  }

  /** The remainder is the one `r` below `b` with `n == q * b + r`. */
  lemma DivUnique(n: nat, b: nat, q: int, r: int)
    requires b > 0 && 0 <= r < b && n == q * b + r
    ensures n % b == r
  {
    var q', r' := n / b, n % b;
    assert n == q' * b + r';
    if q > q' {
      MulMono(q' + 1, q, b);
      assert false;
    } else if q < q' {
      MulMono(q + 1, q', b);
      assert false;
    }
  }

  lemma MulMono(x: int, y: int, b: nat)
    requires x <= y
    ensures x * b <= y * b
  {
    assert y * b == x * b + (y - x) * b;
  }
}
