/**
 * The request/response layer of the websocket API (src/api.rs) shared by
 * `AutoReconnectClient` and `Client`: the query types, the parameter
 * wrapper with its authentication fields, and the receive loop that pongs
 * pings, parks responses to other requests and stops on the awaited one.
 *
 * A query's own parameters are opaque here, except the signed logon,
 * which the reconnecting client sends on its own behalf.  Whether a
 * response text decodes into the query's response type is a predicate the
 * caller supplies.
 */
module Api {
  import opened Wrappers
  import opened Transport
  import opened Session

  /** `QueryType`: `NoAuth` is the source's `QueryType::None`. */
  datatype QueryType = NoAuth | Authorized | AuthWithoutApiKey

  /** The fields a query contributes to `params`. */
  datatype Params = Opaque(body: string) | LogonParams(logon: SignedLogon)

  /** `ParamWrapper`: the authentication fields around a query's own fields. */
  datatype ParamWrapper = ParamWrapper(recvWindow: Option<int>, apiKey: Option<string>, timestamp: int, other: Params)

  /** A request frame; `returnRateLimits` is always left out, so it is not carried. */
  datatype Request = Request(id: nat, methodName: string, params: ParamWrapper)

  /** `ErrResponse`, with the `error` object kept as its text. */
  datatype ErrResponse = ErrResponse(id: nat, error: string, status: int)

  datatype ClientError = WsError(ws: WsError) | ApiError(response: ErrResponse) | SerdeError

  /**
   * One `ApiQuery` value: its `METHOD`, its `TYPE`, its fields, and whether
   * a response text deserialises into its `Response<P::Response>`.
   */
  datatype Call = Call(methodName: string, ty: QueryType, params: Params, decodes: string -> bool)

  /** `wrap`: the fields each query type adds; `now` is the clock reading in milliseconds. */
  function Wrap(ty: QueryType, recvWindow: int, apiKey: string, now: int, p: Params): (r: ParamWrapper)
    ensures r.other == p
    ensures r.recvWindow.Some? <==> ty != NoAuth
    ensures r.apiKey.Some? <==> ty == Authorized
    ensures r.recvWindow.Some? ==> r.recvWindow.value == recvWindow
    ensures r.apiKey.Some? ==> r.apiKey.value == apiKey
    ensures ty == NoAuth <==> r == ParamWrapper(None, None, 0, p)
    ensures ty != NoAuth ==> r.timestamp == now
  {
    match ty
    case NoAuth => ParamWrapper(None, None, 0, p)
    case Authorized => ParamWrapper(Some(recvWindow), Some(apiKey), now, p)
    case AuthWithoutApiKey => ParamWrapper(Some(recvWindow), None, now, p)
  }

  /**
   * The wrapper's own keys in its JSON object, in declaration order:
   * absent options are skipped, and so is a zero timestamp (`is_zero`).
   */
  function WrapperKeys(w: ParamWrapper): (r: seq<string>)
    ensures "recvWindow" in r <==> w.recvWindow.Some?
    ensures "apiKey" in r <==> w.apiKey.Some?
    ensures "timestamp" in r <==> w.timestamp != 0
    ensures |r| <= 3
  {
    (if w.recvWindow.Some? then ["recvWindow"] else []) +
    (if w.apiKey.Some? then ["apiKey"] else []) +
    (if w.timestamp != 0 then ["timestamp"] else [])
  }

  /**
   * What the server sees of each query type: nothing of an unsigned query,
   * the window, the key and the time of an authorized one, and the window
   * and the time of one signed without a key.
   */
  lemma WrapKeys(ty: QueryType, recvWindow: int, apiKey: string, now: int, p: Params)
    requires now != 0
    ensures ty == NoAuth ==> WrapperKeys(Wrap(ty, recvWindow, apiKey, now, p)) == []
    ensures ty == Authorized ==> WrapperKeys(Wrap(ty, recvWindow, apiKey, now, p)) == ["recvWindow", "apiKey", "timestamp"]
    ensures ty == AuthWithoutApiKey ==> WrapperKeys(Wrap(ty, recvWindow, apiKey, now, p)) == ["recvWindow", "timestamp"]
  {
  }

  /** The response text, when it deserialises into the query's response type. */
  function Decode(decodes: string -> bool, data: string): (r: Result<string, ClientError>)
    ensures r.Ok? <==> decodes(data)
    ensures r.Ok? ==> r.value == data
    ensures r.Err? ==> r.error == SerdeError
  {
    if decodes(data) then Ok(data) else Err(SerdeError)
  }

  /**
   * What one received frame decides while waiting for response `id`,
   * following the `CheckResp` and `ErrResponse` decoding: `None` when the
   * loop goes on (a ping, an unexpected opcode, or a good response to
   * another request), otherwise the loop's result.
   */
  function Verdict(id: nat, f: Frame): (r: Option<Result<string, ClientError>>)
    ensures r.None? <==> f.Ping? || f.Other? || Parked(id, f)
    ensures r.Some? && r.value.Ok? <==> f.Text? && f.envelope.Some? && f.envelope.value.id == Some(id) && id != 0 && f.envelope.value.status == 200
    ensures r.Some? && r.value.Ok? ==> r.value.value == f.data
    ensures f.Text? && f.envelope.None? ==> r == Some(Err(SerdeError))
    ensures f.Text? && f.envelope.Some? && ErrorFirst(f.envelope.value) ==>
      r == Some(Err(if f.envelope.value.id.Some? && f.envelope.value.error.Some?
                    then ApiError(ErrResponse(f.envelope.value.id.value, f.envelope.value.error.value, f.envelope.value.status))
                    else SerdeError))
  {
    match f
    case Ping(_) => None
    case Other(_) => None
    case Text(data, env) =>
      match env
      case None => Some(Err(SerdeError))
      case Some(e) =>
        var hid := e.id.GetOr(0);
        if hid == 0 || e.status != 200 then
          if e.id.Some? && e.error.Some? then Some(Err(ApiError(ErrResponse(e.id.value, e.error.value, e.status))))
          else Some(Err(SerdeError))
        else if hid != id then None
        else Some(Ok(data))
  }

  /**
   * A text the loop treats as an error whatever id it awaits: a missing or
   * zero `id`, or a status other than 200.
   */
  predicate ErrorFirst(e: Envelope) {
    e.id.GetOr(0) == 0 || e.status != 200
  }

  /** A good response to another request: it is parked under its id. */
  predicate Parked(id: nat, f: Frame) {
    f.Text? && f.envelope.Some? && f.envelope.value.id.Some? && f.envelope.value.id.value != 0 &&
    f.envelope.value.status == 200 && f.envelope.value.id.value != id
  }

  /** The buffer after reading `x`. */
  function ParkOne(id: nat, messages: map<nat, string>, x: Read): map<nat, string> {
    if x.Got? && Parked(id, x.frame) then messages[x.frame.envelope.value.id.value := x.frame.data] else messages
  }

  /** The buffer after parking every response to another request among `frames`, in order. */
  function Buffered(id: nat, messages: map<nat, string>, frames: seq<Read>): map<nat, string>
    decreases |frames|
  {
    if frames == [] then messages else Buffered(id, ParkOne(id, messages, frames[0]), frames[1..])
  }

  /** The pongs answering the pings among `frames`, in order. */
  function Pongs(frames: seq<Read>): seq<Event<Request>>
    decreases |frames|
  {
    if frames == [] then []
    else if frames[0].Got? && frames[0].frame.Ping? then [Ponged(frames[0].frame.data)] + Pongs(frames[1..])
    else Pongs(frames[1..])
  }

  /**
   * The loop of `_recv`, from the point where the awaited response is not
   * yet in the buffer: the result, the buffer and the environment after it.
   */
  function RecvLoop(id: nat, messages: map<nat, string>, n: Net<Request>): (r: (Result<string, ClientError>, map<nat, string>, Net<Request>))
    decreases |n.inbox|
    ensures OnlyPongsAdded(n.log, r.2.log)
    ensures r.2.dials == n.dials && |r.2.writes| <= |n.writes|
    ensures |r.2.inbox| <= |n.inbox|
  {
    var (f, n1) := Receive(n);
    match f
    case None => (Err(WsError(ReadFailed)), messages, n1)
    case Some(x) =>
      match Verdict(id, x)
      case Some(res) => (res, messages, n1)
      case None =>
        if x.Ping? then
          var (ok, n2) := Write(n1, Ponged(x.data));
          if !ok then (Err(WsError(WriteFailed)), messages, n2)
          else
            var r := RecvLoop(id, messages, n2);
            LoopStep(n, n2, r.2);
            r
        else
          var r := RecvLoop(id, ParkOne(id, messages, Got(x)), n1);
          LoopStep(n, n1, r.2);
          r
  }

  /** One turn of the loop followed by the rest of it keeps what the loop promises of the environment. */
  lemma LoopStep(n: Net<Request>, n1: Net<Request>, n2: Net<Request>)
    requires n.inbox != [] && n1.inbox == n.inbox[1..] && n1.dials == n.dials && |n1.writes| <= |n.writes|
    requires OnlyPongsAdded(n.log, n1.log)
    requires OnlyPongsAdded(n1.log, n2.log) && n2.dials == n1.dials && |n2.writes| <= |n1.writes|
    requires |n2.inbox| <= |n1.inbox|
    ensures OnlyPongsAdded(n.log, n2.log) && n2.dials == n.dials && |n2.writes| <= |n.writes|
    ensures |n2.inbox| <= |n.inbox|
  {
    OnlyPongsAddedTransitive(n.log, n1.log, n2.log);
  }

  /** A consumed frame the loop read past: anything `Verdict` lets through. */
  predicate Passed(id: nat, x: Read) {
    x.Got? && Verdict(id, x.frame).None?
  }

  /** The environment after the loop has read past `n.inbox[0]`, ponging it if it is a ping. */
  function PassOne(n: Net<Request>): Net<Request>
    requires n.inbox != [] && n.inbox[0].Got?
  {
    var n1 := n.(inbox := n.inbox[1..]);
    if n.inbox[0].frame.Ping? then Write(n1, Ponged(n.inbox[0].frame.data)).1 else n1
  }

  /** Whether reading past `n.inbox[0]` succeeds: a ping needs its pong written. */
  predicate PassesOne(id: nat, n: Net<Request>) {
    n.inbox != [] && Passed(id, n.inbox[0]) &&
    (n.inbox[0].frame.Ping? ==> n.writes != [] && n.writes[0])
  }

  /** One turn of the loop over a passed frame. */
  lemma RecvLoopUnfold(id: nat, messages: map<nat, string>, n: Net<Request>)
    requires PassesOne(id, n)
    ensures RecvLoop(id, messages, n) == RecvLoop(id, ParkOne(id, messages, n.inbox[0]), PassOne(n))
    ensures PassOne(n).inbox == n.inbox[1..]
    ensures PassOne(n).log == n.log + Pongs(n.inbox[..1])
  {
    var x := n.inbox[0].frame;
    var n1 := n.(inbox := n.inbox[1..]);
    assert Receive(n) == (Some(x), n1);
    if x.Ping? {
      assert Write(n1, Ponged(x.data)) == (true, PassOne(n));
    } else if x.Text? {
      var e := x.envelope.value;
      assert e.id.GetOr(0) == e.id.value != id;
      assert ParkOne(id, messages, n.inbox[0]) == messages[e.id.value := x.data];
    }
    assert n.inbox[..1] == [n.inbox[0]];
    assert Pongs(n.inbox[..1][1..]) == [];
  }

  /** A frame `Verdict` decides ends the loop at once, with that result. */
  lemma RecvLoopDecides(id: nat, messages: map<nat, string>, n: Net<Request>)
    requires n.inbox != [] && n.inbox[0].Got? && Verdict(id, n.inbox[0].frame).Some?
    ensures RecvLoop(id, messages, n) == (Verdict(id, n.inbox[0].frame).value, messages, n.(inbox := n.inbox[1..]))
  {
    assert Receive(n) == (Some(n.inbox[0].frame), n.(inbox := n.inbox[1..]));
  }

  /**
   * Errors first: a text whose `id` is zero or whose status is not 200
   * ends the loop with the API error it carries, whatever id the loop
   * awaits, and nothing is parked.
   */
  lemma ErrorFrameEndsLoop(id: nat, messages: map<nat, string>, n: Net<Request>, data: string, e: nat, status: int, err: string)
    requires n.inbox != [] && n.inbox[0] == Got(Text(data, Some(Envelope(Some(e), status, Some(err)))))
    requires e == 0 || status != 200
    ensures RecvLoop(id, messages, n) == (Err(ApiError(ErrResponse(e, err, status))), messages, n.(inbox := n.inbox[1..]))
  {
    RecvLoopDecides(id, messages, n);
  }

  /** `x` is a good answer to request `id` carrying `v`. */
  predicate Answers(x: Read, id: nat, v: string) {
    x.Got? && x.frame.Text? && x.frame.data == v && x.frame.envelope.Some? &&
    x.frame.envelope.value.id == Some(id) && x.frame.envelope.value.status == 200
  }

  /**
   * `v` is accounted for as the response to `id`: it was parked under `id`
   * in `m0`, or a good answer to `id` carrying it is among `frames`.
   */
  ghost predicate Traced(m0: map<nat, string>, frames: seq<Read>, id: nat, v: string) {
    (id in m0 && m0[id] == v) || exists k {:trigger Answers(frames[k], id, v)} :: 0 <= k < |frames| && Answers(frames[k], id, v)
  }

  /** Every entry of the buffer `m` is accounted for. */
  ghost predicate AllTraced(m0: map<nat, string>, frames: seq<Read>, m: map<nat, string>) {
    forall id :: id in m ==> Traced(m0, frames, id, m[id])
  }

  /** `t` is what is left of the script `frames` after some reads. */
  predicate SuffixOf(t: seq<Read>, frames: seq<Read>) {
    |t| <= |frames| && t == frames[|frames| - |t|..]
  }

  /**
   * Nothing is made up: a run of the loop that starts from a buffer whose
   * entries are accounted for by `m0` and `frames`, reading the rest of
   * `frames`, leaves such a buffer, and the response it returns is
   * accounted for as the response to `id`.
   */
  lemma {:induction false} RecvLoopTraced(id: nat, messages: map<nat, string>, n: Net<Request>, m0: map<nat, string>, frames: seq<Read>)
    requires AllTraced(m0, frames, messages) && SuffixOf(n.inbox, frames)
    ensures var r := RecvLoop(id, messages, n);
      AllTraced(m0, frames, r.1) && SuffixOf(r.2.inbox, frames) && (r.0.Ok? ==> Traced(m0, frames, id, r.0.value))
    decreases |n.inbox|
  {
    var k := |frames| - |n.inbox|;
    if n.inbox != [] {
      assert n.inbox[0] == frames[k];
      assert SuffixOf(n.inbox[1..], frames);
    }
    if PassesOne(id, n) {
      var m1, n2 := ParkOne(id, messages, n.inbox[0]), PassOne(n);
      RecvLoopUnfold(id, messages, n);
      forall j | j in m1
        ensures Traced(m0, frames, j, m1[j])
      {
        if Parked(id, n.inbox[0].frame) && j == n.inbox[0].frame.envelope.value.id.value {
          assert Answers(frames[k], j, m1[j]);
        }
      }
      RecvLoopTraced(id, m1, n2, m0, frames);
    } else if n.inbox != [] && n.inbox[0].Got? && Verdict(id, n.inbox[0].frame).Some? {
      RecvLoopDecides(id, messages, n);
      if RecvLoop(id, messages, n).0.Ok? {
        assert Answers(frames[k], id, RecvLoop(id, messages, n).0.value);
      }
    } else {
      assert Receive(n).1.inbox == Rest(n.inbox);
    }
  }

  /** The number of frames a run of the loop consumed. */
  function Consumed(id: nat, messages: map<nat, string>, n: Net<Request>): nat {
    |n.inbox| - |RecvLoop(id, messages, n).2.inbox|
  }

  /** Every frame before the last one consumed was passed over. */
  lemma {:induction false} RecvLoopPasses(id: nat, messages: map<nat, string>, n: Net<Request>)
    ensures forall j :: 0 <= j < Consumed(id, messages, n) - 1 ==> Passed(id, n.inbox[j])
    decreases |n.inbox|
  {
    if PassesOne(id, n) {
      var m1, n2 := ParkOne(id, messages, n.inbox[0]), PassOne(n);
      RecvLoopUnfold(id, messages, n);
      RecvLoopPasses(id, m1, n2);
      forall j | 0 < j < Consumed(id, messages, n) - 1
        ensures Passed(id, n.inbox[j])
      {
        assert n.inbox[j] == n2.inbox[j - 1];
      }
    }
  }

  /** Exactly the responses to other requests among the consumed frames were parked, in order. */
  lemma {:induction false} RecvLoopBuffers(id: nat, messages: map<nat, string>, n: Net<Request>)
    ensures RecvLoop(id, messages, n).1 == Buffered(id, messages, n.inbox[..Consumed(id, messages, n)])
    decreases |n.inbox|
  {
    var c := Consumed(id, messages, n);
    if PassesOne(id, n) {
      var m1, n2 := ParkOne(id, messages, n.inbox[0]), PassOne(n);
      RecvLoopUnfold(id, messages, n);
      RecvLoopBuffers(id, m1, n2);
      assert n.inbox[..c][1..] == n2.inbox[..c - 1];
    } else if c > 0 {
      assert n.inbox[..c] == [n.inbox[0]];
      assert !(n.inbox[0].Got? && Parked(id, n.inbox[0].frame));
    }
  }

  lemma {:induction false} PongsAppend(a: seq<Read>, b: seq<Read>)
    ensures Pongs(a + b) == Pongs(a) + Pongs(b)
    decreases |a|
  {
    if a == [] {
      assert a + b == b;
    } else {
      PongsAppend(a[1..], b);
      assert (a + b)[1..] == a[1..] + b;
    }
  }

  /** Turns one passed frame off the front of a consumed prefix. */
  lemma PongsAfterPass(n: Net<Request>, k: nat)
    requires 0 < k <= |n.inbox|
    ensures Pongs(n.inbox[..k]) == Pongs(n.inbox[..1]) + Pongs(n.inbox[1..][..k - 1])
  {
    assert n.inbox[..k] == n.inbox[..1] + n.inbox[1..][..k - 1];
    PongsAppend(n.inbox[..1], n.inbox[1..][..k - 1]);
  }

  /** The pongs after a passed frame, followed by those of the next `k` frames, are those of the first `k + 1`. */
  lemma PongsThroughPass(n: Net<Request>, n2: Net<Request>, k: nat, log: seq<Event<Request>>)
    requires n.inbox != [] && n2.inbox == n.inbox[1..] && n2.log == n.log + Pongs(n.inbox[..1])
    requires k <= |n2.inbox| && log == n2.log + Pongs(n2.inbox[..k])
    ensures log == n.log + Pongs(n.inbox[..k + 1])
  {
    PongsAfterPass(n, k + 1);
  }

  /** Every ping read was answered, in order, unless a pong could not be written. */
  lemma {:induction false} RecvLoopPongs(id: nat, messages: map<nat, string>, n: Net<Request>)
    ensures RecvLoop(id, messages, n).0 != Err(WsError(WriteFailed)) ==>
      RecvLoop(id, messages, n).2.log == n.log + Pongs(n.inbox[..Consumed(id, messages, n)])
    decreases |n.inbox|
  {
    var c := Consumed(id, messages, n);
    if PassesOne(id, n) {
      var m1, n2 := ParkOne(id, messages, n.inbox[0]), PassOne(n);
      RecvLoopUnfold(id, messages, n);
      RecvLoopPongs(id, m1, n2);
      PongsAfterPass(n, c);
    } else if c > 0 {
      assert n.inbox[..c] == [n.inbox[0]];
    }
  }

  /** A pong that could not be written ends the loop, every earlier ping answered. */
  lemma {:induction false} RecvLoopPongFailure(id: nat, messages: map<nat, string>, n: Net<Request>)
    ensures RecvLoop(id, messages, n).0 == Err(WsError(WriteFailed)) ==>
      0 < Consumed(id, messages, n) &&
      RecvLoop(id, messages, n).2.log == n.log + Pongs(n.inbox[..Consumed(id, messages, n) - 1])
    decreases |n.inbox|
  {
    var r := RecvLoop(id, messages, n);
    if r.0 != Err(WsError(WriteFailed)) {
      return;
    }
    if PassesOne(id, n) {
      var m1, n2 := ParkOne(id, messages, n.inbox[0]), PassOne(n);
      RecvLoopUnfold(id, messages, n);
      RecvLoopPongFailure(id, m1, n2);
      PongsThroughPass(n, n2, Consumed(id, m1, n2) - 1, RecvLoop(id, m1, n2).2.log);
    } else {
      FirstPongFails(id, messages, n);
      assert n.inbox[..Consumed(id, messages, n) - 1] == [];
    }
  }

  /** A loop that fails to pong without passing its first frame failed on that frame's pong. */
  lemma FirstPongFails(id: nat, messages: map<nat, string>, n: Net<Request>)
    requires !PassesOne(id, n) && RecvLoop(id, messages, n).0 == Err(WsError(WriteFailed))
    ensures Consumed(id, messages, n) == 1 && RecvLoop(id, messages, n).2.log == n.log
  {
    var n1 := n.(inbox := Rest(n.inbox));
    assert n.inbox != [] && n.inbox[0].Got? && n.inbox[0].frame.Ping?;
    assert RecvLoop(id, messages, n).2 == Write(n1, Ponged(n.inbox[0].frame.data)).1;
  }

  /**
   * How the loop ends: on a frame `Verdict` decides, on a broken read, on
   * the end of the script right after a passed frame, or on a ping whose
   * pong could not be written.
   */
  lemma {:induction false} RecvLoopOutcome(id: nat, messages: map<nat, string>, n: Net<Request>)
    ensures var r := RecvLoop(id, messages, n); var c := Consumed(id, messages, n);
      if r.0 == Err(WsError(ReadFailed)) then
        (0 < c && n.inbox[c - 1].Broken?) || (c == |n.inbox| && (c == 0 || Passed(id, n.inbox[c - 1])))
      else if r.0 == Err(WsError(WriteFailed)) then
        0 < c && n.inbox[c - 1].Got? && n.inbox[c - 1].frame.Ping?
      else
        0 < c && n.inbox[c - 1].Got? && Verdict(id, n.inbox[c - 1].frame) == Some(r.0)
    decreases |n.inbox|
  {
    if PassesOne(id, n) {
      var m1, n2 := ParkOne(id, messages, n.inbox[0]), PassOne(n);
      RecvLoopUnfold(id, messages, n);
      RecvLoopOutcome(id, m1, n2);
      var c := Consumed(id, messages, n);
      if c > 1 {
        assert n.inbox[c - 1] == n2.inbox[c - 2];
      }
    }
  }

  /** The awaited id is never parked, and parking never drops a key. */
  lemma {:induction false} BufferedKeys(id: nat, messages: map<nat, string>, frames: seq<Read>)
    ensures id !in messages ==> id !in Buffered(id, messages, frames)
    ensures messages.Keys <= Buffered(id, messages, frames).Keys
    ensures 0 !in messages ==> 0 !in Buffered(id, messages, frames)
    decreases |frames|
  {
    if frames != [] {
      BufferedKeys(id, ParkOne(id, messages, frames[0]), frames[1..]);
    }
  }

  /** The largest request id sent so far (0 before the first request). */
  function MaxSentId(log: seq<Event<Request>>): nat
    decreases |log|
  {
    if log == [] then 0
    else
      var prev := MaxSentId(log[..|log| - 1]);
      var e := log[|log| - 1];
      if e.Sent? && e.msg.id > prev then e.msg.id else prev
  }

  /** Each request sent carries an id larger than every id sent before it. */
  predicate IdsIncreasing(log: seq<Event<Request>>)
    decreases |log|
  {
    log == [] ||
    (IdsIncreasing(log[..|log| - 1]) && (log[|log| - 1].Sent? ==> log[|log| - 1].msg.id > MaxSentId(log[..|log| - 1])))
  }

  /** How many requests carrying parameters `p` were sent. */
  function CountSent(log: seq<Event<Request>>, p: ParamWrapper): nat
    decreases |log|
  {
    if log == [] then 0
    else CountSent(log[..|log| - 1], p) + if log[|log| - 1].Sent? && log[|log| - 1].msg.params == p then 1 else 0
  }

  /** The first `|log|` events of `log + [e]` are `log`: the step every append lemma takes. */
  lemma AppendOne(log: seq<Event<Request>>, e: Event<Request>)
    ensures (log + [e])[..|log|] == log && (log + [e])[|log|] == e
    ensures MaxSentId(log + [e]) == if e.Sent? && e.msg.id > MaxSentId(log) then e.msg.id else MaxSentId(log)
    ensures IdsIncreasing(log + [e]) == (IdsIncreasing(log) && (e.Sent? ==> e.msg.id > MaxSentId(log)))
    ensures forall p :: CountSent(log + [e], p) == CountSent(log, p) + if e.Sent? && e.msg.params == p then 1 else 0
  {
    assert (log + [e])[..|log|] == log;
  }

  /** Pongs change none of the request bookkeeping. */
  lemma {:induction false} PongsKeepRequests(log: seq<Event<Request>>, log': seq<Event<Request>>)
    requires OnlyPongsAdded(log, log')
    ensures MaxSentId(log') == MaxSentId(log)
    ensures IdsIncreasing(log') == IdsIncreasing(log)
    ensures forall p :: CountSent(log', p) == CountSent(log, p)
    decreases |log'|
  {
    if |log'| > |log| {
      var prefix := log'[..|log'| - 1];
      assert prefix[..|log|] == log;
      PongsKeepRequests(log, prefix);
      AppendOne(prefix, log'[|log'| - 1]);
      assert prefix + [log'[|log'| - 1]] == log';
    } else {
      assert log' == log;
    }
  }

  /** Every id sent is at most `MaxSentId`. */
  lemma {:induction false} SentIdsBounded(log: seq<Event<Request>>)
    ensures forall k :: 0 <= k < |log| && log[k].Sent? ==> log[k].msg.id <= MaxSentId(log)
    decreases |log|
  {
    if log != [] {
      var prefix := log[..|log| - 1];
      SentIdsBounded(prefix);
      forall k | 0 <= k < |prefix| && log[k].Sent?
        ensures log[k].msg.id <= MaxSentId(log)
      {
        assert log[k] == prefix[k];
      }
    }
  }

  /** `IdsIncreasing` means what it says: of two requests in the log, the later has the larger id. */
  lemma {:induction false} IdsIncreasingOrdered(log: seq<Event<Request>>)
    requires IdsIncreasing(log)
    ensures forall i, j :: 0 <= i < j < |log| && log[i].Sent? && log[j].Sent? ==> log[i].msg.id < log[j].msg.id
    decreases |log|
  {
    if log != [] {
      var prefix := log[..|log| - 1];
      IdsIncreasingOrdered(prefix);
      SentIdsBounded(prefix);
      forall i, j | 0 <= i < j < |log| && log[i].Sent? && log[j].Sent?
        ensures log[i].msg.id < log[j].msg.id
      {
        assert log[i] == prefix[i];
        if j < |prefix| {
          assert log[j] == prefix[j];
        }
      }
    }
  }
}
