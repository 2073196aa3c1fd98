/**
 * The websocket connection the clients talk through, as a scripted
 * environment.  The TCP/TLS handshake, the websocket framing and the
 * JSON text of the frames are not modelled: a connection attempt, a write
 * and a read each take their outcome from the head of a script, and
 * every frame that reaches the peer is appended to a log the properties
 * are stated over.  An exhausted script behaves like a dead peer: the
 * attempt, the write or the read fails.
 */
module Transport {
  import opened Wrappers

  /**
   * What a text frame carries that the clients look at before handing it
   * on: the `id` (absent when the field is missing), the `status`, and the
   * `error` field of an error response.  `None` in a `Text` frame stands
   * for a body that is not an object with an integer `status`.
   */
  datatype Envelope = Envelope(id: Option<nat>, status: int, error: Option<string>)

  /** A received websocket frame: a ping, a text frame, or any other opcode. */
  datatype Frame = Ping(data: string) | Text(data: string, envelope: Option<Envelope>) | Other(opcode: nat)

  /** One scripted read: a frame, or a broken connection. */
  datatype Read = Got(frame: Frame) | Broken

  /** What reaches the peer: a connection being opened, a message, a pong. */
  datatype Event<M> = Opened | Sent(msg: M) | Ponged(data: string)

  /**
   * The scripts and the log: `dials` are the outcomes of successive
   * connection attempts, `writes` those of successive writes (messages and
   * pongs alike), `inbox` the successive reads.
   */
  datatype Net<M> = Net(dials: seq<bool>, writes: seq<bool>, inbox: seq<Read>, log: seq<Event<M>>)

  /** The websocket errors the clients tell apart. */
  datatype WsError = ConnectionFailed(maxRetries: nat) | ReadFailed | WriteFailed

  /** An open connection, named by the position of its `Opened` event in the log. */
  datatype Stream = Stream(openedAt: nat)

  /** The part of a script left after one step (an empty script stays empty). */
  function Rest<T>(s: seq<T>): (r: seq<T>)
    ensures |r| == if s == [] then 0 else |s| - 1
    ensures s != [] ==> r == s[1..]
  {
    if s == [] then [] else s[1..]
  }

  /** The budget of connection attempts and writes left in the scripts. */
  function Fuel<M>(n: Net<M>): nat {
    |n.dials| + |n.writes|
  }

  /** One write of `e`: it reaches the peer exactly when the next write outcome is a success. */
  function Write<M>(n: Net<M>, e: Event<M>): (r: (bool, Net<M>))
    ensures r.0 <==> n.writes != [] && n.writes[0]
    ensures r.1 == n.(writes := Rest(n.writes), log := if r.0 then n.log + [e] else n.log)
  {
    if n.writes != [] && n.writes[0] then (true, n.(writes := n.writes[1..], log := n.log + [e]))
    else (false, n.(writes := Rest(n.writes)))
  }

  /** One read: the next frame, or `None` when the connection is broken or the script is over. */
  function Receive<M>(n: Net<M>): (r: (Option<Frame>, Net<M>))
    ensures r.0.Some? <==> n.inbox != [] && n.inbox[0].Got?
    ensures r.0.Some? ==> r.0.value == n.inbox[0].frame
    ensures r.1 == n.(inbox := Rest(n.inbox))
  {
    if n.inbox != [] && n.inbox[0].Got? then (Some(n.inbox[0].frame), n.(inbox := n.inbox[1..]))
    else (None, n.(inbox := Rest(n.inbox)))
  }

  /** `log'` is `log` followed by pongs only. */
  ghost predicate OnlyPongsAdded<M>(log: seq<Event<M>>, log': seq<Event<M>>) {
    |log| <= |log'| && log'[..|log|] == log &&
    forall k :: |log| <= k < |log'| ==> log'[k].Ponged?
  }

  lemma OnlyPongsAddedTransitive<M>(a: seq<Event<M>>, b: seq<Event<M>>, c: seq<Event<M>>)
    requires OnlyPongsAdded(a, b) && OnlyPongsAdded(b, c)
    ensures OnlyPongsAdded(a, c)
  {
    assert c[..|a|] == c[..|b|][..|a|];
  }
}
