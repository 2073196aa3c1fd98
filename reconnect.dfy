/**
 * The reconnecting connector built by `AutoReconnectClient::client`: a
 * closure that owns a counter of consecutive failed attempts, refuses to
 * try once the counter has reached the retry limit, and resets it on the
 * first success.
 */
module Reconnect {
  import opened Wrappers
  import opened Transport

  /**
   * One call of the connector, from counter `tryTimes`: the outcome, the
   * counter afterwards and the environment afterwards.  A success appends
   * `Opened` to the log and yields the stream that names it.
   */
  function Acquire<M>(maxRetries: nat, tryTimes: nat, n: Net<M>): (r: (Result<Stream, WsError>, nat, Net<M>))
    decreases maxRetries - tryTimes
    // A success resets the counter and opens exactly one connection.
    ensures r.0.Ok? ==> r.1 == 0 && r.0.value == Stream(|n.log|) && r.2.log == n.log + [Opened]
    // A failure leaves the counter at (or above) the limit and the log untouched.
    ensures r.0.Err? ==> r.0.error == ConnectionFailed(maxRetries) && r.1 >= maxRetries && r.2.log == n.log
    ensures r.0.Err? && tryTimes < maxRetries ==> r.1 == maxRetries
    ensures r.0.Err? && tryTimes >= maxRetries ==> r.1 == tryTimes && r.2 == n
    // Only the dial script is consumed, one outcome per attempt.
    ensures r.2.writes == n.writes && r.2.inbox == n.inbox
    ensures |r.2.dials| <= |n.dials|
    ensures r.0.Ok? ==> |r.2.dials| < |n.dials|
    ensures |n.dials| - |r.2.dials| <= if tryTimes < maxRetries then maxRetries - tryTimes else 0
  {
    if tryTimes >= maxRetries then (Err(ConnectionFailed(maxRetries)), tryTimes, n)
    else if n.dials != [] && n.dials[0] then (Ok(Stream(|n.log|)), 0, n.(dials := n.dials[1..], log := n.log + [Opened]))
    else Acquire(maxRetries, tryTimes + 1, n.(dials := Rest(n.dials)))
  }

  /** The connector's loop, written as the source writes it. */
  method Connect<M>(maxRetries: nat, tryTimes: nat, n: Net<M>) returns (r: Result<Stream, WsError>, tryTimes': nat, n': Net<M>)
    ensures (r, tryTimes', n') == Acquire(maxRetries, tryTimes, n)
  {
    tryTimes', n' := tryTimes, n;
    while true
      invariant Acquire(maxRetries, tryTimes', n') == Acquire(maxRetries, tryTimes, n)
      decreases maxRetries - tryTimes'
    {
      if tryTimes' >= maxRetries {
        return Err(ConnectionFailed(maxRetries)), tryTimes', n';
      }
      if n'.dials != [] && n'.dials[0] {
        r := Ok(Stream(|n'.log|));
        tryTimes', n' := 0, n'.(dials := n'.dials[1..], log := n'.log + [Opened]);
        return;
      }
      tryTimes', n' := tryTimes' + 1, n'.(dials := Rest(n'.dials));
    }
  }

  /**
   * A connection is opened as soon as one attempt within the remaining
   * budget succeeds: with counter `tryTimes` below the limit and a success
   * among the next `maxRetries - tryTimes` dial outcomes, the call succeeds.
   */
  lemma {:induction false} SuccessWithinBudget<M>(maxRetries: nat, tryTimes: nat, n: Net<M>, k: nat)
    requires k < |n.dials| && n.dials[k] && tryTimes + k < maxRetries
    ensures Acquire(maxRetries, tryTimes, n).0.Ok?
    decreases k
  {
    if !n.dials[0] {
      SuccessWithinBudget(maxRetries, tryTimes + 1, n.(dials := Rest(n.dials)), k - 1);
    }
  }

  /** When every outcome within the budget is a failure, the call fails. */
  lemma {:induction false} FailureAfterBudget<M>(maxRetries: nat, tryTimes: nat, n: Net<M>)
    requires forall k :: 0 <= k < |n.dials| && tryTimes + k < maxRetries ==> !n.dials[k]
    ensures Acquire(maxRetries, tryTimes, n).0.Err?
    decreases maxRetries - tryTimes
  {
    if tryTimes < maxRetries {
      var n1 := n.(dials := Rest(n.dials));
      forall k | 0 <= k < |n1.dials| && tryTimes + 1 + k < maxRetries
        ensures !n1.dials[k]
      {
        assert n1.dials[k] == n.dials[k + 1];
      }
      FailureAfterBudget(maxRetries, tryTimes + 1, n1);
    }
  }
}
