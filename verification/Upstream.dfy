/**
 Reading the upstream connection: the per-read idle deadline, and which errors
 count as a timeout.
 */
module Upstream {

  // ------------------------------------------------------------------- errors

  /** A link of a wrapped error. `context.DeadlineExceeded` is itself a `net.Error`
      whose `Timeout()` is true. */
  datatype ErrorLink = NetError(timeout: bool) | DeadlineExceeded | OtherError(text: string)

  /** A Go error as its chain of wrapped errors, outermost first; `nil` is empty. */
  type Error = seq<ErrorLink>

  const READ_DEADLINE: Error := [NetError(true)]

  /** Whether the first `net.Error` of the chain, if any, reports a timeout. */
  predicate NetTimeout(err: Error) {
    err != [] &&
    match err[0]
    case NetError(timeout) => timeout
    case DeadlineExceeded => true
    case OtherError(_) => NetTimeout(err[1..])
  }

  predicate IsTimeout(err: Error) {
    NetTimeout(err) || DeadlineExceeded in err
  }

  /** The same said about the chain as a whole. */
  predicate ChainTimesOut(err: Error) {
    DeadlineExceeded in err || exists i | 0 <= i < |err| :: err[i] == NetError(true) && NetError(false) !in err[..i]
  }

  /** A non-timeout `net.Error` hides a timing-out one it wraps, but not a deadline. */
  lemma {:induction false} IsTimeoutExactly(err: Error)
    ensures IsTimeout(err) <==> ChainTimesOut(err)
    decreases |err|
  {
    if err != [] {
      var rest := err[1..];
      IsTimeoutExactly(rest);
      assert forall i | 0 < i < |err| :: err[i] == rest[i - 1] && err[..i] == [err[0]] + rest[..i - 1];
      assert forall i | 0 <= i < |rest| :: rest[i] == err[i + 1] && err[..i + 1] == [err[0]] + rest[..i];
      if err[0] == NetError(true) {
        assert err[..0] == [];
      }
    }
  }

  // ------------------------------------------------------------------ reading

  datatype Incoming = Text(data: string) | Fault(err: Error)

  /** What upstream does next: `delay` is the time from the `ReadMessage` call that
      waits for it. Once the list is used up upstream stays silent for ever. */
  datatype Arrival = Arrival(delay: nat, what: Incoming)

  /** What a read that starts now yields under the idle deadline. */
  function Outcome(pending: seq<Arrival>, idle: nat): Incoming {
    if pending == [] || pending[0].delay > idle then Fault(READ_DEADLINE) else pending[0].what
  }

  function OutcomeTime(pending: seq<Arrival>, idle: nat): nat {
    if pending == [] || pending[0].delay > idle then idle else pending[0].delay
  }

  /** The messages a reader gets before its first error. */
  function Messages(pending: seq<Arrival>, idle: nat): seq<string> {
    match Outcome(pending, idle)
    case Text(data) => [data] + Messages(pending[1..], idle)
    case Fault(_) => []
  }

  /** That first error. */
  function Ending(pending: seq<Arrival>, idle: nat): Error {
    match Outcome(pending, idle)
    case Text(_) => Ending(pending[1..], idle)
    case Fault(err) => err
  }

  /** The time spent waiting in the first `n` reads. */
  function Waited(pending: seq<Arrival>, idle: nat, n: nat): nat {
    if n == 0 then 0
    else OutcomeTime(pending, idle) + Waited(if pending == [] then [] else pending[1..], idle, n - 1)
  }

  /** Read number `n` of a run: it returns message `n`, or the first error once the
      messages are used up. */
  lemma {:induction false} ReadNumber(arrivals: seq<Arrival>, idle: nat, n: nat)
    requires n <= |Messages(arrivals, idle)|
    ensures n <= |arrivals|
    ensures var msgs := Messages(arrivals, idle);
            Outcome(arrivals[n..], idle) == if n < |msgs| then Text(msgs[n]) else Fault(Ending(arrivals, idle))
    ensures n < |Messages(arrivals, idle)| ==> n < |arrivals| && arrivals[n..][1..] == arrivals[n + 1..]
    ensures Waited(arrivals, idle, n + 1) == Waited(arrivals, idle, n) + OutcomeTime(arrivals[n..], idle)
    decreases n
  {
    if n == 0 {
      assert arrivals[0..] == arrivals;
      var rest := if arrivals == [] then [] else arrivals[1..];
      assert Waited(arrivals, idle, 1) == OutcomeTime(arrivals, idle) + Waited(rest, idle, 0);
    } else {
      ReadNumber(arrivals[1..], idle, n - 1);
      assert arrivals[1..][n - 1..] == arrivals[n..];
    }
  }

  /** `idleConn`: the deadline is renewed before every read. `script` is all that
      upstream was going to do and `calls` the number of calls made so far. */
  class IdleConn {
    const idle: nat
    ghost const script: seq<Arrival>
    var pending: seq<Arrival>
    var clock: nat
    ghost var calls: nat

    constructor (idle: nat, arrivals: seq<Arrival>)
      ensures this.idle == idle && script == arrivals && Fresh()
    {
      this.idle, script := idle, arrivals;
      pending, clock, calls := arrivals, 0, 0;
    }

    /** No read has failed yet. */
    ghost predicate Open()
      reads this
    {
      && calls <= |Messages(script, idle)|
      && calls <= |script| && pending == script[calls..]
      && clock == Waited(script, idle, calls)
    }

    ghost predicate Fresh()
      reads this
    {
      calls == 0 && clock == 0 && pending == script
    }

    method ReadMessage() returns (r: Incoming)
      requires Open()
      modifies this
      ensures var msgs := Messages(script, idle);
              r == if old(calls) < |msgs| then Text(msgs[old(calls)]) else Fault(Ending(script, idle))
      ensures calls == old(calls) + 1 && clock == Waited(script, idle, calls)
      ensures r.Text? ==> Open()
    {
      ReadNumber(script, idle, calls);
      if pending == [] || pending[0].delay > idle {
        clock := clock + idle;
        r := Fault(READ_DEADLINE);
      } else {
        clock := clock + pending[0].delay;
        r := pending[0].what;
        if r.Text? {
          pending := pending[1..];
        }
      }
      calls := calls + 1;
    }
  }

  // --------------------------------------------------------------- properties

  /** Message `k` is late when it is not there within `idle` of the call for it. */
  predicate LateAt(arrivals: seq<Arrival>, idle: nat, k: nat) {
    k <= |arrivals| && (k == |arrivals| || arrivals[k].delay > idle)
  }

  predicate TextUpTo(arrivals: seq<Arrival>, idle: nat, k: nat) {
    k <= |arrivals| && forall i | 0 <= i < k :: arrivals[i].what.Text? && arrivals[i].delay <= idle
  }

  function Sum(arrivals: seq<Arrival>, n: nat): nat
    requires n <= |arrivals|
  {
    if n == 0 then 0 else Sum(arrivals, n - 1) + arrivals[n - 1].delay
  }

  /** The run ends at message `k`, which is late or not a message at all. */
  predicate EndsAt(arrivals: seq<Arrival>, idle: nat, k: nat) {
    TextUpTo(arrivals, idle, k) && (LateAt(arrivals, idle, k) || (k < |arrivals| && arrivals[k].what.Fault?))
  }

  /** The messages are those that arrive, in order, before the first late one or fault.
      A run times out exactly when that is a late message or a fault that is itself a
      timeout, and the error then comes exactly `idle` after the call for the late
      message, whatever the total. */
  lemma {:induction false} TimeoutExactly(arrivals: seq<Arrival>, idle: nat)
    ensures var msgs := Messages(arrivals, idle);
            EndsAt(arrivals, idle, |msgs|) && forall i | 0 <= i < |msgs| :: msgs[i] == arrivals[i].what.data
    ensures var k := |Messages(arrivals, idle)|;
            Ending(arrivals, idle) == if LateAt(arrivals, idle, k) then READ_DEADLINE else arrivals[k].what.err
    ensures var k := |Messages(arrivals, idle)|;
            && TextUpTo(arrivals, idle, k)
            && (IsTimeout(Ending(arrivals, idle)) <==>
                LateAt(arrivals, idle, k) ||
                (k < |arrivals| && arrivals[k].what.Fault? && IsTimeout(arrivals[k].what.err)))
            && (LateAt(arrivals, idle, k) ==> Waited(arrivals, idle, k + 1) == Sum(arrivals, k) + idle)
    decreases |arrivals|
  {
    match Outcome(arrivals, idle) {
      case Text(_) =>
        var rest := arrivals[1..];
        TimeoutExactly(rest, idle);
        var k := |Messages(rest, idle)|;
        assert |Messages(arrivals, idle)| == k + 1;
        assert forall i | 0 < i < k + 1 :: arrivals[i] == rest[i - 1];
        SumTail(arrivals, k);
      case Fault(_) =>
        var rest := if arrivals == [] then [] else arrivals[1..];
      assert Waited(arrivals, idle, 1) == OutcomeTime(arrivals, idle) + Waited(rest, idle, 0);
    }
  }

  /** Upstream falls silent after `k` messages: the next one is late, or the connection
      reports a timeout itself. */
  predicate SilentAfter(arrivals: seq<Arrival>, idle: nat, k: nat) {
    && TextUpTo(arrivals, idle, k)
    && (LateAt(arrivals, idle, k) ||
        (k < |arrivals| && arrivals[k].what.Fault? && ChainTimesOut(arrivals[k].what.err)))
  }

  /** A run times out exactly when upstream falls silent, after all its messages. */
  lemma SilenceTimesOut(arrivals: seq<Arrival>, idle: nat, k: nat)
    ensures SilentAfter(arrivals, idle, k) <==>
            IsTimeout(Ending(arrivals, idle)) && k == |Messages(arrivals, idle)|
  {
    TimeoutExactly(arrivals, idle);
    var n := |Messages(arrivals, idle)|;
    if n < |arrivals| && arrivals[n].what.Fault? {
      IsTimeoutExactly(arrivals[n].what.err);
    }
  }

  lemma {:induction false} SumTail(arrivals: seq<Arrival>, k: nat)
    requires k < |arrivals|
    ensures Sum(arrivals, k + 1) == arrivals[0].delay + Sum(arrivals[1..], k)
  {
    if k > 0 {
      SumTail(arrivals, k - 1);
    }
  }

  /** A run without a timeout that keeps the proxy waiting for at least `total`. */
  ghost predicate RunsFor(arrivals: seq<Arrival>, idle: nat, total: nat) {
    && |arrivals| > 0 && !IsTimeout(Ending(arrivals, idle))
    && TextUpTo(arrivals[..|arrivals| - 1], idle, |arrivals| - 1)
    && Sum(arrivals, |arrivals|) >= total
  }

  /** The idle timeout is no cap on the whole stream: any total can be waited
      without a timeout, however short the idle time. */
  lemma {:induction false} NoTotalCap(idle: nat, total: nat)
    requires idle > 0
    ensures exists arrivals :: RunsFor(arrivals, idle, total)
  {
    if total == 0 {
      var arrivals := [Arrival(0, Fault([OtherError("EOF")]))];
      assert Ending(arrivals, idle) == [OtherError("EOF")] && !NetTimeout([OtherError("EOF")][1..]);
      assert RunsFor(arrivals, idle, 0);
    } else {
      NoTotalCap(idle, total - 1);
      var arrivals :| RunsFor(arrivals, idle, total - 1);
      var longer := [Arrival(idle, Text(""))] + arrivals;
      assert longer[1..] == arrivals;
      SumTail(longer, |arrivals|);
      assert forall i | 0 < i < |longer| :: longer[i] == arrivals[i - 1];
      assert RunsFor(longer, idle, total);
    }
  }
}
