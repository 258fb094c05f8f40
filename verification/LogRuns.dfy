/**
 Laws about whole runs of the logger, read off the steps: who is registered, and what
 one emission brings to each registered subscriber.
 */
module LogRuns {
  import opened LogDelivery

  // --------------------------------------------------------------------- registration

  /** The channel has been subscribed, and not unsubscribed after that. */
  predicate SubscribedLast(steps: seq<Step>, ch: ChanId) {
    exists i | 0 <= i < |steps| :: steps[i] == Subscribe(ch) && Unsubscribe(ch) !in steps[i + 1..]
  }

  lemma {:induction false} RegisteredFrom(s: State, steps: seq<Step>, t: State, ch: ChanId)
    requires IsRun(s, steps, t)
    ensures ch in t.subs <==> SubscribedLast(steps, ch) || (ch in s.subs && Unsubscribe(ch) !in steps)
    decreases |steps|
  {
    if steps != [] {
      var rest := steps[1..];
      RegisteredFrom(Apply(s, steps[0]), rest, t, ch);
      assert steps == [steps[0]] + rest;
      SubscribedUnfolds(steps, ch);
    }
  }

  lemma SubscribedUnfolds(steps: seq<Step>, ch: ChanId)
    requires steps != []
    ensures SubscribedLast(steps, ch) <==>
            SubscribedLast(steps[1..], ch) || (steps[0] == Subscribe(ch) && Unsubscribe(ch) !in steps[1..])
  {
    var rest := steps[1..];
    if i :| 0 <= i < |rest| && rest[i] == Subscribe(ch) && Unsubscribe(ch) !in rest[i + 1..] {
      assert steps[i + 1] == Subscribe(ch) && steps[i + 1 + 1..] == rest[i + 1..];
    }
    if i :| 0 <= i < |steps| && steps[i] == Subscribe(ch) && Unsubscribe(ch) !in steps[i + 1..] {
      assert i > 0 ==> rest[i - 1] == Subscribe(ch) && rest[i - 1 + 1..] == steps[i + 1..];
    }
  }

  /** After any run, exactly those channels are registered that were subscribed and not
      unsubscribed since. */
  lemma RegisteredExactly(cap: nat, steps: seq<Step>, t: State, ch: ChanId)
    requires IsRun(Init(cap), steps, t)
    ensures ch in t.subs <==> SubscribedLast(steps, ch)
  {
    RegisteredFrom(Init(cap), steps, t, ch);
  }

  // --------------------------------------------------------------------- one emission

  /** How often a run offers something to a channel. */
  function Offers(steps: seq<Step>, ch: ChanId): nat {
    if steps == [] then 0 else (if steps[0].Offer? && steps[0].ch == ch then 1 else 0) + Offers(steps[1..], ch)
  }

  /** What has gone through a channel so far. */
  function Contents(c: Chan): seq<LogEntry> {
    c.received + c.queue
  }

  /** The channel was offered `e` once: it has `e` at its end, or has lost it. */
  predicate OfferedOnce(c: Chan, d: Chan, e: LogEntry) {
    || (d.outcomes == c.outcomes + [true] && Contents(d) == Contents(c) + [e])
    || (d.outcomes == c.outcomes + [false] && Contents(d) == Contents(c))
  }

  predicate Untouched(c: Chan, d: Chan) {
    d.outcomes == c.outcomes && Contents(d) == Contents(c)
  }

  lemma OfferOnce(c: Chan, e: LogEntry, cap: nat, waiting: bool)
    requires waiting ==> c.queue == []
    ensures OfferedOnce(c, Offered(c, e, cap, waiting), e)
  {
    OfferedPutsIn(c, e, cap, waiting);
  }

  lemma ReceiveTouchesNothing(c: Chan)
    requires c.queue != []
    ensures Untouched(c, c.(queue := c.queue[1..], received := c.received + [c.queue[0]]))
  {
  }

  /** One step of an emission under way, seen from one channel. */
  lemma StepServes(s: State, step: Step, ch: ChanId)
    requires s.lock.Emitting? && s.history != [] && Enabled(s, step) && step != EndEmit && ch in s.chans
    ensures var t, e := Apply(s, step), s.history[|s.history| - 1];
            && t.lock.Emitting? && t.history == s.history && t.chans.Keys == s.chans.Keys
            && (if step.Offer? && step.ch == ch
                then ch in s.lock.pending && ch !in t.lock.pending && OfferedOnce(s.chans[ch], t.chans[ch], e)
                else (ch in t.lock.pending <==> ch in s.lock.pending) && Untouched(s.chans[ch], t.chans[ch]))
  {
    match step
    case Offer(o, waiting) =>
      if o == ch {
        OfferOnce(s.chans[ch], s.history[|s.history| - 1], s.cap, waiting);
      }
    case Receive(o) =>
      if o == ch {
        ReceiveTouchesNothing(s.chans[ch]);
      }
    case _ =>
  }

  /** The middle of an emission: a channel is served at most once, and exactly when it
      leaves the pending ones. */
  lemma {:induction false} MiddleServes(s: State, steps: seq<Step>, t: State, ch: ChanId)
    requires s.lock.Emitting? && s.history != [] && IsRun(s, steps, t) && EndEmit !in steps && ch in s.chans
    ensures t.lock.Emitting? && t.history == s.history && t.chans.Keys == s.chans.Keys
    ensures ch in t.lock.pending ==> ch in s.lock.pending
    ensures Offers(steps, ch) == if ch in s.lock.pending && ch !in t.lock.pending then 1 else 0
    ensures if ch in s.lock.pending && ch !in t.lock.pending
            then OfferedOnce(s.chans[ch], t.chans[ch], s.history[|s.history| - 1])
            else Untouched(s.chans[ch], t.chans[ch])
    decreases |steps|
  {
    if steps != [] {
      StepServes(s, steps[0], ch);
      MiddleServes(Apply(s, steps[0]), steps[1..], t, ch);
    }
  }

  /** A completed emission, whatever the consumers do meanwhile. */
  ghost predicate Emission(s: State, e: LogEntry, middle: seq<Step>, t: State) {
    EndEmit !in middle && IsRun(s, [BeginEmit(e)] + middle + [EndEmit], t)
  }

  lemma EmissionParts(s: State, e: LogEntry, middle: seq<Step>, t: State) returns (m: State)
    requires Emission(s, e, middle, t)
    ensures Enabled(s, BeginEmit(e)) && IsRun(Apply(s, BeginEmit(e)), middle, m)
    ensures m.lock == Emitting({}) && t == Apply(m, EndEmit)
  {
    var steps := [BeginEmit(e)] + middle + [EndEmit];
    assert steps[0] == BeginEmit(e) && steps[1..] == middle + [EndEmit];
    m := RunBeforeLast(Apply(s, BeginEmit(e)), middle, EndEmit, t);
  }

  lemma {:induction false} RunBeforeLast(s: State, steps: seq<Step>, last: Step, t: State) returns (m: State)
    requires IsRun(s, steps + [last], t)
    ensures IsRun(s, steps, m) && Enabled(m, last) && t == Apply(m, last)
    decreases |steps|
  {
    if steps == [] {
      m := s;
      assert ([] + [last])[0] == last && ([] + [last])[1..] == [];
    } else {
      assert (steps + [last])[0] == steps[0] && (steps + [last])[1..] == steps[1..] + [last];
      m := RunBeforeLast(Apply(s, steps[0]), steps[1..], last, t);
    }
  }

  /** A completed emission of `e` offers `e` exactly once to every channel that was
      registered when it began, and leaves every other channel alone. */
  lemma EmissionServesAll(s: State, e: LogEntry, middle: seq<Step>, t: State, ch: ChanId)
    requires Emission(s, e, middle, t) && ch in s.chans
    ensures t.history == s.history + [e] && t.lock.Free? && ch in t.chans
    ensures Offers(middle, ch) == if ch in s.subs then 1 else 0
    ensures if ch in s.subs then OfferedOnce(s.chans[ch], t.chans[ch], e) else Untouched(s.chans[ch], t.chans[ch])
  {
    var m := EmissionParts(s, e, middle, t);
    MiddleServes(Apply(s, BeginEmit(e)), middle, m, ch);
  }

  /** So once subscribed and not unsubscribed, a subscriber that has lost nothing has the
      latest entry at the end of what went through its channel. */
  lemma LiveEntryArrives(cap: nat, before: seq<Step>, s: State, e: LogEntry, middle: seq<Step>, t: State, ch: ChanId)
    requires IsRun(Init(cap), before, s) && Emission(s, e, middle, t)
    requires SubscribedLast(before, ch)
    ensures ch in s.chans && ch in t.chans
    ensures Lossless(t.chans[ch]) ==> Contents(t.chans[ch]) == Contents(s.chans[ch]) + [e]
  {
    RegisteredExactly(cap, before, s, ch);
    InitInv(cap);
    RunKeepsInv(Init(cap), before, s);
    EmissionServesAll(s, e, middle, t, ch);
    if Lossless(t.chans[ch]) {
      assert t.chans[ch].outcomes[|s.chans[ch].outcomes|];
    }
  }
}
