/**
 The logger itself: a ring in an array, and the fan-out of each entry to subscriber
 channels. Every method is a run of the transition system in `LogDelivery`.
 */
module Logger {
  import opened LogDelivery
  import opened LogRuns

  // ----------------------------------------------------------- modular arithmetic

  lemma {:induction false} ModShift(x: int, q: int, m: nat)
    requires m > 0
    ensures (x + q * m) % m == x % m
    decreases if q < 0 then -q else q
  {
    if q > 0 {
      ModShift(x, q - 1, m);
      ModOnce(x + (q - 1) * m, m);
      assert x + q * m == (x + (q - 1) * m) + m;
    } else if q < 0 {
      ModShift(x, q + 1, m);
      ModOnce(x + q * m, m);
      assert x + (q + 1) * m == (x + q * m) + m;
    }
  }

  lemma ModOnce(x: int, m: nat)
    requires m > 0
    ensures (x + m) % m == x % m
  {
    var q, r := x / m, x % m;
    assert x == q * m + r;
    assert x + m == (q + 1) * m + r;
    ModUnique(x + m, q + 1, r, m);
  }

  lemma MultipleIsFar(d: int, m: nat)
    ensures d >= 1 ==> d * m >= m
    ensures d <= 0 ==> d * m <= 0
    ensures d <= -1 ==> d * m + m <= 0
  {
  }

  lemma ModUnique(x: int, q: int, r: nat, m: nat)
    requires r < m && x == q * m + r
    ensures x % m == r
  {
    var p, s := x / m, x % m;
    assert (q - p) * m == s - r;
    MultipleIsFar(q - p, m);
  }

  lemma ModAdd(a: int, b: int, m: nat)
    requires m > 0
    ensures (a % m + b) % m == (a + b) % m
  {
    ModShift(a % m + b, a / m, m);
    assert a % m + b + (a / m) * m == a + b;
  }

  /** Two numbers less than `m` apart have different remainders. */
  lemma ModDistinct(j: int, n: int, m: nat)
    requires j < n < j + m
    ensures j % m != n % m
  {
    assert n - j == (n / m - j / m) * m + (n % m - j % m);
    MultipleIsFar(n / m - j / m, m);
  }

  // ------------------------------------------------------------------------ the ring

  /** The ring after the entries in `history`: entry number `j` sits in slot `j % cap`
      until entry `j + cap` overwrites it, and `head` is the next slot to write. */
  predicate RingHolds(slots: seq<LogEntry>, head: nat, count: nat, history: seq<LogEntry>) {
    && count == Min(|history|, |slots|)
    && (if |slots| == 0 then head == 0 else head == |history| % |slots|)
    && forall j {:trigger history[j]} | |history| - count <= j < |history| ::
         |slots| > 0 && slots[j % |slots|] == history[j]
  }

  /** So `head` only points at the oldest entry once the ring is full; before that it
      equals the number of entries. */
  lemma HeadUntilFull(slots: seq<LogEntry>, head: nat, count: nat, history: seq<LogEntry>)
    requires RingHolds(slots, head, count, history)
    ensures count <= |slots| && (|slots| > 0 ==> head < |slots|)
    ensures |history| < |slots| ==> head == count == |history|
    ensures |history| >= |slots| > 0 ==> count == |slots| && slots[head] == history[|history| - |slots|]
  {
    if |history| >= |slots| > 0 {
      ModOnce(|history| - |slots|, |slots|);
    } else if |slots| > 0 {
      ModUnique(|history|, 0, |history|, |slots|);
    }
  }

  lemma PushHolds(slots: seq<LogEntry>, head: nat, count: nat, history: seq<LogEntry>, e: LogEntry)
    requires RingHolds(slots, head, count, history) && head < |slots|
    ensures RingHolds(slots[head := e], (head + 1) % |slots|, if count < |slots| then count + 1 else count,
                      history + [e])
  {
    var n, m := |history|, |slots|;
    var after := history + [e];
    var kept := if count < m then count + 1 else count;
    ModAdd(n, 1, m);
    forall j | n + 1 - kept <= j < n + 1
      ensures slots[head := e][j % m] == after[j]
    {
      if j < n {
        ModDistinct(j, n, m);
      }
    }
  }

  function Slot(start: nat, i: nat, cap: nat): (k: nat)
    requires cap > 0
    ensures k < cap
  {
    (start + i) % cap
  }

  lemma SlotOf(slots: seq<LogEntry>, head: nat, count: nat, history: seq<LogEntry>, i: nat)
    requires RingHolds(slots, head, count, history) && i < count <= |slots|
    ensures slots[Slot((head - count + |slots|) % |slots|, i, |slots|)] == history[|history| - count + i]
  {
    var n, m := |history|, |slots|;
    ModAdd(n, m - count, m);
    ModOnce(n - count, m);
    ModAdd(n - count, i, m);
  }

  // ---------------------------------------------------------------------- the logger

  /** The pairs in which the first level is below the second. */
  predicate Below(lvl: Level, level: Level) {
    match level
    case Debug => false
    case Info => lvl == Debug
    case Warn => lvl == Debug || lvl == Info
    case Error => lvl != Error
  }

  function Rank(level: Level): nat {
    match level case Debug => 0 case Info => 1 case Warn => 2 case Error => 3
  }

  /** The steps an emission may consist of once it holds the lock. */
  predicate DuringEmit(step: Step) {
    step.Offer? || step.Receive?
  }

  /** Reading `count` slots from the oldest on gives the last `count` entries. */
  lemma SlotsInOrder(slots: seq<LogEntry>, head: nat, count: nat, history: seq<LogEntry>, cap: nat, start: int)
    requires RingHolds(slots, head, count, history) && |slots| == cap > 0
    requires start == (head - count + cap) % cap
    ensures InOrder(slots, start, cap, history[|history| - count..])
  {
    HeadUntilFull(slots, head, count, history);
    var latest := history[|history| - count..];
    forall i | 0 <= i < count
      ensures slots[Slot(start, i, cap)] == latest[i]
    {
      SlotOf(slots, head, count, history, i);
    }
  }

  predicate InOrder(slots: seq<LogEntry>, start: nat, cap: nat, latest: seq<LogEntry>) {
    |slots| == cap && cap > 0 && forall i | 0 <= i < |latest| :: slots[Slot(start, i, cap)] == latest[i]
  }

  /** The entries sent one by one into a fresh channel. */
  method Fill(snap: array<LogEntry>) returns (queue: seq<LogEntry>)
    ensures queue == snap[..]
  {
    queue := [];
    for i := 0 to snap.Length
      invariant queue == snap[..i]
    {
      queue := queue + [snap[i]];
    }
  }

  lemma EmissionRuns(s: State, e: LogEntry, begun: State, served: seq<Step>, m: State)
    requires Enabled(s, BeginEmit(e)) && begun == Apply(s, BeginEmit(e)) && IsRun(begun, served, m)
    requires m.lock == Emitting({})
    ensures IsRun(s, [BeginEmit(e)] + served + [EndEmit], Apply(m, EndEmit))
  {
    RunMore(s, [], s, BeginEmit(e));
    RunConcat(s, [] + [BeginEmit(e)], begun, served, m);
    assert [] + [BeginEmit(e)] == [BeginEmit(e)];
    RunMore(s, [BeginEmit(e)] + served, m, EndEmit);
  }

  /** Every registered channel has been offered the entry once, and no other touched. */
  predicate ServesEach(s: State, e: LogEntry, t: State) {
    forall ch | ch in s.chans ::
      ch in t.chans &&
      if ch in s.subs then OfferedOnce(s.chans[ch], t.chans[ch], e) else Untouched(s.chans[ch], t.chans[ch])
  }

  lemma EmissionServesEach(s: State, e: LogEntry, served: seq<Step>, t: State)
    requires IsRun(s, [BeginEmit(e)] + served + [EndEmit], t)
    requires forall i | 0 <= i < |served| :: DuringEmit(served[i])
    ensures ServesEach(s, e, t)
  {
    forall ch | ch in s.chans
      ensures ch in t.chans
      ensures if ch in s.subs then OfferedOnce(s.chans[ch], t.chans[ch], e) else Untouched(s.chans[ch], t.chans[ch])
    {
      EmissionServesAll(s, e, served, t, ch);
    }
  }

  lemma EmissionEnds(s: State, e: LogEntry, begun: State, served: seq<Step>, m: State)
    requires Reachable(s) && Enabled(s, BeginEmit(e)) && begun == Apply(s, BeginEmit(e)) && IsRun(begun, served, m)
    requires m.lock == Emitting({}) && forall i | 0 <= i < |served| :: DuringEmit(served[i])
    ensures IsRun(s, [BeginEmit(e)] + served + [EndEmit], Apply(m, EndEmit))
    ensures Reachable(Apply(m, EndEmit)) && ServesEach(s, e, Apply(m, EndEmit))
  {
    EmissionRuns(s, e, begun, served, m);
    ReachRun(s, [BeginEmit(e)] + served + [EndEmit], Apply(m, EndEmit));
    EmissionServesEach(s, e, served, Apply(m, EndEmit));
  }

  class Logger {
    const cap: nat
    const ring: array<LogEntry>
    var head: nat
    var count: nat
    var level: Level
    var stdout: seq<Line>
    var subs: set<ChanId>
    var dropped: set<ChanId>
    /** The buffers of the channels made so far, by number. */
    var queues: map<ChanId, seq<LogEntry>>
    var made: ChanId
    ghost var chans: map<ChanId, Chan>
    ghost var history: seq<LogEntry>
    ghost var lossy: set<ChanId>
    ghost var lock: Lock

    constructor (ringCap: nat, level: Level)
      ensures Valid() && fresh(ring) && View() == Init(ringCap) && this.level == level
    {
      cap, ring := ringCap, new LogEntry[ringCap];
      head, count, stdout, subs, dropped, queues, made := 0, 0, [], {}, {}, map[], 0;
      this.level := level;
      chans, history, lossy, lock := map[], [], {}, Free;
      new;
      if cap > 0 {
        ModUnique(0, 0, 0, cap);
      }
      ReachInit(cap);
    }

    ghost function View(): State
      reads this
    {
      State(cap, history, stdout, chans, subs, dropped, lock, lossy)
    }

    ghost predicate Ringed()
      reads this, ring
    {
      ring.Length == cap && RingHolds(ring[..], head, count, history)
    }

    /** The channel table. */
    ghost predicate Wired()
      reads this
    {
      && queues.Keys == chans.Keys && subs <= chans.Keys
      && (forall ch | ch in chans :: ch < made && queues[ch] == chans[ch].queue)
    }

    /** Between two critical sections. */
    ghost predicate Valid()
      reads this, ring
    {
      Ringed() && Wired() && lock.Free? && Reachable(View())
    }

    method Push(e: LogEntry)
      requires Ringed()
      modifies ring, this`head, this`count
      ensures RingHolds(ring[..], head, count, history + [e])
    {
      HeadUntilFull(ring[..], head, count, history);
      if cap == 0 {
        return;
      }
      PushHolds(ring[..], head, count, history, e);
      ghost var slots := ring[..];
      ring[head] := e;
      assert ring[..] == slots[head := e];
      head := (head + 1) % cap;
      if count < cap {
        count := count + 1;
      }
    }

    /** The last `cap` entries, oldest first, also after wrapping around and when the
        ring has no slots at all. */
    method SnapshotLocked() returns (out: array<LogEntry>)
      requires Ringed()
      ensures fresh(out) && out[..] == Snapshot(View())
    {
      out := new LogEntry[count];
      if cap == 0 {
        return;
      }
      var start := (head - count + cap) % cap;
      SlotsInOrder(ring[..], head, count, history, cap, start);
      CopySlots(out, start, history[|history| - count..]);
    }

    /** Copies consecutive slots, wrapping around at the end of the ring. */
    method CopySlots(out: array<LogEntry>, start: nat, ghost latest: seq<LogEntry>)
      requires out != ring && out.Length == |latest| && InOrder(ring[..], start, cap, latest)
      modifies out
      ensures out[..] == latest
    {
      for i := 0 to out.Length
        invariant forall k | 0 <= k < i :: out[k] == latest[k]
      {
        assert ring[..][Slot(start, i, cap)] == latest[i];
        out[i] := ring[Slot(start, i, cap)];
      }
    }

    /** Consumers receiving while a critical section is under way: any number of times,
        from any channels. */
    method ConsumersReceive() returns (ghost steps: seq<Step>)
      requires Wired()
      modifies this`queues, this`chans
      ensures Wired() && chans.Keys == old(chans).Keys
      ensures IsRun(old(View()), steps, View())
      ensures forall i | 0 <= i < |steps| :: steps[i].Receive?
    {
      steps := [];
      var rounds: nat := *;
      while rounds > 0
        invariant Wired() && chans.Keys == old(chans).Keys
        invariant IsRun(old(View()), steps, View())
        invariant forall i | 0 <= i < |steps| :: steps[i].Receive?
      {
        var ch: ChanId := *;
        if ch in queues && queues[ch] != [] {
          ghost var before := View();
          var _ := Take(ch);
          RunMore(old(View()), steps, before, Receive(ch));
          steps := steps + [Receive(ch)];
        }
        rounds := rounds - 1;
      }
    }

    /** One receive from a channel that has something to offer. */
    method Take(ch: ChanId) returns (e: LogEntry)
      requires Wired() && ch in queues && queues[ch] != []
      modifies this`queues, this`chans
      ensures Wired() && View() == Apply(old(View()), Receive(ch))
      ensures e == old(queues[ch][0])
    {
      e := queues[ch][0];
      queues := queues[ch := queues[ch][1..]];
      ghost var c := chans[ch];
      chans := chans[ch := c.(queue := c.queue[1..], received := c.received + [e])];
    }

    /** The `select` with its default branch; `waiting` is whether a receiver stands at
        the channel. */
    method TrySend(ch: ChanId, e: LogEntry, waiting: bool)
      requires Wired() && Enabled(View(), Offer(ch, waiting)) && e == history[|history| - 1]
      modifies this`queues, this`chans, this`stdout, this`dropped, this`lossy, this`lock
      ensures Wired() && View() == Apply(old(View()), Offer(ch, waiting))
    {
      lock := Emitting(lock.pending - {ch});
      chans := chans[ch := Offered(chans[ch], e, cap, waiting)];
      if !waiting {
        if |queues[ch]| < cap {
          queues := queues[ch := queues[ch] + [e]];
        } else {
          NoteLoss(ch);
        }
      }
    }

    /** A loss is announced once for as long as the channel stays subscribed. */
    method NoteLoss(ch: ChanId)
      modifies this`stdout, this`dropped, this`lossy
      ensures dropped == old(dropped) + {ch} && lossy == old(lossy) + {ch}
      ensures stdout == if ch in old(dropped) then old(stdout) else old(stdout) + [DropNotice]
    {
      if ch !in dropped {
        dropped := dropped + {ch};
        stdout := stdout + [DropNotice];
      }
      lossy := lossy + {ch};
      assert dropped == old(dropped) + {ch};
    }

    /** One turn of the fan-out: the consumers do as they please, then `ch` is served. */
    method ServeOne(ch: ChanId, e: LogEntry) returns (ghost steps: seq<Step>)
      requires Wired() && Enabled(View(), Offer(ch, false)) && e == history[|history| - 1]
      modifies this`stdout, this`dropped, this`queues, this`chans, this`lossy, this`lock
      ensures Wired() && lock == Emitting(old(lock).pending - {ch})
      ensures IsRun(old(View()), steps, View())
      ensures forall i | 0 <= i < |steps| :: DuringEmit(steps[i])
    {
      ghost var start := View();
      steps := ConsumersReceive();
      ghost var before := View();
      var waiting: bool := *;
      waiting := waiting && queues[ch] == [];
      TrySend(ch, e, waiting);
      RunMore(start, steps, before, Offer(ch, waiting));
      steps := steps + [Offer(ch, waiting)];
    }

    /** Offers the entry to one subscriber after the other, in any order. */
    method FanOut(e: LogEntry) returns (ghost steps: seq<Step>)
      requires Ringed() && Wired() && lock == Emitting(subs) && history != [] && e == history[|history| - 1]
      modifies this`stdout, this`dropped, this`queues, this`chans, this`lossy, this`lock
      ensures Ringed() && Wired() && lock == Emitting({})
      ensures IsRun(old(View()), steps, View())
      ensures forall i | 0 <= i < |steps| :: DuringEmit(steps[i])
    {
      ghost var start := View();
      steps := [];
      var rest := subs;
      while rest != {}
        invariant Wired() && lock == Emitting(rest) && rest <= subs
        invariant IsRun(start, steps, View())
        invariant forall i | 0 <= i < |steps| :: DuringEmit(steps[i])
        decreases rest
      {
        var ch :| ch in rest;
        ghost var before := View();
        ghost var served := ServeOne(ch, e);
        RunConcat(start, steps, before, served, View());
        steps := steps + served;
        rest := rest - {ch};
      }
    }

    /** Appends to the ring, prints, and offers the entry to every subscriber, in any
        order and whatever the consumers do meanwhile. */
    method Emit(e: LogEntry) returns (ghost middle: seq<Step>)
      requires Valid()
      modifies ring, this`head, this`count, this`stdout, this`dropped, this`queues
      modifies this`chans, this`history, this`lossy, this`lock
      ensures Valid() && history == old(history) + [e] && subs == old(subs)
      ensures IsRun(old(View()), [BeginEmit(e)] + middle + [EndEmit], View())
      ensures forall i | 0 <= i < |middle| :: DuringEmit(middle[i])
      ensures ServesEach(old(View()), e, View())
    {
      ghost var start := View();
      Begin(e);
      ghost var begun := View();
      middle := FanOut(e);
      EmissionEnds(start, e, begun, middle, View());
      Release();
    }

    method Release()
      requires Ringed() && Wired() && lock == Emitting({}) && Reachable(Apply(View(), EndEmit))
      modifies this`lock
      ensures Valid() && View() == Apply(old(View()), EndEmit)
    {
      lock := Free;
    }

    /** The emission up to its first subscriber: the ring and standard output. */
    method Begin(e: LogEntry)
      requires Valid()
      modifies ring, this`head, this`count, this`stdout, this`history, this`lock
      ensures Ringed() && Wired() && View() == Apply(old(View()), BeginEmit(e))
    {
      Push(e);
      history := history + [e];
      stdout := stdout + [Entry(e)];
      lock := Emitting(subs);
    }

    /** Entries below the threshold go nowhere. */
    method Logf(time: int, lvl: Level, msg: string) returns (ghost steps: seq<Step>)
      requires Valid()
      modifies ring, this`head, this`count, this`stdout, this`dropped, this`queues
      modifies this`chans, this`history, this`lossy, this`lock
      ensures Valid() && IsRun(old(View()), steps, View())
      ensures history ==
              if Below(lvl, level) then old(history) else old(history) + [LogEntry(time, lvl, msg, map[])]
      ensures Below(lvl, level) ==> View() == old(View())
    {
      if Rank(lvl) < Rank(level) {
        steps := [];
        return;
      }
      ghost var middle := Emit(LogEntry(time, lvl, msg, map[]));
      steps := [BeginEmit(LogEntry(time, lvl, msg, map[]))] + middle + [EndEmit];
    }

    /** A fresh channel holding `queue`, registered. */
    method Register(queue: seq<LogEntry>) returns (ch: ChanId)
      requires Wired() && lock.Free? && queue == Snapshot(View())
      modifies this`queues, this`chans, this`subs, this`dropped, this`made
      ensures Wired()
      ensures Enabled(old(View()), LogDelivery.Subscribe(ch)) && View() == Apply(old(View()), LogDelivery.Subscribe(ch))
    {
      ch := made;
      made := made + 1;
      queues := queues[ch := queue];
      chans := chans[ch := Chan(queue, [], |history|, |queue|, [], [])];
      subs := subs + {ch};
      dropped := dropped - {ch};
    }

    /** The channel is filled with the snapshot and registered in one critical section. */
    method Subscribe() returns (ch: ChanId)
      requires Valid()
      modifies this`queues, this`chans, this`subs, this`dropped, this`made
      ensures Valid()
      ensures Enabled(old(View()), LogDelivery.Subscribe(ch)) && View() == Apply(old(View()), LogDelivery.Subscribe(ch))
      ensures ch !in old(subs) && subs == old(subs) + {ch} && dropped == old(dropped) - {ch}
      ensures ch in queues && queues[ch] == history[|history| - Min(|history|, cap)..]
    {
      var snap := SnapshotLocked();
      var queue := Fill(snap);
      ch := Register(queue);
      ReachStep(old(View()), LogDelivery.Subscribe(ch));
    }

    method Unsubscribe(ch: ChanId)
      requires Valid()
      modifies this`subs, this`dropped
      ensures Valid() && View() == Apply(old(View()), LogDelivery.Unsubscribe(ch))
      ensures subs == old(subs) - {ch} && dropped == old(dropped) - {ch}
    {
      ReachStep(View(), LogDelivery.Unsubscribe(ch));
      subs := subs - {ch};
      dropped := dropped - {ch};
    }
  }
}
