/**
 The logger's fan-out as a transition system: every interleaving of emissions,
 subscriptions, unsubscriptions and consumer receives.

 The mutex makes Subscribe and unsubscribe single steps. An emission is not one: while
 it offers its entry to the subscribers one after the other, in any order, consumers go
 on receiving from their channels.
 */
module LogDelivery {

  type ChanId = nat

  datatype Level = Debug | Info | Warn | Error

  datatype LogEntry = LogEntry(time: int, level: Level, msg: string, fields: map<string, string>)

  /** How an emission finds a channel: what had been received from it by then, and
      whether a receiver stands waiting at it. */
  datatype Moment = Moment(received: nat, waiting: bool)

  /** A subscriber's channel. Only `queue` exists at run time; the rest is history:
      what the consumer took, how many entries had been emitted and how many of them
      the snapshot held when it subscribed, and for each later emission whether the
      channel took it and how it found the channel. */
  datatype Chan = Chan(
    queue: seq<LogEntry>,
    received: seq<LogEntry>,
    joined: nat,
    snap: nat,
    outcomes: seq<bool>,
    moments: seq<Moment>)

  /** The lock is free, or held by an emission that still has channels to serve. */
  datatype Lock = Free | Emitting(pending: set<ChanId>)

  datatype Line = Entry(entry: LogEntry) | DropNotice

  /** `history` is everything ever emitted, `lossy` the channels that ever lost an
      entry. */
  datatype State = State(
    cap: nat,
    history: seq<LogEntry>,
    stdout: seq<Line>,
    chans: map<ChanId, Chan>,
    subs: set<ChanId>,
    dropped: set<ChanId>,
    lock: Lock,
    lossy: set<ChanId>)

  function Init(cap: nat): State {
    State(cap, [], [], map[], {}, {}, Free, {})
  }

  // -------------------------------------------------------------------- steps

  datatype Step =
    | BeginEmit(e: LogEntry)
    | Offer(ch: ChanId, waiting: bool)
    | EndEmit
    | Subscribe(ch: ChanId)
    | Unsubscribe(ch: ChanId)
    | Receive(ch: ChanId)

  function Min(a: nat, b: nat): nat {
    if a < b then a else b
  }

  /** The ring's contents: the last `cap` entries emitted. */
  function Snapshot(s: State): seq<LogEntry> {
    s.history[|s.history| - Min(|s.history|, s.cap)..]
  }

  predicate Enabled(s: State, step: Step) {
    match step
    case BeginEmit(_) => s.lock.Free?
    case Offer(ch, waiting) =>
      && s.lock.Emitting? && ch in s.lock.pending && ch in s.chans && s.history != []
      && (waiting ==> s.chans[ch].queue == [])
    case EndEmit => s.lock == Emitting({})
    case Subscribe(ch) => s.lock.Free? && ch !in s.chans
    case Unsubscribe(ch) => s.lock.Free?
    case Receive(ch) => ch in s.chans && s.chans[ch].queue != []
  }

  predicate Takes(c: Chan, cap: nat, waiting: bool) {
    waiting || |c.queue| < cap
  }

  /** The non-blocking send: handed to a receiver that stands waiting, else buffered when
      there is room, else lost. An unbuffered channel only knows the first and the last. */
  function Offered(c: Chan, e: LogEntry, cap: nat, waiting: bool): Chan {
    c.(queue := if !waiting && |c.queue| < cap then c.queue + [e] else c.queue,
       received := if waiting then c.received + [e] else c.received,
       outcomes := c.outcomes + [Takes(c, cap, waiting)],
       moments := c.moments + [Moment(|c.received|, waiting)])
  }

  function Apply(s: State, step: Step): State
    requires Enabled(s, step)
  {
    match step
    case BeginEmit(e) =>
      s.(history := s.history + [e], stdout := s.stdout + [Entry(e)], lock := Emitting(s.subs))
    case Offer(ch, waiting) =>
      var c, e := s.chans[ch], s.history[|s.history| - 1];
      var after := s.chans[ch := Offered(c, e, s.cap, waiting)];
      var served := s.(chans := after, lock := Emitting(s.lock.pending - {ch}));
      if Takes(c, s.cap, waiting) then served
      else served.(
        stdout := if ch in s.dropped then s.stdout else s.stdout + [DropNotice],
        dropped := s.dropped + {ch},
        lossy := s.lossy + {ch})
    case EndEmit => s.(lock := Free)
    case Subscribe(ch) =>
      var snapshot := Snapshot(s);
      s.(chans := s.chans[ch := Chan(snapshot, [], |s.history|, |snapshot|, [], [])],
         subs := s.subs + {ch}, dropped := s.dropped - {ch})
    case Unsubscribe(ch) => s.(subs := s.subs - {ch}, dropped := s.dropped - {ch})
    case Receive(ch) =>
      var c := s.chans[ch];
      s.(chans := s.chans[ch := c.(queue := c.queue[1..], received := c.received + [c.queue[0]])])
  }

  ghost predicate IsRun(s: State, steps: seq<Step>, t: State)
    decreases |steps|
  {
    if steps == [] then s == t else Enabled(s, steps[0]) && IsRun(Apply(s, steps[0]), steps[1..], t)
  }

  lemma {:induction false} RunConcat(s: State, a: seq<Step>, t: State, b: seq<Step>, u: State)
    requires IsRun(s, a, t) && IsRun(t, b, u)
    ensures IsRun(s, a + b, u)
    decreases |a|
  {
    if a == [] {
      assert a + b == b;
    } else {
      assert (a + b)[0] == a[0] && (a + b)[1..] == a[1..] + b;
      RunConcat(Apply(s, a[0]), a[1..], t, b, u);
    }
  }

  lemma RunMore(s: State, a: seq<Step>, t: State, step: Step)
    requires IsRun(s, a, t) && Enabled(t, step)
    ensures IsRun(s, a + [step], Apply(t, step))
  {
    assert IsRun(t, [step], Apply(t, step)) by {
      assert [step][1..] == [];
    }
    RunConcat(s, a, t, [step], Apply(t, step));
  }

  /** The states a logger can get into, over every interleaving. */
  ghost predicate Reachable(s: State) {
    exists steps: seq<Step> :: IsRun(Init(s.cap), steps, s)
  }

  lemma ReachInit(cap: nat)
    ensures Reachable(Init(cap))
  {
    assert IsRun(Init(cap), [], Init(cap));
  }

  lemma ReachRun(s: State, steps: seq<Step>, t: State)
    requires Reachable(s) && IsRun(s, steps, t)
    ensures Reachable(t)
  {
    var before :| IsRun(Init(s.cap), before, s);
    RunConcat(Init(s.cap), before, s, steps, t);
    RunKeepsCap(s, steps, t);
  }

  lemma ReachStep(s: State, step: Step)
    requires Reachable(s) && Enabled(s, step)
    ensures Reachable(Apply(s, step))
  {
    assert IsRun(s, [], s);
    RunMore(s, [], s, step);
    ReachRun(s, [] + [step], Apply(s, step));
  }

  lemma {:induction false} RunKeepsCap(s: State, steps: seq<Step>, t: State)
    requires IsRun(s, steps, t)
    ensures t.cap == s.cap
    decreases |steps|
  {
    if steps != [] {
      RunKeepsCap(Apply(s, steps[0]), steps[1..], t);
    }
  }

  // ------------------------------------------------------------- what is delivered

  /** The emissions from number `from` on that the channel took, in order. */
  function Accepted(history: seq<LogEntry>, from: nat, outcomes: seq<bool>): seq<LogEntry>
    requires from + |outcomes| <= |history|
  {
    if outcomes == [] then []
    else
      var k := |outcomes| - 1;
      Accepted(history, from, outcomes[..k]) + if outcomes[k] then [history[from + k]] else []
  }

  function Taken(outcomes: seq<bool>): (n: nat)
    ensures n <= |outcomes|
  {
    if outcomes == [] then 0
    else Taken(outcomes[..|outcomes| - 1]) + if outcomes[|outcomes| - 1] then 1 else 0
  }

  /** Snapshot first, then the accepted part of what was emitted since. */
  function Delivered(history: seq<LogEntry>, c: Chan): seq<LogEntry>
    requires c.snap <= c.joined && c.joined + |c.outcomes| <= |history|
  {
    history[c.joined - c.snap..c.joined] + Accepted(history, c.joined, c.outcomes)
  }

  predicate Lossless(c: Chan) {
    forall i | 0 <= i < |c.outcomes| :: c.outcomes[i]
  }

  // -------------------------------------------------------------------- invariant

  /** Each emission was taken exactly when a receiver stood waiting, or when what had
      been put in so far, less what had been received, left room; and a receiver only
      waits at an empty channel. */
  predicate TakenExactly(snap: nat, cap: nat, outcomes: seq<bool>, moments: seq<Moment>)
    requires |moments| == |outcomes|
  {
    outcomes == [] ||
    var k := |outcomes| - 1;
    && (outcomes[k] <==> moments[k].waiting || snap + Taken(outcomes[..k]) < cap + moments[k].received)
    && (moments[k].waiting ==> snap + Taken(outcomes[..k]) == moments[k].received)
    && TakenExactly(snap, cap, outcomes[..k], moments[..k])
  }

  predicate ChanInv(history: seq<LogEntry>, cap: nat, c: Chan) {
    && c.snap == Min(c.joined, cap)
    && c.joined + |c.outcomes| <= |history|
    && |c.moments| == |c.outcomes|
    && |c.queue| <= cap
    && c.received + c.queue == Delivered(history, c)
    && TakenExactly(c.snap, cap, c.outcomes, c.moments)
  }

  /** How many of the emissions so far a registered channel has been offered. */
  function Due(s: State, ch: ChanId): int {
    |s.history| - if s.lock.Emitting? && ch in s.lock.pending then 1 else 0
  }

  function Notices(stdout: seq<Line>): nat {
    if stdout == [] then 0
    else Notices(stdout[..|stdout| - 1]) + if stdout[|stdout| - 1].DropNotice? then 1 else 0
  }

  function Entries(stdout: seq<Line>): seq<LogEntry> {
    if stdout == [] then []
    else
      var k := |stdout| - 1;
      Entries(stdout[..k]) + if stdout[k].Entry? then [stdout[k].entry] else []
  }

  /** Every channel ever made. */
  predicate ChansInv(history: seq<LogEntry>, cap: nat, chans: map<ChanId, Chan>) {
    forall ch | ch in chans :: ChanInv(history, cap, chans[ch])
  }

  /** Every registered channel has been offered everything it is due. */
  predicate OffersInv(s: State) {
    && s.subs <= s.chans.Keys
    && (s.lock.Emitting? ==> s.lock.pending <= s.subs && s.history != [])
    && (forall ch | ch in s.subs :: s.chans[ch].joined + |s.chans[ch].outcomes| == Due(s, ch))
  }

  predicate LossyExactly(lossy: set<ChanId>, chans: map<ChanId, Chan>) {
    forall ch | ch in chans :: ch in lossy <==> !Lossless(chans[ch])
  }

  predicate FlagsInv(subs: set<ChanId>, dropped: set<ChanId>, lossy: set<ChanId>) {
    dropped <= subs && forall ch | ch in subs :: ch in dropped <==> ch in lossy
  }

  /** The flags tell exactly who lost something, and each loser was announced once. */
  predicate LossInv(s: State) {
    && s.lossy <= s.chans.Keys
    && LossyExactly(s.lossy, s.chans)
    && FlagsInv(s.subs, s.dropped, s.lossy)
    && Notices(s.stdout) == |s.lossy|
  }

  predicate Inv(s: State) {
    ChansInv(s.history, s.cap, s.chans) && OffersInv(s) && LossInv(s) && Entries(s.stdout) == s.history
  }

  // ------------------------------------------------------------- one channel at a time

  lemma {:induction false} AcceptedExtends(history: seq<LogEntry>, e: LogEntry, from: nat, outcomes: seq<bool>)
    requires from + |outcomes| <= |history|
    ensures Accepted(history + [e], from, outcomes) == Accepted(history, from, outcomes)
    decreases |outcomes|
  {
    if outcomes != [] {
      AcceptedExtends(history, e, from, outcomes[..|outcomes| - 1]);
    }
  }

  lemma EmitKeepsChan(history: seq<LogEntry>, cap: nat, c: Chan, e: LogEntry)
    requires ChanInv(history, cap, c)
    ensures ChanInv(history + [e], cap, c)
  {
    AcceptedExtends(history, e, c.joined, c.outcomes);
    assert (history + [e])[c.joined - c.snap..c.joined] == history[c.joined - c.snap..c.joined];
  }

  lemma {:induction false} AcceptedLength(history: seq<LogEntry>, from: nat, outcomes: seq<bool>)
    requires from + |outcomes| <= |history|
    ensures |Accepted(history, from, outcomes)| == Taken(outcomes)
    decreases |outcomes|
  {
    if outcomes != [] {
      AcceptedLength(history, from, outcomes[..|outcomes| - 1]);
    }
  }

  /** What is in the buffer is what was put in less what was taken out. */
  lemma ChanCount(history: seq<LogEntry>, cap: nat, c: Chan)
    requires ChanInv(history, cap, c)
    ensures |c.received| + |c.queue| == c.snap + Taken(c.outcomes)
  {
    AcceptedLength(history, c.joined, c.outcomes);
    assert |c.received + c.queue| == |Delivered(history, c)|;
  }

  lemma OfferKeepsChan(history: seq<LogEntry>, cap: nat, c: Chan, e: LogEntry, waiting: bool)
    requires ChanInv(history, cap, c) && c.joined + |c.outcomes| == |history| - 1 && e == history[|history| - 1]
    requires waiting ==> c.queue == []
    ensures ChanInv(history, cap, Offered(c, e, cap, waiting))
  {
    var d := Offered(c, e, cap, waiting);
    assert TakenExactly(d.snap, cap, d.outcomes, d.moments) by {
      ChanCount(history, cap, c);
      TakenMore(c.snap, cap, c.outcomes, c.moments, Takes(c, cap, waiting), Moment(|c.received|, waiting));
    }
    assert d.received + d.queue == Delivered(history, d) by {
      OfferedPutsIn(c, e, cap, waiting);
      DeliveryExtends(history, history[c.joined - c.snap..c.joined], c.joined, c.outcomes, Takes(c, cap, waiting),
                      c.received + c.queue);
    }
  }

  lemma TakenMore(snap: nat, cap: nat, outcomes: seq<bool>, moments: seq<Moment>, took: bool, m: Moment)
    requires |moments| == |outcomes| && TakenExactly(snap, cap, outcomes, moments)
    requires took <==> m.waiting || snap + Taken(outcomes) < cap + m.received
    requires m.waiting ==> snap + Taken(outcomes) == m.received
    ensures TakenExactly(snap, cap, outcomes + [took], moments + [m])
  {
    assert (outcomes + [took])[..|outcomes|] == outcomes;
    assert (moments + [m])[..|outcomes|] == moments;
  }

  lemma OfferedPutsIn(c: Chan, e: LogEntry, cap: nat, waiting: bool)
    requires waiting ==> c.queue == []
    ensures var d := Offered(c, e, cap, waiting);
            d.received + d.queue == c.received + c.queue + if Takes(c, cap, waiting) then [e] else []
  {
  }

  lemma AcceptedMore(history: seq<LogEntry>, from: nat, outcomes: seq<bool>, took: bool)
    requires from + |outcomes| < |history|
    ensures Accepted(history, from, outcomes + [took]) ==
            Accepted(history, from, outcomes) + if took then [history[from + |outcomes|]] else []
  {
    assert (outcomes + [took])[..|outcomes|] == outcomes;
  }

  /** One more emission on both sides of the delivery equation. */
  lemma DeliveryExtends(history: seq<LogEntry>, snapshot: seq<LogEntry>, from: nat, outcomes: seq<bool>, took: bool,
                        had: seq<LogEntry>)
    requires from + |outcomes| < |history| && had == snapshot + Accepted(history, from, outcomes)
    ensures had + (if took then [history[from + |outcomes|]] else []) ==
            snapshot + Accepted(history, from, outcomes + [took])
  {
    AcceptedMore(history, from, outcomes, took);
    SplitInThree(snapshot, Accepted(history, from, outcomes), if took then [history[from + |outcomes|]] else []);
  }

  lemma SplitInThree(a: seq<LogEntry>, b: seq<LogEntry>, c: seq<LogEntry>)
    ensures (a + b) + c == a + (b + c)
  {
  }

  lemma OfferedLossless(c: Chan, e: LogEntry, cap: nat, waiting: bool)
    ensures Lossless(Offered(c, e, cap, waiting)) <==> Lossless(c) && Takes(c, cap, waiting)
  {
    var d := Offered(c, e, cap, waiting);
    assert d.outcomes[|c.outcomes|] == Takes(c, cap, waiting);
    assert forall i | 0 <= i < |c.outcomes| :: d.outcomes[i] == c.outcomes[i];
  }

  lemma ReceiveKeepsChan(history: seq<LogEntry>, cap: nat, c: Chan)
    requires ChanInv(history, cap, c) && c.queue != []
    ensures ChanInv(history, cap, c.(queue := c.queue[1..], received := c.received + [c.queue[0]]))
  {
    assert c.received + [c.queue[0]] + c.queue[1..] == c.received + c.queue;
  }

  lemma SubscribeKeepsChan(s: State)
    ensures ChanInv(s.history, s.cap, Chan(Snapshot(s), [], |s.history|, |Snapshot(s)|, [], []))
  {
    var snapshot := Snapshot(s);
    assert s.history[|s.history| - |snapshot|..|s.history|] == snapshot;
    assert [] + snapshot == snapshot + [];
  }

  lemma LineAdded(stdout: seq<Line>, line: Line)
    ensures Notices(stdout + [line]) == Notices(stdout) + if line.DropNotice? then 1 else 0
    ensures Entries(stdout + [line]) == Entries(stdout) + if line.Entry? then [line.entry] else []
  {
    assert (stdout + [line])[..|stdout|] == stdout;
  }

  // ------------------------------------------------------- the steps keep the invariant

  lemma UpdateKeepsChans(history: seq<LogEntry>, cap: nat, chans: map<ChanId, Chan>, ch: ChanId, c: Chan)
    requires ChansInv(history, cap, chans) && ChanInv(history, cap, c)
    ensures ChansInv(history, cap, chans[ch := c])
  {
  }

  lemma EmitKeepsChans(history: seq<LogEntry>, cap: nat, chans: map<ChanId, Chan>, e: LogEntry)
    requires ChansInv(history, cap, chans)
    ensures ChansInv(history + [e], cap, chans)
  {
    forall ch | ch in chans
      ensures ChanInv(history + [e], cap, chans[ch])
    {
      EmitKeepsChan(history, cap, chans[ch], e);
    }
  }

  lemma StepKeepsChans(s: State, step: Step)
    requires ChansInv(s.history, s.cap, s.chans) && OffersInv(s) && Enabled(s, step)
    ensures var t := Apply(s, step); ChansInv(t.history, t.cap, t.chans)
  {
    match step
    case BeginEmit(e) => EmitKeepsChans(s.history, s.cap, s.chans, e);
    case Offer(ch, waiting) =>
      var e := s.history[|s.history| - 1];
      OfferKeepsChan(s.history, s.cap, s.chans[ch], e, waiting);
      UpdateKeepsChans(s.history, s.cap, s.chans, ch, Offered(s.chans[ch], e, s.cap, waiting));
    case Subscribe(ch) =>
      SubscribeKeepsChan(s);
      UpdateKeepsChans(s.history, s.cap, s.chans, ch, Chan(Snapshot(s), [], |s.history|, |Snapshot(s)|, [], []));
    case Receive(ch) =>
      var c := s.chans[ch];
      ReceiveKeepsChan(s.history, s.cap, c);
      var taken := c.(queue := c.queue[1..], received := c.received + [c.queue[0]]);
      UpdateKeepsChans(s.history, s.cap, s.chans, ch, taken);
    case _ =>
  }

  lemma StepKeepsOffers(s: State, step: Step)
    requires OffersInv(s) && Enabled(s, step)
    ensures OffersInv(Apply(s, step))
  {
  }

  lemma StepKeepsLoss(s: State, step: Step)
    requires OffersInv(s) && LossInv(s) && Entries(s.stdout) == s.history && Enabled(s, step)
    ensures LossInv(Apply(s, step)) && Entries(Apply(s, step).stdout) == Apply(s, step).history
  {
    match step
    case BeginEmit(e) => LineAdded(s.stdout, Entry(e));
    case Offer(ch, waiting) => OfferKeepsLoss(s, ch, waiting);
    case _ =>
  }

  lemma OfferKeepsLossy(lossy: set<ChanId>, chans: map<ChanId, Chan>, ch: ChanId, e: LogEntry, cap: nat, waiting: bool)
    requires LossyExactly(lossy, chans) && ch in chans
    ensures LossyExactly(if Takes(chans[ch], cap, waiting) then lossy else lossy + {ch},
                         chans[ch := Offered(chans[ch], e, cap, waiting)])
  {
    OfferedLossless(chans[ch], e, cap, waiting);
  }

  lemma LossAnnounced(stdout: seq<Line>, lossy: set<ChanId>, ch: ChanId)
    requires Notices(stdout) == |lossy|
    ensures ch !in lossy ==> Notices(stdout + [DropNotice]) == |lossy + {ch}|
    ensures ch in lossy ==> Notices(stdout) == |lossy + {ch}|
    ensures Entries(stdout + [DropNotice]) == Entries(stdout)
  {
    LineAdded(stdout, DropNotice);
    if ch in lossy {
      assert lossy + {ch} == lossy;
    }
  }

  lemma LossFlagged(subs: set<ChanId>, dropped: set<ChanId>, lossy: set<ChanId>, ch: ChanId)
    requires FlagsInv(subs, dropped, lossy) && ch in subs
    ensures FlagsInv(subs, dropped + {ch}, lossy + {ch}) && (ch in dropped <==> ch in lossy)
  {
  }

  lemma OfferKeepsLoss(s: State, ch: ChanId, waiting: bool)
    requires OffersInv(s) && LossInv(s) && Entries(s.stdout) == s.history && Enabled(s, Offer(ch, waiting))
    ensures var t := Apply(s, Offer(ch, waiting)); LossInv(t) && Entries(t.stdout) == t.history
  {
    OfferKeepsLossy(s.lossy, s.chans, ch, s.history[|s.history| - 1], s.cap, waiting);
    if !Takes(s.chans[ch], s.cap, waiting) {
      LossAnnounced(s.stdout, s.lossy, ch);
      LossFlagged(s.subs, s.dropped, s.lossy, ch);
    }
  }

  lemma StepKeepsInv(s: State, step: Step)
    requires Inv(s) && Enabled(s, step)
    ensures Inv(Apply(s, step))
  {
    StepKeepsChans(s, step);
    StepKeepsOffers(s, step);
    StepKeepsLoss(s, step);
  }

  lemma InitInv(cap: nat)
    ensures Inv(Init(cap))
  {
  }

  lemma {:induction false} RunKeepsInv(s: State, steps: seq<Step>, t: State)
    requires Inv(s) && IsRun(s, steps, t)
    ensures Inv(t)
    decreases |steps|
  {
    if steps != [] {
      StepKeepsInv(s, steps[0]);
      RunKeepsInv(Apply(s, steps[0]), steps[1..], t);
    }
  }

  /** The invariant holds in every reachable state. */
  lemma ReachableInv(s: State)
    requires Reachable(s)
    ensures Inv(s)
  {
    var steps :| IsRun(Init(s.cap), steps, s);
    InitInv(s.cap);
    RunKeepsInv(Init(s.cap), steps, s);
  }

  // ------------------------------------------------------------------- main results

  lemma {:induction false} AcceptedAll(history: seq<LogEntry>, from: nat, outcomes: seq<bool>)
    requires from + |outcomes| <= |history|
    requires forall i | 0 <= i < |outcomes| :: outcomes[i]
    ensures Accepted(history, from, outcomes) == history[from..from + |outcomes|]
    decreases |outcomes|
  {
    if outcomes != [] {
      AcceptedAll(history, from, outcomes[..|outcomes| - 1]);
    }
  }

  /** The positions in the emission history of what a channel was given. */
  function Positions(from: nat, outcomes: seq<bool>): seq<nat> {
    if outcomes == [] then []
    else
      var k := |outcomes| - 1;
      Positions(from, outcomes[..k]) + if outcomes[k] then [from + k] else []
  }

  /** Live entries arrive in emission order, without repeats and only from after the
      subscription. */
  lemma {:induction false} AcceptedInOrder(history: seq<LogEntry>, from: nat, outcomes: seq<bool>)
    requires from + |outcomes| <= |history|
    ensures var at, got := Positions(from, outcomes), Accepted(history, from, outcomes);
            && |at| == |got|
            && (forall i | 0 <= i < |at| :: from <= at[i] < from + |outcomes| && got[i] == history[at[i]])
            && (forall i, j | 0 <= i < j < |at| :: at[i] < at[j])
    decreases |outcomes|
  {
    if outcomes != [] {
      AcceptedInOrder(history, from, outcomes[..|outcomes| - 1]);
    }
  }

  lemma LosslessSlice(history: seq<LogEntry>, cap: nat, c: Chan)
    requires ChanInv(history, cap, c) && Lossless(c)
    ensures c.received + c.queue == history[c.joined - c.snap..c.joined + |c.outcomes|]
  {
    AcceptedAll(history, c.joined, c.outcomes);
    SliceConcat(history, c.joined - c.snap, c.joined, c.joined + |c.outcomes|);
  }

  lemma SliceConcat(s: seq<LogEntry>, a: nat, b: nat, c: nat)
    requires a <= b <= c <= |s|
    ensures s[a..b] + s[b..c] == s[a..c]
  {
  }

  lemma ReachableChan(s: State, ch: ChanId)
    requires Reachable(s) && ch in s.chans
    ensures ChanInv(s.history, s.cap, s.chans[ch])
    ensures ch in s.subs && s.lock.Free? ==> s.chans[ch].joined + |s.chans[ch].outcomes| == |s.history|
    ensures ch in s.subs ==> (ch in s.dropped <==> !Lossless(s.chans[ch]))
  {
    ReachableInv(s);
  }

  /** What a consumer has received followed by what still waits in its channel is its
      snapshot (the last `cap` entries before it subscribed) followed by the accepted
      live entries; as long as nothing was lost, that is one slice of the emission
      history without gap or overlap. */
  predicate DeliveredExactly(history: seq<LogEntry>, cap: nat, c: Chan) {
    && c.snap == Min(c.joined, cap) && c.joined + |c.outcomes| <= |history|
    && c.received + c.queue == history[c.joined - c.snap..c.joined] + Accepted(history, c.joined, c.outcomes)
    && (Lossless(c) ==> c.received + c.queue == history[c.joined - c.snap..c.joined + |c.outcomes|])
  }

  lemma ChanDelivers(history: seq<LogEntry>, cap: nat, c: Chan)
    requires ChanInv(history, cap, c)
    ensures DeliveredExactly(history, cap, c)
  {
    if Lossless(c) {
      LosslessSlice(history, cap, c);
    }
  }

  /** Delivery, after any interleaving, to every channel ever made. Between emissions a
      registered channel has been offered everything up to the present, and its dropped
      flag is set exactly when it has lost something. */
  lemma Delivery(s: State, ch: ChanId)
    requires Reachable(s) && ch in s.chans
    ensures DeliveredExactly(s.history, s.cap, s.chans[ch])
    ensures ch in s.subs && s.lock.Free? ==> s.chans[ch].joined + |s.chans[ch].outcomes| == |s.history|
    ensures ch in s.subs ==> (ch in s.dropped <==> !Lossless(s.chans[ch]))
  {
    ReachableChan(s, ch);
    ChanDelivers(s.history, s.cap, s.chans[ch]);
  }

  lemma {:induction false} LossBound(snap: nat, cap: nat, outcomes: seq<bool>, moments: seq<Moment>)
    requires |moments| == |outcomes| && TakenExactly(snap, cap, outcomes, moments)
    ensures (forall i | 0 <= i < |outcomes| :: outcomes[i]) <==>
            (forall i | 0 <= i < |outcomes| :: moments[i].waiting || snap + (i + 1) - moments[i].received <= cap)
    ensures cap > 0 ==> ((forall i | 0 <= i < |outcomes| :: outcomes[i]) <==>
                         (forall i | 0 <= i < |outcomes| :: snap + (i + 1) - moments[i].received <= cap))
    ensures (forall i | 0 <= i < |outcomes| :: outcomes[i]) ==> Taken(outcomes) == |outcomes|
    decreases |outcomes|
  {
    if outcomes != [] {
      var k := |outcomes| - 1;
      LossBound(snap, cap, outcomes[..k], moments[..k]);
      assert forall i | 0 <= i < k :: outcomes[..k][i] == outcomes[i] && moments[..k][i] == moments[i];
    }
  }

  /** The exact loss bound: a subscriber is lossless exactly when at every emission a
      receiver stands waiting, or its snapshot, plus the emissions since it subscribed
      (that one included), less what it had received by then, fit its channel. With a
      buffer the second condition alone decides. */
  lemma LosslessExactly(s: State, ch: ChanId)
    requires Reachable(s) && ch in s.chans
    ensures var c := s.chans[ch];
            && |c.moments| == |c.outcomes|
            && (Lossless(c) <==>
                forall i | 0 <= i < |c.outcomes| ::
                  c.moments[i].waiting || c.snap + (i + 1) - c.moments[i].received <= s.cap)
            && (s.cap > 0 ==>
                (Lossless(c) <==>
                 forall i | 0 <= i < |c.outcomes| :: c.snap + (i + 1) - c.moments[i].received <= s.cap))
  {
    ReachableInv(s);
    var c := s.chans[ch];
    LossBound(c.snap, s.cap, c.outcomes, c.moments);
  }

  predicate Silent(moments: seq<Moment>) {
    forall i | 0 <= i < |moments| :: moments[i] == Moment(0, false)
  }

  lemma {:induction false} SilentTaken(snap: nat, cap: nat, outcomes: seq<bool>, moments: seq<Moment>)
    requires |moments| == |outcomes| && TakenExactly(snap, cap, outcomes, moments) && snap <= cap
    requires Silent(moments)
    ensures forall i | 0 <= i < |outcomes| :: outcomes[i] <==> i < cap - snap
    ensures Taken(outcomes) == Min(|outcomes|, cap - snap)
    decreases |outcomes|
  {
    if outcomes != [] {
      var k := |outcomes| - 1;
      SilentTaken(snap, cap, outcomes[..k], moments[..k]);
      assert forall i | 0 <= i < k :: outcomes[..k][i] == outcomes[i] && moments[..k][i] == moments[i];
    }
  }

  /** The slack of a new subscriber that does not read is exactly what its snapshot
      leaves of the channel: on a full ring the very first live entry is lost. */
  lemma SilentSubscriber(s: State, ch: ChanId)
    requires Reachable(s) && ch in s.chans && Silent(s.chans[ch].moments)
    ensures var c := s.chans[ch];
            forall i | 0 <= i < |c.outcomes| :: c.outcomes[i] <==> i < s.cap - c.snap
  {
    ReachableInv(s);
    var c := s.chans[ch];
    SilentTaken(c.snap, s.cap, c.outcomes, c.moments);
  }

  /** Standard output shows every entry once, in emission order, and one notice for
      each channel that ever lost an entry. */
  lemma StdoutExactly(s: State)
    requires Reachable(s)
    ensures Entries(s.stdout) == s.history
    ensures Notices(s.stdout) == |set ch | ch in s.chans && !Lossless(s.chans[ch])|
  {
    ReachableInv(s);
    assert s.lossy == set ch | ch in s.chans && !Lossless(s.chans[ch]);
  }

  /** Serving channels in a given order, then letting the lock go. */
  function ServeAll(order: seq<ChanId>): seq<Step> {
    if order == [] then [EndEmit] else [Offer(order[0], false)] + ServeAll(order[1..])
  }

  ghost predicate Lists(order: seq<ChanId>, chans: set<ChanId>) {
    && (forall ch :: ch in chans <==> ch in order)
    && (forall i, j | 0 <= i < j < |order| :: order[i] != order[j])
  }

  /** No step under the lock waits for a consumer: whatever state the channels are in,
      the emission that holds the lock can serve its pending channels in any order
      whatsoever and let go, without a single receive. */
  lemma {:induction false} EmissionCompletes(s: State, order: seq<ChanId>) returns (t: State)
    requires Inv(s) && s.lock.Emitting? && Lists(order, s.lock.pending)
    ensures IsRun(s, ServeAll(order), t) && t.lock.Free? && Inv(t)
    decreases |order|
  {
    if order == [] {
      assert s.lock.pending == {};
      t := Apply(s, EndEmit);
      StepKeepsInv(s, EndEmit);
      assert ServeAll(order)[1..] == [];
    } else {
      var next := Apply(s, Offer(order[0], false));
      StepKeepsInv(s, Offer(order[0], false));
      ListsRest(order, s.lock.pending);
      assert next.lock == Emitting(s.lock.pending - {order[0]});
      t := EmissionCompletes(next, order[1..]);
      assert ServeAll(order)[1..] == ServeAll(order[1..]);
    }
  }

  lemma ListsRest(order: seq<ChanId>, chans: set<ChanId>)
    requires Lists(order, chans) && order != []
    ensures Lists(order[1..], chans - {order[0]})
  {
  }

  /** Every pending channel can be offered its entry next, full or not; and a new
      channel always has room for the snapshot that is put into it under the lock. */
  lemma NothingBlocksUnderLock(s: State)
    requires Reachable(s)
    ensures s.lock.Emitting? ==> forall ch | ch in s.lock.pending :: Enabled(s, Offer(ch, false))
    ensures |Snapshot(s)| <= s.cap
  {
    ReachableInv(s);
  }
}
