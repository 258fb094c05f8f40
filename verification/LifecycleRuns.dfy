/**
 Where lifecycle runs can go from any reachable state: every operation can be brought
 to its end, and exactly when a stopped handle may come back by itself.
 */
module LifecycleRuns {
  import opened Options
  import opened Config
  import opened Lifecycle

  // ------------------------------------------------------------------ putting runs together

  lemma {:induction false} RunConcat(s: State, a: seq<Step>, t: State, b: seq<Step>, u: State)
    requires IsRun(s, a, t) && IsRun(t, b, u)
    ensures IsRun(s, a + b, u)
    decreases |a|
  {
    if a == [] {
      assert a + b == b;
    } else {
      assert (a + b)[0] == a[0] && (a + b)[1..] == a[1..] + b;
      RunConcat(Apply(s, a[0]), a[1..], t, b, u);
    }
  }

  lemma ReachRun(s: State, steps: seq<Step>, t: State)
    requires Reachable(s) && IsRun(s, steps, t)
    ensures Reachable(t)
  {
    var cfg, file, before :| IsRun(Init(cfg, file), before, s);
    RunConcat(Init(cfg, file), before, s, steps, t);
  }

  lemma OneStep(s: State, step: Step)
    requires Enabled(s, step)
    ensures IsRun(s, [step], Apply(s, step))
  {
    assert [step][1..] == [];
  }

  /** A step of some server's goroutine. */
  predicate OfServer(step: Step) {
    step.ServeCalled? || step.ServeReturns? || step.DoneClosed?
  }

  /** Nobody but thread `t` and the servers' goroutines moves, and `t` begins nothing. */
  predicate OnlyFinishes(steps: seq<Step>, t: Thread) {
    forall i | 0 <= i < |steps| :: OfServer(steps[i]) || (Moves(steps[i], t) && !steps[i].SetConfig?)
  }

  /** Nobody starts the handle on purpose: a `Start` only ever ends a `SetConfig`. */
  ghost predicate NobodyStarts(s: State, steps: seq<Step>)
    decreases |steps|
  {
    steps == [] ||
    (Enabled(s, steps[0]) && (steps[0].Start? ==> !At(s, steps[0].t).Idle?) &&
     NobodyStarts(Apply(s, steps[0]), steps[1..]))
  }

  lemma {:induction false} NobodyStartsConcat(s: State, a: seq<Step>, t: State, b: seq<Step>)
    requires IsRun(s, a, t) && NobodyStarts(s, a) && NobodyStarts(t, b)
    ensures NobodyStarts(s, a + b)
    decreases |a|
  {
    if a == [] {
      assert a + b == b;
    } else {
      assert (a + b)[0] == a[0] && (a + b)[1..] == a[1..] + b;
      NobodyStartsConcat(Apply(s, a[0]), a[1..], t, b);
    }
  }

  lemma {:induction false} ServersStartNothing(s: State, steps: seq<Step>, t: State)
    requires IsRun(s, steps, t) && forall i | 0 <= i < |steps| :: OfServer(steps[i])
    ensures NobodyStarts(s, steps)
    ensures t.pcs == s.pcs && t.srv == s.srv && t.cfg == s.cfg && t.servers.Keys == s.servers.Keys
    decreases |steps|
  {
    if steps != [] {
      assert forall i | 0 <= i < |steps[1..]| :: steps[1..][i] == steps[i + 1];
      ServersStartNothing(Apply(s, steps[0]), steps[1..], t);
    }
  }

  // ------------------------------------------------------------- finishing one operation

  /** How far a thread is from the end of its operation. */
  function Distance(pc: Pc): nat {
    match pc
    case Idle => 0
    case Saving(_) => 6
    case Committing(_) => 5
    case Restarting => 4
    case ShuttingDown(_, _) => 3
    case Awaiting(_, _) => 2
    case Reopening => 1
  }

  lemma FreshId(s: State) returns (id: ServerId)
    ensures id !in s.servers
  {
    id := FreshNumber(s.servers.Keys);
  }

  lemma {:induction false} FreshNumber(used: set<nat>) returns (n: nat)
    ensures forall m | m in used :: m < n
    decreases |used|
  {
    if used == {} {
      n := 0;
    } else {
      var m :| m in used;
      n := FreshNumber(used - {m});
      assert forall k | k in used :: k == m || k in used - {m};
      if n <= m {
        n := m + 1;
      }
    }
  }

  /** Thread `t` gets nearer to its end by itself; a restart stays one and starts nothing
      before its last step. */
  ghost predicate Nearer(s: State, t: Thread, steps: seq<Step>, r: State)
    requires t in s.pcs
  {
    && IsRun(s, steps, r) && OnlyFinishes(steps, t)
    && r.pcs.Keys == s.pcs.Keys && (forall u | u in s.pcs && u != t :: r.pcs[u] == s.pcs[u])
    && Distance(r.pcs[t]) < Distance(s.pcs[t])
    && (Restarts(s.pcs[t]) && !s.pcs[t].Reopening? ==>
          Restarts(r.pcs[t]) && NobodyStarts(s, steps) && (s.srv.None? ==> r.srv.None?))
  }

  /** What a thread that does not wait does next when everything goes well. */
  function Next(s: State, t: Thread, id: ServerId): Step
    requires t in s.pcs && !s.pcs[t].Idle? && !s.pcs[t].Awaiting?
  {
    match s.pcs[t]
    case Saving(_) => Save(t, true, None)
    case Committing(_) => Commit(t)
    case Restarting => Stop(t)
    case ShuttingDown(_, _) => Shutdown(t)
    case Reopening => Start(t, !Busy(s, s.cfg.listen), id)
  }

  lemma NextIsNearer(s: State, t: Thread, id: ServerId)
    requires Inv(s) && t in s.pcs && !s.pcs[t].Idle? && !s.pcs[t].Awaiting? && id !in s.servers
    ensures Enabled(s, Next(s, t, id)) && Nearer(s, t, [Next(s, t, id)], Apply(s, Next(s, t, id)))
  {
    OneStep(s, Next(s, t, id));
    assert [Next(s, t, id)][1..] == [];
  }

  /** A `Stop` that waits has its server's goroutine come to its end first. */
  lemma WaitIsNearer(s: State, t: Thread) returns (steps: seq<Step>, r: State)
    requires Reachable(s) && t in s.pcs && s.pcs[t].Awaiting?
    ensures Nearer(s, t, steps, r)
  {
    var first, m := StopCanFinish(s, t);
    ServersStartNothing(s, first, m);
    RunMore(s, first, m, StopReturns(t));
    assert [StopReturns(t)][1..] == [];
    NobodyStartsConcat(s, first, m, [StopReturns(t)]);
    steps, r := first + [StopReturns(t)], Apply(m, StopReturns(t));
  }

  lemma MoveNearer(s: State, t: Thread) returns (steps: seq<Step>, r: State)
    requires Reachable(s) && t in s.pcs && !s.pcs[t].Idle?
    ensures Nearer(s, t, steps, r)
  {
    if s.pcs[t].Awaiting? {
      steps, r := WaitIsNearer(s, t);
    } else {
      var id := FreshId(s);
      ReachableInv(s);
      NextIsNearer(s, t, id);
      steps, r := [Next(s, t, id)], Apply(s, Next(s, t, id));
    }
  }

  /** An operation under way can always be brought to its end by its own thread and the
      goroutines of the servers alone. */
  lemma {:induction false} ThreadCanFinish(s: State, t: Thread) returns (steps: seq<Step>, r: State)
    requires Reachable(s) && t in s.pcs
    ensures IsRun(s, steps, r) && OnlyFinishes(steps, t) && r.pcs == s.pcs[t := Idle]
    decreases Distance(s.pcs[t])
  {
    if s.pcs[t].Idle? {
      steps, r := [], s;
    } else {
      var first, m := MoveNearer(s, t);
      ReachRun(s, first, m);
      var rest: seq<Step>;
      rest, r := ThreadCanFinish(m, t);
      RunConcat(s, first, m, rest, r);
      steps := first + rest;
    }
  }

  function Unfinished(s: State): set<Thread> {
    set t | t in s.pcs && !s.pcs[t].Idle?
  }

  /** Nothing new is begun. */
  predicate BeginsNothing(steps: seq<Step>) {
    forall i | 0 <= i < |steps| :: !steps[i].SetConfig?
  }

  /** No reachable state is a dead end: from each of them all the operations under way
      can be finished, whatever they have done to each other so far. */
  lemma {:induction false} QuiescenceReachable(s: State) returns (steps: seq<Step>, r: State)
    requires Reachable(s)
    ensures IsRun(s, steps, r) && Quiescent(r) && BeginsNothing(steps)
    decreases |Unfinished(s)|
  {
    if Unfinished(s) == {} {
      assert forall t | t in s.pcs :: t !in Unfinished(s);
      steps, r := [], s;
    } else {
      var t :| t in Unfinished(s);
      var first, m := ThreadCanFinish(s, t);
      assert Unfinished(m) == Unfinished(s) - {t};
      ReachRun(s, first, m);
      var rest: seq<Step>;
      rest, r := QuiescenceReachable(m);
      RunConcat(s, first, m, rest, r);
      steps := first + rest;
    }
  }

  // ---------------------------------------------------------- when a stopped handle returns

  /** A `SetConfig` that has found the handle running and will call `Start`. */
  predicate Restarts(pc: Pc) {
    pc.Restarting? || pc.Reopening? || ((pc.ShuttingDown? || pc.Awaiting?) && pc.restart)
  }

  /** Some run in which nobody calls `Start` on purpose installs a server. */
  ghost predicate ComesBack(s: State) {
    exists steps, r :: IsRun(s, steps, r) && NobodyStarts(s, steps) && r.srv.Some?
  }

  lemma {:induction false} StaysStopped(s: State, steps: seq<Step>, r: State)
    requires s.srv.None? && (forall t | t in s.pcs :: !Restarts(s.pcs[t]))
    requires IsRun(s, steps, r) && NobodyStarts(s, steps)
    ensures r.srv.None?
    decreases |steps|
  {
    if steps != [] {
      StaysStopped(Apply(s, steps[0]), steps[1..], r);
    }
  }

  function Open(s: State): set<ServerId> {
    set id | id in s.servers && Listening(s.servers[id])
  }

  /** The goroutines of all listening servers may leave `Serve`. */
  lemma {:induction false} AllMayClose(s: State) returns (steps: seq<Step>, r: State)
    ensures IsRun(s, steps, r) && forall i | 0 <= i < |steps| :: OfServer(steps[i])
    ensures forall id | id in r.servers :: !Listening(r.servers[id])
    decreases |Open(s)|
  {
    if Open(s) == {} {
      assert forall id | id in s.servers :: id !in Open(s);
      steps, r := [], s;
    } else {
      var id :| id in Open(s);
      var first, m := MayClose(s, id);
      assert Open(m) == Open(s) - {id};
      var rest: seq<Step>;
      rest, r := AllMayClose(m);
      RunConcat(s, first, m, rest, r);
      steps := first + rest;
    }
  }

  lemma MayClose(s: State, id: ServerId) returns (steps: seq<Step>, r: State)
    requires id in s.servers && Listening(s.servers[id])
    ensures IsRun(s, steps, r) && forall i | 0 <= i < |steps| :: OfServer(steps[i])
    ensures r.servers == s.servers[id := s.servers[id].(phase := Exited)]
  {
    if s.servers[id].phase.Serving? {
      OneStep(s, ServeReturns(id));
      steps, r := [ServeReturns(id)], Apply(s, ServeReturns(id));
    } else {
      OneStep(s, ServeCalled(id));
      steps, r := [ServeCalled(id)], Apply(s, ServeCalled(id));
      if r.servers[id].phase.Serving? {
        RunMore(s, steps, r, ServeReturns(id));
        steps, r := steps + [ServeReturns(id)], Apply(r, ServeReturns(id));
      }
    }
  }

  lemma ReopeningComesBack(s: State, t: Thread)
    requires s.srv.None? && t in s.pcs && s.pcs[t].Reopening?
    ensures ComesBack(s)
  {
    var first, m := AllMayClose(s);
    ServersStartNothing(s, first, m);
    var id := FreshId(m);
    var start := Start(t, true, id);
    OneStep(m, start);
    assert NobodyStarts(m, [start]) by {
      assert [start][1..] == [];
    }
    RunConcat(s, first, m, [start], Apply(m, start));
    NobodyStartsConcat(s, first, m, [start]);
    assert IsRun(s, first + [start], Apply(m, start));
  }

  lemma {:induction false} RestarterComesBack(s: State, t: Thread)
    requires Reachable(s) && s.srv.None? && t in s.pcs && Restarts(s.pcs[t])
    ensures ComesBack(s)
    decreases Distance(s.pcs[t])
  {
    if s.pcs[t].Reopening? {
      ReopeningComesBack(s, t);
    } else {
      var first, m := MoveNearer(s, t);
      ReachRun(s, first, m);
      RestarterComesBack(m, t);
      var rest, r :| IsRun(m, rest, r) && NobodyStarts(m, rest) && r.srv.Some?;
      RunConcat(s, first, m, rest, r);
      NobodyStartsConcat(s, first, m, rest);
      assert IsRun(s, first + rest, r);
    }
  }

  /** A stopped handle stays stopped until somebody calls `Start`, exactly when no
      `SetConfig` that found it running is still on its way to `Start`. */
  lemma StoppedComesBackExactly(s: State)
    requires Reachable(s) && s.srv.None?
    ensures ComesBack(s) <==> exists t | t in s.pcs :: Restarts(s.pcs[t])
  {
    if t: Thread :| t in s.pcs && Restarts(s.pcs[t]) {
      RestarterComesBack(s, t);
    } else if ComesBack(s) {
      var steps, r :| IsRun(s, steps, r) && NobodyStarts(s, steps) && r.srv.Some?;
      StaysStopped(s, steps, r);
    }
  }
}
