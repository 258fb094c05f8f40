/**
 The server lifecycle as a transition system: any number of threads in `Start`, `Stop`
 and `SetConfig`, interleaved with the goroutines of the servers they started.

 Each step is one critical section of the handle's mutex, or one action outside it.
 */
module Lifecycle {
  import opened Options
  import opened Config

  type ServerId = nat
  type Thread = nat

  /** A server's goroutine has not called `Serve` yet, is inside it, or has left it. */
  datatype Phase = Spawned | Serving | Exited

  /** `shutdown`: `Shutdown` has been called; `done`: the done channel is closed. */
  datatype Server = Server(cfg: Config, phase: Phase, shutdown: bool, done: bool)

  /** `Shutdown` closes the listener of a server that is serving; one that has not got
      so far only closes it when its goroutine runs. */
  predicate Listening(s: Server) {
    s.phase.Spawned? || (s.phase.Serving? && !s.shutdown)
  }

  /** Where a thread is. `restart` tells whether `Stop` was called by `SetConfig`. */
  datatype Pc =
    | Idle
    | Saving(next: Config)
    | Committing(next: Config)
    | Restarting
    | ShuttingDown(server: ServerId, restart: bool)
    | Awaiting(server: ServerId, restart: bool)
    | Reopening

  datatype State = State(
    cfg: Config,
    srv: Option<ServerId>,
    cancel: Option<ServerId>,
    done: Option<ServerId>,
    file: Option<Config>,
    servers: map<ServerId, Server>,
    pcs: map<Thread, Pc>)

  function Init(cfg: Config, file: Option<Config>): State {
    State(cfg, None, None, None, file, map[], map[])
  }

  function At(s: State, t: Thread): Pc {
    if t in s.pcs then s.pcs[t] else Idle
  }

  function Move(s: State, t: Thread, pc: Pc): State {
    s.(pcs := s.pcs[t := pc])
  }

  predicate Running(s: State) {
    s.srv.Some? && s.cancel.Some?
  }

  // ------------------------------------------------------------------------- steps

  datatype Step =
    | Start(t: Thread, bound: bool, id: ServerId)
    | Stop(t: Thread)
    | SetConfig(t: Thread, prepared: Option<Config>)
    | Save(t: Thread, written: bool, left: Option<Config>)
    | Commit(t: Thread)
    | Shutdown(t: Thread)
    | StopReturns(t: Thread)
    | ServeCalled(id: ServerId)
    | ServeReturns(id: ServerId)
    | DoneClosed(id: ServerId)

  /** With port 0, or no port at all, the system picks a free port for each bind. */
  predicate PicksPort(listen: string) {
    listen == "" || (listen[|listen| - 1] == ':' || (listen[|listen| - 1] == '0' && PicksPort(listen[..|listen| - 1])))
  }

  /** Exactly when the port is made of zeros only, or of nothing. */
  lemma {:induction false} PicksPortExactly(host: string, port: string)
    requires ':' !in port
    ensures PicksPort(host + ":" + port) <==> forall i | 0 <= i < |port| :: port[i] == '0'
    decreases |port|
  {
    var listen := host + ":" + port;
    if port == "" {
      assert listen[|listen| - 1] == ':';
    } else {
      var k := |port| - 1;
      assert listen[|listen| - 1] == port[k] && listen[..|listen| - 1] == host + ":" + port[..k];
      PicksPortExactly(host, port[..k]);
      assert forall i | 0 <= i < k :: port[..k][i] == port[i];
    }
  }

  predicate ListensOn(s: State, id: ServerId, listen: string) {
    id in s.servers && Listening(s.servers[id]) && s.servers[id].cfg.listen == listen
  }

  /** Some server of ours listens on this address, so it cannot be bound again. */
  predicate Busy(s: State, listen: string) {
    !PicksPort(listen) && exists id | id in s.servers :: ListensOn(s, id, listen)
  }

  predicate Enabled(s: State, step: Step) {
    match step
    case Start(t, bound, id) =>
      && At(s, t) in {Idle, Reopening} && id !in s.servers
      && (bound ==> !Busy(s, s.cfg.listen))
    case Stop(t) => At(s, t) in {Idle, Restarting}
    case SetConfig(t, _) => At(s, t).Idle?
    case Save(t, _, _) => At(s, t).Saving?
    case Commit(t) => At(s, t).Committing?
    case Shutdown(t) => At(s, t).ShuttingDown? && At(s, t).server in s.servers
    case StopReturns(t) => At(s, t).Awaiting? && At(s, t).server in s.servers && s.servers[At(s, t).server].done
    case ServeCalled(id) => id in s.servers && s.servers[id].phase.Spawned?
    case ServeReturns(id) => id in s.servers && s.servers[id].phase.Serving?
    case DoneClosed(id) => id in s.servers && s.servers[id].phase.Exited? && !s.servers[id].done
  }

  function Apply(s: State, step: Step): State
    requires Enabled(s, step)
  {
    match step
    case Start(t, bound, id) =>
      var back := Move(s, t, Idle);
      if s.srv.Some? || !bound then back
      else back.(srv := Some(id), cancel := Some(id), done := Some(id),
                 servers := s.servers[id := Server(s.cfg, Spawned, false, false)])
    case Stop(t) =>
      var restart := At(s, t).Restarting?;
      var pc := if s.srv.Some? then ShuttingDown(s.srv.value, restart) else if restart then Reopening else Idle;
      Move(s, t, pc).(srv := None, cancel := None, done := None)
    case SetConfig(t, prepared) =>
      Move(s, t, if prepared.Some? then Saving(prepared.value) else Idle)
    case Save(t, written, left) =>
      if written then Move(s, t, Committing(At(s, t).next)).(file := Some(At(s, t).next))
      else Move(s, t, Idle).(file := left)
    case Commit(t) =>
      Move(s, t, if s.srv.Some? then Restarting else Idle).(cfg := At(s, t).next)
    case Shutdown(t) =>
      var pc := At(s, t);
      var told := s.servers[pc.server].(shutdown := true);
      Move(s, t, Awaiting(pc.server, pc.restart)).(servers := s.servers[pc.server := told])
    case StopReturns(t) => Move(s, t, if At(s, t).restart then Reopening else Idle)
    case ServeCalled(id) =>
      var server := s.servers[id];
      s.(servers := s.servers[id := server.(phase := if server.shutdown then Exited else Serving)])
    case ServeReturns(id) => s.(servers := s.servers[id := s.servers[id].(phase := Exited)])
    case DoneClosed(id) => s.(servers := s.servers[id := s.servers[id].(done := true)])
  }

  ghost predicate IsRun(s: State, steps: seq<Step>, t: State)
    decreases |steps|
  {
    if steps == [] then s == t else Enabled(s, steps[0]) && IsRun(Apply(s, steps[0]), steps[1..], t)
  }

  /** The states a handle created with some configuration can get into. */
  ghost predicate Reachable(s: State) {
    exists cfg, file, steps: seq<Step> :: IsRun(Init(cfg, file), steps, s)
  }

  // --------------------------------------------------------------------- invariants

  predicate Holds(pc: Pc, id: ServerId) {
    (pc.ShuttingDown? || pc.Awaiting?) && pc.server == id
  }

  predicate Held(s: State, id: ServerId) {
    exists t | t in s.pcs :: Holds(s.pcs[t], id)
  }

  predicate Installed(s: State, id: ServerId) {
    s.srv == Some(id)
  }

  /** The three fields are nil together, and name a server. */
  predicate FieldsInv(s: State) {
    s.srv == s.cancel == s.done && (s.srv.Some? ==> s.srv.value in s.servers)
  }

  /** Every server is in the handle, or in the hands of exactly one `Stop`, or has
      ended; never two of the first two. */
  predicate OwnersInv(s: State) {
    && (forall t | t in s.pcs && (s.pcs[t].ShuttingDown? || s.pcs[t].Awaiting?) ::
          s.pcs[t].server in s.servers && !Installed(s, s.pcs[t].server))
    && (forall t, u | t in s.pcs && u in s.pcs && t != u && (s.pcs[t].ShuttingDown? || s.pcs[t].Awaiting?) ::
          !Holds(s.pcs[u], s.pcs[t].server))
    && (forall id | id in s.servers :: Installed(s, id) || Held(s, id) || s.servers[id].done)
  }

  predicate ServersInv(s: State) {
    && (forall id | id in s.servers && s.servers[id].done :: s.servers[id].phase.Exited?)
    && (forall t | t in s.pcs && s.pcs[t].Awaiting? && s.pcs[t].server in s.servers ::
          s.servers[s.pcs[t].server].shutdown)
    && (s.srv.Some? && s.srv.value in s.servers ==> !s.servers[s.srv.value].shutdown)
  }

  /** A server that runs on an outdated configuration is about to be restarted. */
  predicate ConfigInv(s: State) {
    s.srv.Some? && s.srv.value in s.servers && s.servers[s.srv.value].cfg != s.cfg ==>
    exists t | t in s.pcs :: s.pcs[t].Restarting?
  }

  predicate Inv(s: State) {
    FieldsInv(s) && OwnersInv(s) && ServersInv(s) && ConfigInv(s)
  }

  lemma StepKeepsFields(s: State, step: Step)
    requires FieldsInv(s) && Enabled(s, step)
    ensures FieldsInv(Apply(s, step))
  {
  }

  lemma StepKeepsServers(s: State, step: Step)
    requires ServersInv(s) && OwnersInv(s) && Enabled(s, step)
    ensures ServersInv(Apply(s, step))
  {
  }

  /** The thread a step belongs to, if any. */
  predicate Moves(step: Step, t: Thread) {
    match step
    case Start(u, _, _) => t == u
    case Stop(u) => t == u
    case SetConfig(u, _) => t == u
    case Save(u, _, _) => t == u
    case Commit(u) => t == u
    case Shutdown(u) => t == u
    case StopReturns(u) => t == u
    case _ => false
  }

  lemma OthersStay(s: State, step: Step, t: Thread)
    requires Enabled(s, step) && !Moves(step, t) && t in s.pcs
    ensures t in Apply(s, step).pcs && Apply(s, step).pcs[t] == s.pcs[t]
  {
  }

  lemma StepKeepsConfig(s: State, step: Step)
    requires ConfigInv(s) && FieldsInv(s) && Enabled(s, step)
    ensures ConfigInv(Apply(s, step))
  {
    var r := Apply(s, step);
    if step.Commit? && s.srv.Some? {
      assert r.pcs[step.t].Restarting?;
    } else if s.srv.Some? && s.servers[s.srv.value].cfg != s.cfg {
      var t :| t in s.pcs && s.pcs[t].Restarting?;
      if !Moves(step, t) {
        OthersStay(s, step, t);
      }
    }
  }

  /** A holder's server exists and is not installed. */
  lemma StepKeepsHolder(s: State, step: Step, t: Thread)
    requires OwnersInv(s) && FieldsInv(s) && Enabled(s, step)
    requires t in Apply(s, step).pcs && (Apply(s, step).pcs[t].ShuttingDown? || Apply(s, step).pcs[t].Awaiting?)
    ensures var r := Apply(s, step); r.pcs[t].server in r.servers && !Installed(r, r.pcs[t].server)
  {
  }

  /** And no other thread holds it. */
  lemma StepKeepsSole(s: State, step: Step, t: Thread, u: Thread)
    requires OwnersInv(s) && FieldsInv(s) && Enabled(s, step) && t != u
    requires t in Apply(s, step).pcs && (Apply(s, step).pcs[t].ShuttingDown? || Apply(s, step).pcs[t].Awaiting?)
    requires u in Apply(s, step).pcs
    ensures !Holds(Apply(s, step).pcs[u], Apply(s, step).pcs[t].server)
  {
  }

  /** No server gets lost: it leaves the handle for a `Stop`, and a `Stop` only returns
      once it has ended. */
  lemma StepLosesNone(s: State, step: Step, id: ServerId)
    requires OwnersInv(s) && FieldsInv(s) && Enabled(s, step) && id in Apply(s, step).servers
    ensures var r := Apply(s, step); Installed(r, id) || Held(r, id) || r.servers[id].done
  {
    var r := Apply(s, step);
    if id in s.servers && Held(s, id) && !s.servers[id].done {
      var t :| t in s.pcs && Holds(s.pcs[t], id);
      if Moves(step, t) {
        assert step.Shutdown?;
        assert Holds(r.pcs[t], id);
      } else {
        OthersStay(s, step, t);
      }
    } else if step.Stop? && Installed(s, id) {
      assert Holds(r.pcs[step.t], id);
    }
  }

  lemma StepKeepsOwners(s: State, step: Step)
    requires OwnersInv(s) && FieldsInv(s) && ServersInv(s) && Enabled(s, step)
    ensures OwnersInv(Apply(s, step))
  {
    var r := Apply(s, step);
    forall t | t in r.pcs && (r.pcs[t].ShuttingDown? || r.pcs[t].Awaiting?)
      ensures r.pcs[t].server in r.servers && !Installed(r, r.pcs[t].server)
    {
      StepKeepsHolder(s, step, t);
    }
    forall t, u | t in r.pcs && u in r.pcs && t != u && (r.pcs[t].ShuttingDown? || r.pcs[t].Awaiting?)
      ensures !Holds(r.pcs[u], r.pcs[t].server)
    {
      StepKeepsSole(s, step, t, u);
    }
    forall id | id in r.servers
      ensures Installed(r, id) || Held(r, id) || r.servers[id].done
    {
      StepLosesNone(s, step, id);
    }
  }

  lemma StepKeepsInv(s: State, step: Step)
    requires Inv(s) && Enabled(s, step)
    ensures Inv(Apply(s, step))
  {
    StepKeepsFields(s, step);
    StepKeepsOwners(s, step);
    StepKeepsServers(s, step);
    StepKeepsConfig(s, step);
  }

  lemma {:induction false} RunKeepsInv(s: State, steps: seq<Step>, t: State)
    requires Inv(s) && IsRun(s, steps, t)
    ensures Inv(t)
    decreases |steps|
  {
    if steps != [] {
      StepKeepsInv(s, steps[0]);
      RunKeepsInv(Apply(s, steps[0]), steps[1..], t);
    }
  }

  /** The invariant holds in every state that any interleaving can reach. */
  lemma ReachableInv(s: State)
    requires Reachable(s)
    ensures Inv(s)
  {
    var cfg, file, steps :| IsRun(Init(cfg, file), steps, s);
    assert Inv(Init(cfg, file));
    RunKeepsInv(Init(cfg, file), steps, s);
  }

  // ------------------------------------------------------------------- main results

  predicate Quiescent(s: State) {
    forall t | t in s.pcs :: s.pcs[t].Idle?
  }

  /** Each server ever started is exactly one of: installed in the handle, in the hands
      of exactly one `Stop`, or ended with its goroutine gone and its listener closed;
      an installed one may have ended too, when `Serve` failed by itself. */
  lemma ServersConserved(s: State, id: ServerId)
    requires Reachable(s) && id in s.servers
    ensures Installed(s, id) ==> !Held(s, id)
    ensures forall t, u | t in s.pcs && u in s.pcs && Holds(s.pcs[t], id) && Holds(s.pcs[u], id) :: t == u
    ensures !Installed(s, id) && !Held(s, id) ==> s.servers[id].done && !Listening(s.servers[id])
  {
    ReachableInv(s);
  }

  /** The three fields are set together, so `Running` is just `srv`; and a running
      handle's server is listening exactly as long as its `Serve` has not returned. */
  lemma RunningMeans(s: State)
    requires Reachable(s)
    ensures s.srv == s.cancel == s.done && (Running(s) <==> s.srv.Some?)
    ensures Running(s) ==> s.srv.value in s.servers &&
                           (Listening(s.servers[s.srv.value]) <==> !s.servers[s.srv.value].phase.Exited?)
  {
    ReachableInv(s);
  }

  /** Under every interleaving, overlapping `SetConfig`s included: a server built from
      another configuration than the current one has a thread about to restart it, so
      at quiescence a running server serves the current configuration. */
  lemma ServesCurrentConfig(s: State)
    requires Reachable(s) && Running(s)
    ensures s.srv.value in s.servers
    ensures s.servers[s.srv.value].cfg == s.cfg || exists t | t in s.pcs :: s.pcs[t].Restarting?
    ensures Quiescent(s) ==> s.servers[s.srv.value].cfg == s.cfg
  {
    ReachableInv(s);
  }

  /** A `Stop` that took a server only returns once its goroutine has ended, and then
      its port is free. */
  lemma StopReleasesPort(s: State, t: Thread)
    requires Reachable(s) && Enabled(s, StopReturns(t))
    ensures var id := At(s, t).server;
            id in Apply(s, StopReturns(t)).servers &&
            s.servers[id].phase.Exited? && !Listening(Apply(s, StopReturns(t)).servers[id])
  {
    ReachableInv(s);
  }

  /** With nothing installed, an address is taken exactly when some `Stop` still holds a
      server that listens on it. */
  lemma BusyMeansStopInFlight(s: State, listen: string)
    requires Reachable(s) && s.srv.None?
    ensures Busy(s, listen) <==>
            !PicksPort(listen) &&
            exists t | t in s.pcs && (s.pcs[t].ShuttingDown? || s.pcs[t].Awaiting?) ::
              ListensOn(s, s.pcs[t].server, listen)
  {
    ReachableInv(s);
    if Busy(s, listen) {
      var id :| id in s.servers && ListensOn(s, id, listen);
      assert Held(s, id);
      var t :| t in s.pcs && Holds(s.pcs[t], id);
    }
  }

  /** So a hot restart cannot fail to bind because of its own old server when nothing
      else is in flight, whatever address it moves to: no server listens any more. */
  lemma HotRestartFindsPortFree(s: State, t: Thread)
    requires Reachable(s) && At(s, t).Reopening? && s.srv.None?
    requires forall u | u in s.pcs && u != t :: s.pcs[u].Idle?
    ensures forall id | id in s.servers :: !Listening(s.servers[id])
    ensures forall listen :: !Busy(s, listen)
  {
    ReachableInv(s);
    forall id | id in s.servers
      ensures !Listening(s.servers[id])
    {
      assert !Held(s, id);
    }
  }

  /** A waiting `Stop` is never stuck: at most three steps of the server's own goroutine
      bring it to return. */
  lemma StopCanFinish(s: State, t: Thread) returns (steps: seq<Step>, r: State)
    requires Reachable(s) && At(s, t).Awaiting?
    ensures IsRun(s, steps, r) && |steps| <= 3 && Enabled(r, StopReturns(t))
    ensures forall i | 0 <= i < |steps| :: steps[i].ServeCalled? || steps[i].ServeReturns? || steps[i].DoneClosed?
  {
    ReachableInv(s);
    var id := At(s, t).server;
    steps, r := [], s;
    if r.servers[id].phase.Spawned? {
      RunMore(s, steps, r, ServeCalled(id));
      steps, r := steps + [ServeCalled(id)], Apply(r, ServeCalled(id));
    }
    if r.servers[id].phase.Serving? {
      RunMore(s, steps, r, ServeReturns(id));
      steps, r := steps + [ServeReturns(id)], Apply(r, ServeReturns(id));
    }
    if !r.servers[id].done {
      RunMore(s, steps, r, DoneClosed(id));
      steps, r := steps + [DoneClosed(id)], Apply(r, DoneClosed(id));
    }
  }

  lemma {:induction false} RunMore(s: State, a: seq<Step>, t: State, step: Step)
    requires IsRun(s, a, t) && Enabled(t, step)
    ensures IsRun(s, a + [step], Apply(t, step))
    decreases |a|
  {
    if a == [] {
      assert ([] + [step])[1..] == [];
    } else {
      assert (a + [step])[0] == a[0] && (a + [step])[1..] == a[1..] + [step];
      RunMore(Apply(s, a[0]), a[1..], t, step);
    }
  }

  lemma ReachStep(s: State, step: Step)
    requires Reachable(s) && Enabled(s, step)
    ensures Reachable(Apply(s, step))
  {
    var cfg, file, steps :| IsRun(Init(cfg, file), steps, s);
    RunMore(Init(cfg, file), steps, s, step);
  }

  lemma ReachInit(cfg: Config, file: Option<Config>)
    ensures Reachable(Init(cfg, file))
  {
    assert IsRun(Init(cfg, file), [], Init(cfg, file));
  }

  // -------------------------------------------------------- what is not guaranteed

  /** A handle with one server that is in `Serve`. */
  lemma Started(cfg: Config) returns (s: State)
    ensures Reachable(s) && s.srv == Some(0) && s.cancel == Some(0) && s.cfg == cfg
    ensures s.servers == map[0 := Server(cfg, Serving, false, false)] && s.pcs == map[0 := Idle]
  {
    s := Init(cfg, None);
    ReachInit(cfg, None);
    ReachStep(s, Start(0, true, 0));
    s := Apply(s, Start(0, true, 0));
    ReachStep(s, ServeCalled(0));
    s := Apply(s, ServeCalled(0));
  }

  /** `Running` stays true after `Serve` has failed by itself. */
  lemma RunningAfterServeFails(cfg: Config) returns (s: State)
    ensures Reachable(s) && Quiescent(s) && Running(s)
    ensures s.srv.value in s.servers && s.servers[s.srv.value].done
    ensures forall id | id in s.servers :: !Listening(s.servers[id])
  {
    s := Started(cfg);
    ReachStep(s, ServeReturns(0));
    s := Apply(s, ServeReturns(0));
    ReachStep(s, DoneClosed(0));
    s := Apply(s, DoneClosed(0));
  }

  /** A second `Stop` returns while the first is still shutting the server down; a
      `Start` that follows it finds the old server in the way, unless the address lets
      the system pick another port. */
  lemma SecondStopReturnsEarly(cfg: Config) returns (s: State)
    ensures Reachable(s) && Enabled(s, Stop(2)) && At(Apply(s, Stop(2)), 2).Idle?
    ensures At(s, 1) == ShuttingDown(0, false) && ListensOn(Apply(s, Stop(2)), 0, cfg.listen)
    ensures forall id | id !in s.servers :: Enabled(Apply(s, Stop(2)), Start(2, true, id)) <==> PicksPort(cfg.listen)
  {
    s := Started(cfg);
    ReachStep(s, Stop(1));
    s := Apply(s, Stop(1));
    assert ListensOn(Apply(s, Stop(2)), 0, cfg.listen);
  }

  /** Thread 1's `SetConfig` has committed, then thread 2's `Stop` has run to its end. */
  lemma StoppedInBetween(cfg: Config, next: Config) returns (s: State)
    ensures Reachable(s) && s.srv.None? && !Running(s)
    ensures s.pcs == map[0 := Idle, 1 := Restarting, 2 := Idle]
    ensures s.servers == map[0 := Server(cfg, Exited, true, true)]
  {
    s := Committed(cfg, next);
    ReachStep(s, Stop(2));
    s := Apply(s, Stop(2));
    ReachStep(s, Shutdown(2));
    s := Apply(s, Shutdown(2));
    ReachStep(s, ServeReturns(0));
    s := Apply(s, ServeReturns(0));
    ReachStep(s, DoneClosed(0));
    s := Apply(s, DoneClosed(0));
    ReachStep(s, StopReturns(2));
    s := Apply(s, StopReturns(2));
  }

  /** `SetConfig` may start a server again that another thread has stopped in between. */
  lemma RestartUndoesStop(cfg: Config, next: Config) returns (stopped: State, s: State)
    ensures Reachable(stopped) && At(stopped, 2).Idle? && !Running(stopped)
    ensures forall id | id in stopped.servers :: stopped.servers[id].done
    ensures IsRun(stopped, [Stop(1), Start(1, true, 1)], s) && Quiescent(s) && Running(s)
  {
    stopped := StoppedInBetween(cfg, next);
    RunMore(stopped, [], stopped, Stop(1));
    var reopening := Apply(stopped, Stop(1));
    RunMore(stopped, [] + [Stop(1)], reopening, Start(1, true, 1));
    s := Apply(reopening, Start(1, true, 1));
    assert [] + [Stop(1)] + [Start(1, true, 1)] == [Stop(1), Start(1, true, 1)];
  }

  lemma Committed(cfg: Config, next: Config) returns (s: State)
    ensures Reachable(s) && s.srv == Some(0) && At(s, 1).Restarting? && s.cfg == next
    ensures s.servers == map[0 := Server(cfg, Serving, false, false)]
    ensures s.pcs == map[0 := Idle, 1 := Restarting]
  {
    s := Started(cfg);
    ReachStep(s, SetConfig(1, Some(next)));
    s := Apply(s, SetConfig(1, Some(next)));
    ReachStep(s, Save(1, true, None));
    s := Apply(s, Save(1, true, None));
    ReachStep(s, Commit(1));
    s := Apply(s, Commit(1));
  }

  /** Two overlapping `SetConfig`s may leave the file and the handle with different
      configurations, since the file is written outside the mutex. */
  lemma FileAndHandleDiffer(cfg: Config, a: Config, b: Config) returns (s: State)
    ensures Reachable(s) && Quiescent(s) && s.file == Some(a) && s.cfg == b
  {
    s := Init(cfg, None);
    ReachInit(cfg, None);
    ReachStep(s, SetConfig(1, Some(b)));
    s := Apply(s, SetConfig(1, Some(b)));
    ReachStep(s, SetConfig(2, Some(a)));
    s := Apply(s, SetConfig(2, Some(a)));
    ReachStep(s, Save(1, true, None));
    s := Apply(s, Save(1, true, None));
    ReachStep(s, Save(2, true, None));
    s := Apply(s, Save(2, true, None));
    ReachStep(s, Commit(2));
    s := Apply(s, Commit(2));
    ReachStep(s, Commit(1));
    s := Apply(s, Commit(1));
  }
}
