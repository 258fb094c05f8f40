/**
 The handle: `Start`, `Stop` and `SetConfig` as methods over its fields. Each critical
 section is a step of the transition system in `Lifecycle`; the whole operations are
 given their contracts for a thread that is alone.
 */
module Handle {
  import opened Options
  import opened Config
  import L = Lifecycle

  class Handle {
    var cfg: Config
    var srv: Option<L.ServerId>
    var cancel: Option<L.ServerId>
    var done: Option<L.ServerId>

    /** The world outside: the servers' goroutines and the configuration file. */
    var servers: map<L.ServerId, L.Server>
    var file: Option<Config>
    var started: L.ServerId

    ghost var pcs: map<L.Thread, L.Pc>

    constructor (cfg: Config, file: Option<Config>)
      ensures Valid() && View() == L.Init(cfg, file)
    {
      this.cfg, this.file := cfg, file;
      srv, cancel, done, servers, started, pcs := None, None, None, map[], 0, map[];
      new;
      L.ReachInit(cfg, file);
    }

    ghost function View(): L.State
      reads this
    {
      L.State(cfg, srv, cancel, done, file, servers, pcs)
    }

    ghost predicate Valid()
      reads this
    {
      L.Reachable(View()) && forall id | id in servers :: id < started
    }

    predicate Running()
      reads this
    {
      srv.Some? && cancel.Some?
    }

    /** That server's goroutine is gone and its address is free again. */
    ghost predicate Ended(id: L.ServerId)
      reads this
    {
      id in servers && servers[id].done && !L.Listening(servers[id])
    }

    /** A server just started with this configuration is installed. */
    ghost predicate Serves(c: Config)
      reads this
    {
      srv.Some? && srv.value in servers && servers[srv.value] == L.Server(c, L.Spawned, false, false)
    }

    // -------------------------------------------------------------- critical sections

    /** Nil at once when running; otherwise binds while holding the mutex. `free` is
        whether anybody else leaves the address to us. */
    method Start(ghost t: L.Thread, free: bool) returns (ok: bool)
      requires Valid() && L.At(View(), t) in {L.Idle, L.Reopening}
      modifies this
      ensures Valid()
      ensures ok == (old(srv).Some? || (free && !L.Busy(old(View()), old(cfg).listen)))
      ensures View() ==
              L.Apply(old(View()), L.Step.Start(t, free && !L.Busy(old(View()), old(cfg).listen), old(started)))
      ensures !ok || old(srv).Some? ==> cfg == old(cfg) && srv == old(srv) && servers == old(servers)
      ensures ok && old(srv).None? ==> cfg == old(cfg) && Serves(cfg) && srv.value !in old(servers) && Running()
    {
      ghost var before := View();
      ghost var step := L.Step.Start(t, free && !L.Busy(before, cfg.listen), started);
      L.ReachStep(before, step);
      pcs := pcs[t := L.Idle];
      if srv.Some? {
        return true;
      }
      var taken := !L.PicksPort(cfg.listen) &&
                   exists id | id in servers :: L.Listening(servers[id]) && servers[id].cfg.listen == cfg.listen;
      assert taken == L.Busy(before, cfg.listen) by {
        assert forall id | id in servers :: L.ListensOn(before, id, cfg.listen) ==> L.Listening(servers[id]);
      }
      if taken || !free {
        return false;
      }
      var id := started;
      started := started + 1;
      servers := servers[id := L.Server(cfg, L.Spawned, false, false)];
      srv := Some(id);
      cancel := Some(id);
      done := Some(id);
      ok := true;
    }

    /** The first section of `Stop`: the caller becomes the only owner of the server. */
    method TakeServer(ghost t: L.Thread) returns (taken: Option<L.ServerId>)
      requires Valid() && L.At(View(), t) in {L.Idle, L.Restarting}
      modifies this
      ensures Valid() && taken == old(srv) && srv.None? && !Running() && servers == old(servers)
      ensures View() == L.Apply(old(View()), L.Step.Stop(t))
    {
      L.ReachStep(View(), L.Step.Stop(t));
      ghost var restart := L.At(View(), t).Restarting?;
      taken := srv;
      pcs := pcs[t :=
        if taken.Some? then L.ShuttingDown(taken.value, restart) else if restart then L.Reopening else L.Idle];
      srv := None;
      cancel := None;
      done := None;
    }

    /** The commit of `SetConfig`. */
    method Commit(ghost t: L.Thread, next: Config) returns (running: bool)
      requires Valid() && L.At(View(), t) == L.Committing(next)
      modifies this`cfg, this`pcs
      ensures Valid() && running == old(srv).Some? && cfg == next
      ensures View() == L.Apply(old(View()), L.Step.Commit(t))
    {
      L.ReachStep(View(), L.Step.Commit(t));
      running := srv.Some?;
      cfg := next;
      pcs := pcs[t := if running then L.Restarting else L.Idle];
    }

    // ------------------------------------------------------------ outside the sections

    /** One step of a server's goroutine. */
    method Advance(id: L.ServerId)
      requires Valid() && id in servers && !servers[id].done
      modifies this`servers
      ensures Valid() && servers.Keys == old(servers).Keys
      ensures forall other | other in servers && other != id :: servers[other] == old(servers)[other]
      ensures servers[id] == Next(old(servers)[id])
    {
      var s := servers[id];
      if s.phase.Spawned? {
        L.ReachStep(View(), L.ServeCalled(id));
      } else if s.phase.Serving? {
        L.ReachStep(View(), L.ServeReturns(id));
      } else {
        L.ReachStep(View(), L.DoneClosed(id));
      }
      servers := servers[id := Next(s)];
    }

    /** Receives from the done channel. */
    method AwaitDone(id: L.ServerId)
      requires Valid() && id in servers
      modifies this`servers
      ensures Valid() && servers.Keys == old(servers).Keys && servers[id].done
      ensures forall other | other in servers && other != id :: servers[other] == old(servers)[other]
    {
      while !servers[id].done
        invariant Valid() && servers.Keys == old(servers).Keys
        invariant forall other | other in servers && other != id :: servers[other] == old(servers)[other]
        decreases Left(servers[id])
      {
        Advance(id);
      }
    }

    /** Shuts the taken server down and waits until its goroutine has ended. */
    method ShutDownAndWait(ghost t: L.Thread, id: L.ServerId)
      requires Valid() && id in servers && L.At(View(), t).ShuttingDown? && L.At(View(), t).server == id
      modifies this`servers, this`pcs
      ensures Valid() && servers.Keys == old(servers).Keys
      ensures forall other | other in servers && other != id :: servers[other] == old(servers)[other]
      ensures Ended(id)
      ensures pcs == old(pcs)[t := if L.At(old(View()), t).restart then L.Reopening else L.Idle]
    {
      ghost var restart := L.At(View(), t).restart;
      L.ReachStep(View(), L.Shutdown(t));
      pcs := pcs[t := L.Awaiting(id, restart)];
      servers := servers[id := servers[id].(shutdown := true)];
      AwaitDone(id);
      L.StopReleasesPort(View(), t);
      L.ReachStep(View(), L.StopReturns(t));
      pcs := pcs[t := if restart then L.Reopening else L.Idle];
    }

    // ---------------------------------------------------------------- whole operations

    /** Idempotent; when it returns, the server that was running has ended and its
        address is free again. */
    method Stop(ghost t: L.Thread)
      requires Valid() && L.At(View(), t) in {L.Idle, L.Restarting}
      modifies this
      ensures Valid() && !Running() && srv.None? && cfg == old(cfg) && file == old(file)
      ensures servers.Keys == old(servers).Keys
      ensures old(srv).Some? ==> Ended(old(srv).value)
      ensures forall id | id in servers && Some(id) != old(srv) :: servers[id] == old(servers)[id]
      ensures pcs == old(pcs)[t := if L.At(old(View()), t).Restarting? then L.Reopening else L.Idle]
    {
      L.ReachableInv(View());
      var taken := TakeServer(t);
      if taken.None? {
        return;
      }
      ShutDownAndWait(t, taken.value);
    }

    /** The hot restart at the end of `SetConfig`. */
    method Restart(ghost t: L.Thread, free: bool) returns (ok: bool)
      requires Valid() && L.At(View(), t).Restarting? && srv.Some? && srv.value in servers
      requires forall u | u in pcs && u != t :: pcs[u].Idle?
      modifies this
      ensures Valid() && L.Quiescent(View()) && cfg == old(cfg) && file == old(file)
      ensures ok == free && (srv.Some? <==> free)
      ensures Ended(old(srv).value)
      ensures srv.Some? ==> srv != old(srv) && Serves(cfg)
    {
      Stop(t);
      L.HotRestartFindsPortFree(View(), t);
      ok := Start(t, free);
    }

    /** The first half of `SetConfig`, up to the commit. A write that fails may leave
        anything in the file: `left` is what it leaves. */
    method SaveAndCommit(ghost t: L.Thread, prepared: Config, written: bool, left: Option<Config>)
        returns (running: bool)
      requires Valid() && L.At(View(), t) == L.Saving(prepared)
      modifies this`cfg, this`file, this`pcs
      ensures Valid() && servers == old(servers) && srv == old(srv)
      ensures if written then cfg == prepared && file == Some(prepared) else cfg == old(cfg) && file == left
      ensures running == (written && srv.Some?)
      ensures pcs == old(pcs)[t := if running then L.Restarting else L.Idle]
    {
      L.ReachStep(View(), L.Save(t, written, left));
      if !written {
        file := left;
        pcs := pcs[t := L.Idle];
        return false;
      }
      file := Some(prepared);
      pcs := pcs[t := L.Committing(prepared)];
      running := Commit(t, prepared);
    }

    /** `SetConfig` past validation. */
    method SaveAndRestart(ghost t: L.Thread, prepared: Config, written: bool, left: Option<Config>, free: bool)
        returns (ok: bool)
      requires Valid() && L.At(View(), t) == L.Saving(prepared)
      requires forall u | u in pcs && u != t :: pcs[u].Idle?
      modifies this
      ensures Valid() && L.Quiescent(View())
      ensures !written ==> !ok && cfg == old(cfg) && srv == old(srv) && servers == old(servers) && file == left
      ensures written ==> cfg == prepared && file == Some(prepared) && ok == (old(srv).Some? ==> free)
      ensures written ==> (srv.Some? <==> old(srv).Some? && free) && (old(srv).Some? ==> Ended(old(srv).value))
      ensures written && srv.Some? ==> srv != old(srv) && Serves(prepared)
    {
      L.ReachableInv(View());
      var running := SaveAndCommit(t, prepared, written, left);
      if !running {
        return written;
      }
      ok := Restart(t, free);
    }

    /** Validates, saves, and restarts a running server with the new configuration. A
        rejected configuration changes nothing, and one that cannot be saved nothing but
        the file; otherwise the new one is in force, the old server has ended, and unless
        somebody else holds the new address a server runs on it exactly when one did
        before. */
    method SetConfig(ghost t: L.Thread, parse: UrlParser, given: Config, written: bool, left: Option<Config>,
                     free: bool) returns (ok: bool)
      requires Valid() && L.Quiescent(View())
      modifies this
      ensures Valid() && L.Quiescent(View())
      ensures var prepared := Prepare(parse, given);
              if prepared.None? || !written then
                && !ok && cfg == old(cfg) && srv == old(srv) && servers == old(servers)
                && file == (if prepared.None? then old(file) else left)
              else
                && cfg == prepared.value && file == prepared
                && ok == (old(srv).Some? ==> free)
                && (srv.Some? <==> old(srv).Some? && free)
                && (srv.Some? ==> srv != old(srv) && Serves(prepared.value))
                && (old(srv).Some? ==> Ended(old(srv).value))
      ensures var n := NormalizeUpstream(parse, given.upstreamBase);
              Reparses(parse) ==>
              if written && Acceptable(parse, given) then
                cfg == given.(upstreamBase := n.base, upstreamWS := n.ws) && file == Some(cfg)
              else
                && !ok && cfg == old(cfg) && srv == old(srv) && servers == old(servers)
                && (!Acceptable(parse, given) ==> file == old(file))
    {
      var prepared := Prepare(parse, given);
      if Reparses(parse) {
        PrepareExactly(parse, given);
      }
      L.ReachStep(View(), L.Step.SetConfig(t, prepared));
      if prepared.None? {
        pcs := pcs[t := L.Idle];
        return false;
      }
      pcs := pcs[t := L.Saving(prepared.value)];
      ok := SaveAndRestart(t, prepared.value, written, left, free);
    }
  }

  /** The goroutine's progress: call `Serve`, return from it, close the done channel. */
  function Next(s: L.Server): L.Server {
    match s.phase
    case Spawned => s.(phase := if s.shutdown then L.Exited else L.Serving)
    case Serving => s.(phase := L.Exited)
    case Exited => s.(done := true)
  }

  function Left(s: L.Server): nat {
    if s.done then 0
    else match s.phase case Spawned => 3 case Serving => 2 case Exited => 1
  }
}
