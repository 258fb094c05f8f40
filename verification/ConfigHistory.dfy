/**
 Which configurations a run leaves in the file and in the handle, from the schedule of
 its steps alone.
 */
module ConfigHistory {
  import opened Options
  import opened Config
  import opened Lifecycle

  // -------------------------------------------------------------------- calls and runs

  /** A call of `SetConfig` is known by the number of the step that began it; this is
      the latest one of thread `t`. */
  function Begun(steps: seq<Step>, t: Thread): (call: Option<nat>)
    ensures call.Some? ==>
            call.value < |steps| && steps[call.value].SetConfig? && steps[call.value].t == t
  {
    if steps == [] then None
    else
      var k := |steps| - 1;
      if steps[k].SetConfig? && steps[k].t == t then Some(k) else Begun(steps[..k], t)
  }

  /** The configuration that this call goes on with. */
  function Given(steps: seq<Step>, t: Thread): Option<Config> {
    match Begun(steps, t)
    case Some(call) => steps[call].prepared
    case None => None
  }

  /** The call that wrote to the file last, successfully or not. */
  function Writer(steps: seq<Step>): (call: Option<nat>)
    ensures call.Some? ==> call.value < |steps|
  {
    if steps == [] then None
    else
      var k := |steps| - 1;
      if steps[k].Save? then Begun(steps[..k], steps[k].t) else Writer(steps[..k])
  }

  /** The call that committed last. */
  function Committer(steps: seq<Step>): (call: Option<nat>)
    ensures call.Some? ==> call.value < |steps|
  {
    if steps == [] then None
    else
      var k := |steps| - 1;
      if steps[k].Commit? then Begun(steps[..k], steps[k].t) else Committer(steps[..k])
  }

  /** What that last write left in the file that held `file` at first. */
  function FileLeft(file: Option<Config>, steps: seq<Step>): Option<Config> {
    if steps == [] then file
    else
      var k := |steps| - 1;
      if !steps[k].Save? then FileLeft(file, steps[..k])
      else if steps[k].written then Given(steps[..k], steps[k].t)
      else steps[k].left
  }

  /** What that last commit put in force. */
  function InForce(cfg: Config, steps: seq<Step>): Option<Config> {
    if steps == [] then Some(cfg)
    else
      var k := |steps| - 1;
      if steps[k].Commit? then Given(steps[..k], steps[k].t) else InForce(cfg, steps[..k])
  }

  lemma {:induction false} RunLast(s: State, steps: seq<Step>, r: State) returns (m: State)
    requires IsRun(s, steps, r) && steps != []
    ensures IsRun(s, steps[..|steps| - 1], m)
    ensures Enabled(m, steps[|steps| - 1]) && r == Apply(m, steps[|steps| - 1])
    decreases |steps|
  {
    if |steps| == 1 {
      m := s;
      assert steps[1..] == [];
    } else {
      m := RunLast(Apply(s, steps[0]), steps[1..], r);
      assert steps[1..][..|steps| - 2] == steps[..|steps| - 1][1..];
    }
  }

  predicate AllWritten(steps: seq<Step>) {
    forall i | 0 <= i < |steps| :: steps[i].Save? ==> steps[i].written
  }

  /** What a thread carries is what its call was given; its call has not committed yet,
      not written before `Save`, and its configuration stays in the file after `Save`
      until somebody else writes. */
  predicate Carries(steps: seq<Step>, s: State, t: Thread)
    requires t in s.pcs
  {
    (s.pcs[t].Saving? || s.pcs[t].Committing? ==>
       Given(steps, t) == Some(s.pcs[t].next) && Committer(steps) != Begun(steps, t)) &&
    (s.pcs[t].Saving? ==> Writer(steps) != Begun(steps, t)) &&
    (s.pcs[t].Committing? && Writer(steps) == Begun(steps, t) ==> s.file == Some(s.pcs[t].next))
  }

  /** File and handle hold what the schedule says. */
  predicate Holding(cfg: Config, file: Option<Config>, steps: seq<Step>, s: State) {
    && s.file == FileLeft(file, steps) && Some(s.cfg) == InForce(cfg, steps)
    && (Writer(steps).Some? && Writer(steps) == Committer(steps) ==> s.file == Some(s.cfg))
    && (match Writer(steps)
        case Some(call) =>
          steps[call].SetConfig? && (AllWritten(steps) ==> s.file == steps[call].prepared && s.file.Some?)
        case None => s.file == file)
    && (match Committer(steps)
        case Some(call) => steps[call].SetConfig? && steps[call].prepared == Some(s.cfg)
        case None => s.cfg == cfg)
  }

  predicate Tracked(cfg: Config, file: Option<Config>, steps: seq<Step>, s: State) {
    (forall t | t in s.pcs :: Carries(steps, s, t)) && Holding(cfg, file, steps, s)
  }

  lemma BegunUnfolds(steps: seq<Step>, step: Step, t: Thread)
    ensures var more := steps + [step];
            && Begun(more, t) == (if step.SetConfig? && step.t == t then Some(|steps|) else Begun(steps, t))
            && Given(more, t) == (if step.SetConfig? && step.t == t then step.prepared else Given(steps, t))
  {
    assert (steps + [step])[..|steps|] == steps;
  }

  lemma HistoryUnfolds(cfg: Config, file: Option<Config>, steps: seq<Step>, step: Step)
    ensures var more := steps + [step];
            && Writer(more) == (if step.Save? then Begun(steps, step.t) else Writer(steps))
            && Committer(more) == (if step.Commit? then Begun(steps, step.t) else Committer(steps))
            && FileLeft(file, more) ==
               (if !step.Save? then FileLeft(file, steps)
                else if step.written then Given(steps, step.t) else step.left)
            && InForce(cfg, more) == (if step.Commit? then Given(steps, step.t) else InForce(cfg, steps))
  {
    assert (steps + [step])[..|steps|] == steps;
  }

  lemma StepKeepsCarried(cfg: Config, file: Option<Config>, steps: seq<Step>, s: State, step: Step, t: Thread)
    requires forall u | u in s.pcs :: Carries(steps, s, u)
    requires Enabled(s, step) && t in Apply(s, step).pcs
    ensures Carries(steps + [step], Apply(s, step), t)
  {
    HistoryUnfolds(cfg, file, steps, step);
    BegunUnfolds(steps, step, t);
  }

  lemma AllWrittenUnfolds(steps: seq<Step>, step: Step)
    ensures AllWritten(steps + [step]) <==> AllWritten(steps) && (step.Save? ==> step.written)
  {
    assert (steps + [step])[|steps|] == step;
    assert forall i | 0 <= i < |steps| :: (steps + [step])[i] == steps[i];
  }

  lemma StepKeepsHolding(cfg: Config, file: Option<Config>, steps: seq<Step>, s: State, step: Step)
    requires Tracked(cfg, file, steps, s) && Enabled(s, step)
    ensures Holding(cfg, file, steps + [step], Apply(s, step))
  {
    HistoryUnfolds(cfg, file, steps, step);
    AllWrittenUnfolds(steps, step);
    assert forall i | 0 <= i < |steps| :: (steps + [step])[i] == steps[i];
    if step.Save? || step.Commit? {
      assert Carries(steps, s, step.t);
    }
  }

  lemma StepKeepsTracked(cfg: Config, file: Option<Config>, steps: seq<Step>, s: State, step: Step)
    requires Tracked(cfg, file, steps, s) && Enabled(s, step)
    ensures Tracked(cfg, file, steps + [step], Apply(s, step))
  {
    StepKeepsHolding(cfg, file, steps, s, step);
    forall t | t in Apply(s, step).pcs
      ensures Carries(steps + [step], Apply(s, step), t)
    {
      StepKeepsCarried(cfg, file, steps, s, step, t);
    }
  }

  lemma {:induction false} RunIsTracked(cfg: Config, file: Option<Config>, steps: seq<Step>, r: State)
    requires IsRun(Init(cfg, file), steps, r)
    ensures Tracked(cfg, file, steps, r)
    decreases |steps|
  {
    if steps != [] {
      var k := |steps| - 1;
      var m := RunLast(Init(cfg, file), steps, r);
      RunIsTracked(cfg, file, steps[..k], m);
      StepKeepsTracked(cfg, file, steps[..k], m, steps[k]);
      assert steps[..k] + [steps[k]] == steps;
    }
  }

  // --------------------------------------------------------------------- main results

  /** After every run, overlapping calls and failed writes included: the file holds what
      the last write left there and the handle what the last commit put in force. They
      agree exactly when both belong to the same call, or happen to be the same
      configuration. */
  lemma FileAgreesExactly(cfg: Config, file: Option<Config>, steps: seq<Step>, r: State)
    requires IsRun(Init(cfg, file), steps, r)
    ensures r.file == FileLeft(file, steps) && Some(r.cfg) == InForce(cfg, steps)
    ensures r.file == Some(r.cfg) <==>
            (Writer(steps).Some? && Writer(steps) == Committer(steps)) || FileLeft(file, steps) == InForce(cfg, steps)
  {
    RunIsTracked(cfg, file, steps, r);
  }

  /** When no write fails and no two calls bring the same configuration, that is decided
      by the schedule alone: file and handle agree exactly when the last write and the
      last commit belong to the same call, or nobody has done either. */
  lemma FileAgreesBySchedule(cfg: Config, steps: seq<Step>, r: State)
    requires IsRun(Init(cfg, Some(cfg)), steps, r) && AllWritten(steps)
    requires forall i | 0 <= i < |steps| && steps[i].SetConfig? :: steps[i].prepared != Some(cfg)
    requires forall i, j | 0 <= i < j < |steps| && steps[i].SetConfig? && steps[j].SetConfig? ::
               steps[i].prepared.Some? ==> steps[i].prepared != steps[j].prepared
    ensures r.file == Some(r.cfg) <==> Writer(steps) == Committer(steps)
  {
    RunIsTracked(cfg, Some(cfg), steps, r);
  }

  lemma {:induction false} CommitIsKnown(cfg: Config, file: Option<Config>, steps: seq<Step>, r: State, i: nat)
    requires IsRun(Init(cfg, file), steps, r) && i < |steps| && steps[i].Commit?
    ensures Committer(steps).Some?
    decreases |steps|
  {
    var k := |steps| - 1;
    var m := RunLast(Init(cfg, file), steps, r);
    RunIsTracked(cfg, file, steps[..k], m);
    if !steps[k].Commit? {
      assert steps[..k][i] == steps[i];
      CommitIsKnown(cfg, file, steps[..k], m, i);
    }
  }

  // ----------------------------------------------------------------- runs without overlap

  /** A run in which no `SetConfig` writes the file while another one is between its
      write and its commit, and a failed write leaves the file alone. */
  ghost predicate Unoverlapped(s: State, steps: seq<Step>)
    decreases |steps|
  {
    steps == [] ||
    (Enabled(s, steps[0]) &&
     (steps[0].Save? ==> if steps[0].written then forall t | t in s.pcs :: !s.pcs[t].Committing?
                         else steps[0].left == s.file) &&
     Unoverlapped(Apply(s, steps[0]), steps[1..]))
  }

  /** The file holds the handle's configuration, or that of the one thread about to
      commit it. */
  predicate FileInv(s: State) {
    && (forall t | t in s.pcs && s.pcs[t].Committing? :: s.file == Some(s.pcs[t].next))
    && (forall t, u | t in s.pcs && u in s.pcs && s.pcs[t].Committing? && s.pcs[u].Committing? :: t == u)
    && ((forall t | t in s.pcs :: !s.pcs[t].Committing?) ==> s.file == Some(s.cfg))
  }

  lemma StepKeepsFile(s: State, step: Step)
    requires FileInv(s) && Unoverlapped(s, [step])
    ensures FileInv(Apply(s, step))
  {
    var r := Apply(s, step);
    assert [step][0] == step;
    if step.Save? && step.written {
      assert r.pcs[step.t].Committing?;
    } else if !step.Commit? {
      assert r.file == s.file && r.cfg == s.cfg;
      forall t | t in s.pcs && s.pcs[t].Committing?
        ensures t in r.pcs && r.pcs[t] == s.pcs[t]
      {
        assert !Moves(step, t);
        OthersStay(s, step, t);
      }
      assert forall t | t in r.pcs && r.pcs[t].Committing? :: t in s.pcs && r.pcs[t] == s.pcs[t];
    }
  }

  /** Then file and handle agree whenever no thread is about to commit. */
  lemma {:induction false} FileFollowsHandle(s: State, steps: seq<Step>, r: State)
    requires FileInv(s) && IsRun(s, steps, r) && Unoverlapped(s, steps)
    ensures FileInv(r) && (Quiescent(r) ==> r.file == Some(r.cfg))
    decreases |steps|
  {
    if steps != [] {
      assert [steps[0]][1..] == [];
      StepKeepsFile(s, steps[0]);
      FileFollowsHandle(Apply(s, steps[0]), steps[1..], r);
    }
  }

  // ------------------------------------------------------------ stored configurations

  /** A property of the configuration in force, of those on their way into force, and
      of those the servers were built from. */
  predicate AllConfigs(ok: Config -> bool, s: State) {
    && ok(s.cfg)
    && (forall t | t in s.pcs && (s.pcs[t].Saving? || s.pcs[t].Committing?) :: ok(s.pcs[t].next))
    && (forall id | id in s.servers :: ok(s.servers[id].cfg))
  }

  ghost predicate AllGiven(ok: Config -> bool, steps: seq<Step>) {
    forall i | 0 <= i < |steps| :: steps[i].SetConfig? && steps[i].prepared.Some? ==> ok(steps[i].prepared.value)
  }

  lemma StepKeepsConfigs(ok: Config -> bool, s: State, step: Step)
    requires AllConfigs(ok, s) && Enabled(s, step)
    requires step.SetConfig? && step.prepared.Some? ==> ok(step.prepared.value)
    ensures AllConfigs(ok, Apply(s, step))
  {
  }

  lemma {:induction false} RunKeepsConfigs(ok: Config -> bool, s: State, steps: seq<Step>, r: State)
    requires AllConfigs(ok, s) && IsRun(s, steps, r) && AllGiven(ok, steps)
    ensures AllConfigs(ok, r)
    decreases |steps|
  {
    if steps != [] {
      StepKeepsConfigs(ok, s, steps[0]);
      assert forall i | 0 <= i < |steps[1..]| :: steps[1..][i] == steps[i + 1];
      RunKeepsConfigs(ok, Apply(s, steps[0]), steps[1..], r);
    }
  }

  /** Every configuration a `SetConfig` goes on with is one it prepared itself. */
  ghost predicate AllPrepared(parse: UrlParser, steps: seq<Step>) {
    forall i | 0 <= i < |steps| :: steps[i].SetConfig? && steps[i].prepared.Some? ==>
      exists given :: Prepare(parse, given) == steps[i].prepared
  }

  lemma AllPreparedMatch(parse: UrlParser, steps: seq<Step>)
    requires Reparses(parse) && AllPrepared(parse, steps)
    ensures AllGiven(c => MatchingPair(parse, c), steps)
  {
    forall i | 0 <= i < |steps| && steps[i].SetConfig? && steps[i].prepared.Some?
      ensures MatchingPair(parse, steps[i].prepared.value)
    {
      var given :| Prepare(parse, given) == steps[i].prepared;
      PreparedMatches(parse, given);
    }
  }

  /** In every run, whatever the handle was created with and whatever the callers pass
      in: the handle, its servers and the configurations on their way hold the initial
      configuration or a base and a WebSocket URL that belong together; and once
      anything has been committed, the handle's belong together. */
  lemma RunKeepsPairs(parse: UrlParser, cfg: Config, file: Option<Config>, steps: seq<Step>, r: State)
    requires Reparses(parse) && IsRun(Init(cfg, file), steps, r) && AllPrepared(parse, steps)
    ensures AllConfigs(c => c == cfg || MatchingPair(parse, c), r)
    ensures (exists i | 0 <= i < |steps| :: steps[i].Commit?) ==> MatchingPair(parse, r.cfg)
  {
    AllPreparedMatch(parse, steps);
    RunKeepsConfigs(c => c == cfg || MatchingPair(parse, c), Init(cfg, file), steps, r);
    RunIsTracked(cfg, file, steps, r);
    if i :| 0 <= i < |steps| && steps[i].Commit? {
      CommitIsKnown(cfg, file, steps, r, i);
    }
  }
}
