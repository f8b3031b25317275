/** Runs of calls on a Docker host with what the environment chose in each, and the pieces that runs of
    agent/src/worker-runtime.ts and agent/src/index.ts are made of. */
module HostRuns {
  import opened Wrappers
  import opened DockerHost

  /** One call of a run: what the environment chose, and the reply the agent went on from. */
  datatype Step = Step(call: Call, e: Choice, ok: bool)

  /** The world after a run. */
  function Play(w: World, run: seq<Step>): World
    decreases |run|
  {
    if run == [] then w else Play(Do(w, run[0].call, run[0].e), run[1..])
  }

  /** The replies of the run are the ones it records. */
  predicate Answers(w: World, run: seq<Step>)
    decreases |run|
  {
    run != [] ==> run[0].ok == Succeeds(w, run[0].call, run[0].e) && Answers(Do(w, run[0].call, run[0].e), run[1..])
  }

  /** The run can happen, and takes w to w'. */
  ghost predicate Runs(w: World, run: seq<Step>, w': World) { Answers(w, run) && Play(w, run) == w' }

  lemma {:induction false} RunsOn(a: World, first: seq<Step>, b: World, second: seq<Step>, c: World)
    requires Runs(a, first, b) && Runs(b, second, c)
    ensures Runs(a, first + second, c)
    decreases |first|
  {
    if first == [] {
      assert first + second == second;
    } else {
      RunsOn(Do(a, first[0].call, first[0].e), first[1..], b, second, c);
      assert (first + second)[1..] == first[1..] + second;
    }
  }

  lemma ThreeRun(a: World, x: seq<Step>, b: World, y: seq<Step>, c: World, z: seq<Step>, d: World)
    requires Runs(a, x, b) && Runs(b, y, c) && Runs(c, z, d)
    ensures Runs(a, x + y + z, d)
  {
    RunsOn(a, x, b, y, c);
    RunsOn(a, x + y, c, z, d);
  }

  /** Stopped beside the snapshot of an earlier attempt, with contents y that are not in doubt. */
  ghost predicate StoppedBeside(w: World, w': World, p: string, y: int) {
    && w'.alive && BaseTracksVolume(w') && !w'.log.dirty && w'.log.base == y
    && w'.slot == w.slot && w'.slot.Some? && w'.kept == w.kept
    && w'.containers.Keys == w.containers.Keys && p in w'.containers && !w'.containers[p].running
  }

  /** A candidate that writes v and fails leaves the rest of such a host as it was. */
  lemma CandidateFailsBeside(w: World, w0: World, p: string, y: int, n: nat, c: string, k: Container, v: int,
                             looks: nat, force: bool) returns (w': World)
    requires StoppedBeside(w0, w, p, y) && c !in w.containers && !k.running && k.mounts
    ensures Runs(w, CandidateRun(n, c, k, Some(v), looks, force), w')
    ensures w'.log.dirty && w'.log.base == y && w'.slot == w0.slot && w'.kept == w0.kept && w'.alive
    ensures p in w'.containers && !w'.containers[p].running
  {
    CandidateRuns(w, n, c, k, Some(v), looks, force);
    w' := CandidateGone(w, c, k, Some(v));
  }

  lemma StepRuns(w: World, s: Step)
    requires s.ok == Succeeds(w, s.call, s.e)
    ensures Runs(w, [s], Do(w, s.call, s.e))
  {
    assert [s][1..] == [];
    assert Play(Do(w, s.call, s.e), []) == Do(w, s.call, s.e);
  }

  // ----- In a quiet environment

  lemma CalmDrift(w: World)
    requires BaseTracksVolume(w) && w.alive
    ensures Drifted(w, CALM) == w
  {
    assert (map n | n in w.containers && n !in CALM.vanished :: w.containers[n]) == w.containers;
  }

  /** n calls that only look. */
  function Looks(n: nat): seq<Step> {
    seq(n, _ => Step(Call.Request, CALM, true))
  }

  lemma {:induction false} LooksRun(w: World, n: nat)
    requires BaseTracksVolume(w) && w.alive
    ensures Runs(w, Looks(n), w)
  {
    if n > 0 {
      CalmDrift(w);
      LooksRun(w, n - 1);
      assert Looks(n)[1..] == Looks(n - 1);
    }
  }

  /** n looks, then one call. */
  function Calmly(n: nat, call: Call, ok: bool): seq<Step> { Looks(n) + [Step(call, CALM, ok)] }

  lemma CalmRun(w: World, n: nat, call: Call)
    requires BaseTracksVolume(w) && w.alive && !call.Sleep?
    ensures Runs(w, Calmly(n, call, Succeeds(w, call, CALM)), Effect(w, call, CALM))
  {
    CalmDrift(w);
    LooksRun(w, n);
    StepRuns(w, Step(call, CALM, Succeeds(w, call, CALM)));
    RunsOn(w, Looks(n), w, [Step(call, CALM, Succeeds(w, call, CALM))], Effect(w, call, CALM));
  }

  function Slept(w: World, ms: nat): World { w.(now := w.now + ms, log := w.log.(slept := w.log.slept + ms)) }

  lemma SleepRuns(w: World, ms: nat)
    requires BaseTracksVolume(w) && w.alive
    ensures Runs(w, [Step(Sleep(ms), CALM, true)], Slept(w, ms))
  {
    CalmDrift(w);
    StepRuns(w, Step(Sleep(ms), CALM, true));
  }

  // ----- With one thing happening

  function Exited(w: World, n: string): World
    requires n in w.containers
  {
    w.(containers := w.containers[n := w.containers[n].(running := false)])
  }

  /** A look during which n exits. */
  function SeesExit(n: string): Step { Step(Call.Request, CALM.(exited := {n}), true) }

  lemma SeesExitRuns(w: World, n: string)
    requires BaseTracksVolume(w) && w.alive && n in w.containers
    ensures Runs(w, [SeesExit(n)], Exited(w, n))
  {
    assert Drifted(w, SeesExit(n).e).containers == Exited(w, n).containers;
    StepRuns(w, SeesExit(n));
  }

  /** A look during which the running consumers leave y in the volume. */
  function Writes(y: int): Step { Step(Call.Request, CALM.(written := Some(y)), true) }

  lemma WritesRuns(w: World, y: int)
    requires Consumed(w.containers) && w.alive && !w.log.dirty
    ensures Runs(w, [Writes(y)], w.(volume := y, log := w.log.(base := y)))
  {
    assert Drifted(w, Writes(y).e).containers == w.containers;
    StepRuns(w, Writes(y));
  }

  /** A readiness check fails: the container exits, after writing v if it does, and is seen not running. */
  function FailingCheck(c: string, v: Option<int>): seq<Step> {
    [Step(Judge(c), CALM.(exited := {c}, written := v), false)] + Resigned(c)
  }

  function CheckFailed(w: World, c: string, v: Option<int>): World
    requires c in w.containers
  {
    GivenUp(Exited(w, c).(volume := if v.Some? then v.value else w.volume), c)
  }

  /** A look that did not convince was the last. */
  function Resigned(n: string): seq<Step> { [Step(Sleep(500), CALM, true)] + [Step(GiveUp(n), CALM, true)] }

  function GivenUp(w: World, n: string): World { Effect(Slept(w, 500), GiveUp(n), CALM) }

  lemma ResignedRuns(w: World, n: string)
    requires BaseTracksVolume(w) && w.alive
    ensures Runs(w, Resigned(n), GivenUp(w, n))
  {
    SleepRuns(w, 500);
    CalmDrift(Slept(w, 500));
    StepRuns(Slept(w, 500), Step(GiveUp(n), CALM, true));
    RunsOn(w, [Step(Sleep(500), CALM, true)], Slept(w, 500), [Step(GiveUp(n), CALM, true)], GivenUp(w, n));
  }

  lemma FailingCheckRuns(w: World, c: string, v: Option<int>)
    requires BaseTracksVolume(w) && w.alive && Running(w.containers, c)
    requires v.Some? ==> w.log.dirty && w.containers[c].mounts
    ensures Runs(w, FailingCheck(c, v), CheckFailed(w, c, v))
  {
    var s := Step(Judge(c), CALM.(exited := {c}, written := v), false);
    var w1 := Exited(w, c).(volume := if v.Some? then v.value else w.volume);
    assert v.Some? ==> Consumed(w.containers);
    assert Drifted(w, s.e).containers == w1.containers;
    StepRuns(w, s);
    ResignedRuns(w1, c);
    RunsOn(w, [s], w1, Resigned(c), CheckFailed(w, c, v));
  }

  /** The check of a container that does not convince. */
  function Unconvinced(n: string): seq<Step> {
    [Step(Judge(n), CALM.(accepted := false), false)] + Resigned(n)
  }

  lemma UnconvincedRuns(w: World, n: string)
    requires BaseTracksVolume(w) && w.alive
    ensures Runs(w, Unconvinced(n), GivenUp(w, n))
  {
    var s := Step(Judge(n), CALM.(accepted := false), false);
    CalmDrift(w);
    assert Drifted(w, s.e) == Drifted(w, CALM);
    StepRuns(w, s);
    ResignedRuns(w, n);
    RunsOn(w, [s], w, Resigned(n), GivenUp(w, n));
  }

  // ----- A candidate

  /** A candidate is created and started after n looks. */
  function StartRun(n: nat, c: string, k: Container): seq<Step> {
    Calmly(n, Create(c, k), true) + Calmly(0, Launch(c, true), true)
  }

  function CandidateUp(w: World, c: string, k: Container): World { Started(Created(w, c, k), c, true) }

  lemma StartRuns(w: World, n: nat, c: string, k: Container)
    requires BaseTracksVolume(w) && w.alive && c !in w.containers && !k.running
    ensures Runs(w, StartRun(n, c, k), CandidateUp(w, c, k))
  {
    var w1 := Created(w, c, k);
    CalmRun(w, n, Create(c, k));
    CalmRun(w1, 0, Launch(c, true));
    RunsOn(w, Calmly(n, Create(c, k), true), w1, Calmly(0, Launch(c, true), true), CandidateUp(w, c, k));
  }

  /** It fails its check, and after looks more it is removed. */
  function CandidateRun(n: nat, c: string, k: Container, v: Option<int>, looks: nat, force: bool): seq<Step> {
    StartRun(n, c, k) + FailingCheck(c, v) + Calmly(looks, Remove(c, force), true)
  }

  function CandidateGone(w: World, c: string, k: Container, v: Option<int>): (w': World)
    requires c !in w.containers
    ensures w'.containers == w.containers
  {
    var w' := Removed(CheckFailed(CandidateUp(w, c, k), c, v), c);
    assert w'.containers == w.containers;
    w'
  }

  lemma CandidateRuns(w: World, n: nat, c: string, k: Container, v: Option<int>, looks: nat, force: bool)
    requires BaseTracksVolume(w) && w.alive && c !in w.containers && !k.running
    requires v.Some? ==> k.mounts
    ensures Runs(w, CandidateRun(n, c, k, v, looks, force), CandidateGone(w, c, k, v))
  {
    var w1 := CandidateUp(w, c, k);
    var w2 := CheckFailed(w1, c, v);
    StartRuns(w, n, c, k);
    FailingCheckRuns(w1, c, v);
    CalmRun(w2, looks, Remove(c, force));
    RunsOn(w, StartRun(n, c, k), w1, FailingCheck(c, v), w2);
    RunsOn(w, StartRun(n, c, k) + FailingCheck(c, v), w2, Calmly(looks, Remove(c, force), true), CandidateGone(w, c, k, v));
  }

  // ----- The snapshot

  /** After a mishap. */
  function Troubled(w: World): World { w.(log := w.log.(mishaps := w.log.mishaps + 1)) }

  lemma TroubledDrift(w: World, e: Choice)
    requires BaseTracksVolume(w) && w.alive && e.fails && !e.dies && e.passed == 0
    requires e.exited == {} && e.vanished == {} && e.written.None?
    ensures Drifted(w, e) == Troubled(w)
  {
    assert (map n | n in w.containers && n !in e.vanished :: w.containers[n]) == w.containers;
  }

  /** The snapshot is in place when its task fails. */
  const LATE_FAILURE := Step(Snapshot, CALM.(fails := true, late := true), false)

  lemma LateFailureRuns(w: World, n: nat)
    requires BaseTracksVolume(w) && w.alive
    ensures Runs(w, Looks(n) + [LATE_FAILURE], SnapshotTaken(Troubled(w)))
  {
    LooksRun(w, n);
    TroubledDrift(w, LATE_FAILURE.e);
    StepRuns(w, LATE_FAILURE);
    RunsOn(w, Looks(n), w, [LATE_FAILURE], SnapshotTaken(Troubled(w)));
  }
}
