/** Several attempts of deployWorkerRuntime (agent/src/worker-runtime.ts) after each other, and the runs
    of one or two attempts that lose what a volume held. */
module WorkerRolloutRuns {
  import opened Wrappers
  import opened DockerHost
  import opened HostRuns
  import opened VolumeSnapshots
  import opened WorkerRolloutPlan
  import opened WorkerRollout

  /** The agent's process starts again after it died. */
  method Revive(docker: Docker)
    modifies docker
    ensures docker.w == old(docker.w).(alive := true)
  {
    docker.w := docker.w.(alive := true);
  }

  /** A previous container was started while the slot holds a snapshot of contents it can change. */
  predicate StartedBesideSnapshot(ro: Rollout, w: World, w': World) {
    w'.slot.Some? && !w'.log.dirty && !NoRestart(ro, w, w')
  }

  /** Attempts at one deployment, each ending or dying anywhere, until one commits, ends StartedBesideSnapshot,
      or is not guarded: it found neither something live to replace nor a snapshot of an earlier attempt. What
      the volume holds at the end of last, the latest attempt that began with its contents ready for a retry, is
      not lost then and is set aside if not ready. */
  method DeployWithRetries(docker: Docker, ro: Rollout, attempts: nat)
    returns (settled: bool, committed: bool, guarded: bool, ghost last: World)
    requires ValidRollout(ro) && OwnsCandidateNames(ro, docker.w.containers) && ro.hasVolume
    requires Resumable(docker.w)
    modifies docker
    ensures guarded && !committed ==> (docker.w == last && Conserved(last)) || last.log.base in docker.w.kept
    ensures guarded && !settled ==> (docker.w == last && Resumable(last)) || last.log.base in docker.w.kept
  {
    settled, committed, guarded := false, false, true;
    last := docker.w;
    var n := 0;
    while n < attempts && !settled
      invariant !settled ==> OwnsCandidateNames(ro, docker.w.containers)
      invariant !settled ==> (docker.w == last && Resumable(last)) || last.log.base in docker.w.kept
      invariant guarded && !committed ==> (docker.w == last && Conserved(last)) || last.log.base in docker.w.kept
      invariant !guarded || committed ==> settled
      decreases attempts - n
    {
      Revive(docker);
      var before := docker.w;
      ghost var surveyed, current;
      var result;
      result, surveyed, current := DeployWorkerRuntime(docker, ro);
      StopFirstIff(ro.policy, ro.hasVolume, ro.deploymentId, ro.candidates, AsExisting(ro, current));
      guarded := result.Halted? || result.plan.StopFirst? || before.slot.Some?;
      committed := result.Committed?;
      settled := committed || !guarded || StartedBesideSnapshot(ro, before, docker.w);
      if Resumable(before) && guarded && !committed {
        last := docker.w;
      }
      n := n + 1;
    }
  }

  // ----- Pieces of runs

  /** stopWorkerContainerGracefully on a running container that exits at the signal, after n looks. */
  function StopRun(n: nat, p: string): seq<Step> {
    Calmly(n, SetPolicy(p, false), true) + Calmly(0, Kill(p, false), true) + [SeesExit(p)]
  }

  function Stopped(w: World, p: string): World
    requires p in w.containers
  {
    Exited(Effect(Effect(w, SetPolicy(p, false), CALM), Kill(p, false), CALM), p)
  }

  lemma StopRuns(w: World, n: nat, p: string)
    requires BaseTracksVolume(w) && w.alive && p in w.containers
    ensures Runs(w, StopRun(n, p), Stopped(w, p))
  {
    var w1 := Effect(w, SetPolicy(p, false), CALM);
    var w2 := Effect(w1, Kill(p, false), CALM);
    CalmRun(w, n, SetPolicy(p, false));
    CalmRun(w1, 0, Kill(p, false));
    SeesExitRuns(w2, p);
    RunsOn(w, Calmly(n, SetPolicy(p, false), true), w1, Calmly(0, Kill(p, false), true), w2);
    RunsOn(w, Calmly(n, SetPolicy(p, false), true) + Calmly(0, Kill(p, false), true), w2, [SeesExit(p)], Exited(w2, p));
  }

  /** The restore of one stopped previous container, which passes its check. */
  function RestartRun(p: string): seq<Step> {
    Calmly(2, SetPolicy(p, true), true) + Calmly(0, Launch(p, false), true) + Calmly(0, Judge(p), true)
  }

  function BackAgain(w: World, p: string): World
    requires p in w.containers
  {
    var ready := w.containers[p := w.containers[p].(autoRestart := true)];
    w.(containers := w.containers[p := w.containers[p].(autoRestart := true, running := true)],
       log := w.log.(starts := w.log.starts + [Start(p, ready)], ready := w.log.ready + [p]))
  }

  lemma RestartRuns(w: World, p: string)
    requires BaseTracksVolume(w) && w.alive && p in w.containers && !w.containers[p].running
    ensures Runs(w, RestartRun(p), BackAgain(w, p))
  {
    var w1 := Effect(w, SetPolicy(p, true), CALM);
    var w2 := Effect(w1, Launch(p, false), CALM);
    CalmRun(w, 2, SetPolicy(p, true));
    CalmRun(w1, 0, Launch(p, false));
    CalmRun(w2, 0, Judge(p));
    assert w2.containers == BackAgain(w, p).containers;
    RunsOn(w, Calmly(2, SetPolicy(p, true), true), w1, Calmly(0, Launch(p, false), true), w2);
    RunsOn(w, Calmly(2, SetPolicy(p, true), true) + Calmly(0, Launch(p, false), true), w2,
           Calmly(0, Judge(p), true), BackAgain(w, p));
  }

  function NewCandidate(ro: Rollout): Container { Container(true, Some(ro.deploymentId), ro.hasVolume, false, true) }

  // ----- Nothing live to replace

  /** The leftovers of a listing, removed one after another. */
  function RemoveRun(names: seq<string>): seq<Step> {
    if names == [] then [] else RemoveRun(names[..|names| - 1]) + Calmly(0, Remove(names[|names| - 1], false), true)
  }

  /** As w, without these containers. */
  ghost predicate Cleared(w: World, w': World, names: seq<string>) {
    && (forall n :: n in w'.containers <==> n in w.containers && n !in names)
    && (forall n :: n in w'.containers ==> w'.containers[n] == w.containers[n])
    && w'.volume == w.volume && w'.slot == w.slot && w'.kept == w.kept && w'.alive == w.alive
    && w'.log.dirty == w.log.dirty && w'.log.base == w.log.base
  }

  lemma {:induction false} RemoveRuns(w: World, names: seq<string>) returns (w': World)
    requires BaseTracksVolume(w) && w.alive && forall n :: n in names ==> !Running(w.containers, n)
    ensures Runs(w, RemoveRun(names), w') && Cleared(w, w', names)
  {
    if names == [] {
      w' := w;
    } else {
      var rest, last := names[..|names| - 1], names[|names| - 1];
      assert names == rest + [last];
      var w1 := RemoveRuns(w, rest);
      CalmDrift(w1);
      assert !Running(w.containers, last);
      CalmRun(w1, 0, Remove(last, false));
      w' := Effect(w1, Remove(last, false), CALM);
      RunsOn(w, RemoveRun(rest), w1, Calmly(0, Remove(last, false), true), w');
    }
  }

  /** Nothing but the candidate's own slot is live, and the containers named are the others of the service;
      nothing but the candidate uses the volume. */
  ghost predicate NothingToReplace(ro: Rollout, w: World, c: string, leftovers: seq<string>) {
    && (c in w.containers ==> w.containers[c].service)
    && (forall n :: n in leftovers <==> n in w.containers && w.containers[n].service && n != c)
    && (forall n :: n in leftovers ==> !w.containers[n].running && n !in ro.recordedLive)
    && (forall n :: Running(w.containers, n) && w.containers[n].mounts ==> n == c)
  }

  /** What the survey finds once the leftovers are gone. */
  function OwnSlot(w: World, c: string): seq<Listed> {
    if c in w.containers then [Listed(c, w.containers[c])] else []
  }

  /** The survey: two looks, the leftovers removed and seen to be gone, the volume's consumers. */
  function ClearingRun(leftovers: seq<string>): seq<Step> {
    Looks(2) + RemoveRun(leftovers) + Looks(|leftovers| + 1)
  }

  /** A slot that holds a container, which exits before it is looked at, is emptied. */
  function EmptyingRun(w: World, c: string): seq<Step> {
    if c in w.containers then [SeesExit(c)] + Calmly(0, Remove(c, false), true) else []
  }

  lemma EmptyingRuns(w: World, c: string) returns (w': World)
    requires BaseTracksVolume(w) && w.alive
    ensures Runs(w, EmptyingRun(w, c), w') && Cleared(w, w', [c])
  {
    if c in w.containers {
      var w1 := Exited(w, c);
      SeesExitRuns(w, c);
      CalmRun(w1, 0, Remove(c, false));
      w' := Effect(w1, Remove(c, false), CALM);
      RunsOn(w, [SeesExit(c)], w1, Calmly(0, Remove(c, false), true), w');
    } else {
      w' := w;
    }
  }

  /** The candidate writes v and fails. After its slot was looked at, or seen to be empty: three looks to ensure
      its container. */
  function FailedCandidate(ro: Rollout, c: string, v: int): seq<Step> {
    CandidateRun(4, c, NewCandidate(ro), Some(v), 2, false)
  }

  /** Without a live container to replace and without a snapshot in the slot, a volume deploy starts its
      candidate with no snapshot taken, so what a failed candidate wrote is there to stay: the other half of
      DeployWorkerRuntime's condition, on any such host and for any contents. */
  lemma FailedFirstCandidateLosesContents(ro: Rollout, w: World, c: string, leftovers: seq<string>, v: int)
    returns (surveyed: World, w': World)
    requires ro.hasVolume && ro.candidates == [c] && NothingToReplace(ro, w, c, leftovers)
    requires w.alive && Resumable(w) && w.slot.None? && w.volume !in w.kept && v != w.volume
    ensures Runs(w, ClearingRun(leftovers), surveyed)
    ensures Surveyed(ro, OwnSlot(surveyed, c), surveyed.containers) && PlanFor(ro, OwnSlot(surveyed, c)).CandidateFirst?
    ensures Runs(surveyed, EmptyingRun(surveyed, c) + FailedCandidate(ro, c, v), w')
    ensures w'.volume == v && w'.log.base == w.volume && !Conserved(w')
  {
    LooksRun(w, 2);
    surveyed := RemoveRuns(w, leftovers);
    LooksRun(surveyed, |leftovers| + 1);
    RunsOn(w, Looks(2), w, RemoveRun(leftovers), surveyed);
    RunsOn(w, Looks(2) + RemoveRun(leftovers), surveyed, Looks(|leftovers| + 1), surveyed);
    OwnSlotSurveys(ro, surveyed, c);
    var w1 := EmptyingRuns(surveyed, c);
    CandidateRuns(w1, 4, c, NewCandidate(ro), Some(v), 2, false);
    w' := CandidateGone(w1, c, NewCandidate(ro), Some(v));
    RunsOn(surveyed, EmptyingRun(surveyed, c), w1, FailedCandidate(ro, c, v), w');
  }

  lemma OwnSlotSurveys(ro: Rollout, w: World, c: string)
    requires ro.candidates == [c] && forall n :: n in w.containers && w.containers[n].service ==> n == c
    ensures Surveyed(ro, OwnSlot(w, c), w.containers) && PlanFor(ro, OwnSlot(w, c)).CandidateFirst?
  {
    var current := OwnSlot(w, c);
    assert c in w.containers ==> current[0].name == c;
    StopFirstIff(ro.policy, ro.hasVolume, ro.deploymentId, ro.candidates, AsExisting(ro, current));
  }

  // ----- A snapshot that is reused too late

  /** p is the service's one container: it runs, is recorded live and uses the volume. */
  ghost predicate ServedBy(ro: Rollout, w: World, p: string) {
    && p in ro.recordedLive && p !in ro.candidates
    && Running(w.containers, p) && w.containers[p].service && w.containers[p].mounts
    && (forall n :: n in w.containers && n != p ==> !w.containers[n].service)
    && (forall n :: Running(w.containers, n) && n != p ==> !w.containers[n].mounts)
  }

  lemma PlanToReplace(ro: Rollout, w: World, c: string, p: string)
    requires ro.hasVolume && ro.candidates == [c] && ServedBy(ro, w, p)
    ensures Surveyed(ro, [Listed(p, w.containers[p])], w.containers)
    ensures PlanFor(ro, [Listed(p, w.containers[p])]) == StopFirst(SingleWriterVolume, [], [p])
  {
    var current := [Listed(p, w.containers[p])];
    var existing := AsExisting(ro, current);
    assert current[0].name == p;
    assert existing == [Existing(p, w.containers[p].deployment, true)];
    assert LiveOther(existing[0], ro.candidates);
    JustOne(existing[0], ro.candidates);
  }

  lemma JustOne(e: Existing, candidates: seq<string>)
    requires e.name !in candidates
    ensures NamesWhere([e], candidates, false) == [e.name] && NamesWhere([e], candidates, true) == []
  {
    assert [e][1..] == [];
    assert NamesWhere([e][1..], candidates, false) == [] && NamesWhere([e][1..], candidates, true) == [];
  }

  /** A stop-first attempt whose snapshot task fails late: it gives up before it starts a candidate, and
      restarts the previous container. */
  function LateSnapshotRun(p: string): seq<Step> {
    StopRun(7, p) + (Looks(2) + [LATE_FAILURE]) + RestartRun(p)
  }

  lemma SnapshotOutlivesItsAttempt(ro: Rollout, w: World, c: string, p: string) returns (w': World)
    requires ro.hasVolume && ro.candidates == [c] && c !in w.containers
    requires ServedBy(ro, w, p) && w.alive && Resumable(w) && w.slot.None?
    ensures PlanFor(ro, [Listed(p, w.containers[p])]) == StopFirst(SingleWriterVolume, [], [p])
    ensures Runs(w, LateSnapshotRun(p), w')
    ensures ServedBy(ro, w', p) && c !in w'.containers && w'.alive
    ensures BaseTracksVolume(w') && w'.slot == Some(w'.volume) && StartedBesideSnapshot(ro, w, w')
    ensures w'.volume == w.volume && w'.kept == w.kept
  {
    PlanToReplace(ro, w, c, p);
    var w1 := Stopped(w, p);
    StopRuns(w, 7, p);
    var w2 := SnapshotTaken(Troubled(w1));
    LateFailureRuns(w1, 2);
    RestartRuns(w2, p);
    w' := BackAgain(w2, p);
    RunsOn(w, StopRun(7, p), w1, Looks(2) + [LATE_FAILURE], w2);
    RunsOn(w, StopRun(7, p) + (Looks(2) + [LATE_FAILURE]), w2, RestartRun(p), w');
    assert w'.log.starts[|w.log.starts|].name == p;
  }

  /** The next attempt up to the failure of its candidate: it finds a snapshot in the slot and takes no
      other. */
  function ReuseRun(ro: Rollout, c: string, p: string, y: int, v: int): seq<Step> {
    [Writes(y)] + StopRun(6, p) + Calmly(2, Snapshot, true) + FailedCandidate(ro, c, v)
  }

  lemma ReuseRuns(ro: Rollout, w: World, c: string, p: string, y: int, v: int) returns (w': World)
    requires ro.hasVolume && c !in w.containers && Running(w.containers, p) && w.containers[p].mounts
    requires w.alive && BaseTracksVolume(w) && !w.log.dirty && w.slot.Some?
    ensures Runs(w, ReuseRun(ro, c, p, y, v), w')
    ensures w'.log.dirty && w'.log.base == y && w'.slot == w.slot && w'.kept == w.kept && w'.alive
    ensures p in w'.containers && !w'.containers[p].running
  {
    var w2 := WritesThenStops(w, p, y);
    CalmRun(w2, 2, Snapshot);
    w' := CandidateFailsBeside(w2, w, p, y, 4, c, NewCandidate(ro), v, 2, false);
    ThreeRun(w, [Writes(y)] + StopRun(6, p), w2, Calmly(2, Snapshot, true), w2, FailedCandidate(ro, c, v), w');
  }

  lemma WritesThenStops(w: World, p: string, y: int) returns (w': World)
    requires Running(w.containers, p) && w.containers[p].mounts
    requires w.alive && BaseTracksVolume(w) && !w.log.dirty && w.slot.Some?
    ensures Runs(w, [Writes(y)] + StopRun(6, p), w') && StoppedBeside(w, w', p, y)
  {
    var w1 := w.(volume := y, log := w.log.(base := y));
    WritesRuns(w, y);
    StopRuns(w1, 6, p);
    w' := Stopped(w1, p);
    RunsOn(w, [Writes(y)], w1, StopRun(6, p), w');
  }

  /** The rollback: that snapshot is unpacked, the previous container restarted, the snapshot deleted. */
  function RollbackRun(p: string): seq<Step> {
    Calmly(1, Restore, true) + RestartRun(p) + Calmly(0, Discard, true)
  }

  lemma RollbackRuns(w: World, p: string) returns (w': World)
    requires w.log.dirty && w.alive && w.slot.Some? && p in w.containers && !w.containers[p].running
    requires w.slot.value != w.log.base
    ensures Runs(w, RollbackRun(p), w')
    ensures w'.log.dirty && w'.volume == w.slot.value && w'.slot.None?
    ensures w'.log.base == w.log.base && w'.kept == w.kept
  {
    var w1 := Effect(w, Restore, CALM);
    CalmRun(w, 1, Restore);
    RestartRuns(w1, p);
    var w2 := BackAgain(w1, p);
    CalmRun(w2, 0, Discard);
    w' := Effect(w2, Discard, CALM);
    RunsOn(w, Calmly(1, Restore, true), w1, RestartRun(p), w2);
    RunsOn(w, Calmly(1, Restore, true) + RestartRun(p), w2, Calmly(0, Discard, true), w');
  }

  /** From any world that an attempt left StartedBesideSnapshot, what the previous container writes before
      the next attempt can be lost to the old snapshot. */
  lemma RetryRestoresStaleContents(ro: Rollout, w: World, c: string, p: string, y: int, v: int) returns (w': World)
    requires ro.hasVolume && ro.candidates == [c] && c !in w.containers
    requires ServedBy(ro, w, p) && w.alive && BaseTracksVolume(w) && !w.log.dirty
    requires w.slot.Some? && y != w.slot.value && y !in w.kept
    ensures PlanFor(ro, [Listed(p, w.containers[p])]) == StopFirst(SingleWriterVolume, [], [p])
    ensures Runs(w, ReuseRun(ro, c, p, y, v) + RollbackRun(p), w')
    ensures w'.log.base == y && w'.volume == w.slot.value && !Conserved(w')
  {
    PlanToReplace(ro, w, c, p);
    var w1 := ReuseRuns(ro, w, c, p, y, v);
    w' := RollbackRuns(w1, p);
    RunsOn(w, ReuseRun(ro, c, p, y, v), w1, RollbackRun(p), w');
  }

  // ----- A slot that holds another deployment's container

  /** Two candidates under no_overlap; the slot of the first is taken by the running container of another
      deployment with the same name. */
  ghost predicate SlotsCollide(ro: Rollout, w: World, c: string, d: string) {
    && ro.candidates == [c, d] && c != d && !ro.hasVolume && ro.policy.NoOverlap?
    && OtherVersionRuns(ro, w.containers, c) && d !in w.containers
    && (forall n :: n in w.containers && n != c ==> !w.containers[n].service)
  }

  /** The first slot is kept as it is, the second candidate is created and started. */
  function CollidingRun(ro: Rollout, c: string, d: string): seq<Step> {
    Calmly(3, SetPolicy(c, true), true) + Looks(2) + StartRun(4, d, NewCandidate(ro))
  }

  /** NoOverlapEver needs its SlotsAreOwn: here the second candidate starts while another version runs. */
  lemma CollidingSlotOverlaps(ro: Rollout, w: World, c: string, d: string) returns (w': World)
    requires SlotsCollide(ro, w, c, d) && w.alive && BaseTracksVolume(w)
    ensures !SlotsAreOwn(ro, w.containers)
    ensures Surveyed(ro, [Listed(c, w.containers[c])], w.containers)
    ensures PlanFor(ro, [Listed(c, w.containers[c])]).CandidateFirst?
    ensures Runs(w, CollidingRun(ro, c, d), w')
    ensures |w'.log.starts| == |w.log.starts| + 1
    ensures var e := w'.log.starts[|w.log.starts|]; e.name == d && OtherVersionRuns(ro, e.before, c)
  {
    var current := [Listed(c, w.containers[c])];
    assert current[0].name == c;
    assert c in ro.candidates;
    StopFirstIff(ro.policy, ro.hasVolume, ro.deploymentId, ro.candidates, AsExisting(ro, current));
    var w1 := Effect(w, SetPolicy(c, true), CALM);
    CalmRun(w, 3, SetPolicy(c, true));
    LooksRun(w1, 2);
    StartRuns(w1, 4, d, NewCandidate(ro));
    w' := CandidateUp(w1, d, NewCandidate(ro));
    RunsOn(w, Calmly(3, SetPolicy(c, true), true), w1, Looks(2), w1);
    RunsOn(w, Calmly(3, SetPolicy(c, true), true) + Looks(2), w1, StartRun(4, d, NewCandidate(ro)), w');
  }
}
