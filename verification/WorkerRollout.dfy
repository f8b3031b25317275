/** deployWorkerRuntime and its steps (agent/src/worker-runtime.ts). Every exit of the source, an
    error included, is a result here, and the agent dying between two calls is the environment's
    choice (DockerHost), so what a method ensures holds wherever a run stops. */
module WorkerRollout {
  import opened Wrappers
  import opened DockerHost
  import opened WorkerShutdown
  import opened WorkerRolloutPlan
  import opened VolumeSnapshots

  /** What one rollout converges on. recordedLive: the names the control plane records as live. */
  datatype Rollout = Rollout(deploymentId: string, candidates: seq<string>, policy: RolloutPolicy,
                             hasVolume: bool, gracePeriodSeconds: nat, recordedLive: set<string>)

  ghost predicate ValidRollout(ro: Rollout) {
    && (forall i, j :: 0 <= i < j < |ro.candidates| ==> ro.candidates[i] != ro.candidates[j])
    && (ro.hasVolume ==> |ro.candidates| <= 1)
  }

  ghost function Names(names: seq<string>): set<string> { set n | n in names }

  // ----- What a start must find

  /** Containers with a candidate's name belong to the service: the agent's names are its own. */
  ghost predicate OwnsCandidateNames(ro: Rollout, containers: map<string, Container>) {
    forall n :: n in ro.candidates && n in containers ==> containers[n].service
  }

  ghost predicate SlotIsOwn(ro: Rollout, containers: map<string, Container>, n: string) {
    n in containers ==> containers[n].deployment == Some(ro.deploymentId)
  }

  /** What runs in a candidate slot is this deployment's: names of different deployments do not collide. */
  ghost predicate SlotsAreOwn(ro: Rollout, containers: map<string, Container>) {
    forall n :: n in ro.candidates && Running(containers, n) ==> SlotIsOwn(ro, containers, n)
  }

  /** They stay so, and every start finds them so. */
  ghost predicate KeepsSlotsOwn(ro: Rollout, w: World, w': World) {
    SlotsAreOwn(ro, w.containers) ==>
      && SlotsAreOwn(ro, w'.containers)
      && (forall i :: |w.log.starts| <= i < |w'.log.starts| ==> SlotsAreOwn(ro, w'.log.starts[i].before))
  }

  lemma EvolveKeepsSlotsOwn(ro: Rollout, w: World, w': World)
    requires Evolve(w, w')
    ensures KeepsSlotsOwn(ro, w, w')
  {
  }

  lemma SlotsOwnTransitive(ro: Rollout, a: World, b: World, c: World)
    requires KeepsSlotsOwn(ro, a, b) && KeepsSlotsOwn(ro, b, c)
    requires a.log.starts <= b.log.starts <= c.log.starts
    ensures KeepsSlotsOwn(ro, a, c)
  {
    if SlotsAreOwn(ro, a.containers) {
      forall i | |a.log.starts| <= i < |c.log.starts| ensures SlotsAreOwn(ro, c.log.starts[i].before) {
        if i < |b.log.starts| { assert c.log.starts[i] == b.log.starts[i]; }
      }
    }
  }

  /** No container outside the candidate slots stands in the way of a candidate. */
  ghost predicate Clear(ro: Rollout, stopFirst: bool, containers: map<string, Container>) {
    forall n :: Running(containers, n) && n !in ro.candidates ==>
      && (containers[n].service ==>
            && !stopFirst
            && (ro.policy.NoOverlap? ==> containers[n].deployment == Some(ro.deploymentId)))
      && (ro.hasVolume ==> !containers[n].mounts)
  }

  /** A candidate starts only when Clear, and with a volume only when nothing at all consumes it. */
  ghost predicate SafeCandidateStart(ro: Rollout, stopFirst: bool, e: Start) {
    e.name in ro.candidates && Clear(ro, stopFirst, e.before) && (ro.hasVolume ==> NoConsumer(e.before))
  }

  /** A previous container starts again only when no candidate runs; the volume's running consumers are
      then previous containers, and none when the rollout stopped a single one. */
  ghost predicate SafeRestart(ro: Rollout, previous: seq<string>, e: Start) {
    && e.name in previous && e.name !in ro.candidates
    && NoneRunning(e.before, Names(ro.candidates))
    && (ro.hasVolume ==> forall n :: Running(e.before, n) && e.before[n].mounts ==> n in previous)
    && (ro.hasVolume && |previous| == 1 ==> NoConsumer(e.before))
  }

  ghost predicate SafeStart(ro: Rollout, stopFirst: bool, previous: seq<string>, e: Start) {
    SafeCandidateStart(ro, stopFirst, e) || (stopFirst && SafeRestart(ro, previous, e))
  }

  // ----- How the world changes in each part of a rollout

  /** Starting candidates: only they appear or start, and only they may have written the volume. */
  ghost predicate CandidatesOnly(ro: Rollout, stopFirst: bool, w: World, w': World) {
    && (forall n :: n in w'.containers && n !in ro.candidates ==>
          && n in w.containers && SameLabels(w.containers[n], w'.containers[n])
          && (w'.containers[n].running ==> w.containers[n].running))
    && w.log.starts <= w'.log.starts
    && (forall i :: |w.log.starts| <= i < |w'.log.starts| ==> SafeCandidateStart(ro, stopFirst, w'.log.starts[i]))
    && Bookkeeping(w, w')
    && w'.slot == w.slot && w'.log.restores == w.log.restores
    && (w.log.dirty ==> w'.log.dirty)
    && (OwnsCandidateNames(ro, w.containers) ==> OwnsCandidateNames(ro, w'.containers))
  }

  ghost predicate Bookkeeping(w: World, w': World) {
    && w'.kept == w.kept
    && w.log.ready <= w'.log.ready && Traced(w, w')
    && (BaseTracksVolume(w) ==> BaseTracksVolume(w'))
    && (w.log.dirty && w'.log.dirty ==> w'.log.base == w.log.base)
  }

  lemma EvolveIsCandidatesOnly(ro: Rollout, stopFirst: bool, w: World, w': World)
    requires Evolve(w, w')
    ensures CandidatesOnly(ro, stopFirst, w, w')
  {
  }

  lemma CandidatesOnlyTransitive(ro: Rollout, stopFirst: bool, a: World, b: World, c: World)
    requires CandidatesOnly(ro, stopFirst, a, b) && CandidatesOnly(ro, stopFirst, b, c)
    ensures CandidatesOnly(ro, stopFirst, a, c)
  {
    forall i | |a.log.starts| <= i < |c.log.starts|
      ensures SafeCandidateStart(ro, stopFirst, c.log.starts[i])
    {
      if i < |b.log.starts| { assert c.log.starts[i] == b.log.starts[i]; }
    }
  }

  lemma CandidatesOnlyKeepsClear(ro: Rollout, stopFirst: bool, w: World, w': World)
    requires CandidatesOnly(ro, stopFirst, w, w')
    ensures Clear(ro, stopFirst, w.containers) ==> Clear(ro, stopFirst, w'.containers)
  {
    forall n | Running(w'.containers, n) && n !in ro.candidates ensures Running(w.containers, n) {}
  }

  // ----- Starting candidates

  lemma StartIsCandidatesOnly(ro: Rollout, stopFirst: bool, w: World, n: string)
    requires n in ro.candidates && n in w.containers && !w.containers[n].running
    requires Clear(ro, stopFirst, w.containers) && (ro.hasVolume ==> ro.candidates == [n])
    ensures CandidatesOnly(ro, stopFirst, w, Started(w, n, true))
    ensures Resumable(w) && w.slot.Some? ==> Resumable(Started(w, n, true))
  {
    assert ro.hasVolume ==> NoConsumer(w.containers);
  }

  lemma CreateIsCandidatesOnly(ro: Rollout, stopFirst: bool, w: World, n: string, c: Container)
    requires n in ro.candidates && n !in w.containers && !c.running && c.service && c.deployment == Some(ro.deploymentId)
    ensures CandidatesOnly(ro, stopFirst, w, Created(w, n, c))
    ensures Resumable(w) ==> Resumable(Created(w, n, c))
  {
  }

  /** What CandidatesOnly and a snapshot in the slot keep. */
  ghost predicate CandidateStep(ro: Rollout, stopFirst: bool, w: World, w': World) {
    && CandidatesOnly(ro, stopFirst, w, w')
    && (Resumable(w) && w.slot.Some? ==> Resumable(w'))
  }

  lemma EvolveIsCandidateStep(ro: Rollout, stopFirst: bool, w: World, w': World)
    requires Evolve(w, w')
    ensures CandidateStep(ro, stopFirst, w, w')
    ensures Clear(ro, stopFirst, w.containers) ==> Clear(ro, stopFirst, w'.containers)
  {
    EvolveIsCandidatesOnly(ro, stopFirst, w, w');
    CandidatesOnlyKeepsClear(ro, stopFirst, w, w');
    if Resumable(w) { EvolveKeepsResumable(w, w'); }
  }

  lemma CandidateStepTransitive(ro: Rollout, stopFirst: bool, a: World, b: World, c: World)
    requires CandidateStep(ro, stopFirst, a, b) && CandidateStep(ro, stopFirst, b, c)
    ensures CandidateStep(ro, stopFirst, a, c)
  {
    CandidatesOnlyTransitive(ro, stopFirst, a, b, c);
  }

  /** Where the container in the slot of n is this deployment's, the slots stay so while it is ensured. */
  ghost predicate KeepsSlot(ro: Rollout, n: string, w: World, w': World) {
    SlotsAreOwn(ro, w.containers) && SlotIsOwn(ro, w.containers, n) ==>
      && SlotsAreOwn(ro, w'.containers) && SlotIsOwn(ro, w'.containers, n)
      && (forall i :: |w.log.starts| <= i < |w'.log.starts| ==> SlotsAreOwn(ro, w'.log.starts[i].before))
  }

  lemma StartKeepsSlot(ro: Rollout, w: World, n: string)
    requires n in w.containers
    ensures KeepsSlot(ro, n, w, Started(w, n, true))
  {
    assert Started(w, n, true).log.starts[|w.log.starts|].before == w.containers;
  }

  ghost predicate SlotStep(ro: Rollout, stopFirst: bool, n: string, w: World, w': World) {
    CandidateStep(ro, stopFirst, w, w') && KeepsSlot(ro, n, w, w')
  }

  lemma EvolveIsSlotStep(ro: Rollout, stopFirst: bool, n: string, w: World, w': World)
    requires Evolve(w, w')
    ensures SlotStep(ro, stopFirst, n, w, w')
    ensures Clear(ro, stopFirst, w.containers) ==> Clear(ro, stopFirst, w'.containers)
  {
    EvolveIsCandidateStep(ro, stopFirst, w, w');
  }

  lemma SlotStepTransitive(ro: Rollout, stopFirst: bool, n: string, a: World, b: World, c: World)
    requires SlotStep(ro, stopFirst, n, a, b) && SlotStep(ro, stopFirst, n, b, c)
    ensures SlotStep(ro, stopFirst, n, a, c)
  {
    CandidateStepTransitive(ro, stopFirst, a, b, c);
    if SlotsAreOwn(ro, a.containers) && SlotIsOwn(ro, a.containers, n) {
      forall i | |a.log.starts| <= i < |c.log.starts| ensures SlotsAreOwn(ro, c.log.starts[i].before) {
        if i < |b.log.starts| { assert c.log.starts[i] == b.log.starts[i]; }
      }
    }
  }

  /** A slot that was prepared is empty or has a container that ran when it was. */
  lemma PreparedSlotIsOwn(ro: Rollout, n: string, w: World, w1: World, w2: World)
    requires Evolve(w, w1) && n in ro.candidates && (n in w1.containers ==> Running(w.containers, n))
    requires KeepsSlot(ro, n, w1, w2)
    ensures KeepsSlotsOwn(ro, w, w2)
  {
    if SlotsAreOwn(ro, w.containers) {
      assert SlotsAreOwn(ro, w1.containers);
      assert SlotIsOwn(ro, w1.containers, n);
    }
  }

  /** What the rollout creates: its own container, with its volume if it has one, to be kept running. */
  ghost predicate IsNew(ro: Rollout, containers: map<string, Container>, n: string) {
    n in containers ==>
      && containers[n].service && containers[n].deployment == Some(ro.deploymentId)
      && (containers[n].mounts <==> ro.hasVolume) && containers[n].autoRestart
  }

  ghost predicate KeptRunning(containers: map<string, Container>, n: string) {
    n in containers ==> containers[n].autoRestart
  }

  /** While n is ensured nothing is removed, no check ends, and other containers are left alone. */
  ghost predicate EnsureStep(ro: Rollout, stopFirst: bool, n: string, w: World, w': World) {
    && SlotStep(ro, stopFirst, n, w, w')
    && w'.log.ready == w.log.ready && w'.log.unready == w.log.unready && w'.log.removals == w.log.removals
    && TouchesAmong(w, w', [n]) && (Running(w'.containers, n) ==> BroughtBack(w, w', n))
    && (IsNew(ro, w.containers, n) ==> IsNew(ro, w'.containers, n))
    && (KeptRunning(w.containers, n) ==> KeptRunning(w'.containers, n))
  }

  lemma QuietIsEnsureStep(ro: Rollout, stopFirst: bool, n: string, w: World, w': World)
    requires Quiet(w, w')
    ensures EnsureStep(ro, stopFirst, n, w, w')
    ensures Clear(ro, stopFirst, w.containers) ==> Clear(ro, stopFirst, w'.containers)
  {
    EvolveIsSlotStep(ro, stopFirst, n, w, w');
  }

  lemma EnsureStepTransitive(ro: Rollout, stopFirst: bool, n: string, a: World, b: World, c: World)
    requires EnsureStep(ro, stopFirst, n, a, b) && EnsureStep(ro, stopFirst, n, b, c)
    ensures EnsureStep(ro, stopFirst, n, a, c)
  {
    SlotStepTransitive(ro, stopFirst, n, a, b, c);
    StartedBetweenExtends(a, b, c, n);
  }

  method StartCandidate(docker: Docker, ro: Rollout, ghost stopFirst: bool, n: string) returns (r: Reply<()>)
    requires n in ro.candidates && Clear(ro, stopFirst, docker.w.containers)
    requires ro.hasVolume ==> ro.candidates == [n]
    modifies docker
    ensures EnsureStep(ro, stopFirst, n, old(docker.w), docker.w)
    ensures if r.Ok? then Running(docker.w.containers, n)
            else !Calm(old(docker.w), docker.w) || n !in old(docker.w).containers
  {
    ghost var before;
    r, before := docker.StartContainer(n, true);
    QuietIsEnsureStep(ro, stopFirst, n, old(docker.w), before);
    if docker.w != before {
      StartIsEnsureStep(ro, stopFirst, before, n);
      EnsureStepTransitive(ro, stopFirst, n, old(docker.w), before, docker.w);
    }
  }

  lemma StartIsEnsureStep(ro: Rollout, stopFirst: bool, w: World, n: string)
    requires n in ro.candidates && n in w.containers && !w.containers[n].running
    requires Clear(ro, stopFirst, w.containers) && (ro.hasVolume ==> ro.candidates == [n])
    ensures EnsureStep(ro, stopFirst, n, w, Started(w, n, true))
  {
    StartIsCandidatesOnly(ro, stopFirst, w, n);
    StartKeepsSlot(ro, w, n);
    StartedIsStarted(w, n, true);
  }

  lemma CreateIsEnsureStep(ro: Rollout, stopFirst: bool, w: World, n: string, c: Container)
    requires n in ro.candidates && n !in w.containers
    requires c == Container(true, Some(ro.deploymentId), ro.hasVolume, false, true)
    ensures EnsureStep(ro, stopFirst, n, w, Created(w, n, c))
  {
    CreateIsCandidatesOnly(ro, stopFirst, w, n, c);
  }

  method CreateCandidate(docker: Docker, ro: Rollout, ghost stopFirst: bool, n: string) returns (r: Reply<()>)
    requires n in ro.candidates
    modifies docker
    ensures EnsureStep(ro, stopFirst, n, old(docker.w), docker.w)
    ensures if r.Ok? then n in docker.w.containers
            else !Calm(old(docker.w), docker.w) || n in old(docker.w).containers
  {
    ghost var before;
    var c := Container(true, Some(ro.deploymentId), ro.hasVolume, false, true);
    r, before := docker.CreateContainer(n, c);
    QuietIsEnsureStep(ro, stopFirst, n, old(docker.w), before);
    if docker.w != before {
      CreateIsEnsureStep(ro, stopFirst, before, n, c);
      EnsureStepTransitive(ro, stopFirst, n, old(docker.w), before, docker.w);
    }
  }

  /** The part of ensureContainer for a container that is not there. */
  method CreateAndStart(docker: Docker, ro: Rollout, ghost stopFirst: bool, n: string) returns (r: Reply<()>)
    requires n in ro.candidates && Clear(ro, stopFirst, docker.w.containers) && n !in docker.w.containers
    requires ro.hasVolume ==> ro.candidates == [n]
    modifies docker
    ensures EnsureStep(ro, stopFirst, n, old(docker.w), docker.w)
    ensures if r.Ok? then Running(docker.w.containers, n) else !Calm(old(docker.w), docker.w)
  {
    r := docker.Request();                                // the image must be present
    ghost var w1 := docker.w;
    QuietIsEnsureStep(ro, stopFirst, n, old(docker.w), w1);
    if r.Failed? {
      return;
    }
    r := CreateCandidate(docker, ro, stopFirst, n);
    ghost var w2 := docker.w;
    EnsureStepTransitive(ro, stopFirst, n, old(docker.w), w1, w2);
    CandidatesOnlyKeepsClear(ro, stopFirst, w1, w2);
    if r.Failed? {
      return;
    }
    r := StartCandidate(docker, ro, stopFirst, n);
    EnsureStepTransitive(ro, stopFirst, n, old(docker.w), w2, docker.w);
  }

  /** The two looks that begin ensureContainer. */
  method LookTwice(docker: Docker, n: string) returns (latest: Reply<Option<Container>>)
    modifies docker
    ensures Quiet(old(docker.w), docker.w)
    ensures if latest.Ok? then latest.value == (if n in docker.w.containers then Some(docker.w.containers[n]) else None)
            else !Calm(old(docker.w), docker.w)
  {
    latest := docker.InspectContainer(n);
    ghost var w1 := docker.w;
    if latest.Ok? {
      latest := docker.InspectContainer(n);
      LookedTransitive(old(docker.w), w1, docker.w);
    }
  }

  /** ensureContainer without replacement (agent/src/docker-api.ts). */
  method EnsureContainer(docker: Docker, ro: Rollout, ghost stopFirst: bool, n: string) returns (r: Reply<()>)
    requires n in ro.candidates && Clear(ro, stopFirst, docker.w.containers)
    requires ro.hasVolume ==> ro.candidates == [n]
    modifies docker
    ensures EnsureStep(ro, stopFirst, n, old(docker.w), docker.w)
    ensures if r.Ok? then Running(docker.w.containers, n) else !Calm(old(docker.w), docker.w)
  {
    var latest := LookTwice(docker, n);
    ghost var w1 := docker.w;
    QuietIsEnsureStep(ro, stopFirst, n, old(docker.w), w1);
    if latest.Failed? {
      return Failed;
    }
    if latest.value.Some? && latest.value.value.running {
      return Ok(());
    }
    if latest.value.Some? {
      r := StartCandidate(docker, ro, stopFirst, n);
    } else {
      r := CreateAndStart(docker, ro, stopFirst, n);
    }
    EnsureStepTransitive(ro, stopFirst, n, old(docker.w), w1, docker.w);
  }

  // ----- Reading and stopping

  method AssertContainersAbsent(docker: Docker, names: seq<string>) returns (r: Reply<()>)
    modifies docker
    ensures Looked(old(docker.w), docker.w) && PoliciesKept(old(docker.w), docker.w)
    ensures r.Ok? ==> forall n :: n in names ==> n !in docker.w.containers
    ensures r.Failed? && Calm(old(docker.w), docker.w) ==> exists n :: n in names && n in old(docker.w).containers
  {
    for i := 0 to |names|
      invariant Looked(old(docker.w), docker.w) && PoliciesKept(old(docker.w), docker.w)
      invariant forall j :: 0 <= j < i ==> names[j] !in docker.w.containers
    {
      ghost var w1 := docker.w;
      var current := docker.InspectContainer(names[i]);
      LookedTransitive(old(docker.w), w1, docker.w);
      if current.Failed? || current.value.Some? {
        return Failed;
      }
    }
    return Ok(());
  }

  method AssertContainersStopped(docker: Docker, names: seq<string>) returns (r: Reply<()>)
    modifies docker
    ensures Looked(old(docker.w), docker.w)
    ensures r.Ok? ==> NoneRunning(docker.w.containers, Names(names))
    ensures r.Failed? && Calm(old(docker.w), docker.w) ==> !NoneRunning(old(docker.w).containers, Names(names))
  {
    for i := 0 to |names|
      invariant Looked(old(docker.w), docker.w)
      invariant forall j :: 0 <= j < i ==> !Running(docker.w.containers, names[j])
    {
      ghost var w1 := docker.w;
      var current := docker.InspectContainer(names[i]);
      LookedTransitive(old(docker.w), w1, docker.w);
      if current.Failed? {
        return Failed;
      }
      if current.value.Some? && current.value.value.running {
        assert names[i] in Names(names) && Running(old(docker.w).containers, names[i]);
        return Failed;
      }
    }
    return Ok(());
  }

  /** readRestartLoopsBeforeStop, without the counts it takes. */
  method ReadRestartLoopsBeforeStop(docker: Docker, names: seq<string>) returns (r: Reply<()>)
    modifies docker
    ensures Looked(old(docker.w), docker.w) && (r.Failed? ==> !Calm(old(docker.w), docker.w))
  {
    for i := 0 to |names|
      invariant Looked(old(docker.w), docker.w)
    {
      ghost var w1 := docker.w;
      var current := docker.InspectContainer(names[i]);
      LookedTransitive(old(docker.w), w1, docker.w);
      if current.Failed? {
        return Failed;
      }
      if current.value.Some? {
        ghost var w2 := docker.w;
        r := docker.Request();
        LookedTransitive(old(docker.w), w2, docker.w);
        if r.Failed? {
          return;
        }
      }
    }
    return Ok(());
  }

  method RemoveAll(docker: Docker, names: seq<string>, force: bool) returns (r: Reply<()>)
    modifies docker
    ensures Tidied(old(docker.w), docker.w, names) && PoliciesKept(old(docker.w), docker.w)
    ensures r.Ok? ==> forall n :: n in names ==> n !in docker.w.containers
    ensures !force ==> docker.w.log.forced == old(docker.w.log.forced)
    ensures r.Failed? && Calm(old(docker.w), docker.w) ==>
              !force && !NoneRunning(old(docker.w).containers, Names(names))
  {
    LookedIsTidied(docker.w, docker.w, names);
    for i := 0 to |names|
      invariant Tidied(old(docker.w), docker.w, names) && PoliciesKept(old(docker.w), docker.w)
      invariant forall j :: 0 <= j < i ==> names[j] !in docker.w.containers
      invariant !force ==> docker.w.log.forced == old(docker.w.log.forced)
    {
      ghost var w1 := docker.w;
      r := docker.RemoveContainer(names[i], force);
      TidiedTransitive(old(docker.w), w1, docker.w, [names[i]], names);
      if r.Failed? {
        assert names[i] in Names(names);
        assert Running(w1.containers, names[i]) ==> Running(old(docker.w).containers, names[i]);
        return;
      }
    }
    return Ok(());
  }

  /** A container that does not run goes. */
  method EmptySlot(docker: Docker, n: string) returns (r: Reply<()>)
    modifies docker
    ensures Tidied(old(docker.w), docker.w, [n]) && TouchesAmong(old(docker.w), docker.w, [n])
    ensures docker.w.log.forced == old(docker.w.log.forced)
    ensures r.Ok? ==> n !in docker.w.containers
    ensures r.Failed? && Calm(old(docker.w), docker.w) ==> Running(old(docker.w).containers, n)
  {
    r := docker.RemoveContainer(n, false);
    if r.Ok? {
      ghost var w1 := docker.w;
      r := AssertContainersAbsent(docker, [n]);
      assert forall m :: m in [n] ==> m !in w1.containers;
      LookedIsTidied(w1, docker.w, [n]);
      TidiedTransitive(old(docker.w), w1, docker.w, [n], [n]);
    }
  }

  /** A slot whose container runs is kept, under unless-stopped; any other is empty afterwards, so that a
      fresh container starts in it. */
  method PrepareCandidateSlot(docker: Docker, n: string) returns (kept: Reply<bool>)
    modifies docker
    ensures Tidied(old(docker.w), docker.w, [n]) && TouchesAmong(old(docker.w), docker.w, [n])
    ensures docker.w.log.forced == old(docker.w.log.forced)
    ensures kept == Ok(false) ==> n !in docker.w.containers
    ensures kept == Ok(true) ==> Running(old(docker.w).containers, n)
    ensures kept == Ok(true) ==> n in docker.w.containers && docker.w.containers[n].autoRestart
    ensures kept == Ok(true) ==> docker.w.log.removals == old(docker.w.log.removals)
    ensures kept.Failed? ==> !Calm(old(docker.w), docker.w)
  {
    var existing := docker.InspectContainer(n);
    ghost var w1 := docker.w;
    if existing.Failed? {
      return Failed;
    }
    if existing.value.None? {
      return Ok(false);
    }
    LookedIsTidied(old(docker.w), w1, [n]);
    if existing.value.value.running {
      var found := docker.UpdateRestartPolicy(n, true);
      LookedIsTidied(w1, docker.w, [n]);
      TidiedTransitive(old(docker.w), w1, docker.w, [n], [n]);
      return if found.Ok? && found.value then Ok(true) else Failed;
    }
    var emptied := EmptySlot(docker, n);
    TidiedTransitive(old(docker.w), w1, docker.w, [n], [n]);
    return if emptied.Ok? then Ok(false) else Failed;
  }

  method FindExisting(docker: Docker, names: seq<string>) returns (r: Reply<seq<string>>)
    modifies docker
    ensures Looked(old(docker.w), docker.w)
    ensures r.Ok? ==> forall n :: n in names && n !in r.value ==> n !in docker.w.containers
    ensures r.Ok? ==> forall n :: n in r.value ==> n in names
    ensures r.Failed? ==> !Calm(old(docker.w), docker.w)
  {
    var found: seq<string> := [];
    for i := 0 to |names|
      invariant Looked(old(docker.w), docker.w)
      invariant forall j :: 0 <= j < i && names[j] !in found ==> names[j] !in docker.w.containers
      invariant forall n :: n in found ==> n in names
    {
      ghost var w1 := docker.w;
      var candidate := docker.InspectContainer(names[i]);
      LookedTransitive(old(docker.w), w1, docker.w);
      if candidate.Failed? {
        return Failed;
      }
      if candidate.value.Some? {
        found := found + [names[i]];
      }
    }
    return Ok(found);
  }

  /** Removes the candidates a stop dealt with; true when every one of them is gone. */
  method RemoveStopped(docker: Docker, reports: seq<Report>, ghost names: seq<string>) returns (stopped: Reply<bool>)
    requires forall i :: 0 <= i < |reports| ==> reports[i].name in names
    modifies docker
    ensures Tidied(old(docker.w), docker.w, names)
    ensures stopped == Ok(true) ==> forall i :: 0 <= i < |reports| ==> reports[i].name !in docker.w.containers
    ensures && Calm(old(docker.w), docker.w)
            && (forall i :: 0 <= i < |reports| ==>
                  !MayStillRun(reports[i]) && !Running(old(docker.w).containers, reports[i].name)) ==>
              stopped == Ok(true)
  {
    var allStopped := true;
    LookedIsTidied(docker.w, docker.w, names);
    for i := 0 to |reports|
      invariant Tidied(old(docker.w), docker.w, names)
      invariant allStopped ==> forall j :: 0 <= j < i ==> reports[j].name !in docker.w.containers
      invariant !allStopped ==> exists j :: 0 <= j < i && MayStillRun(reports[j])
    {
      if reports[i].outcome.Hung? {
        allStopped := false;
      } else {
        ghost var w1 := docker.w;
        var removed := docker.RemoveContainer(reports[i].name, reports[i].outcome.Unconfirmed?);
        TidiedTransitive(old(docker.w), w1, docker.w, [reports[i].name], names);
        if removed.Failed? {
          return Failed;
        }
      }
    }
    return Ok(allStopped);
  }

  /** The graceful part of discardFailedCandidates; a failed reply is an exception it catches. */
  method DiscardGracefully(docker: Docker, names: seq<string>, gracePeriodSeconds: nat) returns (stopped: Reply<bool>)
    modifies docker
    ensures Tidied(old(docker.w), docker.w, names)
    ensures stopped == Ok(true) ==> forall n :: n in names ==> n !in docker.w.containers
    ensures Calm(old(docker.w), docker.w) ==> stopped == Ok(true)
  {
    var started := FindExisting(docker, names);
    ghost var w1 := docker.w;
    if started.Failed? {
      return Failed;
    }
    var reports := StopAllGracefully(docker, started.value, gracePeriodSeconds);
    ghost var w2 := docker.w;
    LookedTransitive(old(docker.w), w1, w2);
    LookedIsTidied(old(docker.w), w2, names);
    stopped := RemoveStopped(docker, reports, names);
    TidiedTransitive(old(docker.w), w2, docker.w, names, names);
    if stopped == Ok(true) {
      forall n | n in started.value ensures n !in docker.w.containers {
        var i :| 0 <= i < |started.value| && started.value[i] == n;
        assert reports[i].name == n;
      }
    }
  }

  /** The forced part: each candidate is removed, or counted as possibly running. */
  method ForceRemove(docker: Docker, names: seq<string>) returns (stopped: bool)
    modifies docker
    ensures Tidied(old(docker.w), docker.w, names)
    ensures stopped ==> forall n :: n in names ==> n !in docker.w.containers
    ensures Calm(old(docker.w), docker.w) ==> stopped
  {
    stopped := true;
    LookedIsTidied(docker.w, docker.w, names);
    for i := 0 to |names|
      invariant Tidied(old(docker.w), docker.w, names)
      invariant stopped ==> forall j :: 0 <= j < i ==> names[j] !in docker.w.containers
      invariant Calm(old(docker.w), docker.w) ==> stopped
    {
      ghost var w1 := docker.w;
      var removed := ForceRemoveOne(docker, names[i]);
      TidiedTransitive(old(docker.w), w1, docker.w, [names[i]], names);
      stopped := stopped && removed;
    }
  }

  method ForceRemoveOne(docker: Docker, n: string) returns (removed: bool)
    modifies docker
    ensures Tidied(old(docker.w), docker.w, [n])
    ensures if removed then n !in docker.w.containers else !Calm(old(docker.w), docker.w)
  {
    var candidate := docker.InspectContainer(n);
    ghost var w1 := docker.w;
    LookedIsTidied(old(docker.w), w1, [n]);
    if candidate.Failed? {
      return false;
    }
    if candidate.value.None? {
      return true;
    }
    var r := docker.RemoveContainer(n, true);
    TidiedTransitive(old(docker.w), w1, docker.w, [n], [n]);
    return r.Ok?;
  }

  /** On either path, true is said only when every candidate is gone; and they are, unless something goes
      wrong. */
  method DiscardFailedCandidates(docker: Docker, names: seq<string>, gracePeriodSeconds: nat) returns (stopped: bool)
    modifies docker
    ensures Tidied(old(docker.w), docker.w, names)
    ensures stopped ==> forall n :: n in names ==> n !in docker.w.containers
    ensures Calm(old(docker.w), docker.w) ==> stopped
  {
    var graceful := DiscardGracefully(docker, names, gracePeriodSeconds);
    if graceful.Ok? {
      return graceful.value;
    }
    ghost var w1 := docker.w;
    stopped := ForceRemove(docker, names);
    TidiedTransitive(old(docker.w), w1, docker.w, names, names);
  }

  // ----- Stop-first preparation

  /** The previous containers have been stopped: some report is about one of them. */
  ghost predicate Touched(reports: seq<Report>, previous: seq<string>) {
    exists i :: 0 <= i < |reports| && reports[i].name in previous
  }

  /** Resets the candidates an interrupted attempt left behind. */
  method ResetCandidates(docker: Docker, stale: seq<string>, gracePeriodSeconds: nat)
    returns (r: Reply<()>, reports: seq<Report>)
    modifies docker
    ensures Tidied(old(docker.w), docker.w, stale)
    ensures forall i :: 0 <= i < |reports| ==> reports[i].name in stale
    ensures if r.Ok? then forall n :: n in stale ==> n !in docker.w.containers else !Calm(old(docker.w), docker.w)
    ensures r.Ok? ==> forall i :: 0 <= i < |reports| ==> !MayStillRun(reports[i])
    ensures docker.w.log.forced == old(docker.w.log.forced)
  {
    reports := StopAllGracefully(docker, stale, gracePeriodSeconds);
    if exists i :: 0 <= i < |reports| && MayStillRun(reports[i]) {
      return Failed, reports;
    }
    ghost var w1 := docker.w;
    LookedIsTidied(old(docker.w), w1, stale);
    r := RemoveAll(docker, stale, false);
    ghost var w2 := docker.w;
    TidiedTransitive(old(docker.w), w1, w2, stale, stale);
    if r.Ok? {
      r := AssertContainersAbsent(docker, stale);
      LookedIsTidied(w2, docker.w, stale);
      TidiedTransitive(old(docker.w), w2, docker.w, stale, stale);
    }
  }

  /** Stops every previous container and confirms it. */
  method StopPrevious(docker: Docker, previous: seq<string>, gracePeriodSeconds: nat)
    returns (r: Reply<()>, reports: seq<Report>)
    modifies docker
    ensures Looked(old(docker.w), docker.w)
    ensures |reports| == |previous| && forall i :: 0 <= i < |reports| ==> reports[i].name == previous[i]
    ensures if r.Ok? then NoneRunning(docker.w.containers, Names(previous)) else !Calm(old(docker.w), docker.w)
    ensures r.Ok? ==> forall i :: 0 <= i < |reports| ==> !MayStillRun(reports[i])
  {
    reports := StopAllGracefully(docker, previous, gracePeriodSeconds);
    if exists i :: 0 <= i < |reports| && MayStillRun(reports[i]) {
      return Failed, reports;
    }
    ghost var w1 := docker.w;
    r := AssertContainersStopped(docker, previous);
    LookedTransitive(old(docker.w), w1, docker.w);
  }

  /** Map semantics: the last report about a container counts. */
  function OutcomeOf(shutdowns: seq<Report>, n: string): Option<Outcome> {
    if shutdowns == [] then None
    else if shutdowns[|shutdowns| - 1].name == n then Some(shutdowns[|shutdowns| - 1].outcome)
    else OutcomeOf(shutdowns[..|shutdowns| - 1], n)
  }

  /** Every one of them was stopped, or found stopped, by this rollout. */
  ghost predicate StoppedBy(shutdowns: seq<Report>, previous: seq<string>) {
    forall n :: n in previous ==>
      OutcomeOf(shutdowns, n).Some? && !OutcomeOf(shutdowns, n).value.Hung? && !OutcomeOf(shutdowns, n).value.Unconfirmed?
  }

  lemma {:induction false} OutcomeIsReported(earlier: seq<Report>, reports: seq<Report>, n: string)
    ensures var o := OutcomeOf(earlier + reports, n);
            if exists i :: 0 <= i < |reports| && reports[i].name == n
            then o.Some? && exists j :: 0 <= j < |reports| && reports[j] == Report(n, o.value)
            else o == OutcomeOf(earlier, n)
  {
    if reports == [] {
      assert earlier + reports == earlier;
    } else {
      var last := |reports| - 1;
      assert (earlier + reports)[..|earlier + reports| - 1] == earlier + reports[..last];
      OutcomeIsReported(earlier, reports[..last], n);
    }
  }

  lemma ReportedLast(earlier: seq<Report>, reports: seq<Report>, previous: seq<string>)
    requires |reports| == |previous| && forall i :: 0 <= i < |reports| ==> reports[i].name == previous[i]
    ensures (forall i :: 0 <= i < |reports| ==> !MayStillRun(reports[i])) ==> StoppedBy(earlier + reports, previous)
  {
    forall n | n in previous
      ensures OutcomeOf(earlier + reports, n).Some?
      ensures exists j :: 0 <= j < |reports| && reports[j] == Report(n, OutcomeOf(earlier + reports, n).value)
    {
      var i :| 0 <= i < |previous| && previous[i] == n;
      assert reports[i].name == n;
      OutcomeIsReported(earlier, reports, n);
    }
  }

  /** What is looked at before the previous containers are stopped. */
  method CheckBeforeStop(docker: Docker, ro: Rollout, previous: seq<string>) returns (r: Reply<()>)
    modifies docker
    ensures Looked(old(docker.w), docker.w)
    ensures r.Ok? && ro.hasVolume ==> ConsumersWithin(docker.w.containers, Names(previous))
    ensures r.Failed? && Calm(old(docker.w), docker.w) ==>
              ro.hasVolume && !ConsumersWithin(old(docker.w).containers, Names(previous))
  {
    if ro.hasVolume {
      var allowed := set n | n in previous;
      assert allowed == Names(previous);
      var _ :- AssertNoUnexpectedVolumeConsumer(docker, allowed);
    }
    ghost var w1 := docker.w;
    r := ReadRestartLoopsBeforeStop(docker, previous);
    LookedTransitive(old(docker.w), w1, docker.w);
  }

  /** The stops of a stop-first rollout: candidates of an interrupted attempt, then the previous containers.
      checked: the host just before those are stopped, which must be the only ones that use the volume. */
  method StopEverything(docker: Docker, ro: Rollout, stale: seq<string>, previous: seq<string>)
    returns (r: Reply<()>, shutdowns: seq<Report>, ghost checked: World)
    requires forall n :: n in stale ==> n in ro.candidates
    requires forall n :: n in ro.candidates && n in docker.w.containers ==> n in stale
    modifies docker
    ensures Tidied(old(docker.w), docker.w, ro.candidates)
    ensures Evolve(old(docker.w), checked) && Looked(checked, docker.w)
    ensures ro.hasVolume && (r.Ok? || (exists i :: 0 <= i < |shutdowns| && shutdowns[i].name !in ro.candidates)) ==>
              ConsumersWithin(checked.containers, Names(previous))
    ensures r.Ok? ==> StoppedBy(shutdowns, previous) && NoneRunning(docker.w.containers, Names(previous))
    ensures r.Ok? || (exists i :: 0 <= i < |shutdowns| && shutdowns[i].name !in ro.candidates) ==>
              forall n :: n in ro.candidates ==> n !in docker.w.containers
    ensures r.Failed? && Calm(old(docker.w), docker.w) ==>
              ro.hasVolume && !ConsumersWithin(old(docker.w).containers, Names(previous + ro.candidates))
  {
    r, shutdowns := ResetCandidates(docker, stale, ro.gracePeriodSeconds);
    checked := docker.w;
    ghost var w1 := docker.w;
    LookedIsTidied(old(docker.w), old(docker.w), ro.candidates);
    TidiedTransitive(old(docker.w), old(docker.w), w1, stale, ro.candidates);
    if r.Failed? {
      return;
    }
    r := CheckBeforeStop(docker, ro, previous);
    checked := docker.w;
    ghost var w2 := docker.w;
    LookedIsTidied(w1, w2, []);
    TidiedTransitive(old(docker.w), w1, w2, [], ro.candidates);
    if r.Failed? {
      UnexpectedBefore(ro, previous, old(docker.w), w1);
      return;
    }
    var reports;
    r, reports := StopPrevious(docker, previous, ro.gracePeriodSeconds);
    ReportedLast(shutdowns, reports, previous);
    shutdowns := shutdowns + reports;
    LookedIsTidied(w2, docker.w, []);
    TidiedTransitive(old(docker.w), w2, docker.w, [], ro.candidates);
  }

  /** An unexpected consumer of the volume was there before the candidates went. */
  lemma UnexpectedBefore(ro: Rollout, previous: seq<string>, w: World, w': World)
    requires Evolve(w, w') && forall n :: n in ro.candidates ==> n !in w'.containers
    ensures !ConsumersWithin(w'.containers, Names(previous)) ==>
              !ConsumersWithin(w.containers, Names(previous + ro.candidates))
  {
    if n :| Running(w'.containers, n) && w'.containers[n].mounts && n !in Names(previous) {
      assert Running(w.containers, n) && w.containers[n].mounts;
      assert n !in Names(previous + ro.candidates);
    }
  }

  /** Everything a stop-first rollout does before it starts a candidate. */
  method PrepareStopFirst(docker: Docker, ro: Rollout, stale: seq<string>, previous: seq<string>)
    returns (r: Reply<()>, shutdowns: seq<Report>)
    requires forall n :: n in previous ==> n !in ro.candidates
    requires forall n :: n in stale ==> n in ro.candidates
    requires forall n :: n in ro.candidates && n in docker.w.containers ==> n in stale
    requires forall n :: Running(docker.w.containers, n) && docker.w.containers[n].service ==>
               n in previous || n in ro.candidates
    modifies docker
    ensures Prepared(old(docker.w), docker.w) && RemovesAmong(old(docker.w), docker.w, ro.candidates)
    ensures r.Ok? ==> Clear(ro, true, docker.w.containers)
    ensures r.Ok? || Touched(shutdowns, previous) ==> NoneRunning(docker.w.containers, Names(ro.candidates))
    ensures r.Ok? && ro.hasVolume ==> docker.w.slot.Some? && NoConsumer(docker.w.containers)
    ensures r.Ok? ==> StoppedBy(shutdowns, previous) && NoneRunning(docker.w.containers, Names(previous))
    // It comes to nothing only if something goes wrong or another container uses the volume.
    ensures r.Failed? && Calm(old(docker.w), docker.w) ==>
              ro.hasVolume && !ConsumersWithin(old(docker.w).containers, Names(previous + ro.candidates))
  {
    ghost var checked;
    r, shutdowns, checked := StopEverything(docker, ro, stale, previous);
    ghost var w1 := docker.w;
    EvolveIsPrepared(old(docker.w), w1);
    if r.Failed? {
      return;
    }
    PreparedKeepsStopped(old(docker.w), w1);
    if ro.hasVolume {
      r := SnapshotVolume(docker);
      PreparedTransitive(old(docker.w), w1, docker.w);
      PreparedKeepsStopped(w1, docker.w);
      ConsumerBeforeStops(ro, previous, old(docker.w), w1);
    }
  }

  lemma ConsumerBeforeStops(ro: Rollout, previous: seq<string>, w: World, w': World)
    requires Evolve(w, w') && NoneRunning(w'.containers, Names(previous))
    requires forall n :: n in ro.candidates ==> n !in w'.containers
    ensures !NoConsumer(w'.containers) ==> !ConsumersWithin(w.containers, Names(previous + ro.candidates))
  {
    if n :| Running(w'.containers, n) && w'.containers[n].mounts {
      assert Running(w.containers, n) && w.containers[n].mounts;
      assert n !in Names(previous + ro.candidates);
    }
  }

  // ----- Restoring the previous version

  lemma {:induction false} OutcomeMeansTouched(shutdowns: seq<Report>, previous: seq<string>, n: string)
    requires n in previous && OutcomeOf(shutdowns, n).Some?
    ensures Touched(shutdowns, previous)
  {
    var last := |shutdowns| - 1;
    if shutdowns[last].name != n {
      OutcomeMeansTouched(shutdowns[..last], previous, n);
      var i :| 0 <= i < last && shutdowns[..last][i].name in previous;
      assert shutdowns[i].name in previous;
    }
  }

  /** Left alone: a process that survived SIGKILL, and one found stopped that was never live. */
  predicate LeftAlone(outcome: Option<Outcome>, recordedLive: bool) {
    outcome == Some(Hung) || (outcome == Some(AlreadyStopped) && !recordedLive)
  }

  ghost predicate StartedBetween(w: World, w': World, n: string) {
    exists i :: |w.log.starts| <= i < |w'.log.starts| && w'.log.starts[i].name == n
  }

  /** Whatever was started in between has one of these names. */
  ghost predicate StartsAmong(w: World, w': World, names: seq<string>) {
    forall i :: |w.log.starts| <= i < |w'.log.starts| ==> w'.log.starts[i].name in names
  }

  lemma StartsAmongTransitive(a: World, b: World, c: World, first: seq<string>, names: seq<string>)
    requires StartsAmong(a, b, names) && StartsAmong(b, c, first) && forall n :: n in first ==> n in names
    requires a.log.starts <= b.log.starts <= c.log.starts
    ensures StartsAmong(a, c, names)
  {
    forall i | |a.log.starts| <= i < |c.log.starts| ensures c.log.starts[i].name in names {
      if i < |b.log.starts| { assert c.log.starts[i] == b.log.starts[i]; }
    }
  }

  /** Of the previous containers only those are started that a stop dealt with: not one that is hung, and one
      found stopped only if it is recorded as live. */
  ghost predicate MayBeStarted(ro: Rollout, stops: seq<Report>, n: string) {
    || n in ro.candidates
    || (match OutcomeOf(stops, n)
        case None => false
        case Some(outcome) =>
          outcome.Exited? || outcome.Forced? || outcome.Unconfirmed? || (outcome.AlreadyStopped? && n in ro.recordedLive))
  }

  ghost predicate StartsOnly(ro: Rollout, stops: seq<Report>, w: World, w': World) {
    forall i :: |w.log.starts| <= i < |w'.log.starts| ==> MayBeStarted(ro, stops, w'.log.starts[i].name)
  }

  lemma StartedIsStarted(w: World, n: string, candidate: bool)
    requires n in w.containers
    ensures StartedBetween(w, Started(w, n, candidate), n)
  {
    assert Started(w, n, candidate).log.starts[|w.log.starts|] == Start(n, w.containers);
  }

  lemma StartedBetweenExtends(a: World, b: World, c: World, n: string)
    requires a.log.starts <= b.log.starts <= c.log.starts
    ensures StartedBetween(a, b, n) || StartedBetween(b, c, n) ==> StartedBetween(a, c, n)
  {
    if StartedBetween(a, b, n) {
      var i :| |a.log.starts| <= i < |b.log.starts| && b.log.starts[i].name == n;
      assert c.log.starts[i].name == n;
    }
  }

  /** Restarting previous containers: only they start, each start safe, and without one just Evolve. */
  ghost predicate PreviousOnly(ro: Rollout, previous: seq<string>, w: World, w': World) {
    && (forall n :: n in w'.containers ==>
          && n in w.containers && SameLabels(w.containers[n], w'.containers[n])
          && (n !in previous && w'.containers[n].running ==> w.containers[n].running))
    && (forall n :: Running(w'.containers, n) ==> BroughtBack(w, w', n))
    && w.log.starts <= w'.log.starts
    && (forall i :: |w.log.starts| <= i < |w'.log.starts| ==> SafeRestart(ro, previous, w'.log.starts[i]))
    && Bookkeeping(w, w')
    && w'.slot == w.slot && w'.kept == w.kept && w'.log.restores == w.log.restores && w'.log.dirty == w.log.dirty
    && (w'.log.starts == w.log.starts && Resumable(w) ==> Resumable(w'))
    && KeepsSlotsOwn(ro, w, w')
  }

  lemma EvolveIsPreviousOnly(ro: Rollout, previous: seq<string>, w: World, w': World)
    requires Evolve(w, w')
    ensures PreviousOnly(ro, previous, w, w')
  {
    if Resumable(w) { EvolveKeepsResumable(w, w'); }
  }

  lemma PreviousOnlyTransitive(ro: Rollout, previous: seq<string>, a: World, b: World, c: World)
    requires PreviousOnly(ro, previous, a, b) && PreviousOnly(ro, previous, b, c)
    ensures PreviousOnly(ro, previous, a, c)
  {
    SlotsOwnTransitive(ro, a, b, c);
    forall n | Running(c.containers, n) ensures BroughtBack(a, c, n) {
      StartedBetweenExtends(a, b, c, n);
    }
    forall i | |a.log.starts| <= i < |c.log.starts|
      ensures SafeRestart(ro, previous, c.log.starts[i])
    {
      if i < |b.log.starts| { assert c.log.starts[i] == b.log.starts[i]; }
    }
  }

  lemma PreviousOnlyKeepsCandidatesStopped(ro: Rollout, previous: seq<string>, w: World, w': World)
    requires PreviousOnly(ro, previous, w, w')
    requires forall n :: n in previous ==> n !in ro.candidates
    ensures NoneRunning(w.containers, Names(ro.candidates)) ==> NoneRunning(w'.containers, Names(ro.candidates))
  {
    forall n | n in ro.candidates && Running(w'.containers, n) ensures Running(w.containers, n) {}
  }

  lemma RestartIsPreviousOnly(ro: Rollout, previous: seq<string>, w: World, n: string, running: set<string>)
    requires n in previous && n !in ro.candidates && n in w.containers && !w.containers[n].running
    requires NoneRunning(w.containers, Names(ro.candidates))
    requires ro.hasVolume ==> ConsumersWithin(w.containers, running)
    requires forall m :: m in running ==> m in previous
    requires |previous| == 1 ==> running == {}
    ensures Restarting(ro, previous, n, w, Started(w, n, false))
  {
    var e := Start(n, w.containers);
    assert SafeRestart(ro, previous, e);
    assert StartedBetween(w, Started(w, n, false), n) by { assert Started(w, n, false).log.starts[|w.log.starts|] == e; }
    assert Started(w, n, false).log.starts != w.log.starts by { assert |Started(w, n, false).log.starts| == |w.log.starts| + 1; }
  }

  /** It was running, or the agent started it since. */
  ghost predicate BroughtBack(w: World, w': World, n: string) {
    Running(w.containers, n) || StartedBetween(w, w', n)
  }

  ghost predicate PoliciesRaised(w: World, w': World) {
    forall n :: n in w'.containers && n in w.containers && w.containers[n].autoRestart ==> w'.containers[n].autoRestart
  }

  /** The previous containers a restore is to bring back. */
  predicate ToBringBack(ro: Rollout, shutdowns: seq<Report>, n: string) {
    OutcomeOf(shutdowns, n).Some? && !LeftAlone(OutcomeOf(shutdowns, n), n in ro.recordedLive)
  }

  datatype Need = Nothing | Missing | FoundRunning | NeedsStart

  /** What one previous container needs, given how this rollout's stop of it ended, if it tried one. */
  method SurveyOne(docker: Docker, n: string, outcome: Option<Outcome>, recordedLive: bool) returns (r: Reply<Need>)
    modifies docker
    ensures Looked(old(docker.w), docker.w)
    ensures PoliciesRaised(old(docker.w), docker.w)
    ensures r.Ok? ==> (r.value.Nothing? <==> LeftAlone(outcome, recordedLive)) || (r.value.Nothing? && outcome.None?)
    ensures r == Ok(NeedsStart) ==> outcome.Some?
    ensures r == Ok(FoundRunning) ==> Running(old(docker.w).containers, n)
    ensures r == Ok(FoundRunning) && outcome.Some? && n in docker.w.containers ==> docker.w.containers[n].autoRestart
    ensures r.Ok? && !LeftAlone(outcome, recordedLive) && Running(docker.w.containers, n) ==> r.value.FoundRunning?
    ensures r == Ok(Missing) && Calm(old(docker.w), docker.w) ==> n !in old(docker.w).containers
    ensures r.Failed? ==> !Calm(old(docker.w), docker.w)
  {
    if LeftAlone(outcome, recordedLive) {
      return Ok(Nothing);
    }
    var current :- docker.InspectContainer(n);
    if current.None? {
      return Ok(Missing);
    }
    if !current.value.running {
      return Ok(if outcome.Some? then NeedsStart else Nothing);
    }
    if outcome.Some? {
      ghost var w1 := docker.w;
      var found := docker.UpdateRestartPolicy(n, true);
      LookedTransitive(old(docker.w), w1, docker.w);
      if found.Failed? || !found.value {
        return Failed;
      }
    }
    return Ok(FoundRunning);
  }

  ghost predicate Accounted(ro: Rollout, shutdowns: seq<Report>, n: string, w: World, found: seq<string>, toStart: seq<string>) {
    ToBringBack(ro, shutdowns, n) ==>
      n in toStart || (n in found && (n in w.containers ==> w.containers[n].autoRestart))
  }

  /** Those that still run, and are not left alone, were found. */
  ghost predicate FindsRunning(ro: Rollout, shutdowns: seq<Report>, previous: seq<string>, w: World, found: seq<string>) {
    forall n :: n in previous && Running(w.containers, n) && !LeftAlone(OutcomeOf(shutdowns, n), n in ro.recordedLive) ==>
      n in found
  }

  /** The first loop of the restore, after these previous containers. */
  ghost predicate FirstLoop(ro: Rollout, shutdowns: seq<Report>, done: seq<string>, w: World, w': World,
                            found: seq<string>, toStart: seq<string>, complete: bool)
  {
    && |found| + |toStart| <= |done|
    && (forall n :: n in found ==> n in done && Running(w.containers, n))
    && (forall n :: n in toStart ==> n in done && ToBringBack(ro, shutdowns, n) && MayBeStarted(ro, shutdowns, n))
    && FindsRunning(ro, shutdowns, done, w', found)
    && (!complete && Calm(w, w') ==> exists n :: n in done && n !in w.containers)
    && (complete ==> forall n :: n in done ==> Accounted(ro, shutdowns, n, w', found, toStart))
  }

  /** The next of them, and what was found of it from b to c. */
  lemma FirstLoopNext(ro: Rollout, shutdowns: seq<Report>, done: seq<string>, a: World, b: World, c: World,
                      found: seq<string>, toStart: seq<string>, complete: bool, n: string, need: Need)
    requires Looked(a, b) && Looked(b, c) && PoliciesRaised(b, c)
    requires FirstLoop(ro, shutdowns, done, a, b, found, toStart, complete)
    requires var outcome, left := OutcomeOf(shutdowns, n), LeftAlone(OutcomeOf(shutdowns, n), n in ro.recordedLive);
             && ((need.Nothing? <==> left) || (need.Nothing? && outcome.None?))
             && (need.NeedsStart? ==> outcome.Some? && !left)
             && (need.FoundRunning? ==> Running(b.containers, n))
             && (need.FoundRunning? && outcome.Some? ==> KeptRunning(c.containers, n))
             && (!left && Running(c.containers, n) ==> need.FoundRunning?)
             && (need.Missing? && Calm(b, c) ==> n !in b.containers)
    requires need.NeedsStart? ==> MayBeStarted(ro, shutdowns, n)
    ensures FirstLoop(ro, shutdowns, done + [n], a, c, if need.FoundRunning? then found + [n] else found,
                      if need.NeedsStart? then toStart + [n] else toStart,
                      complete && (need.Missing? ==> OutcomeOf(shutdowns, n).None?))
  {
  }

  /** The first loop of the restore: what each previous container needs. */
  method SurveyPrevious(docker: Docker, ro: Rollout, previous: seq<string>, shutdowns: seq<Report>)
    returns (r: Reply<()>, found: seq<string>, toStart: seq<string>, complete: bool)
    modifies docker
    ensures Looked(old(docker.w), docker.w)
    ensures if r.Ok? then FirstLoop(ro, shutdowns, previous, old(docker.w), docker.w, found, toStart, complete)
            else !Calm(old(docker.w), docker.w)
    ensures forall n :: n in found ==> n in previous
  {
    found, toStart, complete := [], [], true;
    for i := 0 to |previous|
      invariant Looked(old(docker.w), docker.w)
      invariant FirstLoop(ro, shutdowns, previous[..i], old(docker.w), docker.w, found, toStart, complete)
    {
      var n := previous[i];
      var outcome := OutcomeOf(shutdowns, n);
      ghost var w1 := docker.w;
      var need := SurveyOne(docker, n, outcome, n in ro.recordedLive);
      LookedTransitive(old(docker.w), w1, docker.w);
      if need.Failed? {
        r := Failed;
        return;
      }
      FirstLoopNext(ro, shutdowns, previous[..i], old(docker.w), w1, docker.w, found, toStart, complete, n, need.value);
      assert previous[..i + 1] == previous[..i] + [n];
      match need.value {
        case Nothing =>
        case Missing => complete := complete && outcome.None?;
        case FoundRunning => found := found + [n];
        case NeedsStart => toStart := toStart + [n];
      }
    }
    assert previous[..|previous|] == previous;
    r := Ok(());
  }

  /** Why a restart may not have happened: something went wrong, n was gone, or another container used the
      volume. */
  ghost predicate MayNotRestart(ro: Rollout, n: string, running: set<string>, w: World, w': World) {
    !Calm(w, w') || n !in w.containers || (ro.hasVolume && !ConsumersWithin(w.containers, running))
  }

  /** The volume's consumers checked, and the restart policy set. */
  method ReadyToRestart(docker: Docker, ro: Rollout, n: string, running: set<string>) returns (r: Reply<()>)
    modifies docker
    ensures Looked(old(docker.w), docker.w) && TouchesAmong(old(docker.w), docker.w, [n])
    ensures PoliciesRaised(old(docker.w), docker.w)
    ensures r.Ok? ==> n in docker.w.containers && docker.w.containers[n].autoRestart
    ensures r.Ok? && ro.hasVolume ==> ConsumersWithin(docker.w.containers, running)
    ensures r.Failed? ==> MayNotRestart(ro, n, running, old(docker.w), docker.w)
  {
    if ro.hasVolume {
      r := AssertNoUnexpectedVolumeConsumer(docker, running);
      if r.Failed? {
        return;
      }
    }
    ghost var w1 := docker.w;
    var found := docker.UpdateRestartPolicy(n, true);
    if ro.hasVolume {
      LookedTransitive(old(docker.w), w1, docker.w);
    }
    return if found.Ok? && found.value then Ok(()) else Failed;
  }

  /** One container started again, its volume's consumers checked first. */
  method RestartOne(docker: Docker, ro: Rollout, previous: seq<string>, n: string, running: set<string>)
    returns (r: Reply<()>)
    requires n in previous && n !in ro.candidates
    requires NoneRunning(docker.w.containers, Names(ro.candidates))
    requires forall m :: m in running ==> m in previous
    requires |previous| == 1 ==> running == {}
    modifies docker
    ensures Restarting(ro, previous, n, old(docker.w), docker.w)
    ensures r.Ok? ==> Running(docker.w.containers, n) && KeptRunning(docker.w.containers, n)
    ensures r.Failed? ==> MayNotRestart(ro, n, running, old(docker.w), docker.w)
    ensures r.Failed? && Calm(old(docker.w), docker.w) && Running(docker.w.containers, n) ==>
              Running(old(docker.w).containers, n)
  {
    r := ReadyToRestart(docker, ro, n, running);
    ghost var w1, before := docker.w, docker.w;
    LookedIsRestarting(ro, previous, n, old(docker.w), w1);
    if r.Ok? {
      r, before := docker.StartContainer(n, false);
      LookedIsRestarting(ro, previous, n, w1, before);
      RestartingTransitive(ro, previous, n, old(docker.w), w1, before);
      if docker.w != before {
        RestartIsPreviousOnly(ro, previous, before, n, running);
        RestartingTransitive(ro, previous, n, old(docker.w), before, docker.w);
      }
    }
  }

  /** While one container is restarted. */
  ghost predicate Restarting(ro: Rollout, previous: seq<string>, n: string, w: World, w': World) {
    && PreviousOnly(ro, previous, w, w') && PoliciesRaised(w, w') && TouchesAmong(w, w', [n]) && StartsAmong(w, w', [n])
    && w'.log.ready == w.log.ready && w'.log.unready == w.log.unready && w'.log.removals == w.log.removals
  }

  lemma LookedIsRestarting(ro: Rollout, previous: seq<string>, n: string, w: World, w': World)
    requires Looked(w, w') && TouchesAmong(w, w', [n]) && PoliciesRaised(w, w')
    ensures Restarting(ro, previous, n, w, w')
  {
    EvolveIsPreviousOnly(ro, previous, w, w');
  }

  lemma RestartingTransitive(ro: Rollout, previous: seq<string>, n: string, a: World, b: World, c: World)
    requires Restarting(ro, previous, n, a, b) && Restarting(ro, previous, n, b, c)
    ensures Restarting(ro, previous, n, a, c)
  {
    PreviousOnlyTransitive(ro, previous, a, b, c);
    StartsAmongTransitive(a, b, c, [n], [n]);
  }

  /** Brought back, and kept that way by its restart policy. */
  ghost predicate Restarted(w: World, w': World, n: string) {
    BroughtBack(w, w', n) && (n in w'.containers ==> w'.containers[n].autoRestart)
  }

  lemma RestartedExtends(a: World, b: World, c: World, n: string)
    requires a.log.starts <= b.log.starts <= c.log.starts && PoliciesRaised(b, c)
    requires forall m :: m in c.containers ==> m in b.containers
    ensures Restarted(a, b, n) ==> Restarted(a, c, n)
  {
    StartedBetweenExtends(a, b, c, n);
  }

  /** One pass of the second loop: restart a container and judge it by a readiness check. */
  method RestartAndJudge(docker: Docker, ro: Rollout, previous: seq<string>, n: string, running: set<string>)
    returns (r: Reply<bool>)
    requires n in previous && forall m :: m in previous ==> m !in ro.candidates
    requires NoneRunning(docker.w.containers, Names(ro.candidates))
    requires forall m :: m in running ==> m in previous
    requires |previous| == 1 ==> running == {}
    modifies docker
    ensures PreviousOnly(ro, previous, old(docker.w), docker.w)
    ensures NoneRunning(docker.w.containers, Names(ro.candidates))
    ensures PoliciesRaised(old(docker.w), docker.w)
    ensures TouchesAmong(old(docker.w), docker.w, [n]) && docker.w.log.removals == old(docker.w.log.removals)
    ensures StartsAmong(old(docker.w), docker.w, [n])
    ensures r.Ok? ==> Restarted(old(docker.w), docker.w, n)
    ensures r.Ok? ==>
              if r.value then PassedCheck(old(docker.w), docker.w, previous) else GaveUpOn(old(docker.w), docker.w, n)
    ensures r.Failed? ==> MayNotRestart(ro, n, running, old(docker.w), docker.w)
    ensures r.Failed? && Calm(old(docker.w), docker.w) && Running(docker.w.containers, n) ==>
              Running(old(docker.w).containers, n)
  {
    var started := RestartOne(docker, ro, previous, n, running);
    ghost var w1 := docker.w;
    PreviousOnlyKeepsCandidatesStopped(ro, previous, old(docker.w), w1);
    if started.Failed? {
      return Failed;
    }
    var ready := docker.CheckReadiness(n);
    EvolveIsPreviousOnly(ro, previous, w1, docker.w);
    PreviousOnlyTransitive(ro, previous, old(docker.w), w1, docker.w);
    assert ready ==> docker.w.log.ready[|w1.log.ready|] in previous;
    RestartedExtends(old(docker.w), w1, docker.w, n);
    return Ok(ready);
  }

  lemma RestartedSoFar(ro: Rollout, previous: seq<string>, a: World, b: World, c: World, toStart: seq<string>, i: nat)
    requires PreviousOnly(ro, previous, a, b) && PreviousOnly(ro, previous, b, c) && PoliciesRaised(b, c)
    requires i < |toStart| && forall j :: 0 <= j < i ==> Restarted(a, b, toStart[j])
    ensures forall j :: 0 <= j < i ==> Restarted(a, c, toStart[j])
    ensures Restarted(b, c, toStart[i]) ==> Restarted(a, c, toStart[i])
  {
    forall j | 0 <= j < i ensures Restarted(a, c, toStart[j]) {
      RestartedExtends(a, b, c, toStart[j]);
    }
    StartedBetweenExtends(a, b, c, toStart[i]);
  }

  /** What runs ran before, or was given up on. */
  ghost predicate RestartsJudged(w: World, w': World) {
    forall n :: Running(w'.containers, n) ==> Running(w.containers, n) || GaveUpOn(w, w', n)
  }

  /** These were restarted and judged; as far as nothing else did before, nothing else uses the volume. */
  ghost predicate RestartedUpTo(w: World, w': World, done: seq<string>, found: seq<string>, running: set<string>,
                                restarted: bool) {
    && (!restarted ==> forall n :: n in done ==> GaveUpOn(w, w', n))
    && (ConsumersWithin(w.containers, Names(found)) ==> ConsumersWithin(w'.containers, running))
    && (Calm(w, w') && !restarted ==> RestartsJudged(w, w'))
  }

  lemma RestartedUpToNext(a: World, b: World, c: World, done: seq<string>, found: seq<string>, running: set<string>,
                          restarted: bool, n: string, judged: Reply<bool>)
    requires Traced(a, b) && Traced(b, c) && TouchesAmong(b, c, [n])
    requires RestartedUpTo(a, b, done, found, running, restarted)
    requires judged.Ok? && !judged.value ==> GaveUpOn(b, c, n)
    requires judged.Failed? && Calm(b, c) ==> Running(c.containers, n) ==> Running(b.containers, n)
    ensures judged.Ok? ==> RestartedUpTo(a, c, done + [n], found, running + {n}, restarted || judged.value)
    ensures judged.Failed? && Calm(a, c) && !restarted ==> RestartsJudged(a, c)
  {
    if Calm(a, c) && !restarted && (judged.Ok? ==> !judged.value) {
      forall m | Running(c.containers, m) ensures Running(a.containers, m) || GaveUpOn(a, c, m) {
        assert m != n ==> Running(b.containers, m);
      }
    }
  }

  /** The second loop, when this many containers have been restarted. */
  ghost predicate SecondLoop(ro: Rollout, previous: seq<string>, w: World, w': World, toStart: seq<string>,
                             found: seq<string>, i: nat, running: set<string>, restarted: bool)
  {
    && i <= |toStart|
    && PreviousOnly(ro, previous, w, w') && PoliciesRaised(w, w') && w'.log.removals == w.log.removals
    && StartsAmong(w, w', toStart)
    && (toStart != [] ==> NoneRunning(w'.containers, Names(ro.candidates)))
    && (forall n :: n in running ==> n in previous)
    && (|previous| == 1 && i < |toStart| ==> running == {})
    && (forall j :: 0 <= j < i ==> Restarted(w, w', toStart[j]))
    && (restarted ==> PassedCheck(w, w', previous))
    && RestartedUpTo(w, w', toStart[..i], found, running, restarted)
  }

  /** What it comes to. */
  ghost predicate SecondLoopEnds(ro: Rollout, previous: seq<string>, w: World, w': World, toStart: seq<string>,
                                 found: seq<string>, r: Reply<()>, restarted: bool)
  {
    && PreviousOnly(ro, previous, w, w') && PoliciesRaised(w, w') && w'.log.removals == w.log.removals
    && StartsAmong(w, w', toStart)
    && (restarted ==> PassedCheck(w, w', previous))
    && (r.Ok? ==> forall n :: n in toStart ==> Restarted(w, w', n) && (!restarted ==> GaveUpOn(w, w', n)))
    && (r.Failed? && Calm(w, w') ==>
          || (exists n :: n in toStart && n !in w.containers)
          || (ro.hasVolume && !ConsumersWithin(w.containers, Names(found))))
    && (Calm(w, w') && !restarted ==> RestartsJudged(w, w'))
  }

  lemma SecondLoopFails(ro: Rollout, previous: seq<string>, a: World, b: World, c: World, toStart: seq<string>,
                        found: seq<string>, i: nat, running: set<string>, restarted: bool)
    requires SecondLoop(ro, previous, a, b, toStart, found, i, running, restarted) && i < |toStart|
    requires PreviousOnly(ro, previous, b, c) && PoliciesRaised(b, c) && c.log.removals == b.log.removals
    requires StartsAmong(b, c, [toStart[i]])
    requires TouchesAmong(b, c, [toStart[i]]) && MayNotRestart(ro, toStart[i], running, b, c)
    requires Calm(b, c) ==> Running(c.containers, toStart[i]) ==> Running(b.containers, toStart[i])
    ensures SecondLoopEnds(ro, previous, a, c, toStart, found, Failed, restarted)
  {
    PreviousOnlyTransitive(ro, previous, a, b, c);
    PassedCheckExtends(a, b, c, previous);
    StartsAmongTransitive(a, b, c, [toStart[i]], toStart);
    RestartedUpToNext(a, b, c, toStart[..i], found, running, restarted, toStart[i], Failed);
    if Calm(a, c) && toStart[i] !in b.containers {
      assert toStart[i] !in a.containers;
    }
  }

  lemma SecondLoopGoesOn(ro: Rollout, previous: seq<string>, a: World, b: World, c: World, toStart: seq<string>,
                         found: seq<string>, i: nat, running: set<string>, restarted: bool, ready: bool)
    requires SecondLoop(ro, previous, a, b, toStart, found, i, running, restarted) && i < |toStart|
    requires |found| + |toStart| <= |previous| && toStart[i] in previous
    requires PreviousOnly(ro, previous, b, c) && PoliciesRaised(b, c) && c.log.removals == b.log.removals
    requires StartsAmong(b, c, [toStart[i]])
    requires NoneRunning(c.containers, Names(ro.candidates))
    requires TouchesAmong(b, c, [toStart[i]]) && Restarted(b, c, toStart[i])
    requires if ready then PassedCheck(b, c, previous) else GaveUpOn(b, c, toStart[i])
    ensures SecondLoop(ro, previous, a, c, toStart, found, i + 1, running + {toStart[i]}, restarted || ready)
  {
    PreviousOnlyTransitive(ro, previous, a, b, c);
    PassedCheckExtends(a, b, c, previous);
    StartsAmongTransitive(a, b, c, [toStart[i]], toStart);
    RestartedUpToNext(a, b, c, toStart[..i], found, running, restarted, toStart[i], Ok(ready));
    RestartedSoFar(ro, previous, a, b, c, toStart, i);
    assert toStart[..i + 1] == toStart[..i] + [toStart[i]];
  }

  /** The second loop. */
  method RestartAll(docker: Docker, ro: Rollout, previous: seq<string>, toStart: seq<string>, found: seq<string>)
    returns (r: Reply<()>, restarted: bool)
    requires forall n :: n in previous ==> n !in ro.candidates
    requires toStart != [] ==> NoneRunning(docker.w.containers, Names(ro.candidates))
    requires |found| + |toStart| <= |previous|
    requires forall n :: n in found ==> n in previous
    requires forall n :: n in toStart ==> n in previous
    modifies docker
    ensures SecondLoopEnds(ro, previous, old(docker.w), docker.w, toStart, found, r, restarted)
  {
    restarted := false;
    var running := set n | n in found;
    assert running == Names(found);
    for i := 0 to |toStart|
      invariant SecondLoop(ro, previous, old(docker.w), docker.w, toStart, found, i, running, restarted)
    {
      ghost var w1 := docker.w;
      var judged := RestartAndJudge(docker, ro, previous, toStart[i], running);
      if judged.Failed? {
        SecondLoopFails(ro, previous, old(docker.w), w1, docker.w, toStart, found, i, running, restarted);
        r := Failed;
        return;
      }
      SecondLoopGoesOn(ro, previous, old(docker.w), w1, docker.w, toStart, found, i, running, restarted, judged.value);
      running := running + {toStart[i]};
      restarted := restarted || judged.value;
    }
    r := Ok(());
  }

  /** Whether any of the replicas passes the check a candidate must. Never fails. */
  method AnyReplicaRuns(docker: Docker, replicas: seq<string>) returns (runs: bool)
    modifies docker
    ensures Evolve(old(docker.w), docker.w)
    ensures PoliciesKept(old(docker.w), docker.w) && docker.w.log.removals == old(docker.w.log.removals)
    ensures runs ==> PassedCheck(old(docker.w), docker.w, replicas)
    ensures !runs ==> forall n :: n in replicas ==> GaveUpOn(old(docker.w), docker.w, n)
  {
    runs := false;
    for i := 0 to |replicas|
      invariant Evolve(old(docker.w), docker.w) && PoliciesKept(old(docker.w), docker.w)
      invariant docker.w.log.removals == old(docker.w.log.removals)
      invariant runs ==> PassedCheck(old(docker.w), docker.w, replicas)
      invariant !runs ==> forall j :: 0 <= j < i ==> GaveUpOn(old(docker.w), docker.w, replicas[j])
    {
      ghost var w1 := docker.w;
      var ready := docker.CheckReadiness(replicas[i]);
      PassedCheckExtends(old(docker.w), w1, docker.w, replicas);
      EvolveTransitive(old(docker.w), w1, docker.w);
      if ready {
        assert docker.w.log.ready[|w1.log.ready|] in replicas;
        assert PassedCheck(w1, docker.w, replicas);
        runs := true;
      }
    }
  }

  /** Every container the restore was to bring back. */
  ghost predicate AllBack(ro: Rollout, shutdowns: seq<Report>, previous: seq<string>, w: World, w': World) {
    forall n :: n in previous && ToBringBack(ro, shutdowns, n) ==> Restarted(w, w', n)
  }

  /** Stopped and then started again, with the restart policy that keeps it running. */
  ghost predicate StartedAgain(w: World, w': World, n: string) {
    StartedBetween(w, w', n) && (n in w'.containers ==> w'.containers[n].autoRestart)
  }

  /** What a completed rollback means for the previous containers, when all of them were stopped: each was
      started again, but one that stopped by itself and was not recorded live. */
  ghost predicate AllStartedAgain(ro: Rollout, shutdowns: seq<Report>, previous: seq<string>, w: World, w': World) {
    forall n :: n in previous ==>
      StartedAgain(w, w', n) || (OutcomeOf(shutdowns, n) == Some(AlreadyStopped) && n !in ro.recordedLive)
  }

  lemma AllBackIsAllStarted(ro: Rollout, shutdowns: seq<Report>, previous: seq<string>, w: World, w': World)
    requires AllBack(ro, shutdowns, previous, w, w')
    requires StoppedBy(shutdowns, previous) && NoneRunning(w.containers, Names(previous))
    ensures AllStartedAgain(ro, shutdowns, previous, w, w')
  {
    forall n | n in previous && ToBringBack(ro, shutdowns, n) ensures StartedAgain(w, w', n) {
      assert n in Names(previous);
      assert Restarted(w, w', n);
    }
  }

  /** Nothing starts before, or neither a policy nor a container comes after. */
  lemma AllStartedExtends(ro: Rollout, shutdowns: seq<Report>, previous: seq<string>, a: World, b: World, c: World, d: World)
    requires AllStartedAgain(ro, shutdowns, previous, b, c)
    requires a.log.starts <= b.log.starts <= c.log.starts <= d.log.starts && PoliciesKept(c, d)
    requires forall n :: n in d.containers ==> n in c.containers
    ensures AllStartedAgain(ro, shutdowns, previous, a, d)
  {
    forall n | n in previous && StartedAgain(b, c, n) ensures StartedAgain(a, d, n) {
      StartedBetweenExtends(a, b, c, n);
      StartedBetweenExtends(a, c, d, n);
    }
  }

  /** What runs of the previous containers, but for those left alone, was given up on. */
  ghost predicate NothingServes(ro: Rollout, shutdowns: seq<Report>, previous: seq<string>, w: World, w': World) {
    forall n :: n in previous && Running(w'.containers, n) && !LeftAlone(OutcomeOf(shutdowns, n), n in ro.recordedLive) ==>
      GaveUpOn(w, w', n)
  }

  ghost predicate Restorable(ro: Rollout, previous: seq<string>, w: World) {
    (forall n :: n in previous ==> n in w.containers) && (ro.hasVolume ==> NoConsumer(w.containers))
  }

  /** The loops of the restore, and what they come to: what has to be brought back is, if they are complete. */
  ghost predicate LoopsEnd(ro: Rollout, previous: seq<string>, shutdowns: seq<Report>, w: World, w': World,
                           found: seq<string>, restarted: bool, complete: bool)
  {
    && PreviousOnly(ro, previous, w, w') && w'.log.removals == w.log.removals && StartsOnly(ro, shutdowns, w, w')
    && (forall n :: n in found ==> n in previous)
    && (restarted ==> PassedCheck(w, w', previous))
    && (complete ==> AllBack(ro, shutdowns, previous, w, w'))
    && (complete && !restarted ==> forall n :: n in previous && ToBringBack(ro, shutdowns, n) && n !in found ==>
          GaveUpOn(w, w', n))
    && (Calm(w, w') ==>
          && (Restorable(ro, previous, w) ==> complete)
          && (!restarted ==> forall n ::
                n in previous && Running(w'.containers, n) && !LeftAlone(OutcomeOf(shutdowns, n), n in ro.recordedLive) ==>
                  n in found || GaveUpOn(w, w', n)))
  }

  lemma LoopsEndAt(ro: Rollout, previous: seq<string>, shutdowns: seq<Report>, a: World, b: World, c: World,
                   found: seq<string>, toStart: seq<string>, complete: bool, r: Reply<()>, restarted: bool)
    requires Looked(a, b) && SecondLoopEnds(ro, previous, b, c, toStart, found, r, restarted)
    requires forall n :: n in found ==> n in previous && Running(a.containers, n)
    requires forall n :: n in toStart ==> n in previous && MayBeStarted(ro, shutdowns, n)
    requires FindsRunning(ro, shutdowns, previous, b, found)
    requires !complete && Calm(a, b) ==> exists n :: n in previous && n !in a.containers
    requires complete ==> forall n :: n in previous ==> Accounted(ro, shutdowns, n, b, found, toStart)
    ensures LoopsEnd(ro, previous, shutdowns, a, c, found, restarted, complete && r.Ok?)
  {
    EvolveIsPreviousOnly(ro, previous, a, b);
    PreviousOnlyTransitive(ro, previous, a, b, c);
    PassedCheckExtends(a, b, c, previous);
    if complete && r.Ok? {
      forall n | n in previous && ToBringBack(ro, shutdowns, n) ensures Restarted(a, c, n) {
        StartedBetweenExtends(a, b, c, n);
      }
    }
    if Calm(a, c) && Restorable(ro, previous, a) {
      EvolveKeepsStopped(a, b, {});
      assert forall n :: n in toStart ==> n in b.containers;
      assert ro.hasVolume ==> ConsumersWithin(b.containers, Names(found));
    }
  }

  method RestartPrevious(docker: Docker, ro: Rollout, previous: seq<string>, shutdowns: seq<Report>)
    returns (found: seq<string>, restarted: bool, complete: bool)
    requires forall n :: n in previous ==> n !in ro.candidates
    requires Touched(shutdowns, previous) ==> NoneRunning(docker.w.containers, Names(ro.candidates))
    modifies docker
    ensures LoopsEnd(ro, previous, shutdowns, old(docker.w), docker.w, found, restarted, complete)
  {
    var r, toStart;
    r, found, toStart, complete := SurveyPrevious(docker, ro, previous, shutdowns);
    ghost var w1 := docker.w;
    restarted := false;
    if r.Failed? {
      EvolveIsPreviousOnly(ro, previous, old(docker.w), w1);
      complete := false;
      return;
    }
    if toStart != [] {
      OutcomeMeansTouched(shutdowns, previous, toStart[0]);
      EvolveKeepsStopped(old(docker.w), w1, Names(ro.candidates));
    }
    r, restarted := RestartAll(docker, ro, previous, toStart, found);
    LoopsEndAt(ro, previous, shutdowns, old(docker.w), w1, docker.w, found, toStart, complete, r, restarted);
    complete := complete && r.Ok?;
  }

  /** restorePreviousWorkerRuntime. Never fails; says what is running afterwards. */
  method RestorePreviousWorkerRuntime(docker: Docker, ro: Rollout, previous: seq<string>, shutdowns: seq<Report>)
    returns (liveRuntimePreserved: bool, rollbackCompleted: bool)
    requires forall n :: n in previous ==> n !in ro.candidates
    requires Touched(shutdowns, previous) ==> NoneRunning(docker.w.containers, Names(ro.candidates))
    modifies docker
    ensures PreviousOnly(ro, previous, old(docker.w), docker.w) && docker.w.log.removals == old(docker.w.log.removals)
    ensures StartsOnly(ro, shutdowns, old(docker.w), docker.w)
    ensures liveRuntimePreserved ==> PassedCheck(old(docker.w), docker.w, previous)
    ensures rollbackCompleted ==> liveRuntimePreserved
    ensures rollbackCompleted ==> AllBack(ro, shutdowns, previous, old(docker.w), docker.w)
    // Unless something goes wrong, what still runs was given up on when nothing is reported as preserved,
    // and a restore that finds the previous containers, and nothing using the volume, brings all back.
    ensures Calm(old(docker.w), docker.w) && !liveRuntimePreserved ==>
              NothingServes(ro, shutdowns, previous, old(docker.w), docker.w)
    ensures Calm(old(docker.w), docker.w) && Restorable(ro, previous, old(docker.w)) ==>
              && AllBack(ro, shutdowns, previous, old(docker.w), docker.w)
              && (rollbackCompleted <==> liveRuntimePreserved)
              && (!liveRuntimePreserved ==> AllGivenUp(ro, shutdowns, previous, old(docker.w), docker.w))
  {
    var found, restarted, complete := RestartPrevious(docker, ro, previous, shutdowns);
    ghost var w1 := docker.w;
    liveRuntimePreserved := restarted;
    if !restarted {
      liveRuntimePreserved := AnyReplicaRuns(docker, found);
      AfterLoops(ro, previous, shutdowns, old(docker.w), w1, docker.w, found, complete, liveRuntimePreserved);
    }
    rollbackCompleted := complete && liveRuntimePreserved;
  }

  /** Every container the restore was to bring back was given up on. */
  ghost predicate AllGivenUp(ro: Rollout, shutdowns: seq<Report>, previous: seq<string>, w: World, w': World) {
    forall n :: n in previous && ToBringBack(ro, shutdowns, n) ==> GaveUpOn(w, w', n)
  }

  /** The check of what was found running, after loops that brought back nothing that passed. */
  lemma AfterLoops(ro: Rollout, previous: seq<string>, shutdowns: seq<Report>, a: World, b: World, c: World,
                   found: seq<string>, complete: bool, runs: bool)
    requires LoopsEnd(ro, previous, shutdowns, a, b, found, false, complete)
    requires Evolve(b, c) && PoliciesKept(b, c)
    requires if runs then PassedCheck(b, c, found) else forall n :: n in found ==> GaveUpOn(b, c, n)
    ensures PreviousOnly(ro, previous, a, c)
    ensures runs ==> PassedCheck(a, c, previous)
    ensures complete ==> AllBack(ro, shutdowns, previous, a, c)
    ensures Calm(a, c) && Restorable(ro, previous, a) ==> complete
    ensures Calm(a, c) && !runs ==> NothingServes(ro, shutdowns, previous, a, c)
    ensures complete && !runs ==> AllGivenUp(ro, shutdowns, previous, a, c)
  {
    EvolveIsPreviousOnly(ro, previous, b, c);
    PreviousOnlyTransitive(ro, previous, a, b, c);
    PassedCheckWidens(b, c, found, previous);
    PassedCheckExtends(a, b, c, previous);
    if complete {
      forall n | n in previous && ToBringBack(ro, shutdowns, n) ensures Restarted(a, c, n) {
        RestartedExtends(a, b, c, n);
      }
    }
  }

  // ----- What the rollout finds

  datatype Listed = Listed(name: string, c: Container)

  predicate IsLive(ro: Rollout, l: Listed) { l.c.running || l.name in ro.recordedLive }

  predicate IsLeftover(ro: Rollout, l: Listed) { !IsLive(ro, l) && l.name !in ro.candidates }

  ghost predicate ListsService(listed: seq<Listed>, containers: map<string, Container>) {
    && (forall n :: n in containers && containers[n].service ==>
          exists l :: l in listed && l.name == n && l.c == containers[n])
    && (forall l :: l in listed ==> l.name in containers && containers[l.name] == l.c && l.c.service)
  }

  /** The service's containers in some order. */
  method ListWorkerServiceContainers(docker: Docker) returns (r: Reply<seq<Listed>>)
    modifies docker
    ensures Looked(old(docker.w), docker.w)
    ensures if r.Ok? then ListsService(r.value, docker.w.containers) else !Calm(old(docker.w), docker.w)
  {
    var containers :- docker.ListContainers();
    var listed: seq<Listed> := [];
    var todo := containers.Keys;
    while todo != {}
      invariant todo <= containers.Keys
      invariant forall n :: n in containers && n !in todo && containers[n].service ==>
                  exists l :: l in listed && l.name == n && l.c == containers[n]
      invariant forall l :: l in listed ==> l.name in containers && containers[l.name] == l.c && l.c.service
    {
      var n :| n in todo;
      if containers[n].service {
        ghost var before := listed;
        listed := listed + [Listed(n, containers[n])];
        assert Listed(n, containers[n]) in listed;
        assert forall l :: l in before ==> l in listed;
      }
      todo := todo - {n};
    }
    return Ok(listed);
  }

  function LeftoverNames(ro: Rollout, listed: seq<Listed>): seq<string> {
    if listed == [] then []
    else (if IsLeftover(ro, listed[0]) then [listed[0].name] else []) + LeftoverNames(ro, listed[1..])
  }

  function CurrentContainers(ro: Rollout, listed: seq<Listed>): seq<Listed> {
    if listed == [] then []
    else (if IsLeftover(ro, listed[0]) then [] else [listed[0]]) + CurrentContainers(ro, listed[1..])
  }

  /** Leftovers are stopped, not recorded as live and no candidates. */
  lemma {:induction false} LeftoversAreNotLive(ro: Rollout, listed: seq<Listed>, n: string)
    requires n in LeftoverNames(ro, listed)
    ensures n !in ro.recordedLive && n !in ro.candidates
    ensures exists l :: l in listed && l.name == n && !l.c.running
  {
    if IsLeftover(ro, listed[0]) && listed[0].name == n {
    } else {
      LeftoversAreNotLive(ro, listed[1..], n);
    }
  }

  lemma {:induction false} CurrentAreListed(ro: Rollout, listed: seq<Listed>, l: Listed)
    ensures l in CurrentContainers(ro, listed) ==> l in listed
  {
    if listed != [] {
      CurrentAreListed(ro, listed[1..], l);
    }
  }

  lemma {:induction false} LeftoverOrCurrent(ro: Rollout, listed: seq<Listed>, l: Listed)
    requires l in listed
    ensures l.name in LeftoverNames(ro, listed) || l in CurrentContainers(ro, listed)
  {
    if l != listed[0] {
      LeftoverOrCurrent(ro, listed[1..], l);
    }
  }

  /** The planner's view of what was found. */
  function AsExisting(ro: Rollout, current: seq<Listed>): (r: seq<Existing>) {
    seq(|current|, i requires 0 <= i < |current| =>
      Existing(current[i].name, current[i].c.deployment, IsLive(ro, current[i])))
  }

  /** Every service container that is still there is planned around, and was live if it still runs. */
  ghost predicate Surveyed(ro: Rollout, current: seq<Listed>, containers: map<string, Container>) {
    forall n :: n in containers && containers[n].service ==>
      exists i :: 0 <= i < |current| && current[i].name == n && current[i].c.deployment == containers[n].deployment &&
                  (containers[n].running ==> current[i].c.running)
  }

  /** The containers planned around were there, as listed but that some have stopped since. */
  ghost predicate FoundIn(current: seq<Listed>, w: World) {
    forall l :: l in current ==>
      && l.name in w.containers && SameLabels(w.containers[l.name], l.c) && l.c.service
      && (l.c.running ==> w.containers[l.name].running)
  }

  /** The planner is told of each of them by name and deployment, and as live exactly when it runs or the
      control plane records it as live. */
  ghost predicate PlannedAs(ro: Rollout, current: seq<Listed>, existing: seq<Existing>) {
    && |existing| == |current|
    && forall i :: 0 <= i < |current| ==>
         && existing[i].name == current[i].name && existing[i].deployment == current[i].c.deployment
         && (existing[i].live <==> current[i].c.running || current[i].name in ro.recordedLive)
  }

  /** No container that is recorded as live or has a candidate's name was removed. */
  ghost predicate SparesLive(ro: Rollout, w: World, w': World) {
    forall n :: RemovedBetween(w, w', n) ==> n !in ro.recordedLive && n !in ro.candidates
  }

  /** A running consumer of the volume is a container planned around. */
  ghost predicate ConsumersPlanned(current: seq<Listed>, containers: map<string, Container>) {
    forall n :: Running(containers, n) && containers[n].mounts ==> exists l :: l in current && l.name == n
  }

  lemma EvolveKeepsSurveyed(ro: Rollout, current: seq<Listed>, w: World, w': World)
    requires Evolve(w, w')
    ensures Surveyed(ro, current, w.containers) ==> Surveyed(ro, current, w'.containers)
  {
    if Surveyed(ro, current, w.containers) {
      forall n | n in w'.containers && w'.containers[n].service
        ensures exists i :: 0 <= i < |current| && current[i].name == n &&
                            current[i].c.deployment == w'.containers[n].deployment &&
                            (w'.containers[n].running ==> current[i].c.running)
      {
        var i :| 0 <= i < |current| && current[i].name == n &&
                 current[i].c.deployment == w.containers[n].deployment &&
                 (w.containers[n].running ==> current[i].c.running);
      }
    }
  }

  lemma ListingSurveys(ro: Rollout, listed: seq<Listed>, w: World, w': World)
    requires ListsService(listed, w.containers) && Evolve(w, w')
    requires forall n :: n in LeftoverNames(ro, listed) ==> n !in w'.containers
    ensures Surveyed(ro, CurrentContainers(ro, listed), w'.containers)
  {
    var current := CurrentContainers(ro, listed);
    forall n | n in w'.containers && w'.containers[n].service
      ensures exists i :: 0 <= i < |current| && current[i].name == n &&
                          current[i].c.deployment == w'.containers[n].deployment &&
                          (w'.containers[n].running ==> current[i].c.running)
    {
      var l :| l in listed && l.name == n && l.c == w.containers[n];
      LeftoverOrCurrent(ro, listed, l);
      var i :| 0 <= i < |current| && current[i] == l;
    }
  }

  ghost predicate LiveOrCandidates(ro: Rollout, current: seq<Listed>) {
    forall l :: l in current ==> l.c.running || l.name in ro.recordedLive || l.name in ro.candidates
  }

  lemma {:induction false} CurrentAreLive(ro: Rollout, listed: seq<Listed>, l: Listed)
    requires l in CurrentContainers(ro, listed)
    ensures IsLive(ro, l) || l.name in ro.candidates
  {
    if !(!IsLeftover(ro, listed[0]) && l == listed[0]) {
      CurrentAreLive(ro, listed[1..], l);
    }
  }

  method RemoveLeftovers(docker: Docker, leftovers: seq<string>) returns (r: Reply<()>)
    modifies docker
    ensures Tidied(old(docker.w), docker.w, leftovers) && docker.w.log.forced == old(docker.w.log.forced)
    ensures r.Ok? ==> forall n :: n in leftovers ==> n !in docker.w.containers
    ensures r.Failed? && Calm(old(docker.w), docker.w) ==> !NoneRunning(old(docker.w).containers, Names(leftovers))
  {
    r := RemoveAll(docker, leftovers, false);
    ghost var w1 := docker.w;
    if r.Ok? {
      r := AssertContainersAbsent(docker, leftovers);
      LookedIsTidied(w1, docker.w, leftovers);
      TidiedTransitive(old(docker.w), w1, docker.w, leftovers, leftovers);
    }
  }

  lemma LeftoversSpareLive(ro: Rollout, listed: seq<Listed>, w: World, w': World)
    requires RemovesAmong(w, w', LeftoverNames(ro, listed))
    ensures SparesLive(ro, w, w')
  {
    forall n | RemovedBetween(w, w', n) ensures n !in ro.recordedLive && n !in ro.candidates {
      LeftoversAreNotLive(ro, listed, n);
    }
  }

  ghost predicate StillThere(current: seq<Listed>, w: World) {
    forall l :: l in current ==> l.name in w.containers
  }

  lemma CurrentStays(ro: Rollout, listed: seq<Listed>, w: World, w': World)
    requires ListsService(listed, w.containers) && Tidied(w, w', LeftoverNames(ro, listed))
    ensures Calm(w, w') ==> StillThere(CurrentContainers(ro, listed), w')
  {
    forall l | l in CurrentContainers(ro, listed) && Calm(w, w') ensures l.name in w'.containers {
      CurrentAreListed(ro, listed, l);
      if RemovedBetween(w, w', l.name) {
        LeftoversAreNotLive(ro, listed, l.name);
        CurrentAreLive(ro, listed, l);
        assert false;
      }
    }
  }

  lemma LeftoversDoNotRun(ro: Rollout, listed: seq<Listed>, w: World)
    requires ListsService(listed, w.containers)
    ensures NoneRunning(w.containers, Names(LeftoverNames(ro, listed)))
  {
    forall n | n in Names(LeftoverNames(ro, listed)) ensures !Running(w.containers, n) {
      LeftoversAreNotLive(ro, listed, n);
    }
  }

  method ListCurrent(docker: Docker, ro: Rollout) returns (current: Reply<seq<Listed>>)
    modifies docker
    ensures Evolve(old(docker.w), docker.w) && docker.w.log.ready == old(docker.w.log.ready)
    ensures docker.w.log.unready == old(docker.w.log.unready)
    ensures current.Ok? ==> Surveyed(ro, current.value, docker.w.containers) && LiveOrCandidates(ro, current.value)
    ensures SparesLive(ro, old(docker.w), docker.w) && (current.Ok? ==> FoundIn(current.value, old(docker.w)))
    ensures Calm(old(docker.w), docker.w) ==> current.Ok? && StillThere(current.value, docker.w)
  {
    var listed :- ListWorkerServiceContainers(docker);
    ghost var w1 := docker.w;
    var removed := RemoveLeftovers(docker, LeftoverNames(ro, listed));
    EvolveTransitive(old(docker.w), w1, docker.w);
    LeftoversSpareLive(ro, listed, w1, docker.w);
    forall l | l in CurrentContainers(ro, listed) ensures l in listed { CurrentAreListed(ro, listed, l); }
    LeftoversDoNotRun(ro, listed, w1);
    if removed.Failed? {
      return Failed;
    }
    ListingSurveys(ro, listed, w1, docker.w);
    forall l | l in CurrentContainers(ro, listed) ensures IsLive(ro, l) || l.name in ro.candidates {
      CurrentAreLive(ro, listed, l);
    }
    CurrentStays(ro, listed, w1, docker.w);
    return Ok(CurrentContainers(ro, listed));
  }

  method CheckPlannedConsumers(docker: Docker, ro: Rollout, current: seq<Listed>) returns (r: Reply<()>)
    modifies docker
    ensures Looked(old(docker.w), docker.w)
    ensures Surveyed(ro, current, old(docker.w).containers) ==> Surveyed(ro, current, docker.w.containers)
    ensures r.Ok? && ro.hasVolume ==> ConsumersPlanned(current, docker.w.containers)
    ensures r.Failed? && Calm(old(docker.w), docker.w) ==>
              ro.hasVolume && !ConsumersPlanned(current, old(docker.w).containers)
  {
    r := Ok(());
    if ro.hasVolume {
      r := AssertNoUnexpectedVolumeConsumer(docker, set l | l in current :: l.name);
      EvolveKeepsSurveyed(ro, current, old(docker.w), docker.w);
    }
  }

  /** Something that is no container of the service uses the volume. */
  ghost predicate ForeignConsumer(containers: map<string, Container>) {
    exists n :: Running(containers, n) && containers[n].mounts && !containers[n].service
  }

  lemma UnplannedIsForeign(ro: Rollout, current: seq<Listed>, w: World, w': World)
    requires Evolve(w, w') && Surveyed(ro, current, w'.containers) && !ConsumersPlanned(current, w'.containers)
    ensures ForeignConsumer(w.containers)
  {
    var n :| Running(w'.containers, n) && w'.containers[n].mounts && !exists l :: l in current && l.name == n;
    if w'.containers[n].service {
      assert false;
    }
    assert Running(w.containers, n);
  }

  /** From the beginning of a deploy to the point where the rollout is planned. */
  method Survey(docker: Docker, ro: Rollout) returns (current: Reply<seq<Listed>>)
    modifies docker
    ensures Evolve(old(docker.w), docker.w) && docker.w.log.ready == old(docker.w.log.ready)
    ensures docker.w.log.unready == old(docker.w.log.unready)
    ensures current.Ok? ==> Surveyed(ro, current.value, docker.w.containers) && LiveOrCandidates(ro, current.value)
    ensures current.Ok? && ro.hasVolume ==> ConsumersPlanned(current.value, docker.w.containers)
    ensures Calm(old(docker.w), docker.w) ==>
              if current.Ok? then StillThere(current.value, docker.w)
              else ro.hasVolume && ForeignConsumer(old(docker.w).containers)
    ensures SparesLive(ro, old(docker.w), docker.w) && (current.Ok? ==> FoundIn(current.value, old(docker.w)))
  {
    var _ :- docker.Request();                            // the project network, the volume, the image
    ghost var w0 := docker.w;
    current := ListCurrent(docker, ro);
    ghost var w1 := docker.w;
    EvolveTransitive(old(docker.w), w0, w1);
    if current.Ok? {
      var checked := CheckPlannedConsumers(docker, ro, current.value);
      EvolveTransitive(old(docker.w), w1, docker.w);
      if checked.Failed? {
        if Calm(old(docker.w), docker.w) {
          UnplannedIsForeign(ro, current.value, old(docker.w), w1);
        }
        current := Failed;
      }
    }
  }

  // ----- The candidates

  ghost predicate AllPassed(w: World, w': World, names: seq<string>) {
    forall n :: n in names ==> PassedCheck(w, w', [n])
  }

  /** A candidate is kept running, and is what the rollout creates unless one already ran in its slot. */
  ghost predicate Placed(ro: Rollout, w: World, w': World, n: string) {
    KeptRunning(w'.containers, n) && (Running(w.containers, n) || IsNew(ro, w'.containers, n))
  }

  /** What ensuring one slot comes to: a fresh container that was started, or the one that ran in it. */
  ghost predicate SlotEnsured(ro: Rollout, n: string, w: World, w': World, emptied: bool) {
    && w'.log.unready == w.log.unready && RemovesAmong(w, w', [n]) && TouchesAmong(w, w', [n])
    && Placed(ro, w, w', n) && Running(w'.containers, n)
    && if emptied then StartedBetween(w, w', n) else Running(w.containers, n) && w'.log.removals == w.log.removals
  }

  /** The host while a candidate is ensured: what CandidateStep keeps, and only this container may go. */
  ghost predicate SlotHandled(ro: Rollout, stopFirst: bool, n: string, w: World, w': World) {
    && CandidateStep(ro, stopFirst, w, w') && KeepsSlotsOwn(ro, w, w') && Clear(ro, stopFirst, w'.containers)
    && w'.log.unready == w.log.unready && RemovesAmong(w, w', [n])
  }

  lemma PreparedThenEnsured(ro: Rollout, stopFirst: bool, n: string, a: World, b: World, c: World, kept: bool)
    requires n in ro.candidates && Clear(ro, stopFirst, a.containers)
    requires Tidied(a, b, [n]) && TouchesAmong(a, b, [n]) && EnsureStep(ro, stopFirst, n, b, c)
    requires if kept then Running(a.containers, n) && KeptRunning(b.containers, n) && b.log.removals == a.log.removals
             else n !in b.containers
    ensures SlotHandled(ro, stopFirst, n, a, c)
    ensures Running(c.containers, n) ==> SlotEnsured(ro, n, a, c, !kept) && (!kept ==> StartedBetween(a, c, n))
  {
    EvolveIsCandidateStep(ro, stopFirst, a, b);
    CandidateStepTransitive(ro, stopFirst, a, b, c);
    CandidatesOnlyKeepsClear(ro, stopFirst, b, c);
    PreparedSlotIsOwn(ro, n, a, b, c);
    StartedBetweenExtends(a, b, c, n);
  }

  /** One slot prepared and its candidate started. emptied: the slot got, or was to get, a fresh container. */
  method EnsureInSlot(docker: Docker, ro: Rollout, ghost stopFirst: bool, n: string)
    returns (r: Reply<()>, emptied: bool)
    requires n in ro.candidates && Clear(ro, stopFirst, docker.w.containers)
    requires ro.hasVolume ==> ro.candidates == [n]
    modifies docker
    ensures SlotHandled(ro, stopFirst, n, old(docker.w), docker.w)
    ensures emptied && Running(docker.w.containers, n) ==> StartedBetween(old(docker.w), docker.w, n)
    ensures if r.Ok? then SlotEnsured(ro, n, old(docker.w), docker.w, emptied) else !Calm(old(docker.w), docker.w)
  {
    var prepared := PrepareCandidateSlot(docker, n);
    ghost var w1 := docker.w;
    EvolveIsCandidateStep(ro, stopFirst, old(docker.w), w1);
    if prepared.Failed? {
      EvolveKeepsSlotsOwn(ro, old(docker.w), w1);
      return Failed, false;
    }
    emptied := !prepared.value;
    r := EnsureContainer(docker, ro, stopFirst, n);
    PreparedThenEnsured(ro, stopFirst, n, old(docker.w), w1, docker.w, prepared.value);
  }

  /** The slots before i have been ensured. adopted: the live replicas found running, of which those that
      had to be replaced are this attempt's after all. */
  ghost predicate EnsuredUpTo(ro: Rollout, w: World, w': World, i: nat, adopted: set<string>, adopted': set<string>) {
    && i <= |ro.candidates| && adopted' <= adopted && TouchesAmong(w, w', ro.candidates[..i])
    && (forall j :: 0 <= j < i ==> Placed(ro, w, w', ro.candidates[j]))
    && (forall j :: 0 <= j < i && ro.candidates[j] in adopted' ==> Running(w.containers, ro.candidates[j]))
    && (forall n :: n in adopted && n !in adopted' ==> StartedBetween(w, w', n))
    && (forall n :: RemovedBetween(w, w', n) ==> StartedBetween(w, w', n))
  }

  lemma EnsuredNext(ro: Rollout, a: World, b: World, c: World, i: nat, adopted: set<string>, adopted': set<string>,
                    emptied: bool)
    requires ValidRollout(ro) && EnsuredUpTo(ro, a, b, i, adopted, adopted') && i < |ro.candidates|
    requires SlotEnsured(ro, ro.candidates[i], b, c, emptied)
    requires a.log.starts <= b.log.starts <= c.log.starts
    ensures EnsuredUpTo(ro, a, c, i + 1, adopted, if emptied then adopted' - {ro.candidates[i]} else adopted')
  {
    var n := ro.candidates[i];
    assert ro.candidates[..i + 1] == ro.candidates[..i] + [n];
    assert n !in ro.candidates[..i];
    forall m | StartedBetween(a, b, m) || StartedBetween(b, c, m) ensures StartedBetween(a, c, m) {
      StartedBetweenExtends(a, b, c, m);
    }
    forall j | 0 <= j < i ensures Placed(ro, a, c, ro.candidates[j]) {
      assert ro.candidates[j] != n;
    }
    forall m | RemovedBetween(a, c, m) ensures StartedBetween(a, c, m) {
      assert RemovedBetween(a, b, m) || RemovedBetween(b, c, m);
    }
  }

  /** The host while the candidates are ensured. */
  ghost predicate SlotsHandled(ro: Rollout, stopFirst: bool, w: World, w': World) {
    && CandidateStep(ro, stopFirst, w, w') && KeepsSlotsOwn(ro, w, w')
    && w'.log.unready == w.log.unready && RemovesAmong(w, w', ro.candidates)
  }

  lemma SlotsHandledNext(ro: Rollout, stopFirst: bool, n: string, a: World, b: World, c: World)
    requires SlotsHandled(ro, stopFirst, a, b) && SlotHandled(ro, stopFirst, n, b, c) && n in ro.candidates
    ensures SlotsHandled(ro, stopFirst, a, c)
  {
    CandidateStepTransitive(ro, stopFirst, a, b, c);
    SlotsOwnTransitive(ro, a, b, c);
    assert RemovesAmong(b, c, ro.candidates);
    RemovalsAddUp(a, b, c, ro.candidates);
  }

  /** Replicas no longer adopted run only if this attempt started them. */
  ghost predicate DroppedIsOwn(w: World, w': World, adopted: set<string>, adopted': set<string>) {
    forall n :: n in adopted && n !in adopted' && Running(w'.containers, n) ==> StartedBetween(w, w', n)
  }

  lemma DroppedNext(a: World, b: World, c: World, adopted: set<string>, adopted': set<string>, n: string, emptied: bool)
    requires forall m :: m in adopted && m !in adopted' ==> StartedBetween(a, b, m)
    requires emptied && Running(c.containers, n) ==> StartedBetween(b, c, n)
    requires a.log.starts <= b.log.starts <= c.log.starts
    ensures DroppedIsOwn(a, c, adopted, if emptied then adopted' - {n} else adopted')
  {
    forall m | StartedBetween(a, b, m) || StartedBetween(b, c, m) ensures StartedBetween(a, c, m) {
      StartedBetweenExtends(a, b, c, m);
    }
  }

  /** Slots prepared and candidates started, in order. */
  method EnsureCandidates(docker: Docker, ro: Rollout, ghost stopFirst: bool, adopted: set<string>)
    returns (r: Reply<()>, adopted': set<string>)
    requires ValidRollout(ro) && (ro.candidates != [] ==> Clear(ro, stopFirst, docker.w.containers))
    modifies docker
    ensures SlotsHandled(ro, stopFirst, old(docker.w), docker.w) && adopted' <= adopted
    ensures if r.Ok? then EnsuredUpTo(ro, old(docker.w), docker.w, |ro.candidates|, adopted, adopted')
            else !Calm(old(docker.w), docker.w)
    ensures DroppedIsOwn(old(docker.w), docker.w, adopted, adopted')
    ensures ro.candidates == [] ==> r.Ok?
  {
    adopted' := adopted;
    EvolveIsCandidateStep(ro, stopFirst, docker.w, docker.w);
    for i := 0 to |ro.candidates|
      invariant SlotsHandled(ro, stopFirst, old(docker.w), docker.w)
      invariant i < |ro.candidates| ==> Clear(ro, stopFirst, docker.w.containers)
      invariant EnsuredUpTo(ro, old(docker.w), docker.w, i, adopted, adopted')
    {
      var n := ro.candidates[i];
      ghost var w1 := docker.w;
      assert ro.hasVolume ==> ro.candidates == [n];
      var emptied;
      r, emptied := EnsureInSlot(docker, ro, stopFirst, n);
      SlotsHandledNext(ro, stopFirst, n, old(docker.w), w1, docker.w);
      if r.Ok? {
        EnsuredNext(ro, old(docker.w), w1, docker.w, i, adopted, adopted', emptied);
      }
      DroppedNext(old(docker.w), w1, docker.w, adopted, adopted', n, emptied);
      if emptied {
        adopted' := adopted' - {n};
      }
      if r.Failed? {
        return;
      }
    }
    r := Ok(());
  }

  method AwaitCandidates(docker: Docker, candidates: seq<string>) returns (r: Reply<()>)
    modifies docker
    ensures Evolve(old(docker.w), docker.w) && PoliciesKept(old(docker.w), docker.w)
    ensures docker.w.log.removals == old(docker.w.log.removals)
    ensures if r.Ok? then AllPassed(old(docker.w), docker.w, candidates)
            else exists n :: n in candidates && GaveUpOn(old(docker.w), docker.w, n)
    ensures candidates == [] ==> r.Ok?
  {
    for i := 0 to |candidates|
      invariant Evolve(old(docker.w), docker.w) && PoliciesKept(old(docker.w), docker.w)
      invariant docker.w.log.removals == old(docker.w.log.removals)
      invariant forall j :: 0 <= j < i ==> PassedCheck(old(docker.w), docker.w, [candidates[j]])
    {
      ghost var w1 := docker.w;
      var ready := docker.CheckReadiness(candidates[i]);
      EvolveTransitive(old(docker.w), w1, docker.w);
      forall j | 0 <= j < i ensures PassedCheck(old(docker.w), docker.w, [candidates[j]]) {
        PassedCheckExtends(old(docker.w), w1, docker.w, [candidates[j]]);
      }
      if !ready {
        assert GaveUpOn(old(docker.w), docker.w, candidates[i]);
        return Failed;
      }
      assert docker.w.log.ready[|w1.log.ready|] in [candidates[i]];
      assert PassedCheck(w1, docker.w, [candidates[i]]);
      PassedCheckExtends(old(docker.w), w1, docker.w, [candidates[i]]);
    }
    return Ok(());
  }

  // ----- The rollout as a whole

  /** What every run does to the host, however it ends and wherever it stops. */
  ghost predicate RolloutStep(ro: Rollout, stopFirst: bool, previous: seq<string>, w: World, w': World) {
    && w.log.starts <= w'.log.starts
    && (forall i :: |w.log.starts| <= i < |w'.log.starts| ==> SafeStart(ro, stopFirst, previous, w'.log.starts[i]))
    && w.kept <= w'.kept
    && w.log.ready <= w'.log.ready && Traced(w, w')
    && w.log.restores <= w'.log.restores
    && (BaseTracksVolume(w) ==> BaseTracksVolume(w'))
    && (OwnsCandidateNames(ro, w.containers) ==> OwnsCandidateNames(ro, w'.containers))
    && KeepsSlotsOwn(ro, w, w')
    && (forall n :: n in w'.containers && n !in ro.candidates ==>
          n in w.containers && SameLabels(w.containers[n], w'.containers[n]))
  }

  lemma RolloutStepTransitive(ro: Rollout, stopFirst: bool, previous: seq<string>, a: World, b: World, c: World)
    requires RolloutStep(ro, stopFirst, previous, a, b) && RolloutStep(ro, stopFirst, previous, b, c)
    ensures RolloutStep(ro, stopFirst, previous, a, c)
  {
    SlotsOwnTransitive(ro, a, b, c);
    forall i | |a.log.starts| <= i < |c.log.starts|
      ensures SafeStart(ro, stopFirst, previous, c.log.starts[i])
    {
      if i < |b.log.starts| { assert c.log.starts[i] == b.log.starts[i]; }
    }
  }

  lemma EvolveIsRolloutStep(ro: Rollout, stopFirst: bool, previous: seq<string>, w: World, w': World)
    requires Evolve(w, w')
    ensures RolloutStep(ro, stopFirst, previous, w, w')
  {
  }

  /** Every start in between is of a container outside the candidate slots. */
  ghost predicate OnlyRestarts(ro: Rollout, w: World, w': World) {
    forall i :: |w.log.starts| <= i < |w'.log.starts| ==> w'.log.starts[i].name !in ro.candidates
  }

  /** No start in between is of a container outside the candidate slots. */
  predicate NoRestart(ro: Rollout, w: World, w': World) {
    forall i :: |w.log.starts| <= i < |w'.log.starts| ==> w'.log.starts[i].name in ro.candidates
  }

  lemma StartIsCandidate(ro: Rollout, w: World, w': World, k: nat)
    requires NoRestart(ro, w, w') && |w.log.starts| <= k < |w'.log.starts|
    ensures w'.log.starts[k].name in ro.candidates
  {
  }

  lemma StartIsRestart(ro: Rollout, w: World, w': World, k: nat)
    requires OnlyRestarts(ro, w, w') && |w.log.starts| <= k < |w'.log.starts|
    ensures w'.log.starts[k].name !in ro.candidates
  {
  }

  lemma RestartsShow(ro: Rollout, a: World, b: World, c: World)
    requires a.log.starts <= b.log.starts <= c.log.starts
    requires OnlyRestarts(ro, b, c) && NoRestart(ro, a, c)
    ensures c.log.starts == b.log.starts
  {
    var k: nat := |b.log.starts|;
    if k < |c.log.starts| {
      StartIsCandidate(ro, a, c, k);
      StartIsRestart(ro, b, c, k);
    }
  }

  /** Where a failed stop-first rollout leaves the volume's earlier contents. */
  ghost predicate Kept(w: World, w': World) {
    && Conserved(w')
    && (w'.kept != w.kept ==> w'.log.base in w'.kept)
    && (w'.kept == w.kept && (w'.slot.None? || w'.log.dirty || w'.log.starts == w.log.starts) ==> Resumable(w'))
  }

  /** A snapshot's last step: deleted once restored, else moved out of the slot for recovery by hand. */
  ghost predicate Settled(w: World, w': World) {
    && w'.log.starts == w.log.starts && w'.log.ready == w.log.ready && w'.log.restores == w.log.restores
    && w'.log.unready == w.log.unready && w'.log.removals == w.log.removals && Traced(w, w')
    && w'.log.dirty == w.log.dirty && w.kept <= w'.kept
    && (BaseTracksVolume(w) ==> BaseTracksVolume(w'))
    && (forall n :: n in w'.containers ==> n in w.containers && SameLabels(w.containers[n], w'.containers[n]))
    && (forall n :: Running(w'.containers, n) ==> Running(w.containers, n))
    && PoliciesKept(w, w')
  }

  method SettleSnapshot(docker: Docker, restored: bool)
    modifies docker
    ensures Settled(old(docker.w), docker.w)
    ensures restored ==> docker.w.kept == old(docker.w).kept
    ensures docker.w.kept != old(docker.w).kept && Resumable(old(docker.w)) ==> docker.w.log.base in docker.w.kept
    ensures Calm(old(docker.w), docker.w) ==> docker.w.slot.None?
    ensures Calm(old(docker.w), docker.w) && !restored && old(docker.w).slot.Some? ==>
              docker.w.kept == old(docker.w).kept + [old(docker.w).slot.value]
    ensures restored && !old(docker.w).log.dirty ==> Conserved(docker.w)
    ensures restored && !old(docker.w).log.dirty && Resumable(old(docker.w)) ==> Resumable(docker.w)
    ensures !restored && Resumable(old(docker.w)) && old(docker.w).slot.Some? ==> Conserved(docker.w)
    ensures !restored && Resumable(old(docker.w)) && docker.w.kept == old(docker.w).kept ==> Resumable(docker.w)
  {
    if restored {
      ghost var before := docker.DeleteSnapshot();
      if Resumable(old(docker.w)) { EvolveKeepsResumable(old(docker.w), before); }
    } else {
      ghost var before;
      var _, b := docker.KeepSnapshot();
      before := b;
      if Resumable(old(docker.w)) && before.slot.Some? {
        EvolveKeepsResumable(old(docker.w), before);
        assert docker.w != before ==> before.slot.value in docker.w.kept;
      }
    }
  }

  /** The previous containers were stopped and are there to be started again, and the snapshot to be restored. */
  ghost predicate ReadyToRollBack(ro: Rollout, previous: seq<string>, shutdowns: seq<Report>, w: World) {
    && StoppedBy(shutdowns, previous) && NoneRunning(w.containers, Names(previous))
    && Restorable(ro, previous, w) && (ro.hasVolume ==> w.slot.Some?)
  }

  /** Each was started again, but one that had stopped by itself and was not recorded live; the rollback
      counts as completed when any of them serves, and otherwise each was given up on. */
  ghost predicate RolledBack(ro: Rollout, shutdowns: seq<Report>, previous: seq<string>, w: World, w': World,
                             preserved: bool, completed: bool)
  {
    && AllStartedAgain(ro, shutdowns, previous, w, w')
    && (completed <==> preserved)
    && (!preserved ==> AllGivenUp(ro, shutdowns, previous, w, w'))
  }

  ghost predicate Absent(names: seq<string>, containers: map<string, Container>) {
    forall n :: n in names ==> n !in containers
  }

  ghost predicate NoneAppears(w: World, w': World) {
    forall n :: n in w'.containers ==> n in w.containers
  }

  lemma ReadyAfterRecovering(ro: Rollout, previous: seq<string>, shutdowns: seq<Report>, a: World, b: World, c: World,
                             preserved: bool, completed: bool)
    requires Recovering(a, b) && b.log.removals == a.log.removals && PreviousOnly(ro, previous, b, c)
    ensures NoneAppears(a, c)
    ensures Calm(a, c) ==> Calm(a, b) && Calm(b, c)
    ensures Calm(a, c) && ReadyToRollBack(ro, previous, shutdowns, a) ==>
              && Restorable(ro, previous, b)
              && (&& AllBack(ro, shutdowns, previous, b, c) && (completed <==> preserved)
                  && (!preserved ==> AllGivenUp(ro, shutdowns, previous, b, c)) ==>
                    RolledBack(ro, shutdowns, previous, a, c, preserved, completed))
  {
    if Calm(a, c) && ReadyToRollBack(ro, previous, shutdowns, a) {
      assert NoneRunning(b.containers, Names(previous));
      if AllBack(ro, shutdowns, previous, b, c) {
        AllBackIsAllStarted(ro, shutdowns, previous, b, c);
        AllStartedExtends(ro, shutdowns, previous, a, b, c, c);
      }
    }
  }

  /** The volume put back where there is a snapshot. */
  method RestoreIfTaken(docker: Docker, snapshot: bool) returns (restored: bool)
    modifies docker
    ensures Recovering(old(docker.w), docker.w) && docker.w.log.ready == old(docker.w.log.ready)
    ensures docker.w.log.unready == old(docker.w.log.unready) && docker.w.log.removals == old(docker.w.log.removals)
    ensures restored ==> snapshot
    ensures snapshot && Calm(old(docker.w), docker.w) && NoConsumer(old(docker.w).containers) && old(docker.w).slot.Some? ==>
              restored
    ensures restored && Resumable(old(docker.w)) ==> !docker.w.log.dirty
    ensures Resumable(old(docker.w)) && old(docker.w).slot.Some? ==> Resumable(docker.w)
  {
    EvolveIsRecovering(docker.w, docker.w);
    restored := false;
    if snapshot {
      var r := RestoreVolume(docker);
      restored := r.Ok?;
    }
  }

  /** The volume put back where there is a snapshot, then the previous version. */
  method RestoreStopFirst(docker: Docker, ro: Rollout, previous: seq<string>, shutdowns: seq<Report>, snapshot: bool)
    returns (restored: bool, liveRuntimePreserved: bool, rollbackCompleted: bool)
    requires forall n :: n in previous ==> n !in ro.candidates
    requires NoneRunning(docker.w.containers, Names(ro.candidates))
    modifies docker
    ensures RolloutStep(ro, true, previous, old(docker.w), docker.w)
    ensures RestoresSlot(old(docker.w), docker.w)
    ensures liveRuntimePreserved ==> PassedCheck(old(docker.w), docker.w, previous)
    ensures rollbackCompleted ==> liveRuntimePreserved && (snapshot ==> restored)
    ensures NoneRunning(docker.w.containers, Names(ro.candidates))
    ensures snapshot && Resumable(old(docker.w)) && old(docker.w).slot.Some? ==>
              if restored then
                !docker.w.log.dirty && (docker.w.log.starts == old(docker.w).log.starts ==> Resumable(docker.w))
              else Resumable(docker.w) && docker.w.slot.Some?
    ensures docker.w.kept == old(docker.w).kept
    ensures OnlyRestarts(ro, old(docker.w), docker.w) && StartsOnly(ro, shutdowns, old(docker.w), docker.w)
    ensures docker.w.log.removals == old(docker.w.log.removals) && NoneAppears(old(docker.w), docker.w)
    ensures && Calm(old(docker.w), docker.w) && snapshot == ro.hasVolume
            && ReadyToRollBack(ro, previous, shutdowns, old(docker.w)) ==>
              && restored == snapshot
              && RolledBack(ro, shutdowns, previous, old(docker.w), docker.w, liveRuntimePreserved, rollbackCompleted)
    ensures rollbackCompleted && StoppedBy(shutdowns, previous) && NoneRunning(old(docker.w).containers, Names(previous)) ==>
              AllStartedAgain(ro, shutdowns, previous, old(docker.w), docker.w)
  {
    liveRuntimePreserved, rollbackCompleted := false, false;
    restored := RestoreIfTaken(docker, snapshot);
    ghost var w1 := docker.w;
    EvolveIsPreviousOnly(ro, previous, w1, w1);
    if restored == snapshot {
      liveRuntimePreserved, rollbackCompleted := RestorePreviousWorkerRuntime(docker, ro, previous, shutdowns);
      PassedCheckExtends(old(docker.w), w1, docker.w, previous);
    }
    RecoveredThenRestarted(ro, previous, shutdowns, old(docker.w), w1, docker.w);
    ReadyAfterRecovering(ro, previous, shutdowns, old(docker.w), w1, docker.w, liveRuntimePreserved, rollbackCompleted);
  }

  lemma RecoveredThenRestarted(ro: Rollout, previous: seq<string>, shutdowns: seq<Report>, a: World, b: World, c: World)
    requires Recovering(a, b) && a.log.ready <= b.log.ready && PreviousOnly(ro, previous, b, c)
    requires NoneRunning(a.containers, Names(ro.candidates)) && forall n :: n in previous ==> n !in ro.candidates
    ensures RolloutStep(ro, true, previous, a, c) && RestoresSlot(a, c) && OnlyRestarts(ro, a, c)
    ensures NoneRunning(c.containers, Names(ro.candidates)) && c.kept == a.kept && c.slot == a.slot
    ensures (&& AllBack(ro, shutdowns, previous, b, c)
             && StoppedBy(shutdowns, previous) && NoneRunning(a.containers, Names(previous))) ==>
              AllStartedAgain(ro, shutdowns, previous, a, c)
  {
    RecoveringIsRolloutStep(ro, previous, a, b);
    PreviousOnlyKeepsCandidatesStopped(ro, previous, b, c);
    PreviousOnlyIsRolloutStep(ro, previous, b, c);
    RolloutStepTransitive(ro, true, previous, a, b, c);
    if AllBack(ro, shutdowns, previous, b, c) && StoppedBy(shutdowns, previous) && NoneRunning(a.containers, Names(previous)) {
      AllBackIsAllStarted(ro, shutdowns, previous, b, c);
      AllStartedExtends(ro, shutdowns, previous, a, b, c, c);
    }
  }

  lemma RecoveringIsRolloutStep(ro: Rollout, previous: seq<string>, w: World, w': World)
    requires Recovering(w, w') && w.log.ready <= w'.log.ready
    ensures RolloutStep(ro, true, previous, w, w') && RestoresSlot(w, w')
    ensures NoneRunning(w.containers, Names(ro.candidates)) ==> NoneRunning(w'.containers, Names(ro.candidates))
    ensures NoneRunning(w.containers, Names(previous)) ==> NoneRunning(w'.containers, Names(previous))
    ensures w'.kept == w.kept && w'.slot == w.slot && w'.log.starts == w.log.starts
  {
  }

  lemma PreviousOnlyIsRolloutStep(ro: Rollout, previous: seq<string>, w: World, w': World)
    requires PreviousOnly(ro, previous, w, w')
    ensures RolloutStep(ro, true, previous, w, w')
  {
  }

  lemma SettledIsRolloutStep(ro: Rollout, previous: seq<string>, w: World, w': World)
    requires Settled(w, w')
    ensures RolloutStep(ro, true, previous, w, w')
  {
  }

  lemma SettledKeepsFlags(ro: Rollout, shutdowns: seq<Report>, previous: seq<string>, a: World, b: World, c: World,
                          preserved: bool, completed: bool)
    requires a.log.starts <= b.log.starts && Settled(b, c)
    ensures AllStartedAgain(ro, shutdowns, previous, a, b) ==> AllStartedAgain(ro, shutdowns, previous, a, c)
    ensures RolledBack(ro, shutdowns, previous, a, b, preserved, completed) ==>
              RolledBack(ro, shutdowns, previous, a, c, preserved, completed)
    ensures Absent(ro.candidates, b.containers) ==> Absent(ro.candidates, c.containers)
  {
    if AllStartedAgain(ro, shutdowns, previous, a, b) {
      AllStartedExtends(ro, shutdowns, previous, a, a, b, c);
    }
  }

  /** After the candidates of a stop-first rollout failed and were discarded. */
  method AbandonStopFirst(docker: Docker, ro: Rollout, previous: seq<string>, shutdowns: seq<Report>,
                          snapshot: bool, candidatesStopped: bool)
    returns (liveRuntimePreserved: bool, rollbackCompleted: bool)
    requires forall n :: n in previous ==> n !in ro.candidates
    requires candidatesStopped ==> Absent(ro.candidates, docker.w.containers)
    requires snapshot ==> docker.w.slot.Some?
    modifies docker
    ensures RolloutStep(ro, true, previous, old(docker.w), docker.w)
    ensures RestoresSlot(old(docker.w), docker.w)
    ensures liveRuntimePreserved ==> PassedCheck(old(docker.w), docker.w, previous)
    ensures rollbackCompleted ==> liveRuntimePreserved && Absent(ro.candidates, docker.w.containers)
    ensures docker.w.log.removals == old(docker.w.log.removals)
    ensures && Calm(old(docker.w), docker.w) && candidatesStopped && snapshot == ro.hasVolume
            && ReadyToRollBack(ro, previous, shutdowns, old(docker.w)) ==>
              && RolledBack(ro, shutdowns, previous, old(docker.w), docker.w, liveRuntimePreserved, rollbackCompleted)
              && Absent(ro.candidates, docker.w.containers) && (snapshot ==> docker.w.slot.None?)
    ensures snapshot && Resumable(old(docker.w)) ==> Kept(old(docker.w), docker.w)
    ensures snapshot && rollbackCompleted && Resumable(old(docker.w)) ==> !docker.w.log.dirty
    ensures OnlyRestarts(ro, old(docker.w), docker.w) && StartsOnly(ro, shutdowns, old(docker.w), docker.w)
    ensures rollbackCompleted && StoppedBy(shutdowns, previous) && NoneRunning(old(docker.w).containers, Names(previous)) ==>
              AllStartedAgain(ro, shutdowns, previous, old(docker.w), docker.w)
  {
    liveRuntimePreserved, rollbackCompleted := false, false;
    var restored := false;
    EvolveIsRolloutStep(ro, true, previous, docker.w, docker.w);
    if candidatesStopped {
      restored, liveRuntimePreserved, rollbackCompleted :=
        RestoreStopFirst(docker, ro, previous, shutdowns, snapshot);
    }
    ghost var w1 := docker.w;
    if snapshot {
      SettleSnapshot(docker, restored);
      SettledIsRolloutStep(ro, previous, w1, docker.w);
      RolloutStepTransitive(ro, true, previous, old(docker.w), w1, docker.w);
      PassedCheckExtends(old(docker.w), w1, docker.w, previous);
      SettledKeepsFlags(ro, shutdowns, previous, old(docker.w), w1, docker.w, liveRuntimePreserved, rollbackCompleted);
    }
  }

  // ----- deployWorkerRuntime

  /** How a run ends: an error before the rollout was planned, a failed rollout with its flags, or success.
      stops: how the stops of the previous containers went, before the candidates started. left: what the
      progress lines name as retired containers that could not be removed. */
  datatype Result =
    | Halted
    | Aborted(plan: Plan, stops: seq<Report>, liveRuntimePreserved: bool, rollbackCompleted: bool)
    | Committed(plan: Plan, retired: seq<Report>, left: seq<string>)

  /** What the plan is to replace. */
  function Replaced(plan: Plan): seq<string> {
    match plan
    case StopFirst(_, _, previous) => previous
    case CandidateFirst(_, retired) => retired
  }

  function Previous(plan: Plan): seq<string> {
    if plan.StopFirst? then plan.stopBeforeStart else []
  }

  /** One report for each container, true of the host. */
  ghost predicate TrueReports(reports: seq<Report>, names: seq<string>, containers: map<string, Container>) {
    && |reports| == |names|
    && forall i :: 0 <= i < |names| ==>
         reports[i].name == names[i] && (MayStillRun(reports[i]) || !Running(containers, names[i]))
  }

  /** Every one of these is gone, or named as one that could not be removed. */
  ghost predicate GoneOrNamed(names: seq<string>, left: seq<string>, containers: map<string, Container>) {
    forall n :: n in names && n in containers ==> n in left
  }

  /** Those whose stop was reported. */
  function StoppedNames(reports: seq<Report>): seq<string> {
    if reports == [] then []
    else
      var rest := StoppedNames(reports[..|reports| - 1]);
      var last := reports[|reports| - 1];
      if MayStillRun(last) then rest else rest + [last.name]
  }

  lemma {:induction false} StoppedNamesAre(reports: seq<Report>, n: string)
    ensures n in StoppedNames(reports) <==> exists i :: 0 <= i < |reports| && reports[i].name == n && !MayStillRun(reports[i])
  {
    if reports != [] {
      StoppedNamesAre(reports[..|reports| - 1], n);
    }
  }

  /** Removes without force; a refusal is reported and does not end the rollout. */
  method RemoveRetired(docker: Docker, names: seq<string>) returns (left: seq<string>)
    modifies docker
    ensures Tidied(old(docker.w), docker.w, names) && TouchesAmong(old(docker.w), docker.w, names)
    ensures GoneOrNamed(names, left, docker.w.containers) && forall n :: n in left ==> n in names
    ensures docker.w.log.forced == old(docker.w.log.forced)
    ensures Calm(old(docker.w), docker.w) && NoneRunning(old(docker.w).containers, Names(names)) ==> left == []
  {
    left := [];
    LookedIsTidied(docker.w, docker.w, names);
    for i := 0 to |names|
      invariant Tidied(old(docker.w), docker.w, names) && TouchesAmong(old(docker.w), docker.w, names)
      invariant GoneOrNamed(names[..i], left, docker.w.containers) && forall n :: n in left ==> n in names
      invariant docker.w.log.forced == old(docker.w.log.forced)
      invariant Calm(old(docker.w), docker.w) && NoneRunning(old(docker.w).containers, Names(names)) ==> left == []
    {
      ghost var w1 := docker.w;
      var removed := docker.RemoveContainer(names[i], false);
      TidiedTransitive(old(docker.w), w1, docker.w, [names[i]], names);
      assert names[i] in Names(names);
      if removed.Failed? {
        left := left + [names[i]];
      }
    }
  }

  /** Retiring what the new version replaced is best effort and starts nothing; what may still run, and what
      could not be removed, is reported, and there is nothing of it unless something goes wrong. */
  method Retire(docker: Docker, retired: seq<string>, previous: seq<string>, gracePeriodSeconds: nat)
    returns (reports: seq<Report>, left: seq<string>)
    modifies docker
    ensures Tidied(old(docker.w), docker.w, retired + previous) && TouchesAmong(old(docker.w), docker.w, retired + previous)
    ensures TrueReports(reports, retired, docker.w.containers) && docker.w.log.forced == old(docker.w.log.forced)
    ensures GoneOrNamed(StoppedNames(reports) + previous, left, docker.w.containers)
    ensures forall n :: n in left ==> n in StoppedNames(reports) + previous
    ensures Calm(old(docker.w), docker.w) && NoneRunning(old(docker.w).containers, Names(previous)) ==>
              AllRetired(reports, left)
  {
    reports := StopAllGracefully(docker, retired, gracePeriodSeconds);
    ghost var w1 := docker.w;
    ReportedAreRetired(reports, retired, w1.containers);
    LookedIsTidied(old(docker.w), w1, retired + previous);
    left := RemoveRetired(docker, StoppedNames(reports));
    ghost var w2 := docker.w;
    TidiedTransitive(old(docker.w), w1, w2, StoppedNames(reports), retired + previous);
    var more := RemoveRetired(docker, previous);
    TidiedTransitive(old(docker.w), w2, docker.w, previous, retired + previous);
    left := left + more;
  }

  /** Every stop is reported as one that stopped, and every removal went well. */
  ghost predicate AllRetired(reports: seq<Report>, left: seq<string>) {
    left == [] && forall i :: 0 <= i < |reports| ==> !MayStillRun(reports[i])
  }

  lemma ReportedAreRetired(reports: seq<Report>, retired: seq<string>, containers: map<string, Container>)
    requires TrueReports(reports, retired, containers)
    ensures forall n :: n in StoppedNames(reports) ==> n in retired
    ensures NoneRunning(containers, Names(StoppedNames(reports)))
  {
    forall n | n in StoppedNames(reports) ensures n in retired && !Running(containers, n) {
      StoppedNamesAre(reports, n);
    }
  }

  lemma PreparedIsRolloutStep(ro: Rollout, previous: seq<string>, w: World, w': World)
    requires Prepared(w, w')
    ensures RolloutStep(ro, true, previous, w, w')
  {
  }

  lemma CandidateStepIsRolloutStep(ro: Rollout, stopFirst: bool, previous: seq<string>, w: World, w': World)
    requires CandidateStep(ro, stopFirst, w, w') && KeepsSlotsOwn(ro, w, w')
    ensures RolloutStep(ro, stopFirst, previous, w, w')
  {
  }

  /** The contents from before this run, at its end: not lost, set aside where a snapshot was, and else
      ready for another attempt, unless a previous container was started beside the snapshot of contents
      it goes on to change. */
  ghost predicate Survives(ro: Rollout, w: World, w': World) {
    && Conserved(w')
    && (w'.kept != w.kept ==> w'.log.base in w'.kept)
    && (w'.kept == w.kept && (w'.slot.None? || w'.log.dirty || NoRestart(ro, w, w')) ==> Resumable(w'))
  }

  /** The candidates started and ready, or why not. */
  method StartCandidates(docker: Docker, ro: Rollout, ghost stopFirst: bool, adopted: set<string>)
    returns (r: Reply<()>, adopted': set<string>)
    requires ValidRollout(ro) && (ro.candidates != [] ==> Clear(ro, stopFirst, docker.w.containers))
    modifies docker
    ensures CandidateStep(ro, stopFirst, old(docker.w), docker.w) && adopted' <= adopted
    ensures KeepsSlotsOwn(ro, old(docker.w), docker.w) && RemovesAmong(old(docker.w), docker.w, ro.candidates)
    ensures r.Ok? ==> AllPassed(old(docker.w), docker.w, ro.candidates) && AllPlaced(ro, old(docker.w), docker.w)
    ensures ro.candidates == [] ==> r.Ok?
    ensures DroppedIsOwn(old(docker.w), docker.w, adopted, adopted')
    ensures Calm(old(docker.w), docker.w) ==>
              && AdoptedRunning(ro, old(docker.w), docker.w, adopted, adopted')
              && (r.Failed? ==> exists n :: n in ro.candidates && GaveUpOn(old(docker.w), docker.w, n))
  {
    r, adopted' := EnsureCandidates(docker, ro, stopFirst, adopted);
    if r.Ok? {
      ghost var w1 := docker.w;
      r := AwaitCandidates(docker, ro.candidates);
      EnsuredThenAwaited(ro, stopFirst, old(docker.w), w1, docker.w, adopted, adopted');
      forall n | n in ro.candidates && r.Ok? ensures PassedCheck(old(docker.w), docker.w, [n]) {
        PassedCheckExtends(old(docker.w), w1, docker.w, [n]);
      }
    }
  }

  lemma EnsuredThenAwaited(ro: Rollout, stopFirst: bool, a: World, b: World, c: World, adopted: set<string>,
                           adopted': set<string>)
    requires SlotsHandled(ro, stopFirst, a, b) && EnsuredUpTo(ro, a, b, |ro.candidates|, adopted, adopted')
    requires Evolve(b, c) && PoliciesKept(b, c) && c.log.removals == b.log.removals
    ensures CandidateStep(ro, stopFirst, a, c) && KeepsSlotsOwn(ro, a, c) && RemovesAmong(a, c, ro.candidates)
    ensures AllPlaced(ro, a, c) && AdoptedRunning(ro, a, c, adopted, adopted')
    ensures forall n :: GaveUpOn(b, c, n) ==> GaveUpOn(a, c, n)
    ensures DroppedIsOwn(a, c, adopted, adopted')
  {
    EvolveIsCandidateStep(ro, stopFirst, b, c);
    CandidateStepTransitive(ro, stopFirst, a, b, c);
    EvolveKeepsSlotsOwn(ro, b, c);
    SlotsOwnTransitive(ro, a, b, c);
    forall n | StartedBetween(a, b, n) ensures StartedBetween(a, c, n) {
      StartedBetweenExtends(a, b, c, n);
    }
    forall n | n in ro.candidates ensures Placed(ro, a, c, n) && (n in adopted' ==> Running(a.containers, n)) {
      var j :| 0 <= j < |ro.candidates| && ro.candidates[j] == n;
      assert Placed(ro, a, b, ro.candidates[j]);
    }
    forall n | RemovedBetween(a, c, n) ensures n in ro.candidates && StartedBetween(a, c, n) {
      assert RemovedBetween(a, b, n);
    }
  }

  ghost predicate AllPlaced(ro: Rollout, w: World, w': World) {
    forall n :: n in ro.candidates ==> Placed(ro, w, w', n)
  }

  /** The live replicas still adopted were found running, and what was removed of the others or is no longer
      adopted this attempt started itself. */
  ghost predicate AdoptedRunning(ro: Rollout, w: World, w': World, adopted: set<string>, adopted': set<string>) {
    && (forall n :: n in ro.candidates && n in adopted' ==> Running(w.containers, n))
    && (forall n :: n in adopted && n !in adopted' ==> StartedBetween(w, w', n))
    && (forall n :: RemovedBetween(w, w', n) ==> StartedBetween(w, w', n))
  }

  /** A rollout that stopped the previous version first could not stop it, or could not snapshot. */
  method AbortPreparation(docker: Docker, ro: Rollout, plan: Plan, shutdowns: seq<Report>) returns (result: Result)
    requires plan.StopFirst? && forall n :: n in Previous(plan) ==> n !in ro.candidates
    requires Touched(shutdowns, Previous(plan)) ==> NoneRunning(docker.w.containers, Names(ro.candidates))
    modifies docker
    ensures RolloutStep(ro, true, Previous(plan), old(docker.w), docker.w)
    ensures docker.w.log.restores == old(docker.w).log.restores
    ensures result.Aborted? && result.plan == plan && !result.rollbackCompleted
    ensures result.liveRuntimePreserved ==> PassedCheck(old(docker.w), docker.w, Previous(plan))
    ensures Resumable(old(docker.w)) ==> Survives(ro, old(docker.w), docker.w)
    ensures docker.w.log.removals == old(docker.w.log.removals) && result.stops == shutdowns
    ensures StartsOnly(ro, shutdowns, old(docker.w), docker.w)
    ensures Calm(old(docker.w), docker.w) ==>
              && (!result.liveRuntimePreserved ==> NothingServes(ro, shutdowns, Previous(plan), old(docker.w), docker.w))
              && (Restorable(ro, Previous(plan), old(docker.w)) ==>
                    AllBack(ro, shutdowns, Previous(plan), old(docker.w), docker.w))
  {
    var preserved, _ := RestorePreviousWorkerRuntime(docker, ro, Previous(plan), shutdowns);
    PreviousOnlyIsRolloutStep(ro, Previous(plan), old(docker.w), docker.w);
    if Resumable(old(docker.w)) && NoRestart(ro, old(docker.w), docker.w) {
      RestartsShow(ro, old(docker.w), old(docker.w), docker.w);
    }
    return Aborted(plan, shutdowns, preserved, false);
  }

  /** What a failed rollout says of itself from its candidates on, it may say of the whole. */
  lemma AbandonedFrom(ro: Rollout, result: Result, a: World, b: World, c: World)
    requires result.Aborted? && RolloutStep(ro, true, Previous(result.plan), a, b)
    requires RolloutStep(ro, true, Previous(result.plan), b, c) && OnlyRestarts(ro, b, c)
    ensures RolloutStep(ro, true, Previous(result.plan), a, c)
    ensures PassedCheck(b, c, Previous(result.plan)) ==> PassedCheck(a, c, Previous(result.plan))
    ensures AllStartedAgain(ro, result.stops, Previous(result.plan), b, c) ==>
              AllStartedAgain(ro, result.stops, Previous(result.plan), a, c)
    ensures Kept(b, c) && b.kept == a.kept ==> Survives(ro, a, c)
  {
    RolloutStepTransitive(ro, true, Previous(result.plan), a, b, c);
    PassedCheckExtends(a, b, c, Previous(result.plan));
    if AllStartedAgain(ro, result.stops, Previous(result.plan), b, c) {
      AllStartedExtends(ro, result.stops, Previous(result.plan), a, b, c, c);
    }
    if NoRestart(ro, a, c) { RestartsShow(ro, a, b, c); }
  }

  lemma StaysStopped(ro: Rollout, stopFirst: bool, w: World, w': World, previous: seq<string>)
    requires CandidatesOnly(ro, stopFirst, w, w') && forall n :: n in previous ==> n !in ro.candidates
    ensures NoneRunning(w.containers, Names(previous)) ==> NoneRunning(w'.containers, Names(previous))
  {
    forall n | n in Names(previous) && Running(w'.containers, n) ensures Running(w.containers, n) {}
  }

  method RolloutStopFirst(docker: Docker, ro: Rollout, plan: Plan) returns (result: Result)
    requires ValidRollout(ro) && plan.StopFirst?
    requires forall n :: n in plan.stopBeforeStart ==> n !in ro.candidates
    requires forall n :: n in plan.resetCandidates ==> n in ro.candidates
    requires forall n :: n in ro.candidates && n in docker.w.containers ==> n in plan.resetCandidates
    requires forall n :: Running(docker.w.containers, n) && docker.w.containers[n].service ==>
               n in plan.stopBeforeStart || n in ro.candidates
    modifies docker
    ensures RolloutStep(ro, true, Previous(plan), old(docker.w), docker.w)
    ensures old(docker.w).slot.Some? ==> RestoresSlot(old(docker.w), docker.w)
    ensures !result.Halted? && result.plan == plan
    ensures result.Aborted? && result.liveRuntimePreserved ==> PassedCheck(old(docker.w), docker.w, Previous(plan))
    ensures result.Aborted? ==>
              RemovesAmong(old(docker.w), docker.w, ro.candidates) && StartsOnly(ro, result.stops, old(docker.w), docker.w)
    ensures result.Committed? ==> RemovesAmong(old(docker.w), docker.w, ro.candidates + Previous(plan))
    ensures Calm(old(docker.w), docker.w) && Unhindered(ro, Previous(plan), old(docker.w)) ==>
              EndsCalmly(ro, result, old(docker.w), docker.w)
    ensures result.Aborted? && result.rollbackCompleted ==>
              && result.liveRuntimePreserved && Absent(ro.candidates, docker.w.containers)
              && AllStartedAgain(ro, result.stops, Previous(plan), old(docker.w), docker.w)
    ensures result.Aborted? && ro.hasVolume && Resumable(old(docker.w)) ==> Survives(ro, old(docker.w), docker.w)
    ensures result.Aborted? && result.rollbackCompleted && ro.hasVolume && Resumable(old(docker.w)) ==>
              !docker.w.log.dirty
    ensures result.Committed? ==>
              && AllPassed(old(docker.w), docker.w, ro.candidates) && AllPlaced(ro, old(docker.w), docker.w)
              && Clear(ro, true, docker.w.containers)
              && GoneOrNamed(Previous(plan), result.left, docker.w.containers)
  {
    var previous := plan.stopBeforeStart;
    var r, shutdowns := PrepareStopFirst(docker, ro, plan.resetCandidates, previous);
    ghost var w1 := docker.w;
    PreparedIsRolloutStep(ro, previous, old(docker.w), w1);
    if r.Failed? {
      result := AbortPreparation(docker, ro, plan, shutdowns);
      RolloutStepTransitive(ro, true, previous, old(docker.w), w1, docker.w);
      PassedCheckExtends(old(docker.w), w1, docker.w, previous);
      RemovalsAddUp(old(docker.w), w1, docker.w, ro.candidates);
      return;
    }
    PreparedStaysUnhindered(ro, previous, old(docker.w), w1);
    result := StartStoppedFirst(docker, ro, plan, shutdowns);
    RolloutStepTransitive(ro, true, previous, old(docker.w), w1, docker.w);
    PreparedKeepsResumable(ro, result, old(docker.w), w1, docker.w);
    PreparedKeepsOutcome(ro, result, previous, old(docker.w), w1, docker.w);
  }

  lemma PreparedStaysUnhindered(ro: Rollout, previous: seq<string>, w: World, w': World)
    requires Prepared(w, w') && RemovesAmong(w, w', ro.candidates)
    requires forall n :: n in previous ==> n !in ro.candidates
    ensures Calm(w, w') && Unhindered(ro, previous, w) ==> Unhindered(ro, previous, w')
  {
    if Calm(w, w') && Unhindered(ro, previous, w) {
      forall n | n in previous ensures n in w'.containers {
        assert !RemovedBetween(w, w', n);
      }
    }
  }

  lemma PreparedKeepsOutcome(ro: Rollout, result: Result, previous: seq<string>, a: World, b: World, c: World)
    requires Prepared(a, b) && Traced(b, c) && b.log.starts <= c.log.starts && RemovesAmong(a, b, ro.candidates)
    ensures Calm(a, c) ==> Calm(a, b) && Calm(b, c)
    ensures RemovesAmong(b, c, ro.candidates) ==> RemovesAmong(a, c, ro.candidates)
    ensures RemovesAmong(b, c, ro.candidates + previous) ==> RemovesAmong(a, c, ro.candidates + previous)
    ensures EndsCalmly(ro, result, b, c) ==> EndsCalmly(ro, result, a, c)
    ensures AllPlaced(ro, b, c) ==> AllPlaced(ro, a, c)
  {
    EndsCalmlyFrom(ro, result, a, b, c);
    if RemovesAmong(b, c, ro.candidates) { RemovalsAddUp(a, b, c, ro.candidates); }
    if RemovesAmong(b, c, ro.candidates + previous) { RemovalsAddUp(a, b, c, ro.candidates + previous); }
    if AllPlaced(ro, b, c) {
      forall n | n in ro.candidates ensures Placed(ro, a, c, n) {
        assert Placed(ro, b, c, n);
      }
    }
  }

  /** What holds of the run from a prepared host on holds of the whole run. */
  lemma PreparedKeepsResumable(ro: Rollout, result: Result, a: World, b: World, c: World)
    requires !result.Halted? && Prepared(a, b)
    requires b.log.ready <= c.log.ready && b.log.starts <= c.log.starts
    ensures PassedCheck(b, c, Previous(result.plan)) ==> PassedCheck(a, c, Previous(result.plan))
    ensures AllPassed(b, c, ro.candidates) ==> AllPassed(a, c, ro.candidates)
    ensures Survives(ro, b, c) ==> Survives(ro, a, c)
    ensures result.Aborted? && AllStartedAgain(ro, result.stops, Previous(result.plan), b, c) ==>
              AllStartedAgain(ro, result.stops, Previous(result.plan), a, c)
  {
    PassedCheckExtends(a, b, c, Previous(result.plan));
    FlagsExtend(ro, result.plan, a, b, c);
    if result.Aborted? && AllStartedAgain(ro, result.stops, Previous(result.plan), b, c) {
      AllStartedExtends(ro, result.stops, Previous(result.plan), a, b, c, c);
    }
  }

  ghost predicate SomeGivenUp(ro: Rollout, w: World, w': World) {
    exists n :: n in ro.candidates && GaveUpOn(w, w', n)
  }

  /** How a stop-first rollout ends when nothing goes wrong but that a check gives up: it commits and leaves
      nothing behind, or a candidate was given up on and the previous version is back. */
  ghost predicate EndsCalmly(ro: Rollout, result: Result, w: World, w': World) {
    && (result.Aborted? ==> SomeGivenUp(ro, w, w') && RolledBackCalmly(ro, result, w, w'))
    && (result.Committed? ==> result.left == [] && (ro.hasVolume ==> w'.slot.None?))
  }

  lemma EndsCalmlyFrom(ro: Rollout, result: Result, a: World, b: World, c: World)
    requires a.log.starts <= b.log.starts <= c.log.starts && a.log.unready <= b.log.unready <= c.log.unready
    ensures EndsCalmly(ro, result, b, c) ==> EndsCalmly(ro, result, a, c)
    ensures SomeGivenUp(ro, a, b) && RolledBackCalmly(ro, result, b, c) ==> EndsCalmly(ro, result, a, c)
  {
    if RolledBackCalmly(ro, result, b, c) {
      RolledBackFrom(ro, result.stops, Previous(result.plan), a, b, c, result.liveRuntimePreserved,
                     result.rollbackCompleted);
    }
    if n :| n in ro.candidates && GaveUpOn(b, c, n) { assert GaveUpOn(a, c, n); }
    if n :| n in ro.candidates && GaveUpOn(a, b, n) { assert GaveUpOn(a, c, n); }
  }

  lemma StaysUnhindered(ro: Rollout, stopFirst: bool, previous: seq<string>, w: World, w': World)
    requires CandidatesOnly(ro, stopFirst, w, w') && RemovesAmong(w, w', ro.candidates) && Calm(w, w')
    requires forall n :: n in previous ==> n !in ro.candidates
    ensures Unhindered(ro, previous, w) ==> Unhindered(ro, previous, w')
  {
    if Unhindered(ro, previous, w) {
      forall n | n in previous ensures n in w'.containers {
        assert !RemovedBetween(w, w', n);
      }
      forall n | ro.hasVolume && Running(w'.containers, n) && w'.containers[n].mounts
        ensures n in Names(previous + ro.candidates)
      {
        assert n !in ro.candidates ==> Running(w.containers, n);
      }
    }
  }

  lemma PlacedStays(ro: Rollout, a: World, b: World, c: World, names: seq<string>)
    requires AllPlaced(ro, a, b) && TouchesAmong(b, c, names) && forall n :: n in names ==> n !in ro.candidates
    ensures AllPlaced(ro, a, c)
  {
    forall n | n in ro.candidates ensures Placed(ro, a, c, n) {
      assert n !in names;
    }
  }

  /** From the host a stop-first rollout prepared to the end. */
  method StartStoppedFirst(docker: Docker, ro: Rollout, plan: Plan, shutdowns: seq<Report>) returns (result: Result)
    requires ValidRollout(ro) && plan.StopFirst? && Clear(ro, true, docker.w.containers)
    requires forall n :: n in Previous(plan) ==> n !in ro.candidates
    requires StoppedBy(shutdowns, Previous(plan)) && NoneRunning(docker.w.containers, Names(Previous(plan)))
    requires ro.hasVolume ==> docker.w.slot.Some?
    modifies docker
    ensures RolloutStep(ro, true, Previous(plan), old(docker.w), docker.w) && RestoresSlot(old(docker.w), docker.w)
    ensures !result.Halted? && result.plan == plan
    ensures result.Aborted? && result.liveRuntimePreserved ==> PassedCheck(old(docker.w), docker.w, Previous(plan))
    ensures result.Aborted? ==>
              RemovesAmong(old(docker.w), docker.w, ro.candidates) && StartsOnly(ro, result.stops, old(docker.w), docker.w)
    ensures result.Committed? ==> RemovesAmong(old(docker.w), docker.w, ro.candidates + Previous(plan))
    ensures Calm(old(docker.w), docker.w) && Unhindered(ro, Previous(plan), old(docker.w)) ==>
              EndsCalmly(ro, result, old(docker.w), docker.w)
    ensures result.Aborted? && result.rollbackCompleted ==>
              && result.liveRuntimePreserved && Absent(ro.candidates, docker.w.containers)
              && AllStartedAgain(ro, result.stops, Previous(plan), old(docker.w), docker.w)
              && (ro.hasVolume && Resumable(old(docker.w)) ==> !docker.w.log.dirty)
    ensures result.Aborted? && ro.hasVolume && Resumable(old(docker.w)) ==> Survives(ro, old(docker.w), docker.w)
    ensures result.Committed? ==>
              && AllPassed(old(docker.w), docker.w, ro.candidates) && AllPlaced(ro, old(docker.w), docker.w)
              && Clear(ro, true, docker.w.containers)
              && GoneOrNamed(Previous(plan), result.left, docker.w.containers)
  {
    var r, adopted := StartCandidates(docker, ro, true, {});
    ghost var w1 := docker.w;
    CandidateStepIsRolloutStep(ro, true, Previous(plan), old(docker.w), w1);
    CandidatesOnlyKeepsClear(ro, true, old(docker.w), w1);
    StaysStopped(ro, true, old(docker.w), w1, Previous(plan));
    if Calm(old(docker.w), w1) { StaysUnhindered(ro, true, Previous(plan), old(docker.w), w1); }
    if r.Failed? {
      result := DiscardAndAbandon(docker, ro, plan, shutdowns);
      AbandonedFrom(ro, result, old(docker.w), w1, docker.w);
      RemovalsAddUp(old(docker.w), w1, docker.w, ro.candidates);
      EndsCalmlyFrom(ro, result, old(docker.w), w1, docker.w);
      return;
    }
    result := CommitStopFirst(docker, ro, plan);
    RolloutStepTransitive(ro, true, Previous(plan), old(docker.w), w1, docker.w);
    FlagsKeep(ro, old(docker.w), w1, docker.w);
    PlacedStays(ro, old(docker.w), w1, docker.w, Previous(plan));
    RemovalsAddUp(old(docker.w), w1, docker.w, ro.candidates + Previous(plan));
  }

  /** Past the readiness checks: the stopped previous containers go, and the snapshot. */
  method CommitStopFirst(docker: Docker, ro: Rollout, plan: Plan) returns (result: Result)
    requires plan.StopFirst? && Clear(ro, true, docker.w.containers)
    modifies docker
    ensures RolloutStep(ro, true, Previous(plan), old(docker.w), docker.w)
    ensures docker.w.log.restores == old(docker.w).log.restores
    ensures result.Committed? && result.plan == plan && result.retired == [] && Clear(ro, true, docker.w.containers)
    ensures GoneOrNamed(plan.stopBeforeStart, result.left, docker.w.containers)
    ensures TouchesAmong(old(docker.w), docker.w, plan.stopBeforeStart)
    ensures RemovesAmong(old(docker.w), docker.w, plan.stopBeforeStart)
    ensures Calm(old(docker.w), docker.w) && NoneRunning(old(docker.w).containers, Names(plan.stopBeforeStart)) ==>
              result.left == [] && (ro.hasVolume ==> docker.w.slot.None?)
  {
    var reports, left := Retire(docker, [], plan.stopBeforeStart, ro.gracePeriodSeconds);
    assert [] + plan.stopBeforeStart == plan.stopBeforeStart;
    EvolveKeepsClear(ro, true, old(docker.w), docker.w);
    if ro.hasVolume {
      ghost var w1 := docker.w;
      ghost var before := docker.DeleteSnapshot();
      EvolveKeepsClear(ro, true, w1, before);
    }
    return Committed(plan, [], left);
  }

  lemma EvolveKeepsClear(ro: Rollout, stopFirst: bool, w: World, w': World)
    requires Evolve(w, w') && Clear(ro, stopFirst, w.containers)
    ensures Clear(ro, stopFirst, w'.containers)
  {
    EvolveIsCandidatesOnly(ro, stopFirst, w, w');
    CandidatesOnlyKeepsClear(ro, stopFirst, w, w');
  }

  lemma FlagsKeep(ro: Rollout, a: World, b: World, c: World)
    requires a.log.ready <= b.log.ready <= c.log.ready
    ensures AllPassed(a, b, ro.candidates) ==> AllPassed(a, c, ro.candidates)
  {
    if AllPassed(a, b, ro.candidates) {
      forall n | n in ro.candidates ensures PassedCheck(a, c, [n]) {
        PassedCheckExtends(a, b, c, [n]);
      }
    }
  }

  /** The previous containers are there, and but for the candidates nothing else uses the volume. */
  ghost predicate Unhindered(ro: Rollout, previous: seq<string>, w: World) {
    && (forall n :: n in previous ==> n in w.containers)
    && (ro.hasVolume ==> ConsumersWithin(w.containers, Names(previous + ro.candidates)))
  }

  /** What a failed stop-first rollout leaves when nothing but a candidate fails: the previous containers as
      they were, no candidate, and no snapshot. */
  ghost predicate RolledBackCalmly(ro: Rollout, result: Result, w: World, w': World) {
    && result.Aborted?
    && RolledBack(ro, result.stops, Previous(result.plan), w, w', result.liveRuntimePreserved, result.rollbackCompleted)
    && Absent(ro.candidates, w'.containers) && (ro.hasVolume ==> w'.slot.None?)
  }

  lemma ReadyOnceDiscarded(ro: Rollout, previous: seq<string>, shutdowns: seq<Report>, w: World, w': World)
    requires Tidied(w, w', ro.candidates) && (ro.hasVolume ==> w.slot.Some?)
    requires StoppedBy(shutdowns, previous) && NoneRunning(w.containers, Names(previous))
    requires forall n :: n in previous ==> n !in ro.candidates
    ensures Calm(w, w') && Unhindered(ro, previous, w) && Absent(ro.candidates, w'.containers) ==>
              ReadyToRollBack(ro, previous, shutdowns, w')
  {
    if Calm(w, w') && Unhindered(ro, previous, w) && Absent(ro.candidates, w'.containers) {
      forall n | n in previous ensures n in w'.containers && !Running(w'.containers, n) {
        assert n in Names(previous) && !RemovedBetween(w, w', n);
      }
      forall n | Running(w'.containers, n) && ro.hasVolume ensures !w'.containers[n].mounts {
        assert Running(w.containers, n);
        assert n in Names(previous) || n in ro.candidates || !w.containers[n].mounts;
      }
    }
  }

  lemma RolledBackFrom(ro: Rollout, shutdowns: seq<Report>, previous: seq<string>, a: World, b: World, c: World,
                       preserved: bool, completed: bool)
    requires a.log.starts <= b.log.starts <= c.log.starts && a.log.unready <= b.log.unready
    ensures RolledBack(ro, shutdowns, previous, b, c, preserved, completed) ==>
              RolledBack(ro, shutdowns, previous, a, c, preserved, completed)
  {
    if AllStartedAgain(ro, shutdowns, previous, b, c) {
      AllStartedExtends(ro, shutdowns, previous, a, b, c, c);
    }
  }

  /** The catch block of a stop-first rollout whose candidates failed. */
  method DiscardAndAbandon(docker: Docker, ro: Rollout, plan: Plan, shutdowns: seq<Report>) returns (result: Result)
    requires plan.StopFirst? && forall n :: n in Previous(plan) ==> n !in ro.candidates
    requires StoppedBy(shutdowns, Previous(plan)) && NoneRunning(docker.w.containers, Names(Previous(plan)))
    requires ro.hasVolume ==> docker.w.slot.Some?
    modifies docker
    ensures RolloutStep(ro, true, Previous(plan), old(docker.w), docker.w)
    ensures RestoresSlot(old(docker.w), docker.w)
    ensures result.Aborted? && result.plan == plan && result.stops == shutdowns
    ensures result.liveRuntimePreserved ==> PassedCheck(old(docker.w), docker.w, Previous(plan))
    ensures result.rollbackCompleted ==>
              && result.liveRuntimePreserved && Absent(ro.candidates, docker.w.containers)
              && AllStartedAgain(ro, shutdowns, Previous(plan), old(docker.w), docker.w)
    ensures RemovesAmong(old(docker.w), docker.w, ro.candidates)
    ensures Calm(old(docker.w), docker.w) && Unhindered(ro, Previous(plan), old(docker.w)) ==>
              RolledBackCalmly(ro, result, old(docker.w), docker.w)
    ensures ro.hasVolume && Resumable(old(docker.w)) ==> Kept(old(docker.w), docker.w)
    ensures ro.hasVolume && result.rollbackCompleted && Resumable(old(docker.w)) ==> !docker.w.log.dirty
    ensures OnlyRestarts(ro, old(docker.w), docker.w) && StartsOnly(ro, shutdowns, old(docker.w), docker.w)
  {
    var stopped := DiscardFailedCandidates(docker, ro.candidates, ro.gracePeriodSeconds);
    ghost var w1 := docker.w;
    EvolveIsRolloutStep(ro, true, Previous(plan), old(docker.w), w1);
    if Resumable(old(docker.w)) { EvolveKeepsResumable(old(docker.w), w1); }
    var preserved, completed := AbandonStopFirst(docker, ro, Previous(plan), shutdowns, ro.hasVolume, stopped);
    RolloutStepTransitive(ro, true, Previous(plan), old(docker.w), w1, docker.w);
    PassedCheckExtends(old(docker.w), w1, docker.w, Previous(plan));
    EvolveKeepsStopped(old(docker.w), w1, Names(Previous(plan)));
    if completed {
      AllStartedExtends(ro, shutdowns, Previous(plan), old(docker.w), w1, docker.w, docker.w);
    }
    ReadyOnceDiscarded(ro, Previous(plan), shutdowns, old(docker.w), w1);
    RolledBackFrom(ro, shutdowns, Previous(plan), old(docker.w), w1, docker.w, preserved, completed);
    return Aborted(plan, shutdowns, preserved, completed);
  }

  /** Candidates in names whose slot was found running a live replica. */
  function LiveReplicas(ro: Rollout, current: seq<Listed>): set<string> {
    set l | l in current && l.name in ro.candidates && l.c.running && l.name in ro.recordedLive :: l.name
  }

  function Without(names: seq<string>, dropped: set<string>): seq<string> {
    if names == [] then []
    else (if names[0] in dropped then [] else [names[0]]) + Without(names[1..], dropped)
  }

  lemma {:induction false} WithoutMember(names: seq<string>, dropped: set<string>, n: string)
    ensures n in Without(names, dropped) <==> n in names && n !in dropped
  {
    if names != [] {
      WithoutMember(names[1..], dropped, n);
      assert names == [names[0]] + names[1..];
    }
  }

  /** The containers a failed rollout may claim still serve: what it was to replace, and the live
      replicas it adopted. */
  ghost predicate MayStillServe(ro: Rollout, plan: Plan, n: string) {
    match plan
    case StopFirst(_, _, previous) => n in previous
    case CandidateFirst(_, retired) => n in retired || (n in ro.candidates && n in ro.recordedLive)
  }

  ghost predicate StillServes(ro: Rollout, plan: Plan, w: World, w': World) {
    exists n :: MayStillServe(ro, plan, n) && PassedCheck(w, w', [n])
  }

  lemma ReplicasJudged(ro: Rollout, plan: Plan, adopted: set<string>, adoptedNames: seq<string>, a: World, b: World,
                       c: World, preserved: bool)
    requires plan.CandidateFirst? && forall n :: n in adopted ==> n in ro.recordedLive
    requires forall n :: n in adoptedNames <==> n in ro.candidates && n in adopted
    requires a.log.ready == b.log.ready && a.log.unready == b.log.unready
    requires if preserved then PassedCheck(b, c, adoptedNames + plan.retireAfterReady)
             else forall n :: n in adoptedNames + plan.retireAfterReady ==> GaveUpOn(b, c, n)
    ensures if preserved then StillServes(ro, plan, a, c) else NoReplicaServes(ro, plan, adopted, a, c)
  {
    if preserved {
      var i :| |b.log.ready| <= i < |c.log.ready| && c.log.ready[i] in adoptedNames + plan.retireAfterReady;
      var n := c.log.ready[i];
      assert MayStillServe(ro, plan, n) && c.log.ready[i] in [n];
      assert PassedCheck(a, c, [n]);
    } else {
      forall n | n in adoptedNames || n in plan.retireAfterReady ensures GaveUpOn(a, c, n) {
        assert n in adoptedNames + plan.retireAfterReady;
      }
    }
  }

  /** Every container a failed candidate-first rollout leaves in place was given up on. */
  ghost predicate NoReplicaServes(ro: Rollout, plan: Plan, adopted: set<string>, w: World, w': World)
    requires plan.CandidateFirst?
  {
    && (forall n :: n in plan.retireAfterReady ==> GaveUpOn(w, w', n))
    && (forall n :: n in ro.candidates && n in adopted ==> GaveUpOn(w, w', n))
  }

  /** The catch block of a candidate-first rollout: the candidates this attempt started go. */
  method AbandonCandidateFirst(docker: Docker, ro: Rollout, plan: Plan, adopted: set<string>) returns (result: Result)
    requires plan.CandidateFirst? && forall n :: n in adopted ==> n in ro.recordedLive
    modifies docker
    ensures Evolve(old(docker.w), docker.w) && RolloutStep(ro, false, [], old(docker.w), docker.w)
    ensures result.Aborted? && result.plan == plan && !result.rollbackCompleted
    ensures result.liveRuntimePreserved ==> StillServes(ro, plan, old(docker.w), docker.w)
    ensures forall n :: RemovedBetween(old(docker.w), docker.w, n) ==> n in ro.candidates && n !in adopted
    ensures !result.liveRuntimePreserved ==> NoReplicaServes(ro, plan, adopted, old(docker.w), docker.w)
    ensures Calm(old(docker.w), docker.w) ==> forall n :: n in ro.candidates && n in docker.w.containers ==> n in adopted
  {
    var _ := DiscardFailedCandidates(docker, Without(ro.candidates, adopted), ro.gracePeriodSeconds);
    ghost var w1 := docker.w;
    forall n ensures n in Without(ro.candidates, adopted) <==> n in ro.candidates && n !in adopted {
      WithoutMember(ro.candidates, adopted, n);
    }
    var adoptedNames := Without(ro.candidates, (set n | n in ro.candidates) - adopted);
    var preserved := AnyReplicaRuns(docker, adoptedNames + plan.retireAfterReady);
    EvolveTransitive(old(docker.w), w1, docker.w);
    EvolveIsRolloutStep(ro, false, [], old(docker.w), docker.w);
    forall n ensures n in adoptedNames <==> n in ro.candidates && n in adopted {
      WithoutMember(ro.candidates, (set n | n in ro.candidates) - adopted, n);
    }
    ReplicasJudged(ro, plan, adopted, adoptedNames, old(docker.w), w1, docker.w, preserved);
    return Aborted(plan, [], preserved, false);
  }

  /** A candidate's slot was found running a container that is recorded as live. */
  ghost predicate FoundLive(ro: Rollout, current: seq<Listed>, n: string) {
    && n in ro.candidates && n in ro.recordedLive
    && exists l :: l in current && l.name == n && l.c.running
  }

  /** How a candidate-first rollout ends when nothing goes wrong but that a check gives up: it commits and
      leaves nothing behind, or a candidate was given up on. Then only live replicas that already ran are
      left of the candidates, none of those is removed but the ones this attempt had to start itself, and
      if nothing is reported as preserved, every container left in place was given up on. */
  ghost predicate EndsBesides(ro: Rollout, current: seq<Listed>, result: Result, w: World, w': World) {
    && !result.Halted? && result.plan.CandidateFirst?
    && (result.Committed? ==> AllRetired(result.retired, result.left))
    && (result.Aborted? ==>
          && SomeGivenUp(ro, w, w')
          && (forall n :: n in ro.candidates && n in w'.containers ==>
                FoundLive(ro, current, n) && Running(w.containers, n))
          && (forall n :: FoundLive(ro, current, n) && RemovedBetween(w, w', n) ==> StartedBetween(w, w', n))
          && (!result.liveRuntimePreserved ==>
                && (forall n :: n in result.plan.retireAfterReady ==> GaveUpOn(w, w', n))
                && (forall n :: n in ro.candidates && n in w'.containers ==> GaveUpOn(w, w', n))))
  }

  lemma EndsBesidesFrom(ro: Rollout, current: seq<Listed>, result: Result, a: World, b: World, c: World,
                        adopted: set<string>)
    requires result.Aborted? && result.plan.CandidateFirst? && adopted <= LiveReplicas(ro, current)
    requires Traced(a, b) && Traced(b, c) && a.log.starts <= b.log.starts <= c.log.starts
    requires RemovesAmong(a, b, ro.candidates)
    requires Calm(a, b) ==> AdoptedRunning(ro, a, b, LiveReplicas(ro, current), adopted) && SomeGivenUp(ro, a, b)
    requires forall n :: RemovedBetween(b, c, n) ==> n in ro.candidates && n !in adopted
    requires !result.liveRuntimePreserved ==> NoReplicaServes(ro, result.plan, adopted, b, c)
    requires Calm(b, c) ==> forall n :: n in ro.candidates && n in c.containers ==> n in adopted
    ensures RemovesAmong(a, c, ro.candidates)
    ensures Calm(a, c) ==> EndsBesides(ro, current, result, a, c)
  {
    RemovalsAddUp(a, b, c, ro.candidates);
    if Calm(a, c) {
      forall n | FoundLive(ro, current, n) && RemovedBetween(a, c, n) ensures StartedBetween(a, c, n) {
        assert n in LiveReplicas(ro, current);
        assert RemovedBetween(a, b, n) || RemovedBetween(b, c, n);
        StartedBetweenExtends(a, b, c, n);
      }
      var n :| n in ro.candidates && GaveUpOn(a, b, n);
      assert GaveUpOn(a, c, n);
    }
  }

  method RolloutCandidateFirst(docker: Docker, ro: Rollout, current: seq<Listed>, plan: Plan) returns (result: Result)
    requires ValidRollout(ro) && plan.CandidateFirst?
    requires ro.candidates != [] ==> Clear(ro, false, docker.w.containers)
    requires forall n :: n in plan.retireAfterReady ==> n !in ro.candidates
    modifies docker
    ensures RolloutStep(ro, false, [], old(docker.w), docker.w)
    ensures result.Aborted? ==> RemovesAmong(old(docker.w), docker.w, ro.candidates)
    ensures result.Committed? ==> RemovesAmong(old(docker.w), docker.w, ro.candidates + plan.retireAfterReady)
    ensures Calm(old(docker.w), docker.w) ==> EndsBesides(ro, current, result, old(docker.w), docker.w)
    ensures docker.w.log.restores == old(docker.w).log.restores && docker.w.slot == old(docker.w).slot
    ensures !result.Halted? && result.plan == plan
    ensures result.Aborted? ==> !result.rollbackCompleted && ro.candidates != []
    ensures result.Aborted? && result.liveRuntimePreserved ==>
              StillServes(ro, plan, old(docker.w), docker.w)
    ensures result.Committed? ==>
              && AllPassed(old(docker.w), docker.w, ro.candidates) && AllPlaced(ro, old(docker.w), docker.w)
    ensures result.Committed? ==>
              && TrueReports(result.retired, plan.retireAfterReady, docker.w.containers)
              && GoneOrNamed(StoppedNames(result.retired), result.left, docker.w.containers)
    ensures old(docker.w).slot.Some? && Resumable(old(docker.w)) ==> Survives(ro, old(docker.w), docker.w)
  {
    var r, adopted := StartCandidates(docker, ro, false, LiveReplicas(ro, current));
    ghost var w1 := docker.w;
    CandidateStepIsRolloutStep(ro, false, [], old(docker.w), w1);
    if r.Ok? {
      var reports, left := Retire(docker, plan.retireAfterReady, [], ro.gracePeriodSeconds);
      EvolveIsRolloutStep(ro, false, [], w1, docker.w);
      if Resumable(w1) { EvolveKeepsResumable(w1, docker.w); }
      RolloutStepTransitive(ro, false, [], old(docker.w), w1, docker.w);
      forall n | n in ro.candidates ensures PassedCheck(old(docker.w), docker.w, [n]) {
        PassedCheckExtends(old(docker.w), w1, docker.w, [n]);
      }
      PlacedStays(ro, old(docker.w), w1, docker.w, plan.retireAfterReady + []);
      assert plan.retireAfterReady + [] == plan.retireAfterReady;
      RemovalsAddUp(old(docker.w), w1, docker.w, ro.candidates + plan.retireAfterReady);
      return Committed(plan, reports, left);
    }
    result := AbandonCandidateFirst(docker, ro, plan, adopted);
    EndsBesidesFrom(ro, current, result, old(docker.w), w1, docker.w, adopted);
    if Resumable(w1) { EvolveKeepsResumable(w1, docker.w); }
    RolloutStepTransitive(ro, false, [], old(docker.w), w1, docker.w);
    FlagsExtend(ro, plan, old(docker.w), w1, docker.w);
  }

  // ----- From the survey to the plan

  ghost function PlanFor(ro: Rollout, current: seq<Listed>): Plan {
    PlanWorkerRollout(ro.policy, ro.hasVolume, ro.deploymentId, ro.candidates, AsExisting(ro, current))
  }

  lemma PlannedNames(ro: Rollout, current: seq<Listed>, n: string)
    requires PlanFor(ro, current).StopFirst?
    ensures n in PlanFor(ro, current).stopBeforeStart ==> n !in ro.candidates
    ensures n in PlanFor(ro, current).resetCandidates ==> n in ro.candidates
    ensures (exists i :: 0 <= i < |current| && current[i].name == n) ==>
              n in PlanFor(ro, current).stopBeforeStart + PlanFor(ro, current).resetCandidates
  {
    var existing := AsExisting(ro, current);
    PlanAccountsForAll(ro.policy, ro.hasVolume, ro.deploymentId, ro.candidates, existing, n);
    if i :| 0 <= i < |current| && current[i].name == n {
      assert existing[i] in existing && existing[i].name == n;
    }
  }

  lemma SurveyedIsPlanned(ro: Rollout, current: seq<Listed>, containers: map<string, Container>)
    requires Surveyed(ro, current, containers) && OwnsCandidateNames(ro, containers)
    requires PlanFor(ro, current).StopFirst?
    ensures var plan := PlanFor(ro, current);
            && (forall n :: n in plan.stopBeforeStart ==> n !in ro.candidates)
            && (forall n :: n in plan.resetCandidates ==> n in ro.candidates)
            && (forall n :: n in ro.candidates && n in containers ==> n in plan.resetCandidates)
            && (forall n :: Running(containers, n) && containers[n].service ==>
                  n in plan.stopBeforeStart || n in ro.candidates)
  {
    forall n
      ensures n in PlanFor(ro, current).stopBeforeStart ==> n !in ro.candidates
      ensures n in PlanFor(ro, current).resetCandidates ==> n in ro.candidates
      ensures n in containers && containers[n].service ==>
                n in PlanFor(ro, current).stopBeforeStart + PlanFor(ro, current).resetCandidates
    {
      PlannedNames(ro, current, n);
    }
  }

  lemma PlannedIsUnhindered(ro: Rollout, current: seq<Listed>, w: World)
    requires PlanFor(ro, current).StopFirst? && (ro.hasVolume ==> ConsumersPlanned(current, w.containers))
    ensures StillThere(current, w) ==> Unhindered(ro, PlanFor(ro, current).stopBeforeStart, w)
  {
    var existing, previous := AsExisting(ro, current), PlanFor(ro, current).stopBeforeStart;
    forall n | StillThere(current, w) && n in previous ensures n in w.containers {
      PlanAccountsForAll(ro.policy, ro.hasVolume, ro.deploymentId, ro.candidates, existing, n);
      var e :| e in existing && e.name == n;
      var i :| 0 <= i < |existing| && existing[i] == e;
      assert current[i] in current;
    }
    forall n | ro.hasVolume && Running(w.containers, n) && w.containers[n].mounts
      ensures n in Names(previous + ro.candidates)
    {
      var l :| l in current && l.name == n;
      var i :| 0 <= i < |current| && current[i] == l;
      PlannedNames(ro, current, n);
    }
  }

  /** When the plan lets candidates start first, nothing that runs stands in their way. */
  lemma CandidateFirstIsClear(ro: Rollout, current: seq<Listed>, containers: map<string, Container>)
    requires Surveyed(ro, current, containers) && ro.candidates != []
    requires ro.hasVolume ==> ConsumersPlanned(current, containers)
    requires PlanFor(ro, current).CandidateFirst?
    requires LiveOrCandidates(ro, current)
    ensures Clear(ro, false, containers)
  {
    var existing := AsExisting(ro, current);
    StopFirstIff(ro.policy, ro.hasVolume, ro.deploymentId, ro.candidates, existing);
    forall i | 0 <= i < |current| && current[i].name !in ro.candidates && IsLive(ro, current[i])
      ensures !ro.hasVolume && (ro.policy.NoOverlap? ==> current[i].c.deployment == Some(ro.deploymentId))
    {
      assert existing[i] in existing;
    }
    forall l | l in current && l.name !in ro.candidates ensures !ro.hasVolume {
      var i :| 0 <= i < |current| && current[i] == l;
    }
    forall n | Running(containers, n) && n !in ro.candidates && containers[n].service
      ensures ro.policy.NoOverlap? ==> containers[n].deployment == Some(ro.deploymentId)
    {
      var i :| 0 <= i < |current| && current[i].name == n &&
               current[i].c.deployment == containers[n].deployment && IsLive(ro, current[i]);
    }
  }

  /** A container of the service that is no candidate. */
  ghost predicate OtherPresent(ro: Rollout, containers: map<string, Container>) {
    exists n :: n in containers && n !in ro.candidates && containers[n].service
  }

  /** One that was surveyed and is still there was planned around as live. */
  lemma OtherPresentIsPlanned(ro: Rollout, current: seq<Listed>, containers: map<string, Container>)
    requires Surveyed(ro, current, containers) && LiveOrCandidates(ro, current)
    ensures OtherPresent(ro, containers) ==> AnyLiveOther(AsExisting(ro, current), ro.candidates)
  {
    if n :| n in containers && n !in ro.candidates && containers[n].service {
      var i :| 0 <= i < |current| && current[i].name == n;
      assert current[i] in current;
      assert LiveOther(AsExisting(ro, current)[i], ro.candidates);
    }
  }

  lemma OtherPresentBefore(ro: Rollout, stopFirst: bool, previous: seq<string>, w: World, w': World)
    requires RolloutStep(ro, stopFirst, previous, w, w')
    ensures OtherPresent(ro, w'.containers) ==> OtherPresent(ro, w.containers)
  {
  }

  /** From the survey on: the plan, carried out. */
  method Converge(docker: Docker, ro: Rollout, current: seq<Listed>) returns (result: Result)
    requires ValidRollout(ro) && OwnsCandidateNames(ro, docker.w.containers)
    requires Surveyed(ro, current, docker.w.containers) && LiveOrCandidates(ro, current)
    requires ro.hasVolume ==> ConsumersPlanned(current, docker.w.containers)
    modifies docker
    ensures !result.Halted? && result.plan == PlanFor(ro, current)
    ensures result.Aborted? ==>
              RemovesAmong(old(docker.w), docker.w, ro.candidates) && StartsOnly(ro, result.stops, old(docker.w), docker.w)
    ensures result.Committed? ==> RemovesAmong(old(docker.w), docker.w, ro.candidates + Replaced(result.plan))
    ensures Calm(old(docker.w), docker.w) && StillThere(current, old(docker.w)) ==>
              if result.plan.StopFirst? then EndsCalmly(ro, result, old(docker.w), docker.w)
              else EndsBesides(ro, current, result, old(docker.w), docker.w)
    ensures RolloutStep(ro, result.plan.StopFirst?, Previous(result.plan), old(docker.w), docker.w)
    ensures ro.hasVolume && Resumable(old(docker.w)) && result.Aborted? &&
            (ro.candidates == [] || AnyLiveOther(AsExisting(ro, current), ro.candidates)
             || OtherPresent(ro, docker.w.containers) || old(docker.w).slot.Some?) ==>
              Survives(ro, old(docker.w), docker.w)
    ensures old(docker.w).slot.Some? ==> RestoresSlot(old(docker.w), docker.w)
    ensures result.Aborted? && result.liveRuntimePreserved ==>
              StillServes(ro, result.plan, old(docker.w), docker.w)
    ensures result.Aborted? && result.rollbackCompleted ==>
              && result.plan.StopFirst? && result.liveRuntimePreserved
              && Absent(ro.candidates, docker.w.containers)
              && AllStartedAgain(ro, result.stops, Previous(result.plan), old(docker.w), docker.w)
              && (ro.hasVolume && Resumable(old(docker.w)) ==> !docker.w.log.dirty)
    ensures result.Committed? ==>
              && AllPassed(old(docker.w), docker.w, ro.candidates) && AllPlaced(ro, old(docker.w), docker.w)
              && match result.plan
                 case StopFirst(_, _, previous) =>
                   && Clear(ro, true, docker.w.containers)
                   && GoneOrNamed(previous, result.left, docker.w.containers)
                 case CandidateFirst(_, names) =>
                   && TrueReports(result.retired, names, docker.w.containers)
                   && GoneOrNamed(StoppedNames(result.retired), result.left, docker.w.containers)
  {
    var plan := PlanWorkerRollout(ro.policy, ro.hasVolume, ro.deploymentId, ro.candidates, AsExisting(ro, current));
    OtherPresentIsPlanned(ro, current, docker.w.containers);
    StopFirstIff(ro.policy, ro.hasVolume, ro.deploymentId, ro.candidates, AsExisting(ro, current));
    if plan.StopFirst? {
      SurveyedIsPlanned(ro, current, docker.w.containers);
      PlannedIsUnhindered(ro, current, docker.w);
      result := RolloutStopFirst(docker, ro, plan);
    } else {
      if ro.candidates != [] { CandidateFirstIsClear(ro, current, docker.w.containers); }
      forall n | n in plan.retireAfterReady ensures n !in ro.candidates {
        PlanAccountsForAll(ro.policy, ro.hasVolume, ro.deploymentId, ro.candidates, AsExisting(ro, current), n);
      }
      result := RolloutCandidateFirst(docker, ro, current, plan);
    }
    FlagsExtend(ro, plan, old(docker.w), old(docker.w), docker.w);
    OtherPresentBefore(ro, plan.StopFirst?, Previous(plan), old(docker.w), docker.w);
  }

  /** deployWorkerRuntime, to its end or to wherever it stops. surveyed: the host when the rollout was
      planned, current: what had been found on it. */
  method DeployWorkerRuntime(docker: Docker, ro: Rollout)
    returns (result: Result, ghost surveyed: World, ghost current: seq<Listed>)
    requires ValidRollout(ro) && OwnsCandidateNames(ro, docker.w.containers)
    modifies docker
    // The plan is the planner's, for what was found.
    ensures Evolve(old(docker.w), surveyed)
    ensures !result.Halted? ==> Surveyed(ro, current, surveyed.containers) && result.plan == PlanFor(ro, current)
    // What was found was there, nothing live was removed before, and the planner is told which of it is live.
    ensures SparesLive(ro, old(docker.w), surveyed) && FoundIn(current, old(docker.w)) && LiveOrCandidates(ro, current)
    ensures PlannedAs(ro, current, AsExisting(ro, current))
    // Every start the run made was safe: see SafeCandidateStart and SafeRestart.
    ensures result.Halted? ==> Evolve(old(docker.w), docker.w)
    ensures !result.Halted? ==>
              RolloutStep(ro, result.plan.StopFirst?, Previous(result.plan), old(docker.w), docker.w)
    // A failed run removes nothing it planned around but candidates, and unless something goes wrong it fails
    // only because a candidate was given up on, leaves the previous version as it found it, and says so; a
    // run that commits leaves nothing behind.
    ensures result.Aborted? ==>
              RemovesAmong(surveyed, docker.w, ro.candidates) && StartsOnly(ro, result.stops, old(docker.w), docker.w)
    ensures result.Committed? ==> RemovesAmong(surveyed, docker.w, ro.candidates + Replaced(result.plan))
    ensures Calm(old(docker.w), docker.w) ==>
              match result
              case Halted => ro.hasVolume && ForeignConsumer(old(docker.w).containers)
              case _ => if result.plan.StopFirst? then EndsCalmly(ro, result, old(docker.w), docker.w)
                        else EndsBesides(ro, current, result, surveyed, docker.w)
    // A volume's earlier contents outlive a failed run that found something live to replace, as any
    // container outside the candidate slots is that is still there at the end, or that found a snapshot
    // of an earlier attempt.
    ensures ro.hasVolume && Resumable(old(docker.w)) && !result.Committed? &&
            (result.Halted? || ro.candidates == [] || AnyLiveOther(AsExisting(ro, current), ro.candidates)
             || OtherPresent(ro, docker.w.containers) || old(docker.w).slot.Some?) ==>
              Survives(ro, old(docker.w), docker.w)
    ensures old(docker.w).slot.Some? ==> RestoresSlot(old(docker.w), docker.w)
    // The flags are true of what the run observed.
    ensures result.Aborted? && result.liveRuntimePreserved ==>
              StillServes(ro, result.plan, old(docker.w), docker.w)
    ensures result.Aborted? && result.rollbackCompleted ==>
              && result.plan.StopFirst? && result.liveRuntimePreserved
              && Absent(ro.candidates, docker.w.containers)
              && AllStartedAgain(ro, result.stops, Previous(result.plan), old(docker.w), docker.w)
              && (ro.hasVolume && Resumable(old(docker.w)) ==> !docker.w.log.dirty)
    // Success: every candidate passed its check, and what it replaced is gone or named in a report.
    ensures result.Committed? ==>
              && AllPassed(old(docker.w), docker.w, ro.candidates) && AllPlaced(ro, old(docker.w), docker.w)
              && match result.plan
                 case StopFirst(_, _, previous) =>
                   && Clear(ro, true, docker.w.containers)
                   && GoneOrNamed(previous, result.left, docker.w.containers)
                 case CandidateFirst(_, names) =>
                   && TrueReports(result.retired, names, docker.w.containers)
                   && GoneOrNamed(StoppedNames(result.retired), result.left, docker.w.containers)
  {
    var found := Survey(docker, ro);
    surveyed, current := docker.w, [];
    if Resumable(old(docker.w)) { EvolveKeepsResumable(old(docker.w), surveyed); }
    if found.Failed? {
      return Halted, surveyed, current;
    }
    current := found.value;
    result := Converge(docker, ro, found.value);
    SurveyedThenConverged(ro, result, old(docker.w), surveyed, docker.w);
  }

  /** What holds of the run from the survey on holds of the whole run. */
  lemma SurveyedThenConverged(ro: Rollout, result: Result, a: World, b: World, c: World)
    requires !result.Halted? && Evolve(a, b)
    requires RolloutStep(ro, result.plan.StopFirst?, Previous(result.plan), b, c)
    ensures RolloutStep(ro, result.plan.StopFirst?, Previous(result.plan), a, c)
    ensures StillServes(ro, result.plan, b, c) ==> StillServes(ro, result.plan, a, c)
    ensures AllPassed(b, c, ro.candidates) ==> AllPassed(a, c, ro.candidates)
    ensures AllPlaced(ro, b, c) ==> AllPlaced(ro, a, c)
    ensures result.Aborted? && AllStartedAgain(ro, result.stops, Previous(result.plan), b, c) ==>
              AllStartedAgain(ro, result.stops, Previous(result.plan), a, c)
    ensures Survives(ro, b, c) ==> Survives(ro, a, c)
    ensures RestoresSlot(b, c) ==> RestoresSlot(a, c)
    ensures Calm(a, c) ==> Calm(a, b) && Calm(b, c)
    ensures EndsCalmly(ro, result, b, c) ==> EndsCalmly(ro, result, a, c)
  {
    EvolveIsRolloutStep(ro, result.plan.StopFirst?, Previous(result.plan), a, b);
    RolloutStepTransitive(ro, result.plan.StopFirst?, Previous(result.plan), a, b, c);
    FlagsExtend(ro, result.plan, a, b, c);
    if result.Aborted? && AllStartedAgain(ro, result.stops, Previous(result.plan), b, c) {
      AllStartedExtends(ro, result.stops, Previous(result.plan), a, b, c, c);
    }
    EndsCalmlyFrom(ro, result, a, b, c);
    PlacedFrom(ro, a, b, c);
  }

  lemma PlacedFrom(ro: Rollout, a: World, b: World, c: World)
    requires Evolve(a, b)
    ensures AllPlaced(ro, b, c) ==> AllPlaced(ro, a, c)
  {
    if AllPlaced(ro, b, c) {
      forall n | n in ro.candidates ensures Placed(ro, a, c, n) {
        assert Placed(ro, b, c, n);
      }
    }
  }

  lemma FlagsExtend(ro: Rollout, plan: Plan, a: World, b: World, c: World)
    requires a.log.ready <= b.log.ready <= c.log.ready
    ensures StillServes(ro, plan, b, c) ==> StillServes(ro, plan, a, c)
    ensures plan.StopFirst? && PassedCheck(b, c, Previous(plan)) ==> StillServes(ro, plan, a, c)
    ensures AllPassed(b, c, ro.candidates) ==> AllPassed(a, c, ro.candidates)
  {
    if StillServes(ro, plan, b, c) {
      var n :| MayStillServe(ro, plan, n) && PassedCheck(b, c, [n]);
      PassedCheckExtends(a, b, c, [n]);
    }
    if plan.StopFirst? && PassedCheck(b, c, Previous(plan)) {
      var i :| |b.log.ready| <= i < |c.log.ready| && c.log.ready[i] in Previous(plan);
      var n := c.log.ready[i];
      assert MayStillServe(ro, plan, n) && c.log.ready[i] in [n];
      assert PassedCheck(a, c, [n]);
    }
    if AllPassed(b, c, ro.candidates) {
      forall n | n in ro.candidates ensures PassedCheck(a, c, [n]) {
        PassedCheckExtends(a, b, c, [n]);
      }
    }
  }

  // ----- What it comes to

  /** A container of the service that runs another version than the one being rolled out. */
  ghost predicate OtherVersionRuns(ro: Rollout, containers: map<string, Container>, n: string) {
    Running(containers, n) && containers[n].service && containers[n].deployment != Some(ro.deploymentId)
  }

  /** Under no_overlap, whatever fails and wherever the run stops, no candidate starts while another
      version runs, and no other version starts again while a candidate runs. */
  lemma NoOverlapEver(ro: Rollout, stopFirst: bool, previous: seq<string>, w: World, w': World, k: nat)
    requires RolloutStep(ro, stopFirst, previous, w, w') && ro.policy.NoOverlap?
    requires SlotsAreOwn(ro, w.containers) && |w.log.starts| <= k < |w'.log.starts|
    ensures var e := w'.log.starts[k];
            if e.name in ro.candidates then forall n :: !OtherVersionRuns(ro, e.before, n)
            else forall c :: c in ro.candidates ==> !Running(e.before, c)
  {
    var e := w'.log.starts[k];
    assert SafeStart(ro, stopFirst, previous, e);
    if e.name in ro.candidates {
      assert Clear(ro, stopFirst, e.before);
    } else {
      forall c | c in ro.candidates ensures !Running(e.before, c) {
        assert c in Names(ro.candidates);
      }
    }
  }

  /** With a volume, a candidate starts only when nothing uses the volume; a previous container starts
      again only beside previous containers, and alone when the rollout stopped just one. */
  lemma VolumeWritersEver(ro: Rollout, stopFirst: bool, previous: seq<string>, w: World, w': World, k: nat)
    requires RolloutStep(ro, stopFirst, previous, w, w') && ro.hasVolume
    requires |w.log.starts| <= k < |w'.log.starts|
    ensures var e := w'.log.starts[k];
            && (e.name in ro.candidates || |previous| == 1 ==> NoConsumer(e.before))
            && (forall n :: Running(e.before, n) && e.before[n].mounts ==> n in previous)
  {
    assert SafeStart(ro, stopFirst, previous, w'.log.starts[k]);
  }
}
