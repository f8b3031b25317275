/** deployAppImageWithDependencies (agent/src/index.ts): an app rollout against the Docker host and the
    Traefik route. Every exit of the source is a result; the agent may die between any two calls. */
module AppRollout {
  import opened Wrappers
  import opened DockerHost
  import opened VolumeSnapshots

  /** One write of the service's route: the container it points at (None: the placeholder page or no
      route) and whether Traefik confirmed serving from there afterwards. */
  datatype RouteWrite = RouteWrite(target: Option<string>, confirmed: bool)

  /** The host and the route writes so far. */
  datatype AppState = AppState(w: World, writes: seq<RouteWrite>)

  /** Writing the route; a failure may come after the write took effect. */
  function RouteWritten(s: AppState, target: Option<string>, e: Choice): AppState {
    AppState(Do(s.w, Call.Request, e), if Effective(s.w, e) then s.writes + [RouteWrite(target, false)] else s.writes)
  }

  /** Waiting for Traefik to serve from the last write. */
  function RouteConfirmed(s: AppState, e: Choice): AppState {
    AppState(Do(s.w, Call.Request, e),
             if Answered(s.w, e) && s.writes != []
             then s.writes[..|s.writes| - 1] + [s.writes[|s.writes| - 1].(confirmed := true)] else s.writes)
  }

  class Traefik {
    var writes: seq<RouteWrite>

    method WriteRoute(docker: Docker, target: Option<string>) returns (r: Reply<()>, ghost e: Choice)
      modifies this, docker
      ensures Quiet(old(docker.w), docker.w)
      ensures AppState(docker.w, writes) == RouteWritten(AppState(old(docker.w), old(writes)), target, e)
      ensures r.Ok? <==> Answered(old(docker.w), e)
      ensures r.Failed? ==> !Calm(old(docker.w), docker.w)
    {
      var before := AppState(docker.w, writes);
      var ok, c, _ := docker.Perform(Call.Request);
      writes := RouteWritten(before, target, c).writes;
      return if ok then Ok(()) else Failed, c;
    }

    method ConfirmRoute(docker: Docker) returns (r: Reply<()>, ghost e: Choice)
      modifies this, docker
      ensures Quiet(old(docker.w), docker.w)
      ensures AppState(docker.w, writes) == RouteConfirmed(AppState(old(docker.w), old(writes)), e)
      ensures r.Ok? <==> Answered(old(docker.w), e)
      ensures r.Failed? ==> !Calm(old(docker.w), docker.w)
    {
      var before := AppState(docker.w, writes);
      var ok, c, _ := docker.Perform(Call.Request);
      writes := RouteConfirmed(before, c).writes;
      return if ok then Ok(()) else Failed, c;
    }

    /** Writes the route and waits until Traefik serves from it (moveAppTraffic). */
    method PointAt(docker: Docker, target: string) returns (r: Reply<()>)
      modifies this, docker
      ensures Looked(old(docker.w), docker.w) && (r.Failed? ==> !Calm(old(docker.w), docker.w))
      ensures r.Ok? ==> writes == old(writes) + [RouteWrite(Some(target), true)]
      ensures r.Failed? ==> writes == old(writes) || writes == old(writes) + [RouteWrite(Some(target), false)]
    {
      ghost var e;
      r, e := WriteRoute(docker, Some(target));
      ghost var w1 := docker.w;
      if r.Ok? {
        docker.Wait(0);
        ghost var w2 := docker.w;
        LookedTransitive(old(docker.w), w1, w2);
        r, e := ConfirmRoute(docker);
        LookedTransitive(old(docker.w), w2, docker.w);
      }
    }
  }

  datatype FailurePolicy = Keep | Rollback

  /** candidate: the container name of this deployment. previous: the container the control plane
      records as serving. verificationRolledBack: an earlier run reported that verification failed and
      traffic went back. */
  datatype App = App(candidate: string, previous: Option<string>, hasVolume: bool,
                     verificationRolledBack: bool, preActivation: bool, verification: Option<FailurePolicy>)

  /** Whatever the rollout starts on a volume, it starts while nothing uses the volume. */
  ghost predicate SafeAppStart(app: App, e: Start) {
    (e.name == app.candidate || app.previous == Some(e.name)) && (app.hasVolume ==> NoConsumer(e.before))
  }

  ghost predicate AppStep(app: App, w: World, w': World) {
    && w.log.starts <= w'.log.starts
    && (forall i :: |w.log.starts| <= i < |w'.log.starts| ==> SafeAppStart(app, w'.log.starts[i]))
    && w.log.ready <= w'.log.ready
    && (BaseTracksVolume(w) ==> BaseTracksVolume(w'))
    && w'.kept == w.kept
    && (forall n :: n in w'.containers && n != app.candidate ==> n in w.containers)
    && Traced(w, w')
  }

  lemma AppStepTransitive(app: App, a: World, b: World, c: World)
    requires AppStep(app, a, b) && AppStep(app, b, c)
    ensures AppStep(app, a, c)
  {
    forall i | |a.log.starts| <= i < |c.log.starts| ensures SafeAppStart(app, c.log.starts[i]) {
      if i < |b.log.starts| { assert c.log.starts[i] == b.log.starts[i]; }
    }
  }

  lemma EvolveIsAppStep(app: App, w: World, w': World)
    requires Evolve(w, w')
    ensures AppStep(app, w, w')
  {
  }

  lemma StartIsAppStep(app: App, w: World, n: string, candidate: bool)
    requires n in w.containers && !w.containers[n].running
    requires n == app.candidate || app.previous == Some(n)
    requires app.hasVolume ==> NoConsumer(w.containers)
    ensures AppStep(app, w, Started(w, n, candidate))
  {
    assert SafeAppStart(app, Start(n, w.containers));
  }

  predicate PreviousStarted(app: App, w: World, w': World) {
    exists i :: |w.log.starts| <= i < |w'.log.starts| && app.previous == Some(w'.log.starts[i].name)
  }

  lemma PreviousStartedExtends(app: App, a: World, b: World, c: World)
    requires a.log.starts <= b.log.starts <= c.log.starts
    ensures PreviousStarted(app, a, b) || PreviousStarted(app, b, c) ==> PreviousStarted(app, a, c)
  {
    if PreviousStarted(app, a, b) {
      var i :| |a.log.starts| <= i < |b.log.starts| && app.previous == Some(b.log.starts[i].name);
      assert c.log.starts[i] == b.log.starts[i];
    }
  }

  /** The previous container ran already, or was started. */
  ghost predicate BroughtUp(app: App, w: World, w': World) {
    app.previous.Some? && (Running(w.containers, app.previous.value) || PreviousStarted(app, w, w'))
  }

  /** What a step that may restart the previous container keeps of the earlier contents. */
  ghost predicate PreviousStep(app: App, w: World, w': World) {
    && AppStep(app, w, w')
    && w'.slot == w.slot && w'.log.dirty == w.log.dirty && w'.log.restores == w.log.restores
    && (w.log.dirty ==> w'.log.base == w.log.base)
    && (forall n :: n in w'.containers ==> n in w.containers)
    && (Resumable(w) && (w.slot.None? || w.log.dirty || !PreviousStarted(app, w, w')) ==> Resumable(w'))
  }

  /** The contents from before a run that failed: not lost, and ready for another attempt, unless the
      previous container was started beside the snapshot of contents it goes on to change. */
  ghost predicate Survives(app: App, w: World, w': World) {
    && Conserved(w')
    && (w'.slot.None? || w'.log.dirty || !PreviousStarted(app, w, w') ==> Resumable(w'))
  }

  lemma EvolveIsPreviousStep(app: App, w: World, w': World)
    requires Evolve(w, w')
    ensures PreviousStep(app, w, w')
  {
    EvolveIsAppStep(app, w, w');
    if Resumable(w) { EvolveKeepsResumable(w, w'); }
  }

  lemma PreviousStepTransitive(app: App, a: World, b: World, c: World)
    requires PreviousStep(app, a, b) && PreviousStep(app, b, c)
    ensures PreviousStep(app, a, c)
  {
    AppStepTransitive(app, a, b, c);
    PreviousStartedExtends(app, a, b, c);
  }

  /** From a world ready for another attempt. */
  lemma PreviousStepSurvives(app: App, a: World, b: World, c: World)
    requires AppStep(app, a, b) && Resumable(b) && PreviousStep(app, b, c)
    ensures Survives(app, a, c)
  {
    PreviousStartedExtends(app, a, b, c);
  }

  lemma SurvivesExtends(app: App, a: World, b: World, c: World, d: World)
    requires AppStep(app, a, b) && AppStep(app, b, c) && Survives(app, b, c) && Evolve(c, d)
    ensures Survives(app, a, d)
  {
    PreviousStartedExtends(app, a, b, c);
    if Resumable(c) { EvolveKeepsResumable(c, d); }
  }

  /** startContainer on the previous container; the caller checked the volume's consumers. */
  method StartPrevious(docker: Docker, app: App, n: string) returns (r: Reply<()>)
    requires app.previous == Some(n) && (app.hasVolume ==> NoConsumer(docker.w.containers))
    modifies docker
    ensures PreviousStep(app, old(docker.w), docker.w)
    ensures docker.w.log.removals == old(docker.w.log.removals) && docker.w.log.unready == old(docker.w.log.unready)
    ensures if r.Ok? then BroughtUp(app, old(docker.w), docker.w)
            else !Calm(old(docker.w), docker.w) || n !in old(docker.w).containers
  {
    ghost var before;
    r, before := docker.StartContainer(n, false);
    EvolveIsPreviousStep(app, old(docker.w), before);
    EvolveKeepsStopped(old(docker.w), before, {});
    if docker.w != before {
      StartIsAppStep(app, before, n, false);
      assert docker.w.log.starts[|before.log.starts|].name == n;
      PreviousStepTransitive(app, old(docker.w), before, docker.w);
    }
  }

  /** What the rollout creates: its own container, with its volume if it has one, to be kept running. */
  ghost predicate IsNew(app: App, containers: map<string, Container>) {
    app.candidate in containers ==>
      && containers[app.candidate].service && (containers[app.candidate].mounts <==> app.hasVolume)
      && containers[app.candidate].autoRestart
  }

  /** The candidate alone is replaced, and no check ends. */
  ghost predicate Replacing(app: App, w: World, w': World) {
    && CandidateStep(app, w, w') && TouchesAmong(w, w', [app.candidate]) && RemovesAmong(w, w', [app.candidate])
    && w'.log.ready == w.log.ready && w'.log.unready == w.log.unready
  }

  lemma ReplacingTransitive(app: App, a: World, b: World, c: World)
    requires Replacing(app, a, b) && Replacing(app, b, c)
    ensures Replacing(app, a, c)
  {
    CandidateStepTransitive(app, a, b, c);
    RemovalsAddUp(a, b, c, [app.candidate]);
  }

  lemma TidiedIsReplacing(app: App, w: World, w': World)
    requires Tidied(w, w', [app.candidate]) && PoliciesKept(w, w')
    ensures Replacing(app, w, w')
    ensures NoConsumer(w.containers) ==> NoConsumer(w'.containers)
  {
    EvolveIsCandidateStep(app, w, w');
  }

  /** The candidate exists or starts, and with a snapshot in the slot it may write the volume. */
  ghost predicate CandidateStep(app: App, w: World, w': World) {
    && AppStep(app, w, w')
    && w'.slot == w.slot
    && (Resumable(w) && w.slot.Some? ==> Resumable(w'))
  }

  /** Whatever holds the candidate's name goes. */
  method ClearName(docker: Docker, app: App) returns (r: Reply<()>)
    modifies docker
    ensures Tidied(old(docker.w), docker.w, [app.candidate]) && PoliciesKept(old(docker.w), docker.w)
    ensures if r.Ok? then app.candidate !in docker.w.containers else !Calm(old(docker.w), docker.w)
  {
    var existing := docker.InspectContainer(app.candidate);
    ghost var w1 := docker.w;
    LookedIsTidied(old(docker.w), w1, [app.candidate]);
    if existing.Failed? {
      return Failed;
    }
    r := Ok(());
    if existing.value.Some? {
      r := docker.RemoveContainer(app.candidate, true);
      TidiedTransitive(old(docker.w), w1, docker.w, [app.candidate], [app.candidate]);
    }
    if r.Ok? {
      ghost var w2 := docker.w;
      r := docker.Request();                              // the image is pulled, or must be present
      LookedIsTidied(w2, docker.w, [app.candidate]);
      TidiedTransitive(old(docker.w), w2, docker.w, [app.candidate], [app.candidate]);
    }
  }

  /** ensureContainer with replacement: whatever holds the name goes, then a fresh container starts. */
  method EnsureCandidate(docker: Docker, app: App) returns (r: Reply<()>)
    requires app.hasVolume ==> NoConsumer(docker.w.containers)
    modifies docker
    ensures Replacing(app, old(docker.w), docker.w)
    ensures r.Ok? ==> Running(docker.w.containers, app.candidate) && IsNew(app, docker.w.containers)
    ensures r.Failed? ==> !Calm(old(docker.w), docker.w)
  {
    r := ClearName(docker, app);
    ghost var w1 := docker.w;
    TidiedIsReplacing(app, old(docker.w), w1);
    if r.Ok? {
      r := CreateAndStart(docker, app);
      ReplacingTransitive(app, old(docker.w), w1, docker.w);
    }
  }

  lemma EvolveIsCandidateStep(app: App, w: World, w': World)
    requires Evolve(w, w')
    ensures CandidateStep(app, w, w')
  {
    if Resumable(w) { EvolveKeepsResumable(w, w'); }
  }

  lemma CandidateStepTransitive(app: App, a: World, b: World, c: World)
    requires CandidateStep(app, a, b) && CandidateStep(app, b, c)
    ensures CandidateStep(app, a, c)
  {
    AppStepTransitive(app, a, b, c);
  }

  lemma CreateIsReplacing(app: App, w: World, c: Container)
    requires app.candidate !in w.containers && !c.running
    ensures Replacing(app, w, Created(w, app.candidate, c))
    ensures NoConsumer(w.containers) ==> NoConsumer(Created(w, app.candidate, c).containers)
  {
  }

  lemma StartIsReplacing(app: App, w: World)
    requires app.candidate in w.containers && !w.containers[app.candidate].running
    requires app.hasVolume ==> NoConsumer(w.containers)
    ensures Replacing(app, w, Started(w, app.candidate, true))
  {
    StartIsAppStep(app, w, app.candidate, true);
  }

  method CreateCandidate(docker: Docker, app: App) returns (r: Reply<()>)
    modifies docker
    ensures Replacing(app, old(docker.w), docker.w)
    ensures NoConsumer(old(docker.w).containers) ==> NoConsumer(docker.w.containers)
    ensures r.Ok? ==> app.candidate in docker.w.containers && IsNew(app, docker.w.containers)
    ensures r.Failed? ==> !Calm(old(docker.w), docker.w) || app.candidate in old(docker.w).containers
  {
    ghost var before;
    var c := Container(true, None, app.hasVolume, false, true);
    r, before := docker.CreateContainer(app.candidate, c);
    LookedIsTidied(old(docker.w), before, [app.candidate]);
    TidiedIsReplacing(app, old(docker.w), before);
    if docker.w != before {
      CreateIsReplacing(app, before, c);
      ReplacingTransitive(app, old(docker.w), before, docker.w);
    }
  }

  method StartCandidate(docker: Docker, app: App) returns (r: Reply<()>)
    requires app.hasVolume ==> NoConsumer(docker.w.containers)
    modifies docker
    ensures Replacing(app, old(docker.w), docker.w)
    ensures r.Ok? ==> Running(docker.w.containers, app.candidate)
    ensures IsNew(app, old(docker.w).containers) ==> IsNew(app, docker.w.containers)
    ensures r.Failed? ==> !Calm(old(docker.w), docker.w) || app.candidate !in old(docker.w).containers
  {
    ghost var before;
    r, before := docker.StartContainer(app.candidate, true);
    LookedIsTidied(old(docker.w), before, [app.candidate]);
    TidiedIsReplacing(app, old(docker.w), before);
    if docker.w != before {
      StartIsReplacing(app, before);
      ReplacingTransitive(app, old(docker.w), before, docker.w);
    }
  }

  method CreateAndStart(docker: Docker, app: App) returns (r: Reply<()>)
    requires app.hasVolume ==> NoConsumer(docker.w.containers)
    requires app.candidate !in docker.w.containers
    modifies docker
    ensures Replacing(app, old(docker.w), docker.w)
    ensures r.Ok? ==> Running(docker.w.containers, app.candidate) && IsNew(app, docker.w.containers)
    ensures r.Failed? ==> !Calm(old(docker.w), docker.w)
  {
    r := CreateCandidate(docker, app);
    ghost var w1 := docker.w;
    if r.Ok? {
      r := StartCandidate(docker, app);
      ReplacingTransitive(app, old(docker.w), w1, docker.w);
    }
  }

  // ----- Before anything is touched

  ghost predicate OnlyConsumer(containers: map<string, Container>, expected: Option<string>) {
    forall n :: Running(containers, n) && containers[n].mounts ==> expected == Some(n)
  }

  /** assertSingleRunningVolumeConsumer: at most the expected container uses the volume. */
  method AssertSingleConsumer(docker: Docker, expected: Option<string>) returns (r: Reply<()>)
    modifies docker
    ensures Looked(old(docker.w), docker.w)
    ensures if r.Ok? then OnlyConsumer(docker.w.containers, expected)
            else !Calm(old(docker.w), docker.w) || !OnlyConsumer(old(docker.w).containers, expected)
  {
    r := AssertNoUnexpectedVolumeConsumer(docker, if expected.Some? then {expected.value} else {});
  }

  /** What the rollout found: whether it adopts a running candidate, and the previous container it
      replaces, which is none when that is the candidate itself or gone. */
  datatype Found = Found(adopted: bool, previous: Option<string>)

  /** The previous container is the recorded one; it is forgotten only where there was a container with the
      candidate's name and the recorded one is that container or was seen to be gone. */
  ghost predicate FoundPrevious(app: App, previous: Option<string>, w: World, w': World) {
    previous == app.previous ||
    (&& previous.None? && app.previous.Some? && app.candidate in w.containers
     && (app.previous.value == app.candidate || app.previous.value !in w'.containers))
  }

  /** The recorded previous container, unless it is the candidate or gone. */
  method ResolvePrevious(docker: Docker, app: App) returns (r: Reply<Option<string>>)
    modifies docker
    ensures Looked(old(docker.w), docker.w) && (r.Failed? ==> !Calm(old(docker.w), docker.w))
    ensures r.Ok? && app.previous == Some(app.candidate) ==> r.value.None?
    ensures r.Ok? && app.previous.Some? && app.previous != Some(app.candidate) ==>
              r.value == if app.previous.value in docker.w.containers then app.previous else None
    ensures r.Ok? && app.previous.None? ==> r.value.None?
  {
    if app.previous.None? || app.previous == Some(app.candidate) {
      return Ok(None);
    }
    var current :- docker.InspectContainer(app.previous.value);
    return Ok(if current.None? then None else app.previous);
  }

  method RemoveStoppedCandidate(docker: Docker, app: App, previous: Option<string>) returns (r: Reply<()>)
    modifies docker
    ensures Tidied(old(docker.w), docker.w, [app.candidate])
    ensures r.Ok? ==> app.candidate !in docker.w.containers
                      && (app.hasVolume ==> OnlyConsumer(docker.w.containers, previous))
    ensures r.Failed? && Calm(old(docker.w), docker.w) ==>
              app.hasVolume && !OnlyConsumer(old(docker.w).containers, previous)
  {
    r := docker.RemoveContainer(app.candidate, true);
    ghost var w1 := docker.w;
    if r.Failed? {
      return;
    }
    var current := docker.InspectContainer(app.candidate);
    ghost var w2 := docker.w;
    LookedIsTidied(w1, w2, [app.candidate]);
    TidiedTransitive(old(docker.w), w1, w2, [app.candidate], [app.candidate]);
    if current.Failed? || current.value.Some? {
      return Failed;
    }
    if app.hasVolume {
      r := AssertSingleConsumer(docker, previous);
      LookedIsTidied(w2, docker.w, [app.candidate]);
      TidiedTransitive(old(docker.w), w2, docker.w, [app.candidate], [app.candidate]);
    }
  }

  /** What a run meets besides the host: whether an existing candidate's remaining labels, image and mounts
      are the deployment's, how the pre-activation job ends, and whether the verification succeeds. */
  datatype Conditions = Conditions(matches: bool, jobSucceeds: bool, jobDefers: bool, verified: bool)

  /** Why a run refuses the container that holds its candidate's name: it is not this deployment's, or another
      container uses the volume. */
  ghost predicate Refuses(app: App, met: Conditions, containers: map<string, Container>) {
    && app.candidate in containers
    && (|| !containers[app.candidate].service || containers[app.candidate].mounts != app.hasVolume || !met.matches
        || (app.hasVolume && OthersUse(app, containers[app.candidate].running, containers)))
  }

  /** A container that may not do so beside the candidate uses the volume: beside a stopped one the previous
      container may. */
  ghost predicate OthersUse(app: App, running: bool, containers: map<string, Container>) {
    exists n ::
      Running(containers, n) && containers[n].mounts && n != app.candidate && (running || app.previous != Some(n))
  }

  lemma UnexpectedIsOther(app: App, running: bool, previous: Option<string>, w: World, w': World)
    requires Evolve(w, w') && !OnlyConsumer(w'.containers, if running then Some(app.candidate) else previous)
    requires app.candidate in w'.containers ==> w'.containers[app.candidate].running ==> running
    requires app.previous.Some? && app.previous.value != app.candidate && app.previous.value in w'.containers ==>
               previous == app.previous
    ensures OthersUse(app, running, w.containers)
  {
    var n :| Running(w'.containers, n) && w'.containers[n].mounts &&
             (if running then Some(app.candidate) else previous) != Some(n);
    assert Running(w.containers, n) && w.containers[n].mounts && n != app.candidate;
  }

  /** A container with the candidate's name: refused when it is not this deployment's, adopted when it
      runs, removed when it does not. */
  method ResolveExistingCandidate(docker: Docker, app: App, met: Conditions) returns (r: Reply<Found>)
    modifies docker
    ensures Tidied(old(docker.w), docker.w, [app.candidate])
    ensures r.Ok? ==> FoundPrevious(app, r.value.previous, old(docker.w), docker.w)
    ensures r.Ok? && app.candidate !in old(docker.w).containers ==> r.value == Found(false, app.previous)
    ensures r.Ok? && app.candidate in old(docker.w).containers && Calm(old(docker.w), docker.w) ==>
              r.value.previous != Some(app.candidate)
    ensures r.Ok? && r.value.adopted ==>
              && Running(old(docker.w).containers, app.candidate)
              && old(docker.w).containers[app.candidate].service
              && old(docker.w).containers[app.candidate].mounts == app.hasVolume && met.matches
    ensures r.Ok? && !r.value.adopted ==> app.candidate !in docker.w.containers
    ensures r.Ok? && app.hasVolume && (r.value.adopted || app.candidate in docker.w.containers) ==>
              OnlyConsumer(docker.w.containers, Some(app.candidate))
    ensures r.Failed? && Calm(old(docker.w), docker.w) ==> Refuses(app, met, old(docker.w).containers)
  {
    var containers := docker.ListContainers();
    ghost var w1 := docker.w;
    LookedIsTidied(old(docker.w), w1, [app.candidate]);
    if containers.Failed? {
      return Failed;
    }
    if app.candidate !in containers.value {
      return Ok(Found(false, app.previous));
    }
    var existing := containers.value[app.candidate];
    if !existing.service || existing.mounts != app.hasVolume || !met.matches {
      return Failed;
    }
    var previous := ResolvePrevious(docker, app);
    ghost var w2 := docker.w;
    LookedTransitive(old(docker.w), w1, w2);
    LookedIsTidied(old(docker.w), w2, [app.candidate]);
    if previous.Failed? {
      return Failed;
    }
    var checked := CheckExisting(docker, app, previous.value, existing.running);
    TidiedTransitive(old(docker.w), w2, docker.w, [app.candidate], [app.candidate]);
    if checked.Failed? && Calm(old(docker.w), docker.w) {
      UnexpectedIsOther(app, existing.running, previous.value, old(docker.w), w2);
    }
    return if checked.Ok? then Ok(Found(existing.running, previous.value)) else Failed;
  }

  /** A running candidate is checked to be the volume's one consumer, a stopped one removed. */
  method CheckExisting(docker: Docker, app: App, previous: Option<string>, running: bool) returns (checked: Reply<()>)
    modifies docker
    ensures Tidied(old(docker.w), docker.w, [app.candidate])
    ensures checked.Ok? && !running ==> app.candidate !in docker.w.containers
    ensures checked.Ok? && app.hasVolume ==>
              OnlyConsumer(docker.w.containers, if running then Some(app.candidate) else previous)
    ensures checked.Failed? && Calm(old(docker.w), docker.w) ==>
              app.hasVolume && !OnlyConsumer(old(docker.w).containers, if running then Some(app.candidate) else previous)
  {
    checked := Ok(());
    LookedIsTidied(docker.w, docker.w, [app.candidate]);
    if !running {
      checked := RemoveStoppedCandidate(docker, app, previous);
    } else if app.hasVolume {
      checked := AssertSingleConsumer(docker, Some(app.candidate));
      LookedIsTidied(old(docker.w), docker.w, [app.candidate]);
    }
  }

  /** The route writes of an attempt to return traffic from a rejected release that did not succeed. */
  ghost predicate UnconfirmedReturn(writes: seq<RouteWrite>, previous: string) {
    writes == [] || writes == [RouteWrite(Some(previous), false)]
  }

  /** returnTrafficFromRejectedRelease: true when the previous container serves and has the traffic. */
  method ReturnTrafficFromRejectedRelease(docker: Docker, traefik: Traefik, app: App, previous: string, adopted: bool)
    returns (returned: bool, ghost early: seq<RouteWrite>)
    modifies docker, traefik
    ensures Evolve(old(docker.w), docker.w)
    ensures returned ==> PassedCheck(old(docker.w), docker.w, [previous])
                         && traefik.writes == old(traefik.writes) + [RouteWrite(Some(previous), true)]
    ensures !returned ==> traefik.writes == old(traefik.writes) + early && UnconfirmedReturn(early, previous)
    ensures RemovesAmong(old(docker.w), docker.w, [app.candidate])
    ensures !returned ==> !Calm(old(docker.w), docker.w) || (early == [] && GaveUpOn(old(docker.w), docker.w, previous))
    ensures returned && adopted && Calm(old(docker.w), docker.w) ==> app.candidate !in docker.w.containers
  {
    early := [];
    var canServe := docker.CheckReadiness(previous);
    ghost var w1 := docker.w;
    assert canServe ==> w1.log.ready[|old(docker.w).log.ready|] in [previous];
    assert canServe ==> PassedCheck(old(docker.w), w1, [previous]);
    if !canServe {
      return false, [];
    }
    var moved := traefik.PointAt(docker, previous);
    EvolveTransitive(old(docker.w), w1, docker.w);
    PassedCheckExtends(old(docker.w), w1, docker.w, [previous]);
    if moved.Failed? {
      early := traefik.writes[|old(traefik.writes)|..];
      return false, early;
    }
    if adopted {
      ghost var w2 := docker.w;
      var _ := docker.RemoveContainer(app.candidate, true);
      EvolveTransitive(old(docker.w), w2, docker.w);
      PassedCheckExtends(old(docker.w), w2, docker.w, [previous]);
    }
    return true, [];
  }

  // ----- The single-writer quiesce

  /** Stops the previous container, checks that nothing uses the volume and takes the snapshot. */
  method QuiesceAndSnapshot(docker: Docker, previous: Option<string>) returns (r: Reply<()>)
    modifies docker
    ensures Prepared(old(docker.w), docker.w) && docker.w.log.removals == old(docker.w.log.removals)
    ensures r.Ok? ==> docker.w.slot.Some? && NoConsumer(docker.w.containers)
    ensures r.Failed? && Calm(old(docker.w), docker.w) ==> !OnlyConsumer(old(docker.w).containers, previous)
  {
    r := QuiescePrevious(docker, previous);
    ghost var w1 := docker.w;
    EvolveIsPrepared(old(docker.w), w1);
    if r.Ok? {
      r := SnapshotVolume(docker);
      PreparedTransitive(old(docker.w), w1, docker.w);
    }
  }

  method QuiescePrevious(docker: Docker, previous: Option<string>) returns (r: Reply<()>)
    modifies docker
    ensures Looked(old(docker.w), docker.w)
    ensures r.Ok? ==> NoConsumer(docker.w.containers)
    ensures r.Failed? && Calm(old(docker.w), docker.w) ==> !OnlyConsumer(old(docker.w).containers, previous)
  {
    r := AssertSingleConsumer(docker, previous);
    ghost var w1 := docker.w;
    if r.Ok? && previous.Some? {
      r := StopForQuiesce(docker, previous.value);
      LookedTransitive(old(docker.w), w1, docker.w);
    }
  }

  method StopForQuiesce(docker: Docker, previous: string) returns (r: Reply<()>)
    modifies docker
    ensures Looked(old(docker.w), docker.w)
    ensures if r.Ok? then !Running(docker.w.containers, previous) else !Calm(old(docker.w), docker.w)
  {
    var state := docker.InspectContainer(previous);
    ghost var w1 := docker.w;
    if state.Ok? && state.value.Some? {
      r := docker.Request();                              // counting its restarts
      LookedTransitive(old(docker.w), w1, docker.w);
      if r.Failed? {
        return;
      }
    }
    ghost var w2 := docker.w;
    r := docker.StopContainer(previous);
    LookedTransitive(old(docker.w), w2, docker.w);
  }

  lemma PreparedIsAppStep(app: App, w: World, w': World)
    requires Prepared(w, w')
    ensures AppStep(app, w, w')
  {
  }

  /** What a failed rollout may say of the previous container: it passed a readiness check in this run. */
  ghost predicate Serves(w: World, w': World, previous: Option<string>) {
    previous.Some? && PassedCheck(w, w', [previous.value])
  }

  lemma ServesExtends(a: World, b: World, c: World, previous: Option<string>)
    requires a.log.ready <= b.log.ready <= c.log.ready
    ensures Serves(a, b, previous) || Serves(b, c, previous) ==> Serves(a, c, previous)
  {
    if previous.Some? { PassedCheckExtends(a, b, c, [previous.value]); }
  }

  /** previousAppRuntimeCanServe. */
  method CanServe(docker: Docker, previous: string) returns (serves: bool)
    modifies docker
    ensures Evolve(old(docker.w), docker.w)
    ensures serves ==> Serves(old(docker.w), docker.w, Some(previous)) && Running(docker.w.containers, previous)
    ensures !serves ==> GaveUpOn(old(docker.w), docker.w, previous)
    ensures docker.w.log.removals == old(docker.w.log.removals) && PoliciesKept(old(docker.w), docker.w)
  {
    serves := docker.CheckReadiness(previous);
    assert serves ==> docker.w.log.ready[|old(docker.w).log.ready|] in [previous];
  }

  /** Why a previous container may not be back: it has the candidate's name, it was gone, or a check gave up
      on it. */
  ghost predicate MayNotReturn(app: App, previous: Option<string>, w: World, w': World) {
    && previous.Some?
    && (previous.value == app.candidate || previous.value !in w.containers || GaveUpOn(w, w', previous.value))
  }

  lemma MayNotReturnFrom(app: App, previous: Option<string>, a: World, b: World, c: World)
    requires Traced(a, b) && Calm(a, b) && RemovesAmong(a, b, [app.candidate])
    ensures MayNotReturn(app, previous, b, c) ==> MayNotReturn(app, previous, a, c)
  {
  }

  /** If there is one, it was given up on. */
  ghost predicate GivenUpIfAny(previous: Option<string>, w: World, w': World) {
    previous.Some? ==> GaveUpOn(w, w', previous.value)
  }

  /** Starts the previous container again and waits until it is ready. */
  method RestartPrevious(docker: Docker, app: App, previous: string) returns (r: Reply<()>)
    requires app.previous == Some(previous) && (app.hasVolume ==> NoConsumer(docker.w.containers))
    modifies docker
    ensures PreviousStep(app, old(docker.w), docker.w) && docker.w.log.removals == old(docker.w.log.removals)
    ensures r.Ok? ==> Serves(old(docker.w), docker.w, Some(previous))
    ensures r.Failed? && Calm(old(docker.w), docker.w) ==> MayNotReturn(app, Some(previous), old(docker.w), docker.w)
    ensures Calm(old(docker.w), docker.w) && previous in old(docker.w).containers ==>
              BroughtUp(app, old(docker.w), docker.w)
  {
    r := StartPrevious(docker, app, previous);
    ghost var w1 := docker.w;
    if r.Ok? {
      var ready := CanServe(docker, previous);
      ServesExtends(old(docker.w), w1, docker.w, Some(previous));
      EvolveIsPreviousStep(app, w1, docker.w);
      PreviousStepTransitive(app, old(docker.w), w1, docker.w);
      r := if ready then Ok(()) else Failed;
    }
  }

  /** The catch block of the quiesce: the previous container comes back, with the traffic. */
  method UndoQuiesce(docker: Docker, traefik: Traefik, app: App, previous: Option<string>) returns (preserved: bool)
    requires app.hasVolume && (previous == app.previous || previous.None?)
    modifies docker, traefik
    ensures PreviousStep(app, old(docker.w), docker.w)
    ensures preserved ==> Serves(old(docker.w), docker.w, previous)
                          && traefik.writes == old(traefik.writes) + [RouteWrite(previous, true)]
    ensures docker.w.log.removals == old(docker.w.log.removals)
    ensures !preserved && Calm(old(docker.w), docker.w) ==>
              previous.None? || !NoConsumer(old(docker.w).containers) || MayNotReturn(app, previous, old(docker.w), docker.w)
    ensures && Calm(old(docker.w), docker.w) && previous.Some? && previous.value in old(docker.w).containers
            && NoConsumer(old(docker.w).containers) ==>
              BroughtUp(app, old(docker.w), docker.w)
  {
    EvolveIsPreviousStep(app, docker.w, docker.w);
    if previous.None? {
      return false;
    }
    var r := AssertSingleConsumer(docker, None);
    ghost var w1 := docker.w;
    EvolveIsPreviousStep(app, old(docker.w), w1);
    if r.Failed? {
      return false;
    }
    r := RestartPrevious(docker, app, previous.value);
    ghost var w2 := docker.w;
    preserved := false;
    EvolveIsPreviousStep(app, w2, w2);
    if r.Ok? {
      preserved := RouteAndJudge(docker, traefik, previous.value);
      EvolveIsPreviousStep(app, w2, docker.w);
    }
    QuiesceUndone(app, previous, old(docker.w), w1, w2, docker.w, preserved);
  }

  /** The route points at the container again, and it is checked. */
  method RouteAndJudge(docker: Docker, traefik: Traefik, previous: string) returns (preserved: bool)
    modifies docker, traefik
    ensures Evolve(old(docker.w), docker.w) && docker.w.log.removals == old(docker.w.log.removals)
    ensures if preserved then && Serves(old(docker.w), docker.w, Some(previous))
                              && traefik.writes == old(traefik.writes) + [RouteWrite(Some(previous), true)]
            else !Calm(old(docker.w), docker.w) || GaveUpOn(old(docker.w), docker.w, previous)
  {
    var r := traefik.PointAt(docker, previous);
    ghost var w1 := docker.w;
    if r.Failed? {
      return false;
    }
    preserved := CanServe(docker, previous);
    EvolveTransitive(old(docker.w), w1, docker.w);
    ServesExtends(old(docker.w), w1, docker.w, Some(previous));
  }

  lemma QuiesceUndone(app: App, previous: Option<string>, a: World, b: World, c: World, d: World, preserved: bool)
    requires Looked(a, b) && PreviousStep(app, b, c) && PreviousStep(app, c, d)
    ensures PreviousStep(app, a, d)
    ensures Calm(a, d) ==> Calm(a, b) && Calm(b, c) && Calm(c, d)
    ensures preserved && Serves(c, d, previous) ==> Serves(a, d, previous)
    ensures BroughtUp(app, b, c) ==> BroughtUp(app, a, d)
    ensures Calm(a, d) && previous.Some? && previous.value in a.containers ==> previous.value in b.containers
    ensures Calm(a, d) && (MayNotReturn(app, previous, b, c) || GivenUpIfAny(previous, c, d)) && previous.Some? ==>
              MayNotReturn(app, previous, a, d)
  {
    EvolveIsPreviousStep(app, a, b);
    PreviousStepTransitive(app, a, b, c);
    PreviousStepTransitive(app, a, c, d);
    ServesExtends(a, c, d, previous);
    PreviousStartedExtends(app, a, b, c);
    PreviousStartedExtends(app, a, c, d);
  }

  // ----- The catch blocks

  /** How a run ends; preserved is the liveRuntimePreserved flag its rollout result carries, returned that
      the traffic of a release already rejected went back. */
  datatype AppResult =
    | Thrown
    | Halted(preserved: bool, returned: bool)
    | QuiesceFailed(preserved: bool)
    | RestoreFailed
    | ReadinessFailed(preserved: bool)
    | CutoverFailed(preserved: bool, completed: bool)
    | Live(deferred: bool)

  lemma RecoveringIsAppStep(app: App, w: World, w': World)
    requires Recovering(w, w')
    ensures AppStep(app, w, w')
    ensures forall n :: n in w'.containers ==> n in w.containers
    ensures w'.slot == w.slot
  {
  }

  /** The contents from before the candidate, with this run's snapshot in the slot. */
  ghost predicate SnapshotHolds(w: World) { Resumable(w) && w.slot.Some? }

  /** Removes the candidate; with a volume, confirms it. */
  method RemoveCandidate(docker: Docker, app: App) returns (r: Reply<()>)
    modifies docker
    ensures Tidied(old(docker.w), docker.w, [app.candidate])
    ensures if r.Ok? then app.candidate !in docker.w.containers else !Calm(old(docker.w), docker.w)
  {
    r := docker.RemoveContainer(app.candidate, true);
    if r.Ok? && app.hasVolume {
      ghost var w1 := docker.w;
      var current := docker.InspectContainer(app.candidate);
      LookedIsTidied(w1, docker.w, [app.candidate]);
      TidiedTransitive(old(docker.w), w1, docker.w, [app.candidate], [app.candidate]);
      if current.Failed? || current.value.Some? {
        return Failed;
      }
    }
  }

  /** The snapshot is there and nothing uses the volume. */
  ghost predicate Restorable(w: World) { NoConsumer(w.containers) && w.slot.Some? }

  /** The volume back to its snapshot, then the previous container, ready. */
  method RestoreVolumeAndPrevious(docker: Docker, app: App, previous: Option<string>) returns (r: Reply<()>)
    requires previous == app.previous || previous.None?
    modifies docker
    ensures AppStep(app, old(docker.w), docker.w)
    ensures forall n :: n in docker.w.containers ==> n in old(docker.w).containers
    ensures SnapshotHolds(old(docker.w)) ==> Survives(app, old(docker.w), docker.w)
    ensures SnapshotHolds(old(docker.w)) && r.Ok? ==> !docker.w.log.dirty
    ensures docker.w.log.removals == old(docker.w.log.removals) && docker.w.slot == old(docker.w).slot
    ensures r.Failed? && Calm(old(docker.w), docker.w) && Restorable(old(docker.w)) ==>
              MayNotReturn(app, previous, old(docker.w), docker.w)
    ensures && Calm(old(docker.w), docker.w) && previous.Some? && previous.value in old(docker.w).containers
            && Restorable(old(docker.w)) ==>
              BroughtUp(app, old(docker.w), docker.w)
  {
    r := RestoreVolume(docker);
    ghost var w1 := docker.w;
    RecoveringIsAppStep(app, old(docker.w), w1);
    EvolveIsPreviousStep(app, w1, w1);
    if r.Ok? && previous.Some? {
      r := RestartPrevious(docker, app, previous.value);
      AppStepTransitive(app, old(docker.w), w1, docker.w);
    }
    if SnapshotHolds(old(docker.w)) { PreviousStepSurvives(app, old(docker.w), w1, docker.w); }
  }

  lemma DeletedSurvives(app: App, a: World, b: World, c: World)
    requires Resumable(a) && AppStep(app, a, b) && AppStep(app, b, c) && Survives(app, a, b) && !b.log.dirty
    requires Evolve(b, c) || (c.slot.None? && !c.log.dirty)
    ensures Survives(app, a, c)
  {
    if Evolve(b, c) {
      EvolveIsAppStep(app, a, a);
      SurvivesExtends(app, a, a, b, c);
    }
  }

  /** deleteAppVolumeSnapshotBestEffort, once the contents are back in the volume. */
  method DeleteSnapshot(docker: Docker, app: App)
    modifies docker
    ensures AppStep(app, old(docker.w), docker.w)
    ensures docker.w.log.ready == old(docker.w.log.ready) && docker.w.log.removals == old(docker.w.log.removals)
    ensures docker.w.log.unready == old(docker.w.log.unready)
    ensures Calm(old(docker.w), docker.w) ==> docker.w.slot.None?
    ensures forall n :: n in docker.w.containers ==> n in old(docker.w).containers
    ensures Evolve(old(docker.w), docker.w) || (docker.w.slot.None? && docker.w.log.dirty == old(docker.w).log.dirty)
  {
    ghost var before := docker.DeleteSnapshot();
    EvolveIsAppStep(app, old(docker.w), before);
  }

  /** The route where the traffic belongs when the candidate is gone. */
  method RouteBack(docker: Docker, traefik: Traefik, previous: Option<string>) returns (r: Reply<()>)
    modifies docker, traefik
    ensures Looked(old(docker.w), docker.w) && (r.Failed? ==> !Calm(old(docker.w), docker.w))
    ensures r.Ok? && previous.Some? ==> traefik.writes == old(traefik.writes) + [RouteWrite(previous, true)]
    ensures r.Ok? && previous.None? ==> traefik.writes == old(traefik.writes) + [RouteWrite(None, false)]
  {
    if previous.Some? {
      r := traefik.PointAt(docker, previous.value);
    } else {
      ghost var e;
      r, e := traefik.WriteRoute(docker, None);
    }
  }

  /** The restore of a readiness failure with a volume: volume, previous container, route, snapshot gone. */
  method RestoreAfterReadinessFailure(docker: Docker, traefik: Traefik, app: App, previous: Option<string>)
    returns (r: Reply<()>)
    requires previous == app.previous || previous.None?
    modifies docker, traefik
    ensures AppStep(app, old(docker.w), docker.w)
    ensures forall n :: n in docker.w.containers ==> n in old(docker.w).containers
    ensures SnapshotHolds(old(docker.w)) ==> Survives(app, old(docker.w), docker.w)
    ensures r.Ok? && previous.Some? ==> traefik.writes == old(traefik.writes) + [RouteWrite(previous, true)]
    ensures docker.w.log.removals == old(docker.w.log.removals)
    ensures Calm(old(docker.w), docker.w) && Restorable(old(docker.w)) ==>
              if r.Ok? then docker.w.slot.None? else MayNotReturn(app, previous, old(docker.w), docker.w)
  {
    r := RestoreVolumeAndPrevious(docker, app, previous);
    ghost var w1 := docker.w;
    if r.Failed? {
      return;
    }
    r := RouteBack(docker, traefik, previous);
    ghost var w2 := docker.w;
    RoutedStep(app, old(docker.w), w1, w2);
    if r.Ok? {
      DeleteSnapshot(docker, app);
      AppStepTransitive(app, old(docker.w), w2, docker.w);
      if SnapshotHolds(old(docker.w)) { DeletedSurvives(app, old(docker.w), w2, docker.w); }
    }
  }

  /** Nothing but the environment acts from b to c. */
  lemma RoutedStep(app: App, a: World, b: World, c: World)
    requires AppStep(app, a, b) && Evolve(b, c)
    ensures AppStep(app, a, c) && c.log.dirty == b.log.dirty && c.slot == b.slot
    ensures forall n :: n in c.containers ==> n in b.containers
    ensures Survives(app, a, b) ==> Survives(app, a, c)
  {
    EvolveIsAppStep(app, a, a);
    EvolveIsAppStep(app, b, c);
    AppStepTransitive(app, a, b, c);
    if Survives(app, a, b) { SurvivesExtends(app, a, a, b, c); }
  }

  /** Routes written by a readiness failure that reports the previous container preserved. */
  function ReadinessFailureRoutes(hasVolume: bool, early: seq<RouteWrite>, previous: string): seq<RouteWrite> {
    early + if hasVolume then [RouteWrite(Some(previous), true)] else []
  }

  /** With a volume, this run's snapshot is there and nothing but the candidate uses the volume. */
  ghost predicate OnlyCandidateUses(app: App, w: World) {
    app.hasVolume ==> w.slot.Some? && OnlyConsumer(w.containers, Some(app.candidate))
  }

  /** The candidate is gone, and so is the snapshot; if nothing is reported as preserved, the previous
      container was given up on. */
  ghost predicate CleanedUp(app: App, previous: Option<string>, preserved: bool, w: World, w': World) {
    && app.candidate !in w'.containers && (app.hasVolume ==> w'.slot.None?)
    && (!preserved ==> GivenUpIfAny(previous, w, w'))
  }

  /** The candidate failed its readiness check. */
  method FailReadiness(docker: Docker, traefik: Traefik, app: App, previous: Option<string>) returns (result: AppResult)
    requires previous == app.previous || previous.None?
    modifies docker, traefik
    ensures AppStep(app, old(docker.w), docker.w)
    ensures result.Thrown? || result.RestoreFailed? || result.ReadinessFailed?
    ensures app.hasVolume && SnapshotHolds(old(docker.w)) ==> Survives(app, old(docker.w), docker.w)
    ensures result.ReadinessFailed? && result.preserved ==>
              && Serves(old(docker.w), docker.w, previous)
              && app.candidate !in docker.w.containers
              && traefik.writes == old(traefik.writes) + ReadinessFailureRoutes(app.hasVolume, [], previous.value)
    ensures RemovesAmong(old(docker.w), docker.w, [app.candidate])
    ensures Calm(old(docker.w), docker.w) && OnlyCandidateUses(app, old(docker.w)) ==>
              && (result.RestoreFailed? ==> app.hasVolume && MayNotReturn(app, previous, old(docker.w), docker.w))
              && (result.ReadinessFailed? ==>
                    CleanedUp(app, previous, result.preserved, old(docker.w), docker.w))
    ensures Calm(old(docker.w), docker.w) ==> !result.Thrown?
  {
    var removed := RemoveCandidate(docker, app);
    ghost var w1 := docker.w;
    CandidateRemoved(app, old(docker.w), w1);
    if removed.Failed? {
      return Thrown;
    }
    var restored := Ok(());
    EvolveIsAppStep(app, w1, w1);
    if app.hasVolume {
      restored := RestoreAfterReadinessFailure(docker, traefik, app, previous);
    }
    ghost var w2 := docker.w;
    FailingGoesOn(app, previous, old(docker.w), w1, w2);
    if restored.Failed? {
      return RestoreFailed;
    }
    var preserved := JudgeRejected(docker, previous);
    FailingEnds(app, previous, old(docker.w), w2, docker.w);
    return ReadinessFailed(preserved);
  }

  /** The rejected image goes, best effort, and the previous container is checked. */
  method JudgeRejected(docker: Docker, previous: Option<string>) returns (preserved: bool)
    modifies docker
    ensures Evolve(old(docker.w), docker.w) && docker.w.log.removals == old(docker.w.log.removals)
    ensures if preserved then Serves(old(docker.w), docker.w, previous)
            else GivenUpIfAny(previous, old(docker.w), docker.w)
  {
    var _ := docker.Request();
    preserved := false;
    if previous.Some? {
      ghost var w1 := docker.w;
      preserved := CanServe(docker, previous.value);
      EvolveTransitive(old(docker.w), w1, docker.w);
      ServesExtends(old(docker.w), w1, docker.w, previous);
    }
  }

  /** While a failure is handled: only the candidate goes, and the earlier contents survive. */
  ghost predicate Failing(app: App, w: World, w': World) {
    && AppStep(app, w, w') && RemovesAmong(w, w', [app.candidate])
    && (app.hasVolume && SnapshotHolds(w) ==> Survives(app, w, w'))
  }

  lemma CandidateRemoved(app: App, w: World, w': World)
    requires Tidied(w, w', [app.candidate])
    ensures Failing(app, w, w') && (SnapshotHolds(w) ==> SnapshotHolds(w'))
    ensures app.candidate !in w'.containers && OnlyCandidateUses(app, w) && app.hasVolume ==> Restorable(w')
  {
    EvolveIsAppStep(app, w, w');
    if SnapshotHolds(w) {
      EvolveKeepsResumable(w, w');
      EvolveIsPreviousStep(app, w', w');
      PreviousStepSurvives(app, w, w', w');
    }
  }

  lemma FailingGoesOn(app: App, previous: Option<string>, a: World, b: World, c: World)
    requires Tidied(a, b, [app.candidate]) && Failing(app, a, b) && AppStep(app, b, c)
    requires c.log.removals == b.log.removals
    requires if app.hasVolume then SnapshotHolds(a) ==> Survives(app, b, c) else c == b
    ensures Failing(app, a, c)
    ensures Calm(a, c) ==> Calm(a, b) && Calm(b, c)
    ensures Calm(a, c) && MayNotReturn(app, previous, b, c) ==> MayNotReturn(app, previous, a, c)
  {
    RestoredStep(app, a, b, c);
    if Calm(a, c) { MayNotReturnFrom(app, previous, a, b, c); }
  }

  lemma FailingEnds(app: App, previous: Option<string>, a: World, b: World, c: World)
    requires Failing(app, a, b) && Evolve(b, c) && c.log.removals == b.log.removals
    ensures Failing(app, a, c) && c.slot == b.slot
    ensures Calm(a, c) ==> Calm(a, b) && Calm(b, c)
    ensures GivenUpIfAny(previous, b, c) ==> GivenUpIfAny(previous, a, c)
    ensures Serves(b, c, previous) ==> Serves(a, c, previous)
    ensures app.candidate in c.containers ==> app.candidate in b.containers
  {
    RoutedStep(app, a, b, c);
    ServesExtends(a, b, c, previous);
  }

  lemma RestoredStep(app: App, a: World, b: World, c: World)
    requires Evolve(a, b) && AppStep(app, b, c)
    ensures AppStep(app, a, c)
    ensures Survives(app, b, c) ==> Survives(app, a, c)
  {
    EvolveIsAppStep(app, a, b);
    EvolveIsAppStep(app, c, c);
    AppStepTransitive(app, a, b, c);
    if Survives(app, b, c) { SurvivesExtends(app, a, b, c, c); }
  }

  /** The last route write points at the container and was confirmed. */
  ghost predicate RoutedTo(writes: seq<RouteWrite>, target: Option<string>) {
    writes != [] && writes[|writes| - 1] == RouteWrite(target, true)
  }

  /** A failed verification leaves the traffic with the candidate. */
  predicate KeepsTraffic(app: App, previous: Option<string>) {
    app.verification != Some(Rollback) || app.hasVolume || previous.None?
  }

  /** A failed verification is to give the traffic back. */
  predicate RollsBack(app: App, previous: Option<string>, adopted: bool, met: Conditions) {
    app.verification == Some(Rollback) && !met.verified && previous.Some? && !adopted && !app.hasVolume
  }

  /** Verification of the routed candidate. rollback: this run decided, with a previous container that
      just proved it serves, to give the traffic back. */
  method Verify(docker: Docker, app: App, previous: Option<string>, adopted: bool, met: Conditions)
    returns (rollback: bool)
    modifies docker
    ensures Evolve(old(docker.w), docker.w)
    ensures rollback ==> app.verification == Some(Rollback) && previous.Some? && !adopted && !app.hasVolume
    ensures rollback ==> Serves(old(docker.w), docker.w, previous) && !met.verified
    ensures docker.w.log.removals == old(docker.w.log.removals)
    ensures !rollback && RollsBack(app, previous, adopted, met) ==>
              !Calm(old(docker.w), docker.w) || GivenUpIfAny(previous, old(docker.w), docker.w)
  {
    var ran := docker.Request();                          // an interrupted verification keeps the deployment
    ghost var w1 := docker.w;
    rollback := false;
    if ran.Ok? && !met.verified && app.verification == Some(Rollback) && previous.Some? && !adopted && !app.hasVolume {
      rollback := CanServe(docker, previous.value);
      EvolveTransitive(old(docker.w), w1, docker.w);
      ServesExtends(old(docker.w), w1, docker.w, previous);
    }
  }

  /** The cutover's try block. A failed reply is an exception; returned says the traffic already went
      back to the previous container. */
  method CutOver(docker: Docker, traefik: Traefik, app: App, previous: Option<string>, adopted: bool, met: Conditions)
    returns (r: Reply<()>, returned: bool)
    modifies docker, traefik
    ensures Evolve(old(docker.w), docker.w)
    ensures returned ==> r.Failed? && previous.Some? && RoutedTo(traefik.writes, previous)
    ensures returned ==> !adopted && !app.hasVolume
    ensures r.Ok? && (KeepsTraffic(app, previous) || adopted) ==> RoutedTo(traefik.writes, Some(app.candidate))
    ensures docker.w.log.removals == old(docker.w.log.removals)
    ensures returned ==> RollsBack(app, previous, adopted, met)
    // Verification is of a candidate that Traefik serves.
    ensures if r.Ok? || returned then old(traefik.writes) + [RouteWrite(Some(app.candidate), true)] <= traefik.writes
            else traefik.writes == old(traefik.writes)
                 || traefik.writes == old(traefik.writes) + [RouteWrite(Some(app.candidate), false)]
    ensures Calm(old(docker.w), docker.w) ==>
              if r.Failed? then returned
              else && RoutedTo(traefik.writes, Some(app.candidate))
                   && (RollsBack(app, previous, adopted, met) ==> GivenUpIfAny(previous, old(docker.w), docker.w))
  {
    r := traefik.PointAt(docker, app.candidate);
    returned := false;
    if r.Failed? || app.verification.None? {
      return;
    }
    ghost var w1 := docker.w;
    var rollback := Verify(docker, app, previous, adopted, met);
    EvolveTransitive(old(docker.w), w1, docker.w);
    if rollback {
      ghost var w2 := docker.w;
      returned := GiveTrafficBack(docker, traefik, app, previous.value);
      EvolveTransitive(old(docker.w), w2, docker.w);
      r := if returned then Failed else Ok(());
    }
  }

  /** The traffic goes back to the previous container, or else to the candidate again. */
  method GiveTrafficBack(docker: Docker, traefik: Traefik, app: App, previous: string) returns (returned: bool)
    modifies docker, traefik
    ensures Looked(old(docker.w), docker.w) && old(traefik.writes) <= traefik.writes
    ensures if returned then RoutedTo(traefik.writes, Some(previous)) else !Calm(old(docker.w), docker.w)
  {
    var moved := traefik.PointAt(docker, previous);
    returned := moved.Ok?;
    if !returned {
      ghost var w1 := docker.w;
      var _ := traefik.PointAt(docker, app.candidate);    // an error here keeps the candidate
      LookedTransitive(old(docker.w), w1, docker.w);
    }
  }

  /** The catch block of the cutover. */
  method FailCutover(docker: Docker, traefik: Traefik, app: App, previous: Option<string>, returned: bool)
    returns (result: AppResult)
    requires previous == app.previous || previous.None?
    requires returned ==> previous.Some? && RoutedTo(traefik.writes, previous)
    modifies docker, traefik
    ensures AppStep(app, old(docker.w), docker.w)
    ensures result.Thrown? || result.RestoreFailed? || result.CutoverFailed?
    ensures app.hasVolume && SnapshotHolds(old(docker.w)) ==> Survives(app, old(docker.w), docker.w)
    ensures result.CutoverFailed? && result.preserved ==>
              && result.completed
              && Serves(old(docker.w), docker.w, previous)
              && app.candidate !in docker.w.containers
              && RoutedTo(traefik.writes, previous)
    ensures RemovesAmong(old(docker.w), docker.w, [app.candidate])
    ensures Calm(old(docker.w), docker.w) && OnlyCandidateUses(app, old(docker.w)) ==>
              && (result.RestoreFailed? ==> app.hasVolume && MayNotReturn(app, previous, old(docker.w), docker.w))
              && (result.CutoverFailed? ==>
                    result.completed && CleanedUp(app, previous, result.preserved, old(docker.w), docker.w))
    ensures Calm(old(docker.w), docker.w) ==> !result.Thrown?
  {
    var removed := RemoveCandidate(docker, app);
    ghost var w1 := docker.w;
    CandidateRemoved(app, old(docker.w), w1);
    if removed.Failed? {
      return Thrown;
    }
    var restored := Ok(());
    EvolveIsAppStep(app, w1, w1);
    if app.hasVolume {
      restored := RestoreVolumeAndPrevious(docker, app, previous);
    }
    ghost var w2 := docker.w;
    FailingGoesOn(app, previous, old(docker.w), w1, w2);
    if restored.Failed? {
      return RestoreFailed;
    }
    var completed := FinishRollback(docker, traefik, app, previous, returned);
    ghost var w3 := docker.w;
    RollbackFinished(app, old(docker.w), w2, w3);
    var preserved := JudgePrevious(docker, previous, completed);
    FailingEnds(app, previous, old(docker.w), w3, docker.w);
    return CutoverFailed(preserved, completed);
  }

  /** The route goes back unless the traffic did already, and the snapshot goes. */
  method FinishRollback(docker: Docker, traefik: Traefik, app: App, previous: Option<string>, returned: bool)
    returns (completed: bool)
    requires returned ==> previous.Some? && RoutedTo(traefik.writes, previous)
    modifies docker, traefik
    ensures Finishing(app, old(docker.w), docker.w)
    ensures completed && previous.Some? ==> RoutedTo(traefik.writes, previous)
    ensures Calm(old(docker.w), docker.w) ==> completed && (app.hasVolume ==> docker.w.slot.None?)
  {
    completed := true;
    if !returned {
      var routed := RouteBack(docker, traefik, previous);
      completed := routed.Ok?;
    }
    ghost var w1 := docker.w;
    EvolveIsAppStep(app, old(docker.w), w1);
    if app.hasVolume && completed {
      DeleteSnapshot(docker, app);
      AppStepTransitive(app, old(docker.w), w1, docker.w);
    }
  }

  /** Nothing but the snapshot goes at most. */
  ghost predicate Finishing(app: App, w: World, w': World) {
    && AppStep(app, w, w') && w'.log.removals == w.log.removals
    && w'.log.ready == w.log.ready && w'.log.unready == w.log.unready
    && (forall n :: n in w'.containers ==> n in w.containers)
    && (Evolve(w, w') || (app.hasVolume && w'.slot.None? && w'.log.dirty == w.log.dirty))
  }

  lemma RollbackFinished(app: App, a: World, b: World, c: World)
    requires Failing(app, a, b) && Finishing(app, b, c)
    requires app.hasVolume && SnapshotHolds(a) ==> !b.log.dirty
    ensures Failing(app, a, c)
    ensures Calm(a, c) ==> Calm(a, b) && Calm(b, c)
  {
    AppStepTransitive(app, a, b, c);
    if app.hasVolume && SnapshotHolds(a) {
      DeletedSurvives(app, a, b, c);
    }
  }

  /** The flag of a failed cutover, from a last readiness check of the previous container. */
  method JudgePrevious(docker: Docker, previous: Option<string>, completed: bool) returns (preserved: bool)
    modifies docker
    ensures Evolve(old(docker.w), docker.w) && docker.w.log.removals == old(docker.w.log.removals)
    ensures preserved ==> completed && Serves(old(docker.w), docker.w, previous)
    ensures completed && !preserved ==> GivenUpIfAny(previous, old(docker.w), docker.w)
  {
    preserved := completed && previous.Some?;
    if preserved {
      preserved := CanServe(docker, previous.value);
    }
  }

  /** The containers the agent removed from w to w', if any, had this name. */
  ghost predicate RemovesOnly(w: World, w': World, name: Option<string>) {
    forall n :: RemovedBetween(w, w', n) ==> name == Some(n)
  }

  /** retirePreviousAppContainer, in at most three attempts, and the deletion of the snapshot: nothing starts, and unless
      it is reported as deferred the previous container is gone. */
  method Retire(docker: Docker, app: App, previous: Option<string>, snapshot: bool)
    returns (deferred: bool, ghost attempts: nat)
    modifies docker
    ensures AppStep(app, old(docker.w), docker.w)
    ensures RemovesOnly(old(docker.w), docker.w, previous) && (!snapshot ==> docker.w.slot == old(docker.w).slot)
    ensures !deferred && previous.Some? ==> previous.value !in docker.w.containers
    ensures Calm(old(docker.w), docker.w) ==> !deferred && (snapshot ==> docker.w.slot.None?)
    ensures docker.w.log.unready == old(docker.w.log.unready) && (deferred ==> attempts == 3)
  {
    deferred, attempts := false, 0;
    if previous.Some? {
      deferred := true;
      LookedIsTidied(docker.w, docker.w, [previous.value]);
      var attempt := 0;
      while attempt < 3 && deferred
        invariant Tidied(old(docker.w), docker.w, [previous.value])
        invariant !deferred ==> previous.value !in docker.w.containers
        invariant deferred && attempt > 0 ==> !Calm(old(docker.w), docker.w)
        invariant attempts == attempt <= 3
      {
        ghost var w1 := docker.w;
        var stopped := docker.StopContainer(previous.value);
        ghost var w2 := docker.w;
        LookedIsTidied(w1, w2, [previous.value]);
        TidiedTransitive(old(docker.w), w1, w2, [previous.value], [previous.value]);
        var removed := docker.RemoveContainer(previous.value, stopped.Failed?);
        TidiedTransitive(old(docker.w), w2, docker.w, [previous.value], [previous.value]);
        deferred := removed.Failed?;
        attempt := attempt + 1;
        attempts := attempts + 1;
      }
      forall n | RemovedBetween(old(docker.w), docker.w, n) ensures previous == Some(n) {
        assert n in [previous.value];
      }
    }
    EvolveIsAppStep(app, old(docker.w), docker.w);
    if snapshot {
      ghost var w1 := docker.w;
      DeleteSnapshot(docker, app);
      AppStepTransitive(app, old(docker.w), w1, docker.w);
    }
  }

  // ----- deployAppImageWithDependencies

  /** The pre-activation phase: passed, halted by its job, or ended by another error. */
  datatype PreActivation = Passed | JobHalted(preserved: bool) | Errored

  method RunPreActivation(docker: Docker, app: App, found: Found, met: Conditions) returns (outcome: PreActivation)
    modifies docker
    ensures Evolve(old(docker.w), docker.w) && (outcome.JobHalted? ==> app.preActivation)
    ensures outcome == JobHalted(true) ==>
              Serves(old(docker.w), docker.w, if found.adopted then Some(app.candidate) else found.previous)
    ensures docker.w.log.removals == old(docker.w.log.removals)
    ensures outcome.Passed? ==> !app.preActivation || met.jobSucceeds
    ensures Calm(old(docker.w), docker.w) ==>
              match outcome
              case Passed => true
              case Errored => app.preActivation && !met.jobSucceeds && met.jobDefers
              case JobHalted(preserved) =>
                && !met.jobSucceeds && !met.jobDefers
                && (!preserved ==> GivenUpIfAny(if found.adopted then Some(app.candidate) else found.previous,
                                                old(docker.w), docker.w))
  {
    if !app.preActivation {
      return Passed;
    }
    var ran := docker.Request();
    ghost var w1 := docker.w;
    if ran.Ok? && met.jobSucceeds {
      return Passed;
    }
    if met.jobDefers {
      return Errored;
    }
    var active := if found.adopted then Some(app.candidate) else found.previous;
    if active.None? {
      return JobHalted(false);
    }
    var serves := CanServe(docker, active.value);
    EvolveTransitive(old(docker.w), w1, docker.w);
    ServesExtends(old(docker.w), w1, docker.w, active);
    return JobHalted(serves);
  }

  /** What the end of a run means, from w on: the flags of its rollout result are true, and live is what it
      says. before and after: the route writes. */
  ghost predicate TrueResult(app: App, found: Found, result: AppResult, w: World, w': World,
                             before: seq<RouteWrite>, after: seq<RouteWrite>)
  {
    match result
    case Halted(preserved, returned) =>
      && (preserved ==> Serves(w, w', if found.adopted && !returned then Some(app.candidate) else found.previous))
      && (if returned then preserved && RoutedTo(after, found.previous) else after == before)
    case QuiesceFailed(preserved) => preserved ==> Serves(w, w', found.previous) && RoutedTo(after, found.previous)
    case ReadinessFailed(preserved) => preserved ==>
      && Serves(w, w', found.previous) && app.candidate !in w'.containers
      && after == before + ReadinessFailureRoutes(app.hasVolume, [], found.previous.value)
    case CutoverFailed(preserved, completed) => preserved ==>
      && completed && Serves(w, w', found.previous) && app.candidate !in w'.containers
      && RoutedTo(after, found.previous)
    case Live(deferred) =>
      && Serves(w, w', Some(app.candidate))
      && (KeepsTraffic(app, found.previous) || found.adopted ==> RoutedTo(after, Some(app.candidate)))
      && (!deferred && found.previous.Some? ==> found.previous.value !in w'.containers)
      && (found.adopted ==> w'.slot == w.slot)
    case _ => true
  }

  lemma TrueResultExtends(app: App, found: Found, result: AppResult, a: World, b: World, c: World,
                          before: seq<RouteWrite>, after: seq<RouteWrite>)
    requires a.log.ready <= b.log.ready <= c.log.ready && TrueResult(app, found, result, b, c, before, after)
    requires found.adopted ==> a.slot == b.slot
    ensures TrueResult(app, found, result, a, c, before, after)
  {
    ServesExtends(a, b, c, found.previous);
    ServesExtends(a, b, c, Some(app.candidate));
  }

  /** At the world passed the candidate ran and had passed its check, a new one as it was to be created; the
      run removed at most what held its name before, and the previous container afterwards. */
  ghost predicate KeptCandidate(app: App, found: Found, w: World, passed: World, w': World) {
    && Running(passed.containers, app.candidate) && Serves(w, passed, Some(app.candidate))
    && (!found.adopted ==> IsNew(app, passed.containers))
    && RemovesAmong(w, passed, [app.candidate]) && RemovesOnly(passed, w', found.previous)
  }

  /** How a run ends when nothing goes wrong but that a check gives up. after: the route writes. */
  ghost predicate EndsCalmly(app: App, met: Conditions, found: Found, result: AppResult, w: World, w': World,
                             after: seq<RouteWrite>)
  {
    match result
    case Thrown =>
      || Refuses(app, met, w.containers)
      || (app.preActivation && !met.jobSucceeds && met.jobDefers)
      || (found.adopted && GaveUpOn(w, w', app.candidate))
    case Halted(preserved, returned) =>
      if returned then app.verificationRolledBack
      else && app.preActivation && !met.jobSucceeds && !met.jobDefers
           && (!preserved ==> GivenUpIfAny(if found.adopted then Some(app.candidate) else found.previous, w, w'))
    case QuiesceFailed(_) => app.hasVolume && !OnlyConsumer(w.containers, found.previous)
    case RestoreFailed => app.hasVolume && MayNotReturn(app, found.previous, w, w')
    case ReadinessFailed(preserved) =>
      GaveUpOn(w, w', app.candidate) && CleanedUp(app, found.previous, preserved, w, w')
    case CutoverFailed(preserved, completed) =>
      && completed && RollsBack(app, found.previous, found.adopted, met)
      && CleanedUp(app, found.previous, preserved, w, w')
    case Live(deferred) =>
      && !deferred && RoutedTo(after, Some(app.candidate)) && (app.hasVolume && !found.adopted ==> w'.slot.None?)
      && (RollsBack(app, found.previous, found.adopted, met) ==> GivenUpIfAny(found.previous, w, w'))
  }

  /** What happened before, at most that containers ended and the candidate's name was cleared, changes nothing
      of that. */
  lemma EndsCalmlyFrom(app: App, met: Conditions, found: Found, result: AppResult, a: World, b: World, c: World,
                       after: seq<RouteWrite>)
    requires Evolve(a, b.(slot := a.slot)) && Calm(a, b) && RemovesAmong(a, b, [app.candidate])
    requires Traced(b, c) && EndsCalmly(app, met, found, result, b, c, after)
    ensures EndsCalmly(app, met, found, result, a, c, after)
  {
    if result.Thrown? && Refuses(app, met, b.containers) && app.hasVolume &&
       OthersUse(app, b.containers[app.candidate].running, b.containers) {
      var n :| Running(b.containers, n) && b.containers[n].mounts && n != app.candidate &&
               (b.containers[app.candidate].running || app.previous != Some(n));
      assert Running(a.containers, n) && a.containers[n].mounts;
      assert OthersUse(app, a.containers[app.candidate].running, a.containers);
    }
    if result.QuiesceFailed? {
      var n :| Running(b.containers, n) && b.containers[n].mounts && found.previous != Some(n);
      assert Running(a.containers, n) && a.containers[n].mounts;
    }
    MayNotReturnFrom(app, found.previous, a, b, c);
  }

  lemma StayResumable(app: App, w: World, w1: World, w2: World)
    requires AppStep(app, w, w1) && Evolve(w1, w2)
    ensures AppStep(app, w, w2) && w2.slot == w1.slot
    ensures Resumable(w1) ==> Resumable(w2) && Survives(app, w, w2)
  {
    EvolveIsAppStep(app, w1, w2);
    AppStepTransitive(app, w, w1, w2);
    EvolveIsPreviousStep(app, w1, w2);
    if Resumable(w1) { PreviousStepSurvives(app, w, w1, w2); }
  }

  lemma SurvivesAll(app: App, a: World, b: World, c: World)
    requires AppStep(app, a, b) && AppStep(app, b, c)
    ensures AppStep(app, a, c)
    ensures Survives(app, b, c) ==> Survives(app, a, c)
  {
    AppStepTransitive(app, a, b, c);
    EvolveIsAppStep(app, c, c);
    if Survives(app, b, c) { SurvivesExtends(app, a, b, c, c); }
  }

  /** The cutover of a ready candidate, its catch block, and the retirement. The candidate passed its check
      between w0 and now. */
  method GoLive(docker: Docker, traefik: Traefik, app: App, found: Found, met: Conditions, ghost w0: World)
    returns (result: AppResult)
    requires found.previous == app.previous || found.previous.None?
    requires app.hasVolume && !found.adopted ==> docker.w.slot.Some?
    requires w0.log.ready <= docker.w.log.ready && Serves(w0, docker.w, Some(app.candidate))
    requires found.adopted ==> docker.w.slot == w0.slot
    modifies docker, traefik
    ensures AppStep(app, old(docker.w), docker.w)
    ensures result.Thrown? || result.RestoreFailed? || result.CutoverFailed? || result.Live?
    ensures app.hasVolume && Resumable(old(docker.w)) && !result.Live? ==> Survives(app, old(docker.w), docker.w)
    ensures TrueResult(app, found, result, w0, docker.w, old(traefik.writes), traefik.writes)
    ensures if result.Live? then RemovesOnly(old(docker.w), docker.w, found.previous)
            else RemovesAmong(old(docker.w), docker.w, [app.candidate])
    ensures Calm(old(docker.w), docker.w) && (!found.adopted ==> OnlyCandidateUses(app, old(docker.w))) ==>
              !result.Thrown? && EndsCalmly(app, met, found, result, old(docker.w), docker.w, traefik.writes)
  {
    EvolveIsAppStep(app, docker.w, docker.w);
    var cut, returned := CutOver(docker, traefik, app, found.previous, found.adopted, met);
    ghost var w1 := docker.w;
    StayResumable(app, old(docker.w), old(docker.w), w1);
    if cut.Failed? {
      if found.adopted {
        return Thrown;
      }
      result := FailCutover(docker, traefik, app, found.previous, returned);
      SurvivesAll(app, old(docker.w), w1, docker.w);
      ServesExtends(w0, w1, docker.w, found.previous);
      CutThenFailed(app, met, found, result, old(docker.w), w1, docker.w, traefik.writes);
      return;
    }
    ghost var attempts;
    var deferred;
    deferred, attempts := Retire(docker, app, found.previous, app.hasVolume && !found.adopted);
    AppStepTransitive(app, old(docker.w), w1, docker.w);
    ServesExtends(w0, old(docker.w), docker.w, Some(app.candidate));
    return Live(deferred);
  }

  lemma CutThenFailed(app: App, met: Conditions, found: Found, result: AppResult, a: World, b: World, c: World,
                      after: seq<RouteWrite>)
    requires Evolve(a, b) && b.log.removals == a.log.removals && Traced(b, c)
    requires RemovesAmong(b, c, [app.candidate])
    ensures RemovesAmong(a, c, [app.candidate])
    ensures Calm(a, c) ==> Calm(a, b) && Calm(b, c)
    ensures OnlyCandidateUses(app, a) ==> OnlyCandidateUses(app, b)
    ensures Calm(a, c) && EndsCalmly(app, met, found, result, b, c, after) ==>
              EndsCalmly(app, met, found, result, a, c, after)
  {
    if Calm(a, c) && EndsCalmly(app, met, found, result, b, c, after) {
      EndsCalmlyFrom(app, met, found, result, a, b, c, after);
    }
  }

  /** From a candidate that is to be started (or was adopted) to the end. */
  method Activate(docker: Docker, traefik: Traefik, app: App, found: Found, met: Conditions)
    returns (result: AppResult, ghost passed: World)
    requires found.previous == app.previous || found.previous.None?
    requires app.hasVolume && !found.adopted ==> NoConsumer(docker.w.containers) && docker.w.slot.Some?
    modifies docker, traefik
    ensures AppStep(app, old(docker.w), docker.w)
    ensures result.Thrown? || result.RestoreFailed? || result.ReadinessFailed? || result.CutoverFailed? || result.Live?
    ensures app.hasVolume && Resumable(old(docker.w)) && !result.Live? ==> Survives(app, old(docker.w), docker.w)
    ensures TrueResult(app, found, result, old(docker.w), docker.w, old(traefik.writes), traefik.writes)
    ensures result.Live? ==> KeptCandidate(app, found, old(docker.w), passed, docker.w)
    ensures !result.Live? ==> RemovesAmong(old(docker.w), docker.w, [app.candidate])
    ensures Calm(old(docker.w), docker.w) ==>
              EndsCalmly(app, met, found, result, old(docker.w), docker.w, traefik.writes)
    ensures old(docker.w).log.ready <= passed.log.ready
  {
    var ready := StartAndJudge(docker, app, found.adopted);
    passed := docker.w;
    StayResumable(app, old(docker.w), passed, passed);
    if ready.Failed? || (found.adopted && !ready.value) {
      return Thrown, passed;
    }
    if !ready.value {
      result := FailReadiness(docker, traefik, app, found.previous);
      TrueResultExtends(app, found, result, old(docker.w), passed, docker.w, old(traefik.writes), traefik.writes);
    } else {
      result := GoLive(docker, traefik, app, found, met, old(docker.w));
    }
    SurvivesAll(app, old(docker.w), passed, docker.w);
    JudgedThenEnded(app, met, found, result, old(docker.w), passed, docker.w, traefik.writes);
  }

  /** The candidate started, if it was not adopted, and checked. */
  method StartAndJudge(docker: Docker, app: App, adopted: bool) returns (ready: Reply<bool>)
    requires app.hasVolume && !adopted ==> NoConsumer(docker.w.containers) && docker.w.slot.Some?
    modifies docker
    ensures AppStep(app, old(docker.w), docker.w) && docker.w.slot == old(docker.w).slot
    ensures RemovesAmong(old(docker.w), docker.w, [app.candidate])
    ensures Resumable(old(docker.w)) && (!app.hasVolume || !adopted ==> old(docker.w).slot.Some?) ==> Resumable(docker.w)
    ensures ready.Failed? ==> !adopted && !Calm(old(docker.w), docker.w)
    ensures ready.Ok? && !adopted ==> IsNew(app, docker.w.containers) && OnlyCandidateUses(app, docker.w)
    ensures ready.Ok? && ready.value ==>
              Serves(old(docker.w), docker.w, Some(app.candidate)) && Running(docker.w.containers, app.candidate)
    ensures ready.Ok? && !ready.value ==> GaveUpOn(old(docker.w), docker.w, app.candidate)
  {
    var started := StartUnlessAdopted(docker, app, adopted);
    ghost var w1 := docker.w;
    if started.Failed? {
      return Failed;
    }
    var serves := CanServe(docker, app.candidate);
    StayResumable(app, old(docker.w), w1, docker.w);
    ServesExtends(old(docker.w), w1, docker.w, Some(app.candidate));
    CandidateJudged(app, adopted, old(docker.w), w1, docker.w);
    return Ok(serves);
  }

  method StartUnlessAdopted(docker: Docker, app: App, adopted: bool) returns (started: Reply<()>)
    requires app.hasVolume && !adopted ==> NoConsumer(docker.w.containers) && docker.w.slot.Some?
    modifies docker
    ensures if adopted then docker.w == old(docker.w) else Replacing(app, old(docker.w), docker.w)
    ensures AppStep(app, old(docker.w), docker.w) && docker.w.slot == old(docker.w).slot
    ensures Resumable(old(docker.w)) && (!app.hasVolume || !adopted ==> old(docker.w).slot.Some?) ==> Resumable(docker.w)
    ensures started.Ok? && !adopted ==> IsNew(app, docker.w.containers)
    ensures started.Failed? ==> !adopted && !Calm(old(docker.w), docker.w)
  {
    started := Ok(());
    EvolveIsAppStep(app, docker.w, docker.w);
    if !adopted {
      started := EnsureCandidate(docker, app);
    }
  }

  /** From a candidate just started, if it was not adopted, to the verdict on it. */
  lemma CandidateJudged(app: App, adopted: bool, a: World, b: World, c: World)
    requires if adopted then b == a else Replacing(app, a, b)
    requires Evolve(b, c) && c.log.removals == b.log.removals && PoliciesKept(b, c)
    requires !adopted && app.hasVolume ==> NoConsumer(a.containers) && a.slot.Some?
    ensures Traced(a, c) && RemovesAmong(a, c, [app.candidate]) && c.slot == a.slot
    ensures Calm(a, c) ==> Calm(a, b) && Calm(b, c)
    ensures !adopted ==> OnlyCandidateUses(app, c)
    ensures !adopted && IsNew(app, b.containers) ==> IsNew(app, c.containers)
    ensures GaveUpOn(b, c, app.candidate) ==> GaveUpOn(a, c, app.candidate)
  {
    if !adopted && app.hasVolume {
      forall n | Running(c.containers, n) && c.containers[n].mounts ensures n == app.candidate {
        assert Running(b.containers, n) && (n !in [app.candidate] ==> Running(a.containers, n));
      }
    }
  }

  lemma JudgedThenEnded(app: App, met: Conditions, found: Found, result: AppResult, a: World, b: World, c: World,
                        after: seq<RouteWrite>)
    requires Traced(a, b) && Traced(b, c) && RemovesAmong(a, b, [app.candidate])
    ensures RemovesAmong(b, c, [app.candidate]) ==> RemovesAmong(a, c, [app.candidate])
    ensures Calm(a, c) ==> Calm(a, b) && Calm(b, c)
    ensures Calm(a, c) && !result.Thrown? && !result.QuiesceFailed? && EndsCalmly(app, met, found, result, b, c, after) ==>
              EndsCalmly(app, met, found, result, a, c, after)
    ensures forall preserved :: CleanedUp(app, found.previous, preserved, b, c) ==>
              CleanedUp(app, found.previous, preserved, a, c)
    ensures Calm(a, c) && MayNotReturn(app, found.previous, b, c) ==> MayNotReturn(app, found.previous, a, c)
    ensures GaveUpOn(a, b, app.candidate) ==> GaveUpOn(a, c, app.candidate)
  {
    if Calm(a, c) { MayNotReturnFrom(app, found.previous, a, b, c); }
    if RemovesAmong(b, c, [app.candidate]) { RemovalsAddUp(a, b, c, [app.candidate]); }
  }

  /** Route writes before activation: none, or those of a return that was called for and did not succeed. */
  ghost predicate EarlyWrites(app: App, found: Found, early: seq<RouteWrite>) {
    early == [] ||
    (app.verificationRolledBack && found.previous.Some? && UnconfirmedReturn(early, found.previous.value))
  }

  /** The pre-activation job, and the volume. halt: how the run ended there, if it did. */
  method PrepareRelease(docker: Docker, app: App, found: Found, met: Conditions, ghost after: seq<RouteWrite>)
    returns (halt: Option<AppResult>)
    modifies docker
    ensures Evolve(old(docker.w), docker.w)
    ensures halt.Some? ==> halt.value.Thrown? || (halt.value.Halted? && !halt.value.returned && app.preActivation)
    ensures halt == Some(Halted(true, false)) ==>
              Serves(old(docker.w), docker.w, if found.adopted then Some(app.candidate) else found.previous)
    ensures docker.w.log.removals == old(docker.w.log.removals)
    ensures halt.None? ==> !app.preActivation || met.jobSucceeds
    ensures halt.Some? && Calm(old(docker.w), docker.w) ==>
              EndsCalmly(app, met, found, halt.value, old(docker.w), docker.w, after)
  {
    var pre := RunPreActivation(docker, app, found, met);
    halt := match pre
      case Errored => Some(Thrown)
      case JobHalted(preserved) => Some(Halted(preserved, false))
      case Passed => None;
    if pre.Passed? && app.hasVolume && !found.adopted {
      ghost var w1 := docker.w;
      var created := docker.Request();                    // the volume exists
      EvolveTransitive(old(docker.w), w1, docker.w);
      if created.Failed? {
        halt := Some(Thrown);
      }
    }
  }

  /** A release an earlier run rejected gets its traffic returned, where there is a previous container. */
  method ReturnIfRejected(docker: Docker, traefik: Traefik, app: App, found: Found)
    returns (returned: bool, ghost early: seq<RouteWrite>)
    modifies docker, traefik
    ensures Evolve(old(docker.w), docker.w) && EarlyWrites(app, found, early)
    ensures returned ==>
              early == [] && Serves(old(docker.w), docker.w, found.previous) && RoutedTo(traefik.writes, found.previous)
    ensures !returned ==> traefik.writes == old(traefik.writes) + early
    ensures RemovesAmong(old(docker.w), docker.w, [app.candidate]) && (returned ==> app.verificationRolledBack)
    ensures !returned && app.verificationRolledBack && Calm(old(docker.w), docker.w) ==>
              early == [] && GivenUpIfAny(found.previous, old(docker.w), docker.w)
  {
    returned, early := false, [];
    if app.verificationRolledBack && found.previous.Some? {
      returned, early := ReturnTrafficFromRejectedRelease(docker, traefik, app, found.previous.value, found.adopted);
      early := if returned then [] else early;
    }
  }

  /** What a run up to its activation, from w on, did to the host and the route, and why it halted if it did. */
  ghost predicate Reached(app: App, met: Conditions, found: Found, halt: Option<AppResult>, early: seq<RouteWrite>,
                          w: World, w': World, before: seq<RouteWrite>, after: seq<RouteWrite>)
  {
    && Evolve(w, w') && RemovesAmong(w, w', [app.candidate]) && EarlyWrites(app, found, early)
    && (halt.Some? ==>
          && (halt.value.Thrown? || (halt.value.Halted? && (halt.value.returned || app.preActivation)))
          && TrueResult(app, found, halt.value, w, w', before + early, after))
    && (halt.None? ==> after == before + early && (!app.preActivation || met.jobSucceeds))
    && (Calm(w, w') ==>
          && (halt.Some? ==> EndsCalmly(app, met, found, halt.value, w, w', after))
          && (app.verificationRolledBack && (halt.Some? ==> !halt.value.Thrown? && !halt.value.returned) ==>
                GivenUpIfAny(found.previous, w, w')))
  }

  lemma ReachedSince(app: App, met: Conditions, found: Found, halt: Option<AppResult>, early: seq<RouteWrite>,
                     a: World, b: World, c: World, before: seq<RouteWrite>, after: seq<RouteWrite>)
    requires Evolve(a, b) && RemovesAmong(a, b, [app.candidate])
    requires Reached(app, met, found, halt, early, b, c, before, after)
    ensures Reached(app, met, found, halt, early, a, c, before, after)
  {
    EvolveTransitive(a, b, c);
    RemovalsAddUp(a, b, c, [app.candidate]);
    ServesExtends(a, b, c, found.previous);
    ServesExtends(a, b, c, Some(app.candidate));
    if halt.Some? {
      assert b.(slot := a.slot) == b;
      EndedSince(app, met, found, halt.value, a, b, c, c, after);
    }
  }

  /** A release already rejected gets its traffic back, any other runs its pre-activation job. */
  method ReturnOrPrepare(docker: Docker, traefik: Traefik, app: App, found: Found, met: Conditions)
    returns (halt: Option<AppResult>, ghost early: seq<RouteWrite>)
    modifies docker, traefik
    ensures Reached(app, met, found, halt, early, old(docker.w), docker.w, old(traefik.writes), traefik.writes)
  {
    var returned;
    returned, early := ReturnIfRejected(docker, traefik, app, found);
    ghost var w1 := docker.w;
    if returned {
      return Some(Halted(true, true)), early;
    }
    halt := PrepareRelease(docker, app, found, met, traefik.writes);
    PreparedSince(app, met, found, halt, early, old(docker.w), w1, docker.w, old(traefik.writes), traefik.writes);
  }

  lemma PreparedSince(app: App, met: Conditions, found: Found, halt: Option<AppResult>, early: seq<RouteWrite>,
                      a: World, b: World, c: World, before: seq<RouteWrite>, after: seq<RouteWrite>)
    requires Evolve(a, b) && RemovesAmong(a, b, [app.candidate]) && EarlyWrites(app, found, early)
    requires app.verificationRolledBack && Calm(a, b) ==> GivenUpIfAny(found.previous, a, b)
    requires after == before + early && Evolve(b, c) && c.log.removals == b.log.removals
    requires if halt.None? then !app.preActivation || met.jobSucceeds
             else halt.value.Thrown? || (halt.value.Halted? && !halt.value.returned && app.preActivation)
    requires halt == Some(Halted(true, false)) ==>
               Serves(b, c, if found.adopted then Some(app.candidate) else found.previous)
    requires halt.Some? && Calm(b, c) ==> EndsCalmly(app, met, found, halt.value, b, c, after)
    ensures Reached(app, met, found, halt, early, a, c, before, after)
  {
    EvolveTransitive(a, b, c);
    RemovalsAddUp(a, b, c, [app.candidate]);
    ServesExtends(a, b, c, found.previous);
    ServesExtends(a, b, c, Some(app.candidate));
    if halt.Some? {
      assert b.(slot := a.slot) == b;
      EndedSince(app, met, found, halt.value, a, b, c, c, after);
    }
  }

  /** Everything before the live runtime is touched: an existing candidate, a release already rejected,
      the pre-activation job. early: the route writes of an attempt to return the rejected one's traffic. */
  method ReachActivation(docker: Docker, traefik: Traefik, app: App, met: Conditions)
    returns (halt: Option<AppResult>, found: Found, ghost early: seq<RouteWrite>)
    modifies docker, traefik
    ensures found.previous == app.previous || found.previous.None?
    ensures halt != Some(Thrown) ==> FoundPrevious(app, found.previous, old(docker.w), docker.w)
    ensures halt != Some(Thrown) && app.candidate !in old(docker.w).containers ==> found == Found(false, app.previous)
    ensures Reached(app, met, found, halt, early, old(docker.w), docker.w, old(traefik.writes), traefik.writes)
  {
    early := [];
    var resolved := ResolveExistingCandidate(docker, app, met);
    ghost var w1 := docker.w;
    if resolved.Failed? {
      return Some(Thrown), Found(false, None), [];
    }
    found := resolved.value;
    halt, early := ReturnOrPrepare(docker, traefik, app, found, met);
    ReachedSince(app, met, found, halt, early, old(docker.w), w1, docker.w, old(traefik.writes), traefik.writes);
  }

  /** The single-writer quiesce with its catch block, then the activation. */
  method QuiesceAndActivate(docker: Docker, traefik: Traefik, app: App, found: Found, met: Conditions)
    returns (result: AppResult, ghost passed: World)
    requires found.previous == app.previous || found.previous.None?
    modifies docker, traefik
    ensures AppStep(app, old(docker.w), docker.w) && !result.Halted?
    ensures app.hasVolume && Resumable(old(docker.w)) && !result.Live? ==> Survives(app, old(docker.w), docker.w)
    ensures TrueResult(app, found, result, old(docker.w), docker.w, old(traefik.writes), traefik.writes)
    ensures result.Live? ==> KeptCandidate(app, found, old(docker.w), passed, docker.w)
    ensures !result.Live? ==> RemovesAmong(old(docker.w), docker.w, [app.candidate])
    ensures Calm(old(docker.w), docker.w) ==>
              EndsCalmly(app, met, found, result, old(docker.w), docker.w, traefik.writes)
    ensures old(docker.w).log.ready <= passed.log.ready
  {
    passed := docker.w;
    EvolveIsAppStep(app, docker.w, docker.w);
    if app.hasVolume && !found.adopted {
      var quiesced := QuiesceAndSnapshot(docker, found.previous);
      ghost var w1 := docker.w;
      PreparedIsAppStep(app, old(docker.w), w1);
      if quiesced.Failed? {
        var preserved := UndoQuiesce(docker, traefik, app, found.previous);
        AppStepTransitive(app, old(docker.w), w1, docker.w);
        ServesExtends(old(docker.w), w1, docker.w, found.previous);
        if Resumable(w1) { PreviousStepSurvives(app, old(docker.w), w1, docker.w); }
        return QuiesceFailed(preserved), passed;
      }
    }
    ghost var w2 := docker.w;
    result, passed := Activate(docker, traefik, app, found, met);
    SurvivesAll(app, old(docker.w), w2, docker.w);
    TrueResultExtends(app, found, result, old(docker.w), w2, docker.w, old(traefik.writes), traefik.writes);
    ServesExtends(old(docker.w), w2, passed, Some(app.candidate));
    EndedSince(app, met, found, result, old(docker.w), w2, docker.w, passed, traefik.writes);
  }

  /** What was found or prepared before changes nothing of how the rest ends. */
  lemma EndedSince(app: App, met: Conditions, found: Found, result: AppResult, a: World, b: World, c: World,
                   passed: World, after: seq<RouteWrite>)
    requires Evolve(a, b.(slot := a.slot)) && RemovesAmong(a, b, [app.candidate]) && Traced(b, c)
    ensures RemovesAmong(b, c, [app.candidate]) ==> RemovesAmong(a, c, [app.candidate])
    ensures RemovesAmong(b, passed, [app.candidate]) ==> RemovesAmong(a, passed, [app.candidate])
    ensures Calm(a, c) ==> Calm(a, b) && Calm(b, c)
    ensures Calm(a, c) && EndsCalmly(app, met, found, result, b, c, after) ==>
              EndsCalmly(app, met, found, result, a, c, after)
    ensures GivenUpIfAny(found.previous, a, b) ==> GivenUpIfAny(found.previous, a, c)
  {
    if RemovesAmong(b, c, [app.candidate]) { RemovalsAddUp(a, b, c, [app.candidate]); }
    if RemovesAmong(b, passed, [app.candidate]) { RemovalsAddUp(a, b, passed, [app.candidate]); }
    if Calm(a, c) && EndsCalmly(app, met, found, result, b, c, after) {
      EndsCalmlyFrom(app, met, found, result, a, b, c, after);
    }
  }

  /** deployAppImageWithDependencies. found: what it found of candidate and previous container; early: the
      route writes of an attempt to return the traffic of a release already rejected; passed: the host when
      the candidate had passed its check. */
  method DeployApp(docker: Docker, traefik: Traefik, app: App, met: Conditions)
    returns (result: AppResult, found: Found, ghost early: seq<RouteWrite>, ghost passed: World)
    modifies docker, traefik
    // Single writer: every start on a volume found no running consumer of it.
    ensures AppStep(app, old(docker.w), docker.w)
    // The volume's earlier contents survive every exit but success.
    ensures app.hasVolume && Resumable(old(docker.w)) && !result.Live? ==> Survives(app, old(docker.w), docker.w)
    // The flags are true, and live means a checked candidate with the traffic.
    ensures found.previous == app.previous || found.previous.None?
    ensures EarlyWrites(app, found, early)
    ensures !result.Thrown? ==> FoundPrevious(app, found.previous, old(docker.w), docker.w)
    ensures !result.Thrown? && app.candidate !in old(docker.w).containers ==> found == Found(false, app.previous)
    ensures result == Live(false) && app.previous.Some? ==> app.previous.value !in docker.w.containers
                                                            || app.previous.value == app.candidate
    ensures TrueResult(app, found, result, old(docker.w), docker.w, old(traefik.writes) + early, traefik.writes)
    // Where a halt and a readiness failure that report a preserved runtime leave the traffic.
    ensures result == ReadinessFailed(true) && (app.hasVolume || !app.verificationRolledBack) ==>
              traefik.writes == old(traefik.writes) || RoutedTo(traefik.writes, found.previous)
    ensures result.Halted? && result.preserved && !(app.verificationRolledBack && app.preActivation) ==>
              traefik.writes == old(traefik.writes) || RoutedTo(traefik.writes, found.previous)
    // A failed run removes nothing but what holds the candidate's name, and unless something goes wrong each end
    // has its cause: see EndsCalmly; a release already rejected goes on only if the previous container cannot serve.
    ensures !result.Live? ==> RemovesAmong(old(docker.w), docker.w, [app.candidate])
    ensures Calm(old(docker.w), docker.w) ==>
              && EndsCalmly(app, met, found, result, old(docker.w), docker.w, traefik.writes)
              && (app.verificationRolledBack && !result.Thrown? && !(result.Halted? && result.returned) ==>
                    GivenUpIfAny(found.previous, old(docker.w), docker.w))
    ensures result.Live? && app.preActivation ==> met.jobSucceeds
    // The live candidate is not removed by its own run unless it is recorded as its own predecessor.
    ensures result.Live? ==> KeptCandidate(app, found, old(docker.w), passed, docker.w)
  {
    var halt;
    halt, found, early := ReachActivation(docker, traefik, app, met);
    passed := docker.w;
    EvolveIsAppStep(app, old(docker.w), old(docker.w));
    StayResumable(app, old(docker.w), old(docker.w), passed);
    if halt.Some? {
      return halt.value, found, early, passed;
    }
    ghost var w1 := docker.w;
    result, passed := QuiesceAndActivate(docker, traefik, app, found, met);
    ReachedThenActivated(app, met, found, result, old(docker.w), w1, docker.w, passed, old(traefik.writes) + early,
                         traefik.writes);
  }

  lemma ReachedThenActivated(app: App, met: Conditions, found: Found, result: AppResult, a: World, b: World, c: World,
                             passed: World, before: seq<RouteWrite>, after: seq<RouteWrite>)
    requires Evolve(a, b) && RemovesAmong(a, b, [app.candidate]) && AppStep(app, b, c)
    requires b.log.ready <= passed.log.ready && TrueResult(app, found, result, b, c, before, after)
    ensures AppStep(app, a, c) && TrueResult(app, found, result, a, c, before, after)
    ensures Survives(app, b, c) ==> Survives(app, a, c)
    ensures KeptCandidate(app, found, b, passed, c) ==> KeptCandidate(app, found, a, passed, c)
    ensures RemovesAmong(b, c, [app.candidate]) ==> RemovesAmong(a, c, [app.candidate])
    ensures Calm(a, c) ==> Calm(a, b) && Calm(b, c)
    ensures Calm(a, c) && EndsCalmly(app, met, found, result, b, c, after) ==>
              EndsCalmly(app, met, found, result, a, c, after)
    ensures GivenUpIfAny(found.previous, a, b) ==> GivenUpIfAny(found.previous, a, c)
  {
    EvolveIsAppStep(app, a, b);
    SurvivesAll(app, a, b, c);
    TrueResultExtends(app, found, result, a, b, c, before, after);
    ServesExtends(a, b, passed, Some(app.candidate));
    assert b.(slot := a.slot) == b;
    EndedSince(app, met, found, result, a, b, c, passed, after);
  }

  /** A live candidate that is not its own recorded predecessor is not among what its run removed since, and
      so is still there unless something went wrong. */
  lemma LiveCandidateIsKept(app: App, found: Found, w: World, passed: World, w': World)
    requires KeptCandidate(app, found, w, passed, w') && (found.previous == app.previous || found.previous.None?)
    requires app.previous != Some(app.candidate) && Traced(passed, w')
    ensures !RemovedBetween(passed, w', app.candidate)
    ensures Calm(passed, w') ==> app.candidate in w'.containers
  {
    assert found.previous != Some(app.candidate);
  }

  /** Over any run: nothing starts on the volume while anything uses it. */
  lemma SingleWriterEver(app: App, w: World, w': World, k: nat, n: string)
    requires AppStep(app, w, w') && app.hasVolume && |w.log.starts| <= k < |w'.log.starts|
    ensures var e := w'.log.starts[k];
            (e.name == app.candidate || app.previous == Some(e.name)) && !(Running(e.before, n) && e.before[n].mounts)
  {
    assert SafeAppStart(app, w'.log.starts[k]);
  }
}
