/** The customer's Docker host as the agent sees it (agent/src/docker-api.ts): containers, the
    service's data volume and its snapshot files, and an environment that acts between any two
    calls. Processes exit and containers vanish on their own; running consumers write the volume;
    a call may fail before or after it took effect; the agent may die, after which no call has an
    effect. A container that is not running starts only when the agent starts it. */
module DockerHost {
  import opened Wrappers

  /** service: a worker container of the service being rolled out. mounts: it uses the service's
      volume. autoRestart: restart policy unless-stopped rather than no. */
  datatype Container = Container(service: bool, deployment: Option<string>, mounts: bool,
                                 running: bool, autoRestart: bool)

  /** A container going from not running to running, and the containers just before. */
  datatype Start = Start(name: string, before: map<string, Container>)

  /** A signal asked for: SIGKILL, or the one the container's policy names. Nothing is delivered to a
      container that is gone or does not run. */
  datatype Signal = Signal(name: string, kill: bool, at: int, delivered: bool)

  /** What happened so far. ready: the containers that passed a readiness check, in order; unready: those a
      check gave up on; removals: those the agent removed, forced: those of them that ran; base: the volume
      contents as last left by something other than a candidate of this rollout; dirty: a candidate or an
      unfinished restore may have changed them since; mishaps: how often something went wrong outside the
      agent. */
  datatype History = History(starts: seq<Start>, ready: seq<string>, unready: multiset<string>,
                             removals: multiset<string>, forced: multiset<string>, restores: seq<int>,
                             signals: seq<Signal>, base: int, dirty: bool, slept: nat, mishaps: nat)

  /** slot: this deployment's snapshot file; kept: the snapshots moved aside for recovery by hand. */
  datatype World = World(containers: map<string, Container>, volume: int, slot: Option<int>, kept: seq<int>,
                         now: int, alive: bool, log: History)

  predicate SameLabels(c: Container, d: Container) {
    c.service == d.service && c.deployment == d.deployment && c.mounts == d.mounts
  }

  ghost predicate Running(containers: map<string, Container>, n: string) {
    n in containers && containers[n].running
  }

  ghost predicate NoneRunning(containers: map<string, Container>, names: set<string>) {
    forall n :: n in names ==> !Running(containers, n)
  }

  ghost predicate NoConsumer(containers: map<string, Container>) {
    forall n :: Running(containers, n) ==> !containers[n].mounts
  }

  /** Unless a candidate may have written it, the volume holds the contents base records. */
  ghost predicate BaseTracksVolume(w: World) {
    !w.log.dirty ==> w.log.base == w.volume
  }

  /** The contents from before the candidates are in the volume or in a snapshot. */
  ghost predicate Conserved(w: World) {
    !w.log.dirty || w.slot == Some(w.log.base) || w.log.base in w.kept
  }

  /** Nothing went wrong outside the agent in between: see Mishap. */
  ghost predicate Calm(w: World, w': World) { w'.log.mishaps == w.log.mishaps }

  ghost predicate RemovedBetween(w: World, w': World, n: string) { w'.log.removals[n] > w.log.removals[n] }

  /** A readiness check of n came to nothing in between. */
  ghost predicate GaveUpOn(w: World, w': World, n: string) { w'.log.unready[n] > w.log.unready[n] }

  /** The history grows, and without a mishap what is gone was removed. */
  ghost predicate Traced(w: World, w': World) {
    && w.log.mishaps <= w'.log.mishaps && w.log.removals <= w'.log.removals && w.log.unready <= w'.log.unready
    && (Calm(w, w') ==> forall n :: n in w.containers && n !in w'.containers ==> RemovedBetween(w, w', n))
  }

  /** The agent removed nothing but these. */
  ghost predicate RemovesAmong(w: World, w': World, names: seq<string>) {
    forall n :: RemovedBetween(w, w', n) ==> n in names
  }

  /** Everything but a start and a snapshot task: containers stop or go, none appears or starts. */
  ghost predicate Evolve(w: World, w': World) {
    && (forall n :: n in w'.containers ==>
          && n in w.containers && SameLabels(w.containers[n], w'.containers[n])
          && (w'.containers[n].running ==> w.containers[n].running))
    && w'.slot == w.slot && w'.kept == w.kept
    && w'.log.starts == w.log.starts && w'.log.restores == w.log.restores
    && w.log.ready <= w'.log.ready
    && w'.log.dirty == w.log.dirty
    && (w.log.dirty ==> w'.log.base == w.log.base)
    && (BaseTracksVolume(w) ==> BaseTracksVolume(w'))
    && (NoConsumer(w.containers) ==> w'.volume == w.volume)
    && w.now <= w'.now
    && (w'.alive ==> w.alive)
    && Traced(w, w')
  }

  ghost predicate PoliciesKept(w: World, w': World) {
    forall n :: n in w'.containers && n in w.containers ==> w'.containers[n].autoRestart == w.containers[n].autoRestart
  }

  /** Others than these stop or go at most, and keep their labels and restart policies. */
  ghost predicate TouchesAmong(w: World, w': World, names: seq<string>) {
    forall m :: m in w'.containers && m !in names ==>
      && m in w.containers && SameLabels(w.containers[m], w'.containers[m])
      && w'.containers[m].autoRestart == w.containers[m].autoRestart
      && (w'.containers[m].running ==> w.containers[m].running)
  }

  /** Evolve by calls that complete no check and remove nothing. */
  ghost predicate Looked(w: World, w': World) {
    && Evolve(w, w') && w'.log.ready == w.log.ready && w'.log.unready == w.log.unready
    && w'.log.removals == w.log.removals && w'.log.forced == w.log.forced
  }

  /** Evolve by calls that complete no check and remove nothing but these. */
  ghost predicate Tidied(w: World, w': World, names: seq<string>) {
    && Evolve(w, w') && w'.log.ready == w.log.ready && w'.log.unready == w.log.unready
    && RemovesAmong(w, w', names)
  }

  /** Evolve by a single call that neither sleeps nor signals nor removes nor sets a restart policy nor
      completes a check. */
  ghost predicate Quiet(w: World, w': World) {
    && Looked(w, w') && PoliciesKept(w, w')
    && w'.log.slept == w.log.slept && w'.log.signals == w.log.signals
  }

  lemma LookedTransitive(a: World, b: World, c: World)
    requires Looked(a, b) && Looked(b, c)
    ensures Looked(a, c)
  {
    EvolveTransitive(a, b, c);
  }

  lemma TidiedTransitive(a: World, b: World, c: World, first: seq<string>, names: seq<string>)
    requires Tidied(a, b, names) && Tidied(b, c, first) && forall n :: n in first ==> n in names
    ensures Tidied(a, c, names)
  {
    EvolveTransitive(a, b, c);
  }

  lemma RemovalsAddUp(a: World, b: World, c: World, names: seq<string>)
    requires RemovesAmong(a, b, names) && RemovesAmong(b, c, names)
    ensures RemovesAmong(a, c, names)
  {
    forall n | RemovedBetween(a, c, n) ensures n in names {
      assert RemovedBetween(a, b, n) || RemovedBetween(b, c, n);
    }
  }

  lemma LookedIsTidied(w: World, w': World, names: seq<string>)
    requires Looked(w, w')
    ensures Tidied(w, w', names)
  {
  }

  lemma EvolveTransitive(a: World, b: World, c: World)
    requires Evolve(a, b) && Evolve(b, c)
    ensures Evolve(a, c)
  {
  }

  /** Nothing that is stopped starts, and no consumer appears. */
  lemma EvolveKeepsStopped(w: World, w': World, names: set<string>)
    requires Evolve(w, w')
    ensures NoneRunning(w.containers, names) ==> NoneRunning(w'.containers, names)
    ensures NoConsumer(w.containers) ==> NoConsumer(w'.containers)
  {
  }

  function Started(w: World, n: string, candidate: bool): World
    requires n in w.containers
  {
    w.(containers := w.containers[n := w.containers[n].(running := true)],
       log := w.log.(starts := w.log.starts + [Start(n, w.containers)],
                     dirty := w.log.dirty || (candidate && w.containers[n].mounts)))
  }

  function Created(w: World, n: string, c: Container): World {
    w.(containers := w.containers[n := c])
  }

  function Removed(w: World, n: string): World {
    w.(containers := w.containers - {n},
       log := w.log.(removals := w.log.removals + multiset{n},
                     forced := w.log.forced +
                       if n in w.containers && w.containers[n].running then multiset{n} else multiset{}))
  }

  function SnapshotTaken(w: World): World {
    if w.slot.None? then w.(slot := Some(w.volume)) else w
  }

  /** The snapshot unpacked into the emptied volume. */
  function Restored(w: World): World
    requires w.slot.Some?
  {
    w.(volume := w.slot.value,
       log := w.log.(restores := w.log.restores + [w.slot.value], dirty := w.slot.value != w.log.base))
  }

  function SnapshotKept(w: World): World {
    if w.slot.Some? then w.(slot := None, kept := w.kept + [w.slot.value]) else w
  }

  // ----- Calls, and what the environment chooses during one

  /** exited, vanished: containers that end or go; written: what running consumers leave in the volume;
      passed: the time that goes by; dies: the agent; fails, late: the reply is an error, before or
      after the effect; uploaded: the files of a new container arrived; stuck: a process outlives
      SIGKILL; complete, partial: whether a restore that failed was complete, and what it left;
      accepted: a readiness check is content. */
  datatype Choice = Choice(exited: set<string>, vanished: set<string>, written: Option<int>, passed: nat, dies: bool,
                           fails: bool, late: bool, uploaded: bool, stuck: bool, complete: bool, partial: int,
                           accepted: bool)

  /** Nothing happens and the call succeeds. */
  const CALM := Choice({}, {}, None, 0, false, false, false, true, false, true, 0, true)

  /** What a rollout cannot help: the agent dies or is dead, a call fails though it is in order, a container
      goes by itself or outlives SIGKILL. */
  predicate Mishap(w: World, e: Choice) {
    e.dies || !w.alive || e.fails || !e.uploaded || e.stuck || !(e.vanished !! w.containers.Keys)
  }

  datatype Call =
    | Request                                             // one without an effect that matters here
    | Remove(name: string, force: bool)
    | SetPolicy(name: string, unlessStopped: bool)
    | Kill(name: string, kill: bool)
    | Sleep(ms: nat)
    | Create(name: string, c: Container)
    | Launch(name: string, candidate: bool)
    | Halt(name: string)
    | Snapshot
    | Restore
    | Discard
    | SetAside
    | Judge(name: string)                                 // one look of a readiness check
    | GiveUp(name: string)                                // the check's verdict that it is not ready

  function Consumed(containers: map<string, Container>): bool {
    exists n :: n in containers && containers[n].running && containers[n].mounts
  }

  /** What the world does between two calls of the agent. */
  function Drifted(w: World, e: Choice): World {
    var volume := if Consumed(w.containers) && e.written.Some? then e.written.value else w.volume;
    w.(containers := map n | n in w.containers && n !in e.vanished ::
         if n in e.exited then w.containers[n].(running := false) else w.containers[n],
       volume := volume, now := w.now + e.passed, alive := w.alive && !e.dies,
       log := w.log.(base := if w.log.dirty then w.log.base else volume,
                     mishaps := w.log.mishaps + if Mishap(w, e) then 1 else 0))
  }

  /** The reply arrives, without an error. */
  predicate Answered(w: World, e: Choice) { Drifted(w, e).alive && !e.fails }

  /** The call has its effect, whatever is replied. */
  predicate Effective(w: World, e: Choice) { Drifted(w, e).alive && (!e.fails || e.late) }

  /** Removing a running container without force is refused. */
  predicate Removable(w: World, n: string, force: bool) { force || !(n in w.containers && w.containers[n].running) }

  /** What a call does to the world as the environment left it, if it has its effect. */
  function Effect(w: World, call: Call, e: Choice): World {
    match call
    case Request => w
    case Remove(n, force) => if n in w.containers && Removable(w, n, force) then Removed(w, n) else w
    case SetPolicy(n, unlessStopped) =>
      if n in w.containers then w.(containers := w.containers[n := w.containers[n].(autoRestart := unlessStopped)]) else w
    case Kill(n, kill) =>
      var delivered := n in w.containers && w.containers[n].running;
      w.(containers := if delivered && kill && !e.stuck then w.containers[n := w.containers[n].(running := false)]
                       else w.containers,
         log := w.log.(signals := w.log.signals + [Signal(n, kill, w.now, delivered)]))
    case Sleep(ms) => w
    case Create(n, c) => if n !in w.containers && e.uploaded then Created(w, n, c) else w
    case Launch(n, candidate) => if n in w.containers && !w.containers[n].running then Started(w, n, candidate) else w
    case Halt(n) =>
      if n in w.containers then w.(containers := w.containers[n := w.containers[n].(running := false)]) else w
    case Snapshot => SnapshotTaken(w)
    case Restore =>
      if w.slot.None? then w
      else if !e.fails || e.complete then Restored(w)
      else w.(volume := e.partial, log := w.log.(dirty := true))
    case Discard => w.(slot := None)
    case SetAside => SnapshotKept(w)
    case Judge(n) =>
      if n in w.containers && w.containers[n].running && e.accepted && !e.fails
      then w.(log := w.log.(ready := w.log.ready + [n])) else w
    case GiveUp(n) => w.(log := w.log.(unready := w.log.unready + multiset{n}))
  }

  /** A sleep and a verdict are the agent's own. */
  predicate IsOwn(call: Call) { call.Sleep? || call.GiveUp? }

  /** The world after a call. */
  function Do(w: World, call: Call, e: Choice): World {
    var before := Drifted(w, e);
    if call.Sleep? then before.(now := before.now + call.ms, log := before.log.(slept := before.log.slept + call.ms))
    else if Effective(w, e) || IsOwn(call) then Effect(before, call, e)
    else before
  }

  /** Whether the agent is told that it went well; for a look of a readiness check, that it passed. */
  predicate Succeeds(w: World, call: Call, e: Choice) {
    var before := Drifted(w, e);
    && (Answered(w, e) || IsOwn(call))
    && match call
       case Remove(n, force) => Removable(before, n, force)
       case Create(n, _) => n !in before.containers && e.uploaded
       case Launch(n, _) => n in before.containers
       case Restore => before.slot.Some?
       case Judge(n) => n in before.containers && before.containers[n].running && e.accepted
       case _ => true
  }

  lemma DriftIsQuiet(w: World, e: Choice)
    ensures Quiet(w, Drifted(w, e))
  {
  }

  class Docker {
    var w: World

    /** Some environment acts during the call. before is the world as it left it. */
    method Perform(call: Call) returns (ok: bool, e: Choice, ghost before: World)
      modifies this
      ensures before == Drifted(old(w), e) && Quiet(old(w), before)
      ensures w == Do(old(w), call, e) && ok == Succeeds(old(w), call, e)
    {
      e := *;
      before := Drifted(w, e);
      DriftIsQuiet(w, e);
      ok := Succeeds(w, call, e);
      w := Do(w, call, e);
    }

    /** A call whose effect this model does not track: networks, images, creating volumes. */
    method Request() returns (r: Reply<()>)
      modifies this
      ensures Quiet(old(w), w)
      ensures r.Ok? ==> w.alive
      ensures r.Failed? ==> !Calm(old(w), w)
    {
      var ok, _, _ := Perform(Call.Request);
      r := if ok then Ok(()) else Failed;
    }

    method InspectContainer(n: string) returns (r: Reply<Option<Container>>)
      modifies this
      ensures Quiet(old(w), w)
      ensures r.Ok? ==> r.value == (if n in w.containers then Some(w.containers[n]) else None)
      ensures r.Failed? ==> !Calm(old(w), w)
    {
      var reached := Request();
      r := if reached.Ok? then Ok(if n in w.containers then Some(w.containers[n]) else None) else Failed;
    }

    method ListContainers() returns (r: Reply<map<string, Container>>)
      modifies this
      ensures Quiet(old(w), w)
      ensures r.Ok? ==> r.value == w.containers
      ensures r.Failed? ==> !Calm(old(w), w)
    {
      var reached := Request();
      r := if reached.Ok? then Ok(w.containers) else Failed;
    }

    /** A missing container counts as removed. */
    method RemoveContainer(n: string, force: bool) returns (r: Reply<()>)
      modifies this
      ensures Tidied(old(w), w, [n]) && PoliciesKept(old(w), w)
      ensures w.log.signals == old(w.log.signals) && w.log.slept == old(w.log.slept)
      ensures !force ==> w.log.forced == old(w.log.forced)
      ensures w.log.removals == old(w.log.removals) || w.log.removals == old(w.log.removals) + multiset{n}
      ensures r.Ok? ==> n !in w.containers
      ensures r.Failed? ==> !Calm(old(w), w) || (!force && Running(old(w).containers, n))
    {
      var ok, _, _ := Perform(Remove(n, force));
      r := if ok then Ok(()) else Failed;
    }

    /** Ok(true): the policy was set. Ok(false): there is no such container (404). */
    method UpdateRestartPolicy(n: string, unlessStopped: bool) returns (r: Reply<bool>)
      modifies this
      ensures Looked(old(w), w) && (r.Failed? ==> !Calm(old(w), w))
      ensures w.log.signals == old(w.log.signals) && w.log.slept == old(w.log.slept)
      ensures r.Ok? ==> (r.value <==> n in w.containers)
      ensures r == Ok(true) ==> w.containers[n].autoRestart == unlessStopped
      ensures forall m :: m in w.containers ==>
                w.containers[m].autoRestart == old(w).containers[m].autoRestart
                || (m == n && w.containers[m].autoRestart == unlessStopped)
    {
      var ok, _, _ := Perform(SetPolicy(n, unlessStopped));
      r := if ok then Ok(n in w.containers) else Failed;
    }

    /** Asks for a signal; whether and when the process exits is the environment's. Ok(false): there is
        nothing to signal, because the container is gone (404) or does not run (409). */
    method KillContainer(n: string, kill: bool) returns (r: Reply<bool>, ghost sent: seq<Signal>)
      modifies this
      ensures Looked(old(w), w) && PoliciesKept(old(w), w) && w.log.slept == old(w.log.slept)
      ensures w.log.signals == old(w.log.signals) + sent && |sent| <= 1 && (r.Ok? ==> |sent| == 1)
      ensures Calm(old(w), w) ==> r.Ok? && (kill ==> !Running(w.containers, n))
      ensures sent != [] ==> sent[0].name == n && sent[0].kill == kill && sent[0].at == w.now
      ensures r.Ok? ==> sent[0].delivered == r.value && (!r.value ==> !Running(w.containers, n))
    {
      var ok, _, before := Perform(Kill(n, kill));
      sent := w.log.signals[|before.log.signals|..];
      r := if ok then Ok(w.log.signals[|w.log.signals| - 1].delivered) else Failed;
    }

    /** A timer. */
    method Wait(ms: nat)
      modifies this
      ensures Looked(old(w), w) && PoliciesKept(old(w), w) && w.log.signals == old(w.log.signals)
      ensures w.log.slept == old(w.log.slept) + ms && w.now >= old(w.now) + ms
    {
      var _, _, _ := Perform(Sleep(ms));
    }

    /** before is the world just before the container appeared. Uploading its files is part of the call:
        when that fails the container goes again. */
    method CreateContainer(n: string, c: Container) returns (r: Reply<()>, ghost before: World)
      requires !c.running
      modifies this
      ensures Quiet(old(w), before)
      ensures w == before || (n !in before.containers && before.alive && w == Created(before, n, c))
      ensures r.Ok? ==> w == Created(before, n, c)
      ensures r.Failed? ==> !Calm(old(w), w) || n in before.containers
    {
      var ok, e, b := Perform(Create(n, c));
      before := b;
      r := if ok then Ok(()) else Failed;
    }

    /** Starts a container; a running one is left as it is. before is the world just before the start.
        candidate tells the history whether the container is one the rollout under way introduces. */
    method StartContainer(n: string, candidate: bool) returns (r: Reply<()>, ghost before: World)
      modifies this
      ensures Quiet(old(w), before)
      ensures w == before ||
              (before.alive && n in before.containers && !before.containers[n].running && w == Started(before, n, candidate))
      ensures r.Ok? ==> Running(w.containers, n)
      ensures r.Failed? ==> !Calm(old(w), w) || n !in before.containers
    {
      var ok, e, b := Perform(Launch(n, candidate));
      before := b;
      r := if ok then Ok(()) else Failed;
    }

    /** docker stop: signal, grace period, kill. On success the container is gone or stopped. */
    method StopContainer(n: string) returns (r: Reply<()>)
      modifies this
      ensures Quiet(old(w), w)
      ensures if r.Ok? then !Running(w.containers, n) else !Calm(old(w), w)
    {
      var ok, _, _ := Perform(Halt(n));
      r := if ok then Ok(()) else Failed;
    }

    /** Archives the volume into this deployment's slot, unless the slot already holds a snapshot. The
        archive is moved into place, so the slot never holds a part of one. */
    method TakeSnapshot() returns (r: Reply<()>, ghost before: World)
      requires NoConsumer(w.containers)
      modifies this
      ensures Quiet(old(w), before)
      ensures w == before || w == SnapshotTaken(before)
      ensures if r.Ok? then w.slot.Some? else !Calm(old(w), w)
    {
      var ok, _, b := Perform(Snapshot);
      before := b;
      r := if ok then Ok(()) else Failed;
    }

    /** Empties the volume and unpacks the slot's snapshot into it; a failure can leave any contents. */
    method RestoreSnapshot() returns (r: Reply<()>, ghost before: World)
      requires NoConsumer(w.containers)
      modifies this
      ensures Quiet(old(w), before)
      ensures w == before ||
              (before.slot.Some? &&
                (w == Restored(before) ||
                 w == before.(volume := w.volume, log := before.log.(dirty := true))))
      ensures r.Ok? ==> before.slot.Some? && w == Restored(before)
      ensures r.Failed? ==> !Calm(old(w), w) || before.slot.None?
    {
      var ok, _, b := Perform(Restore);
      before := b;
      r := if ok then Ok(()) else Failed;
    }

    method DeleteSnapshot() returns (ghost before: World)
      modifies this
      ensures Quiet(old(w), before)
      ensures w == before || w == before.(slot := None)
      ensures Calm(old(w), w) ==> w.slot.None?
    {
      var _, _, b := Perform(Discard);
      before := b;
    }

    /** Moves the snapshot out of the slot into kept/. */
    method KeepSnapshot() returns (r: Reply<()>, ghost before: World)
      modifies this
      ensures Quiet(old(w), before)
      ensures w == before || w == SnapshotKept(before)
      ensures if r.Ok? then w == SnapshotKept(before) else !Calm(old(w), w)
    {
      var ok, _, b := Perform(SetAside);
      before := b;
      r := if ok then Ok(()) else Failed;
    }

    /** One look of a readiness check. Ok(true): the container runs and the check is content; failed: the
        container is gone or cannot be inspected. */
    method JudgeContainer(n: string) returns (r: Reply<bool>)
      modifies this
      ensures Evolve(old(w), w) && PoliciesKept(old(w), w) && w.log.removals == old(w.log.removals)
      ensures w.log.ready == (if r == Ok(true) then old(w.log.ready) + [n] else old(w.log.ready))
      ensures w.log.unready == old(w.log.unready)
      ensures r == Ok(true) ==> Running(w.containers, n)
    {
      var passed, e, _ := Perform(Judge(n));
      r := if passed then Ok(true) else if e.fails || !w.alive || n !in w.containers then Failed else Ok(false);
    }

    /** The verdict that n is not ready. */
    method Conclude(n: string)
      modifies this
      ensures Evolve(old(w), w) && PoliciesKept(old(w), w) && w.log.removals == old(w.log.removals)
      ensures w.log.ready == old(w.log.ready) && w.log.unready == old(w.log.unready) + multiset{n}
    {
      var _, _, _ := Perform(GiveUp(n));
    }

    /** The looks of a readiness check. Which run of observations it accepts (health, restarts, grace) is
        left open. */
    method Poll(n: string) returns (ready: bool)
      modifies this
      ensures Evolve(old(w), w) && PoliciesKept(old(w), w) && w.log.removals == old(w.log.removals)
      ensures w.log.ready == (if ready then old(w.log.ready) + [n] else old(w.log.ready))
      ensures w.log.unready == old(w.log.unready)
      ensures ready ==> Running(w.containers, n)
    {
      var polls: int := *;
      while polls > 0
        invariant Evolve(old(w), w) && PoliciesKept(old(w), w) && w.log.removals == old(w.log.removals)
        invariant w.log.ready == old(w.log.ready) && w.log.unready == old(w.log.unready)
      {
        ghost var w1 := w;
        var current := JudgeContainer(n);
        EvolveTransitive(old(w), w1, w);
        if current.Failed? {
          return false;
        }
        if current.value {
          return true;
        }
        ghost var w2 := w;
        Wait(500);
        EvolveTransitive(old(w), w2, w);
        polls := polls - 1;
      }
      return false;
    }

    /** A readiness check: a loop of inspections that accepts only a container it sees running. */
    method CheckReadiness(n: string) returns (ready: bool)
      modifies this
      ensures Evolve(old(w), w)
      ensures w.log.ready == (if ready then old(w.log.ready) + [n] else old(w.log.ready))
      ensures w.log.unready == (if ready then old(w.log.unready) else old(w.log.unready) + multiset{n})
      ensures ready ==> Running(w.containers, n)
      ensures PoliciesKept(old(w), w) && w.log.removals == old(w.log.removals)
    {
      ready := Poll(n);
      if !ready {
        Conclude(n);
      }
    }
  }
}
