/** What worker and app rollouts share: the snapshot of a service's volume, the check of its running
    consumers, and what a readiness check of this run established. */
module VolumeSnapshots {
  import opened Wrappers
  import opened DockerHost

  /** The state a run may start from and, unless it restarted the previous version, leaves behind: a
      snapshot in the slot is of base, and base cannot move on while it is there. */
  ghost predicate Resumable(w: World) {
    && BaseTracksVolume(w)
    && (w.log.dirty ==> w.slot.Some?)
    && (w.slot.Some? ==> w.slot.value == w.log.base && (w.log.dirty || NoConsumer(w.containers)))
  }

  lemma EvolveKeepsResumable(w: World, w': World)
    requires Evolve(w, w') && Resumable(w)
    ensures Resumable(w')
  {
  }

  ghost predicate ConsumersWithin(containers: map<string, Container>, allowed: set<string>) {
    forall n :: Running(containers, n) && containers[n].mounts ==> n in allowed
  }

  method AssertNoUnexpectedVolumeConsumer(docker: Docker, allowed: set<string>) returns (r: Reply<()>)
    modifies docker
    ensures Looked(old(docker.w), docker.w) && PoliciesKept(old(docker.w), docker.w)
    ensures r.Ok? ==> ConsumersWithin(docker.w.containers, allowed)
    ensures r.Failed? && Calm(old(docker.w), docker.w) ==> !ConsumersWithin(old(docker.w).containers, allowed)
  {
    var consumers :- docker.ListContainers();
    if exists n :: n in consumers && consumers[n].running && consumers[n].mounts && n !in allowed {
      return Failed;
    }
    return Ok(());
  }

  /** Evolve, and possibly a first snapshot of the volume in the slot. */
  ghost predicate Prepared(w: World, w': World) {
    && Evolve(w, w'.(slot := w.slot))
    && w'.log.ready == w.log.ready && w'.log.unready == w.log.unready
    && (w.slot.Some? ==> w'.slot == w.slot)
    && (Resumable(w) ==> Resumable(w'))
  }

  lemma SnapshotIsPrepared(w: World)
    requires NoConsumer(w.containers)
    ensures Prepared(w, SnapshotTaken(w))
  {
    assert SnapshotTaken(w).(slot := w.slot) == w;
  }

  lemma PreparedTransitive(a: World, b: World, c: World)
    requires Prepared(a, b) && Prepared(b, c)
    ensures Prepared(a, c)
  {
  }

  lemma EvolveIsPrepared(w: World, w': World)
    requires Evolve(w, w') && w'.log.ready == w.log.ready && w'.log.unready == w.log.unready
    ensures Prepared(w, w')
  {
    assert w'.(slot := w.slot) == w';
    if Resumable(w) { EvolveKeepsResumable(w, w'); }
  }

  method SnapshotVolume(docker: Docker) returns (r: Reply<()>)
    modifies docker
    ensures Prepared(old(docker.w), docker.w) && docker.w.log.removals == old(docker.w.log.removals)
    ensures r.Ok? ==> docker.w.slot.Some? && NoConsumer(docker.w.containers)
    ensures r.Failed? && Calm(old(docker.w), docker.w) ==> !NoConsumer(old(docker.w).containers)
  {
    r := AssertNoUnexpectedVolumeConsumer(docker, {});
    EvolveIsPrepared(old(docker.w), docker.w);
    if r.Failed? {
      return;
    }
    ghost var w1, before := docker.w, docker.w;
    r, before := docker.TakeSnapshot();
    EvolveIsPrepared(w1, before);
    assert NoConsumer(before.containers);
    SnapshotIsPrepared(before);
    PreparedTransitive(old(docker.w), w1, before);
    if docker.w != before {
      PreparedTransitive(old(docker.w), before, docker.w);
    }
  }

  lemma PreparedKeepsStopped(w: World, w': World)
    requires Prepared(w, w')
    ensures forall n :: Running(w'.containers, n) ==>
              Running(w.containers, n) && SameLabels(w.containers[n], w'.containers[n])
  {
  }

  ghost predicate PassedCheck(w: World, w': World, names: seq<string>) {
    exists i :: |w.log.ready| <= i < |w'.log.ready| && w'.log.ready[i] in names
  }

  lemma PassedCheckExtends(a: World, b: World, c: World, names: seq<string>)
    requires a.log.ready <= b.log.ready <= c.log.ready
    ensures PassedCheck(a, b, names) || PassedCheck(b, c, names) ==> PassedCheck(a, c, names)
  {
    if PassedCheck(a, b, names) {
      var i :| |a.log.ready| <= i < |b.log.ready| && b.log.ready[i] in names;
      assert c.log.ready[i] in names;
    }
  }

  lemma PassedCheckWidens(w: World, w': World, names: seq<string>, wider: seq<string>)
    requires forall n :: n in names ==> n in wider
    ensures PassedCheck(w, w', names) ==> PassedCheck(w, w', wider)
  {
  }

  // ----- Putting the volume back

  /** The slot's snapshot is what a restore unpacks. */
  ghost predicate RestoresSlot(w: World, w': World) {
    forall i :: |w.log.restores| <= i < |w'.log.restores| ==> w.slot == Some(w'.log.restores[i])
  }

  /** Nothing starts; the volume may take the slot's contents, wholly or in part. */
  ghost predicate Recovering(w: World, w': World) {
    && Evolve(w.(volume := w'.volume, log := w.log.(restores := w'.log.restores, dirty := w'.log.dirty, base := w'.log.base)), w')
    && w.log.restores <= w'.log.restores
    && RestoresSlot(w, w')
    && (BaseTracksVolume(w) ==> BaseTracksVolume(w'))
    && (Resumable(w) && w.slot.Some? ==> Resumable(w'))
  }

  lemma RestoreIsRecovering(w: World, w': World)
    requires NoConsumer(w.containers)
    requires w' == w || (w.slot.Some? && (w' == Restored(w) || w' == w.(volume := w'.volume, log := w.log.(dirty := true))))
    ensures Recovering(w, w')
  {
  }

  lemma EvolveIsRecovering(w: World, w': World)
    requires Evolve(w, w')
    ensures Recovering(w, w')
  {
    if Resumable(w) { EvolveKeepsResumable(w, w'); }
  }

  lemma RecoveringTransitive(a: World, b: World, c: World)
    requires Recovering(a, b) && Recovering(b, c)
    ensures Recovering(a, c)
  {
    forall i | |a.log.restores| <= i < |c.log.restores| ensures a.slot == Some(c.log.restores[i]) {
      if i < |b.log.restores| { assert c.log.restores[i] == b.log.restores[i]; }
    }
  }

  method RestoreVolume(docker: Docker) returns (r: Reply<()>)
    modifies docker
    ensures Recovering(old(docker.w), docker.w) && docker.w.log.ready == old(docker.w.log.ready)
    ensures docker.w.log.unready == old(docker.w.log.unready) && docker.w.log.removals == old(docker.w.log.removals)
    ensures r.Failed? && Calm(old(docker.w), docker.w) ==>
              !NoConsumer(old(docker.w).containers) || old(docker.w).slot.None?
    ensures r.Ok? && Resumable(old(docker.w)) ==> !docker.w.log.dirty
    ensures r.Ok? ==> NoConsumer(docker.w.containers)
    ensures r.Ok? ==> old(docker.w).slot == Some(docker.w.volume)
                      && docker.w.log.restores == old(docker.w.log.restores) + [docker.w.volume]
  {
    r := AssertNoUnexpectedVolumeConsumer(docker, {});
    EvolveIsRecovering(old(docker.w), docker.w);
    if r.Failed? {
      return;
    }
    ghost var w1, before := docker.w, docker.w;
    r, before := docker.RestoreSnapshot();
    EvolveTransitive(old(docker.w), w1, before);
    EvolveIsRecovering(old(docker.w), before);
    if Resumable(old(docker.w)) { EvolveKeepsResumable(old(docker.w), before); }
    RestoreIsRecovering(before, docker.w);
    RecoveringTransitive(old(docker.w), before, docker.w);
  }

  lemma ResumableIsConserved(w: World)
    requires Resumable(w)
    ensures Conserved(w)
  {
  }
}
