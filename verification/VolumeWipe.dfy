/** Wiping a volume (agent/src/index.ts, agent/src/volume-wipe-receipt.ts): the old volume is destroyed and
    replaced at most once per repository generation, across retries, failures and agent deaths. */
module VolumeWipe {
  import opened Wrappers

  /** A wipe without a repository generation keeps no receipt. */
  type Generation = Option<int>

  /** Whose a Docker volume is: it was there before, or an attempt of a generation created it. */
  datatype Origin = Customer | MadeFor(gen: Generation)

  datatype ReceiptFile = Unreadable | Receipt(volume: string, generation: int)

  /** What attempts did to volumes: an existing one removed, a database set up on one. */
  datatype Event = Removed(volume: string, gen: Generation, origin: Origin)
                 | Provisioned(volume: string, gen: Generation, origin: Origin)

  /** What an attempt of gen may build on: what some attempt of gen created, or a wipe without a generation. */
  predicate FreshFor(origin: Origin, gen: Generation) {
    origin == MadeFor(gen) || origin == MadeFor(None)
  }

  /** Once a database was set up for a generation, no attempt of that generation removes the volume. */
  ghost predicate NeverRemovedAgain(log: seq<Event>) {
    forall i, j :: 0 <= i < j < |log| && log[i].Provisioned? && log[i].gen.Some? ==>
      !(log[j].Removed? && log[j].volume == log[i].volume && log[j].gen == log[i].gen)
  }

  /** A database is never set up on what the wipe was to destroy, or on an earlier generation's volume. */
  ghost predicate ProvisionedOnFresh(log: seq<Event>) {
    forall i :: 0 <= i < |log| && log[i].Provisioned? ==> FreshFor(log[i].origin, log[i].gen)
  }

  ghost predicate SetUp(log: seq<Event>, volume: string, gen: Generation) {
    exists i :: 0 <= i < |log| && log[i].Provisioned? && log[i].volume == volume && log[i].gen == gen
  }

  /** What an attempt added to the log removed nothing. */
  ghost predicate NothingRemoved(before: seq<Event>, after: seq<Event>) {
    before <= after && forall i :: |before| <= i < |after| ==> !after[i].Removed?
  }

  lemma RemovalExtends(log: seq<Event>, e: Event)
    requires NeverRemovedAgain(log) && ProvisionedOnFresh(log) && e.Removed?
    requires e.gen.Some? ==> !SetUp(log, e.volume, e.gen)
    ensures NeverRemovedAgain(log + [e]) && ProvisionedOnFresh(log + [e])
    ensures forall v, g :: SetUp(log + [e], v, Some(g)) ==> SetUp(log, v, Some(g))
  {
  }

  lemma ProvisioningExtends(log: seq<Event>, e: Event)
    requires NeverRemovedAgain(log) && ProvisionedOnFresh(log) && e.Provisioned? && FreshFor(e.origin, e.gen)
    ensures NeverRemovedAgain(log + [e]) && ProvisionedOnFresh(log + [e])
    ensures forall v, g :: SetUp(log + [e], v, Some(g)) ==> SetUp(log, v, Some(g)) || (v == e.volume && e.gen == Some(g))
  {
  }

  type Volumes = map<string, Origin>
  type Receipts = map<string, ReceiptFile>

  /** A receipt names a generation whose replacement exists; only a later one's can have taken its place.
      highest: the generation last attempted, per volume. */
  ghost predicate Truthful(volumes: Volumes, receipts: Receipts, highest: map<string, int>) {
    forall v :: v in receipts && receipts[v].Receipt? ==>
      && receipts[v].volume == v && v in highest && receipts[v].generation <= highest[v]
      && (v in volumes ==>
            && volumes[v].MadeFor?
            && (volumes[v].gen.Some? ==> receipts[v].generation <= volumes[v].gen.value <= highest[v]))
  }

  /** hasReplacedVolumeForGeneration, on the receipt file of the volume. */
  predicate ReplacedFor(receipts: Receipts, v: string, gen: Generation) {
    gen.Some? && v in receipts && receipts[v] == Receipt(v, gen.value)
  }

  predicate Damaged(receipts: Receipts, v: string) {
    v in receipts && receipts[v].Unreadable?
  }

  ghost predicate Covers(receipts: Receipts, highest: map<string, int>, v: string, generation: int) {
    && v in receipts && (receipts[v].Receipt? ==> generation <= receipts[v].generation)
    && v in highest && generation <= highest[v]
  }

  ghost predicate AllCovered(log: seq<Event>, receipts: Receipts, highest: map<string, int>) {
    forall v, g :: SetUp(log, v, Some(g)) ==> Covers(receipts, highest, v, g)
  }

  /** A volume may be removed by hand, a receipt may become unreadable; one that was written does not
      disappear. */
  ghost predicate Wear(volumes: Volumes, receipts: Receipts, volumes': Volumes, receipts': Receipts) {
    && (forall v :: v in volumes' ==> v in volumes && volumes'[v] == volumes[v])
    && receipts'.Keys == receipts.Keys
    && (forall v :: v in receipts' ==> receipts'[v] == receipts[v] || receipts'[v].Unreadable?)
  }

  lemma WearKeepsInvariant(volumes: Volumes, receipts: Receipts, volumes': Volumes, receipts': Receipts,
                           highest: map<string, int>, log: seq<Event>)
    requires Wear(volumes, receipts, volumes', receipts')
    requires Truthful(volumes, receipts, highest) && AllCovered(log, receipts, highest)
    ensures Truthful(volumes', receipts', highest) && AllCovered(log, receipts', highest)
  {
    forall v, g | SetUp(log, v, Some(g)) ensures Covers(receipts', highest, v, g) {
      assert Covers(receipts, highest, v, g);
    }
  }

  /** What an undisturbed attempt that replaces an existing volume does to it. */
  function Wiped(v: string, gen: Generation, origin: Origin, attached: bool): seq<Event> {
    [Removed(v, gen, origin)] + if attached then [Provisioned(v, gen, MadeFor(gen))] else []
  }

  class WipeHost {
    const quiet: bool                                     // nothing wears, and no step fails
    var volumes: Volumes
    var receipts: Receipts
    var alive: bool
    ghost var highest: map<string, int>
    ghost var log: seq<Event>

    /** An attempt of gen is under way, and no later generation was attempted yet. */
    ghost predicate Attempting(v: string, gen: Generation)
      reads this
    {
      gen.Some? ==> v in highest && highest[v] == gen.value
    }

    ghost predicate FreshIfPresent(v: string, gen: Generation)
      reads this
    {
      v in volumes ==> FreshFor(volumes[v], gen)
    }

    ghost predicate Valid()
      reads this
    {
      && Truthful(volumes, receipts, highest) && AllCovered(log, receipts, highest)
      && NeverRemovedAgain(log) && ProvisionedOnFresh(log)
    }

    constructor (existing: set<string>, quiet: bool)
      ensures Valid() && volumes.Keys == existing && highest == map[] && log == []
      ensures (forall v :: v in existing ==> volumes[v] == Customer) && receipts == map[] && alive && this.quiet == quiet
    {
      this.quiet := quiet;
      volumes := map v | v in existing :: Customer;
      receipts, alive, highest, log := map[], true, map[], [];
    }

    method Step() returns (ok: bool)
      requires Valid()
      modifies this`volumes, this`receipts, this`alive
      ensures Valid() && Wear(old(volumes), old(receipts), volumes, receipts)
      ensures ok ==> alive
      ensures quiet ==> volumes == old(volumes) && receipts == old(receipts) && ok == alive == old(alive)
    {
      if quiet {
        return alive;
      }
      var gone: set<string> := *;
      var damaged: set<string> := *;
      var dies: bool := *;
      var fails: bool := *;
      volumes := volumes - gone;
      receipts := map v | v in receipts :: if v in damaged then Unreadable else receipts[v];
      alive := alive && !dies;
      ok := alive && !fails;
      WearKeepsInvariant(old(volumes), old(receipts), volumes, receipts, highest, log);
    }

    /** Absence proves that no attempt wrote a receipt; a file that cannot be read proves nothing, so the
        attempt fails (readVolumeWipeReceipt). Without a generation there is nothing to look up. */
    method HasReplacedVolume(v: string, gen: Generation) returns (r: Reply<bool>)
      requires Valid() && Attempting(v, gen)
      modifies this`volumes, this`receipts, this`alive
      ensures Valid() && Wear(old(volumes), old(receipts), volumes, receipts)
      ensures r.Ok? ==> r.value == ReplacedFor(old(receipts), v, gen)
      ensures r == Ok(false) && gen.Some? ==> !SetUp(log, v, gen)
      ensures r == Ok(true) ==> FreshIfPresent(v, gen) && Covers(receipts, highest, v, gen.value)
      ensures gen.Some? && Damaged(old(receipts), v) ==> r.Failed?
      ensures gen.None? ==> r == Ok(false) && volumes == old(volumes) && alive == old(alive)
      ensures quiet && old(alive) ==>
                && volumes == old(volumes) && alive && (r.Failed? ==> gen.Some? && Damaged(old(receipts), v))
    {
      if gen.None? {
        return Ok(false);
      }
      var ok := Step();
      if !ok || Damaged(receipts, v) {
        return Failed;
      }
      r := Ok(ReplacedFor(receipts, v, gen));
      assert SetUp(log, v, gen) ==> Covers(receipts, highest, v, gen.value);
    }

    method RemoveVolume(v: string, gen: Generation) returns (ok: bool)
      requires Valid() && (gen.Some? ==> !SetUp(log, v, gen))
      modifies this`volumes, this`receipts, this`alive, this`log
      ensures Valid() && old(log) <= log
      ensures gen.Some? ==> !SetUp(log, v, gen)
      ensures quiet && old(alive) && v in old(volumes) ==>
                ok && alive && volumes == old(volumes) - {v} && log == old(log) + [Removed(v, gen, old(volumes)[v])]
    {
      ok := Step();
      var late: bool := *;
      if v in volumes && (ok || (alive && late)) {
        RemovalExtends(log, Removed(v, gen, volumes[v]));
        log := log + [Removed(v, gen, volumes[v])];
        volumes := volumes - {v};
      }
    }

    method InspectVolume(v: string) returns (r: Reply<bool>)
      requires Valid()
      modifies this`volumes, this`receipts, this`alive
      ensures Valid()
      ensures Wear(old(volumes), old(receipts), volumes, receipts)
      ensures r.Ok? ==> r.value == (v in volumes)
      ensures quiet && old(alive) ==> r.Ok? && alive && volumes == old(volumes)
    {
      var ok := Step();
      r := if ok then Ok(v in volumes) else Failed;
    }

    /** Docker leaves an existing volume of that name as it is. */
    method CreateVolume(v: string, gen: Generation) returns (ok: bool)
      requires Valid() && Attempting(v, gen)
      modifies this`volumes, this`receipts, this`alive
      ensures Valid()
      ensures v in volumes ==> volumes[v] == MadeFor(gen) || (v in old(volumes) && volumes[v] == old(volumes)[v])
      ensures gen.Some? && old(Covers(receipts, highest, v, gen.value)) ==> Covers(receipts, highest, v, gen.value)
      ensures quiet && old(alive) ==>
                ok && alive && volumes == if v in old(volumes) then old(volumes) else old(volumes)[v := MadeFor(gen)]
    {
      ok := Step();
      var late: bool := *;
      if v !in volumes && (ok || (alive && late)) {
        volumes := volumes[v := MadeFor(gen)];
      }
    }

    /** Temporary file and rename: the whole receipt or the one before. */
    method WriteReceipt(v: string, generation: int) returns (ok: bool)
      requires Valid() && Attempting(v, Some(generation))
      requires FreshIfPresent(v, Some(generation))
      modifies this`volumes, this`receipts, this`alive
      ensures Valid()
      ensures v in volumes ==> v in old(volumes) && volumes[v] == old(volumes)[v]
      ensures ok ==> v in receipts && receipts[v] == Receipt(v, generation)
      ensures quiet && old(alive) ==> ok && alive && volumes == old(volumes)
    {
      ok := Step();
      var late: bool := *;
      if ok || (alive && late) {
        receipts := receipts[v := Receipt(v, generation)];
      }
    }

    /** handleDatabaseProvision: creates the volume when it is missing and sets up a database on it. */
    method Provision(v: string, gen: Generation) returns (ok: bool)
      requires Valid() && Attempting(v, gen)
      requires FreshIfPresent(v, gen)
      requires gen.Some? ==> Covers(receipts, highest, v, gen.value)
      modifies this`volumes, this`receipts, this`alive, this`log
      ensures Valid() && NothingRemoved(old(log), log)
      ensures v in volumes ==> volumes[v] == MadeFor(gen) || (v in old(volumes) && volumes[v] == old(volumes)[v])
      ensures ok ==> SetUp(log, v, gen)
      ensures quiet && old(alive) && v in old(volumes) ==>
                ok && alive && volumes == old(volumes) && log == old(log) + [Provisioned(v, gen, old(volumes)[v])]
    {
      ok := CreateVolume(v, gen);
      var reached := Step();
      var late: bool := *;
      ok := ok && reached && v in volumes;
      if v in volumes && (ok || (alive && late)) {
        ProvisioningExtends(log, Provisioned(v, gen, volumes[v]));
        log := log + [Provisioned(v, gen, volumes[v])];
        assert log[|log| - 1] == Provisioned(v, gen, volumes[v]);
      }
    }

    /** The destructive phase, up to the receipt: everything after it is safe to repeat. */
    method ReplaceVolume(v: string, gen: Generation, attached: bool) returns (ok: bool)
      requires Valid() && Attempting(v, gen) && (gen.Some? ==> !SetUp(log, v, gen))
      modifies this`volumes, this`receipts, this`alive, this`log
      ensures Valid() && old(log) <= log
      ensures ok ==> (v in volumes ==> volumes[v] == MadeFor(gen))
      ensures ok && gen.Some? ==> Covers(receipts, highest, v, gen.value)
      ensures quiet && old(alive) && v in old(volumes) ==>
                && ok && alive && volumes == (old(volumes) - {v})[v := MadeFor(gen)]
                && log == old(log) + [Removed(v, gen, old(volumes)[v])]
    {
      if attached {
        ok := Step();                                     // removes the containers and checks that they are gone
        if !ok {
          return;
        }
      }
      ok := RemoveVolume(v, gen);
      if !ok {
        return;
      }
      var present := InspectVolume(v);
      if present.Failed? || present.value {
        return false;
      }
      ok := CreateVolume(v, gen);
      if ok && gen.Some? {
        ok := WriteReceipt(v, gen.value);
      }
    }

    ghost method NoteAttempt(v: string, gen: Generation)
      requires Valid() && (gen.Some? && v in highest ==> highest[v] <= gen.value)
      modifies this`highest
      ensures Valid() && Attempting(v, gen)
      ensures highest == if gen.Some? then old(highest)[v := gen.value] else old(highest)
    {
      if gen.Some? {
        highest := highest[v := gen.value];
      }
    }

    /** One attempt of a wipe; the generations of a volume's attempts never go back. */
    method HandleWipeVolume(v: string, gen: Generation, attached: bool) returns (ok: bool)
      requires Valid() && (gen.Some? && v in highest ==> highest[v] <= gen.value)
      modifies this
      ensures Valid()
      ensures highest == if gen.Some? then old(highest)[v := gen.value] else old(highest)
      ensures old(log) <= log
      ensures gen.Some? && Damaged(old(receipts), v) ==> !ok && log == old(log)
      ensures ReplacedFor(old(receipts), v, gen) ==> NothingRemoved(old(log), log)
      ensures ok && !ReplacedFor(old(receipts), v, gen) ==> v in volumes && volumes[v] == MadeFor(gen)
      ensures ok ==> v in volumes && FreshFor(volumes[v], gen)
      ensures ok && attached ==> SetUp(log, v, gen)
      // Undisturbed, an attempt fails for an unreadable receipt only, and replaces whatever volume it finds
      // unless the receipt is of its generation; without a generation no receipt counts.
      ensures quiet && old(alive) && v in old(volumes) && !(gen.Some? && Damaged(old(receipts), v)) ==>
                && ok && alive && v in volumes
                && if gen.Some? && v in old(receipts) && old(receipts)[v] == Receipt(v, gen.value)
                   then volumes[v] == old(volumes)[v] &&
                        log == old(log) + if attached then [Provisioned(v, gen, old(volumes)[v])] else []
                   else volumes[v] == MadeFor(gen) && log == old(log) + Wiped(v, gen, old(volumes)[v], attached)
    {
      NoteAttempt(v, gen);
      var replaced := HasReplacedVolume(v, gen);
      if replaced.Failed? {
        return false;
      }
      ok := Wipe(v, gen, attached, replaced.value);
    }

    /** What an attempt does once it knows whether the volume has been replaced for its generation. */
    method Wipe(v: string, gen: Generation, attached: bool, replaced: bool) returns (ok: bool)
      requires Valid() && Attempting(v, gen)
      requires if replaced then gen.Some? && FreshIfPresent(v, gen) && Covers(receipts, highest, v, gen.value)
               else gen.Some? ==> !SetUp(log, v, gen)
      modifies this`volumes, this`receipts, this`alive, this`log
      ensures Valid() && old(log) <= log
      ensures replaced ==> NothingRemoved(old(log), log)
      ensures ok ==> v in volumes && FreshFor(volumes[v], gen) && (replaced || volumes[v] == MadeFor(gen))
      ensures ok && attached ==> SetUp(log, v, gen)
      ensures quiet && old(alive) && v in old(volumes) ==>
                && ok && alive && v in volumes
                && if replaced
                   then volumes[v] == old(volumes)[v] &&
                        log == old(log) + if attached then [Provisioned(v, gen, old(volumes)[v])] else []
                   else volumes[v] == MadeFor(gen) && log == old(log) + Wiped(v, gen, old(volumes)[v], attached)
    {
      if attached {
        ok := Step();                                     // preflightDatabasePublicPort
        if !ok {
          return;
        }
      }
      if !replaced {
        ok := ReplaceVolume(v, gen, attached);
        if !ok {
          return;
        }
      }
      if attached {
        ok := Provision(v, gen);
        if !ok {
          return;
        }
      }
      var present := InspectVolume(v);
      return present.Ok? && present.value;
    }

    method Restart()
      requires Valid()
      modifies this`alive
      ensures Valid() && alive
    {
      alive := true;
    }
  }

  datatype Action = Attempt(volume: string, gen: Generation, attached: bool) | AgentRestart

  ghost predicate GenerationsNeverGoBack(actions: seq<Action>) {
    forall i, j :: 0 <= i < j < |actions| && actions[i].Attempt? && actions[j].Attempt? ==>
      (actions[i].volume == actions[j].volume && actions[i].gen.Some? && actions[j].gen.Some? ==>
         actions[i].gen.value <= actions[j].gen.value)
  }

  /** Any attempts on any volumes, each of which fails, dies or completes at any point. */
  method Process(existing: set<string>, quiet: bool, actions: seq<Action>) returns (host: WipeHost)
    requires GenerationsNeverGoBack(actions)
    ensures fresh(host) && host.Valid()
    ensures NeverRemovedAgain(host.log) && ProvisionedOnFresh(host.log)
  {
    host := new WipeHost(existing, quiet);
    for k := 0 to |actions|
      invariant fresh(host) && host.Valid()
      invariant forall v :: v in host.highest ==>
        exists i :: 0 <= i < k && actions[i].Attempt? && actions[i].volume == v && actions[i].gen == Some(host.highest[v])
    {
      match actions[k] {
        case Attempt(volume, gen, attached) => var _ := host.HandleWipeVolume(volume, gen, attached);
        case AgentRestart => host.Restart();
      }
    }
  }

  /** Without a generation, two undisturbed attempts from any host: the second removes the volume on which
      the first set up a database. No receipt, readable or not, changes that. */
  method WipeTwice(host: WipeHost, v: string) returns (first: bool, second: bool)
    requires host.Valid() && host.quiet && host.alive && v in host.volumes
    modifies host
    ensures host.Valid() && first && second
    ensures host.log == old(host.log) + Wiped(v, None, old(host.volumes)[v], true) + Wiped(v, None, MadeFor(None), true)
    ensures var n := |old(host.log)|;
            && host.log[n + 1] == Provisioned(v, None, MadeFor(None))
            && host.log[n + 2] == Removed(v, None, MadeFor(None))
  {
    first := host.HandleWipeVolume(v, None, true);
    second := host.HandleWipeVolume(v, None, true);
  }
}
