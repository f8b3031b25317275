/** Scheduled worker jobs of one schedule run (agent/src/worker-runtime.ts): the container, the durable
    receipt, and the work items that start, inspect, stop and clean up. The agent may die between any
    two steps and a step may fail before or after it took effect. */
module WorkerJob {
  import opened Wrappers

  datatype ContainerState = NeverStarted | Running | Exited(code: int)

  /** own: created for this schedule run. Another one can hold the name, which shortens the ids. */
  datatype JobContainer = JobContainer(own: bool, state: ContainerState)

  datatype Status = Created | Active | Succeeded | Failure | Cancelled | Missing

  predicate IsTerminal(s: Status) { s.Succeeded? || s.Failure? || s.Cancelled? || s.Missing? }

  /** A receipt whose status is final. */
  predicate Settled(receipt: Option<Status>) { receipt.Some? && IsTerminal(receipt.value) }

  /** How a container that is not running ended. */
  function StatusOfExit(code: int): Status { if code == 0 then Succeeded else Failure }

  /** recoverWorkerJobReceiptFromContainer, for a container of this run. */
  function RecoveredStatus(state: ContainerState): Status {
    match state
    case Running => Active
    case NeverStarted => Created
    case Exited(code) => StatusOfExit(code)
  }

  /** toTerminalWorkerJobReceipt: Docker reports exit code 0 for a container that was never started. */
  function TerminalStatus(found: Option<ContainerState>): Status {
    match found
    case None => Missing
    case Some(Exited(code)) => StatusOfExit(code)
    case Some(_) => Succeeded
  }

  /** What a start saw of the container of an earlier attempt, if there was one. */
  datatype Look = Nothing | Saw(state: Option<ContainerState>)

  /** The status a job has that is not final yet, by what is seen of its container: still running, ended as
      its exit code says, gone, or, where the command was never started, what a start or an inspection makes
      of it. */
  ghost predicate StatusFits(s: Status, state: Option<ContainerState>, neverStarted: Status) {
    match state
    case None => s.Missing?
    case Some(Running) => s.Active?
    case Some(NeverStarted) => s == neverStarted
    case Some(Exited(code)) => if code == 0 then s.Succeeded? else s.Failure?
  }

  class JobHost {
    const quiet: bool                                     // nothing happens on its own, and no step fails
    var container: Option<JobContainer>
    var receipt: Option<Status>
    var alive: bool
    ghost var starts: nat                                 // of the command, since the last cleanup
    ghost var runs: nat                                   // of the command, ever
    ghost var cleanups: nat                               // receipts removed, ever

    /** The command ran at most once, and once it ran there is a receipt saying so. */
    ghost predicate Valid()
      reads this
    {
      && starts <= 1 && runs <= cleanups + starts
      && (starts == 1 ==> receipt.Some?) && (receipt == Some(Active) ==> starts == 1)
      && (container.Some? && container.value.own ==> (container.value.state.NeverStarted? <==> starts == 0))
    }

    /** The container this run's receipt names, by id. */
    function Own(): Option<ContainerState>
      reads this
    {
      if container.Some? && container.value.own then Some(container.value.state) else None
    }

    constructor (quiet: bool)
      ensures Valid() && container.None? && receipt.None? && starts == runs == cleanups == 0
      ensures alive && this.quiet == quiet
    {
      this.quiet := quiet;
      container, receipt, alive, starts, runs, cleanups := None, None, true, 0, 0, 0;
    }

    // ----- The environment and the single steps

    /** The process may exit, the container may be removed by someone else, the agent may die. */
    method Drift()
      requires Valid()
      modifies this`container, this`alive
      ensures Valid() && (quiet ==> container == old(container) && alive == old(alive))
      ensures container.Some? ==> old(container).Some? && container.value.own == old(container).value.own
      ensures Own() == Some(NeverStarted) ==> old(Own()) == Some(NeverStarted)
      ensures Own() == Some(Running) ==> old(Own()) == Some(Running)
      ensures alive ==> old(alive)
    {
      var vanishes: bool := *;
      var exits: bool := *;
      var code: int := *;
      var dies: bool := *;
      if quiet {
        return;
      }
      if vanishes {
        container := None;
      } else if exits && container.Some? && container.value.state.Running? {
        container := Some(container.value.(state := Exited(code)));
      }
      alive := alive && !dies;
    }

    method Step() returns (ok: bool)
      requires Valid()
      modifies this`container, this`alive
      ensures Valid() && (quiet ==> container == old(container) && alive == old(alive) && ok == alive)
      ensures container.Some? ==> old(container).Some? && container.value.own == old(container).value.own
      ensures Own() == Some(NeverStarted) ==> old(Own()) == Some(NeverStarted)
      ensures Own() == Some(Running) ==> old(Own()) == Some(Running)
      ensures ok ==> alive
      ensures alive ==> old(alive)
    {
      Drift();
      var fails: bool := *;
      ok := alive && (quiet || !fails);
    }

    /** Reading the receipt fails when it is there but not readable. */
    method ReadReceipt() returns (r: Reply<Option<Status>>)
      requires Valid()
      modifies this`container, this`alive
      ensures Valid() && (quiet && old(alive) ==> r.Ok? && alive && container == old(container))
      ensures r.Ok? ==> r.value == receipt
    {
      var ok := Step();
      r := if ok then Ok(receipt) else Failed;
    }

    /** Temporary file and rename: the whole receipt or the one before. */
    method WriteReceipt(s: Status) returns (ok: bool)
      requires Valid() && (s.Active? ==> starts == 1)
      modifies this`container, this`alive, this`receipt
      ensures Valid() && (quiet && old(alive) ==> ok && alive && container == old(container))
      ensures receipt == old(receipt) || receipt == Some(s)
      ensures ok ==> receipt == Some(s)
      ensures Own() == Some(NeverStarted) ==> old(Own()) == Some(NeverStarted)
      ensures Own() == Some(ContainerState.Running) ==> old(Own()) == Some(ContainerState.Running)
    {
      ok := Step();
      var late: bool := *;
      if ok || (alive && late) {
        receipt := Some(s);
      }
    }

    method InspectOwn() returns (r: Reply<Option<ContainerState>>)
      requires Valid()
      modifies this`container, this`alive
      ensures Valid() && (quiet && old(alive) ==> r.Ok? && alive && container == old(container))
      ensures r.Ok? ==> r.value == Own()
      ensures Own() == Some(ContainerState.Running) ==> old(Own()) == Some(ContainerState.Running)
    {
      var ok := Step();
      r := if ok then Ok(Own()) else Failed;
    }

    method InspectByName() returns (r: Reply<Option<JobContainer>>)
      requires Valid()
      modifies this`container, this`alive
      ensures Valid() && (quiet && old(alive) ==> r.Ok? && alive && container == old(container))
      ensures r.Ok? ==> r.value == container
    {
      var ok := Step();
      r := if ok then Ok(container) else Failed;
    }

    /** Starting runs the command, also again for a container that exited. */
    method StartContainer() returns (ok: bool)
      requires Valid() && receipt.Some? && starts == 0
      modifies this
      ensures Valid() && receipt == old(receipt) && starts >= old(starts)
      ensures ok ==> starts == 1
      ensures quiet && old(alive) && old(Own()).Some? ==> ok && alive && Own() == Some(ContainerState.Running)
    {
      ok := Step();
      var late: bool := *;
      if Own().None? {
        ok := false;
      } else if ok || (alive && late) {
        container := Some(container.value.(state := ContainerState.Running));
        starts, runs := starts + 1, runs + 1;
      }
    }

    /** A name already taken is refused (409). */
    method CreateContainer() returns (ok: bool)
      requires Valid() && starts == 0
      modifies this`container, this`alive
      ensures Valid()
      ensures quiet && old(alive) && old(container).None? ==>
                ok && alive && container == Some(JobContainer(true, NeverStarted))
    {
      ok := Step();
      var late: bool := *;
      if container.Some? {
        ok := false;
      } else if ok || (alive && late) {
        container := Some(JobContainer(true, NeverStarted));
      }
    }

    // ----- The work items

    /** No container is in the way of this run: there is none, or it is this run's, and its labels have the
        expected ids. */
    static predicate Free(container: Option<JobContainer>, matches: bool) {
      container.Some? ==> container.value.own && matches
    }

    /** recoverMissingWorkerJobReceipt: no receipt, but perhaps a container of this run. matches: whether its
        labels have the expected ids. */
    method RecoverMissingReceipt(matches: bool) returns (r: Reply<Option<Status>>, ghost look: Look)
      requires Valid() && receipt.None?
      modifies this`container, this`alive, this`receipt
      ensures Valid()
      ensures quiet && old(alive) ==> alive && container == old(container) && (r.Ok? <==> Free(old(container), matches))
      ensures quiet && old(alive) && r.Ok? ==> (r.value.Some? <==> old(container).Some?)
      ensures r.Ok? && r.value.None? ==> container.None?
      ensures r.Ok? ==> r.value == receipt && (r.value == Some(Succeeded) ==> starts == 1)
      ensures receipt.Some? && IsTerminal(receipt.value) ==> receipt.value.Succeeded? || receipt.value.Failure?
      ensures r.Ok? ==> (r.value.Some? <==> look.Saw?)
      ensures r.Ok? && r.value.Some? ==> look.state.Some? && StatusFits(r.value.value, look.state, Created)
    {
      look := Nothing;
      var inspected := InspectByName();
      if inspected.Failed? {
        return Failed, look;
      }
      var found := inspected.value;
      if found.None? {
        return Ok(None), look;
      }
      if !found.value.own || !matches {
        return Failed, look;
      }
      var status := RecoveredStatus(found.value.state);
      var written := WriteReceipt(status);
      return if written then Ok(Some(status)) else Failed, Saw(Some(found.value.state));
    }

    /** What a work item reports of the job: a final status stands in the receipt, and a job reported as
        running has had its command started. */
    ghost predicate TrueReport(r: Reply<Status>)
      reads this
    {
      r.Ok? ==> if IsTerminal(r.value) then receipt == Some(r.value) else r.value.Active? && starts == 1
    }

    /** Starts the container and notes it. */
    method Launch() returns (r: Reply<Status>)
      requires Valid() && receipt == Some(Created) && starts == 0
      modifies this
      ensures Valid() && starts >= old(starts) && TrueReport(r) && (r.Ok? ==> r.value.Active?)
      ensures quiet && old(alive) && old(Own()).Some? ==> r.Ok? && Own() == Some(ContainerState.Running)
    {
      var started := StartContainer();
      if !started {
        return Failed;
      }
      var written := WriteReceipt(Active);
      return if written then Ok(Active) else Failed;
    }

    /** A container that is not running ends the job. */
    method Conclude(found: Option<ContainerState>) returns (r: Reply<Status>)
      requires Valid() && receipt.Some?
      modifies this`container, this`alive, this`receipt
      ensures Valid() && TrueReport(r)
      ensures r.Ok? && found != Some(ContainerState.Running) ==> StatusFits(r.value, found, Succeeded)
      ensures quiet && old(alive) ==> r.Ok?
    {
      var written := WriteReceipt(TerminalStatus(found));
      return if written then Ok(TerminalStatus(found)) else Failed;
    }

    /** What a start finds of earlier attempts at this run. */
    method Resume(existing: Status) returns (r: Reply<Status>, ghost look: Look)
      requires Valid() && receipt == Some(existing)
      modifies this
      ensures Valid() && starts >= old(starts) && TrueReport(r)
      ensures IsTerminal(existing) ==> receipt == Some(existing) && r == Ok(existing) && look.Nothing?
      ensures r == Ok(Succeeded) && !IsTerminal(existing) ==> starts == 1
      ensures r.Ok? && !IsTerminal(existing) ==> look.Saw? && StatusFits(r.value, look.state, Active)
      ensures quiet && old(alive) ==> r.Ok?
    {
      look := Nothing;
      if IsTerminal(existing) {
        return Ok(existing), look;
      }
      var inspected := InspectOwn();
      if inspected.Failed? {
        return Failed, look;
      }
      var found := inspected.value;
      look := Saw(found);
      if found == Some(ContainerState.Running) {
        return Ok(Active), look;
      }
      if existing.Created? && found == Some(NeverStarted) {
        r := Launch();
      } else {
        r := Conclude(found);
      }
    }

    /** startWorkerJob, after its payload checks. look: what it last saw of a container of an earlier attempt. */
    method StartWorkerJob(matches: bool) returns (r: Reply<Status>, ghost look: Look)
      requires Valid()
      modifies this
      ensures Valid() && starts >= old(starts) && TrueReport(r)
      ensures Settled(old(receipt)) ==> receipt == old(receipt)
      ensures r == Ok(Succeeded) && !Settled(old(receipt)) ==> starts == 1
      ensures r.Ok? && Settled(old(receipt)) ==> r.value == old(receipt).value
      ensures r.Ok? && !Settled(old(receipt)) ==>
                if look.Nothing? then r.value.Active? && old(receipt).None? && starts == 1
                else StatusFits(r.value, look.state, Active)
      ensures quiet && old(alive) ==> (r.Ok? <==> old(receipt).Some? || Free(old(container), matches))
      ensures quiet && old(alive) && old(receipt).None? && old(container).None? ==>
                r == Ok(Active) && Own() == Some(ContainerState.Running)
    {
      look := Nothing;
      var existing := ReadReceipt();
      if existing.Ok? && existing.value.None? {
        existing, look := RecoverMissingReceipt(matches);
      }
      if existing.Failed? {
        return Failed, look;
      }
      if existing.value.Some? {
        ghost var earlier := look;
        r, look := Resume(existing.value.value);
        look := if look.Nothing? then earlier else look;
        return;
      }
      var ready := Step();                                // volume, network, image
      if !ready {
        return Failed, look;
      }
      var occupied := InspectByName();
      if occupied.Failed? || occupied.value.Some? {
        return Failed, look;
      }
      var created := CreateContainer();
      if !created {
        return Failed, look;
      }
      var written := WriteReceipt(Created);
      if !written {
        return Failed, look;
      }
      r := Launch();
    }

    /** inspectWorkerJob. found: the container its inspection saw. A job it newly reports as succeeded has run
        exactly when that container was started at all. */
    method InspectWorkerJob() returns (r: Reply<Status>, ghost found: Option<ContainerState>)
      requires Valid()
      modifies this`container, this`alive, this`receipt
      ensures Valid() && TrueReport(r)
      ensures Settled(old(receipt)) ==> receipt == old(receipt)
      ensures r == Ok(Succeeded) && !Settled(old(receipt)) ==>
                found.Some? && (starts == 1 <==> found.value != NeverStarted)
      ensures r.Ok? && Settled(old(receipt)) ==> r.value == old(receipt).value
      ensures r.Ok? && !Settled(old(receipt)) ==> StatusFits(r.value, found, Succeeded)
      ensures quiet && old(alive) ==>
                && (r.Ok? <==> old(receipt).Some?)
                && (old(receipt).Some? && !Settled(old(receipt)) ==> found == old(Own()))
    {
      found := None;
      var read := ReadReceipt();
      if read.Failed? || read.value.None? {
        return Failed, found;
      }
      if IsTerminal(read.value.value) {
        return Ok(read.value.value), found;
      }
      var state := InspectOwn();
      if state.Failed? {
        return Failed, found;
      }
      found := state.value;
      if state.value == Some(ContainerState.Running) {
        return Ok(Active), found;
      }
      r := Conclude(state.value);
    }

    /** stopWorkerJob. */
    method StopWorkerJob() returns (r: Reply<Status>)
      requires Valid()
      modifies this
      ensures Valid() && starts == old(starts) && TrueReport(r) && r != Ok(Active)
      ensures Settled(old(receipt)) ==> receipt == old(receipt)
      ensures r.Ok? && !Settled(old(receipt)) ==> r == Ok(Cancelled) && Own() != Some(ContainerState.Running)
      ensures quiet && old(alive) ==> (r.Ok? <==> old(receipt).Some?)
    {
      var read :- ReadReceipt();
      if read.None? {
        return Failed;
      }
      if IsTerminal(read.value) {
        return Ok(read.value);
      }
      var stopped := StopContainer();
      if !stopped {
        return Failed;
      }
      var _ :- InspectOwn();
      var written := WriteReceipt(Cancelled);
      return if written then Ok(Cancelled) else Failed;
    }

    /** docker stop; a missing or stopped container counts as stopped. */
    method StopContainer() returns (ok: bool)
      requires Valid()
      modifies this
      ensures Valid() && receipt == old(receipt) && starts == old(starts)
      ensures ok ==> Own() != Some(ContainerState.Running)
      ensures quiet && old(alive) ==> ok && alive
    {
      ok := Step();
      var late: bool := *;
      var code: int := *;
      if Own() == Some(ContainerState.Running) && (ok || (alive && late)) {
        container := Some(container.value.(state := Exited(code)));
      }
    }

    /** cleanupWorkerJob. complete: the run's receipt is gone, and with it the promise to run once. */
    method CleanupWorkerJob(matches: bool) returns (complete: bool)
      requires Valid()
      modifies this
      ensures Valid()
      ensures complete ==> receipt.None? && starts == 0 && Own().None?
      ensures quiet && old(alive) ==>
                (complete <==> (old(receipt).Some? || Free(old(container), matches))
                               && old(Own()) != Some(ContainerState.Running))
      ensures Settled(old(receipt)) && receipt.Some? ==> receipt == old(receipt)
      ensures starts != old(starts) ==> receipt.None?
    {
      complete := false;
      var read := ReadReceipt();
      if read.Ok? && read.value.None? {
        ghost var look;
        read, look := RecoverMissingReceipt(matches);
        if read.Ok? && read.value.None? {
          return true;
        }
      }
      if read.Failed? {
        return;
      }
      var found := InspectOwn();
      if found.Failed? || found.value == Some(ContainerState.Running) {
        return;
      }
      var removed := RemoveOwn();
      if !removed {
        return;
      }
      found := InspectOwn();
      if found.Failed? || found.value.Some? {
        return;
      }
      complete := RemoveReceipt();
    }

    method RemoveOwn() returns (ok: bool)
      requires Valid()
      modifies this
      ensures Valid() && receipt == old(receipt) && starts == old(starts)
      ensures ok ==> Own().None?
      ensures quiet && old(alive) ==> ok && alive
    {
      ok := Step();
      var late: bool := *;
      if Own().Some? && (ok || (alive && late)) {
        container := None;
      }
    }

    method RemoveReceipt() returns (ok: bool)
      requires Valid() && Own().None?
      modifies this
      ensures Valid()
      ensures ok ==> receipt.None? && starts == 0 && Own().None?
      ensures quiet && old(alive) ==> ok
      ensures (receipt == old(receipt) && starts == old(starts)) || (receipt.None? && starts == 0)
    {
      ok := Step();
      var late: bool := *;
      if ok || (alive && late) {
        receipt := None;
        starts, cleanups := 0, cleanups + 1;
      }
    }

    method Revive()
      requires Valid()
      modifies this`alive
      ensures Valid() && alive
    {
      alive := true;
    }
  }

  datatype Event = Start(matches: bool) | Inspect | Stop | Cleanup(matches: bool) | AgentRestart

  /** Any sequence of work items and agent restarts for one schedule run: the command has run at most
      once since the last completed cleanup, and without a cleanup a terminal status stays. */
  method Process(host: JobHost, events: seq<Event>)
    requires host.Valid()
    modifies host
    ensures host.Valid() && host.starts <= 1 && host.runs <= host.cleanups + 1
    ensures (forall e :: e in events ==> !e.Cleanup?) && Settled(old(host.receipt)) ==>
              host.receipt == old(host.receipt)
    ensures (forall e :: e in events ==> !e.Cleanup?) && old(host.starts) == 1 ==> host.starts == 1
  {
    for i := 0 to |events|
      invariant host.Valid()
      invariant (forall j :: 0 <= j < i ==> !events[j].Cleanup?) && Settled(old(host.receipt)) ==>
                  host.receipt == old(host.receipt)
      invariant (forall j :: 0 <= j < i ==> !events[j].Cleanup?) && old(host.starts) == 1 ==> host.starts == 1
    {
      match events[i] {
        case Start(matches) => var _, _ := host.StartWorkerJob(matches);
        case Inspect => var _, _ := host.InspectWorkerJob();
        case Stop => var _ := host.StopWorkerJob();
        case Cleanup(matches) => var _ := host.CleanupWorkerJob(matches);
        case AgentRestart => host.Revive();
      }
    }
  }

  /** A job reported as succeeded whose command never ran: a start creates the container and the receipt,
      the agent dies and comes back, and the next work item inspects. */
  method NeverStartedSucceeds() returns (host: JobHost)
    ensures fresh(host) && host.Valid()
    ensures host.receipt == Some(Succeeded) && host.runs == 0 && host.cleanups == 0
  {
    host := new JobHost(true);
    var _ := host.CreateContainer();
    var _ := host.WriteReceipt(Created);
    host.Revive();
    var _, _ := host.InspectWorkerJob();
  }
}
