/** agent/src/worker-shutdown.ts: stopping one worker container, with an outcome that is true of the
    host and a bound on the time slept. */
module WorkerShutdown {
  import opened Wrappers
  import opened DockerHost

  const WORKER_SHUTDOWN_POLL_INTERVAL_MS := 500
  const WORKER_SHUTDOWN_KILL_CONFIRM_MS := 15_000

  datatype Outcome = AlreadyStopped | Exited | Forced | Hung | Unconfirmed

  /** Outcomes that claim the process is not running. */
  predicate ClaimsStopped(o: Outcome) { o.AlreadyStopped? || o.Exited? || o.Forced? }

  function Remaining(deadline: int, now: int): nat { if deadline > now then deadline - now else 0 }

  method ReadRunningState(docker: Docker, n: string) returns (r: Reply<bool>)
    modifies docker
    ensures Quiet(old(docker.w), docker.w)
    ensures r == Ok(false) ==> !Running(docker.w.containers, n)
    ensures r == Ok(true) ==> Running(old(docker.w).containers, n)
    ensures r.Failed? ==> !Calm(old(docker.w), docker.w)
  {
    var inspection :- docker.InspectContainer(n);
    return Ok(inspection.Some? && inspection.value.running);
  }

  /** The policy's signal first, SIGKILL only once the time is up, both to this container only. */
  predicate Escalates(sent: seq<Signal>, n: string, deadline: int) {
    && |sent| <= 2
    && (|sent| > 0 ==> sent[0].name == n && !sent[0].kill)
    && (|sent| > 1 ==> sent[1].name == n && sent[1].kill && sent[1].at >= deadline)
  }

  /** How many signals an outcome takes. */
  function SignalsNeeded(o: Outcome): nat {
    match o
    case AlreadyStopped => 0
    case Exited => 1
    case _ => 2
  }

  /** Polls every half second until the container is seen stopped or the deadline passes. waits: how often it
      was seen running, and waited for. */
  method WaitUntilStopped(docker: Docker, n: string, deadline: int) returns (stopped: Reply<bool>, ghost waits: nat)
    modifies docker
    ensures Looked(old(docker.w), docker.w)
    ensures stopped == Ok(true) ==> !Running(docker.w.containers, n)
    ensures stopped == Ok(false) ==> docker.w.now >= deadline && Running(old(docker.w).containers, n)
    ensures stopped.Failed? ==> !Calm(old(docker.w), docker.w)
    ensures PoliciesKept(old(docker.w), docker.w) && docker.w.log.signals == old(docker.w.log.signals)
    ensures docker.w.log.slept <= old(docker.w.log.slept) + Remaining(deadline, old(docker.w.now))
    ensures waits > 0 ==> 500 * (waits - 1) < docker.w.log.slept - old(docker.w.log.slept) <= 500 * waits
  {
    waits := 0;
    while true
      invariant docker.w.log.slept - old(docker.w.log.slept) <= 500 * waits
      invariant docker.w.log.slept - old(docker.w.log.slept) == 500 * waits
                || (waits > 0 && docker.w.now >= deadline
                    && 500 * (waits - 1) < docker.w.log.slept - old(docker.w.log.slept))
      invariant Looked(old(docker.w), docker.w)
      invariant PoliciesKept(old(docker.w), docker.w) && docker.w.log.signals == old(docker.w.log.signals)
      invariant docker.w.log.slept <= old(docker.w.log.slept) + Remaining(deadline, old(docker.w.now))
                                      - Remaining(deadline, docker.w.now)
      decreases Remaining(deadline, docker.w.now)
    {
      ghost var start := docker.w;
      var running := ReadRunningState(docker, n);
      LookedTransitive(old(docker.w), start, docker.w);
      if running.Failed? {
        return Failed, waits;
      }
      if !running.value {
        return Ok(true), waits;
      }
      var remaining := deadline - docker.w.now;
      if remaining <= 0 {
        return Ok(false), waits;
      }
      ghost var seen := docker.w;
      docker.Wait(if WORKER_SHUTDOWN_POLL_INTERVAL_MS <= remaining then WORKER_SHUTDOWN_POLL_INTERVAL_MS else remaining);
      waits := waits + 1;
      LookedTransitive(old(docker.w), seen, docker.w);
    }
  }

  /** SIGKILL and its confirmation. */
  method ForceStop(docker: Docker, n: string) returns (outcome: Reply<Outcome>, ghost sent: seq<Signal>)
    modifies docker
    ensures Looked(old(docker.w), docker.w)
    ensures outcome == Ok(Forced) ==> !Running(docker.w.containers, n)
    ensures Calm(old(docker.w), docker.w) ==> outcome == Ok(Forced)
    ensures outcome.Ok? ==> outcome.value.Forced? || outcome.value.Hung?
    ensures PoliciesKept(old(docker.w), docker.w)
    ensures outcome == Ok(Hung) ==> docker.w.now >= old(docker.w.now) + 15_000
    ensures docker.w.log.slept <= old(docker.w.log.slept) + 15_000
    ensures docker.w.log.signals == old(docker.w.log.signals) + sent
    ensures sent == [] || (|sent| == 1 && sent[0].name == n && sent[0].kill && sent[0].at >= old(docker.w.now))
    ensures outcome.Ok? ==> |sent| == 1
  {
    var reply;
    reply, sent := docker.KillContainer(n, true);
    if reply.Failed? {
      return Failed, sent;
    }
    ghost var waits;
    var stopped;
    stopped, waits := WaitUntilStopped(docker, n, docker.w.now + WORKER_SHUTDOWN_KILL_CONFIRM_MS);
    outcome := if stopped.Failed? then Failed else Ok(if stopped.value then Forced else Hung);
  }

  /** The policy's signal and its grace period, which ends at deadline. */
  method SignalAndWait(docker: Docker, n: string, deadline: int) returns (stopped: Reply<bool>, ghost sent: seq<Signal>)
    modifies docker
    ensures Looked(old(docker.w), docker.w)
    ensures stopped == Ok(true) ==> !Running(docker.w.containers, n)
    ensures stopped == Ok(false) ==> docker.w.now >= deadline
    ensures stopped.Failed? ==> !Calm(old(docker.w), docker.w)
    ensures PoliciesKept(old(docker.w), docker.w)
    ensures docker.w.log.slept <= old(docker.w.log.slept) + Remaining(deadline, old(docker.w.now))
    ensures docker.w.log.signals == old(docker.w.log.signals) + sent
    ensures sent == [] || (|sent| == 1 && sent[0].name == n && !sent[0].kill)
    ensures stopped.Ok? ==> |sent| == 1
  {
    var reply;
    reply, sent := docker.KillContainer(n, false);
    if reply.Failed? {
      return Failed, sent;
    }
    ghost var waits;
    stopped, waits := WaitUntilStopped(docker, n, deadline);
  }

  /** Signal, grace period until deadline, SIGKILL, confirmation. */
  method StopRunning(docker: Docker, n: string, deadline: int) returns (outcome: Reply<Outcome>, ghost sent: seq<Signal>)
    modifies docker
    ensures Looked(old(docker.w), docker.w)
    ensures outcome.Ok? && ClaimsStopped(outcome.value) ==> !Running(docker.w.containers, n)
    ensures outcome.Ok? ==> outcome.value.Exited? || outcome.value.Forced? || outcome.value.Hung?
    ensures Calm(old(docker.w), docker.w) ==> outcome.Ok? && ClaimsStopped(outcome.value)
    ensures PoliciesKept(old(docker.w), docker.w)
    ensures outcome == Ok(Hung) ==> docker.w.now >= old(docker.w.now) + 15_000
    ensures docker.w.log.slept <= old(docker.w.log.slept) + Remaining(deadline, old(docker.w.now))
                                  + 15_000
    ensures docker.w.log.signals == old(docker.w.log.signals) + sent && Escalates(sent, n, deadline)
    ensures outcome.Ok? ==> |sent| == SignalsNeeded(outcome.value)
  {
    var graceful;
    graceful, sent := SignalAndWait(docker, n, deadline);
    if graceful.Failed? {
      return Failed, sent;
    }
    if graceful.value {
      return Ok(Exited), sent;
    }
    ghost var w1, more := docker.w, [];
    outcome, more := ForceStop(docker, n);
    LookedTransitive(old(docker.w), w1, docker.w);
    sent := sent + more;
  }

  /** Stops one container: policy off, signal, grace period, SIGKILL, confirmation. A reply without an
      outcome is a Docker error part-way through. */
  method StopWorkerContainerGracefully(docker: Docker, n: string, gracePeriodSeconds: nat)
    returns (outcome: Reply<Outcome>, ghost sent: seq<Signal>)
    modifies docker
    ensures Looked(old(docker.w), docker.w)
    ensures outcome.Ok? && ClaimsStopped(outcome.value) ==> !Running(docker.w.containers, n)
    ensures TouchesAmong(old(docker.w), docker.w, [n])
    ensures outcome.Ok? ==> outcome.value != Unconfirmed
    // Only something going wrong leaves it running, or unknown.
    ensures Calm(old(docker.w), docker.w) ==> outcome.Ok? && ClaimsStopped(outcome.value)
    ensures Calm(old(docker.w), docker.w) && !Running(old(docker.w).containers, n) ==> outcome == Ok(AlreadyStopped)
    ensures outcome.Ok? && outcome.value != AlreadyStopped && n in docker.w.containers ==>
              !docker.w.containers[n].autoRestart
    ensures outcome == Ok(Hung) ==>
              docker.w.now >= old(docker.w.now) + 15_000
    ensures docker.w.log.slept <=
              old(docker.w.log.slept) + gracePeriodSeconds * 1_000 + 15_000
    ensures docker.w.log.signals == old(docker.w.log.signals) + sent
    ensures Escalates(sent, n, old(docker.w.now) + gracePeriodSeconds * 1_000)
    ensures outcome.Ok? ==> |sent| == SignalsNeeded(outcome.value)
  {
    sent := [];
    var startedAt := docker.w.now;
    var running := ReadRunningState(docker, n);
    if running.Failed? {
      return Failed, sent;
    }
    if !running.value {
      return Ok(AlreadyStopped), sent;
    }
    ghost var w1 := docker.w;
    var found := docker.UpdateRestartPolicy(n, false);
    LookedTransitive(old(docker.w), w1, docker.w);
    if found.Failed? {
      return Failed, sent;
    }
    if !found.value {
      // A 404: no process is left to signal.
      return Ok(AlreadyStopped), sent;
    }
    ghost var w2 := docker.w;
    outcome, sent := StopRunning(docker, n, startedAt + gracePeriodSeconds * 1_000);
    LookedTransitive(old(docker.w), w2, docker.w);
  }

  datatype Report = Report(name: string, outcome: Outcome)

  /** The reports that make no claim about the process. */
  predicate MayStillRun(report: Report) { report.outcome.Hung? || report.outcome.Unconfirmed? }

  /** No other container was sent a signal. */
  ghost predicate SignalsAmong(w: World, w': World, names: seq<string>) {
    && w.log.signals <= w'.log.signals
    && forall i :: |w.log.signals| <= i < |w'.log.signals| ==> w'.log.signals[i].name in names
  }

  /** Every container gets a report, in order; a Docker error makes an unconfirmed one. */
  method StopAllGracefully(docker: Docker, names: seq<string>, gracePeriodSeconds: nat)
    returns (reports: seq<Report>)
    modifies docker
    ensures Looked(old(docker.w), docker.w)
    ensures TouchesAmong(old(docker.w), docker.w, names) && SignalsAmong(old(docker.w), docker.w, names)
    ensures |reports| == |names|
    ensures forall i :: 0 <= i < |names| ==> reports[i].name == names[i]
    ensures forall i :: 0 <= i < |names| && !MayStillRun(reports[i]) ==> !Running(docker.w.containers, names[i])
    ensures Calm(old(docker.w), docker.w) ==> forall i :: 0 <= i < |names| ==> !MayStillRun(reports[i])
  {
    reports := [];
    for i := 0 to |names|
      invariant Looked(old(docker.w), docker.w)
      invariant TouchesAmong(old(docker.w), docker.w, names) && SignalsAmong(old(docker.w), docker.w, names)
      invariant |reports| == i
      invariant Calm(old(docker.w), docker.w) ==> forall j :: 0 <= j < i ==> !MayStillRun(reports[j])
      invariant forall j :: 0 <= j < i ==> reports[j].name == names[j]
      invariant forall j :: 0 <= j < i && !MayStillRun(reports[j]) ==> !Running(docker.w.containers, names[j])
    {
      ghost var sent, w1 := [], docker.w;
      var outcome;
      outcome, sent := StopWorkerContainerGracefully(docker, names[i], gracePeriodSeconds);
      LookedTransitive(old(docker.w), w1, docker.w);
      reports := reports + [Report(names[i], if outcome.Ok? then outcome.value else Unconfirmed)];
    }
  }
}
