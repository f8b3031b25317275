/** Running a work item and reporting how it ended (agent/src/agent-work-reporting.ts, agent/src/index.ts), and
    whether the agent may then be restarted by an update (agent/src/update-agent.ts). */
module WorkReporting {
  import opened Wrappers

  datatype Report = Complete | Fail

  /** The control plane accepted it, the reply was lost on the way, or it was refused with a status. */
  datatype Outcome = Accepted | Lost | Refused(status: nat)

  datatype Send = Send(report: Report, outcome: Outcome)

  /** Released: the control plane took the work back. */
  datatype Prepared = Released | Ready(report: Report)

  /** What doing the work comes to: an exception, work the control plane took back, or a report, which may be one
      that cannot be sent as it is. */
  datatype Ended = Thrown | TakenBack | Reported(report: Report, sendable: bool)

  /** A failure after which the report may still have been committed. */
  predicate Transient(o: Outcome) {
    o.Lost? || (o.Refused? && (o.status >= 500 || o.status == 408 || o.status == 429))
  }

  // ----- What the sends of a completion say about it

  datatype Delivery = Pending | Delivered | Unconfirmed | Rejected

  function RecordAttempt(current: Delivery, o: Outcome): Delivery {
    if o.Accepted? then Delivered
    else if Transient(o) || current.Unconfirmed? then Unconfirmed
    else Rejected
  }

  predicate ShouldStartUpdater(d: Delivery) { d.Delivered? || d.Unconfirmed? }

  function DeliveryAfter(sends: seq<Send>): Delivery {
    if sends == [] then Pending
    else
      var before, last := DeliveryAfter(sends[..|sends| - 1]), sends[|sends| - 1];
      if last.report.Complete? then RecordAttempt(before, last.outcome) else before
  }

  /** A reply that does not say whether the report was taken: none, a server error, a timeout (408) or a refusal
      for now (429). */
  ghost predicate InDoubt(o: Outcome) {
    match o
    case Accepted => false
    case Lost => true
    case Refused(status) => status > 499 || status in {408, 429}
  }

  /** The control plane may hold the work as completed. */
  ghost predicate MayBeCompleted(sends: seq<Send>) {
    exists i :: 0 <= i < |sends| && sends[i].report.Complete? && (sends[i].outcome.Accepted? || InDoubt(sends[i].outcome))
  }

  /** A completion that was accepted is not sent again. */
  ghost predicate AcceptedLast(sends: seq<Send>) {
    forall i, j :: 0 <= i < j < |sends| && sends[i] == Send(Complete, Accepted) ==> !sends[j].report.Complete?
  }

  lemma {:induction false} UpdaterIffMayBeCompleted(sends: seq<Send>)
    requires AcceptedLast(sends)
    ensures ShouldStartUpdater(DeliveryAfter(sends)) <==> MayBeCompleted(sends)
    ensures DeliveryAfter(sends).Delivered? ==> Send(Complete, Accepted) in sends
  {
    if sends != [] {
      var before, last := sends[..|sends| - 1], sends[|sends| - 1];
      UpdaterIffMayBeCompleted(before);
      assert MayBeCompleted(before) ==> MayBeCompleted(sends);
      if MayBeCompleted(sends) && !MayBeCompleted(before) {
        var i :| 0 <= i < |sends| && sends[i].report.Complete? && (sends[i].outcome.Accepted? || InDoubt(sends[i].outcome));
        assert i == |sends| - 1;
      }
    }
  }

  /** Without that order it is wrong: a refusal after an accepted completion would count as rejected. */
  lemma AcceptedThenRefused()
    ensures !ShouldStartUpdater(DeliveryAfter([Send(Complete, Accepted), Send(Complete, Refused(409))]))
  {
    var sends := [Send(Complete, Accepted), Send(Complete, Refused(409))];
    assert sends[..1] == [Send(Complete, Accepted)] && sends[..1][..0] == [];
    assert DeliveryAfter(sends[..1]) == Delivered;
  }

  // ----- Sending

  ghost predicate NoCompletionInDoubt(sends: seq<Send>) {
    forall i :: 0 <= i < |sends| && sends[i].report.Complete? ==> !InDoubt(sends[i].outcome)
  }

  const ATTEMPTS := 4

  /** The attempts for one report: only after a transient failure another one, and at most four. */
  ghost predicate Attempts(run: seq<Send>, report: Report) {
    && 1 <= |run| <= 4 && (forall i :: 0 <= i < |run| ==> run[i].report == report)
    && (forall i :: 0 <= i < |run| - 1 ==> InDoubt(run[i].outcome))
    && (InDoubt(run[|run| - 1].outcome) ==> |run| == 4)
  }

  /** Attempts so far, all of which failed transiently. */
  ghost predicate Retrying(run: seq<Send>, report: Report) {
    forall i :: 0 <= i < |run| ==> run[i].report == report && Transient(run[i].outcome)
  }

  lemma OneMoreAttempt(run: seq<Send>, report: Report, o: Outcome)
    requires Retrying(run, report) && |run| < ATTEMPTS
    ensures Transient(o) ==> Retrying(run + [Send(report, o)], report)
    ensures !Transient(o) || |run| == ATTEMPTS - 1 ==> Attempts(run + [Send(report, o)], report)
  {
  }

  /** One second, doubled from attempt to attempt. */
  function BackOff(attempt: nat): nat {
    if attempt == 0 then 1000 else 2 * BackOff(attempt - 1)
  }

  lemma Regrouped(sends: seq<Send>, run: seq<Send>, last: Send)
    ensures sends + run + [last] == sends + (run + [last])
  {
  }

  lemma RefusedOnceIff(run: seq<Send>, report: Report)
    requires Attempts(run, report)
    ensures RefusedOnce(run) <==>
            report.Complete? && run[|run| - 1].outcome == Refused(422) && !Transient(run[0].outcome)
  {
  }

  /** One completion, answered as invalid. */
  predicate RefusedOnce(run: seq<Send>) { |run| == 1 && run[0] == Send(Complete, Refused(422)) }

  class WorkItemRun {
    var leaseHeld: bool
    var sends: seq<Send>
    var prepares: nat
    var rollbacks: nat                                    // of a result that cannot be reported
    var slept: nat
    var delivery: Delivery
    var completionMayBeCommitted: bool

    ghost predicate Valid()
      reads this
    {
      && delivery == DeliveryAfter(sends)
      && (!completionMayBeCommitted ==> NoCompletionInDoubt(sends))
    }

    constructor ()
      ensures Valid() && leaseHeld && sends == [] && prepares == rollbacks == slept == 0 && !completionMayBeCommitted
    {
      leaseHeld, sends, prepares, rollbacks, slept := true, [], 0, 0, 0;
      delivery, completionMayBeCommitted := Pending, false;
    }

    /** Does the work and makes its report. A result that cannot be reported is rolled back here already, and
        then the report is a failure; rolling back may itself fail. */
    method Prepare() returns (r: Reply<Prepared>, ended: Ended)
      requires leaseHeld && prepares == 0 && rollbacks == 0
      modifies this`prepares, this`rollbacks
      ensures prepares == 1 && rollbacks == if ended == Reported(Complete, false) then 1 else 0
      ensures match ended
              case Thrown => r.Failed?
              case TakenBack => r == Ok(Released)
              case Reported(Fail, _) => r == Ok(Ready(Fail))
              case Reported(Complete, sendable) => if sendable then r == Ok(Ready(Complete)) else r.Failed? || r == Ok(Ready(Fail))
    {
      prepares := 1;
      ended := *;
      match ended {
        case Thrown => r := Failed;
        case TakenBack => r := Ok(Released);
        case Reported(report, sendable) =>
          if report.Complete? && !sendable {
            var rolledBack := RejectResult();
            r := if rolledBack.Ok? then Ok(Ready(rolledBack.value)) else Failed;
          } else {
            r := Ok(Ready(report));
          }
      }
    }

    method RejectResult() returns (r: Reply<Report>)
      modifies this`rollbacks
      ensures rollbacks == old(rollbacks) + 1 && (r.Ok? ==> r.value.Fail?)
    {
      rollbacks := rollbacks + 1;
      var fails: bool := *;
      r := if fails then Failed else Ok(Fail);
    }

    /** One request, and what the update tracker records about it. */
    method SendOnce(report: Report) returns (o: Outcome)
      requires leaseHeld && delivery == DeliveryAfter(sends)
      modifies this`sends, this`delivery
      ensures sends == old(sends) + [Send(report, o)] && delivery == DeliveryAfter(sends)
    {
      o := *;
      assert (sends + [Send(report, o)])[..|sends|] == sends;
      sends := sends + [Send(report, o)];
      if report.Complete? {
        delivery := RecordAttempt(delivery, o);
      }
    }

    /** A completion whose reply is lost, or transiently refused, may have been committed. */
    method Attempt(report: Report) returns (o: Outcome)
      requires leaseHeld && Valid()
      modifies this`sends, this`delivery, this`completionMayBeCommitted
      ensures Valid() && sends == old(sends) + [Send(report, o)]
      ensures completionMayBeCommitted == (old(completionMayBeCommitted) || (report.Complete? && Transient(o)))
    {
      o := SendOnce(report);
      if Transient(o) && report.Complete? {
        completionMayBeCommitted := true;
      }
    }

    method SendWithRetry(report: Report) returns (o: Outcome, ghost run: seq<Send>)
      requires leaseHeld && Valid()
      modifies this`sends, this`delivery, this`slept, this`completionMayBeCommitted
      ensures Valid() && sends == old(sends) + run && Attempts(run, report) && o == run[|run| - 1].outcome
      ensures slept == old(slept) + [0, 1000, 3000, 7000][|run| - 1]
      ensures completionMayBeCommitted == (old(completionMayBeCommitted) || (report.Complete? && InDoubt(run[0].outcome)))
    {
      run := [];
      var attempt := 0;
      while true
        invariant Valid() && sends == old(sends) + run && |run| == attempt < ATTEMPTS
        invariant Retrying(run, report)
        invariant completionMayBeCommitted == (old(completionMayBeCommitted) || (report.Complete? && run != []))
        invariant slept == old(slept) + BackOff(attempt) - 1000
        decreases ATTEMPTS - attempt
      {
        o := Attempt(report);
        Regrouped(old(sends), run, Send(report, o));
        OneMoreAttempt(run, report, o);
        run := run + [Send(report, o)];
        if !Transient(o) || attempt == 3 {
          return;
        }
        slept := slept + BackOff(attempt);
        attempt := attempt + 1;
      }
    }

    /** Sends a report; a completion refused as invalid on its only send is rolled back and replaced by a failure. */
    method DeliverReport(report: Report)
      returns (rejected: Reply<Report>, ghost first: seq<Send>, ghost second: seq<Send>)
      requires Valid() && leaseHeld && sends == [] && !completionMayBeCommitted
      modifies this`sends, this`delivery, this`slept, this`completionMayBeCommitted, this`rollbacks
      ensures Valid() && sends == first + second && Attempts(first, report)
      ensures if rejected.Ok? then Attempts(second, rejected.value) else second == []
      ensures rejected.Ok? ==> rejected.value.Fail?
      ensures rollbacks == old(rollbacks) + if RefusedOnce(first) then 1 else 0
      ensures rejected.Ok? ==> RefusedOnce(first)
    {
      rejected, second := Failed, [];
      var o;
      o, first := SendWithRetry(report);
      RefusedOnceIff(first, report);
      if o == Refused(422) && report.Complete? && !completionMayBeCommitted {
        rejected, second := ReplaceResult();
      } else {
        assert first + [] == first;
      }
    }

    /** Rolls the result back and reports the failure that takes its place. */
    method ReplaceResult() returns (rejected: Reply<Report>, ghost run: seq<Send>)
      requires Valid() && leaseHeld
      modifies this`sends, this`delivery, this`slept, this`completionMayBeCommitted, this`rollbacks
      ensures Valid() && sends == old(sends) + run && rollbacks == old(rollbacks) + 1
      ensures if rejected.Ok? then rejected.value.Fail? && Attempts(run, rejected.value) else run == []
    {
      run := [];
      rejected := RejectResult();
      if rejected.Ok? {
        var o;
        o, run := SendWithRetry(rejected.value);
      } else {
        assert sends + [] == sends;
      }
    }

    /** executeAndReportAgentWork: prepared once, and the lease is kept until after the last send. */
    method ExecuteAndReport()
      returns (prepared: Reply<Prepared>, rejected: Reply<Report>, ghost first: seq<Send>, ghost second: seq<Send>,
               ghost ended: Ended)
      requires Valid() && leaseHeld && sends == [] && prepares == rollbacks == 0 && !completionMayBeCommitted
      modifies this
      ensures Valid() && !leaseHeld && prepares == 1 && sends == first + second
      ensures if prepared.Ok? && prepared.value.Ready? then Attempts(first, prepared.value.report) else first == []
      ensures if rejected.Ok? then Attempts(second, rejected.value) else second == []
      ensures rejected.Ok? ==> rejected.value.Fail? && RefusedOnce(first)
      ensures rollbacks <= 1 && (rollbacks == 1 <==> RefusedOnce(first) || ended == Reported(Complete, false))
      ensures ended == Reported(Complete, true) ==> Attempts(first, Complete)
      ensures ended == Reported(Complete, false) ==> first == [] || Attempts(first, Fail)
      ensures ended.Reported? && ended.report.Fail? ==> Attempts(first, Fail)
      ensures !ended.Reported? ==> first == []
    {
      first, second, rejected := [], [], Failed;
      prepared, ended := Prepare();
      if prepared.Ok? && prepared.value.Ready? {
        rejected, first, second := DeliverReport(prepared.value.report);
      }
      leaseHeld := false;
    }
  }

  lemma CompletionsOf(first: seq<Send>, second: seq<Send>)
    requires first == [] || Attempts(first, first[0].report)
    requires second == [] || (Attempts(second, Fail) && RefusedOnce(first))
    ensures AcceptedLast(first + second)
    ensures first == [] || first[0].report.Fail? || RefusedOnce(first) ==> !MayBeCompleted(first + second)
  {
  }

  /** processWorkItem, up to the decision whether the updater restarts the agent. pending: the work was an update
      that has one to start. */
  method ProcessWorkItem(run: WorkItemRun, leaseActive: bool) returns (pending: bool, updaterStarted: bool)
    requires run.Valid() && run.leaseHeld && run.sends == [] && run.prepares == run.rollbacks == 0
    requires !run.completionMayBeCommitted
    modifies run
    ensures updaterStarted <==> pending && MayBeCompleted(run.sends)
    ensures run.rollbacks > 0 ==> !MayBeCompleted(run.sends) && !updaterStarted
    ensures |run.sends| <= 8 && run.rollbacks <= 1 && !run.leaseHeld
    ensures run.prepares == if leaseActive then 1 else 0
    ensures !leaseActive ==> !pending && run.sends == [] && run.rollbacks == 0
  {
    if !leaseActive {
      run.leaseHeld := false;
      return false, false;
    }
    ghost var first, second, ended;
    var prepared, rejected;
    prepared, rejected, first, second, ended := run.ExecuteAndReport();
    CompletionsOf(first, second);
    UpdaterIffMayBeCompleted(run.sends);
    pending := *;
    updaterStarted := pending && ShouldStartUpdater(run.delivery);
  }
}
