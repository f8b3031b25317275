/** agent/src/worker-rollout-plan.ts: the order in which a worker rollout starts and stops. */
module WorkerRolloutPlan {
  import opened Wrappers

  datatype RolloutPolicy = Overlap | NoOverlap

  /** live is all the planner knows of a container's state; IsLive in WorkerRollout decides it. */
  datatype Existing = Existing(name: string, deployment: Option<string>, live: bool)

  datatype Reason = OverlapPolicy | NoPreviousVersion | ScaledToZero | NoOverlapPolicy | SingleWriterVolume

  datatype Plan =
    | CandidateFirst(reason: Reason, retireAfterReady: seq<string>)
    | StopFirst(reason: Reason, resetCandidates: seq<string>, stopBeforeStart: seq<string>)

  /** The names of the containers whose membership in candidates is as asked, in listing order. */
  function NamesWhere(containers: seq<Existing>, candidates: seq<string>, among: bool): seq<string> {
    if containers == [] then []
    else
      var rest := NamesWhere(containers[1..], candidates, among);
      if (containers[0].name in candidates) == among then [containers[0].name] + rest else rest
  }

  lemma {:induction false} NamesWhereMember(containers: seq<Existing>, candidates: seq<string>, among: bool, n: string)
    ensures n in NamesWhere(containers, candidates, among)
       <==> (n in candidates) == among && exists c :: c in containers && c.name == n
  {
    if containers != [] {
      NamesWhereMember(containers[1..], candidates, among, n);
      assert containers == [containers[0]] + containers[1..];
    }
  }

  predicate LiveOther(c: Existing, candidates: seq<string>) { c.name !in candidates && c.live }

  predicate AnyLiveOther(containers: seq<Existing>, candidates: seq<string>) {
    exists c :: c in containers && LiveOther(c, candidates)
  }

  predicate OlderVersionExists(containers: seq<Existing>, candidates: seq<string>, deploymentId: string) {
    exists c :: c in containers && LiveOther(c, candidates) && c.deployment != Some(deploymentId)
  }

  function PlanWorkerRollout(policy: RolloutPolicy, hasVolume: bool, deploymentId: string,
                             candidates: seq<string>, containers: seq<Existing>): Plan
  {
    var others := NamesWhere(containers, candidates, false);
    var existing := NamesWhere(containers, candidates, true);
    if candidates == [] then CandidateFirst(ScaledToZero, others)
    else if hasVolume && AnyLiveOther(containers, candidates) then StopFirst(SingleWriterVolume, existing, others)
    else
      var older := OlderVersionExists(containers, candidates, deploymentId);
      if policy.NoOverlap? && older then StopFirst(NoOverlapPolicy, existing, others)
      else CandidateFirst(if policy.Overlap? && older then OverlapPolicy else NoPreviousVersion, others)
  }

  /** Stop-first is chosen exactly when starting a candidate beside what is live could break a promise:
      a second writer on the volume, or two versions under no_overlap. */
  lemma StopFirstIff(policy: RolloutPolicy, hasVolume: bool, deploymentId: string,
                     candidates: seq<string>, containers: seq<Existing>)
    ensures PlanWorkerRollout(policy, hasVolume, deploymentId, candidates, containers).StopFirst?
       <==> candidates != [] &&
            exists c :: c in containers && c.name !in candidates && c.live &&
                        (hasVolume || (policy.NoOverlap? && c.deployment != Some(deploymentId)))
  {
    if OlderVersionExists(containers, candidates, deploymentId) {
      var c :| c in containers && LiveOther(c, candidates) && c.deployment != Some(deploymentId);
      assert c in containers && c.name !in candidates && c.live;
    }
    if AnyLiveOther(containers, candidates) {
      var c :| c in containers && LiveOther(c, candidates);
      assert c in containers && c.name !in candidates && c.live;
    }
  }

  /** Why the plan is what it is. */
  lemma ReasonIs(policy: RolloutPolicy, hasVolume: bool, deploymentId: string,
                 candidates: seq<string>, containers: seq<Existing>)
    ensures match PlanWorkerRollout(policy, hasVolume, deploymentId, candidates, containers)
            case StopFirst(reason, _, _) => reason == if hasVolume then SingleWriterVolume else NoOverlapPolicy
            case CandidateFirst(reason, _) =>
              if candidates == [] then reason == ScaledToZero
              else if policy.Overlap? && exists c :: c in containers && c.name !in candidates && c.live &&
                                                     c.deployment != Some(deploymentId)
              then reason == OverlapPolicy
              else reason == NoPreviousVersion
  {
    if c :| c in containers && c.name !in candidates && c.live && c.deployment != Some(deploymentId) {
      assert LiveOther(c, candidates);
    }
    if OlderVersionExists(containers, candidates, deploymentId) {
      var c :| c in containers && LiveOther(c, candidates) && c.deployment != Some(deploymentId);
      assert AnyLiveOther(containers, candidates);
    }
  }

  /** The names keep the order of the listing. */
  lemma {:induction false} NamesInOrder(first: seq<Existing>, second: seq<Existing>, candidates: seq<string>, among: bool)
    ensures NamesWhere(first + second, candidates, among)
         == NamesWhere(first, candidates, among) + NamesWhere(second, candidates, among)
  {
    if first == [] {
      assert first + second == second;
    } else {
      assert (first + second)[1..] == first[1..] + second;
      NamesInOrder(first[1..], second, candidates, among);
    }
  }

  /** A plan accounts for every container exactly once: the candidates to reset (or adopt) and all the
      others to stop or retire, never a candidate. */
  lemma PlanAccountsForAll(policy: RolloutPolicy, hasVolume: bool, deploymentId: string,
                           candidates: seq<string>, containers: seq<Existing>, n: string)
    ensures match PlanWorkerRollout(policy, hasVolume, deploymentId, candidates, containers)
            case CandidateFirst(_, retire) =>
              n in retire <==> n !in candidates && exists c :: c in containers && c.name == n
            case StopFirst(_, reset, stop) =>
              && (n in stop <==> n !in candidates && exists c :: c in containers && c.name == n)
              && (n in reset <==> n in candidates && exists c :: c in containers && c.name == n)
  {
    NamesWhereMember(containers, candidates, false, n);
    NamesWhereMember(containers, candidates, true, n);
  }
}
