/** Several attempts of deployAppImageWithDependencies (agent/src/index.ts) after each other, and the runs
    that show where its promises end. */
module AppRolloutRuns {
  import opened Wrappers
  import opened DockerHost
  import opened HostRuns
  import opened VolumeSnapshots
  import opened AppRollout

  /** The previous container was started while the slot holds a snapshot of contents it can change. */
  predicate StartedBesideSnapshot(app: App, w: World, w': World) {
    w'.slot.Some? && !w'.log.dirty && PreviousStarted(app, w, w')
  }

  /** Attempts at one deployment, each ending or dying anywhere, until one goes live or ends
      StartedBesideSnapshot: the volume's contents are not lost, and up to then ready for a retry. */
  method DeployAppWithRetries(docker: Docker, traefik: Traefik, app: App, attempts: nat)
    returns (settled: bool, live: bool)
    requires app.hasVolume && Resumable(docker.w)
    modifies docker, traefik
    ensures !live ==> Conserved(docker.w)
    ensures !settled ==> Resumable(docker.w)
  {
    settled, live := false, false;
    var n := 0;
    while n < attempts && !settled
      invariant live ==> settled
      invariant !live ==> Conserved(docker.w)
      invariant !settled ==> Resumable(docker.w)
      decreases attempts - n
    {
      docker.w := docker.w.(alive := true);               // the agent's process starts again
      var before := docker.w;
      ghost var early, passed;
      var result, found;
      var met: Conditions := *;
      result, found, early, passed := DeployApp(docker, traefik, app, met);
      live := result.Live?;
      settled := live || StartedBesideSnapshot(app, before, docker.w);
      n := n + 1;
    }
  }

  // ----- Runs that write routes too

  datatype AppCall = OnHost(call: Call) | SetRoute(target: Option<string>) | AwaitRoute

  datatype AppMove = AppMove(call: AppCall, e: Choice, ok: bool)

  function DoApp(s: AppState, call: AppCall, e: Choice): AppState {
    match call
    case OnHost(c) => s.(w := Do(s.w, c, e))
    case SetRoute(target) => RouteWritten(s, target, e)
    case AwaitRoute => RouteConfirmed(s, e)
  }

  predicate SucceedsApp(s: AppState, call: AppCall, e: Choice) {
    match call
    case OnHost(c) => Succeeds(s.w, c, e)
    case _ => Answered(s.w, e)
  }

  function PlayApp(s: AppState, run: seq<AppMove>): AppState
    decreases |run|
  {
    if run == [] then s else PlayApp(DoApp(s, run[0].call, run[0].e), run[1..])
  }

  predicate AnswersApp(s: AppState, run: seq<AppMove>)
    decreases |run|
  {
    run != [] ==>
      && run[0].ok == SucceedsApp(s, run[0].call, run[0].e)
      && AnswersApp(DoApp(s, run[0].call, run[0].e), run[1..])
  }

  /** The run can happen, and takes s to s'. */
  ghost predicate RunsApp(s: AppState, run: seq<AppMove>, s': AppState) { AnswersApp(s, run) && PlayApp(s, run) == s' }

  lemma StartsWith(a: AppState, run: seq<AppMove>, b: AppState, c: AppState)
    requires run != [] && run[0].ok == SucceedsApp(a, run[0].call, run[0].e) && b == DoApp(a, run[0].call, run[0].e)
    requires RunsApp(b, run[1..], c)
    ensures RunsApp(a, run, c)
  {
  }

  lemma {:induction false} RunsAppOn(a: AppState, first: seq<AppMove>, b: AppState, second: seq<AppMove>, c: AppState)
    requires RunsApp(a, first, b) && RunsApp(b, second, c)
    ensures RunsApp(a, first + second, c)
    decreases |first|
  {
    if first == [] {
      assert first + second == second;
    } else {
      var next := DoApp(a, first[0].call, first[0].e);
      RunsAppOn(next, first[1..], b, second, c);
      assert (first + second)[0] == first[0] && (first + second)[1..] == first[1..] + second;
      StartsWith(a, first + second, next, c);
    }
  }

  lemma ThreeMoves(a: AppState, x: seq<AppMove>, b: AppState, y: seq<AppMove>, c: AppState, z: seq<AppMove>, d: AppState)
    requires RunsApp(a, x, b) && RunsApp(b, y, c) && RunsApp(c, z, d)
    ensures RunsApp(a, x + y + z, d)
  {
    RunsAppOn(a, x, b, y, c);
    RunsAppOn(a, x + y, c, z, d);
  }

  /** A run on the host alone. */
  function Host(run: seq<Step>): seq<AppMove> {
    seq(|run|, i requires 0 <= i < |run| => AppMove(OnHost(run[i].call), run[i].e, run[i].ok))
  }

  lemma {:induction false} HostRunsApp(s: AppState, run: seq<Step>, w': World)
    requires Runs(s.w, run, w')
    ensures RunsApp(s, Host(run), s.(w := w'))
    decreases |run|
  {
    if run != [] {
      HostRunsApp(s.(w := Do(s.w, run[0].call, run[0].e)), run[1..], w');
      assert Host(run)[1..] == Host(run[1..]);
    }
  }

  lemma MoveRuns(s: AppState, m: AppMove)
    requires m.ok == SucceedsApp(s, m.call, m.e)
    ensures RunsApp(s, [m], DoApp(s, m.call, m.e))
  {
    assert [m][1..] == [];
    assert PlayApp(DoApp(s, m.call, m.e), []) == DoApp(s, m.call, m.e);
  }

  const REFUSED := CALM.(fails := true)

  /** moveAppTraffic: the route is written; whether Traefik confirms it is the environment's. */
  function PointRun(target: string, confirmed: bool): seq<AppMove> {
    [AppMove(SetRoute(Some(target)), CALM, true)] + Host([Step(Sleep(0), CALM, true)]) +
    [AppMove(AwaitRoute, if confirmed then CALM else REFUSED, confirmed)]
  }

  function PointedAt(s: AppState, target: string, confirmed: bool): AppState {
    AppState(if confirmed then s.w else Troubled(s.w), s.writes + [RouteWrite(Some(target), confirmed)])
  }

  lemma PointRuns(s: AppState, target: string, confirmed: bool)
    requires BaseTracksVolume(s.w) && s.w.alive
    ensures RunsApp(s, PointRun(target, confirmed), PointedAt(s, target, confirmed))
  {
    var s1 := s.(writes := s.writes + [RouteWrite(Some(target), false)]);
    var s2 := PointedAt(s, target, confirmed);
    CalmDrift(s.w);
    TroubledDrift(s.w, REFUSED);
    MoveRuns(s, AppMove(SetRoute(Some(target)), CALM, true));
    SleepRuns(s.w, 0);
    assert Slept(s.w, 0) == s.w;
    HostRunsApp(s1, [Step(Sleep(0), CALM, true)], s.w);
    assert s1.writes[..|s1.writes| - 1] == s.writes;
    MoveRuns(s1, AppMove(AwaitRoute, if confirmed then CALM else REFUSED, confirmed));
    RunsAppOn(s, [AppMove(SetRoute(Some(target)), CALM, true)], s1, Host([Step(Sleep(0), CALM, true)]), s1);
    RunsAppOn(s, [AppMove(SetRoute(Some(target)), CALM, true)] + Host([Step(Sleep(0), CALM, true)]), s1,
              [AppMove(AwaitRoute, if confirmed then CALM else REFUSED, confirmed)], s2);
  }

  /** A route write that fails without effect. */
  function RefusedRoute(target: string): seq<AppMove> { [AppMove(SetRoute(Some(target)), REFUSED, false)] }

  lemma RefusedRuns(s: AppState, target: string)
    requires BaseTracksVolume(s.w) && s.w.alive
    ensures RunsApp(s, RefusedRoute(target), s.(w := Troubled(s.w)))
  {
    TroubledDrift(s.w, REFUSED);
    MoveRuns(s, AppMove(SetRoute(Some(target)), REFUSED, false));
  }

  // ----- The beginning of a run

  /** The candidate's name is free, and the recorded previous container p is another one, which runs. */
  ghost predicate ServedBy(app: App, w: World, p: string) {
    && app.previous == Some(p) && p != app.candidate && app.candidate !in w.containers
    && Running(w.containers, p) && w.containers[p].mounts == app.hasVolume
    && (forall n :: Running(w.containers, n) && n != p ==> !w.containers[n].mounts)
    && w.alive && BaseTracksVolume(w)
  }

  function NewCandidate(app: App): Container { Container(true, None, app.hasVolume, false, true) }

  /** After the listing: a rejected release's traffic stays, as its previous container p does not convince;
      the pre-activation job succeeds. */
  function EarlyRun(app: App, p: string): seq<Step> {
    (if app.verificationRolledBack then Unconvinced(p) else []) + (if app.preActivation then Looks(1) else [])
  }

  function EarlyWorld(app: App, w: World, p: string): World { if app.verificationRolledBack then GivenUp(w, p) else w }

  lemma EarlyRuns(app: App, w: World, p: string)
    requires BaseTracksVolume(w) && w.alive
    ensures Runs(w, EarlyRun(app, p), EarlyWorld(app, w, p))
  {
    UnconvincedRuns(w, p);
    LooksRun(EarlyWorld(app, w, p), 1);
    RunsOn(w, if app.verificationRolledBack then Unconvinced(p) else [], EarlyWorld(app, w, p),
           if app.preActivation then Looks(1) else [], EarlyWorld(app, w, p));
  }

  /** The candidate of a run that touches no volume starts and passes its check. */
  function ReadyRun(app: App, p: string): seq<Step> {
    Looks(1) + EarlyRun(app, p) + StartRun(2, app.candidate, NewCandidate(app)) + Calmly(0, Judge(app.candidate), true)
  }

  function ReadyWorld(app: App, w: World, p: string): World {
    Effect(CandidateUp(EarlyWorld(app, w, p), app.candidate, NewCandidate(app)), Judge(app.candidate), CALM)
  }

  lemma ReadyRuns(app: App, w: World, p: string)
    requires ServedBy(app, w, p)
    ensures Runs(w, ReadyRun(app, p), ReadyWorld(app, w, p))
  {
    var c := app.candidate;
    var w1 := EarlyWorld(app, w, p);
    var w2 := CandidateUp(w1, c, NewCandidate(app));
    LooksRun(w, 1);
    EarlyRuns(app, w, p);
    StartRuns(w1, 2, c, NewCandidate(app));
    CalmRun(w2, 0, Judge(c));
    RunsOn(w, Looks(1), w, EarlyRun(app, p), w1);
    RunsOn(w, Looks(1) + EarlyRun(app, p), w1, StartRun(2, c, NewCandidate(app)), w2);
    RunsOn(w, Looks(1) + EarlyRun(app, p) + StartRun(2, c, NewCandidate(app)), w2, Calmly(0, Judge(c), true),
           ReadyWorld(app, w, p));
  }

  lemma ReadyRunsTo(app: App, w: World, p: string) returns (w': World)
    requires ServedBy(app, w, p)
    ensures Runs(w, ReadyRun(app, p), w') && w'.alive && BaseTracksVolume(w')
    ensures Running(w'.containers, p) && Running(w'.containers, app.candidate)
  {
    ReadyRuns(app, w, p);
    w' := ReadyWorld(app, w, p);
  }

  // ----- Live without the traffic

  /** Verification of the routed candidate fails, the traffic is to go back to p, which Traefik does not
      confirm, and the second write to the candidate is refused. */
  function UnsettledRun(c: string, p: string): seq<AppMove> {
    PointRun(c, true) + Host(Calmly(1, Judge(p), true)) + PointRun(p, false) + RefusedRoute(c)
  }

  lemma UnsettledRuns(s: AppState, c: string, p: string)
    requires BaseTracksVolume(s.w) && s.w.alive && Running(s.w.containers, p)
    ensures RunsApp(s, UnsettledRun(c, p),
                    AppState(Troubled(Troubled(Effect(s.w, Judge(p), CALM))),
                             s.writes + [RouteWrite(Some(c), true)] + [RouteWrite(Some(p), false)]))
  {
    var s1 := PointedAt(s, c, true);
    var s2 := s1.(w := Effect(s.w, Judge(p), CALM));
    var s3 := PointedAt(s2, p, false);
    PointRuns(s, c, true);
    CalmRun(s.w, 1, Judge(p));
    HostRunsApp(s1, Calmly(1, Judge(p), true), s2.w);
    PointRuns(s2, p, false);
    RefusedRuns(s3, c);
    RunsAppOn(s, PointRun(c, true), s1, Host(Calmly(1, Judge(p), true)), s2);
    RunsAppOn(s, PointRun(c, true) + Host(Calmly(1, Judge(p), true)), s2, PointRun(p, false), s3);
    RunsAppOn(s, PointRun(c, true) + Host(Calmly(1, Judge(p), true)) + PointRun(p, false), s3, RefusedRoute(c),
              s3.(w := Troubled(s3.w)));
  }

  /** The first attempt at a retirement succeeds. */
  function RetireRun(p: string): seq<Step> { Calmly(0, Halt(p), true) + Calmly(0, Remove(p, false), true) }

  function Retired(w: World, p: string): World
    requires p in w.containers
  {
    Removed(Exited(w, p), p)
  }

  lemma RetireRuns(w: World, p: string)
    requires BaseTracksVolume(w) && w.alive && p in w.containers
    ensures Runs(w, RetireRun(p), Retired(w, p))
  {
    CalmRun(w, 0, Halt(p));
    CalmRun(Exited(w, p), 0, Remove(p, false));
    RunsOn(w, Calmly(0, Halt(p), true), Exited(w, p), Calmly(0, Remove(p, false), true), Retired(w, p));
  }

  /** Where KeepsTraffic fails and no candidate was adopted, a run can go live with the last route written
      to a container that is gone. */
  lemma LiveWithoutTraffic(app: App, s: AppState, p: string) returns (s': AppState)
    requires ServedBy(app, s.w, p) && !KeepsTraffic(app, Some(p))
    ensures RunsApp(s, Host(ReadyRun(app, p)) + UnsettledRun(app.candidate, p) + Host(RetireRun(p)), s')
    ensures Running(s'.w.containers, app.candidate) && !RoutedTo(s'.writes, Some(app.candidate))
    ensures s'.writes != [] && s'.writes[|s'.writes| - 1].target == Some(p) && p !in s'.w.containers
  {
    var c := app.candidate;
    var ready := ReadyRunsTo(app, s.w, p);
    var s1 := s.(w := ready);
    var s2 := AppState(Troubled(Troubled(Effect(s1.w, Judge(p), CALM))),
                       s.writes + [RouteWrite(Some(c), true)] + [RouteWrite(Some(p), false)]);
    HostRunsApp(s, ReadyRun(app, p), s1.w);
    UnsettledRuns(s1, c, p);
    RetireRuns(s2.w, p);
    s' := s2.(w := Retired(s2.w, p));
    HostRunsApp(s2, RetireRun(p), s'.w);
    ThreeMoves(s, Host(ReadyRun(app, p)), s1, UnsettledRun(c, p), s2, Host(RetireRun(p)), s');
  }

  // ----- A readiness failure, or a halt, after an unconfirmed return

  /** An earlier run rejected the release; its traffic goes back to p, which Traefik does not confirm. */
  function UnconfirmedReturnRun(p: string): seq<AppMove> {
    Host(Calmly(1, Judge(p), true)) + PointRun(p, false)
  }

  /** The release is tried again after all: its candidate fails its check and goes, and p serves. */
  function RejectedAgainRun(app: App, p: string): seq<Step> {
    (if app.preActivation then Looks(1) else []) +
    CandidateRun(2, app.candidate, NewCandidate(app), None, 0, true) + Calmly(1, Judge(p), true)
  }

  lemma RejectedAgainRuns(app: App, w: World, p: string) returns (w': World)
    requires BaseTracksVolume(w) && w.alive && Running(w.containers, p) && app.candidate !in w.containers
    ensures Runs(w, RejectedAgainRun(app, p), w') && w'.containers == w.containers
  {
    var k := NewCandidate(app);
    var w1 := CandidateGone(w, app.candidate, k, None);
    LooksRun(w, 1);
    CandidateRuns(w, 2, app.candidate, k, None, 0, true);
    CalmRun(w1, 1, Judge(p));
    w' := Effect(w1, Judge(p), CALM);
    var early := if app.preActivation then Looks(1) else [];
    RunsOn(w, early, w, CandidateRun(2, app.candidate, k, None, 0, true), w1);
    RunsOn(w, early + CandidateRun(2, app.candidate, k, None, 0, true), w1, Calmly(1, Judge(p), true), w');
  }

  /** Without a volume and with a rejected release, a readiness failure that preserves the previous container
      can leave its route unconfirmed. */
  lemma PreservedWithoutConfirmedRoute(app: App, s: AppState, p: string) returns (s': AppState)
    requires ServedBy(app, s.w, p) && !app.hasVolume && app.verificationRolledBack
    ensures RunsApp(s, UnconfirmedReturnRun(p) + Host(RejectedAgainRun(app, p)), s')
    ensures Running(s'.w.containers, p) && app.candidate !in s'.w.containers
    ensures s'.writes == s.writes + [RouteWrite(Some(p), false)] && !RoutedTo(s'.writes, Some(p))
  {
    var s1 := s.(w := Effect(s.w, Judge(p), CALM));
    var s2 := PointedAt(s1, p, false);
    CalmRun(s.w, 1, Judge(p));
    HostRunsApp(s, Calmly(1, Judge(p), true), s1.w);
    PointRuns(s1, p, false);
    var w' := RejectedAgainRuns(app, s2.w, p);
    HostRunsApp(s2, RejectedAgainRun(app, p), w');
    s' := s2.(w := w');
    RunsAppOn(s, Host(Calmly(1, Judge(p), true)), s1, PointRun(p, false), s2);
    RunsAppOn(s, UnconfirmedReturnRun(p), s2, Host(RejectedAgainRun(app, p)), s');
  }

  /** With a rejected release and a pre-activation job, with or without a volume, a halt by that job that
      reports the previous container as serving can leave its route unconfirmed. */
  lemma HaltedWithoutConfirmedRoute(app: App, s: AppState, p: string) returns (s': AppState)
    requires ServedBy(app, s.w, p) && app.verificationRolledBack && app.preActivation
    ensures RunsApp(s, UnconfirmedReturnRun(p) + Host(Calmly(1, Judge(p), true)), s')
    ensures Running(s'.w.containers, p) && app.candidate !in s'.w.containers
    ensures s'.writes == s.writes + [RouteWrite(Some(p), false)] && !RoutedTo(s'.writes, Some(p))
  {
    var s1 := s.(w := Effect(s.w, Judge(p), CALM));
    var s2 := PointedAt(s1, p, false);
    CalmRun(s.w, 1, Judge(p));
    HostRunsApp(s, Calmly(1, Judge(p), true), s1.w);
    PointRuns(s1, p, false);
    CalmRun(s2.w, 1, Judge(p));
    s' := s2.(w := Effect(s2.w, Judge(p), CALM));
    HostRunsApp(s2, Calmly(1, Judge(p), true), s'.w);
    RunsAppOn(s, Host(Calmly(1, Judge(p), true)), s1, PointRun(p, false), s2);
    RunsAppOn(s, UnconfirmedReturnRun(p), s2, Host(Calmly(1, Judge(p), true)), s');
  }

  // ----- A live candidate that is its own predecessor

  /** Up to the start of a candidate recorded as its own predecessor and gone: nothing is there to take the
      traffic back or to quiesce. */
  function OwnPredecessorEarly(app: App): seq<Step> {
    var c := app.candidate;
    (if app.verificationRolledBack then Calmly(1, Judge(c), false) + Calmly(0, GiveUp(c), true) else Looks(1)) +
    (if app.preActivation then Looks(1) else []) +
    (if app.hasVolume then Calmly(3, Halt(c), true) + Calmly(1, Snapshot, true) else [])
  }

  function Quiesced(app: App, w: World): World {
    var w1 := if app.verificationRolledBack then Effect(w, GiveUp(app.candidate), CALM) else w;
    if app.hasVolume then SnapshotTaken(w1) else w1
  }

  lemma OwnPredecessorEarlyRuns(app: App, w: World)
    requires BaseTracksVolume(w) && w.alive && app.candidate !in w.containers
    ensures Runs(w, OwnPredecessorEarly(app), Quiesced(app, w))
  {
    var c := app.candidate;
    var w1 := if app.verificationRolledBack then Effect(w, GiveUp(c), CALM) else w;
    CalmRun(w, 1, Judge(c));
    CalmRun(w, 0, GiveUp(c));
    assert Looks(0) == [];
    RunsOn(w, Calmly(1, Judge(c), false), w, Calmly(0, GiveUp(c), true), Effect(w, GiveUp(c), CALM));
    LooksRun(w, 1);
    LooksRun(w1, 1);
    CalmRun(w1, 3, Halt(c));
    CalmRun(w1, 1, Snapshot);
    var one := if app.verificationRolledBack then Calmly(1, Judge(c), false) + Calmly(0, GiveUp(c), true) else Looks(1);
    var two := if app.preActivation then Looks(1) else [];
    RunsOn(w1, Calmly(3, Halt(c), true), w1, Calmly(1, Snapshot, true), SnapshotTaken(w1));
    RunsOn(w, one, w1, two, w1);
    RunsOn(w, one + two, w1, if app.hasVolume then Calmly(3, Halt(c), true) + Calmly(1, Snapshot, true) else [],
           Quiesced(app, w));
  }

  /** After the cutover: a verification that passes, the retirement, the snapshot. */
  function OwnPredecessorLate(app: App): seq<Step> {
    (if app.verification.Some? then Looks(1) else []) + RetireRun(app.candidate) +
    (if app.hasVolume then Calmly(0, Discard, true) else [])
  }

  lemma OwnPredecessorLateRuns(app: App, w: World) returns (w': World)
    requires BaseTracksVolume(w) && w.alive && app.candidate in w.containers
    ensures Runs(w, OwnPredecessorLate(app), w')
    ensures app.candidate !in w'.containers && w'.log.removals == w.log.removals + multiset{app.candidate}
  {
    var w1 := Retired(w, app.candidate);
    LooksRun(w, 1);
    RetireRuns(w, app.candidate);
    CalmRun(w1, 0, Discard);
    w' := if app.hasVolume then w1.(slot := None) else w1;
    var one := if app.verification.Some? then Looks(1) else [];
    RunsOn(w, one, w, RetireRun(app.candidate), w1);
    RunsOn(w, one + RetireRun(app.candidate), w1, if app.hasVolume then Calmly(0, Discard, true) else [], w');
  }

  /** The candidate starts and passes its check. */
  function OwnPredecessorStart(app: App): seq<Step> {
    StartRun(2, app.candidate, NewCandidate(app)) + Calmly(0, Judge(app.candidate), true)
  }

  function OwnPredecessorUp(app: App, w: World): World {
    Effect(CandidateUp(w, app.candidate, NewCandidate(app)), Judge(app.candidate), CALM)
  }

  lemma OwnPredecessorStartRuns(app: App, w: World)
    requires BaseTracksVolume(w) && w.alive && app.candidate !in w.containers
    ensures Runs(w, OwnPredecessorStart(app), OwnPredecessorUp(app, w))
  {
    var w1 := CandidateUp(w, app.candidate, NewCandidate(app));
    StartRuns(w, 2, app.candidate, NewCandidate(app));
    CalmRun(w1, 0, Judge(app.candidate));
    RunsOn(w, StartRun(2, app.candidate, NewCandidate(app)), w1, Calmly(0, Judge(app.candidate), true),
           OwnPredecessorUp(app, w));
  }

  function OwnPredecessorRun(app: App): seq<AppMove> {
    Host(OwnPredecessorEarly(app) + OwnPredecessorStart(app)) + PointRun(app.candidate, true) +
    Host(OwnPredecessorLate(app))
  }

  /** The other half of LiveCandidateIsKept: a run of any app recorded as its own predecessor, and gone, can
      route the traffic to its candidate and then retire it. */
  lemma OwnPredecessorIsRetired(app: App, s: AppState) returns (s': AppState)
    requires app.previous == Some(app.candidate) && app.candidate !in s.w.containers
    requires s.w.alive && BaseTracksVolume(s.w) && NoConsumer(s.w.containers)
    ensures RunsApp(s, OwnPredecessorRun(app), s')
    ensures RoutedTo(s'.writes, Some(app.candidate)) && app.candidate !in s'.w.containers
    ensures s'.w.log.removals == s.w.log.removals + multiset{app.candidate}
  {
    var w1 := Quiesced(app, s.w);
    var w2 := OwnPredecessorUp(app, w1);
    OwnPredecessorEarlyRuns(app, s.w);
    OwnPredecessorStartRuns(app, w1);
    RunsOn(s.w, OwnPredecessorEarly(app), w1, OwnPredecessorStart(app), w2);
    HostRunsApp(s, OwnPredecessorEarly(app) + OwnPredecessorStart(app), w2);
    PointRuns(s.(w := w2), app.candidate, true);
    var s2 := AppState(w2, s.writes + [RouteWrite(Some(app.candidate), true)]);
    var w3 := OwnPredecessorLateRuns(app, w2);
    HostRunsApp(s2, OwnPredecessorLate(app), w3);
    s' := s2.(w := w3);
    var first := Host(OwnPredecessorEarly(app) + OwnPredecessorStart(app));
    RunsAppOn(s, first, s.(w := w2), PointRun(app.candidate, true), s2);
    RunsAppOn(s, first + PointRun(app.candidate, true), s2, Host(OwnPredecessorLate(app)), s');
  }

  // ----- A snapshot that is reused too late

  /** The previous container is started again and passes its check. */
  function RestartRun(n: nat, p: string): seq<Step> {
    Calmly(n, Launch(p, false), true) + Calmly(0, Judge(p), true)
  }

  function BackAgain(w: World, p: string): World
    requires p in w.containers
  {
    Started(w, p, false).(log := Started(w, p, false).log.(ready := w.log.ready + [p]))
  }

  lemma RestartRuns(w: World, n: nat, p: string)
    requires BaseTracksVolume(w) && w.alive && p in w.containers && !w.containers[p].running
    ensures Runs(w, RestartRun(n, p), BackAgain(w, p))
  {
    CalmRun(w, n, Launch(p, false));
    CalmRun(Started(w, p, false), 0, Judge(p));
    RunsOn(w, Calmly(n, Launch(p, false), true), Started(w, p, false), Calmly(0, Judge(p), true), BackAgain(w, p));
  }

  /** The previous container is quiesced. */
  function QuiesceRun(app: App, p: string): seq<Step> { EarlyRun(app, p) + Calmly(4, Halt(p), true) }

  lemma QuiesceRuns(app: App, w: World, p: string)
    requires BaseTracksVolume(w) && w.alive && p in w.containers
    ensures Runs(w, QuiesceRun(app, p), Exited(EarlyWorld(app, w, p), p))
  {
    EarlyRuns(app, w, p);
    CalmRun(EarlyWorld(app, w, p), 4, Halt(p));
    RunsOn(w, EarlyRun(app, p), EarlyWorld(app, w, p), Calmly(4, Halt(p), true), Exited(EarlyWorld(app, w, p), p));
  }

  /** An attempt that quiesces p and whose snapshot task fails late: it starts p again. */
  function LateSnapshotRun(app: App, p: string): seq<Step> {
    Looks(1) + QuiesceRun(app, p) + (Looks(1) + [LATE_FAILURE]) + RestartRun(1, p)
  }

  lemma LateSnapshotRuns(app: App, w: World, p: string) returns (w': World)
    requires BaseTracksVolume(w) && w.alive && Running(w.containers, p)
    ensures Runs(w, LateSnapshotRun(app, p), w')
    ensures w' == BackAgain(SnapshotTaken(Troubled(Exited(EarlyWorld(app, w, p), p))), p)
  {
    var w1 := Exited(EarlyWorld(app, w, p), p);
    var w2 := SnapshotTaken(Troubled(w1));
    w' := BackAgain(w2, p);
    LooksRun(w, 1);
    QuiesceRuns(app, w, p);
    LateFailureRuns(w1, 1);
    RestartRuns(w2, 1, p);
    RunsOn(w, Looks(1), w, QuiesceRun(app, p), w1);
    RunsOn(w, Looks(1) + QuiesceRun(app, p), w1, Looks(1) + [LATE_FAILURE], w2);
    RunsOn(w, Looks(1) + QuiesceRun(app, p) + (Looks(1) + [LATE_FAILURE]), w2, RestartRun(1, p), w');
  }

  /** The traffic points at p again, and p serves. */
  function ServesAgainRun(p: string): seq<AppMove> { PointRun(p, true) + Host(Calmly(0, Judge(p), true)) }

  lemma SnapshotOutlivesItsAttempt(app: App, s: AppState, p: string) returns (s': AppState)
    requires app.hasVolume && ServedBy(app, s.w, p) && Resumable(s.w) && s.w.slot.None?
    ensures RunsApp(s, Host(LateSnapshotRun(app, p)) + ServesAgainRun(p), s')
    ensures ServedBy(app, s'.w, p) && RoutedTo(s'.writes, Some(p))
    ensures s'.w.slot == Some(s'.w.volume) && StartedBesideSnapshot(app, s.w, s'.w)
    ensures s'.w.volume == s.w.volume && s'.w.kept == s.w.kept
  {
    var w3 := LateSnapshotRuns(app, s.w, p);
    HostRunsApp(s, LateSnapshotRun(app, p), w3);
    s' := ServesAgainRuns(s.(w := w3), p);
    RunsAppOn(s, Host(LateSnapshotRun(app, p)), s.(w := w3), ServesAgainRun(p), s');
    assert s'.w.log.starts[|s.w.log.starts|].name == p;
  }

  lemma ServesAgainRuns(s: AppState, p: string) returns (s': AppState)
    requires BaseTracksVolume(s.w) && s.w.alive && Running(s.w.containers, p)
    ensures RunsApp(s, ServesAgainRun(p), s')
    ensures s' == AppState(Effect(s.w, Judge(p), CALM), s.writes + [RouteWrite(Some(p), true)])
  {
    var s1 := s.(writes := s.writes + [RouteWrite(Some(p), true)]);
    PointRuns(s, p, true);
    CalmRun(s.w, 0, Judge(p));
    s' := s1.(w := Effect(s.w, Judge(p), CALM));
    HostRunsApp(s1, Calmly(0, Judge(p), true), s'.w);
    RunsAppOn(s, PointRun(p, true), s1, Host(Calmly(0, Judge(p), true)), s');
  }

  /** The next attempt up to the failure of its candidate, which writes v: p wrote y before, and the snapshot
      in the slot is taken for this attempt's. */
  function ReuseRun(app: App, p: string, y: int, v: int): seq<Step> {
    [Writes(y)] + QuiesceRun(app, p) + Calmly(1, Snapshot, true) +
    CandidateRun(2, app.candidate, NewCandidate(app), Some(v), 0, true)
  }

  lemma ReuseRuns(app: App, w: World, p: string, y: int, v: int) returns (w': World)
    requires app.hasVolume && ServedBy(app, w, p) && !w.log.dirty && w.slot.Some?
    ensures Runs(w, ReuseRun(app, p, y, v), w')
    ensures w'.log.dirty && w'.log.base == y && w'.slot == w.slot && w'.kept == w.kept && w'.alive
    ensures p in w'.containers && !w'.containers[p].running
  {
    var w2 := WritesThenStops(app, w, p, y);
    CalmRun(w2, 1, Snapshot);
    w' := CandidateFailsBeside(w2, w, p, y, 2, app.candidate, NewCandidate(app), v, 0, true);
    HostRuns.ThreeRun(w, [Writes(y)] + QuiesceRun(app, p), w2, Calmly(1, Snapshot, true), w2,
                      CandidateRun(2, app.candidate, NewCandidate(app), Some(v), 0, true), w');
  }

  lemma WritesThenStops(app: App, w: World, p: string, y: int) returns (w': World)
    requires Running(w.containers, p) && w.containers[p].mounts
    requires w.alive && BaseTracksVolume(w) && !w.log.dirty && w.slot.Some?
    ensures Runs(w, [Writes(y)] + QuiesceRun(app, p), w') && StoppedBeside(w, w', p, y)
  {
    var w1 := w.(volume := y, log := w.log.(base := y));
    WritesRuns(w, y);
    QuiesceRuns(app, w1, p);
    w' := Exited(EarlyWorld(app, w1, p), p);
    RunsOn(w, [Writes(y)], w1, QuiesceRun(app, p), w');
  }

  /** The restore: the snapshot is unpacked, p restarted and routed to, the snapshot deleted; p serves. */
  function UnpackRun(p: string): seq<Step> { Calmly(2, Restore, true) + RestartRun(0, p) }

  function CleanUpRun(p: string): seq<Step> { Calmly(0, Discard, true) + Calmly(1, Judge(p), true) }

  function RestoreRun(p: string): seq<AppMove> {
    Host(UnpackRun(p)) + PointRun(p, true) + Host(CleanUpRun(p))
  }

  lemma UnpackRuns(w: World, p: string)
    requires w.log.dirty && w.alive && w.slot.Some? && p in w.containers && !w.containers[p].running
    requires BaseTracksVolume(Restored(w))
    ensures Runs(w, UnpackRun(p), BackAgain(Restored(w), p))
  {
    CalmRun(w, 2, Restore);
    RestartRuns(Restored(w), 0, p);
    RunsOn(w, Calmly(2, Restore, true), Restored(w), RestartRun(0, p), BackAgain(Restored(w), p));
  }

  lemma CleanUpRuns(w: World, p: string)
    requires BaseTracksVolume(w) && w.alive && Running(w.containers, p)
    ensures Runs(w, CleanUpRun(p), Effect(w.(slot := None), Judge(p), CALM))
  {
    CalmRun(w, 0, Discard);
    CalmRun(w.(slot := None), 1, Judge(p));
    RunsOn(w, Calmly(0, Discard, true), w.(slot := None), Calmly(1, Judge(p), true),
           Effect(w.(slot := None), Judge(p), CALM));
  }

  lemma RestoreRuns(s: AppState, p: string) returns (s': AppState)
    requires s.w.log.dirty && s.w.alive && s.w.slot.Some? && p in s.w.containers && !s.w.containers[p].running
    requires s.w.slot.value != s.w.log.base
    ensures RunsApp(s, RestoreRun(p), s')
    ensures s'.w.log.dirty && s'.w.volume == s.w.slot.value && s'.w.slot.None?
    ensures s'.w.log.base == s.w.log.base && s'.w.kept == s.w.kept
  {
    var w1 := BackAgain(Restored(s.w), p);
    var w2 := Effect(w1.(slot := None), Judge(p), CALM);
    UnpackRuns(s.w, p);
    HostRunsApp(s, UnpackRun(p), w1);
    PointRuns(s.(w := w1), p, true);
    var s1 := AppState(w1, s.writes + [RouteWrite(Some(p), true)]);
    CleanUpRuns(w1, p);
    HostRunsApp(s1, CleanUpRun(p), w2);
    s' := s1.(w := w2);
    RunsAppOn(s, Host(UnpackRun(p)), s.(w := w1), PointRun(p, true), s1);
    RunsAppOn(s, Host(UnpackRun(p)) + PointRun(p, true), s1, Host(CleanUpRun(p)), s');
  }

  /** From any world that an attempt left StartedBesideSnapshot, what the previous container writes before
      the next attempt can be lost to the old snapshot. */
  lemma RetryRestoresStaleContents(app: App, s: AppState, p: string, y: int, v: int) returns (s': AppState)
    requires app.hasVolume && ServedBy(app, s.w, p) && !s.w.log.dirty
    requires s.w.slot.Some? && y != s.w.slot.value && y !in s.w.kept
    ensures RunsApp(s, Host(ReuseRun(app, p, y, v)) + RestoreRun(p), s')
    ensures s'.w.log.base == y && s'.w.volume == s.w.slot.value && !Conserved(s'.w)
  {
    var w1 := ReuseRuns(app, s.w, p, y, v);
    HostRunsApp(s, ReuseRun(app, p, y, v), w1);
    s' := RestoreRuns(s.(w := w1), p);
    RunsAppOn(s, Host(ReuseRun(app, p, y, v)), s.(w := w1), RestoreRun(p), s');
  }
}
