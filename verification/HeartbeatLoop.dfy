/** The agent's heartbeat loop (agent/src/index.ts). A method is what happens between two awaits; the order in which
    timers fire, bodies settle and continuations run is left open. */
module HeartbeatLoop {

  /** What a loop saw. Settled: a body finished, perhaps long after its deadline. Failed: an attempt was rejected
      or outlived its deadline. Skipped: a tick found the body of an earlier one outstanding. */
  datatype Note = Settled(success: bool) | Failed | Skipped

  /** The failed attempts since the last success. */
  function FailuresSinceSuccess(log: seq<Note>): nat {
    if log == [] then 0
    else
      match log[|log| - 1]
      case Settled(success) => if success then 0 else FailuresSinceSuccess(log[..|log| - 1])
      case Failed => FailuresSinceSuccess(log[..|log| - 1]) + 1
      case Skipped => FailuresSinceSuccess(log[..|log| - 1])
  }

  /** The skips since a body last settled, so all of them waiting for one and the same body. */
  function SkipsOfStuckBody(log: seq<Note>): nat {
    if log == [] then 0
    else
      match log[|log| - 1]
      case Settled(_) => 0
      case Failed => SkipsOfStuckBody(log[..|log| - 1])
      case Skipped => SkipsOfStuckBody(log[..|log| - 1]) + 1
  }

  lemma CountsOfOneMore(log: seq<Note>, n: Note)
    ensures n.Skipped? ==> SkipsOfStuckBody(log + [n]) == SkipsOfStuckBody(log) + 1
    ensures n.Failed? ==> FailuresSinceSuccess(log + [n]) == FailuresSinceSuccess(log) + 1
    ensures n.Failed? ==> SkipsOfStuckBody(log + [n]) == SkipsOfStuckBody(log)
    ensures n.Skipped? || n == Settled(false) ==> FailuresSinceSuccess(log + [n]) == FailuresSinceSuccess(log)
    ensures n.Settled? ==> SkipsOfStuckBody(log + [n]) == 0
    ensures n == Settled(true) ==> FailuresSinceSuccess(log + [n]) == 0
  {
    assert (log + [n])[..|log|] == log;
  }

  /** How far the tick call under way is: waiting for the race, or about to go on after it. */
  datatype TickCall = Idle | Racing | Won | Lost

  class Loop {
    const limit: nat
    var failures: nat
    var skips: nat
    var stopped: bool
    var inFlight: bool
    var scheduled: bool
    var call: TickCall
    var outstanding: nat                                  // bodies begun and not settled
    var exits: nat                                        // calls of onFailureLimit
    ghost var started: bool
    ghost var left: bool                                  // the loop saw that the agent is stopping
    ghost var log: seq<Note>
    ghost var seenAtExit: seq<Note>                       // the log when the exit fired

    ghost predicate Valid()
      reads this
    {
      && !(scheduled && call != Idle)
      && (started && !stopped && !left ==> scheduled || call != Idle)
      && (!started ==> !left) && (!started || left ==> !scheduled && call == Idle)
      && outstanding == (if inFlight then 1 else 0) && (call == Racing ==> inFlight)
      && failures == FailuresSinceSuccess(log) && skips == SkipsOfStuckBody(log)
      && (call == Won ==> failures == skips == 0)
      && (exits > 0 ==> exits == 1 && stopped && !scheduled && call == Idle && seenAtExit <= log && LimitReached())
      && (!stopped ==> (failures == 0 || failures < limit) && (skips == 0 || skips < limit))
    }

    /** When the agent was told to exit. */
    ghost predicate LimitReached()
      reads this
    {
      FailuresSinceSuccess(seenAtExit) >= limit || SkipsOfStuckBody(seenAtExit) >= limit
    }

    constructor (limit: nat)
      ensures Valid() && !started && !stopped && !inFlight && call == Idle && this.limit == limit
      ensures failures == skips == exits == 0
    {
      this.limit := limit;
      failures, skips, stopped, inFlight, scheduled, call := 0, 0, false, false, false, Idle;
      outstanding, exits, started, left, log, seenAtExit := 0, 0, false, false, [], [];
    }

    /** agentStops: what isStopped answers. */
    method Reschedule(agentStops: bool)
      requires !scheduled && !left
      modifies this`scheduled, this`left
      ensures scheduled == (!stopped && !agentStops) && left == (!stopped && agentStops)
    {
      if stopped || agentStops {
        left := !stopped;
      } else {
        scheduled := true;
      }
    }

    method Start(agentStops: bool)
      requires Valid() && !started
      modifies this`started, this`scheduled, this`left
      ensures Valid() && started && scheduled == (!stopped && !agentStops)
    {
      started := true;
      Reschedule(agentStops);
    }

    method Stop()
      requires Valid()
      modifies this`stopped, this`scheduled
      ensures Valid() && stopped && !scheduled
    {
      stopped, scheduled := true, false;
    }

    method RecordFailure() returns (goOn: bool)
      requires exits == 0
      modifies this`failures, this`stopped, this`exits, this`log, this`seenAtExit
      ensures log == old(log) + [Failed] && failures == old(failures) + 1
      ensures FailuresSinceSuccess(log) == FailuresSinceSuccess(old(log)) + 1
      ensures SkipsOfStuckBody(log) == SkipsOfStuckBody(old(log))
      ensures goOn == (failures < limit)
      ensures if goOn then stopped == old(stopped) && exits == 0 else stopped && exits == 1 && seenAtExit == log
    {
      CountsOfOneMore(log, Failed);
      failures := failures + 1;
      log := log + [Failed];
      if failures >= limit {
        stopped, exits, seenAtExit := true, exits + 1, log;
        return false;
      }
      return true;
    }

    method RecordSkip() returns (goOn: bool)
      requires exits == 0
      modifies this`skips, this`stopped, this`exits, this`log, this`seenAtExit
      ensures log == old(log) + [Skipped] && skips == old(skips) + 1
      ensures FailuresSinceSuccess(log) == FailuresSinceSuccess(old(log))
      ensures SkipsOfStuckBody(log) == SkipsOfStuckBody(old(log)) + 1
      ensures goOn == (skips < limit)
      ensures if goOn then stopped == old(stopped) && exits == 0 else stopped && exits == 1 && seenAtExit == log
    {
      CountsOfOneMore(log, Skipped);
      skips := skips + 1;
      log := log + [Skipped];
      if skips >= limit {
        stopped, exits, seenAtExit := true, exits + 1, log;
        return false;
      }
      return true;
    }

    /** A tick that finds a body outstanding waits for it. */
    method SkipTick()
      requires Valid() && scheduled && inFlight && !stopped
      modifies this`scheduled, this`skips, this`stopped, this`exits, this`log, this`seenAtExit, this`left
      ensures Valid() && !left && skips == old(skips) + 1
      ensures if skips < limit then scheduled && !stopped && exits == 0 else stopped && exits == 1
    {
      scheduled := false;
      var goOn := RecordSkip();
      if goOn {
        Reschedule(false);
      }
    }

    /** The timer callback and runTick up to its await: never two bodies at once. */
    method TimerFires(agentStops: bool)
      requires Valid() && scheduled
      modifies this
      ensures Valid() && started == old(started) && (old(inFlight) ==> inFlight)
      ensures failures == old(failures) && (old(stopped) ==> stopped)
      ensures old(stopped) || agentStops ==>
                !scheduled && call == Idle && inFlight == old(inFlight) && skips == old(skips) && exits == old(exits)
      ensures !old(stopped) && !agentStops ==>
                if old(inFlight) then
                  skips == old(skips) + 1 && !left
                  && if skips < limit then scheduled && !stopped && exits == 0 else stopped && exits == 1
                else
                  inFlight && call == Racing && skips == old(skips) && !stopped && exits == 0
    {
      if stopped || agentStops {
        scheduled, left := false, !stopped;
      } else if inFlight {
        SkipTick();
      } else {
        scheduled := false;
        inFlight, outstanding, call := true, outstanding + 1, Racing;
      }
    }

    /** The body settles, in time or late. The first to settle decides the race. */
    method BodySettles(success: bool)
      requires Valid() && inFlight
      modifies this`log, this`inFlight, this`outstanding, this`skips, this`failures, this`call
      ensures Valid() && skips == 0 && failures == if success then 0 else old(failures)
      ensures log == old(log) + [Settled(success)] && !inFlight
      ensures call == if old(call) == Racing then (if success then Won else Lost) else old(call)
    {
      CountsOfOneMore(log, Settled(success));
      log := log + [Settled(success)];
      inFlight, outstanding, skips := false, outstanding - 1, 0;
      if success {
        failures := 0;
      }
      if call == Racing {
        call := if success then Won else Lost;
      }
    }

    method DeadlinePasses()
      requires Valid() && call == Racing
      modifies this`call
      ensures Valid() && call == Lost
    {
      call := Lost;
    }

    method FailTick(agentStops: bool)
      requires Valid() && call == Lost
      modifies this`call, this`failures, this`stopped, this`exits, this`log, this`seenAtExit, this`scheduled, this`left
      ensures Valid() && call == Idle
      ensures log == old(log) + [Failed] && failures == old(failures) + 1
      ensures !stopped && !agentStops ==> scheduled
      ensures exits == (if failures >= limit then 1 else 0) && stopped == (old(stopped) || failures >= limit)
      ensures stopped ==> !scheduled
    {
      call := Idle;
      var goOn := RecordFailure();
      if goOn {
        Reschedule(agentStops);
      }
    }

    /** The tick call goes on after the race, and the next tick is scheduled unless the limit is reached. */
    method TickContinues(agentStops: bool)
      requires Valid() && (call == Won || call == Lost)
      modifies this
      ensures Valid() && started == old(started) && call == Idle && inFlight == old(inFlight)
      ensures log == if old(call) == Won then old(log) else old(log) + [Failed]
      ensures !stopped && !agentStops ==> scheduled
      ensures failures == (if old(call) == Won then 0 else old(failures) + 1)
      ensures exits == (if old(call) == Lost && failures >= limit then 1 else 0)
      ensures stopped == (old(stopped) || exits == 1) && (stopped ==> !scheduled)
    {
      if call == Lost {
        FailTick(agentStops);
      } else {
        call, failures, skips := Idle, 0, 0;
        Reschedule(agentStops);
      }
    }
  }

  /** A body that never settles: the timer fires again and again, and the agent is told to exit soon. */
  method StuckBodyForcesExit(loop: Loop) returns (ticks: nat)
    requires loop.Valid() && loop.scheduled && loop.inFlight && !loop.stopped
    modifies loop
    ensures loop.Valid() && loop.exits == 1 && loop.inFlight
    ensures ticks == if old(loop.skips) < loop.limit then loop.limit - old(loop.skips) else 1
  {
    ticks := 0;
    while !loop.stopped
      invariant loop.Valid() && loop.inFlight && loop.skips == old(loop.skips) + ticks
      invariant if loop.stopped then loop.exits == 1 && loop.skips >= loop.limit && ticks > 0 else loop.scheduled
      invariant loop.skips <= loop.limit || ticks <= 1
      decreases !loop.stopped, loop.limit - loop.skips
    {
      loop.TimerFires(false);
      ticks := ticks + 1;
    }
  }

  datatype Event = Stop | TimerFires(agentStops: bool) | BodySettles(success: bool) | DeadlinePasses
                 | TickContinues(agentStops: bool)

  /** An event that can happen does. */
  method Happen(loop: Loop, e: Event)
    requires loop.Valid() && loop.started
    modifies loop
    ensures loop.Valid() && loop.started
    ensures match e
            case Stop => loop.stopped && !loop.scheduled
            case TimerFires(stops) =>
              old(loop.scheduled) && !old(loop.stopped) && !stops ==> loop.call == Racing || old(loop.inFlight)
            case BodySettles(_) => !loop.inFlight
            case DeadlinePasses => loop.call != Racing
            case TickContinues(_) => loop.call == Idle || loop.call == Racing
    ensures old(loop.stopped) ==> loop.stopped && (!old(loop.scheduled) ==> !loop.scheduled && OnlyTheRace(
              old(loop.call), old(loop.failures), old(loop.exits), loop.call, loop.failures, loop.exits, loop.limit))
  {
    match e {
      case Stop => loop.Stop();
      case TimerFires(stops) => if loop.scheduled { loop.TimerFires(stops); }
      case BodySettles(success) => if loop.inFlight { loop.BodySettles(success); }
      case DeadlinePasses => if loop.call == Racing { loop.DeadlinePasses(); }
      case TickContinues(stops) => if loop.call == Won || loop.call == Lost { loop.TickContinues(stops); }
    }
  }

  /** Any order of events that can happen: never two bodies, at most one exit and only for cause, and while the
      loop is neither stopped nor left, exactly one of an armed timer and a tick call under way. */
  method Process(loop: Loop, agentStops: bool, events: seq<Event>)
    requires loop.Valid() && !loop.started
    modifies loop
    ensures loop.Valid() && loop.outstanding <= 1
    ensures !loop.stopped && !loop.left ==> loop.scheduled != (loop.call != Idle)
    ensures loop.exits > 0 ==> loop.exits == 1 && loop.seenAtExit <= loop.log && loop.LimitReached()
  {
    loop.Start(agentStops);
    for i := 0 to |events|
      invariant loop.Valid() && loop.started
    {
      Happen(loop, events[i]);
    }
  }

  // ----- After stop

  /** A tick call that can still fail, one failure below the limit. */
  predicate MayStillExit(call: TickCall, failures: nat, limit: nat) {
    (call == Racing || call == Lost) && failures + 1 >= limit
  }

  /** What a stopped loop still does: the race under way is decided, and its failure counted. */
  predicate OnlyTheRace(call: TickCall, failures: nat, exits: nat, call': TickCall, failures': nat, exits': nat,
                        limit: nat)
  {
    && (call' == Racing || call' == Lost ==>
          (call == Racing || call == Lost) && failures' <= failures && exits' == exits)
    && (exits' != exits ==> exits' == 1 && MayStillExit(call, failures, limit))
  }

  /** After stop the exit fires only if a tick call was under way that could still reach the limit. */
  method AfterStop(loop: Loop, events: seq<Event>)
    requires loop.Valid() && loop.started && loop.stopped && !loop.scheduled && loop.exits == 0
    modifies loop
    ensures loop.Valid()
    ensures loop.exits > 0 ==> MayStillExit(old(loop.call), old(loop.failures), loop.limit)
  {
    for i := 0 to |events|
      invariant loop.Valid() && loop.started && loop.stopped && !loop.scheduled
      invariant loop.exits > 0 ==> MayStillExit(old(loop.call), old(loop.failures), loop.limit)
      invariant loop.call == Racing || loop.call == Lost ==>
                  (old(loop.call) == Racing || old(loop.call) == Lost) && loop.failures <= old(loop.failures)
    {
      Happen(loop, events[i]);
    }
  }

  /** And then it does, if that tick's deadline passes. */
  method ExitAfterStop(loop: Loop)
    requires loop.Valid() && loop.stopped && loop.exits == 0
    requires MayStillExit(loop.call, loop.failures, loop.limit)
    modifies loop
    ensures loop.Valid() && loop.exits == 1
  {
    if loop.call == Racing {
      loop.DeadlinePasses();
    }
    loop.TickContinues(false);
  }

  /** Such a run from the beginning: the one failure a limit of 1 allows, of the tick under way at stop. */
  method StoppedLoopExits() returns (loop: Loop, stopped: bool, exitsAtStop: nat)
    ensures fresh(loop) && loop.Valid() && stopped && exitsAtStop == 0 && loop.exits == 1
  {
    loop := new Loop(1);
    loop.Start(false);
    loop.TimerFires(false);
    loop.Stop();
    stopped, exitsAtStop := loop.stopped, loop.exits;
    loop.BodySettles(false);
    loop.TickContinues(false);
  }
}
