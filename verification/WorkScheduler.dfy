/** Leasing work up to a limit (agent/src/work-scheduler.ts), and draining it before an update restarts the agent
    (agent/src/update-agent.ts, agent/src/index.ts). A method is what happens between two awaits. */
module WorkScheduling {
  import opened Wrappers

  datatype WorkItem = WorkItem(id: string, rest: int)

  /** idle: nothing was in flight when the updater was started. */
  datatype Update = NoUpdate | Draining(deadline: int) | Starting(idle: bool) | Started(idle: bool)

  function Ids(items: seq<WorkItem>): set<string> {
    set i | 0 <= i < |items| :: items[i].id
  }

  class Agent {
    const maxConcurrency: nat
    var activeWork: set<string>
    var pollActive: bool
    var capacity: nat                                     // asked for by the poll under way
    var update: Update
    ghost var processing: multiset<string>                // the work items being processed, by id

    ghost predicate Valid()
      reads this
    {
      && |activeWork| + (if pollActive then capacity else 0) <= maxConcurrency
      && (pollActive ==> capacity > 0)
      && processing == multiset(activeWork)
      && ((update.Starting? || update.Started?) && update.idle ==> !IsActive())
    }

    /** What the drain waits for. */
    predicate IsActive()
      reads this
    {
      pollActive || activeWork != {}
    }

    constructor (maxConcurrency: nat)
      requires maxConcurrency >= 1
      ensures Valid() && !IsActive() && update.NoUpdate? && this.maxConcurrency == maxConcurrency
    {
      this.maxConcurrency := maxConcurrency;
      activeWork, pollActive, capacity, update, processing := {}, false, 0, NoUpdate, multiset{};
    }

    /** The poll timer: nothing is leased while an update is pending. */
    method Poll()
      requires Valid()
      modifies this`pollActive, this`capacity
      ensures Valid() && pollActive == (old(pollActive) || (update.NoUpdate? && |activeWork| < maxConcurrency))
      ensures capacity == if pollActive && !old(pollActive) then maxConcurrency - |activeWork| else old(capacity)
    {
      if !update.NoUpdate? {
        return;
      }
      Trigger();
    }

    method Trigger()
      requires Valid() && update.NoUpdate?
      modifies this`pollActive, this`capacity
      ensures Valid() && pollActive == (old(pollActive) || |activeWork| < maxConcurrency)
      ensures capacity == if pollActive && !old(pollActive) then maxConcurrency - |activeWork| else old(capacity)
    {
      if pollActive || maxConcurrency <= |activeWork| {
        return;
      }
      capacity := maxConcurrency - |activeWork|;
      pollActive := true;
    }

    /** The lease reply, or its failure. refused: items reported as already active. */
    method LeaseReplies(reply: Reply<seq<WorkItem>>) returns (refused: seq<WorkItem>)
      requires Valid() && pollActive
      modifies this`pollActive, this`activeWork, this`processing
      ensures Valid() && !pollActive
      ensures reply.Failed? || |reply.value| > capacity ==> activeWork == old(activeWork) && refused == []
      ensures reply.Ok? && |reply.value| <= capacity ==> activeWork == old(activeWork) + Ids(reply.value)
      ensures reply.Ok? && |reply.value| <= capacity ==>
                |refused| + |activeWork| == |reply.value| + old(|activeWork|)
      ensures forall item :: item in refused ==> reply.Ok? && item in reply.value
    {
      refused := [];
      pollActive := false;
      if reply.Ok? && |reply.value| <= capacity {
        var workIds;
        workIds, refused := SortOut(reply.value);
        StartAll(reply.value, workIds);
      }
    }

    /** The ids to start, each once, and the items that repeat one. */
    method SortOut(items: seq<WorkItem>) returns (workIds: set<string>, refused: seq<WorkItem>)
      ensures workIds == Ids(items) - activeWork && |workIds| + |refused| == |items|
      ensures forall item :: item in refused ==> item in items
    {
      workIds, refused := {}, [];
      for i := 0 to |items|
        invariant workIds == Ids(items[..i]) - activeWork && |workIds| + |refused| == i
        invariant forall item :: item in refused ==> item in items
      {
        assert Ids(items[..i + 1]) == Ids(items[..i]) + {items[i].id} by {
          assert items[..i + 1] == items[..i] + [items[i]];
          IdsOfOneMore(items[..i], items[i]);
        }
        if items[i].id in workIds || items[i].id in activeWork {
          refused := refused + [items[i]];
        } else {
          workIds := workIds + {items[i].id};
        }
      }
      assert items[..|items|] == items;
    }

    method Begin(id: string)
      requires id !in activeWork && processing == multiset(activeWork)
      modifies this`activeWork, this`processing
      ensures activeWork == old(activeWork) + {id} && processing == multiset(activeWork)
    {
      activeWork, processing := activeWork + {id}, processing + multiset{id};
    }

    method StartAll(items: seq<WorkItem>, workIds: set<string>)
      requires workIds !! activeWork && workIds <= Ids(items) && processing == multiset(activeWork)
      modifies this`activeWork, this`processing
      ensures activeWork == old(activeWork) + workIds && processing == multiset(activeWork)
    {
      var left := workIds;
      for i := 0 to |items|
        invariant left == workIds - Ids(items[..i])
        invariant activeWork == old(activeWork) + (workIds - left) && processing == multiset(activeWork)
      {
        assert items[..i + 1] == items[..i] + [items[i]];
        IdsOfOneMore(items[..i], items[i]);
        var id := items[i].id;
        if id in left {
          left := left - {id};
          Begin(id);
        }
      }
      assert items[..|items|] == items;
    }

    method WorkEnds(id: string)
      requires Valid() && id in activeWork
      modifies this`activeWork, this`processing
      ensures Valid() && activeWork == old(activeWork) - {id}
    {
      activeWork, processing := activeWork - {id}, processing - multiset{id};
    }

    /** requestAgentUpdate, called by a work item that is still active. */
    method RequestAgentUpdate(now: int, drainTimeout: nat)
      requires Valid() && IsActive()
      modifies this`update
      ensures Valid() && update == if old(update).NoUpdate? then Draining(now + drainTimeout) else old(update)
    {
      if update.NoUpdate? {
        update := Draining(now + drainTimeout);
      }
    }

    /** One look of the drain: the updater starts once nothing is in flight, or when the time is up. */
    method DrainPolls(now: int)
      requires Valid() && update.Draining?
      modifies this`update
      ensures Valid()
      ensures update == if !IsActive() then Starting(true)
                        else if now >= old(update).deadline then Starting(false)
                        else old(update)
    {
      if !IsActive() {
        update := Starting(true);
      } else if now >= update.deadline {
        update := Starting(false);
      }
    }

    /** Without a restart, work resumes: at once when the updater could not be started, later when it ran. */
    method UpdaterSettles(ok: bool)
      requires Valid() && update.Starting?
      modifies this`update
      ensures Valid() && update == if ok then Started(old(update).idle) else NoUpdate
    {
      update := if ok then Started(update.idle) else NoUpdate;
    }

    method RestartGraceExpires()
      requires Valid() && update.Started?
      modifies this`update
      ensures Valid() && update.NoUpdate?
    {
      update := NoUpdate;
    }
  }

  lemma IdsOfOneMore(items: seq<WorkItem>, item: WorkItem)
    ensures Ids(items + [item]) == Ids(items) + {item.id}
  {
    var more := items + [item];
    forall id | id in Ids(items) + {item.id} ensures id in Ids(more) {
      if id in Ids(items) {
        var i :| 0 <= i < |items| && items[i].id == id;
        assert more[i].id == id;
      } else {
        assert more[|items|].id == id;
      }
    }
  }

  datatype Event = Poll | LeaseReplies(reply: Reply<seq<WorkItem>>) | WorkEnds(id: string)
                 | RequestAgentUpdate(now: int, drainTimeout: nat) | DrainPolls(now: int)
                 | UpdaterSettles(ok: bool) | RestartGraceExpires

  /** Any order of events that can happen: never more work than allowed, no id twice at once, and an updater started
      before its deadline finds nothing in flight, nor does anything begin until it settles. */
  method Process(agent: Agent, events: seq<Event>)
    requires agent.Valid()
    modifies agent
    ensures agent.Valid() && |agent.activeWork| <= agent.maxConcurrency
    ensures forall id :: agent.processing[id] <= 1
    ensures (agent.update.Starting? || agent.update.Started?) && agent.update.idle ==>
              agent.processing == multiset{} && !agent.pollActive
  {
    for i := 0 to |events|
      invariant agent.Valid()
    {
      match events[i] {
        case Poll => agent.Poll();
        case LeaseReplies(reply) => if agent.pollActive { var _ := agent.LeaseReplies(reply); }
        case WorkEnds(id) => if id in agent.activeWork { agent.WorkEnds(id); }
        case RequestAgentUpdate(now, drainTimeout) =>
          if agent.activeWork != {} { agent.RequestAgentUpdate(now, drainTimeout); }
        case DrainPolls(now) => if agent.update.Draining? { agent.DrainPolls(now); }
        case UpdaterSettles(ok) => if agent.update.Starting? { agent.UpdaterSettles(ok); }
        case RestartGraceExpires => if agent.update.Started? { agent.RestartGraceExpires(); }
      }
    }
  }
}
