/** The gateway's registry: machines, pending approvals and the bounded timeline log. */
module MachineRegistry {
  import opened Text
  import opened Domain

  datatype StoredApproval = StoredApproval(machineID: Bytes, payload: Approval)

  const TIMELINE_LIMIT := 500

  datatype Registry = Registry(
    machines: map<Bytes, Machine>,
    approvals: map<Bytes, StoredApproval>,
    timeline: map<Bytes, seq<TimelineEvent>>)
  {
    function Upsert(machine: Machine): Registry {
      if machine.id == [] then this
      else this.(machines := machines[machine.id := Completed(machine)])
    }

    /** What an update leaves open is taken from the stored machine. */
    function Completed(machine: Machine): Machine {
      var known := machine.id in machines;
      var runtimeStatus :=
        if known && machine.runtimeStatus in {NoRuntimeStatus, RuntimeUnknown} then machines[machine.id].runtimeStatus
        else machine.runtimeStatus;
      machine.(
        name := if known && machine.name == [] then machines[machine.id].name else machine.name,
        runtimeStatus := if runtimeStatus == NoRuntimeStatus then RuntimeUnknown else runtimeStatus,
        agents := if known && machine.agents == [] then machines[machine.id].agents else machine.agents)
    }

    function MarkOffline(machineID: Bytes): Registry {
      if machineID == [] || machineID !in machines then this
      else
        var machine := machines[machineID];
        this.(machines := machines[machineID :=
          machine.(status := Offline, runtimeStatus := RuntimeUnknown, agents := AllStopped(machine.agents))])
    }

    function UpsertPendingApproval(machineID: Bytes, payload: Approval): Registry {
      if payload.requestID == [] then this
      else this.(approvals := approvals[payload.requestID := StoredApproval(machineID, payload)])
    }

    function RemovePendingApproval(requestID: Bytes): Registry {
      if requestID == [] then this else this.(approvals := approvals - {requestID})
    }

    function Log(threadID: Bytes): seq<TimelineEvent> {
      if threadID in timeline then timeline[threadID] else []
    }

    function AppendTimelineEvent(event: TimelineEvent): Registry {
      if event.threadID == [] || event.eventID == [] then this
      else this.(timeline := timeline[event.threadID := Newest(Log(event.threadID) + [event])])
    }
  }

  const EMPTY := Registry(map[], map[], map[])

  function AllStopped(agents: seq<AgentInstance>): (stopped: seq<AgentInstance>)
    ensures |stopped| == |agents|
  {
    seq(|agents|, i requires 0 <= i < |agents| => agents[i].(status := Stopped))
  }

  /** The last events of a log, as many as the registry keeps. */
  function Newest(events: seq<TimelineEvent>): seq<TimelineEvent> {
    if |events| > TIMELINE_LIMIT then events[|events| - TIMELINE_LIMIT..] else events
  }

  function AppendAll(registry: Registry, events: seq<TimelineEvent>): Registry {
    if events == [] then registry
    else AppendAll(registry, events[..|events| - 1]).AppendTimelineEvent(events[|events| - 1])
  }

  /** The events of one thread that the log accepts. */
  function Loggable(events: seq<TimelineEvent>, threadID: Bytes): seq<TimelineEvent> {
    if events == [] then []
    else
      var init, last := Loggable(events[..|events| - 1], threadID), events[|events| - 1];
      if last.threadID == threadID && threadID != [] && last.eventID != [] then init + [last] else init
  }

  /** The newest 500 of a list of events, in the list's order. */
  predicate AreNewest(kept: seq<TimelineEvent>, events: seq<TimelineEvent>) {
    if |events| <= 500 then kept == events else kept == events[|events| - 500..]
  }

  /** After any number of appends, whatever threads they are for, the log of a thread holds the
      newest 500 of that thread's events in order of arrival. */
  lemma {:induction false} LogKeepsNewest(events: seq<TimelineEvent>, threadID: Bytes)
    ensures AreNewest(AppendAll(EMPTY, events).Log(threadID), Loggable(events, threadID))
  {
    if events != [] {
      LogKeepsNewest(events[..|events| - 1], threadID);
    }
  }

  class Store {
    var machines: map<Bytes, Machine>
    var pendingApprovals: map<Bytes, StoredApproval>
    var timelineEvents: map<Bytes, seq<TimelineEvent>>

    constructor ()
      ensures View() == EMPTY
    {
      machines, pendingApprovals, timelineEvents := map[], map[], map[];
    }

    function View(): Registry
      reads this
    {
      Registry(machines, pendingApprovals, timelineEvents)
    }

    method Get(machineID: Bytes) returns (machine: Option<Machine>)
      ensures machine == if machineID in machines then Some(machines[machineID]) else None
    {
      machine := if machineID in machines then Some(machines[machineID]) else None;
    }

    method Upsert(machine: Machine)
      modifies this
      ensures View() == old(View()).Upsert(machine)
    {
      if machine.id == [] {
        return;
      }
      var next := machine;
      if machine.id in machines {
        var existing := machines[machine.id];
        if next.name == [] {
          next := next.(name := existing.name);
        }
        if next.runtimeStatus == NoRuntimeStatus || next.runtimeStatus == RuntimeUnknown {
          next := next.(runtimeStatus := existing.runtimeStatus);
        }
        if |next.agents| == 0 {
          next := next.(agents := existing.agents);
        }
      }
      if next.runtimeStatus == NoRuntimeStatus {
        next := next.(runtimeStatus := RuntimeUnknown);
      }
      machines := machines[next.id := next];
    }

    method MarkOffline(machineID: Bytes)
      modifies this
      ensures View() == old(View()).MarkOffline(machineID)
    {
      if machineID == [] || machineID !in machines {
        return;
      }
      var machine := machines[machineID].(status := Offline, runtimeStatus := RuntimeUnknown);
      var agents := machine.agents;
      for i := 0 to |agents|
        invariant |agents| == |machine.agents|
        invariant forall k :: 0 <= k < i ==> agents[k] == AllStopped(machine.agents)[k]
        invariant forall k :: i <= k < |agents| ==> agents[k] == machine.agents[k]
      {
        agents := agents[i := agents[i].(status := Stopped)];
      }
      assert agents == AllStopped(machine.agents);
      machines := machines[machineID := machine.(agents := agents)];
    }

    method UpsertPendingApproval(machineID: Bytes, payload: Approval)
      modifies this
      ensures View() == old(View()).UpsertPendingApproval(machineID, payload)
    {
      if payload.requestID == [] {
        return;
      }
      pendingApprovals := pendingApprovals[payload.requestID := StoredApproval(machineID, payload)];
    }

    method RemovePendingApproval(requestID: Bytes)
      modifies this
      ensures View() == old(View()).RemovePendingApproval(requestID)
    {
      if requestID == [] {
        return;
      }
      pendingApprovals := pendingApprovals - {requestID};
    }

    method AppendTimelineEvent(event: TimelineEvent)
      modifies this
      ensures View() == old(View()).AppendTimelineEvent(event)
    {
      if event.threadID == [] || event.eventID == [] {
        return;
      }
      var events := View().Log(event.threadID) + [event];
      if |events| > TIMELINE_LIMIT {
        events := events[|events| - TIMELINE_LIMIT..];
      }
      timelineEvents := timelineEvents[event.threadID := events];
    }
  }
}
