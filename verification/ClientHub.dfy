/** The gateway's client hub. `Hub` is the hub together with its three stores as one value, with a
    function for each handler; the class is the hub as it runs, and each of its methods is proved to
    take the value to what the function says. */
module ClientHub {
  import opened Text
  import opened Activity
  import opened Domain
  import opened Routing
  import opened RuntimeIndex
  import opened Identifiers
  import MachineRegistry

  /** A WebSocket connection, by identity. */
  type Conn = nat

  datatype MachineState = MachineState(threads: seq<Thread>, environment: seq<EnvironmentResource>)

  const NO_STATE := MachineState([], [])

  datatype CommandResult =
    | ThreadCreated(thread: Thread)
    | ThreadResumed(thread: Thread)
    | ThreadArchived(threadID: Bytes)
    | SkillSet(skillID: Bytes, enabled: bool)
    | PluginUninstalled(pluginID: Bytes)
    | OtherResult

  datatype Event =
    | TurnStartedEvent(threadID: Bytes, turnID: Bytes)
    | TurnEndedEvent(threadID: Bytes, turnID: Bytes)
    | TimelineEventEvent(event: TimelineEvent)
    | CommandCompletedEvent(result: CommandResult)
    | CommandRejectedEvent
    | ApprovalRequiredEvent(payload: Approval)
    | ApprovalResolvedEvent(payload: Approval)
    | OtherEvent

  datatype Envelope = Envelope(machineID: Bytes, requestID: Bytes, timestamp: Stamp, event: Event)

  const SKILL: Bytes := ['s', 'k', 'i', 'l', 'l']
  const PLUGIN: Bytes := ['p', 'l', 'u', 'g', 'i', 'n']
  const ENABLED: Bytes := ['e', 'n', 'a', 'b', 'l', 'e', 'd']
  const DISABLED: Bytes := ['d', 'i', 's', 'a', 'b', 'l', 'e', 'd']

  // ----- helpers on lists -----

  function Owned(threads: seq<Thread>, machineID: Bytes): (owned: seq<Thread>)
    ensures |owned| == |threads|
  {
    seq(|threads|, i requires 0 <= i < |threads| => OwnedBy(threads[i], machineID))
  }

  function OwnedBy(thread: Thread, machineID: Bytes): Thread {
    if thread.machineID == [] then thread.(machineID := machineID) else thread
  }

  function OwnedResources(items: seq<EnvironmentResource>, machineID: Bytes): (owned: seq<EnvironmentResource>)
    ensures |owned| == |items|
  {
    seq(|items|, i requires 0 <= i < |items| =>
      if items[i].machineID == [] then items[i].(machineID := machineID) else items[i])
  }

  /** The hub's own merge of a snapshot: by identifier as written, not trimmed. */
  function WithActivities(previous: seq<Thread>, incoming: seq<Thread>): (merged: seq<Thread>)
    ensures |merged| == |incoming|
  {
    seq(|incoming|, i requires 0 <= i < |incoming| =>
      WithKnownActivity(ByThreadID(previous), incoming[i].threadID, incoming[i]))
  }

  /** The first thread of this identifier gets a status and an activity. */
  function Touched(threads: seq<Thread>, threadID: Bytes, status: ThreadStatus, activity: Stamp): (touched: seq<Thread>)
    ensures |touched| == |threads|
  {
    var i := Find(threads, threadID);
    if i < |threads|
    then threads[i := threads[i].(status := status, lastActivityAt := Latest(threads[i].lastActivityAt, activity))]
    else threads
  }

  predicate SameResource(current: EnvironmentResource, resource: EnvironmentResource) {
    && current.kind == resource.kind && current.resourceID == resource.resourceID
    && (resource.agentID == [] || current.agentID == [] || current.agentID == resource.agentID)
  }

  function FindResource(items: seq<EnvironmentResource>, resource: EnvironmentResource): (i: nat)
    ensures i <= |items|
    ensures i < |items| ==> SameResource(items[i], resource)
  {
    if items == [] || SameResource(items[0], resource) then 0 else 1 + FindResource(items[1..], resource)
  }

  lemma {:induction false} FindResourceIsFirst(items: seq<EnvironmentResource>, resource: EnvironmentResource)
    ensures forall j :: 0 <= j < FindResource(items, resource) ==> !SameResource(items[j], resource)
  {
    if items != [] && !SameResource(items[0], resource) {
      FindResourceIsFirst(items[1..], resource);
      forall j | 0 <= j < FindResource(items, resource)
        ensures !SameResource(items[j], resource)
      {
        assert j > 0 ==> items[j] == items[1..][j - 1];
      }
    }
  }

  function MergedResource(current: EnvironmentResource, next: EnvironmentResource): EnvironmentResource {
    next.(
      displayName := if next.displayName == [] then current.displayName else next.displayName,
      status := if next.status == [] then current.status else next.status,
      lastObservedAt := if next.lastObservedAt == [] then current.lastObservedAt else next.lastObservedAt,
      machineID := if next.machineID == [] then current.machineID else next.machineID,
      agentID := if next.agentID == [] then current.agentID else next.agentID,
      kind := if next.kind == [] then current.kind else next.kind,
      restartRequired := next.restartRequired || current.restartRequired,
      details := if next.details.None? then current.details else next.details)
  }

  function UpsertedResource(items: seq<EnvironmentResource>, resource: EnvironmentResource): seq<EnvironmentResource> {
    var i := FindResource(items, resource);
    if i < |items| then items[i := MergedResource(items[i], resource)] else items + [resource]
  }

  function WithoutResource(items: seq<EnvironmentResource>, kind: Bytes, resourceID: Bytes): seq<EnvironmentResource> {
    if items == [] then []
    else
      var init, last := WithoutResource(items[..|items| - 1], kind, resourceID), items[|items| - 1];
      if last.kind == kind && last.resourceID == resourceID then init else init + [last]
  }

  // ----- envelopes -----

  /** normalizeApprovalEnvelope followed by normalizeTimelineEnvelope. */
  function Normalized(envelope: Envelope): Envelope {
    match envelope.event
    case ApprovalRequiredEvent(payload) =>
      var requestID := KeyOf(envelope, payload);
      if requestID == [] then envelope
      else envelope.(requestID := requestID, event := ApprovalRequiredEvent(payload.(requestID := requestID)))
    case ApprovalResolvedEvent(payload) =>
      var requestID := KeyOf(envelope, payload);
      if requestID == [] then envelope
      else envelope.(requestID := requestID, event := ApprovalResolvedEvent(payload.(requestID := requestID)))
    case TimelineEventEvent(event) =>
      var owned := if event.machineID == [] then event.(machineID := envelope.machineID) else event;
      if event.approval.None? || event.approval.value.requestID == [] then
        envelope.(event := TimelineEventEvent(owned))
      else
        var requestID := ApprovalKey(envelope.machineID, event.approval.value.requestID);
        envelope.(
          requestID := if envelope.requestID == [] then requestID else envelope.requestID,
          event := TimelineEventEvent(owned.(approval := Some(event.approval.value.(requestID := requestID)))))
    case _ => envelope
  }

  function KeyOf(envelope: Envelope, payload: Approval): Bytes {
    ApprovalKey(envelope.machineID, if payload.requestID != [] then payload.requestID else envelope.requestID)
  }

  function ActivityStamp(timestamp: Stamp, now: int): Stamp {
    if Normalize(timestamp) == NO_STAMP then Readable(now, 0) else Normalize(timestamp)
  }

  datatype Hub = Hub(
    clients: map<Bytes, Conn>,
    registered: map<Conn, Bytes>,
    snapshots: map<Bytes, MachineState>,
    activeTurns: map<Bytes, Bytes>,
    approvals: map<Bytes, Bytes>,
    waiters: map<Bytes, Bytes>,
    index: Index,
    routes: Routes,
    registry: MachineRegistry.Registry)
  {
    function Snapshot(machineID: Bytes): MachineState {
      if machineID in snapshots then snapshots[machineID] else NO_STATE
    }

    predicate IsOwner(conn: Conn, machineID: Bytes) {
      machineID != [] && machineID in clients && clients[machineID] == conn
    }

    /** A machine's new state, written to the hub's own snapshot and to the runtime index. */
    function Store(machineID: Bytes, state: MachineState): Hub {
      this.(snapshots := snapshots[machineID := state],
            index := index.ReplaceSnapshot(machineID, state.threads, state.environment))
    }

    function WaitersOf(machineID: Bytes): set<Bytes> {
      set id | id in waiters && waiters[id] == machineID
    }

    /** The machine's threads become unknown, in the hub's snapshot if there is one, and in the index. */
    function MarkUnknown(machineID: Bytes): Hub {
      if machineID in snapshots
      then Store(machineID, snapshots[machineID].(threads := MarkedUnknown(snapshots[machineID].threads)))
      else this.(index := index.MarkMachineUnknown(machineID))
    }

    function Cleanup(machineID: Bytes): Hub {
      if machineID == [] then this
      else
        MarkUnknown(machineID).(
          waiters := waiters - WaitersOf(machineID),
          registry := registry.MarkOffline(machineID),
          routes := WithoutMachine(routes, machineID))
    }

    /** A connection that owns another machine gives it up. */
    function Release(conn: Conn, machineID: Bytes): Hub {
      if conn in registered && registered[conn] != machineID && IsOwner(conn, registered[conn])
      then this.(clients := clients - {registered[conn]}).Cleanup(registered[conn])
      else this
    }

    function Register(conn: Conn, machineID: Bytes, name: Bytes): Hub {
      if machineID == [] then this else Release(conn, machineID).Enroll(conn, machineID, name)
    }

    function Enroll(conn: Conn, machineID: Bytes, name: Bytes): Hub {
      var trimmed := TrimSpace(name);
      var machine := Machine(machineID, if trimmed == [] then machineID else trimmed, Online, RuntimeUnknown, []);
      this.(clients := clients[machineID := conn],
            registered := registered[conn := machineID],
            registry := registry.Upsert(machine))
    }

    function Disconnect(conn: Conn): Hub {
      var gone := this.(registered := registered - {conn});
      if conn in registered && IsOwner(conn, registered[conn])
      then gone.(clients := clients - {registered[conn]}).Cleanup(registered[conn])
      else gone
    }

    function ThreadSnapshot(conn: Conn, machineID: Bytes, threads: seq<Thread>): Hub {
      if !IsOwner(conn, machineID) then this
      else
        var owned := Owned(threads, machineID);
        var state := Snapshot(machineID);
        var hub := Store(machineID, state.(threads := WithActivities(state.threads, owned)));
        hub.(routes := Replaced(routes, machineID, owned))
    }

    function EnvironmentSnapshot(conn: Conn, machineID: Bytes, environment: seq<EnvironmentResource>): Hub {
      if !IsOwner(conn, machineID) then this
      else Store(machineID, Snapshot(machineID).(environment := OwnedResources(environment, machineID)))
    }

    function MachineSnapshot(conn: Conn, machineID: Bytes, machine: Machine): Hub {
      if !IsOwner(conn, machineID) then this
      else
        var id := if machine.id == [] then machineID else machine.id;
        this.(registry := registry.Upsert(Machine(
          id,
          if machine.name == [] then id else machine.name,
          if machine.status == NoStatus then Online else machine.status,
          if machine.runtimeStatus == NoRuntimeStatus then RuntimeUnknown else machine.runtimeStatus,
          machine.agents)))
    }

    function SetActiveTurn(machineID: Bytes, threadID: Bytes, turnID: Bytes, activity: Stamp): Hub {
      if machineID == [] || threadID == [] || turnID == [] then this
      else
        var state := Snapshot(machineID);
        this.(activeTurns := activeTurns[threadID := turnID])
            .Store(machineID, state.(threads := Touched(state.threads, threadID, Active, activity)))
    }

    function ClearActiveTurn(machineID: Bytes, threadID: Bytes, turnID: Bytes, activity: Stamp): Hub {
      if machineID == [] || threadID == [] then this
      else
        var state := Snapshot(machineID);
        this.(activeTurns := WithoutTurn(activeTurns, threadID, turnID))
            .Store(machineID, state.(threads := Touched(state.threads, threadID, Idle, activity)))
    }

    function ApplyTurn(envelope: Envelope, now: int): Hub {
      var activity := ActivityStamp(envelope.timestamp, now);
      match envelope.event
      case TurnStartedEvent(threadID, turnID) => SetActiveTurn(envelope.machineID, threadID, turnID, activity)
      case TurnEndedEvent(threadID, turnID) => ClearActiveTurn(envelope.machineID, threadID, turnID, activity)
      case TimelineEventEvent(event) => (
        match event.eventType
        case TurnStarted => SetActiveTurn(envelope.machineID, event.threadID, event.turnID, activity)
        case TurnCompleted => ClearActiveTurn(envelope.machineID, event.threadID, event.turnID, activity)
        case TurnFailed => ClearActiveTurn(envelope.machineID, event.threadID, event.turnID, activity)
        case _ => this)
      case _ => this
    }

    function RequireApproval(machineID: Bytes, payload: Approval): Hub {
      if payload.requestID == [] then this
      else this.(approvals := approvals[payload.requestID := machineID],
                 registry := registry.UpsertPendingApproval(machineID, payload))
    }

    function ResolveApproval(requestID: Bytes): Hub {
      if requestID == [] then this
      else this.(approvals := approvals - {requestID}, registry := registry.RemovePendingApproval(requestID))
    }

    function ApplyTimeline(envelope: Envelope): Hub {
      match envelope.event
      case TimelineEventEvent(event) =>
        var hub := this.(registry := registry.AppendTimelineEvent(event));
        if event.approval.None? then hub
        else (
          var requestID := event.approval.value.requestID;
          match event.eventType
          case ApprovalRequested =>
            hub.RequireApproval(envelope.machineID,
              Approval(requestID, event.threadID, event.turnID, event.itemID, event.approval.value.kind))
          case ApprovalResolved => hub.ResolveApproval(requestID)
          case _ => hub)
      case _ => this
    }

    function UpsertThreadSnapshot(machineID: Bytes, thread: Thread): Hub {
      if machineID == [] || thread.threadID == [] then this
      else
        var state := Snapshot(machineID);
        Store(machineID, state.(threads := Upserted(state.threads, OwnedBy(thread, machineID))))
    }

    function TrackThread(machineID: Bytes, thread: Thread): Hub {
      if thread.threadID == [] then this
      else
        UpsertThreadSnapshot(machineID, thread)
          .(routes := routes[thread.threadID := RouteOf(machineID, thread)])
    }

    function RemoveThreadSnapshot(machineID: Bytes, threadID: Bytes): Hub {
      if machineID == [] || threadID == [] then this
      else
        var state := Snapshot(machineID);
        this.(activeTurns := activeTurns - {threadID})
            .Store(machineID, state.(threads := Without(state.threads, threadID)))
    }

    function UpsertEnvironment(machineID: Bytes, resource: EnvironmentResource): Hub {
      var state := Snapshot(machineID);
      Store(machineID, state.(environment := UpsertedResource(state.environment, resource)))
    }

    function RemoveEnvironment(machineID: Bytes, kind: Bytes, resourceID: Bytes): Hub {
      var state := Snapshot(machineID);
      Store(machineID, state.(environment := WithoutResource(state.environment, kind, resourceID)))
    }

    function ApplyCompleted(machineID: Bytes, timestamp: Stamp, observed: Bytes, result: CommandResult): Hub {
      match result
      case ThreadCreated(thread) =>
        TrackThread(machineID, thread.(lastActivityAt := Latest(thread.lastActivityAt, timestamp)))
      case ThreadResumed(thread) => TrackThread(machineID, thread)
      case ThreadArchived(threadID) => RemoveThreadSnapshot(machineID, threadID)
      case SkillSet(skillID, enabled) =>
        if skillID == [] then this
        else UpsertEnvironment(machineID, SkillResource(machineID, skillID, enabled, observed))
      case PluginUninstalled(pluginID) =>
        if pluginID == [] then this else RemoveEnvironment(machineID, PLUGIN, pluginID)
      case OtherResult => this
    }

    function HandleEvent(conn: Conn, envelope: Envelope, observed: Bytes, now: int): Hub {
      if !IsOwner(conn, envelope.machineID) then this else HandleNormal(Normalized(envelope), observed, now)
    }

    function HandleNormal(normal: Envelope, observed: Bytes, now: int): Hub {
      var hub := ApplyTurn(normal, now).ApplyTimeline(normal);
      if normal.requestID == [] then hub
      else
        match normal.event
        case CommandCompletedEvent(result) =>
          hub.ApplyCompleted(normal.machineID, normal.timestamp, observed, result).Forget(normal.requestID)
        case CommandRejectedEvent => hub.Forget(normal.requestID)
        case ApprovalRequiredEvent(payload) => hub.RequireApproval(normal.machineID, payload)
        case ApprovalResolvedEvent(payload) => hub.ResolveApproval(payload.requestID)
        case _ => hub
    }

    function Await(requestID: Bytes, machineID: Bytes): Hub {
      this.(waiters := waiters[requestID := machineID])
    }

    function Forget(requestID: Bytes): Hub {
      this.(waiters := waiters - {requestID})
    }
  }

  const EMPTY_HUB := Hub(map[], map[], map[], map[], map[], map[], RuntimeIndex.EMPTY, map[], MachineRegistry.EMPTY)

  /** The active turns after a turn has ended; an end without a turn identifier ends any turn. */
  function WithoutTurn(activeTurns: map<Bytes, Bytes>, threadID: Bytes, turnID: Bytes): map<Bytes, Bytes> {
    if threadID in activeTurns && (turnID == [] || activeTurns[threadID] == turnID) then activeTurns - {threadID}
    else activeTurns
  }

  function SkillResource(machineID: Bytes, skillID: Bytes, enabled: bool, observed: Bytes): EnvironmentResource {
    EnvironmentResource(skillID, machineID, [], SKILL, [], if enabled then ENABLED else DISABLED, false, observed, None)
  }

  class ClientHub {
    const registry: MachineRegistry.Store
    const runtimeIndex: RuntimeIndex.Store
    const router: Router
    var clients: map<Bytes, Conn>
    /** The machine each live connection last registered; a local variable of its read loop. */
    var registered: map<Conn, Bytes>
    var snapshotByMachine: map<Bytes, MachineState>
    var activeTurns: map<Bytes, Bytes>
    var approvalRequests: map<Bytes, Bytes>
    var pendingCommands: map<Bytes, Bytes>

    constructor ()
      ensures fresh(registry) && fresh(runtimeIndex) && fresh(router)
      ensures View() == EMPTY_HUB
    {
      registry := new MachineRegistry.Store();
      runtimeIndex := new RuntimeIndex.Store();
      router := new Router();
      clients, registered, snapshotByMachine := map[], map[], map[];
      activeTurns, approvalRequests, pendingCommands := map[], map[], map[];
    }

    function View(): Hub
      reads this, registry, runtimeIndex, router
    {
      Hub(clients, registered, snapshotByMachine, activeTurns, approvalRequests, pendingCommands,
          runtimeIndex.View(), router.threads, registry.View())
    }

    method IsCurrentOwner(conn: Conn, machineID: Bytes) returns (owner: bool)
      ensures owner == View().IsOwner(conn, machineID)
    {
      if machineID == [] {
        return false;
      }
      owner := machineID in clients && clients[machineID] == conn;
    }

    /** Takes the machine's waiters out of the table while ranging over it. */
    method TakeWaiters(machineID: Bytes) returns (taken: set<Bytes>)
      modifies `pendingCommands
      ensures taken == old(View()).WaitersOf(machineID)
      ensures pendingCommands == old(pendingCommands) - taken
    {
      taken := {};
      var unvisited := pendingCommands.Keys;
      while unvisited != {}
        invariant unvisited <= old(pendingCommands).Keys
        invariant taken == set id | id in old(pendingCommands) && id !in unvisited
            && old(pendingCommands)[id] == machineID
        invariant pendingCommands == old(pendingCommands) - taken
        decreases unvisited
      {
        var requestID :| requestID in unvisited;
        unvisited := unvisited - {requestID};
        if pendingCommands[requestID] == machineID {
          taken := taken + {requestID};
          pendingCommands := pendingCommands - {requestID};
        }
      }
    }

    method CleanupMachine(machineID: Bytes) returns (waiters: set<Bytes>)
      modifies this, registry, runtimeIndex, router
      ensures View() == old(View()).Cleanup(machineID)
      ensures waiters == if machineID == [] then {} else old(View()).WaitersOf(machineID)
    {
      if machineID == [] {
        return {};
      }
      var hasSnapshot := machineID in snapshotByMachine;
      var state := NO_STATE;
      if hasSnapshot {
        state := snapshotByMachine[machineID];
        state := state.(threads := MarkedUnknown(state.threads));
        snapshotByMachine := snapshotByMachine[machineID := state];
      }
      waiters := TakeWaiters(machineID);
      registry.MarkOffline(machineID);
      if hasSnapshot {
        runtimeIndex.ReplaceSnapshot(machineID, state.threads, state.environment);
      } else {
        runtimeIndex.MarkMachineUnknown(machineID);
      }
      router.ClearMachine(machineID);
    }

    method HandleRegister(conn: Conn, machineID: Bytes, name: Bytes) returns (failed: set<Bytes>)
      modifies this, registry, runtimeIndex, router
      ensures View() == old(View()).Register(conn, machineID, name)
      ensures failed == old(View()).waiters.Keys - View().waiters.Keys
    {
      failed := {};
      if machineID == [] {
        return;
      }
      var previous := if conn in registered then registered[conn] else [];
      if previous != [] && previous != machineID {
        if previous in clients && clients[previous] == conn {
          clients := clients - {previous};
          failed := CleanupMachine(previous);
        }
      }
      EnrollClient(conn, machineID, name);
    }

    method EnrollClient(conn: Conn, machineID: Bytes, name: Bytes)
      modifies `clients, `registered, registry
      ensures View() == old(View()).Enroll(conn, machineID, name)
    {
      clients := clients[machineID := conn];
      registered := registered[conn := machineID];
      var machine := Machine(machineID, TrimSpace(name), Online, RuntimeUnknown, []);
      if machine.name == [] {
        machine := machine.(name := machineID);
      }
      registry.Upsert(machine);
    }

    method DisconnectClient(conn: Conn) returns (failed: set<Bytes>)
      modifies this, registry, runtimeIndex, router
      ensures View() == old(View()).Disconnect(conn)
      ensures failed == old(View()).waiters.Keys - View().waiters.Keys
    {
      failed := {};
      var machineID := if conn in registered then registered[conn] else [];
      registered := registered - {conn};
      if machineID == [] {
        return;
      }
      if machineID in clients && clients[machineID] == conn {
        clients := clients - {machineID};
        failed := CleanupMachine(machineID);
      }
    }

    method ReplaceMachineSnapshot(machineID: Bytes, state: MachineState)
      modifies this, runtimeIndex
      ensures View() == old(View()).Store(machineID, state)
    {
      snapshotByMachine := snapshotByMachine[machineID := state];
      runtimeIndex.ReplaceSnapshot(machineID, state.threads, state.environment);
    }

    method HandleThreadSnapshot(conn: Conn, machineID: Bytes, items: seq<Thread>)
      modifies this, runtimeIndex, router
      ensures View() == old(View()).ThreadSnapshot(conn, machineID, items)
    {
      var owner := IsCurrentOwner(conn, machineID);
      if !owner {
        return;
      }
      var threads := NormalizeThreads(items, machineID);
      var state := View().Snapshot(machineID);
      var merged := MergeThreadActivities(state.threads, threads);
      ReplaceMachineSnapshot(machineID, state.(threads := merged));
      router.ReplaceSnapshot(machineID, threads);
    }

    method HandleEnvironmentSnapshot(conn: Conn, machineID: Bytes, items: seq<EnvironmentResource>)
      modifies this, runtimeIndex
      ensures View() == old(View()).EnvironmentSnapshot(conn, machineID, items)
    {
      var owner := IsCurrentOwner(conn, machineID);
      if !owner {
        return;
      }
      ReplaceMachineSnapshot(machineID,
        View().Snapshot(machineID).(environment := OwnedResources(items, machineID)));
    }

    method HandleMachineSnapshot(conn: Conn, machineID: Bytes, payload: Machine)
      modifies registry
      ensures View() == old(View()).MachineSnapshot(conn, machineID, payload)
    {
      var owner := IsCurrentOwner(conn, machineID);
      if !owner {
        return;
      }
      var machine := payload;
      if machine.id == [] {
        machine := machine.(id := machineID);
      }
      if machine.name == [] {
        machine := machine.(name := machine.id);
      }
      if machine.status == NoStatus {
        machine := machine.(status := Online);
      }
      if machine.runtimeStatus == NoRuntimeStatus {
        machine := machine.(runtimeStatus := RuntimeUnknown);
      }
      registry.Upsert(machine);
    }

    method SetActiveTurn(machineID: Bytes, threadID: Bytes, turnID: Bytes, activity: Stamp)
      modifies this, runtimeIndex
      ensures View() == old(View()).SetActiveTurn(machineID, threadID, turnID, activity)
    {
      if machineID == [] || threadID == [] || turnID == [] {
        return;
      }
      activeTurns := activeTurns[threadID := turnID];
      var state := View().Snapshot(machineID);
      var threads := TouchThread(state.threads, threadID, Active, activity);
      ReplaceMachineSnapshot(machineID, state.(threads := threads));
    }

    method ClearActiveTurn(machineID: Bytes, threadID: Bytes, turnID: Bytes, activity: Stamp)
      modifies this, runtimeIndex
      ensures View() == old(View()).ClearActiveTurn(machineID, threadID, turnID, activity)
    {
      if machineID == [] || threadID == [] {
        return;
      }
      if threadID in activeTurns {
        if turnID == [] || activeTurns[threadID] == turnID {
          activeTurns := activeTurns - {threadID};
        }
      }
      var state := View().Snapshot(machineID);
      var threads := TouchThread(state.threads, threadID, Idle, activity);
      ReplaceMachineSnapshot(machineID, state.(threads := threads));
    }

    method ApplyTurnLifecycleEvent(envelope: Envelope, now: int)
      modifies this, runtimeIndex
      ensures View() == old(View()).ApplyTurn(envelope, now)
    {
      var activity := Normalize(envelope.timestamp);
      if activity == NO_STAMP {
        activity := Readable(now, 0);
      }
      match envelope.event {
        case TurnStartedEvent(threadID, turnID) =>
          SetActiveTurn(envelope.machineID, threadID, turnID, activity);
        case TurnEndedEvent(threadID, turnID) =>
          ClearActiveTurn(envelope.machineID, threadID, turnID, activity);
        case TimelineEventEvent(event) =>
          if event.eventType == TurnStarted {
            SetActiveTurn(envelope.machineID, event.threadID, event.turnID, activity);
          } else if event.eventType == TurnCompleted || event.eventType == TurnFailed {
            ClearActiveTurn(envelope.machineID, event.threadID, event.turnID, activity);
          }
        case _ =>
      }
    }

    method RequireApproval(machineID: Bytes, payload: Approval)
      modifies this, registry
      ensures View() == old(View()).RequireApproval(machineID, payload)
    {
      if payload.requestID == [] {
        return;
      }
      approvalRequests := approvalRequests[payload.requestID := machineID];
      registry.UpsertPendingApproval(machineID, payload);
    }

    method ResolveApproval(requestID: Bytes)
      modifies this, registry
      ensures View() == old(View()).ResolveApproval(requestID)
    {
      if requestID == [] {
        return;
      }
      approvalRequests := approvalRequests - {requestID};
      registry.RemovePendingApproval(requestID);
    }

    /** What the HTTP handler does once the client has answered; it refuses blank identifiers before
        it gets here. */
    method ApprovalAnswered(requestID: Bytes)
      requires !Blank(requestID)
      modifies this, registry
      ensures View() == old(View()).ResolveApproval(requestID)
    {
      registry.RemovePendingApproval(requestID);
      ClearApprovalRequest(requestID);
    }

    method ClearApprovalRequest(requestID: Bytes)
      modifies `approvalRequests
      ensures approvalRequests == if Blank(requestID) then old(approvalRequests)
          else old(approvalRequests) - {requestID}
    {
      if TrimSpace(requestID) == [] {
        return;
      }
      approvalRequests := approvalRequests - {requestID};
    }

    method ApplyTimelineEvent(envelope: Envelope)
      modifies this, registry
      ensures View() == old(View()).ApplyTimeline(envelope)
    {
      match envelope.event {
        case TimelineEventEvent(event) =>
          registry.AppendTimelineEvent(event);
          if event.approval.None? || event.approval.value.requestID == [] {
            return;
          }
          var requestID := event.approval.value.requestID;
          if event.eventType == ApprovalRequested {
            RequireApproval(envelope.machineID,
              Approval(requestID, event.threadID, event.turnID, event.itemID, event.approval.value.kind));
          } else if event.eventType == ApprovalResolved {
            ResolveApproval(requestID);
          }
        case _ =>
      }
    }

    method TrackThread(machineID: Bytes, thread: Thread)
      requires machineID != []
      modifies this, runtimeIndex, router
      ensures View() == old(View()).TrackThread(machineID, thread)
    {
      if thread.threadID == [] {
        return;
      }
      var owned := thread;
      if owned.machineID == [] {
        owned := owned.(machineID := machineID);
      }
      var state := View().Snapshot(machineID);
      var threads := UpsertThread(state.threads, owned);
      ReplaceMachineSnapshot(machineID, state.(threads := threads));
      router.TrackThread(owned.threadID, owned.machineID, owned.agentID);
    }

    method RemoveThreadSnapshot(machineID: Bytes, threadID: Bytes)
      modifies this, runtimeIndex
      ensures View() == old(View()).RemoveThreadSnapshot(machineID, threadID)
    {
      if machineID == [] || threadID == [] {
        return;
      }
      activeTurns := activeTurns - {threadID};
      var state := View().Snapshot(machineID);
      var filtered := [];
      for i := 0 to |state.threads|
        invariant filtered == Without(state.threads[..i], threadID)
      {
        assert state.threads[..i + 1][..i] == state.threads[..i];
        if state.threads[i].threadID != threadID {
          filtered := filtered + [state.threads[i]];
        }
      }
      assert state.threads[..|state.threads|] == state.threads;
      ReplaceMachineSnapshot(machineID, state.(threads := filtered));
    }

    method UpsertEnvironmentResource(machineID: Bytes, resource: EnvironmentResource)
      modifies this, runtimeIndex
      ensures View() == old(View()).UpsertEnvironment(machineID, resource)
    {
      var state := View().Snapshot(machineID);
      var items := state.environment;
      var i := 0;
      FindResourceIsFirst(items, resource);
      while i < |items| && !SameResource(items[i], resource)
        invariant 0 <= i <= FindResource(items, resource)
      {
        i := i + 1;
      }
      if i < |items| {
        items := items[i := MergedResource(items[i], resource)];
      } else {
        items := items + [resource];
      }
      ReplaceMachineSnapshot(machineID, state.(environment := items));
    }

    method RemoveEnvironmentResource(machineID: Bytes, kind: Bytes, resourceID: Bytes)
      modifies this, runtimeIndex
      ensures View() == old(View()).RemoveEnvironment(machineID, kind, resourceID)
    {
      var state := View().Snapshot(machineID);
      var items := state.environment;
      var filtered := [];
      for i := 0 to |items|
        invariant filtered == WithoutResource(items[..i], kind, resourceID)
      {
        assert items[..i + 1][..i] == items[..i];
        if items[i].kind == kind && items[i].resourceID == resourceID {
          continue;
        }
        filtered := filtered + [items[i]];
      }
      assert items[..|items|] == items;
      ReplaceMachineSnapshot(machineID, state.(environment := filtered));
    }

    method ApplyCompletedCommand(machineID: Bytes, timestamp: Stamp, observed: Bytes, result: CommandResult)
      requires machineID != []
      modifies this, runtimeIndex, router
      ensures View() == old(View()).ApplyCompleted(machineID, timestamp, observed, result)
    {
      match result {
        case ThreadCreated(thread) =>
          TrackThread(machineID, thread.(lastActivityAt := Latest(thread.lastActivityAt, timestamp)));
        case ThreadResumed(thread) => TrackThread(machineID, thread);
        case ThreadArchived(threadID) => RemoveThreadSnapshot(machineID, threadID);
        case SkillSet(skillID, enabled) =>
          if skillID != [] {
            UpsertEnvironmentResource(machineID, SkillResource(machineID, skillID, enabled, observed));
          }
        case PluginUninstalled(pluginID) =>
          if pluginID != [] {
            RemoveEnvironmentResource(machineID, PLUGIN, pluginID);
          }
        case OtherResult =>
      }
    }

    method HandleEvent(conn: Conn, received: Envelope, observed: Bytes, now: int)
      modifies this, registry, runtimeIndex, router
      ensures View() == old(View()).HandleEvent(conn, received, observed, now)
    {
      var owner := IsCurrentOwner(conn, received.machineID);
      if !owner {
        return;
      }
      var envelope := Normalized(received);
      ApplyTurnLifecycleEvent(envelope, now);
      ApplyTimelineEvent(envelope);
      if envelope.requestID == [] {
        return;
      }
      match envelope.event {
        case CommandCompletedEvent(result) =>
          ApplyCompletedCommand(envelope.machineID, envelope.timestamp, observed, result);
          pendingCommands := pendingCommands - {envelope.requestID};
        case CommandRejectedEvent => pendingCommands := pendingCommands - {envelope.requestID};
        case ApprovalRequiredEvent(payload) => RequireApproval(envelope.machineID, payload);
        case ApprovalResolvedEvent(payload) => ResolveApproval(payload.requestID);
        case _ =>
      }
    }
  }

  method NormalizeThreads(items: seq<Thread>, machineID: Bytes) returns (normalized: seq<Thread>)
    ensures normalized == Owned(items, machineID)
  {
    normalized := [];
    for i := 0 to |items|
      invariant |normalized| == i
      invariant forall k :: 0 <= k < i ==> normalized[k] == OwnedBy(items[k], machineID)
    {
      var thread := items[i];
      if thread.machineID == [] {
        thread := thread.(machineID := machineID);
      }
      normalized := normalized + [thread];
    }
  }

  method MergeThreadActivities(previous: seq<Thread>, incoming: seq<Thread>) returns (merged: seq<Thread>)
    ensures merged == WithActivities(previous, incoming)
  {
    if |incoming| == 0 {
      return [];
    }
    var byID := IndexByThreadID(previous);
    merged := [];
    for i := 0 to |incoming|
      invariant |merged| == i
      invariant forall k :: 0 <= k < i ==> merged[k] == WithKnownActivity(byID, incoming[k].threadID, incoming[k])
    {
      var thread := incoming[i];
      if thread.threadID in byID {
        thread := thread.(lastActivityAt := Latest(byID[thread.threadID].lastActivityAt, thread.lastActivityAt));
      }
      merged := merged + [thread];
    }
  }

  method TouchThread(threads: seq<Thread>, threadID: Bytes, status: ThreadStatus, activity: Stamp)
    returns (touched: seq<Thread>)
    ensures touched == Touched(threads, threadID, status, activity)
  {
    touched := threads;
    FindIsFirst(threads, threadID);
    for i := 0 to |threads|
      invariant touched == threads
      invariant i <= Find(threads, threadID)
    {
      if threads[i].threadID == threadID {
        touched := touched[i := touched[i].(
          status := status, lastActivityAt := Latest(touched[i].lastActivityAt, activity))];
        return;
      }
    }
  }

  method UpsertThread(threads: seq<Thread>, item: Thread) returns (updated: seq<Thread>)
    ensures updated == Upserted(threads, item)
  {
    FindIsFirst(threads, item.threadID);
    for i := 0 to |threads|
      invariant i <= Find(threads, item.threadID)
    {
      if threads[i].threadID == item.threadID {
        var thread := item.(lastActivityAt := Latest(threads[i].lastActivityAt, item.lastActivityAt));
        return threads[i := thread];
      }
    }
    updated := threads + [item];
  }
}
