/** What every step of the client hub keeps: the runtime index is a faithful copy of the hub's own
    snapshots, activity never goes backwards, the two approval tables agree, and a connection owns
    at most the machine it last registered. */
module HubAgreement {
  import opened Text
  import opened Activity
  import opened Domain
  import opened Routing
  import opened RuntimeIndex
  import opened ClientHub
  import opened MachineRegistry
  import IndexRoutes

  datatype Step =
    | Register(conn: Conn, machineID: Bytes, name: Bytes)
    | Disconnect(conn: Conn)
    | HandleEvent(conn: Conn, envelope: Envelope, observed: Bytes, now: int)
    | ThreadSnapshot(conn: Conn, machineID: Bytes, threads: seq<Thread>)
    | EnvironmentSnapshot(conn: Conn, machineID: Bytes, environment: seq<EnvironmentResource>)
    | MachineSnapshot(conn: Conn, machineID: Bytes, machine: Machine)
    | ApprovalAnswered(requestID: Bytes)
    | Await(requestID: Bytes, machineID: Bytes)
    | Forget(requestID: Bytes)

  /** Clients send trimmed thread identifiers, and name no thread twice in one snapshot. */
  predicate Proper(step: Step) {
    match step
    case ThreadSnapshot(_, _, threads) => WellFormed(threads)
    case HandleEvent(_, envelope, _, _) => (
      match envelope.event
      case CommandCompletedEvent(ThreadCreated(thread)) => Trimmed(thread.threadID)
      case CommandCompletedEvent(ThreadResumed(thread)) => Trimmed(thread.threadID)
      case _ => true)
    case _ => true
  }

  function Apply(hub: Hub, step: Step): Hub {
    match step
    case Register(conn, machineID, name) => hub.Register(conn, machineID, name)
    case Disconnect(conn) => hub.Disconnect(conn)
    case HandleEvent(conn, envelope, observed, now) => hub.HandleEvent(conn, envelope, observed, now)
    case ThreadSnapshot(conn, machineID, threads) => hub.ThreadSnapshot(conn, machineID, threads)
    case EnvironmentSnapshot(conn, machineID, environment) => hub.EnvironmentSnapshot(conn, machineID, environment)
    case MachineSnapshot(conn, machineID, machine) => hub.MachineSnapshot(conn, machineID, machine)
    case ApprovalAnswered(requestID) => if Blank(requestID) then hub else hub.ResolveApproval(requestID)
    case Await(requestID, machineID) => hub.Await(requestID, machineID)
    case Forget(requestID) => hub.Forget(requestID)
  }

  function Run(hub: Hub, steps: seq<Step>): Hub {
    if steps == [] then hub else Apply(Run(hub, steps[..|steps| - 1]), steps[|steps| - 1])
  }

  // ----- the index is a faithful copy -----

  predicate MachineFaithful(hub: Hub, machineID: Bytes) {
    && WellFormed(hub.Snapshot(machineID).threads)
    && Copies(hub.index.Threads(machineID), hub.Snapshot(machineID).threads)
    && hub.index.Environment(machineID) == hub.Snapshot(machineID).environment
  }

  ghost predicate Faithful(hub: Hub) {
    forall m: Bytes :: MachineFaithful(hub, m)
  }

  /** The machine's list after a step names no thread with an older activity than before. */
  ghost predicate NeverOlderThan(before: Hub, after: Hub) {
    forall m: Bytes :: NeverOlder(before.Snapshot(m).threads, after.Snapshot(m).threads)
  }

  lemma TrimmedIsNotBlank(s: Bytes)
    requires Trimmed(s) && s != []
    ensures !Blank(s)
  {
  }

  /** A well-formed list knows each of its threads under its name. */
  lemma KnowsItsThreads(threads: seq<Thread>, i: nat)
    requires WellFormed(threads) && i < |threads| && threads[i].threadID != []
    ensures threads[i].threadID in ByThreadID(threads) && ByThreadID(threads)[threads[i].threadID] == threads[i]
  {
    TrimmedIsNotBlank(threads[i].threadID);
    ByThreadIDFinds(threads, threads[i].threadID);
    var known := ByThreadID(threads)[threads[i].threadID];
    var k :| 0 <= k < |threads| && threads[k] == known;
  }

  /** Merging one thread with what the index knew gives the thread itself, when the thread is not
      older than what the hub knew and the index was a copy of that. */
  lemma MergedCopy(indexed: seq<Thread>, before: seq<Thread>, thread: Thread)
    requires Copies(indexed, before) && Trimmed(thread.threadID)
    requires forall k :: 0 <= k < |before| && before[k].threadID == thread.threadID != [] ==>
               NotAfter(before[k].lastActivityAt, thread.lastActivityAt)
    ensures Canonical(WithKnownActivity(ByThreadID(indexed), thread.threadID, thread)) == Canonical(thread)
  {
    var id := thread.threadID;
    ByThreadIDFinds(indexed, id);
    if id in ByThreadID(indexed) {
      var known := ByThreadID(indexed)[id];
      var k :| 0 <= k < |indexed| && indexed[k] == known;
      assert Canonical(indexed[k]) == Canonical(before[k]);
      assert before[k].threadID == id && Normalize(known.lastActivityAt) == Normalize(before[k].lastActivityAt) by {
        assert Canonical(indexed[k]).threadID == Canonical(before[k]).threadID;
        assert Canonical(indexed[k]).lastActivityAt == Canonical(before[k]).lastActivityAt;
      }
      assert id != [] by {
        assert Blank([]);
      }
    }
  }

  /** The index merges on its own, and still ends up with what the hub has. */
  lemma MergedCopies(indexed: seq<Thread>, before: seq<Thread>, after: seq<Thread>)
    requires Copies(indexed, before) && NeverOlder(before, after) && WellFormed(after)
    ensures Copies(Merged(indexed, after), after)
  {
    forall i | 0 <= i < |after|
      ensures Canonical(Merged(indexed, after)[i]) == Canonical(after[i])
    {
      assert Trimmed(after[i].threadID);
      MergedCopy(indexed, before, after[i]);
    }
  }

  lemma StoreKeepsFaithful(hub: Hub, machineID: Bytes, state: MachineState)
    requires Faithful(hub) && WellFormed(state.threads)
    requires NeverOlder(hub.Snapshot(machineID).threads, state.threads)
    ensures Faithful(hub.Store(machineID, state))
    ensures NeverOlderThan(hub, hub.Store(machineID, state))
  {
    assert MachineFaithful(hub, machineID);
    MergedCopies(hub.index.Threads(machineID), hub.Snapshot(machineID).threads, state.threads);
    var next := hub.Store(machineID, state);
    forall m: Bytes
      ensures MachineFaithful(next, m) && NeverOlder(hub.Snapshot(m).threads, next.Snapshot(m).threads)
    {
      assert MachineFaithful(hub, m);
      NeverOlderItself(hub.Snapshot(m).threads);
    }
  }

  lemma NeverOlderItself(threads: seq<Thread>)
    requires WellFormed(threads)
    ensures NeverOlder(threads, threads)
  {
  }

  lemma UntouchedKeepsFaithful(before: Hub, after: Hub)
    requires Faithful(before)
    requires after.snapshots == before.snapshots
    requires after.index.threads == before.index.threads && after.index.environment == before.index.environment
    ensures Faithful(after) && NeverOlderThan(before, after)
  {
    forall m: Bytes
      ensures MachineFaithful(after, m) && NeverOlder(before.Snapshot(m).threads, after.Snapshot(m).threads)
    {
      assert MachineFaithful(before, m);
      NeverOlderItself(before.Snapshot(m).threads);
    }
  }

  // what each way of editing a list does to it

  lemma WithActivitiesIsFine(previous: seq<Thread>, incoming: seq<Thread>)
    requires WellFormed(previous) && WellFormed(incoming)
    ensures WellFormed(WithActivities(previous, incoming))
    ensures NeverOlder(previous, WithActivities(previous, incoming))
  {
    var merged := WithActivities(previous, incoming);
    forall i, j | 0 <= i < |previous| && 0 <= j < |merged| && previous[i].threadID == merged[j].threadID != []
      ensures NotAfter(previous[i].lastActivityAt, merged[j].lastActivityAt)
    {
      KnowsItsThreads(previous, i);
    }
  }

  lemma OwnedIsFine(threads: seq<Thread>, machineID: Bytes)
    requires WellFormed(threads)
    ensures WellFormed(Owned(threads, machineID))
  {
  }

  lemma TouchedIsFine(threads: seq<Thread>, threadID: Bytes, status: ThreadStatus, activity: Stamp)
    requires WellFormed(threads)
    ensures WellFormed(Touched(threads, threadID, status, activity))
    ensures NeverOlder(threads, Touched(threads, threadID, status, activity))
  {
    var touched := Touched(threads, threadID, status, activity);
    forall i | 0 <= i < |threads|
      ensures touched[i].threadID == threads[i].threadID
      ensures NotAfter(threads[i].lastActivityAt, touched[i].lastActivityAt)
    {
      LatestIsLeastUpperBound(threads[i].lastActivityAt, activity, NO_STAMP);
    }
    forall i, j | 0 <= i < |threads| && 0 <= j < |touched| && threads[i].threadID == touched[j].threadID != []
      ensures i == j
    {
      assert threads[j].threadID == touched[j].threadID;
    }
  }

  lemma UpsertedIsFine(threads: seq<Thread>, thread: Thread)
    requires WellFormed(threads) && Trimmed(thread.threadID)
    ensures WellFormed(Upserted(threads, thread))
    ensures NeverOlder(threads, Upserted(threads, thread))
  {
    var at := Find(threads, thread.threadID);
    var after := Upserted(threads, thread);
    FindIsFirst(threads, thread.threadID);
    assert forall i :: 0 <= i < |threads| ==> after[i].threadID == threads[i].threadID;
    assert at < |threads| ==> NotAfter(threads[at].lastActivityAt, after[at].lastActivityAt);
    assert forall i :: 0 <= i < |threads| && i != at ==> after[i] == threads[i];
  }

  lemma WithoutIsFine(threads: seq<Thread>, threadID: Bytes)
    requires WellFormed(threads)
    ensures WellFormed(Without(threads, threadID))
    ensures NeverOlder(threads, Without(threads, threadID))
  {
    var kept := Without(threads, threadID);
    forall i | 0 <= i < |kept|
      ensures Trimmed(kept[i].threadID)
    {
      WithoutKeepsTheOthers(threads, threadID, kept[i]);
    }
    forall i, j | 0 <= i < j < |kept|
      ensures kept[i].threadID != kept[j].threadID || kept[i].threadID == []
    {
      IndexRoutes.WithoutKeepsOrder(threads, threadID, i, j);
    }
    forall i, j | 0 <= i < |threads| && 0 <= j < |kept| && threads[i].threadID == kept[j].threadID != []
      ensures NotAfter(threads[i].lastActivityAt, kept[j].lastActivityAt)
    {
      WithoutKeepsTheOthers(threads, threadID, kept[j]);
      var k :| 0 <= k < |threads| && threads[k] == kept[j];
      assert k == i;
    }
  }

  lemma MarkedUnknownIsFine(threads: seq<Thread>)
    requires WellFormed(threads)
    ensures WellFormed(MarkedUnknown(threads))
    ensures NeverOlder(threads, MarkedUnknown(threads))
  {
  }

  // the handlers

  lemma CleanupKeepsFaithful(hub: Hub, machineID: Bytes)
    requires Faithful(hub)
    ensures Faithful(hub.Cleanup(machineID)) && NeverOlderThan(hub, hub.Cleanup(machineID))
  {
    assert MachineFaithful(hub, machineID);
    var state := hub.Snapshot(machineID).(threads := MarkedUnknown(hub.Snapshot(machineID).threads));
    MarkedUnknownIsFine(hub.Snapshot(machineID).threads);
    StoreKeepsFaithful(hub, machineID, state);
    UntouchedKeepsFaithful(hub, hub);
    var next := hub.Cleanup(machineID);
    if machineID in hub.snapshots {
      var stored := hub.Store(machineID, state);
      UntouchedKeepsFaithful(stored, if machineID == [] then stored else next);
    } else {
      UntouchedKeepsFaithful(hub, next);
    }
  }

  lemma TimelineTurnKeepsFaithful(hub: Hub, envelope: Envelope, now: int)
    requires Faithful(hub) && envelope.event.TimelineEventEvent?
    ensures Faithful(hub.ApplyTurn(envelope, now)) && NeverOlderThan(hub, hub.ApplyTurn(envelope, now))
  {
    var activity := ActivityStamp(envelope.timestamp, now);
    var event := envelope.event.event;
    match event.eventType
    case TurnStarted => SetTurnKeepsFaithful(hub, envelope.machineID, event.threadID, event.turnID, activity);
    case TurnCompleted => ClearTurnKeepsFaithful(hub, envelope.machineID, event.threadID, event.turnID, activity);
    case TurnFailed => ClearTurnKeepsFaithful(hub, envelope.machineID, event.threadID, event.turnID, activity);
    case _ => UntouchedKeepsFaithful(hub, hub);
  }

  lemma ApplyTurnKeepsFaithful(hub: Hub, envelope: Envelope, now: int)
    requires Faithful(hub)
    ensures Faithful(hub.ApplyTurn(envelope, now)) && NeverOlderThan(hub, hub.ApplyTurn(envelope, now))
  {
    var activity := ActivityStamp(envelope.timestamp, now);
    match envelope.event
    case TurnStartedEvent(threadID, turnID) =>
      SetTurnKeepsFaithful(hub, envelope.machineID, threadID, turnID, activity);
    case TurnEndedEvent(threadID, turnID) =>
      ClearTurnKeepsFaithful(hub, envelope.machineID, threadID, turnID, activity);
    case TimelineEventEvent(_) => TimelineTurnKeepsFaithful(hub, envelope, now);
    case _ => UntouchedKeepsFaithful(hub, hub);
  }

  lemma SetTurnKeepsFaithful(hub: Hub, machineID: Bytes, threadID: Bytes, turnID: Bytes, activity: Stamp)
    requires Faithful(hub)
    ensures var next := hub.SetActiveTurn(machineID, threadID, turnID, activity);
            Faithful(next) && NeverOlderThan(hub, next)
  {
    var turned := hub.(activeTurns := hub.activeTurns[threadID := turnID]);
    UntouchedKeepsFaithful(hub, hub);
    UntouchedKeepsFaithful(hub, turned);
    TouchKeepsFaithful(turned, machineID, threadID, Active, activity);
  }

  lemma ClearTurnKeepsFaithful(hub: Hub, machineID: Bytes, threadID: Bytes, turnID: Bytes, activity: Stamp)
    requires Faithful(hub)
    ensures var next := hub.ClearActiveTurn(machineID, threadID, turnID, activity);
            Faithful(next) && NeverOlderThan(hub, next)
  {
    var turned := hub.(activeTurns := WithoutTurn(hub.activeTurns, threadID, turnID));
    UntouchedKeepsFaithful(hub, hub);
    UntouchedKeepsFaithful(hub, turned);
    TouchKeepsFaithful(turned, machineID, threadID, Idle, activity);
  }

  lemma TouchKeepsFaithful(hub: Hub, machineID: Bytes, threadID: Bytes, status: ThreadStatus, activity: Stamp)
    requires Faithful(hub)
    ensures var state := hub.Snapshot(machineID);
            var next := hub.Store(machineID, state.(threads := Touched(state.threads, threadID, status, activity)));
            Faithful(next) && NeverOlderThan(hub, next)
  {
    assert MachineFaithful(hub, machineID);
    var state := hub.Snapshot(machineID);
    TouchedIsFine(state.threads, threadID, status, activity);
    StoreKeepsFaithful(hub, machineID, state.(threads := Touched(state.threads, threadID, status, activity)));
  }

  lemma TrackKeepsFaithful(hub: Hub, machineID: Bytes, thread: Thread)
    requires Faithful(hub) && Trimmed(thread.threadID)
    ensures Faithful(hub.TrackThread(machineID, thread)) && NeverOlderThan(hub, hub.TrackThread(machineID, thread))
  {
    UntouchedKeepsFaithful(hub, hub);
    assert MachineFaithful(hub, machineID);
    var state := hub.Snapshot(machineID);
    var threads := Upserted(state.threads, OwnedBy(thread, machineID));
    UpsertedIsFine(state.threads, OwnedBy(thread, machineID));
    StoreKeepsFaithful(hub, machineID, state.(threads := threads));
    if machineID != [] && thread.threadID != [] {
      UntouchedKeepsFaithful(hub.Store(machineID, state.(threads := threads)), hub.TrackThread(machineID, thread));
    } else {
      UntouchedKeepsFaithful(hub, hub.TrackThread(machineID, thread));
    }
  }

  lemma RemoveKeepsFaithful(hub: Hub, machineID: Bytes, threadID: Bytes)
    requires Faithful(hub)
    ensures var next := hub.RemoveThreadSnapshot(machineID, threadID); Faithful(next) && NeverOlderThan(hub, next)
  {
    UntouchedKeepsFaithful(hub, hub);
    var turned := hub.(activeTurns := hub.activeTurns - {threadID});
    UntouchedKeepsFaithful(hub, turned);
    assert MachineFaithful(turned, machineID);
    var state := turned.Snapshot(machineID);
    WithoutIsFine(state.threads, threadID);
    StoreKeepsFaithful(turned, machineID, state.(threads := Without(state.threads, threadID)));
  }

  lemma EnvironmentKeepsFaithful(hub: Hub, machineID: Bytes, environment: seq<EnvironmentResource>)
    requires Faithful(hub)
    ensures var next := hub.Store(machineID, hub.Snapshot(machineID).(environment := environment));
            Faithful(next) && NeverOlderThan(hub, next)
  {
    assert MachineFaithful(hub, machineID);
    NeverOlderItself(hub.Snapshot(machineID).threads);
    StoreKeepsFaithful(hub, machineID, hub.Snapshot(machineID).(environment := environment));
  }

  lemma ApplyCompletedKeepsFaithful(hub: Hub, machineID: Bytes, timestamp: Stamp, observed: Bytes,
      result: CommandResult)
    requires Faithful(hub)
    requires result.ThreadCreated? || result.ThreadResumed? ==> Trimmed(result.thread.threadID)
    ensures var next := hub.ApplyCompleted(machineID, timestamp, observed, result);
            Faithful(next) && NeverOlderThan(hub, next)
  {
    UntouchedKeepsFaithful(hub, hub);
    match result
    case ThreadCreated(thread) =>
      TrackKeepsFaithful(hub, machineID, thread.(lastActivityAt := Latest(thread.lastActivityAt, timestamp)));
    case ThreadResumed(thread) => TrackKeepsFaithful(hub, machineID, thread);
    case ThreadArchived(threadID) => RemoveKeepsFaithful(hub, machineID, threadID);
    case SkillSet(skillID, enabled) =>
      EnvironmentKeepsFaithful(hub, machineID, UpsertedResource(hub.Snapshot(machineID).environment,
        SkillResource(machineID, skillID, enabled, observed)));
    case PluginUninstalled(pluginID) =>
      EnvironmentKeepsFaithful(hub, machineID, WithoutResource(hub.Snapshot(machineID).environment, PLUGIN, pluginID));
    case OtherResult =>
  }

  /** Snapshots, index, active turns, routes and connections are as before. */
  predicate QuietStep(before: Hub, after: Hub) {
    && after.snapshots == before.snapshots && after.index == before.index
    && after.activeTurns == before.activeTurns && after.routes == before.routes
    && after.clients == before.clients && after.registered == before.registered
  }

  lemma RequireIsQuiet(hub: Hub, machineID: Bytes, payload: Approval)
    ensures QuietStep(hub, hub.RequireApproval(machineID, payload))
  {
  }

  lemma ResolveIsQuiet(hub: Hub, requestID: Bytes)
    ensures QuietStep(hub, hub.ResolveApproval(requestID))
  {
  }

  lemma ApplyTimelineIsQuiet(hub: Hub, envelope: Envelope)
    ensures QuietStep(hub, hub.ApplyTimeline(envelope))
  {
    if envelope.event.TimelineEventEvent? && envelope.event.event.approval.Some? {
      var event := envelope.event.event;
      var requestID := event.approval.value.requestID;
      var logged := hub.(registry := hub.registry.AppendTimelineEvent(event));
      match event.eventType
      case ApprovalRequested =>
        RequireIsQuiet(logged, envelope.machineID,
          Approval(requestID, event.threadID, event.turnID, event.itemID, event.approval.value.kind));
      case ApprovalResolved => ResolveIsQuiet(logged, requestID);
      case _ =>
    }
  }

  /** The first half of every event: turns and timeline. */
  lemma LoggedKeepsFaithful(hub: Hub, normal: Envelope, now: int)
    requires Faithful(hub)
    ensures var logged := hub.ApplyTurn(normal, now).ApplyTimeline(normal);
            Faithful(logged) && NeverOlderThan(hub, logged)
  {
    var turned := hub.ApplyTurn(normal, now);
    ApplyTurnKeepsFaithful(hub, normal, now);
    ApplyTimelineIsQuiet(turned, normal);
    UntouchedKeepsFaithful(turned, turned.ApplyTimeline(normal));
  }

  /** The second half, of an event that answers a command. */
  lemma CompletedKeepsFaithful(hub: Hub, envelope: Envelope, observed: Bytes, result: CommandResult)
    requires Faithful(hub) && Proper(HandleEvent(0, envelope, observed, 0))
        && envelope.event == CommandCompletedEvent(result)
    ensures var applied := hub.ApplyCompleted(envelope.machineID, envelope.timestamp, observed, result);
            var next := applied.Forget(envelope.requestID);
            Faithful(next) && NeverOlderThan(hub, next)
  {
    ApplyCompletedKeepsFaithful(hub, envelope.machineID, envelope.timestamp, observed, result);
    var completed := hub.ApplyCompleted(envelope.machineID, envelope.timestamp, observed, result);
    UntouchedKeepsFaithful(completed, completed.Forget(envelope.requestID));
  }

  lemma OtherEventIsQuiet(hub: Hub, conn: Conn, envelope: Envelope, observed: Bytes, now: int)
    requires hub.IsOwner(conn, envelope.machineID) && !Normalized(envelope).event.CommandCompletedEvent?
    ensures QuietStep(hub.ApplyTurn(Normalized(envelope), now).ApplyTimeline(Normalized(envelope)),
                      hub.HandleEvent(conn, envelope, observed, now))
  {
    var logged := hub.ApplyTurn(Normalized(envelope), now).ApplyTimeline(Normalized(envelope));
    match Normalized(envelope).event
    case ApprovalRequiredEvent(payload) => RequireIsQuiet(logged, Normalized(envelope).machineID, payload);
    case ApprovalResolvedEvent(payload) => ResolveIsQuiet(logged, payload.requestID);
    case _ =>
  }

  lemma CommandIsNotTimeline(hub: Hub, envelope: Envelope, now: int)
    requires envelope.event.CommandCompletedEvent?
    ensures Normalized(envelope) == envelope
    ensures hub.ApplyTurn(envelope, now).ApplyTimeline(envelope) == hub
  {
  }

  lemma HandleEventKeepsFaithful(hub: Hub, step: Step)
    requires Faithful(hub) && step.HandleEvent? && Proper(step)
    ensures Faithful(Apply(hub, step)) && NeverOlderThan(hub, Apply(hub, step))
  {
    UntouchedKeepsFaithful(hub, hub);
    var HandleEvent(conn, envelope, observed, now) := step;
    if hub.IsOwner(conn, envelope.machineID) {
      var normal := Normalized(envelope);
      if normal.event.CommandCompletedEvent? {
        NormalizedKeepsKind(envelope);
        CommandIsNotTimeline(hub, envelope, now);
        CompletedKeepsFaithful(hub, envelope, observed, envelope.event.result);
      } else {
        LoggedKeepsFaithful(hub, normal, now);
        OtherEventIsQuiet(hub, conn, envelope, observed, now);
        UntouchedKeepsFaithful(hub.ApplyTurn(normal, now).ApplyTimeline(normal), Apply(hub, step));
      }
    }
  }

  lemma NormalizedKeepsKind(envelope: Envelope)
    ensures Normalized(envelope).event.CommandCompletedEvent? <==> envelope.event.CommandCompletedEvent?
  {
  }

  lemma ThreadSnapshotKeepsFaithful(hub: Hub, step: Step)
    requires Faithful(hub) && step.ThreadSnapshot? && Proper(step)
    ensures Faithful(Apply(hub, step)) && NeverOlderThan(hub, Apply(hub, step))
  {
    UntouchedKeepsFaithful(hub, hub);
    var ThreadSnapshot(conn, machineID, threads) := step;
    assert MachineFaithful(hub, machineID);
    var state := hub.Snapshot(machineID);
    var owned := Owned(threads, machineID);
    OwnedIsFine(threads, machineID);
    WithActivitiesIsFine(state.threads, owned);
    var stored := hub.Store(machineID, state.(threads := WithActivities(state.threads, owned)));
    StoreKeepsFaithful(hub, machineID, state.(threads := WithActivities(state.threads, owned)));
    if hub.IsOwner(conn, machineID) {
      UntouchedKeepsFaithful(stored, Apply(hub, step));
    }
  }

  lemma RegisterKeepsFaithful(hub: Hub, step: Step)
    requires Faithful(hub) && step.Register?
    ensures Faithful(Apply(hub, step)) && NeverOlderThan(hub, Apply(hub, step))
  {
    UntouchedKeepsFaithful(hub, hub);
    var Register(conn, machineID, name) := step;
    var released := hub.Release(conn, machineID);
    if released != hub {
      var left := hub.(clients := hub.clients - {hub.registered[conn]});
      UntouchedKeepsFaithful(hub, left);
      CleanupKeepsFaithful(left, hub.registered[conn]);
    }
    if machineID != [] {
      UntouchedKeepsFaithful(released, released.Enroll(conn, machineID, name));
    }
  }

  lemma DisconnectKeepsFaithful(hub: Hub, step: Step)
    requires Faithful(hub) && step.Disconnect?
    ensures Faithful(Apply(hub, step)) && NeverOlderThan(hub, Apply(hub, step))
  {
    var gone := hub.(registered := hub.registered - {step.conn});
    UntouchedKeepsFaithful(hub, gone);
    if step.conn in hub.registered && hub.IsOwner(step.conn, hub.registered[step.conn]) {
      var left := gone.(clients := hub.clients - {hub.registered[step.conn]});
      UntouchedKeepsFaithful(hub, left);
      CleanupKeepsFaithful(left, hub.registered[step.conn]);
    }
  }

  /** Every step keeps the index a faithful copy, and takes no thread's activity backwards. */
  lemma StepKeepsFaithful(hub: Hub, step: Step)
    requires Faithful(hub) && Proper(step)
    ensures Faithful(Apply(hub, step)) && NeverOlderThan(hub, Apply(hub, step))
  {
    UntouchedKeepsFaithful(hub, hub);
    match step
    case Register(_, _, _) => RegisterKeepsFaithful(hub, step);
    case Disconnect(_) => DisconnectKeepsFaithful(hub, step);
    case HandleEvent(_, _, _, _) => HandleEventKeepsFaithful(hub, step);
    case ThreadSnapshot(_, _, _) => ThreadSnapshotKeepsFaithful(hub, step);
    case EnvironmentSnapshot(_, machineID, environment) =>
      EnvironmentKeepsFaithful(hub, machineID, OwnedResources(environment, machineID));
    case _ => UntouchedKeepsFaithful(hub, Apply(hub, step));
  }

  /** In every run of the hub the runtime index is a faithful copy of the hub's snapshots. */
  lemma {:induction false} IndexIsFaithfulInEveryRun(steps: seq<Step>)
    requires forall i :: 0 <= i < |steps| ==> Proper(steps[i])
    ensures Faithful(Run(EMPTY_HUB, steps))
  {
    if steps == [] {
      forall m: Bytes
        ensures MachineFaithful(EMPTY_HUB, m)
      {
      }
    } else {
      IndexIsFaithfulInEveryRun(steps[..|steps| - 1]);
      StepKeepsFaithful(Run(EMPTY_HUB, steps[..|steps| - 1]), steps[|steps| - 1]);
    }
  }

  // ----- activity never goes backwards -----

  function ActivityOf(threads: seq<Thread>, threadID: Bytes): Stamp {
    var i := Find(threads, threadID);
    if i < |threads| then threads[i].lastActivityAt else NO_STAMP
  }

  lemma ActivityOfIsNeverOlder(before: seq<Thread>, after: seq<Thread>, threadID: Bytes)
    requires NeverOlder(before, after) && threadID != [] && Lists(after, threadID)
    ensures NotAfter(ActivityOf(before, threadID), ActivityOf(after, threadID))
  {
    var i, j := Find(before, threadID), Find(after, threadID);
    FindIsFirst(after, threadID);
    assert j < |after|;
    if i < |before| {
      assert before[i].threadID == after[j].threadID != [];
    }
  }

  /** A copy shows the same activities. */
  lemma CopyShowsActivity(copy: seq<Thread>, original: seq<Thread>, threadID: Bytes)
    requires Copies(copy, original)
    ensures Normalize(ActivityOf(copy, threadID)) == Normalize(ActivityOf(original, threadID))
  {
    forall i | 0 <= i < |copy|
      ensures copy[i].threadID == original[i].threadID
      ensures Normalize(copy[i].lastActivityAt) == Normalize(original[i].lastActivityAt)
    {
      assert Canonical(copy[i]).threadID == Canonical(original[i]).threadID;
      assert Canonical(copy[i]).lastActivityAt == Canonical(original[i]).lastActivityAt;
    }
    IndexRoutes.FindsAlike(copy, original, threadID);
  }

  /** From any point of a run on, as long as a thread stays listed, its last activity does not go
      backwards: neither in the hub nor in the index. */
  lemma {:induction false} ActivityNeverGoesBackwards(hub: Hub, steps: seq<Step>, machineID: Bytes, threadID: Bytes)
    requires Faithful(hub) && threadID != []
    requires forall i :: 0 <= i < |steps| ==> Proper(steps[i])
    requires forall n :: 0 <= n <= |steps| ==> Lists(Run(hub, steps[..n]).Snapshot(machineID).threads, threadID)
    ensures Faithful(Run(hub, steps))
    ensures NotAfter(ActivityOf(hub.Snapshot(machineID).threads, threadID),
                     ActivityOf(Run(hub, steps).Snapshot(machineID).threads, threadID))
    ensures NotAfter(ActivityOf(hub.index.Threads(machineID), threadID),
                     ActivityOf(Run(hub, steps).index.Threads(machineID), threadID))
  {
    if steps != [] {
      var n := |steps| - 1;
      var earlier := steps[..n];
      assert forall k :: 0 <= k <= n ==> earlier[..k] == steps[..k];
      assert steps[..n + 1] == steps;
      ActivityNeverGoesBackwards(hub, earlier, machineID, threadID);
      var before, after := Run(hub, earlier), Run(hub, steps);
      StepKeepsFaithful(before, steps[n]);
      assert NeverOlder(before.Snapshot(machineID).threads, after.Snapshot(machineID).threads);
      ActivityOfIsNeverOlder(before.Snapshot(machineID).threads, after.Snapshot(machineID).threads, threadID);
    }
    assert MachineFaithful(hub, machineID) && MachineFaithful(Run(hub, steps), machineID);
    CopyShowsActivity(hub.index.Threads(machineID), hub.Snapshot(machineID).threads, threadID);
    CopyShowsActivity(Run(hub, steps).index.Threads(machineID), Run(hub, steps).Snapshot(machineID).threads, threadID);
  }

  // ----- why names must not repeat -----

  /** The last thread of the same name is not newer than this one. */
  predicate AsNewAsItsNamesake(threads: seq<Thread>, thread: Thread) {
    thread.threadID in ByThreadID(threads) ==>
      NotAfter(ByThreadID(threads)[thread.threadID].lastActivityAt, thread.lastActivityAt)
  }

  /** A machine whose index copies a list of trimmed names still copies it after the next store of
      that list exactly when no thread is older than its last namesake. */
  lemma StoreKeepsCopyIff(hub: Hub, machineID: Bytes)
    requires machineID in hub.snapshots
    requires hub.index.Threads(machineID) == hub.Snapshot(machineID).threads
    requires forall i :: 0 <= i < |hub.Snapshot(machineID).threads| ==>
        Trimmed(hub.Snapshot(machineID).threads[i].threadID)
    ensures Copies(hub.Store(machineID, hub.Snapshot(machineID)).index.Threads(machineID),
        hub.Snapshot(machineID).threads)
       <==> forall thread <- hub.Snapshot(machineID).threads ::
              AsNewAsItsNamesake(hub.Snapshot(machineID).threads, thread)
  {
    var threads := hub.Snapshot(machineID).threads;
    var merged := Merged(threads, threads);
    forall i | 0 <= i < |threads|
      ensures Canonical(merged[i]) == Canonical(threads[i]) <==> AsNewAsItsNamesake(threads, threads[i])
    {
      if threads[i].threadID in ByThreadID(threads) {
        var known := ByThreadID(threads)[threads[i].threadID];
        NotAfterIffLatest(known.lastActivityAt, threads[i].lastActivityAt);
        LatestIsSemilattice(known.lastActivityAt, threads[i].lastActivityAt, NO_STAMP);
        assert Canonical(merged[i]).lastActivityAt == Latest(known.lastActivityAt, threads[i].lastActivityAt);
      }
    }
  }

  /** A snapshot that names one thread twice, the second time with a later activity, is what breaks
      the copy: it does so one store later. */
  lemma RepeatedNameBreaksTheCopy(older: Thread, newer: Thread, machineID: Bytes, environment: seq<EnvironmentResource>)
    requires older.threadID == newer.threadID && Trimmed(older.threadID) && older.threadID != []
    requires older.lastActivityAt == Readable(1, 0) && newer.lastActivityAt == Readable(5, 0)
    ensures var state := MachineState([older, newer], environment);
            var once := EMPTY_HUB.Store(machineID, state);
            && Copies(once.index.Threads(machineID), state.threads)
            && !Copies(once.Store(machineID, state).index.Threads(machineID), state.threads)
  {
    var state := MachineState([older, newer], environment);
    var once := EMPTY_HUB.Store(machineID, state);
    assert ByThreadID([]) == map[];
    assert once.index.Threads(machineID) == state.threads;
    TrimmedIsNotBlank(newer.threadID);
    assert [older, newer][..1] == [older];
    assert !AsNewAsItsNamesake(state.threads, state.threads[0]);
    StoreKeepsCopyIff(once, machineID);
  }

  // ----- the two approval tables -----

  predicate SameApprovals(routes: map<Bytes, Bytes>, stored: map<Bytes, StoredApproval>) {
    && routes.Keys == stored.Keys
    && (forall id <- routes :: stored[id].machineID == routes[id])
    && (forall id <- stored :: stored[id].payload.requestID == id)
  }

  predicate ApprovalsAgree(hub: Hub) {
    SameApprovals(hub.approvals, hub.registry.approvals)
  }

  lemma PutKeepsApprovals(routes: map<Bytes, Bytes>, stored: map<Bytes, StoredApproval>, machineID: Bytes,
      payload: Approval)
    requires SameApprovals(routes, stored)
    ensures SameApprovals(routes[payload.requestID := machineID],
        stored[payload.requestID := StoredApproval(machineID, payload)])
  {
  }

  lemma DropKeepsApprovals(routes: map<Bytes, Bytes>, stored: map<Bytes, StoredApproval>, requestID: Bytes)
    requires SameApprovals(routes, stored)
    ensures SameApprovals(routes - {requestID}, stored - {requestID})
  {
  }

  /** Clients, waiters, approvals and registry are as before. */
  predicate SameTables(before: Hub, after: Hub) {
    && after.clients == before.clients && after.registered == before.registered && after.waiters == before.waiters
    && after.approvals == before.approvals && after.registry == before.registry
  }

  lemma StoreFrame(hub: Hub, machineID: Bytes, state: MachineState)
    ensures SameTables(hub, hub.Store(machineID, state))
  {
  }

  lemma SetTurnFrame(hub: Hub, machineID: Bytes, threadID: Bytes, turnID: Bytes, activity: Stamp)
    ensures SameTables(hub, hub.SetActiveTurn(machineID, threadID, turnID, activity))
  {
    var state := hub.Snapshot(machineID);
    StoreFrame(hub.(activeTurns := hub.activeTurns[threadID := turnID]), machineID,
      state.(threads := Touched(state.threads, threadID, Active, activity)));
  }

  lemma ClearTurnFrame(hub: Hub, machineID: Bytes, threadID: Bytes, turnID: Bytes, activity: Stamp)
    ensures SameTables(hub, hub.ClearActiveTurn(machineID, threadID, turnID, activity))
  {
    var state := hub.Snapshot(machineID);
    StoreFrame(hub.(activeTurns := WithoutTurn(hub.activeTurns, threadID, turnID)), machineID,
      state.(threads := Touched(state.threads, threadID, Idle, activity)));
  }

  lemma ApplyTurnFrame(hub: Hub, envelope: Envelope, now: int)
    ensures SameTables(hub, hub.ApplyTurn(envelope, now))
  {
    var activity := ActivityStamp(envelope.timestamp, now);
    match envelope.event
    case TurnStartedEvent(threadID, turnID) => SetTurnFrame(hub, envelope.machineID, threadID, turnID, activity);
    case TurnEndedEvent(threadID, turnID) => ClearTurnFrame(hub, envelope.machineID, threadID, turnID, activity);
    case TimelineEventEvent(event) =>
      SetTurnFrame(hub, envelope.machineID, event.threadID, event.turnID, activity);
      ClearTurnFrame(hub, envelope.machineID, event.threadID, event.turnID, activity);
    case _ =>
  }

  lemma TrackFrame(hub: Hub, machineID: Bytes, thread: Thread)
    ensures SameTables(hub, hub.TrackThread(machineID, thread))
  {
    var state := hub.Snapshot(machineID);
    var next := state.(threads := Upserted(state.threads, OwnedBy(thread, machineID)));
    StoreFrame(hub, machineID, next);
    if machineID != [] && thread.threadID != [] {
      assert hub.UpsertThreadSnapshot(machineID, thread) == hub.Store(machineID, next);
    }
  }

  lemma RemoveFrame(hub: Hub, machineID: Bytes, threadID: Bytes)
    ensures SameTables(hub, hub.RemoveThreadSnapshot(machineID, threadID))
  {
    var state := hub.Snapshot(machineID);
    StoreFrame(hub.(activeTurns := hub.activeTurns - {threadID}), machineID,
      state.(threads := Without(state.threads, threadID)));
  }

  lemma EnvironmentFrame(hub: Hub, machineID: Bytes, resource: EnvironmentResource, kind: Bytes, resourceID: Bytes)
    ensures SameTables(hub, hub.UpsertEnvironment(machineID, resource))
    ensures SameTables(hub, hub.RemoveEnvironment(machineID, kind, resourceID))
  {
  }

  lemma ApplyCompletedFrame(hub: Hub, machineID: Bytes, timestamp: Stamp, observed: Bytes, result: CommandResult)
    ensures SameTables(hub, hub.ApplyCompleted(machineID, timestamp, observed, result))
  {
    match result
    case ThreadCreated(thread) =>
      TrackFrame(hub, machineID, thread.(lastActivityAt := Latest(thread.lastActivityAt, timestamp)));
    case ThreadResumed(thread) => TrackFrame(hub, machineID, thread);
    case ThreadArchived(threadID) => RemoveFrame(hub, machineID, threadID);
    case SkillSet(skillID, enabled) =>
      EnvironmentFrame(hub, machineID, SkillResource(machineID, skillID, enabled, observed), PLUGIN, []);
    case PluginUninstalled(pluginID) =>
      EnvironmentFrame(hub, machineID, SkillResource(machineID, [], false, observed), PLUGIN, pluginID);
    case OtherResult =>
  }

  lemma MarkUnknownFrame(hub: Hub, machineID: Bytes)
    ensures SameTables(hub, hub.MarkUnknown(machineID))
  {
    if machineID in hub.snapshots {
      StoreFrame(hub, machineID, hub.snapshots[machineID].(threads := MarkedUnknown(hub.snapshots[machineID].threads)));
    }
  }

  lemma CleanupFrame(hub: Hub, machineID: Bytes)
    ensures hub.Cleanup(machineID).clients == hub.clients
    ensures hub.Cleanup(machineID).registered == hub.registered
    ensures hub.Cleanup(machineID).approvals == hub.approvals
    ensures hub.Cleanup(machineID).registry.approvals == hub.registry.approvals
    ensures hub.Cleanup(machineID).registry.timeline == hub.registry.timeline
  {
    MarkUnknownFrame(hub, machineID);
    assert hub.registry.MarkOffline(machineID).approvals == hub.registry.approvals;
    assert hub.registry.MarkOffline(machineID).timeline == hub.registry.timeline;
  }

  lemma RequireKeepsApprovals(hub: Hub, machineID: Bytes, payload: Approval)
    requires ApprovalsAgree(hub)
    ensures ApprovalsAgree(hub.RequireApproval(machineID, payload))
  {
    PutKeepsApprovals(hub.approvals, hub.registry.approvals, machineID, payload);
  }

  lemma ResolveKeepsApprovals(hub: Hub, requestID: Bytes)
    requires ApprovalsAgree(hub)
    ensures ApprovalsAgree(hub.ResolveApproval(requestID))
  {
    DropKeepsApprovals(hub.approvals, hub.registry.approvals, requestID);
  }

  lemma ApplyTimelineKeepsApprovals(hub: Hub, envelope: Envelope)
    requires ApprovalsAgree(hub)
    ensures ApprovalsAgree(hub.ApplyTimeline(envelope))
  {
    if envelope.event.TimelineEventEvent? {
      var event := envelope.event.event;
      var logged := hub.(registry := hub.registry.AppendTimelineEvent(event));
      assert ApprovalsAgree(logged);
      if event.approval.Some? {
        var requestID := event.approval.value.requestID;
        RequireKeepsApprovals(logged, envelope.machineID,
          Approval(requestID, event.threadID, event.turnID, event.itemID, event.approval.value.kind));
        ResolveKeepsApprovals(logged, requestID);
      }
    }
  }

  lemma HandleEventKeepsApprovals(hub: Hub, conn: Conn, envelope: Envelope, observed: Bytes, now: int)
    requires ApprovalsAgree(hub)
    ensures ApprovalsAgree(hub.HandleEvent(conn, envelope, observed, now))
  {
    if hub.IsOwner(conn, envelope.machineID) {
      var normal := Normalized(envelope);
      var turned := hub.ApplyTurn(normal, now);
      ApplyTurnFrame(hub, normal, now);
      ApplyTimelineKeepsApprovals(turned, normal);
      var logged := turned.ApplyTimeline(normal);
      match normal.event
      case CommandCompletedEvent(result) =>
        ApplyCompletedFrame(logged, normal.machineID, normal.timestamp, observed, result);
      case ApprovalRequiredEvent(payload) => RequireKeepsApprovals(logged, normal.machineID, payload);
      case ApprovalResolvedEvent(payload) => ResolveKeepsApprovals(logged, payload.requestID);
      case _ =>
    }
  }

  lemma ReleaseFrame(hub: Hub, conn: Conn, machineID: Bytes)
    ensures var next := hub.Release(conn, machineID);
            && next.registered == hub.registered
            && next.approvals == hub.approvals && next.registry.approvals == hub.registry.approvals
            && next.registry.timeline == hub.registry.timeline
            && next.clients == (if conn in hub.registered && hub.registered[conn] != machineID
                && hub.IsOwner(conn, hub.registered[conn])
                                then hub.clients - {hub.registered[conn]} else hub.clients)
  {
    if conn in hub.registered {
      CleanupFrame(hub.(clients := hub.clients - {hub.registered[conn]}), hub.registered[conn]);
    }
  }

  lemma DisconnectFrame(hub: Hub, conn: Conn)
    ensures var next := hub.Disconnect(conn);
            && next.registered == hub.registered - {conn}
            && next.approvals == hub.approvals && next.registry.approvals == hub.registry.approvals
            && next.registry.timeline == hub.registry.timeline
            && next.clients == (if conn in hub.registered && hub.IsOwner(conn, hub.registered[conn])
                                then hub.clients - {hub.registered[conn]} else hub.clients)
  {
    if conn in hub.registered {
      CleanupFrame(hub.(registered := hub.registered - {conn}, clients := hub.clients - {hub.registered[conn]}),
        hub.registered[conn]);
    }
  }

  lemma StepKeepsApprovals(hub: Hub, step: Step)
    requires ApprovalsAgree(hub)
    ensures ApprovalsAgree(Apply(hub, step))
  {
    match step
    case Register(conn, machineID, name) => ReleaseFrame(hub, conn, machineID);
    case Disconnect(conn) => DisconnectFrame(hub, conn);
    case HandleEvent(conn, envelope, observed, now) => HandleEventKeepsApprovals(hub, conn, envelope, observed, now);
    case ApprovalAnswered(requestID) => ResolveKeepsApprovals(hub, requestID);
    case _ =>
  }

  /** In every run the hub's approval routes and the registry's pending approvals have the same
      request identifiers with the same owning machines, in whatever form an approval arrives and
      whoever resolves it. */
  lemma {:induction false} ApprovalTablesAgreeInEveryRun(steps: seq<Step>)
    ensures ApprovalsAgree(Run(EMPTY_HUB, steps))
  {
    if steps != [] {
      ApprovalTablesAgreeInEveryRun(steps[..|steps| - 1]);
      StepKeepsApprovals(Run(EMPTY_HUB, steps[..|steps| - 1]), steps[|steps| - 1]);
    }
  }

  // ----- connection ownership -----

  /** A machine's owner is a live connection, and the machine is the one it last registered. */
  predicate OwnersRegistered(hub: Hub) {
    OwnTheirLast(hub.clients, hub.registered)
  }

  predicate OwnTheirLast(clients: map<Bytes, Conn>, registered: map<Conn, Bytes>) {
    && (forall m <- clients :: clients[m] in registered && registered[clients[m]] == m)
    && (forall conn <- registered :: registered[conn] != [])
  }

  lemma EnrollKeepsOwners(clients: map<Bytes, Conn>, registered: map<Conn, Bytes>, conn: Conn, machineID: Bytes)
    requires OwnTheirLast(clients, registered) && machineID != []
    requires forall m <- clients :: clients[m] == conn ==> m == machineID
    ensures OwnTheirLast(clients[machineID := conn], registered[conn := machineID])
  {
  }

  lemma HandleEventKeepsOwners(hub: Hub, conn: Conn, envelope: Envelope, observed: Bytes, now: int)
    ensures var next := hub.HandleEvent(conn, envelope, observed, now);
            next.clients == hub.clients && next.registered == hub.registered
  {
    if hub.IsOwner(conn, envelope.machineID) {
      var normal := Normalized(envelope);
      var turned := hub.ApplyTurn(normal, now);
      ApplyTurnFrame(hub, normal, now);
      ApplyTimelineIsQuiet(turned, normal);
      if normal.event.CommandCompletedEvent? {
        ApplyCompletedFrame(turned.ApplyTimeline(normal), normal.machineID, normal.timestamp, observed,
            normal.event.result);
      }
    }
  }

  lemma ReleaseKeepsOwners(hub: Hub, conn: Conn, machineID: Bytes)
    requires OwnersRegistered(hub)
    ensures OwnersRegistered(hub.Release(conn, machineID))
    ensures forall m <- hub.Release(conn, machineID).clients :: hub.Release(conn, machineID).clients[m] == conn ==>
        m == machineID
  {
    ReleaseFrame(hub, conn, machineID);
  }

  lemma RegisterKeepsOwners(hub: Hub, conn: Conn, machineID: Bytes, name: Bytes)
    requires OwnersRegistered(hub)
    ensures OwnersRegistered(hub.Register(conn, machineID, name))
  {
    if machineID != [] {
      ReleaseKeepsOwners(hub, conn, machineID);
      var released := hub.Release(conn, machineID);
      EnrollKeepsOwners(released.clients, released.registered, conn, machineID);
    }
  }

  lemma DisconnectKeepsOwners(hub: Hub, conn: Conn)
    requires OwnersRegistered(hub)
    ensures OwnersRegistered(hub.Disconnect(conn))
  {
    DisconnectFrame(hub, conn);
  }

  lemma SnapshotKeepsOwners(hub: Hub, step: Step)
    requires !step.Register? && !step.Disconnect? && !step.HandleEvent?
    ensures Apply(hub, step).clients == hub.clients && Apply(hub, step).registered == hub.registered
  {
  }

  lemma StepKeepsOwners(hub: Hub, step: Step)
    requires OwnersRegistered(hub)
    ensures OwnersRegistered(Apply(hub, step))
  {
    match step
    case Register(conn, machineID, name) => RegisterKeepsOwners(hub, conn, machineID, name);
    case Disconnect(conn) => DisconnectKeepsOwners(hub, conn);
    case HandleEvent(conn, envelope, observed, now) => HandleEventKeepsOwners(hub, conn, envelope, observed, now);
    case _ => SnapshotKeepsOwners(hub, step);
  }

  /** In every run each live connection owns at most one machine, the one it last registered. */
  lemma {:induction false} OneMachinePerConnection(steps: seq<Step>, m1: Bytes, m2: Bytes)
    ensures OwnersRegistered(Run(EMPTY_HUB, steps))
    ensures var hub := Run(EMPTY_HUB, steps);
            m1 in hub.clients && m2 in hub.clients && hub.clients[m1] == hub.clients[m2] ==> m1 == m2
  {
    if steps != [] {
      OneMachinePerConnection(steps[..|steps| - 1], m1, m2);
      StepKeepsOwners(Run(EMPTY_HUB, steps[..|steps| - 1]), steps[|steps| - 1]);
    }
  }

  /** A superseded connection disconnects without a trace in the hub or its stores. */
  lemma SupersededDisconnectChangesNothing(hub: Hub, conn: Conn)
    requires OwnersRegistered(hub)
    requires forall m <- hub.clients :: hub.clients[m] != conn
    ensures hub.Disconnect(conn) == hub.(registered := hub.registered - {conn})
  {
  }

  /** Everything the hub and its stores hold for one machine. */
  predicate SameFor(before: Hub, after: Hub, machineID: Bytes) {
    && after.Snapshot(machineID) == before.Snapshot(machineID)
    && after.index.Threads(machineID) == before.index.Threads(machineID)
    && after.index.Environment(machineID) == before.index.Environment(machineID)
    && (machineID in after.registry.machines <==> machineID in before.registry.machines)
    && (machineID in before.registry.machines ==>
        after.registry.machines[machineID] == before.registry.machines[machineID])
  }

  lemma StoreIsConfined(hub: Hub, machineID: Bytes, state: MachineState, other: Bytes)
    requires other != machineID
    ensures hub.Store(machineID, state).Snapshot(other) == hub.Snapshot(other)
    ensures hub.Store(machineID, state).index.Threads(other) == hub.index.Threads(other)
    ensures hub.Store(machineID, state).index.Environment(other) == hub.index.Environment(other)
  {
  }

  lemma MarkUnknownIsConfined(hub: Hub, machineID: Bytes, other: Bytes)
    requires other != machineID
    ensures hub.MarkUnknown(machineID).Snapshot(other) == hub.Snapshot(other)
    ensures hub.MarkUnknown(machineID).index.Threads(other) == hub.index.Threads(other)
    ensures hub.MarkUnknown(machineID).index.Environment(other) == hub.index.Environment(other)
  {
    if machineID in hub.snapshots {
      StoreIsConfined(hub, machineID,
        hub.snapshots[machineID].(threads := MarkedUnknown(hub.snapshots[machineID].threads)), other);
    }
  }

  lemma CleanupIsConfined(hub: Hub, machineID: Bytes, other: Bytes)
    requires machineID != [] && other != machineID
    ensures SameFor(hub, hub.Cleanup(machineID), other)
  {
    MarkUnknownIsConfined(hub, machineID, other);
  }

  /** The threads of a machine that has gone: all unknown, and otherwise as they were. */
  predicate AllUnknown(before: seq<Thread>, after: seq<Thread>) {
    |after| == |before| && forall i :: 0 <= i < |before| ==> after[i] == before[i].(status := Unknown)
  }

  /** A machine that has gone, if it was known: offline, nothing known of its runtime, each of its
      agents stopped, and otherwise as it was. */
  predicate WentOffline(before: map<Bytes, Machine>, after: map<Bytes, Machine>, machineID: Bytes) {
    && after.Keys == before.Keys
    && (machineID in before ==>
          && after[machineID] == before[machineID].(
               status := Offline, runtimeStatus := RuntimeUnknown, agents := after[machineID].agents)
          && |after[machineID].agents| == |before[machineID].agents|
          && forall i :: 0 <= i < |before[machineID].agents| ==>
               after[machineID].agents[i] == before[machineID].agents[i].(status := Stopped))
  }

  lemma CleanupMarksItsMachine(hub: Hub, machineID: Bytes)
    requires machineID != []
    ensures var next := hub.Cleanup(machineID);
      && AllUnknown(hub.Snapshot(machineID).threads, next.Snapshot(machineID).threads)
      && next.Snapshot(machineID).environment == hub.Snapshot(machineID).environment
      && next.waiters == hub.waiters - hub.WaitersOf(machineID)
      && next.routes == WithoutMachine(hub.routes, machineID)
  {
  }

  lemma CleanupTakesOffline(hub: Hub, machineID: Bytes)
    requires machineID != []
    ensures WentOffline(hub.registry.machines, hub.Cleanup(machineID).registry.machines, machineID)
  {
  }

  /** An owner's disconnect ends exactly its machine's waiters and routes, marks exactly its threads
      unknown, in the hub and in the index, and takes the machine and its agents offline; every other
      machine keeps all it had. */
  lemma OwnerDisconnectIsConfined(hub: Hub, machineID: Bytes)
    requires Faithful(hub) && OwnersRegistered(hub) && machineID in hub.clients
    ensures var next := hub.Disconnect(hub.clients[machineID]);
      && next.clients == hub.clients - {machineID}
      && next.waiters == (map id | id in hub.waiters && hub.waiters[id] != machineID :: hub.waiters[id])
      && next.routes == (map id | id in hub.routes && hub.routes[id].machineID != machineID :: hub.routes[id])
      && AllUnknown(hub.Snapshot(machineID).threads, next.Snapshot(machineID).threads)
      && Copies(next.index.Threads(machineID), next.Snapshot(machineID).threads)
      && next.Snapshot(machineID).environment == hub.Snapshot(machineID).environment
      && WentOffline(hub.registry.machines, next.registry.machines, machineID)
      && next.approvals == hub.approvals
      && forall m :: m != machineID ==> SameFor(hub, next, m)
  {
    var conn := hub.clients[machineID];
    assert hub.registered[conn] == machineID;
    var left := hub.(registered := hub.registered - {conn}, clients := hub.clients - {machineID});
    var next := left.Cleanup(machineID);
    assert hub.Disconnect(conn) == next;
    DisconnectKeepsFaithful(hub, Disconnect(conn));
    assert MachineFaithful(next, machineID);
    CleanupFrame(left, machineID);
    CleanupMarksItsMachine(left, machineID);
    CleanupTakesOffline(left, machineID);
    forall m | m != machineID
      ensures SameFor(hub, next, m)
    {
      CleanupIsConfined(left, machineID, m);
    }
  }

  lemma GoneIsForgotten(registered: map<Conn, Bytes>, conn: Conn, machineID: Bytes)
    ensures (registered - {conn})[conn := machineID] == registered[conn := machineID]
  {
  }

  /** A connection that registers another machine does to the hub what it would do by disconnecting
      and registering anew. */
  lemma MovingIsLeaving(hub: Hub, conn: Conn, machineID: Bytes, name: Bytes)
    requires conn in hub.registered && hub.registered[conn] != machineID && machineID != []
    ensures hub.Register(conn, machineID, name) == hub.Disconnect(conn).Register(conn, machineID, name)
  {
    var previous := hub.registered[conn];
    GoneIsForgotten(hub.registered, conn, machineID);
    DisconnectFrame(hub, conn);
    ReleaseFrame(hub, conn, machineID);
    if hub.IsOwner(conn, previous) {
      var left := hub.(clients := hub.clients - {previous});
      CleanupForgets(left, conn, previous);
    }
  }

  /** What a machine leaves behind does not depend on who is connected. */
  lemma CleanupForgets(hub: Hub, conn: Conn, machineID: Bytes)
    ensures hub.(registered := hub.registered - {conn}).Cleanup(machineID)
         == hub.Cleanup(machineID).(registered := hub.registered - {conn})
  {
    var gone := hub.(registered := hub.registered - {conn});
    MarkUnknownForgets(hub, conn, machineID);
    assert gone.WaitersOf(machineID) == hub.WaitersOf(machineID);
  }

  lemma MarkUnknownForgets(hub: Hub, conn: Conn, machineID: Bytes)
    ensures hub.(registered := hub.registered - {conn}).MarkUnknown(machineID)
         == hub.MarkUnknown(machineID).(registered := hub.registered - {conn})
  {
    if machineID in hub.snapshots {
      var state := hub.snapshots[machineID];
      StoreForgets(hub, conn, machineID, state.(threads := MarkedUnknown(state.threads)));
    }
  }

  lemma StoreForgets(hub: Hub, conn: Conn, machineID: Bytes, state: MachineState)
    ensures hub.(registered := hub.registered - {conn}).Store(machineID, state)
         == hub.Store(machineID, state).(registered := hub.registered - {conn})
  {
  }

  // ----- router and index -----

  /** Right after a snapshot of a machine's threads, router and index route them alike. */
  lemma SnapshotRoutesAlike(hub: Hub, conn: Conn, machineID: Bytes, threads: seq<Thread>)
    requires hub.IsOwner(conn, machineID)
    requires forall i :: 0 <= i < |threads| ==> threads[i].machineID == [] || threads[i].machineID == machineID
    ensures var next := hub.ThreadSnapshot(conn, machineID, threads);
            IndexRoutes.RoutesTo(next.routes, machineID) == IndexRoutes.RoutesTo(next.index.routes, machineID)
  {
    var owned := Owned(threads, machineID);
    IndexRoutes.SnapshotRoutesAlike(hub.routes, hub.index.routes, machineID, owned,
      WithActivities(hub.Snapshot(machineID).threads, owned));
  }
}
