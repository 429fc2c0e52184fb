/** What the hub's tables hold after any run, read off the steps of the run alone: who owns a
    machine, which approvals are pending and for whom, and what a thread's timeline log holds. */
module HubHistory {
  import opened Text
  import opened Domain
  import opened Identifiers
  import opened ClientHub
  import opened HubAgreement
  import opened MachineRegistry
  import ActiveTurnRelay
  import RuntimeIndex

  // ----- who owns a machine -----

  predicate Registers(step: Step, conn: Conn, machineID: Bytes) {
    step.Register? && step.conn == conn && step.machineID == machineID
  }

  /** Another connection registers the machine, or this one another machine, or it disconnects. */
  predicate Unseats(step: Step, conn: Conn, machineID: Bytes) {
    match step
    case Register(other, id, _) => id != [] && (other == conn <==> id != machineID)
    case Disconnect(gone) => gone == conn
    case _ => false
  }

  /** The connection registered the machine, and nothing has unseated it since. */
  predicate Owns(steps: seq<Step>, conn: Conn, machineID: Bytes) {
    && machineID != []
    && exists k :: 0 <= k < |steps| && Registers(steps[k], conn, machineID)
         && forall j :: k < j < |steps| ==> !Unseats(steps[j], conn, machineID)
  }

  lemma OwnsOneMore(steps: seq<Step>, last: Step, conn: Conn, machineID: Bytes)
    requires machineID != []
    ensures Owns(steps + [last], conn, machineID)
       <==> Registers(last, conn, machineID) || (Owns(steps, conn, machineID) && !Unseats(last, conn, machineID))
  {
    var more, n := steps + [last], |steps|;
    if Registers(last, conn, machineID) {
      assert Registers(more[n], conn, machineID);
    }
    if Owns(steps, conn, machineID) && !Unseats(last, conn, machineID) {
      var k :| 0 <= k < n && Registers(steps[k], conn, machineID)
          && forall j :: k < j < n ==> !Unseats(steps[j], conn, machineID);
      assert Registers(more[k], conn, machineID);
    }
    if Owns(more, conn, machineID) && !Registers(last, conn, machineID) {
      var k :| 0 <= k <= n && Registers(more[k], conn, machineID)
          && forall j :: k < j <= n ==> !Unseats(more[j], conn, machineID);
      assert more[k] == steps[k];
      assert !Unseats(more[n], conn, machineID);
      forall j | k < j < n
        ensures !Unseats(steps[j], conn, machineID)
      {
        assert more[j] == steps[j];
      }
    }
  }

  lemma RegisterSeats(hub: Hub, step: Step, conn: Conn, machineID: Bytes)
    requires OwnersRegistered(hub) && machineID != [] && step.Register?
    ensures Apply(hub, step).IsOwner(conn, machineID)
       <==> Registers(step, conn, machineID) || (hub.IsOwner(conn, machineID) && !Unseats(step, conn, machineID))
  {
    ReleaseFrame(hub, step.conn, step.machineID);
    if step.machineID != [] {
      var released := hub.Release(step.conn, step.machineID);
      assert Apply(hub, step).clients == released.clients[step.machineID := step.conn];
      ReleaseSeats(hub, step.conn, step.machineID, conn, machineID);
    }
  }

  lemma ReleaseSeats(hub: Hub, other: Conn, id: Bytes, conn: Conn, machineID: Bytes)
    requires OwnersRegistered(hub)
    ensures hub.Release(other, id).IsOwner(conn, machineID)
       <==> hub.IsOwner(conn, machineID) && (conn == other ==> machineID == id)
  {
    ReleaseFrame(hub, other, id);
  }

  lemma DisconnectSeats(hub: Hub, step: Step, conn: Conn, machineID: Bytes)
    requires OwnersRegistered(hub) && machineID != [] && step.Disconnect?
    ensures Apply(hub, step).IsOwner(conn, machineID)
       <==> hub.IsOwner(conn, machineID) && !Unseats(step, conn, machineID)
  {
    DisconnectFrame(hub, step.conn);
  }

  lemma StepSeats(hub: Hub, step: Step, conn: Conn, machineID: Bytes)
    requires OwnersRegistered(hub) && machineID != []
    ensures Apply(hub, step).IsOwner(conn, machineID)
       <==> Registers(step, conn, machineID) || (hub.IsOwner(conn, machineID) && !Unseats(step, conn, machineID))
  {
    match step
    case Register(_, _, _) => RegisterSeats(hub, step, conn, machineID);
    case Disconnect(_) => DisconnectSeats(hub, step, conn, machineID);
    case HandleEvent(other, envelope, observed, now) => HandleEventKeepsOwners(hub, other, envelope, observed, now);
    case _ => SnapshotKeepsOwners(hub, step);
  }

  /** In every run a machine's owner is exactly the connection that registered it and that nothing has
      unseated since. */
  lemma {:induction false} OwnerIffSeated(steps: seq<Step>, conn: Conn, machineID: Bytes)
    ensures Run(EMPTY_HUB, steps).IsOwner(conn, machineID) <==> Owns(steps, conn, machineID)
  {
    if steps != [] && machineID != [] {
      var init, last := steps[..|steps| - 1], steps[|steps| - 1];
      OwnerIffSeated(init, conn, machineID);
      OneMachinePerConnection(init, [], []);
      StepSeats(Run(EMPTY_HUB, init), last, conn, machineID);
      OwnsOneMore(init, last, conn, machineID);
      assert init + [last] == steps;
    }
  }

  // ----- which approvals are pending -----

  /** What an event or an answer says of one approval: its key, and what is asked for if it opens. */
  datatype Naming = Naming(key: Bytes, pending: Option<StoredApproval>)

  /** The key an approval event of the older form names. Only a blank text is not turned into a key:
      it stands for itself, if the envelope bears another. */
  function LegacyKey(envelope: Envelope, payload: Approval): Bytes {
    var key := ApprovalKey(envelope.machineID,
      if payload.requestID == [] then envelope.requestID else payload.requestID);
    if key == [] && envelope.requestID != [] then payload.requestID else key
  }

  function LegacyNaming(envelope: Envelope): Option<Naming>
    requires envelope.event.ApprovalRequiredEvent? || envelope.event.ApprovalResolvedEvent?
  {
    var payload := envelope.event.payload;
    var key := LegacyKey(envelope, payload);
    if key == [] then None
    else if envelope.event.ApprovalResolvedEvent? then Some(Naming(key, None))
    else Some(Naming(key, Some(StoredApproval(envelope.machineID,
      Approval(key, payload.threadID, payload.turnID, payload.itemID, payload.kind)))))
  }

  function TimelineNaming(machineID: Bytes, event: TimelineEvent): Option<Naming> {
    if event.approval.None? || event.eventType !in {ApprovalRequested, ApprovalResolved} then None
    else
      var key := ApprovalKey(machineID, event.approval.value.requestID);
      if key == [] then None
      else if event.eventType == ApprovalResolved then Some(Naming(key, None))
      else Some(Naming(key, Some(StoredApproval(machineID,
        Approval(key, event.threadID, event.turnID, event.itemID, event.approval.value.kind)))))
  }

  /** What an event names, in either form. */
  function NamedBy(envelope: Envelope): Option<Naming> {
    match envelope.event
    case ApprovalRequiredEvent(_) => LegacyNaming(envelope)
    case ApprovalResolvedEvent(_) => LegacyNaming(envelope)
    case TimelineEventEvent(event) => TimelineNaming(envelope.machineID, event)
    case _ => None
  }

  /** What a step names after the steps before it: an event counts if it comes from the owner. */
  function NamedAt(before: seq<Step>, step: Step): Option<Naming> {
    match step
    case HandleEvent(conn, envelope, _, _) =>
      if Owns(before, conn, envelope.machineID) then NamedBy(envelope) else None
    case ApprovalAnswered(requestID) => if Blank(requestID) then None else Some(Naming(requestID, None))
    case _ => None
  }

  function LastNaming(steps: seq<Step>, key: Bytes): Option<Naming> {
    if steps == [] then None
    else
      var init, last := steps[..|steps| - 1], steps[|steps| - 1];
      var naming := NamedAt(init, last);
      if naming.Some? && naming.value.key == key then naming else LastNaming(init, key)
  }

  /** The tables are as before but for the key that was named, which is now pending or not. */
  predicate LeavesApprovals(before: Hub, after: Hub, naming: Option<Naming>) {
    match naming
    case None => after.approvals == before.approvals && after.registry.approvals == before.registry.approvals
    case Some(Naming(key, None)) =>
      && after.approvals == before.approvals - {key}
      && after.registry.approvals == before.registry.approvals - {key}
    case Some(Naming(key, Some(stored))) =>
      && after.approvals == before.approvals[key := stored.machineID]
      && after.registry.approvals == before.registry.approvals[key := stored]
  }

  lemma RequireLeaves(hub: Hub, machineID: Bytes, payload: Approval)
    requires payload.requestID != []
    ensures LeavesApprovals(hub, hub.RequireApproval(machineID, payload),
        Some(Naming(payload.requestID, Some(StoredApproval(machineID, payload)))))
  {
  }

  lemma ResolveLeaves(hub: Hub, requestID: Bytes)
    requires requestID != []
    ensures LeavesApprovals(hub, hub.ResolveApproval(requestID), Some(Naming(requestID, None)))
  {
  }

  /** A timeline event as the hub takes it: its machine filled in, its approval under its key. */
  function Filed(machineID: Bytes, event: TimelineEvent): TimelineEvent {
    event.(
      machineID := if event.machineID == [] then machineID else event.machineID,
      approval := if event.approval.None? then None
                  else Some(event.approval.value.(
                    requestID := ApprovalKey(machineID, event.approval.value.requestID))))
  }

  lemma TimelineIsNormal(envelope: Envelope)
    requires envelope.event.TimelineEventEvent?
    ensures Normalized(envelope).machineID == envelope.machineID
    ensures Normalized(envelope).event == TimelineEventEvent(Filed(envelope.machineID, envelope.event.event))
  {
  }

  lemma TimelineLeaves(hub: Hub, normal: Envelope, event: TimelineEvent)
    requires normal.event == TimelineEventEvent(Filed(normal.machineID, event))
    ensures LeavesApprovals(hub, hub.ApplyTimeline(normal), TimelineNaming(normal.machineID, event))
  {
    var filed := Filed(normal.machineID, event);
    var logged := hub.(registry := hub.registry.AppendTimelineEvent(filed));
    if filed.approval.Some? && filed.approval.value.requestID != [] {
      var approval := filed.approval.value;
      RequireLeaves(logged, normal.machineID,
        Approval(approval.requestID, filed.threadID, filed.turnID, filed.itemID, approval.kind));
      ResolveLeaves(logged, approval.requestID);
    }
  }

  lemma LegacyIsNormal(envelope: Envelope)
    requires envelope.event.ApprovalRequiredEvent? || envelope.event.ApprovalResolvedEvent?
    ensures var normal := Normalized(envelope);
      && normal.machineID == envelope.machineID
      && normal.event.ApprovalRequiredEvent? == envelope.event.ApprovalRequiredEvent?
      && normal.event.ApprovalResolvedEvent? == envelope.event.ApprovalResolvedEvent?
      && (if LegacyKey(envelope, envelope.event.payload) == []
          then normal.requestID == [] || normal.event.payload.requestID == []
          else
            && normal.requestID != []
            && normal.event.payload
                == envelope.event.payload.(requestID := LegacyKey(envelope, envelope.event.payload)))
  {
  }

  lemma LegacyLeaves(hub: Hub, envelope: Envelope, observed: Bytes, now: int)
    requires envelope.event.ApprovalRequiredEvent? || envelope.event.ApprovalResolvedEvent?
    ensures LeavesApprovals(hub, hub.HandleNormal(Normalized(envelope), observed, now), NamedBy(envelope))
  {
    LegacyIsNormal(envelope);
    assert hub.ApplyTurn(Normalized(envelope), now).ApplyTimeline(Normalized(envelope)) == hub;
  }

  lemma OtherLeaves(hub: Hub, normal: Envelope, observed: Bytes, now: int)
    requires !normal.event.ApprovalRequiredEvent? && !normal.event.ApprovalResolvedEvent?
    ensures LeavesApprovals(hub.ApplyTurn(normal, now).ApplyTimeline(normal),
        hub.HandleNormal(normal, observed, now), None)
  {
    var logged := hub.ApplyTurn(normal, now).ApplyTimeline(normal);
    if normal.event.CommandCompletedEvent? {
      ApplyCompletedFrame(logged, normal.machineID, normal.timestamp, observed, normal.event.result);
    }
  }

  /** An event of the owner leaves the key it names as it says, and every other key as it was. */
  lemma EventLeaves(hub: Hub, conn: Conn, envelope: Envelope, observed: Bytes, now: int)
    requires hub.IsOwner(conn, envelope.machineID)
    ensures LeavesApprovals(hub, hub.HandleEvent(conn, envelope, observed, now), NamedBy(envelope))
  {
    var normal := Normalized(envelope);
    if envelope.event.ApprovalRequiredEvent? || envelope.event.ApprovalResolvedEvent? {
      LegacyLeaves(hub, envelope, observed, now);
    } else {
      ApplyTurnFrame(hub, normal, now);
      OtherLeaves(hub, normal, observed, now);
      if envelope.event.TimelineEventEvent? {
        TimelineIsNormal(envelope);
        TimelineLeaves(hub.ApplyTurn(normal, now), normal, envelope.event.event);
      }
    }
  }

  predicate SameApprovalsAndLog(before: Hub, after: Hub) {
    && after.approvals == before.approvals && after.registry.approvals == before.registry.approvals
    && after.registry.timeline == before.registry.timeline
  }

  /** Only events and answers touch approvals and log. */
  lemma OtherStepsKeepTables(hub: Hub, step: Step)
    requires !step.HandleEvent? && !step.ApprovalAnswered?
    ensures SameApprovalsAndLog(hub, Apply(hub, step))
  {
    match step
    case Register(conn, machineID, name) => RegisterKeepsTables(hub, conn, machineID, name);
    case Disconnect(conn) => DisconnectFrame(hub, conn);
    case ThreadSnapshot(conn, machineID, threads) => ThreadSnapshotKeepsTables(hub, conn, machineID, threads);
    case EnvironmentSnapshot(conn, machineID, environment) =>
      EnvironmentSnapshotKeepsTables(hub, conn, machineID, environment);
    case MachineSnapshot(conn, machineID, machine) => MachineSnapshotKeepsTables(hub, conn, machineID, machine);
    case _ =>
  }

  lemma RegisterKeepsTables(hub: Hub, conn: Conn, machineID: Bytes, name: Bytes)
    ensures SameApprovalsAndLog(hub, hub.Register(conn, machineID, name))
  {
    ReleaseFrame(hub, conn, machineID);
    EnrollKeepsTables(hub.Release(conn, machineID), conn, machineID, name);
  }

  lemma EnrollKeepsTables(hub: Hub, conn: Conn, machineID: Bytes, name: Bytes)
    ensures SameApprovalsAndLog(hub, hub.Enroll(conn, machineID, name))
  {
  }

  lemma ThreadSnapshotKeepsTables(hub: Hub, conn: Conn, machineID: Bytes, threads: seq<Thread>)
    ensures SameApprovalsAndLog(hub, hub.ThreadSnapshot(conn, machineID, threads))
  {
  }

  lemma EnvironmentSnapshotKeepsTables(hub: Hub, conn: Conn, machineID: Bytes, environment: seq<EnvironmentResource>)
    ensures SameApprovalsAndLog(hub, hub.EnvironmentSnapshot(conn, machineID, environment))
  {
  }

  lemma MachineSnapshotKeepsTables(hub: Hub, conn: Conn, machineID: Bytes, machine: Machine)
    ensures SameApprovalsAndLog(hub, hub.MachineSnapshot(conn, machineID, machine))
  {
  }

  lemma StepLeaves(before: seq<Step>, step: Step)
    ensures LeavesApprovals(Run(EMPTY_HUB, before), Apply(Run(EMPTY_HUB, before), step), NamedAt(before, step))
  {
    var hub := Run(EMPTY_HUB, before);
    match step
    case HandleEvent(conn, envelope, observed, now) =>
      OwnerIffSeated(before, conn, envelope.machineID);
      if hub.IsOwner(conn, envelope.machineID) {
        EventLeaves(hub, conn, envelope, observed, now);
      }
    case ApprovalAnswered(requestID) =>
      if !Blank(requestID) {
        ResolveLeaves(hub, requestID);
      }
    case _ => OtherStepsKeepTables(hub, step);
  }

  /** In every run an approval is pending, with the hub and in the registry alike, exactly if the last
      event accepted from an owner or answer over HTTP that named its key opened it; it is then
      pending for that event's machine, thread, turn, item and kind. */
  lemma {:induction false} PendingIffLastOpened(steps: seq<Step>, key: Bytes)
    ensures var hub, last := Run(EMPTY_HUB, steps), LastNaming(steps, key);
      if last.Some? && last.value.pending.Some? then
        && key in hub.approvals && hub.approvals[key] == last.value.pending.value.machineID
        && key in hub.registry.approvals && hub.registry.approvals[key] == last.value.pending.value
      else key !in hub.approvals && key !in hub.registry.approvals
  {
    if steps != [] {
      PendingIffLastOpened(steps[..|steps| - 1], key);
      StepLeaves(steps[..|steps| - 1], steps[|steps| - 1]);
    }
  }

  // ----- what a thread's log holds -----

  /** The event a step adds to the log of a thread, after the steps before it: one of that thread that
      has an identifier and comes from the owner, with its machine filled in and its approval under
      its key. */
  function LoggedAt(before: seq<Step>, step: Step, threadID: Bytes): Option<TimelineEvent> {
    match step
    case HandleEvent(conn, Envelope(machineID, _, _, TimelineEventEvent(event)), _, _) =>
      if event.threadID != threadID || threadID == [] || event.eventID == [] || !Owns(before, conn, machineID) then None
      else Some(Filed(machineID, event))
    case _ => None
  }

  function Logged(steps: seq<Step>, threadID: Bytes): seq<TimelineEvent> {
    if steps == [] then []
    else
      var init, last := steps[..|steps| - 1], steps[|steps| - 1];
      Logged(init, threadID) + match LoggedAt(init, last, threadID) case None => [] case Some(event) => [event]
  }

  predicate LeavesLog(before: Hub, after: Hub, threadID: Bytes, logged: Option<TimelineEvent>) {
    match logged
    case None => after.registry.Log(threadID) == before.registry.Log(threadID)
    case Some(event) => AreNewest(after.registry.Log(threadID), before.registry.Log(threadID) + [event])
  }

  lemma NewestOneMore(events: seq<TimelineEvent>, kept: seq<TimelineEvent>, last: TimelineEvent,
      next: seq<TimelineEvent>)
    requires AreNewest(kept, events) && AreNewest(next, kept + [last])
    ensures AreNewest(next, events + [last])
  {
  }

  lemma TimelineIsAppended(hub: Hub, normal: Envelope)
    requires normal.event.TimelineEventEvent?
    ensures hub.ApplyTimeline(normal).registry.timeline
         == hub.registry.AppendTimelineEvent(normal.event.event).timeline
  {
    var event := normal.event.event;
    var logged := hub.(registry := hub.registry.AppendTimelineEvent(event));
    if event.approval.Some? {
      ApprovalLogsNothing(logged, normal.machineID,
        Approval(event.approval.value.requestID, event.threadID, event.turnID, event.itemID,
            event.approval.value.kind));
    }
  }

  lemma TimelineEventLogs(hub: Hub, envelope: Envelope, observed: Bytes, now: int)
    requires envelope.event.TimelineEventEvent?
    ensures hub.HandleNormal(Normalized(envelope), observed, now).registry.timeline
         == hub.registry.AppendTimelineEvent(Filed(envelope.machineID, envelope.event.event)).timeline
  {
    var normal := Normalized(envelope);
    TimelineIsNormal(envelope);
    ApplyTurnFrame(hub, normal, now);
    TimelineIsAppended(hub.ApplyTurn(normal, now), normal);
  }

  lemma OtherEventLogs(hub: Hub, normal: Envelope, observed: Bytes, now: int)
    requires !normal.event.TimelineEventEvent?
    ensures hub.HandleNormal(normal, observed, now).registry.timeline == hub.registry.timeline
  {
    ApplyTurnFrame(hub, normal, now);
    var turned := hub.ApplyTurn(normal, now);
    assert turned.ApplyTimeline(normal) == turned;
    match normal.event
    case CommandCompletedEvent(result) =>
      ApplyCompletedFrame(turned, normal.machineID, normal.timestamp, observed, result);
    case ApprovalRequiredEvent(payload) => ApprovalLogsNothing(turned, normal.machineID, payload);
    case ApprovalResolvedEvent(payload) => ApprovalLogsNothing(turned, normal.machineID, payload);
    case _ =>
  }

  lemma ApprovalLogsNothing(hub: Hub, machineID: Bytes, payload: Approval)
    ensures hub.RequireApproval(machineID, payload).registry.timeline == hub.registry.timeline
    ensures hub.ResolveApproval(payload.requestID).registry.timeline == hub.registry.timeline
  {
  }

  lemma AppendedIsLogged(registry: Registry, event: TimelineEvent, threadID: Bytes)
    ensures var next := registry.AppendTimelineEvent(event);
      if event.threadID == threadID != [] && event.eventID != []
      then AreNewest(next.Log(threadID), registry.Log(threadID) + [event])
      else next.Log(threadID) == registry.Log(threadID)
  {
  }

  lemma EventLogs(before: seq<Step>, step: Step, threadID: Bytes)
    requires step.HandleEvent?
    ensures LeavesLog(Run(EMPTY_HUB, before), Apply(Run(EMPTY_HUB, before), step), threadID,
        LoggedAt(before, step, threadID))
  {
    var hub, envelope := Run(EMPTY_HUB, before), step.envelope;
    OwnerIffSeated(before, step.conn, envelope.machineID);
    if hub.IsOwner(step.conn, envelope.machineID) {
      if envelope.event.TimelineEventEvent? {
        TimelineEventLogs(hub, envelope, step.observed, step.now);
        AppendedIsLogged(hub.registry, Filed(envelope.machineID, envelope.event.event), threadID);
      } else {
        assert !Normalized(envelope).event.TimelineEventEvent?;
        OtherEventLogs(hub, Normalized(envelope), step.observed, step.now);
      }
    }
  }

  lemma StepLogs(before: seq<Step>, step: Step, threadID: Bytes)
    ensures LeavesLog(Run(EMPTY_HUB, before), Apply(Run(EMPTY_HUB, before), step), threadID,
        LoggedAt(before, step, threadID))
  {
    var hub := Run(EMPTY_HUB, before);
    match step
    case HandleEvent(_, _, _, _) => EventLogs(before, step, threadID);
    case ApprovalAnswered(requestID) => ApprovalLogsNothing(hub, [], Approval(requestID, [], [], [], []));
    case _ => OtherStepsKeepTables(hub, step);
  }

  /** In every run the log of a thread holds the newest 500 of the thread's timeline events accepted
      from an owner, in order of arrival. */
  lemma {:induction false} LogHoldsTheNewest(steps: seq<Step>, threadID: Bytes)
    ensures AreNewest(Run(EMPTY_HUB, steps).registry.Log(threadID), Logged(steps, threadID))
  {
    if steps != [] {
      var init, last := steps[..|steps| - 1], steps[|steps| - 1];
      LogHoldsTheNewest(init, threadID);
      StepLogs(init, last, threadID);
      var logged := LoggedAt(init, last, threadID);
      if logged.Some? {
        NewestOneMore(Logged(init, threadID), Run(EMPTY_HUB, init).registry.Log(threadID), logged.value,
          Run(EMPTY_HUB, steps).registry.Log(threadID));
      }
    }
  }

  // ----- which turn is active -----

  /** What an event of the owner makes of a thread's active turn: a start names it, an end takes it if
      it names that turn or none, and archiving the thread takes any. */
  function TurnAfter(envelope: Envelope, threadID: Bytes, active: Option<Bytes>): Option<Bytes> {
    match envelope.event
    case TurnStartedEvent(id, turnID) => if id == threadID && turnID != [] then Some(turnID) else active
    case TurnEndedEvent(id, turnID) => if id == threadID then Remaining(active, turnID) else active
    case TimelineEventEvent(event) =>
      if event.threadID != threadID then active
      else if event.eventType == TurnStarted && event.turnID != [] then Some(event.turnID)
      else if event.eventType in {TurnCompleted, TurnFailed} then Remaining(active, event.turnID)
      else active
    case CommandCompletedEvent(ThreadArchived(id)) =>
      if id == threadID && envelope.requestID != [] then None else active
    case _ => active
  }

  function Remaining(active: Option<Bytes>, turnID: Bytes): Option<Bytes> {
    if turnID == [] || active == Some(turnID) then None else active
  }

  function TurnOf(steps: seq<Step>, threadID: Bytes): Option<Bytes> {
    if steps == [] then None
    else
      var init, last := steps[..|steps| - 1], steps[|steps| - 1];
      var active := TurnOf(init, threadID);
      if last.HandleEvent? && Owns(init, last.conn, last.envelope.machineID)
      then TurnAfter(last.envelope, threadID, active) else active
  }

  function ActiveTurn(turns: map<Bytes, Bytes>, threadID: Bytes): Option<Bytes> {
    if threadID in turns then Some(turns[threadID]) else None
  }

  lemma FollowedLeavesTurn(turns: map<Bytes, Bytes>, envelope: Envelope, threadID: Bytes)
    requires threadID != [] && (envelope.event.CommandCompletedEvent? ==> envelope.requestID != [])
    ensures ActiveTurn(ActiveTurnRelay.After(turns, envelope.event), threadID)
         == TurnAfter(envelope, threadID, ActiveTurn(turns, threadID))
  {
  }

  lemma EventLeavesTurn(hub: Hub, conn: Conn, envelope: Envelope, observed: Bytes, now: int, threadID: Bytes)
    requires hub.IsOwner(conn, envelope.machineID) && threadID != []
    ensures ActiveTurn(hub.HandleEvent(conn, envelope, observed, now).activeTurns, threadID)
         == TurnAfter(envelope, threadID, ActiveTurn(hub.activeTurns, threadID))
  {
    if envelope.event.CommandCompletedEvent? && envelope.requestID == [] {
      CommandIsNotTimeline(hub, envelope, now);
    } else {
      ActiveTurnRelay.HubFollows(hub, conn, envelope, observed, now);
      FollowedLeavesTurn(hub.activeTurns, envelope, threadID);
    }
  }

  /** In every run a thread's active turn is what the events accepted from owners make of it, one after
      the other; no other step touches it. */
  lemma {:induction false} ActiveTurnFollowsEvents(steps: seq<Step>, threadID: Bytes)
    requires threadID != []
    ensures ActiveTurn(Run(EMPTY_HUB, steps).activeTurns, threadID) == TurnOf(steps, threadID)
  {
    if steps != [] {
      var init, last := steps[..|steps| - 1], steps[|steps| - 1];
      ActiveTurnFollowsEvents(init, threadID);
      var hub := Run(EMPTY_HUB, init);
      if last.HandleEvent? {
        OwnerIffSeated(init, last.conn, last.envelope.machineID);
        if hub.IsOwner(last.conn, last.envelope.machineID) {
          EventLeavesTurn(hub, last.conn, last.envelope, last.observed, last.now, threadID);
        }
      } else {
        OtherStepsKeepTurns(hub, last);
      }
    }
  }

  lemma OtherStepsKeepTurns(hub: Hub, step: Step)
    requires !step.HandleEvent?
    ensures Apply(hub, step).activeTurns == hub.activeTurns
  {
    match step
    case Register(conn, machineID, _) =>
      if conn in hub.registered {
        CleanupKeepsTurns(hub.(clients := hub.clients - {hub.registered[conn]}), hub.registered[conn]);
      }
    case Disconnect(conn) => DisconnectKeepsTurns(hub, conn);
    case ThreadSnapshot(conn, machineID, threads) => ThreadSnapshotKeepsTurns(hub, conn, machineID, threads);
    case _ =>
  }

  lemma CleanupKeepsTurns(hub: Hub, machineID: Bytes)
    ensures hub.Cleanup(machineID).activeTurns == hub.activeTurns
  {
    MarkUnknownKeepsTurns(hub, machineID);
  }

  lemma MarkUnknownKeepsTurns(hub: Hub, machineID: Bytes)
    ensures hub.MarkUnknown(machineID).activeTurns == hub.activeTurns
  {
    if machineID in hub.snapshots {
      var state := hub.snapshots[machineID];
      StoreKeepsTurns(hub, machineID, state.(threads := RuntimeIndex.MarkedUnknown(state.threads)));
    }
  }

  lemma StoreKeepsTurns(hub: Hub, machineID: Bytes, state: MachineState)
    ensures hub.Store(machineID, state).activeTurns == hub.activeTurns
  {
  }

  lemma DisconnectKeepsTurns(hub: Hub, conn: Conn)
    ensures hub.Disconnect(conn).activeTurns == hub.activeTurns
  {
    if conn in hub.registered {
      CleanupKeepsTurns(hub.(registered := hub.registered - {conn}, clients := hub.clients - {hub.registered[conn]}),
        hub.registered[conn]);
    }
  }

  lemma ThreadSnapshotKeepsTurns(hub: Hub, conn: Conn, machineID: Bytes, threads: seq<Thread>)
    ensures hub.ThreadSnapshot(conn, machineID, threads).activeTurns == hub.activeTurns
  {
  }
}
