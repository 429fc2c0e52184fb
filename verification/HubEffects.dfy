/** What one message of the machine's owner, or its disconnect, leaves in the hub's own list, the
    index, the router, the active turns and the registry, said of the message's own fields. */
module HubEffects {
  import opened Text
  import opened Activity
  import opened Domain
  import opened Routing
  import opened RuntimeIndex
  import opened ClientHub
  import opened HubAgreement
  import MachineRegistry

  /** `late` is the latest of `stamps`: not before any, and the same instant as one of them. */
  predicate IsLatest(late: Stamp, stamps: set<Stamp>) {
    && (forall stamp <- stamps :: NotAfter(stamp, late))
    && (exists stamp <- stamps :: Normalize(late) == Normalize(stamp))
  }

  lemma LatestIsLatest(a: Stamp, b: Stamp)
    ensures IsLatest(Latest(a, b), {a, b})
  {
    LatestIsLeastUpperBound(a, b, NO_STAMP);
    var late := Latest(a, b);
    assert Normalize(late) == Normalize(a) || Normalize(late) == Normalize(b);
    assert a in {a, b} && b in {a, b};
  }

  /** A field that was left blank is filled in. */
  function Filled(field: Bytes, default: Bytes): Bytes {
    if field == [] then default else field
  }

  // ----- snapshots -----

  /** The thread as it was sent, its owner filled in, with the later of its own activity and the one
      the list showed under its name. */
  predicate ShowsThread(before: seq<Thread>, sent: Thread, shown: Thread, machineID: Bytes) {
    && shown == sent.(machineID := Filled(sent.machineID, machineID), lastActivityAt := shown.lastActivityAt)
    && (!Lists(before, sent.threadID) || sent.threadID == [] ==> shown.lastActivityAt == sent.lastActivityAt)
    && forall k :: 0 <= k < |before| && before[k].threadID == sent.threadID != [] ==>
         IsLatest(shown.lastActivityAt, {before[k].lastActivityAt, sent.lastActivityAt})
  }

  lemma MergedShowsThread(before: seq<Thread>, sent: Thread, machineID: Bytes)
    requires WellFormed(before)
    ensures var owned := OwnedBy(sent, machineID);
            ShowsThread(before, sent, WithKnownActivity(ByThreadID(before), owned.threadID, owned), machineID)
  {
    ByThreadIDFinds(before, sent.threadID);
    assert Blank([]);
    forall k | 0 <= k < |before| && before[k].threadID == sent.threadID != []
      ensures sent.threadID in ByThreadID(before) && ByThreadID(before)[sent.threadID] == before[k]
    {
      KnowsItsThreads(before, k);
      LatestIsLatest(before[k].lastActivityAt, sent.lastActivityAt);
    }
  }

  lemma MergedShowsThreads(before: seq<Thread>, sent: seq<Thread>, machineID: Bytes)
    requires WellFormed(before)
    ensures forall i :: 0 <= i < |sent| ==>
        ShowsThread(before, sent[i], WithActivities(before, Owned(sent, machineID))[i], machineID)
  {
    forall i | 0 <= i < |sent|
      ensures ShowsThread(before, sent[i], WithActivities(before, Owned(sent, machineID))[i], machineID)
    {
      MergedShowsThread(before, sent[i], machineID);
    }
  }

  /** After an owner's snapshot the hub lists the threads that were sent, in their order, with their
      contents; the index lists the same; nothing else but the router has changed. */
  lemma SnapshotShows(hub: Hub, conn: Conn, machineID: Bytes, threads: seq<Thread>)
    requires Faithful(hub) && hub.IsOwner(conn, machineID)
    ensures var next := hub.ThreadSnapshot(conn, machineID, threads);
      var shown := next.Snapshot(machineID).threads;
      && |shown| == |threads|
      && (forall i :: 0 <= i < |threads| ==>
            ShowsThread(hub.Snapshot(machineID).threads, threads[i], shown[i], machineID))
      && next.Snapshot(machineID).environment == hub.Snapshot(machineID).environment
      && next.index.Environment(machineID) == hub.index.Environment(machineID)
      && (WellFormed(threads) ==> Copies(next.index.Threads(machineID), shown))
      && next.activeTurns == hub.activeTurns && SameTables(hub, next)
  {
    assert MachineFaithful(hub, machineID);
    MergedShowsThreads(hub.Snapshot(machineID).threads, threads, machineID);
    SnapshotIsCopied(hub, conn, machineID, threads);
    StoreFrame(hub, machineID, hub.Snapshot(machineID).(threads :=
      WithActivities(hub.Snapshot(machineID).threads, Owned(threads, machineID))));
  }

  lemma SnapshotIsCopied(hub: Hub, conn: Conn, machineID: Bytes, threads: seq<Thread>)
    requires Faithful(hub) && hub.IsOwner(conn, machineID)
    ensures var next := hub.ThreadSnapshot(conn, machineID, threads);
            WellFormed(threads) ==> Copies(next.index.Threads(machineID), next.Snapshot(machineID).threads)
  {
    if WellFormed(threads) {
      ThreadSnapshotKeepsFaithful(hub, ThreadSnapshot(conn, machineID, threads));
      assert MachineFaithful(hub.ThreadSnapshot(conn, machineID, threads), machineID);
    }
  }

  /** Where a table routes a name after an owner's snapshot: a listed one to the machine and agent of
      a thread that was sent under it, an unlisted one where it led before unless that was here. */
  predicate RoutesSnapshot(before: Routes, after: Routes, threads: seq<Thread>, machineID: Bytes, id: Bytes) {
    if id != [] && Lists(threads, id) then
      exists i :: 0 <= i < |threads| && threads[i].threadID == id && id in after
          && after[id] == ThreadRoute(Filled(threads[i].machineID, machineID), threads[i].agentID)
    else if id in before && before[id].machineID != machineID then id in after && after[id] == before[id]
    else id !in after
  }

  lemma SnapshotRoutes(hub: Hub, conn: Conn, machineID: Bytes, threads: seq<Thread>, id: Bytes)
    requires hub.IsOwner(conn, machineID)
    ensures RoutesSnapshot(hub.routes, hub.ThreadSnapshot(conn, machineID, threads).routes, threads, machineID, id)
  {
    var owned := Owned(threads, machineID);
    WithThreadsLooksUp(WithoutMachine(hub.routes, machineID), machineID, owned, id);
    var table := hub.ThreadSnapshot(conn, machineID, threads).routes;
    if id != [] && Lists(threads, id) {
      var k :| 0 <= k < |threads| && threads[k].threadID == id;
      assert owned[k].threadID == id;
      var i :| 0 <= i < |owned| && owned[i].threadID == id && id in table && table[id] == RouteOf(machineID, owned[i]);
      assert threads[i].threadID == id;
    } else {
      assert forall i :: 0 <= i < |owned| ==> owned[i].threadID == threads[i].threadID;
    }
  }

  /** After an owner's environment snapshot hub and index list the resources that were sent, in their
      order, with the owner filled in; the threads are the same. */
  lemma EnvironmentShows(hub: Hub, conn: Conn, machineID: Bytes, environment: seq<EnvironmentResource>)
    requires Faithful(hub) && hub.IsOwner(conn, machineID)
    ensures var next := hub.EnvironmentSnapshot(conn, machineID, environment);
      var shown := next.Snapshot(machineID).environment;
      && |shown| == |environment|
      && (forall i :: 0 <= i < |environment| ==>
            shown[i] == environment[i].(machineID := Filled(environment[i].machineID, machineID)))
      && next.index.Environment(machineID) == shown
      && next.Snapshot(machineID).threads == hub.Snapshot(machineID).threads
      && Copies(next.index.Threads(machineID), next.Snapshot(machineID).threads)
      && next.activeTurns == hub.activeTurns && next.routes == hub.routes && SameTables(hub, next)
  {
    assert MachineFaithful(hub, machineID);
    EnvironmentKeepsFaithful(hub, machineID, OwnedResources(environment, machineID));
    assert MachineFaithful(hub.EnvironmentSnapshot(conn, machineID, environment), machineID);
  }

  // ----- turns -----

  /** The instant of an event: its timestamp, or the hub's clock when that cannot be read. */
  function InstantOf(envelope: Envelope, now: int): Stamp {
    if envelope.timestamp.Readable? then envelope.timestamp else Readable(now, 0)
  }

  /** Either form of the event that starts a turn. */
  predicate StartsTurn(event: Event, threadID: Bytes, turnID: Bytes) {
    || event == TurnStartedEvent(threadID, turnID)
    || (event.TimelineEventEvent? && event.event.eventType == TurnStarted
        && event.event.threadID == threadID && event.event.turnID == turnID)
  }

  /** Either form of the event that ends one. */
  predicate EndsTurn(event: Event, threadID: Bytes, turnID: Bytes) {
    || event == TurnEndedEvent(threadID, turnID)
    || (event.TimelineEventEvent? && (event.event.eventType == TurnCompleted || event.event.eventType == TurnFailed)
        && event.event.threadID == threadID && event.event.turnID == turnID)
  }

  /** The one thread of this name has the new status and the later activity; the others are as they
      were. */
  predicate OnlyTouched(before: seq<Thread>, after: seq<Thread>, threadID: Bytes, status: ThreadStatus,
      activity: Stamp) {
    && |after| == |before|
    && forall i :: 0 <= i < |before| ==>
         if before[i].threadID != threadID then after[i] == before[i]
         else
           && after[i] == before[i].(status := status, lastActivityAt := after[i].lastActivityAt)
           && IsLatest(after[i].lastActivityAt, {before[i].lastActivityAt, activity})
  }

  lemma TouchedTouchesOnly(threads: seq<Thread>, threadID: Bytes, status: ThreadStatus, activity: Stamp)
    requires WellFormed(threads) && threadID != []
    ensures OnlyTouched(threads, Touched(threads, threadID, status, Normalize(activity)), threadID, status, activity)
  {
    var at := Find(threads, threadID);
    FindIsFirst(threads, threadID);
    forall i | 0 <= i < |threads| && threads[i].threadID == threadID
      ensures i == at
    {
    }
    if at < |threads| {
      LatestIsSemilattice(activity, threads[at].lastActivityAt, NO_STAMP);
      LatestIsSemilattice(threads[at].lastActivityAt, activity, NO_STAMP);
      LatestIsLatest(threads[at].lastActivityAt, activity);
    }
  }

  /** Whatever else an event of an owner does that answers no command, its turn half decides the
      lists, the index, the active turns and the router. */
  lemma TurnHalfDecides(hub: Hub, conn: Conn, envelope: Envelope, observed: Bytes, now: int)
    requires hub.IsOwner(conn, envelope.machineID) && !envelope.event.CommandCompletedEvent?
    ensures QuietStep(hub.ApplyTurn(Normalized(envelope), now), hub.HandleEvent(conn, envelope, observed, now))
  {
    NormalizedKeepsKind(envelope);
    ApplyTimelineIsQuiet(hub.ApplyTurn(Normalized(envelope), now), Normalized(envelope));
    OtherEventIsQuiet(hub, conn, envelope, observed, now);
  }

  lemma NormalizedKeepsTurns(envelope: Envelope, threadID: Bytes, turnID: Bytes)
    ensures Normalized(envelope).machineID == envelope.machineID
    ensures Normalized(envelope).timestamp == envelope.timestamp
    ensures StartsTurn(envelope.event, threadID, turnID) ==> StartsTurn(Normalized(envelope).event, threadID, turnID)
    ensures EndsTurn(envelope.event, threadID, turnID) ==> EndsTurn(Normalized(envelope).event, threadID, turnID)
  {
  }

  lemma StartSetsTurn(hub: Hub, normal: Envelope, now: int, threadID: Bytes, turnID: Bytes)
    requires StartsTurn(normal.event, threadID, turnID)
    ensures hub.ApplyTurn(normal, now)
         == hub.SetActiveTurn(normal.machineID, threadID, turnID, Normalize(InstantOf(normal, now)))
  {
  }

  lemma EndClearsTurn(hub: Hub, normal: Envelope, now: int, threadID: Bytes, turnID: Bytes)
    requires EndsTurn(normal.event, threadID, turnID)
    ensures hub.ApplyTurn(normal, now)
         == hub.ClearActiveTurn(normal.machineID, threadID, turnID, Normalize(InstantOf(normal, now)))
  {
  }

  /** A turn that starts is the thread's active turn, and its thread alone shows as active. */
  lemma TurnStartShows(hub: Hub, conn: Conn, envelope: Envelope, observed: Bytes, now: int, threadID: Bytes,
      turnID: Bytes)
    requires Faithful(hub) && hub.IsOwner(conn, envelope.machineID)
    requires StartsTurn(envelope.event, threadID, turnID) && threadID != [] && turnID != []
    ensures var next := hub.HandleEvent(conn, envelope, observed, now);
      && next.activeTurns == hub.activeTurns[threadID := turnID]
      && OnlyTouched(hub.Snapshot(envelope.machineID).threads, next.Snapshot(envelope.machineID).threads,
           threadID, Active, InstantOf(envelope, now))
      && Copies(next.index.Threads(envelope.machineID), next.Snapshot(envelope.machineID).threads)
      && next.Snapshot(envelope.machineID).environment == hub.Snapshot(envelope.machineID).environment
      && next.routes == hub.routes
  {
    var machineID, activity := envelope.machineID, InstantOf(envelope, now);
    assert MachineFaithful(hub, machineID);
    TurnHalfDecides(hub, conn, envelope, observed, now);
    NormalizedKeepsTurns(envelope, threadID, turnID);
    StartSetsTurn(hub, Normalized(envelope), now, threadID, turnID);
    TouchedTouchesOnly(hub.Snapshot(machineID).threads, threadID, Active, activity);
    SetTurnKeepsFaithful(hub, machineID, threadID, turnID, Normalize(activity));
    assert MachineFaithful(hub.SetActiveTurn(machineID, threadID, turnID, Normalize(activity)), machineID);
  }

  /** A turn that ends is no longer active, a different one stays, and its thread alone shows as
      idle. */
  lemma TurnEndShows(hub: Hub, conn: Conn, envelope: Envelope, observed: Bytes, now: int, threadID: Bytes,
      turnID: Bytes)
    requires Faithful(hub) && hub.IsOwner(conn, envelope.machineID)
    requires EndsTurn(envelope.event, threadID, turnID) && threadID != []
    ensures var next := hub.HandleEvent(conn, envelope, observed, now);
      && (threadID in next.activeTurns <==>
            threadID in hub.activeTurns && turnID != [] && hub.activeTurns[threadID] != turnID)
      && (threadID in next.activeTurns ==> next.activeTurns == hub.activeTurns)
      && next.activeTurns - {threadID} == hub.activeTurns - {threadID}
      && OnlyTouched(hub.Snapshot(envelope.machineID).threads, next.Snapshot(envelope.machineID).threads,
           threadID, Idle, InstantOf(envelope, now))
      && Copies(next.index.Threads(envelope.machineID), next.Snapshot(envelope.machineID).threads)
      && next.Snapshot(envelope.machineID).environment == hub.Snapshot(envelope.machineID).environment
      && next.routes == hub.routes
  {
    var machineID, activity := envelope.machineID, InstantOf(envelope, now);
    assert MachineFaithful(hub, machineID);
    TurnHalfDecides(hub, conn, envelope, observed, now);
    NormalizedKeepsTurns(envelope, threadID, turnID);
    EndClearsTurn(hub, Normalized(envelope), now, threadID, turnID);
    TouchedTouchesOnly(hub.Snapshot(machineID).threads, threadID, Idle, activity);
    ClearTurnKeepsFaithful(hub, machineID, threadID, turnID, Normalize(activity));
    assert MachineFaithful(hub.ClearActiveTurn(machineID, threadID, turnID, Normalize(activity)), machineID);
  }

  // ----- completed commands -----

  /** An answer to a command: accepted from the owner, under the command's request identifier. */
  predicate Answers(hub: Hub, conn: Conn, envelope: Envelope, result: CommandResult) {
    hub.IsOwner(conn, envelope.machineID) && envelope.requestID != []
        && envelope.event == CommandCompletedEvent(result)
  }

  lemma AnswerIsApplied(hub: Hub, conn: Conn, envelope: Envelope, observed: Bytes, now: int, result: CommandResult)
    requires Answers(hub, conn, envelope, result)
    ensures hub.HandleEvent(conn, envelope, observed, now)
         == hub.ApplyCompleted(envelope.machineID, envelope.timestamp, observed, result).Forget(envelope.requestID)
  {
    CommandIsNotTimeline(hub, envelope, now);
  }

  /** The activities that compete when a thread is listed: its own, and for a thread just created
      that of the answer. */
  function Activities(result: CommandResult, timestamp: Stamp): set<Stamp>
    requires result.ThreadCreated? || result.ThreadResumed?
  {
    if result.ThreadCreated? then {result.thread.lastActivityAt, timestamp} else {result.thread.lastActivityAt}
  }

  /** The thread in the place of its namesake, with the latest of the activities and the namesake's,
      or at the end if it has none; the other threads are as they were. */
  predicate OnlyListed(before: seq<Thread>, after: seq<Thread>, thread: Thread, machineID: Bytes,
      activities: set<Stamp>) {
    && |after| == (if Lists(before, thread.threadID) then |before| else |before| + 1)
    && forall i :: 0 <= i < |after| ==>
         if i < |before| && before[i].threadID != thread.threadID then after[i] == before[i]
         else
           && after[i] == thread.(machineID := Filled(thread.machineID, machineID),
                lastActivityAt := after[i].lastActivityAt)
           && IsLatest(after[i].lastActivityAt, activities +
                if i < |before| then {before[i].lastActivityAt} else {})
  }

  lemma LatestOfMore(stamps: set<Stamp>, late: Stamp, known: Stamp)
    requires IsLatest(late, stamps)
    ensures IsLatest(Latest(known, late), stamps + {known})
  {
    LatestIsLatest(known, late);
    var stamp :| stamp in stamps && Normalize(late) == Normalize(stamp);
    assert stamp in stamps + {known} && known in stamps + {known};
  }

  lemma UpsertedListsOnly(threads: seq<Thread>, thread: Thread, sent: Thread, machineID: Bytes, activities: set<Stamp>)
    requires WellFormed(threads) && sent.threadID != []
    requires thread == sent.(lastActivityAt := thread.lastActivityAt) && IsLatest(thread.lastActivityAt, activities)
    ensures OnlyListed(threads, Upserted(threads, OwnedBy(thread, machineID)), sent, machineID, activities)
  {
    var at := Find(threads, sent.threadID);
    FindIsFirst(threads, sent.threadID);
    if at < |threads| {
      assert Lists(threads, sent.threadID);
      LatestOfMore(activities, thread.lastActivityAt, threads[at].lastActivityAt);
      forall i | 0 <= i < |threads| && threads[i].threadID == sent.threadID
        ensures i == at
      {
      }
    } else {
      assert activities + {} == activities;
    }
  }

  /** Whichever entry of the list a look-up ends at, the route is that of the upserted thread. */
  lemma UpsertedIsRouted(routes: Routes, machineID: Bytes, threads: seq<Thread>, thread: Thread)
    requires WellFormed(threads) && Trimmed(thread.threadID) && thread.threadID != []
    ensures var table := Routing.Replaced(routes, machineID, Upserted(threads, thread));
            thread.threadID in table && table[thread.threadID] == RouteOf(machineID, thread)
  {
    var items, at := Upserted(threads, thread), Find(threads, thread.threadID);
    UpsertedIsFine(threads, thread);
    assert items[at].threadID == thread.threadID;
    WithThreadsLooksUp(WithoutMachine(routes, machineID), machineID, items, thread.threadID);
    var table := Routing.Replaced(routes, machineID, items);
    var i :| 0 <= i < |items| && items[i].threadID == thread.threadID
        && table[thread.threadID] == RouteOf(machineID, items[i]);
    assert i == at;
  }

  /** Hub and index list the thread, and router and index route it to its machine and agent. */
  predicate Serves(before: Hub, after: Hub, machineID: Bytes, thread: Thread, activities: set<Stamp>) {
    var route := ThreadRoute(Filled(thread.machineID, machineID), thread.agentID);
    && OnlyListed(before.Snapshot(machineID).threads, after.Snapshot(machineID).threads, thread, machineID, activities)
    && Copies(after.index.Threads(machineID), after.Snapshot(machineID).threads)
    && after.Snapshot(machineID).environment == before.Snapshot(machineID).environment
    && after.routes == before.routes[thread.threadID := route]
    && thread.threadID in after.index.routes && after.index.routes[thread.threadID] == route
    && after.activeTurns == before.activeTurns
  }

  lemma TrackServes(hub: Hub, machineID: Bytes, thread: Thread, sent: Thread, activities: set<Stamp>)
    requires Faithful(hub) && machineID != [] && sent.threadID != [] && Trimmed(sent.threadID)
    requires thread == sent.(lastActivityAt := thread.lastActivityAt) && IsLatest(thread.lastActivityAt, activities)
    ensures Serves(hub, hub.TrackThread(machineID, thread), machineID, sent, activities)
  {
    assert MachineFaithful(hub, machineID);
    UpsertedListsOnly(hub.Snapshot(machineID).threads, thread, sent, machineID, activities);
    UpsertedIsRouted(hub.index.routes, machineID, hub.Snapshot(machineID).threads, OwnedBy(thread, machineID));
    TrackKeepsFaithful(hub, machineID, thread);
    assert MachineFaithful(hub.TrackThread(machineID, thread), machineID);
  }

  /** A thread that is created or resumed is listed with its contents, by hub and index alike, and
      router and index both route it to its machine and agent. */
  lemma CreatedThreadIsServed(hub: Hub, conn: Conn, envelope: Envelope, observed: Bytes, now: int,
      result: CommandResult)
    requires Faithful(hub) && Answers(hub, conn, envelope, result)
    requires result.ThreadCreated? || result.ThreadResumed?
    requires result.thread.threadID != [] && Trimmed(result.thread.threadID)
    ensures Serves(hub, hub.HandleEvent(conn, envelope, observed, now), envelope.machineID, result.thread,
        Activities(result, envelope.timestamp))
  {
    var sent := result.thread;
    AnswerIsApplied(hub, conn, envelope, observed, now, result);
    var activities := Activities(result, envelope.timestamp);
    if result.ThreadCreated? {
      LatestIsLatest(sent.lastActivityAt, envelope.timestamp);
      TrackServes(hub, envelope.machineID,
        sent.(lastActivityAt := Latest(sent.lastActivityAt, envelope.timestamp)), sent, activities);
    } else {
      assert sent.lastActivityAt in activities;
      TrackServes(hub, envelope.machineID, sent, sent, activities);
    }
  }

  /** The list without the one thread of this name, if there was one. */
  predicate OnlyRemoved(before: seq<Thread>, after: seq<Thread>, threadID: Bytes) {
    if !Lists(before, threadID) then after == before
    else exists k :: 0 <= k < |before| && before[k].threadID == threadID && after == before[..k] + before[k + 1..]
  }

  lemma {:induction false} WithoutNone(threads: seq<Thread>, threadID: Bytes)
    requires forall i :: 0 <= i < |threads| ==> threads[i].threadID != threadID
    ensures Without(threads, threadID) == threads
  {
    if threads != [] {
      WithoutNone(threads[..|threads| - 1], threadID);
    }
  }

  lemma {:induction false} WithoutOne(threads: seq<Thread>, threadID: Bytes, k: nat)
    requires k < |threads|
    requires forall i :: 0 <= i < |threads| ==> (threads[i].threadID == threadID <==> i == k)
    ensures Without(threads, threadID) == threads[..k] + threads[k + 1..]
  {
    var n := |threads| - 1;
    if k == n {
      WithoutNone(threads[..n], threadID);
    } else {
      WithoutOne(threads[..n], threadID, k);
      assert threads[k + 1..] == threads[..n][k + 1..] + [threads[n]];
    }
  }

  lemma WithoutRemovesOnly(threads: seq<Thread>, threadID: Bytes)
    requires WellFormed(threads) && threadID != []
    ensures OnlyRemoved(threads, Without(threads, threadID), threadID)
  {
    if Lists(threads, threadID) {
      var k :| 0 <= k < |threads| && threads[k].threadID == threadID;
      WithoutOne(threads, threadID, k);
    } else {
      WithoutNone(threads, threadID);
    }
  }

  /** A thread that is archived is gone from its machine's list, in hub and index, and has no active
      turn; the index no longer routes it there, but the router does until the next snapshot. */
  lemma ArchivedThreadIsGone(hub: Hub, conn: Conn, envelope: Envelope, observed: Bytes, now: int, threadID: Bytes)
    requires Faithful(hub) && Answers(hub, conn, envelope, ThreadArchived(threadID)) && threadID != []
    ensures var next := hub.HandleEvent(conn, envelope, observed, now);
      && OnlyRemoved(hub.Snapshot(envelope.machineID).threads, next.Snapshot(envelope.machineID).threads, threadID)
      && Copies(next.index.Threads(envelope.machineID), next.Snapshot(envelope.machineID).threads)
      && next.Snapshot(envelope.machineID).environment == hub.Snapshot(envelope.machineID).environment
      && next.activeTurns == hub.activeTurns - {threadID}
      && (threadID in next.index.routes ==> next.index.routes[threadID].machineID != envelope.machineID)
      && next.routes == hub.routes
  {
    var machineID := envelope.machineID;
    assert MachineFaithful(hub, machineID);
    AnswerIsApplied(hub, conn, envelope, observed, now, ThreadArchived(threadID));
    var threads := hub.Snapshot(machineID).threads;
    var next := hub.RemoveThreadSnapshot(machineID, threadID);
    RemoveKeepsFaithful(hub, machineID, threadID);
    assert MachineFaithful(next, machineID);
    WithoutRemovesOnly(threads, threadID);
    forall i | 0 <= i < |Without(threads, threadID)|
      ensures Without(threads, threadID)[i].threadID != threadID
    {
      WithoutKeepsTheOthers(threads, threadID, Without(threads, threadID)[i]);
    }
    WithThreadsLooksUp(WithoutMachine(hub.index.routes, machineID), machineID, Without(threads, threadID), threadID);
  }

  // ----- resources -----

  predicate IsSkill(resource: EnvironmentResource, skillID: Bytes) {
    resource.kind == SKILL && resource.resourceID == skillID
  }

  /** The skill as it shows once it has been enabled or disabled: a new entry, or the one there was. */
  function ShownSkill(known: EnvironmentResource, machineID: Bytes, enabled: bool,
                      observed: Bytes): EnvironmentResource {
    known.(machineID := machineID, status := if enabled then ENABLED else DISABLED,
      lastObservedAt := Filled(observed, known.lastObservedAt))
  }

  function NewSkill(skillID: Bytes): EnvironmentResource {
    EnvironmentResource(skillID, [], [], SKILL, [], [], false, [], None)
  }

  /** The first entry of the skill changes, or one is added at the end; the others are as they were. */
  predicate OnlySkillSet(before: seq<EnvironmentResource>, after: seq<EnvironmentResource>, machineID: Bytes,
      skillID: Bytes, enabled: bool, observed: Bytes) {
    if exists resource <- before :: IsSkill(resource, skillID) then
      exists at: nat | at < |before| ::
        && IsSkill(before[at], skillID) && (forall j :: 0 <= j < at ==> !IsSkill(before[j], skillID))
        && after == before[at := ShownSkill(before[at], machineID, enabled, observed)]
    else after == before + [ShownSkill(NewSkill(skillID), machineID, enabled, observed)]
  }

  lemma UpsertedSetsOnly(items: seq<EnvironmentResource>, machineID: Bytes, skillID: Bytes, enabled: bool,
      observed: Bytes)
    requires machineID != []
    ensures OnlySkillSet(items, UpsertedResource(items, SkillResource(machineID, skillID, enabled, observed)),
        machineID, skillID, enabled, observed)
  {
    var resource := SkillResource(machineID, skillID, enabled, observed);
    FindResourceIsFirst(items, resource);
    assert forall item :: SameResource(item, resource) <==> IsSkill(item, skillID);
    var at := FindResource(items, resource);
    if at < |items| {
      assert MergedResource(items[at], resource) == ShownSkill(items[at], machineID, enabled, observed);
      assert items[at] in items;
    }
  }

  /** A skill that is enabled or disabled shows so in hub and index; nothing else changes. */
  lemma SkillSetShows(hub: Hub, conn: Conn, envelope: Envelope, observed: Bytes, now: int, skillID: Bytes,
      enabled: bool)
    requires Faithful(hub) && Answers(hub, conn, envelope, SkillSet(skillID, enabled)) && skillID != []
    ensures var next := hub.HandleEvent(conn, envelope, observed, now);
      && OnlySkillSet(hub.Snapshot(envelope.machineID).environment, next.Snapshot(envelope.machineID).environment,
           envelope.machineID, skillID, enabled, observed)
      && next.index.Environment(envelope.machineID) == next.Snapshot(envelope.machineID).environment
      && next.Snapshot(envelope.machineID).threads == hub.Snapshot(envelope.machineID).threads
      && next.activeTurns == hub.activeTurns && next.routes == hub.routes
  {
    AnswerIsApplied(hub, conn, envelope, observed, now, SkillSet(skillID, enabled));
    UpsertedSetsOnly(hub.Snapshot(envelope.machineID).environment, envelope.machineID, skillID, enabled, observed);
  }

  predicate IsPlugin(resource: EnvironmentResource, pluginID: Bytes) {
    resource.kind == PLUGIN && resource.resourceID == pluginID
  }

  /** Where the entries that stay were before: at ascending positions, and all that are not the
      plugin stay. */
  predicate KeptFrom(before: seq<EnvironmentResource>, after: seq<EnvironmentResource>, at: seq<nat>,
      pluginID: Bytes) {
    && |at| == |after|
    && (forall i, j :: 0 <= i < j < |at| ==> at[i] < at[j])
    && (forall i :: 0 <= i < |at| ==> at[i] < |before| && after[i] == before[at[i]])
    && (forall k :: 0 <= k < |before| ==> (k in at <==> !IsPlugin(before[k], pluginID)))
  }

  ghost predicate OnlyPluginRemoved(before: seq<EnvironmentResource>, after: seq<EnvironmentResource>,
      pluginID: Bytes) {
    exists at :: KeptFrom(before, after, at, pluginID)
  }

  lemma {:induction false} WithoutKeepsFrom(items: seq<EnvironmentResource>, pluginID: Bytes) returns (at: seq<nat>)
    ensures KeptFrom(items, WithoutResource(items, PLUGIN, pluginID), at, pluginID)
  {
    at := [];
    if items != [] {
      var n := |items| - 1;
      at := WithoutKeepsFrom(items[..n], pluginID);
      if !IsPlugin(items[n], pluginID) {
        at := at + [n];
      }
      assert forall k :: 0 <= k < n ==> items[..n][k] == items[k];
    }
  }

  /** A plugin that is uninstalled is gone from hub and index; the other resources stay in order. */
  lemma UninstalledPluginIsGone(hub: Hub, conn: Conn, envelope: Envelope, observed: Bytes, now: int, pluginID: Bytes)
    requires Faithful(hub) && Answers(hub, conn, envelope, PluginUninstalled(pluginID)) && pluginID != []
    ensures var next := hub.HandleEvent(conn, envelope, observed, now);
      && OnlyPluginRemoved(hub.Snapshot(envelope.machineID).environment,
           next.Snapshot(envelope.machineID).environment, pluginID)
      && next.index.Environment(envelope.machineID) == next.Snapshot(envelope.machineID).environment
      && next.Snapshot(envelope.machineID).threads == hub.Snapshot(envelope.machineID).threads
      && next.activeTurns == hub.activeTurns && next.routes == hub.routes
  {
    AnswerIsApplied(hub, conn, envelope, observed, now, PluginUninstalled(pluginID));
    var at := WithoutKeepsFrom(hub.Snapshot(envelope.machineID).environment, pluginID);
  }

  // ----- waiters -----

  predicate IsAnswer(event: Event) {
    event.CommandCompletedEvent? || event.CommandRejectedEvent?
  }

  lemma TimelineKeepsWaits(hub: Hub, normal: Envelope)
    ensures hub.ApplyTimeline(normal).waiters == hub.waiters
  {
    if normal.event.TimelineEventEvent? && normal.event.event.approval.Some? {
      var event := normal.event.event;
      var logged := hub.(registry := hub.registry.AppendTimelineEvent(event));
      assert logged.ResolveApproval(event.approval.value.requestID).waiters == hub.waiters;
    }
  }

  lemma OtherEventKeepsWaits(hub: Hub, normal: Envelope, observed: Bytes, now: int)
    requires !IsAnswer(normal.event)
    ensures hub.HandleNormal(normal, observed, now).waiters == hub.waiters
  {
    ApplyTurnFrame(hub, normal, now);
    TimelineKeepsWaits(hub.ApplyTurn(normal, now), normal);
    var logged := hub.ApplyTurn(normal, now).ApplyTimeline(normal);
    match normal.event
    case ApprovalRequiredEvent(payload) => ApprovalKeepsWaits(logged, normal.machineID, payload);
    case ApprovalResolvedEvent(payload) => ApprovalKeepsWaits(logged, normal.machineID, payload);
    case _ =>
  }

  lemma ApprovalKeepsWaits(hub: Hub, machineID: Bytes, payload: Approval)
    ensures hub.RequireApproval(machineID, payload).waiters == hub.waiters
    ensures hub.ResolveApproval(payload.requestID).waiters == hub.waiters
  {
  }

  lemma NormalizedKeepsAnswers(envelope: Envelope)
    ensures IsAnswer(Normalized(envelope).event) <==> IsAnswer(envelope.event)
    ensures IsAnswer(envelope.event) ==> Normalized(envelope) == envelope
  {
  }

  /** An answer, completed or rejected, ends the wait for its own request; no other event of an owner
      ends a wait. */
  lemma OnlyAnswersEndWaits(hub: Hub, conn: Conn, envelope: Envelope, observed: Bytes, now: int)
    requires hub.IsOwner(conn, envelope.machineID)
    ensures hub.HandleEvent(conn, envelope, observed, now).waiters
         == if IsAnswer(envelope.event) && envelope.requestID != [] then hub.waiters - {envelope.requestID}
             else hub.waiters
  {
    NormalizedKeepsAnswers(envelope);
    if envelope.event.CommandCompletedEvent? {
      CommandIsNotTimeline(hub, envelope, now);
      ApplyCompletedFrame(hub, envelope.machineID, envelope.timestamp, observed, envelope.event.result);
    } else if !IsAnswer(envelope.event) {
      OtherEventKeepsWaits(hub, Normalized(envelope), observed, now);
    }
  }

  // ----- machines -----

  /** The runtime's status and the agents of a machine that says nothing of them are those it had. */
  predicate KeepsWhatIsOpen(known: Option<Machine>, sent: Machine, shown: Machine) {
    && (sent.runtimeStatus !in {NoRuntimeStatus, RuntimeUnknown} ==> shown.runtimeStatus == sent.runtimeStatus)
    && (sent.runtimeStatus in {NoRuntimeStatus, RuntimeUnknown} ==>
          shown.runtimeStatus == if known.Some? && known.value.runtimeStatus != NoRuntimeStatus
                                 then known.value.runtimeStatus else RuntimeUnknown)
    && (sent.agents != [] ==> shown.agents == sent.agents)
    && (sent.agents == [] ==> shown.agents == if known.Some? then known.value.agents else [])
  }

  function Known(hub: Hub, id: Bytes): Option<Machine> {
    if id in hub.registry.machines then Some(hub.registry.machines[id]) else None
  }

  /** After an owner's machine snapshot the registry shows that machine as it was sent, by default
      under the owner's identifier, named by its identifier and online; no other machine changes. */
  lemma MachineShows(hub: Hub, conn: Conn, machineID: Bytes, sent: Machine)
    requires hub.IsOwner(conn, machineID)
    ensures var id := Filled(sent.id, machineID);
      var next := hub.MachineSnapshot(conn, machineID, sent);
      && id in next.registry.machines
      && var shown := next.registry.machines[id];
      && shown.id == id && shown.name == Filled(sent.name, id)
      && shown.status == (if sent.status == NoStatus then Online else sent.status)
      && KeepsWhatIsOpen(Known(hub, id), sent, shown)
      && next.registry.machines - {id} == hub.registry.machines - {id}
      && next == hub.(registry := hub.registry.(machines := next.registry.machines))
  {
  }

  /** A connection that registers is the machine's owner, and the machine shows as online under the
      name it gave, with the runtime and agents last known of it. */
  lemma RegisteredMachineShows(hub: Hub, conn: Conn, machineID: Bytes, name: Bytes)
    requires machineID != []
    ensures var next := hub.Register(conn, machineID, name);
      && next.IsOwner(conn, machineID) && conn in next.registered && next.registered[conn] == machineID
      && machineID in next.registry.machines
      && var shown := next.registry.machines[machineID];
      && shown.id == machineID && shown.name == Filled(TrimSpace(name), machineID) && shown.status == Online
      && KeepsWhatIsOpen(Known(hub, machineID), Machine(machineID, name, Online, NoRuntimeStatus, []), shown)
  {
    var released := hub.Release(conn, machineID);
    ReleaseKeepsMachine(hub, conn, machineID);
    assert Known(released, machineID) == Known(hub, machineID);
  }

  lemma ReleaseKeepsMachine(hub: Hub, conn: Conn, machineID: Bytes)
    ensures Known(hub.Release(conn, machineID), machineID) == Known(hub, machineID)
  {
    if conn in hub.registered && hub.registered[conn] != machineID && hub.registered[conn] != [] {
      var left := hub.(clients := hub.clients - {hub.registered[conn]});
      CleanupIsConfined(left, hub.registered[conn], machineID);
    }
  }

  // ----- edits of the index alone -----

  /** The rest of the index is as it was. */
  predicate OnlyThreadsOf(before: Index, after: Index, machineID: Bytes) {
    after.environment == before.environment && after.threads - {machineID} == before.threads - {machineID}
  }

  /** What the HTTP handlers do to the index after a command of theirs: a thread is listed with its
      contents and routed, … */
  lemma IndexedThreadShows(index: Index, machineID: Bytes, thread: Thread)
    requires WellFormed(index.Threads(machineID)) && machineID != [] && thread.threadID != []
    ensures var next := index.UpsertThread(machineID, thread);
      && OnlyListed(index.Threads(machineID), next.Threads(machineID), thread, machineID, {thread.lastActivityAt})
      && next.routes
           == index.routes[thread.threadID := ThreadRoute(Filled(thread.machineID, machineID), thread.agentID)]
      && OnlyThreadsOf(index, next, machineID)
  {
    assert thread.lastActivityAt in {thread.lastActivityAt};
    UpsertedListsOnly(index.Threads(machineID), thread, thread, machineID, {thread.lastActivityAt});
  }

  /** … or it is gone. */
  lemma UnindexedThreadIsGone(index: Index, machineID: Bytes, threadID: Bytes)
    requires WellFormed(index.Threads(machineID)) && machineID != [] && threadID != []
    ensures var next := index.RemoveThread(machineID, threadID);
      && OnlyRemoved(index.Threads(machineID), next.Threads(machineID), threadID)
      && next.routes == index.routes - {threadID} && OnlyThreadsOf(index, next, machineID)
  {
    WithoutRemovesOnly(index.Threads(machineID), threadID);
  }

  /** Marking a machine unknown does so to its threads and to nothing else; clearing it leaves nothing of it
      and everything of the others. */
  lemma MarkedAndCleared(index: Index, machineID: Bytes)
    requires machineID != []
    ensures var marked := index.MarkMachineUnknown(machineID);
      && AllUnknown(index.Threads(machineID), marked.Threads(machineID))
      && marked.routes == index.routes && OnlyThreadsOf(index, marked, machineID)
    ensures var cleared := index.ClearMachine(machineID);
      && cleared.threads == index.threads - {machineID} && cleared.environment == index.environment - {machineID}
      && forall id :: if id in index.routes && index.routes[id].machineID != machineID
                      then id in cleared.routes && cleared.routes[id] == index.routes[id] else id !in cleared.routes
  {
  }
}
