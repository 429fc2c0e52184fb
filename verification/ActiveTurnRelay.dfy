/** Active turns across both hops of one session. Each agent's read loop updates its own table first
    and sends its frames afterwards, one by one; the frames of all agents and of the command handler
    share one connection; the gateway applies them in order. */
module ActiveTurnRelay {
  import opened Text
  import opened Activity
  import opened Domain
  import opened Identifiers
  import opened ClientHub
  import Codex = CodexStream

  type Turns = map<Bytes, Bytes>

  /** Whose frame it is: an agent's read loop's, the command handler's, or that of the read loop of an
      agent that has been restarted since. */
  datatype Origin = OfLoop | OfCommand | OfFormer

  datatype Sent = Sent(frame: Event, origin: Origin)

  datatype State = State(
    agents: map<Bytes, Codex.Client>,
    /** Frames an agent's read loop has yet to send before it reads on. */
    unsent: map<Bytes, seq<Event>>,
    /** Frames that read loops of restarted agents have yet to send, each at its own time. */
    orphans: seq<Event>,
    wire: seq<Event>,
    gateway: Turns,
    /** Every frame sent in the session. */
    log: seq<Sent>)
  {
    function Unsent(agentID: Bytes): seq<Event> {
      if agentID in unsent then unsent[agentID] else []
    }
  }

  // ----- frames -----

  function TimelineTypeOf(kind: Codex.TimelineKind): TimelineType {
    match kind
    case TurnStartedKind => TurnStarted
    case TurnCompletedKind => TurnCompleted
    case TurnFailedKind => TurnFailed
    case ApprovalRequestedKind => ApprovalRequested
    case ApprovalResolvedKind => ApprovalResolved
    case _ => OtherTimeline
  }

  function TimelineFrame(agentID: Bytes, emission: Codex.Emission): Event
    requires emission.Timeline?
  {
    TimelineEventEvent(TimelineEvent([], emission.sequence, [], PublicTimelineThreadID(agentID, emission.threadID),
      emission.turnID, emission.itemID, TimelineTypeOf(emission.kind), None))
  }

  /** The frames for one emission: the timeline event, then the legacy event of the same turn. The
      client binds no other handler that tells of turns. */
  function FramesOf(agentID: Bytes, emission: Codex.Emission): seq<Event> {
    if !emission.Timeline? then []
    else
      var threadID := PublicTimelineThreadID(agentID, emission.threadID);
      [TimelineFrame(agentID, emission)] +
      match emission.kind
      case TurnStartedKind => [TurnStartedEvent(threadID, emission.turnID)]
      case TurnCompletedKind => [TurnEndedEvent(threadID, emission.turnID)]
      case TurnFailedKind => [TurnEndedEvent(threadID, emission.turnID)]
      case ItemDeltaKind => if emission.text == "" then [] else [OtherEvent]
      case _ => []
  }

  function Frames(agentID: Bytes, emitted: seq<Codex.Emission>): seq<Event> {
    if emitted == [] then []
    else Frames(agentID, emitted[..|emitted| - 1]) + FramesOf(agentID, emitted[|emitted| - 1])
  }

  /** What the gateway's hub does to its active turns on a frame of the connection's owner. */
  function After(turns: Turns, event: Event): Turns {
    match event
    case TurnStartedEvent(threadID, turnID) => WithTurn(turns, threadID, turnID)
    case TurnEndedEvent(threadID, turnID) => Ended(turns, threadID, turnID)
    case TimelineEventEvent(timeline) => (
      match timeline.eventType
      case TurnStarted => WithTurn(turns, timeline.threadID, timeline.turnID)
      case TurnCompleted => Ended(turns, timeline.threadID, timeline.turnID)
      case TurnFailed => Ended(turns, timeline.threadID, timeline.turnID)
      case _ => turns)
    case CommandCompletedEvent(ThreadArchived(threadID)) => if threadID == [] then turns else turns - {threadID}
    case _ => turns
  }

  function WithTurn(turns: Turns, threadID: Bytes, turnID: Bytes): Turns {
    if threadID == [] || turnID == [] then turns else turns[threadID := turnID]
  }

  function Ended(turns: Turns, threadID: Bytes, turnID: Bytes): Turns {
    if threadID == [] then turns else WithoutTurn(turns, threadID, turnID)
  }

  lemma NormalizedTellsTheSame(envelope: Envelope, turns: Turns)
    ensures After(turns, Normalized(envelope).event) == After(turns, envelope.event)
    ensures Normalized(envelope).machineID == envelope.machineID
    ensures envelope.event.CommandCompletedEvent? || Normalized(envelope).event.CommandCompletedEvent? ==>
        Normalized(envelope) == envelope
  {
  }

  lemma SetTurnFollows(hub: Hub, machineID: Bytes, threadID: Bytes, turnID: Bytes, activity: Stamp)
    requires machineID != []
    ensures hub.SetActiveTurn(machineID, threadID, turnID, activity).activeTurns
         == WithTurn(hub.activeTurns, threadID, turnID)
    ensures hub.ClearActiveTurn(machineID, threadID, turnID, activity).activeTurns
         == Ended(hub.activeTurns, threadID, turnID)
  {
  }

  lemma ApplyTurnFollows(hub: Hub, envelope: Envelope, now: int)
    requires envelope.machineID != []
    ensures hub.ApplyTurn(envelope, now).activeTurns
         == if envelope.event.CommandCompletedEvent? then hub.activeTurns else After(hub.activeTurns, envelope.event)
  {
    var activity := ActivityStamp(envelope.timestamp, now);
    match envelope.event
    case TurnStartedEvent(threadID, turnID) => SetTurnFollows(hub, envelope.machineID, threadID, turnID, activity);
    case TurnEndedEvent(threadID, turnID) => SetTurnFollows(hub, envelope.machineID, threadID, turnID, activity);
    case TimelineEventEvent(event) => SetTurnFollows(hub, envelope.machineID, event.threadID, event.turnID, activity);
    case _ =>
  }

  lemma ApplyTimelineFollows(hub: Hub, envelope: Envelope)
    ensures hub.ApplyTimeline(envelope).activeTurns == hub.activeTurns
  {
  }

  lemma ApplyCompletedFollows(hub: Hub, machineID: Bytes, timestamp: Stamp, observed: Bytes, result: CommandResult)
    requires machineID != []
    ensures hub.ApplyCompleted(machineID, timestamp, observed, result).activeTurns
         == After(hub.activeTurns, CommandCompletedEvent(result))
  {
    match result
    case ThreadCreated(thread) =>
      TrackFollows(hub, machineID, thread.(lastActivityAt := Latest(thread.lastActivityAt, timestamp)));
    case ThreadResumed(thread) => TrackFollows(hub, machineID, thread);
    case ThreadArchived(threadID) => RemovalFollows(hub, machineID, threadID);
    case SkillSet(_, _) =>
    case PluginUninstalled(_) =>
    case OtherResult =>
  }

  lemma TrackFollows(hub: Hub, machineID: Bytes, thread: Thread)
    ensures hub.TrackThread(machineID, thread).activeTurns == hub.activeTurns
  {
  }

  lemma RemovalFollows(hub: Hub, machineID: Bytes, threadID: Bytes)
    requires machineID != []
    ensures hub.RemoveThreadSnapshot(machineID, threadID).activeTurns
         == if threadID == [] then hub.activeTurns else hub.activeTurns - {threadID}
  {
  }

  /** What the handler does last: a completed command edits the turns, anything else leaves them. */
  lemma LastPartFollows(hub: Hub, normal: Envelope, observed: Bytes, now: int)
    requires normal.machineID != [] && (normal.event.CommandCompletedEvent? ==> normal.requestID != [])
    ensures hub.HandleNormal(normal, observed, now).activeTurns == After(hub.activeTurns, normal.event)
  {
    ApplyTurnFollows(hub, normal, now);
    var turned := hub.ApplyTurn(normal, now);
    ApplyTimelineFollows(turned, normal);
    if normal.event.CommandCompletedEvent? {
      var logged := turned.ApplyTimeline(normal);
      ApplyCompletedFollows(logged, normal.machineID, normal.timestamp, observed, normal.event.result);
    }
  }

  /** This is what the hub's event handler does. */
  lemma HubFollows(hub: Hub, conn: Conn, envelope: Envelope, observed: Bytes, now: int)
    requires hub.IsOwner(conn, envelope.machineID)
    requires envelope.event.CommandCompletedEvent? ==> envelope.requestID != []
    ensures hub.HandleEvent(conn, envelope, observed, now).activeTurns == After(hub.activeTurns, envelope.event)
  {
    NormalizedTellsTheSame(envelope, hub.activeTurns);
    LastPartFollows(hub, Normalized(envelope), observed, now);
  }

  // ----- runs -----

  datatype Action =
    | Notify(agentID: Bytes, n: Codex.Notification)
    | Send(agentID: Bytes)
    | Interrupt(agentID: Bytes, threadID: Bytes, turnID: Bytes)
    | Archive(publicThreadID: Bytes)
    | Restart(agentID: Bytes)
    | SendOrphan(k: nat)
    | Deliver

  /** Threads are named as the runtime names them, not in public form, and a notification that
      starts or ends a turn carries the turn's identifier. */
  predicate Proper(n: Codex.Notification) {
    match n
    case TurnStarted(threadID, turnID, _) => Raw(threadID) && turnID != []
    case TurnCompleted(threadID, turnID, _, _, _) => Raw(threadID) && turnID != []
    case _ => true
  }

  predicate Raw(threadID: Bytes) {
    !Blank(threadID) && DecodePublicThreadID(threadID).None?
  }

  predicate Enabled(s: State, a: Action) {
    match a
    case Notify(agentID, n) => agentID in s.agents && s.Unsent(agentID) == [] && Proper(n)
    case Send(agentID) => s.Unsent(agentID) != []
    case Interrupt(_, _, _) => true
    case Archive(_) => true
    case Restart(agentID) => agentID in s.agents
    case SendOrphan(k) => k < |s.orphans|
    case Deliver => s.wire != []
  }

  function Notified(s: State, agentID: Bytes, n: Codex.Notification): State
    requires agentID in s.agents
  {
    var e := Codex.Handle(s.agents[agentID], n);
    s.(agents := s.agents[agentID := e.client], unsent := s.unsent[agentID := Frames(agentID, e.emitted)])
  }

  function Put(s: State, frame: Event, origin: Origin): State {
    s.(wire := s.wire + [frame], log := s.log + [Sent(frame, origin)])
  }

  function Apply(s: State, a: Action): State
    requires Enabled(s, a)
  {
    match a
    case Notify(agentID, n) => Notified(s, agentID, n)
    case Send(agentID) =>
      Put(s, s.Unsent(agentID)[0], OfLoop).(unsent := s.unsent[agentID := s.Unsent(agentID)[1..]])
    case Interrupt(agentID, threadID, turnID) =>
      Put(s, TurnEndedEvent(PublicThreadID(agentID, threadID), turnID), OfCommand)
    case Archive(publicThreadID) => Put(s, CommandCompletedEvent(ThreadArchived(publicThreadID)), OfCommand)
    case Restart(agentID) =>
      s.(agents := s.agents[agentID := Codex.FRESH], unsent := s.unsent - {agentID},
          orphans := s.orphans + s.Unsent(agentID))
    case SendOrphan(k) => Put(s, s.orphans[k], OfFormer).(orphans := s.orphans[..k] + s.orphans[k + 1..])
    case Deliver => s.(gateway := After(s.gateway, s.wire[0]), wire := s.wire[1..])
  }

  /** An agent is restarted only while it has no turn active. */
  predicate Calm(s: State, a: Action) {
    a.Restart? && a.agentID in s.agents ==> s.agents[a.agentID].activeTurns == map[]
  }

  ghost predicate ReachesCalmly(s: State, actions: seq<Action>, t: State)
    decreases |actions|
  {
    if actions == [] then s == t
    else
      var n := |actions| - 1;
      exists u :: ReachesCalmly(s, actions[..n], u) && Enabled(u, actions[n]) && Calm(u, actions[n])
               && t == Apply(u, actions[n])
  }

  ghost predicate Reaches(s: State, actions: seq<Action>, t: State)
    decreases |actions|
  {
    if actions == [] then s == t
    else
      var n := |actions| - 1;
      exists u :: Reaches(s, actions[..n], u) && Enabled(u, actions[n]) && t == Apply(u, actions[n])
  }

  // ----- one thread's turn -----

  function Lookup(turns: Turns, key: Bytes): Option<Bytes> {
    if key in turns then Some(turns[key]) else None
  }

  /** What a frame makes of one thread's active turn. */
  function TurnAfter(current: Option<Bytes>, key: Bytes, event: Event): Option<Bytes> {
    Lookup(After(if current.Some? then map[key := current.value] else map[], event), key)
  }

  function Final(current: Option<Bytes>, key: Bytes, events: seq<Event>): Option<Bytes> {
    if events == [] then current
    else TurnAfter(Final(current, key, events[..|events| - 1]), key, events[|events| - 1])
  }

  /** A thread's turn depends on its own past only. */
  lemma AfterIsLocal(turns: Turns, key: Bytes, event: Event)
    ensures Lookup(After(turns, event), key) == TurnAfter(Lookup(turns, key), key, event)
  {
  }

  lemma {:induction false} FinalOfConcatenation(current: Option<Bytes>, key: Bytes, xs: seq<Event>, ys: seq<Event>)
    ensures Final(current, key, xs + ys) == Final(Final(current, key, xs), key, ys)
    decreases |ys|
  {
    if ys == [] {
      assert xs + ys == xs;
    } else {
      FinalOfConcatenation(current, key, xs, ys[..|ys| - 1]);
      assert (xs + ys)[..|xs + ys| - 1] == xs + ys[..|ys| - 1];
    }
  }

  /** A frame that sets no turn leaves what there is or clears it, and clearing more is safe: a turn
      that is active in the end after nothing was, is active in the end after anything. */
  lemma TurnAfterForgets(current: Option<Bytes>, key: Bytes, event: Event)
    requires TurnAfter(None, key, event).Some?
    ensures TurnAfter(current, key, event) == TurnAfter(None, key, event)
  {
  }

  lemma {:induction false} FinalForgets(current: Option<Bytes>, key: Bytes, events: seq<Event>)
    requires Final(None, key, events).Some?
    ensures Final(current, key, events) == Final(None, key, events)
  {
    if events != [] {
      var n := |events| - 1;
      if Final(None, key, events[..n]).Some? {
        FinalForgets(current, key, events[..n]);
      } else {
        TurnAfterForgets(Final(current, key, events[..n]), key, events[n]);
      }
    }
  }

  /** The frame does not start a turn of the thread. */
  predicate OnlyClears(key: Bytes, event: Event) {
    TurnAfter(None, key, event) == None
  }

  lemma ClearsOrKeeps(current: Option<Bytes>, key: Bytes, event: Event)
    requires OnlyClears(key, event)
    ensures TurnAfter(current, key, event) in {None, current}
  {
  }

  lemma InsertedClear(current: Option<Bytes>, key: Bytes, xs: seq<Event>, event: Event, ys: seq<Event>)
    requires OnlyClears(key, event) && Final(current, key, xs + [event] + ys).Some?
    ensures Final(current, key, xs + ys) == Final(current, key, xs + [event] + ys)
  {
    FinalOfConcatenation(current, key, xs, ys);
    FinalOfConcatenation(current, key, xs + [event], ys);
    var before := Final(current, key, xs);
    assert (xs + [event])[..|xs|] == xs;
    assert Final(current, key, xs + [event]) == TurnAfter(before, key, event);
    ClearsOrKeeps(before, key, event);
    if TurnAfter(before, key, event) == None {
      FinalForgets(before, key, ys);
    }
  }

  /** What is active in the end was active before, or would be after nothing was. */
  lemma {:induction false} FinalComesFrom(current: Option<Bytes>, key: Bytes, events: seq<Event>)
    ensures Final(current, key, events) == current || Final(current, key, events) == Final(None, key, events)
  {
    if events != [] {
      var n := |events| - 1;
      FinalComesFrom(current, key, events[..n]);
      var before := Final(current, key, events[..n]);
      if TurnAfter(None, key, events[n]).Some? {
        TurnAfterForgets(before, key, events[n]);
        TurnAfterForgets(Final(None, key, events[..n]), key, events[n]);
      } else {
        ClearsOrKeeps(before, key, events[n]);
        ClearsOrKeeps(Final(None, key, events[..n]), key, events[n]);
        if Final(None, key, events[..n]).Some? {
          FinalForgets(current, key, events[..n]);
        }
      }
    }
  }

  /** Frames that start nothing can end a turn only if one of them does. */
  lemma {:induction false} SomeFrameClears(current: Option<Bytes>, key: Bytes, events: seq<Event>)
    requires forall k :: 0 <= k < |events| ==> OnlyClears(key, events[k])
    ensures Final(current, key, events) == current
         || (&& Final(current, key, events) == None
             && exists k :: 0 <= k < |events| && TurnAfter(current, key, events[k]) == None)
  {
    if events != [] {
      var n := |events| - 1;
      var init := events[..n];
      SomeFrameClears(current, key, init);
      ClearsOrKeeps(Final(current, key, init), key, events[n]);
      if Final(current, key, init) != current {
        var k :| 0 <= k < n && TurnAfter(current, key, init[k]) == None;
        assert events[k] == init[k];
      }
    }
  }

  // ----- the invariant -----

  /** The turn the gateway will have active for the thread when everything under way has arrived;
      `PublicThreadID` names the thread to the gateway. */
  function Eventually(s: State, agentID: Bytes, threadID: Bytes): Option<Bytes> {
    var key := PublicThreadID(agentID, threadID);
    Final(Lookup(s.gateway, key), key, s.wire + s.Unsent(agentID))
  }

  /** A frame of a former read loop will end the turn. */
  predicate Doomed(s: State, key: Bytes, turn: Option<Bytes>) {
    exists k :: 0 <= k < |s.orphans| && TurnAfter(turn, key, s.orphans[k]) == None
  }

  predicate Backed(s: State, agentID: Bytes, threadID: Bytes)
    requires agentID in s.agents
  {
    var turn := Eventually(s, agentID, threadID);
    turn.Some? ==>
      Lookup(s.agents[agentID].activeTurns, threadID) == turn || Doomed(s, PublicThreadID(agentID, threadID), turn)
  }

  /** What an agent's own unsent frames start is active in the agent. */
  predicate Announced(s: State, agentID: Bytes, threadID: Bytes)
    requires agentID in s.agents
  {
    var key, turns := PublicThreadID(agentID, threadID), s.agents[agentID].activeTurns;
    && (Final(None, key, s.Unsent(agentID)).Some? ==> Lookup(turns, threadID) == Final(None, key, s.Unsent(agentID)))
    && (threadID !in turns ==> AllClear(key, s.Unsent(agentID)))
  }

  predicate AllClear(key: Bytes, frames: seq<Event>) {
    forall k :: 0 <= k < |frames| ==> OnlyClears(key, frames[k])
  }

  ghost predicate OrphansClear(s: State) {
    forall agentID: Bytes, threadID: Bytes :: !Blank(agentID) && Raw(threadID) ==>
      AllClear(PublicThreadID(agentID, threadID), s.orphans)
  }

  ghost predicate AllBacked(s: State) {
    && (forall agentID <- s.agents :: !Blank(agentID))
    && (forall agentID <- s.unsent :: agentID in s.agents)
    && (forall agentID, threadID :: agentID in s.agents && Raw(threadID) ==> Backed(s, agentID, threadID))
    && (forall agentID, threadID :: agentID in s.agents && Raw(threadID) ==> Announced(s, agentID, threadID))
    && (forall agentID <- s.unsent :: OwnFrames(agentID, s.unsent[agentID]))
    && OrphansClear(s)
  }

  /** The frame leaves the thread's turn alone, whatever it is. */
  ghost predicate Spares(key: Bytes, event: Event) {
    forall current: Option<Bytes> :: TurnAfter(current, key, event) == current
  }

  /** Each frame is about one of this agent's threads, if about any. */
  ghost predicate OwnFrames(agentID: Bytes, frames: seq<Event>) {
    forall k, other, threadID :: 0 <= k < |frames| && !Blank(other) && Raw(threadID) && other != agentID ==>
      Spares(PublicThreadID(other, threadID), frames[k])
  }

  // steps

  /** What a notification makes of its agent's active turns. */
  function TurnsAfter(turns: Turns, n: Codex.Notification): Turns {
    match n
    case TurnStarted(threadID, turnID, _) => turns[threadID := turnID]
    case TurnCompleted(threadID, turnID, _, _, _) =>
      if threadID in turns && turns[threadID] == turnID then turns - {threadID} else turns
    case _ => turns
  }

  lemma ItemsKeepTurns(c: Codex.Client, n: Codex.Notification)
    requires n.ItemStarted? || n.ItemCompleted?
    ensures n.ItemStarted? ==> Codex.OnItemStarted(c, n).client.activeTurns == c.activeTurns
    ensures n.ItemCompleted? ==> Codex.OnItemCompleted(c, n).client.activeTurns == c.activeTurns
  {
    var drawn := c.DrawTimeline(c.Resolve(n.threadID, n.turnID));
    assert Codex.ShowProgress(drawn, n).client.activeTurns == c.activeTurns;
    if n.ItemCompleted? && Codex.IsAgentMessage(n.item) {
      assert Codex.CompleteMessage(drawn, n).client.activeTurns == c.activeTurns;
    }
  }

  lemma OthersKeepTurns(c: Codex.Client, n: Codex.Notification)
    requires !n.TurnStarted? && !n.TurnCompleted?
    ensures Codex.Handle(c, n).client.activeTurns == c.activeTurns
  {
    if n.ItemStarted? || n.ItemCompleted? {
      ItemsKeepTurns(c, n);
    }
  }

  lemma HandleTurns(c: Codex.Client, n: Codex.Notification)
    requires Proper(n)
    ensures Codex.Handle(c, n).client.activeTurns == TurnsAfter(c.activeTurns, n)
  {
    if !n.TurnStarted? && !n.TurnCompleted? {
      OthersKeepTurns(c, n);
    }
  }

  /** A notification's only frames about turns are two for a start or an end. */
  lemma FramesOfStart(agentID: Bytes, c: Codex.Client, n: Codex.Notification)
    requires Proper(n) && n.TurnStarted?
    ensures var threadID := PublicTimelineThreadID(agentID, n.threadID);
            var frames := Frames(agentID, Codex.Handle(c, n).emitted);
      && |frames| == 2 && TellsOfStart(frames[0], threadID, n.turnID) && TellsOfStart(frames[1], threadID, n.turnID)
  {
    var emitted := Codex.Handle(c, n).emitted;
    assert emitted == [emitted[0], emitted[1]] && emitted[..1] == [emitted[0]] && emitted[..1][..0] == [];
    assert Frames(agentID, emitted[..1]) == [];
  }

  lemma FramesOfEnd(agentID: Bytes, c: Codex.Client, n: Codex.Notification)
    requires Proper(n) && n.TurnCompleted?
    ensures var threadID := PublicTimelineThreadID(agentID, n.threadID);
            var frames := Frames(agentID, Codex.Handle(c, n).emitted);
      && |frames| == 2 && TellsOfEnd(frames[0], threadID, n.turnID) && TellsOfEnd(frames[1], threadID, n.turnID)
  {
    var emitted := Codex.Handle(c, n).emitted;
    assert emitted == [emitted[0], emitted[1]] && emitted[..1] == [emitted[0]] && emitted[..1][..0] == [];
    assert Frames(agentID, [emitted[0]]) == FramesOf(agentID, emitted[0]);
  }

  /** The frame tells of no turn. */
  predicate Neutral(event: Event) {
    || event == OtherEvent
    || (event.TimelineEventEvent? && event.event.eventType !in {TurnStarted, TurnCompleted, TurnFailed})
  }

  predicate TellsOfNoTurn(emission: Codex.Emission) {
    emission.Timeline? ==> emission.kind !in {Codex.TurnStartedKind, Codex.TurnCompletedKind, Codex.TurnFailedKind}
  }

  lemma {:induction false} FramesAreNeutral(agentID: Bytes, emitted: seq<Codex.Emission>)
    requires forall k :: 0 <= k < |emitted| ==> TellsOfNoTurn(emitted[k])
    ensures forall k :: 0 <= k < |Frames(agentID, emitted)| ==> Neutral(Frames(agentID, emitted)[k])
  {
    if emitted != [] {
      FramesAreNeutral(agentID, emitted[..|emitted| - 1]);
    }
  }

  lemma OthersTellOfNoTurn(c: Codex.Client, n: Codex.Notification)
    requires !n.TurnStarted? && !n.TurnCompleted?
    ensures forall k :: 0 <= k < |Codex.Handle(c, n).emitted| ==> TellsOfNoTurn(Codex.Handle(c, n).emitted[k])
  {
  }

  lemma {:induction false} NeutralFramesChangeNothing(current: Option<Bytes>, key: Bytes, frames: seq<Event>)
    requires forall k :: 0 <= k < |frames| ==> Neutral(frames[k])
    ensures Final(current, key, frames) == current
  {
    if frames != [] {
      NeutralFramesChangeNothing(current, key, frames[..|frames| - 1]);
    }
  }

  /** The public name of a raw thread, and its being nobody else's. */
  lemma PublicName(agentID: Bytes, threadID: Bytes, otherAgent: Bytes, other: Bytes)
    requires !Blank(agentID) && Raw(threadID) && !Blank(otherAgent) && Raw(other)
    ensures PublicTimelineThreadID(agentID, threadID) == PublicThreadID(agentID, threadID) != []
    ensures PublicThreadID(agentID, threadID) == PublicThreadID(otherAgent, other) ==>
        agentID == otherAgent && threadID == other
  {
    if PublicThreadID(agentID, threadID) == PublicThreadID(otherAgent, other) {
      PublicThreadIDInjective(agentID, threadID, otherAgent, other);
    }
  }

  lemma FinalOfTwo(current: Option<Bytes>, key: Bytes, frames: seq<Event>)
    requires |frames| == 2
    ensures Final(current, key, frames) == TurnAfter(TurnAfter(current, key, frames[0]), key, frames[1])
  {
    assert frames[..1][..0] == [];
    assert Final(current, key, frames[..1]) == TurnAfter(current, key, frames[0]);
  }

  predicate TellsOfStart(event: Event, threadID: Bytes, turnID: Bytes) {
    || event == TurnStartedEvent(threadID, turnID)
    || (event.TimelineEventEvent? && event.event.eventType == TurnStarted
        && event.event.threadID == threadID && event.event.turnID == turnID)
  }

  predicate TellsOfEnd(event: Event, threadID: Bytes, turnID: Bytes) {
    || event == TurnEndedEvent(threadID, turnID)
    || (event.TimelineEventEvent? && event.event.eventType in {TurnCompleted, TurnFailed}
        && event.event.threadID == threadID && event.event.turnID == turnID)
  }

  /** Telling the gateway twice is telling it once. */
  lemma StartTwice(current: Option<Bytes>, key: Bytes, frames: seq<Event>, threadID: Bytes, turnID: Bytes)
    requires threadID != [] && turnID != []
    requires |frames| == 2 && TellsOfStart(frames[0], threadID, turnID) && TellsOfStart(frames[1], threadID, turnID)
    ensures Final(current, key, frames) == if key == threadID then Some(turnID) else current
  {
    FinalOfTwo(current, key, frames);
  }

  lemma EndTwice(current: Option<Bytes>, key: Bytes, frames: seq<Event>, threadID: Bytes, turnID: Bytes)
    requires threadID != [] && turnID != []
    requires |frames| == 2 && TellsOfEnd(frames[0], threadID, turnID) && TellsOfEnd(frames[1], threadID, turnID)
    ensures Final(current, key, frames) == if key == threadID && current == Some(turnID) then None else current
  {
    FinalOfTwo(current, key, frames);
  }

  /** The frames of a notification do to the gateway's turn of a thread what the notification did to
      the agent's own. */
  lemma FramesFollowTheClient(agentID: Bytes, c: Codex.Client, n: Codex.Notification, threadID: Bytes,
      current: Option<Bytes>)
    requires !Blank(agentID) && Proper(n) && Raw(threadID)
    requires current.Some? ==> Lookup(c.activeTurns, threadID) == current
    ensures var e := Codex.Handle(c, n);
            var final := Final(current, PublicThreadID(agentID, threadID), Frames(agentID, e.emitted));
            final.Some? ==> Lookup(e.client.activeTurns, threadID) == final
  {
    var key := PublicThreadID(agentID, threadID);
    var frames := Frames(agentID, Codex.Handle(c, n).emitted);
    HandleTurns(c, n);
    if n.TurnStarted? {
      PublicName(agentID, n.threadID, agentID, threadID);
      FramesOfStart(agentID, c, n);
      StartTwice(current, key, frames, PublicThreadID(agentID, n.threadID), n.turnID);
    } else if n.TurnCompleted? {
      PublicName(agentID, n.threadID, agentID, threadID);
      FramesOfEnd(agentID, c, n);
      EndTwice(current, key, frames, PublicThreadID(agentID, n.threadID), n.turnID);
    } else {
      OthersTellOfNoTurn(c, n);
      FramesAreNeutral(agentID, Codex.Handle(c, n).emitted);
      NeutralFramesChangeNothing(current, key, frames);
    }
  }

  lemma StartsSpareOthers(key: Bytes, frames: seq<Event>, k: nat, threadID: Bytes, turnID: Bytes)
    requires |frames| == 2 && k < 2 && key != threadID
    requires TellsOfStart(frames[0], threadID, turnID) && TellsOfStart(frames[1], threadID, turnID)
    ensures OnlyClears(key, frames[k]) && Spares(key, frames[k])
  {
  }

  lemma EndsSpareOthers(key: Bytes, frames: seq<Event>, k: nat, threadID: Bytes, turnID: Bytes)
    requires |frames| == 2 && k < 2 && key != threadID
    requires TellsOfEnd(frames[0], threadID, turnID) && TellsOfEnd(frames[1], threadID, turnID)
    ensures Spares(key, frames[k])
  {
  }

  lemma EndsOnlyClear(key: Bytes, frames: seq<Event>, k: nat, threadID: Bytes, turnID: Bytes)
    requires |frames| == 2 && k < 2
    requires TellsOfEnd(frames[0], threadID, turnID) && TellsOfEnd(frames[1], threadID, turnID)
    ensures OnlyClears(key, frames[k])
  {
  }

  lemma NeutralOnlyClears(key: Bytes, event: Event)
    requires Neutral(event)
    ensures OnlyClears(key, event) && Spares(key, event)
  {
  }

  lemma FramesSpareOthers(agentID: Bytes, c: Codex.Client, n: Codex.Notification, k: nat, other: Bytes, threadID: Bytes)
    requires !Blank(agentID) && Proper(n) && !Blank(other) && Raw(threadID) && other != agentID
    requires k < |Frames(agentID, Codex.Handle(c, n).emitted)|
    ensures Spares(PublicThreadID(other, threadID), Frames(agentID, Codex.Handle(c, n).emitted)[k])
  {
    var frames := Frames(agentID, Codex.Handle(c, n).emitted);
    if n.TurnStarted? {
      PublicName(agentID, n.threadID, other, threadID);
      FramesOfStart(agentID, c, n);
      StartsSpareOthers(PublicThreadID(other, threadID), frames, k, PublicTimelineThreadID(agentID, n.threadID),
          n.turnID);
    } else if n.TurnCompleted? {
      PublicName(agentID, n.threadID, other, threadID);
      FramesOfEnd(agentID, c, n);
      EndsSpareOthers(PublicThreadID(other, threadID), frames, k, PublicTimelineThreadID(agentID, n.threadID),
          n.turnID);
    } else {
      OthersTellOfNoTurn(c, n);
      FramesAreNeutral(agentID, Codex.Handle(c, n).emitted);
      NeutralOnlyClears(PublicThreadID(other, threadID), frames[k]);
    }
  }

  lemma FramesAreOwn(agentID: Bytes, c: Codex.Client, n: Codex.Notification)
    requires !Blank(agentID) && Proper(n)
    ensures OwnFrames(agentID, Frames(agentID, Codex.Handle(c, n).emitted))
  {
    var frames := Frames(agentID, Codex.Handle(c, n).emitted);
    forall k, other, threadID | 0 <= k < |frames| && !Blank(other) && Raw(threadID) && other != agentID
      ensures Spares(PublicThreadID(other, threadID), frames[k])
    {
      FramesSpareOthers(agentID, c, n, k, other, threadID);
    }
  }

  lemma NotifyKeepsThreadBacked(s: State, a: Action, agentID: Bytes, threadID: Bytes)
    requires Enabled(s, a) && a.Notify? && agentID in s.agents && !Blank(agentID) && Raw(threadID)
    requires Backed(s, agentID, threadID)
    ensures Backed(Apply(s, a), agentID, threadID)
  {
    if agentID == a.agentID {
      var key := PublicThreadID(agentID, threadID);
      var frames := Apply(s, a).Unsent(agentID);
      var before := Final(Lookup(s.gateway, key), key, s.wire);
      FinalOfConcatenation(Lookup(s.gateway, key), key, s.wire, frames);
      assert s.wire + s.Unsent(agentID) == s.wire;
      FinalComesFrom(before, key, frames);
      FramesFollowTheClient(agentID, s.agents[agentID], a.n, threadID, None);
      if Lookup(s.agents[agentID].activeTurns, threadID) == before {
        FramesFollowTheClient(agentID, s.agents[agentID], a.n, threadID, before);
      }
    }
  }

  /** A thread of which no turn is active after a notification is started by none of its frames. */
  lemma InactiveIsNotStarted(agentID: Bytes, c: Codex.Client, n: Codex.Notification, threadID: Bytes)
    requires !Blank(agentID) && Proper(n) && Raw(threadID) && threadID !in Codex.Handle(c, n).client.activeTurns
    ensures AllClear(PublicThreadID(agentID, threadID), Frames(agentID, Codex.Handle(c, n).emitted))
  {
    var key := PublicThreadID(agentID, threadID);
    var frames := Frames(agentID, Codex.Handle(c, n).emitted);
    HandleTurns(c, n);
    forall k | 0 <= k < |frames|
      ensures OnlyClears(key, frames[k])
    {
      if n.TurnStarted? {
        PublicName(agentID, n.threadID, agentID, threadID);
        FramesOfStart(agentID, c, n);
        StartsSpareOthers(key, frames, k, PublicThreadID(agentID, n.threadID), n.turnID);
      } else if n.TurnCompleted? {
        FramesOfEnd(agentID, c, n);
        EndsOnlyClear(key, frames, k, PublicTimelineThreadID(agentID, n.threadID), n.turnID);
      } else {
        OthersTellOfNoTurn(c, n);
        FramesAreNeutral(agentID, Codex.Handle(c, n).emitted);
        NeutralOnlyClears(key, frames[k]);
      }
    }
  }

  lemma NotifyKeepsAnnounced(s: State, a: Action, agentID: Bytes, threadID: Bytes)
    requires Enabled(s, a) && a.Notify? && agentID in s.agents && !Blank(agentID) && Raw(threadID)
    requires Announced(s, agentID, threadID)
    ensures Announced(Apply(s, a), agentID, threadID)
  {
    if agentID == a.agentID {
      FramesFollowTheClient(agentID, s.agents[agentID], a.n, threadID, None);
      if threadID !in Codex.Handle(s.agents[agentID], a.n).client.activeTurns {
        InactiveIsNotStarted(agentID, s.agents[agentID], a.n, threadID);
      }
    }
  }

  lemma NotifyKeepsBacked(s: State, a: Action)
    requires AllBacked(s) && Enabled(s, a) && a.Notify?
    ensures AllBacked(Apply(s, a))
  {
    FramesAreOwn(a.agentID, s.agents[a.agentID], a.n);
    forall agentID, threadID | agentID in s.agents && Raw(threadID)
      ensures Backed(Apply(s, a), agentID, threadID) && Announced(Apply(s, a), agentID, threadID)
    {
      NotifyKeepsThreadBacked(s, a, agentID, threadID);
      NotifyKeepsAnnounced(s, a, agentID, threadID);
    }
  }

  /** Another frame on the wire that starts no turn of a thread cannot harm it. */
  lemma QuietFrameKeepsBacked(s: State, t: State, event: Event, agentID: Bytes, threadID: Bytes)
    requires agentID in s.agents && Backed(s, agentID, threadID)
    requires t.agents == s.agents && t.gateway == s.gateway && t.orphans == s.orphans
    requires t.wire == s.wire + [event] && t.Unsent(agentID) == s.Unsent(agentID)
    requires OnlyClears(PublicThreadID(agentID, threadID), event)
    ensures Backed(t, agentID, threadID)
  {
    var key := PublicThreadID(agentID, threadID);
    if Eventually(t, agentID, threadID).Some? {
      InsertedClear(Lookup(s.gateway, key), key, s.wire, event, s.Unsent(agentID));
    }
  }

  lemma SendKeepsFramesOwn(s: State, a: Action)
    requires AllBacked(s) && Enabled(s, a) && a.Send?
    ensures forall agentID <- Apply(s, a).unsent :: OwnFrames(agentID, Apply(s, a).unsent[agentID])
  {
    var frames := s.Unsent(a.agentID);
    assert OwnFrames(a.agentID, frames);
    assert OwnFrames(a.agentID, frames[1..]) by {
      assert forall k :: 0 <= k < |frames[1..]| ==> frames[1..][k] == frames[k + 1];
    }
  }

  lemma MovedOver(wire: seq<Event>, frames: seq<Event>)
    requires frames != []
    ensures wire + [frames[0]] + frames[1..] == wire + frames
  {
    assert [frames[0]] + frames[1..] == frames;
  }

  lemma SendKeepsOwnBacked(s: State, a: Action, threadID: Bytes)
    requires Enabled(s, a) && a.Send? && a.agentID in s.agents && Backed(s, a.agentID, threadID)
    ensures Backed(Apply(s, a), a.agentID, threadID)
  {
    var t := Apply(s, a);
    MovedOver(s.wire, s.Unsent(a.agentID));
    assert t.wire == s.wire + [s.Unsent(a.agentID)[0]];
    assert t.Unsent(a.agentID) == s.Unsent(a.agentID)[1..];
    assert Eventually(t, a.agentID, threadID) == Eventually(s, a.agentID, threadID);
  }

  lemma SendKeepsAnnounced(s: State, a: Action, threadID: Bytes)
    requires Enabled(s, a) && a.Send? && a.agentID in s.agents && Announced(s, a.agentID, threadID)
    ensures Announced(Apply(s, a), a.agentID, threadID)
  {
    var key, frames := PublicThreadID(a.agentID, threadID), s.Unsent(a.agentID);
    assert Apply(s, a).Unsent(a.agentID) == frames[1..];
    assert forall k :: 0 <= k < |frames[1..]| ==> frames[1..][k] == frames[k + 1];
    assert frames == [frames[0]] + frames[1..];
    FinalOfConcatenation(None, key, [frames[0]], frames[1..]);
    if Final(None, key, frames[1..]).Some? {
      FinalForgets(Final(None, key, [frames[0]]), key, frames[1..]);
    }
  }

  lemma SendKeepsOthersBacked(s: State, a: Action, agentID: Bytes, threadID: Bytes)
    requires Enabled(s, a) && a.Send? && agentID in s.agents && agentID != a.agentID
    requires !Blank(agentID) && Raw(threadID) && Backed(s, agentID, threadID)
    requires OwnFrames(a.agentID, s.Unsent(a.agentID))
    ensures Backed(Apply(s, a), agentID, threadID)
  {
    var frame := s.Unsent(a.agentID)[0];
    assert Spares(PublicThreadID(agentID, threadID), frame);
    QuietFrameKeepsBacked(s, Apply(s, a), frame, agentID, threadID);
  }

  lemma SendKeepsBacked(s: State, a: Action)
    requires AllBacked(s) && Enabled(s, a) && a.Send?
    ensures AllBacked(Apply(s, a))
  {
    SendKeepsFramesOwn(s, a);
    forall agentID, threadID | agentID in s.agents && Raw(threadID)
      ensures Backed(Apply(s, a), agentID, threadID) && Announced(Apply(s, a), agentID, threadID)
    {
      assert Backed(s, agentID, threadID) && Announced(s, agentID, threadID);
      if agentID == a.agentID {
        SendKeepsOwnBacked(s, a, threadID);
        SendKeepsAnnounced(s, a, threadID);
      } else {
        assert OwnFrames(a.agentID, s.Unsent(a.agentID));
        SendKeepsOthersBacked(s, a, agentID, threadID);
      }
    }
  }

  lemma CommandFrameKeepsBacked(s: State, a: Action)
    requires AllBacked(s) && Enabled(s, a) && (a.Interrupt? || a.Archive?)
    ensures AllBacked(Apply(s, a))
  {
    var t := Apply(s, a);
    forall agentID, threadID | agentID in t.agents && Raw(threadID)
      ensures Backed(t, agentID, threadID) && Announced(t, agentID, threadID)
    {
      assert Backed(s, agentID, threadID) && Announced(s, agentID, threadID);
      QuietFrameKeepsBacked(s, t, t.wire[|s.wire|], agentID, threadID);
    }
  }

  lemma FirstFrameFirst(turns: Turns, key: Bytes, wire: seq<Event>, rest: seq<Event>)
    requires wire != []
    ensures Final(Lookup(After(turns, wire[0]), key), key, wire[1..] + rest)
         == Final(Lookup(turns, key), key, wire + rest)
  {
    AfterIsLocal(turns, key, wire[0]);
    FinalOfConcatenation(Lookup(turns, key), key, [wire[0]], wire[1..] + rest);
    assert [wire[0]] + (wire[1..] + rest) == wire + rest;
    assert [wire[0]][..0] == [];
    assert Final(Lookup(turns, key), key, [wire[0]]) == TurnAfter(Lookup(turns, key), key, wire[0]);
  }

  lemma DeliverKeepsBacked(s: State, a: Action)
    requires AllBacked(s) && Enabled(s, a) && a.Deliver?
    ensures AllBacked(Apply(s, a))
  {
    var t := Apply(s, a);
    forall agentID, threadID | agentID in t.agents && Raw(threadID)
      ensures Backed(t, agentID, threadID) && Announced(t, agentID, threadID)
    {
      assert Backed(s, agentID, threadID) && Announced(s, agentID, threadID);
      FirstFrameFirst(s.gateway, PublicThreadID(agentID, threadID), s.wire, s.Unsent(agentID));
    }
  }

  /** A turn that is active after a frame, and that the frames behind it do not start, is none that the
      frame ends. */
  lemma SpareFrameSpares(current: Option<Bytes>, key: Bytes, wire: seq<Event>, frame: Event, frames: seq<Event>)
    requires OnlyClears(key, frame)
    requires var turn := Final(current, key, wire + [frame] + frames);
             turn.Some? && turn != Final(None, key, frames)
    ensures var turn := Final(current, key, wire + [frame] + frames);
            TurnAfter(turn, key, frame) != None && turn == Final(current, key, wire + frames)
  {
    var before := Final(current, key, wire);
    InsertedClear(current, key, wire, frame, frames);
    FinalOfConcatenation(current, key, wire + [frame], frames);
    assert (wire + [frame])[..|wire|] == wire;
    FinalComesFrom(TurnAfter(before, key, frame), key, frames);
    ClearsOrKeeps(before, key, frame);
  }

  /** A frame of a former read loop may arrive at any time: it ends the turns it was going to end. */
  lemma OrphanKeepsThreadBacked(s: State, a: Action, agentID: Bytes, threadID: Bytes)
    requires Enabled(s, a) && a.SendOrphan? && agentID in s.agents
    requires Backed(s, agentID, threadID) && Announced(s, agentID, threadID)
    requires OnlyClears(PublicThreadID(agentID, threadID), s.orphans[a.k])
    ensures Backed(Apply(s, a), agentID, threadID)
  {
    var t, key := Apply(s, a), PublicThreadID(agentID, threadID);
    var turn := Eventually(t, agentID, threadID);
    if turn.Some? && Lookup(s.agents[agentID].activeTurns, threadID) != turn {
      SpareFrameSpares(Lookup(s.gateway, key), key, s.wire, s.orphans[a.k], s.Unsent(agentID));
      var i :| 0 <= i < |s.orphans| && TurnAfter(turn, key, s.orphans[i]) == None;
      var j := OthersRemain(s.orphans, a.k, i);
      assert t.orphans[j] == s.orphans[i];
    }
  }

  lemma OthersRemain(frames: seq<Event>, taken: nat, i: nat) returns (j: nat)
    requires taken < |frames| && i < |frames| && i != taken
    ensures j < |frames| - 1 && (frames[..taken] + frames[taken + 1..])[j] == frames[i]
  {
    j := if i < taken then i else i - 1;
  }

  lemma OrphanKeepsBacked(s: State, a: Action)
    requires AllBacked(s) && Enabled(s, a) && a.SendOrphan?
    ensures AllBacked(Apply(s, a))
  {
    var t := Apply(s, a);
    forall agentID, threadID | agentID in t.agents && Raw(threadID)
      ensures Backed(t, agentID, threadID) && Announced(t, agentID, threadID)
    {
      assert Backed(s, agentID, threadID) && Announced(s, agentID, threadID);
      assert AllClear(PublicThreadID(agentID, threadID), s.orphans);
      OrphanKeepsThreadBacked(s, a, agentID, threadID);
    }
    forall agentID: Bytes, threadID: Bytes | !Blank(agentID) && Raw(threadID)
      ensures AllClear(PublicThreadID(agentID, threadID), t.orphans)
    {
      assert AllClear(PublicThreadID(agentID, threadID), s.orphans);
    }
  }

  /** A turn that the frames to come are left with is ended by one of them, or they leave it. */
  lemma LeftOverIsEnded(current: Option<Bytes>, key: Bytes, orphans: seq<Event>, frames: seq<Event>)
    requires current.Some? && AllClear(key, frames)
    requires Final(current, key, frames).Some? ==>
      exists k :: 0 <= k < |orphans| && TurnAfter(Final(current, key, frames), key, orphans[k]) == None
    ensures exists k :: 0 <= k < |orphans + frames| && TurnAfter(current, key, (orphans + frames)[k]) == None
  {
    var all := orphans + frames;
    SomeFrameClears(current, key, frames);
    if Final(current, key, frames) == None {
      var k :| 0 <= k < |frames| && TurnAfter(current, key, frames[k]) == None;
      assert all[|orphans| + k] == frames[k];
    } else {
      var k :| 0 <= k < |orphans| && TurnAfter(current, key, orphans[k]) == None;
      assert all[k] == orphans[k];
    }
  }

  /** A thread without an active turn has nothing to lose: what the former read loop has yet to send
      about it only ends turns, and ends every turn of it that is left. */
  lemma RestartKeepsOwnBacked(s: State, agentID: Bytes, threadID: Bytes)
    requires agentID in s.agents && threadID !in s.agents[agentID].activeTurns
    requires Backed(s, agentID, threadID) && Announced(s, agentID, threadID)
    ensures Backed(Apply(s, Restart(agentID)), agentID, threadID)
    ensures Announced(Apply(s, Restart(agentID)), agentID, threadID)
  {
    var t, key, frames := Apply(s, Restart(agentID)), PublicThreadID(agentID, threadID), s.Unsent(agentID);
    var current := Final(Lookup(s.gateway, key), key, s.wire);
    FinalOfConcatenation(Lookup(s.gateway, key), key, s.wire, frames);
    assert s.wire + [] == s.wire;
    if current.Some? {
      LeftOverIsEnded(current, key, s.orphans, frames);
    }
  }

  lemma RestartKeepsOthersBacked(s: State, agentID: Bytes, other: Bytes, threadID: Bytes)
    requires agentID in s.agents && other in s.agents && other != agentID
    requires Backed(s, other, threadID) && Announced(s, other, threadID)
    ensures Backed(Apply(s, Restart(agentID)), other, threadID)
    ensures Announced(Apply(s, Restart(agentID)), other, threadID)
  {
    var t, key, turn := Apply(s, Restart(agentID)), PublicThreadID(other, threadID), Eventually(s, other, threadID);
    assert t.Unsent(other) == s.Unsent(other);
    if turn.Some? && Doomed(s, key, turn) {
      var k :| 0 <= k < |s.orphans| && TurnAfter(turn, key, s.orphans[k]) == None;
      assert t.orphans[k] == s.orphans[k];
    }
  }

  lemma UnsentClear(s: State, agentID: Bytes, other: Bytes, threadID: Bytes)
    requires AllBacked(s) && agentID in s.agents && s.agents[agentID].activeTurns == map[]
    requires !Blank(other) && Raw(threadID)
    ensures AllClear(PublicThreadID(other, threadID), s.Unsent(agentID))
  {
    if other == agentID {
      assert Announced(s, agentID, threadID);
    } else if agentID in s.unsent {
      assert OwnFrames(agentID, s.unsent[agentID]);
      assert forall k :: 0 <= k < |s.unsent[agentID]| ==> Spares(PublicThreadID(other, threadID), s.unsent[agentID][k]);
    }
  }

  lemma BothClear(key: Bytes, xs: seq<Event>, ys: seq<Event>)
    requires AllClear(key, xs) && AllClear(key, ys)
    ensures AllClear(key, xs + ys)
  {
  }

  lemma RestartKeepsOrphansClear(s: State, agentID: Bytes)
    requires AllBacked(s) && agentID in s.agents && s.agents[agentID].activeTurns == map[]
    ensures OrphansClear(Apply(s, Restart(agentID)))
  {
    forall other: Bytes, threadID: Bytes | !Blank(other) && Raw(threadID)
      ensures AllClear(PublicThreadID(other, threadID), s.orphans + s.Unsent(agentID))
    {
      assert AllClear(PublicThreadID(other, threadID), s.orphans);
      UnsentClear(s, agentID, other, threadID);
      BothClear(PublicThreadID(other, threadID), s.orphans, s.Unsent(agentID));
    }
  }

  lemma RestartKeepsBacked(s: State, a: Action)
    requires AllBacked(s) && Enabled(s, a) && a.Restart? && Calm(s, a)
    ensures AllBacked(Apply(s, a))
  {
    var t := Apply(s, a);
    RestartKeepsOrphansClear(s, a.agentID);
    forall agentID, threadID | agentID in t.agents && Raw(threadID)
      ensures Backed(t, agentID, threadID) && Announced(t, agentID, threadID)
    {
      assert Backed(s, agentID, threadID) && Announced(s, agentID, threadID);
      if agentID == a.agentID {
        RestartKeepsOwnBacked(s, agentID, threadID);
      } else {
        RestartKeepsOthersBacked(s, a.agentID, agentID, threadID);
      }
    }
  }

  lemma StepKeepsBacked(s: State, a: Action)
    requires AllBacked(s) && Enabled(s, a) && Calm(s, a)
    ensures AllBacked(Apply(s, a))
  {
    match a
    case Notify(_, _) => NotifyKeepsBacked(s, a);
    case Send(_) => SendKeepsBacked(s, a);
    case Interrupt(_, _, _) => CommandFrameKeepsBacked(s, a);
    case Archive(_) => CommandFrameKeepsBacked(s, a);
    case Restart(_) => RestartKeepsBacked(s, a);
    case SendOrphan(_) => OrphanKeepsBacked(s, a);
    case Deliver => DeliverKeepsBacked(s, a);
  }

  /** The session has just begun: nothing is under way, and the gateway has no turn active. */
  predicate Begins(s: State) {
    && s.unsent == map[] && s.wire == [] && s.orphans == [] && s.gateway == map[] && s.log == []
    && forall agentID <- s.agents :: !Blank(agentID)
  }

  lemma BeginningIsBacked(s: State)
    requires Begins(s)
    ensures AllBacked(s)
  {
    forall agentID, threadID | agentID in s.agents && Raw(threadID)
      ensures Backed(s, agentID, threadID) && Announced(s, agentID, threadID)
    {
      assert s.wire + s.Unsent(agentID) == [];
    }
  }

  lemma {:induction false} RunKeepsBacked(s: State, actions: seq<Action>, t: State)
    requires Begins(s) && ReachesCalmly(s, actions, t)
    ensures AllBacked(t)
  {
    if actions == [] {
      BeginningIsBacked(s);
    } else {
      var n := |actions| - 1;
      var u :| ReachesCalmly(s, actions[..n], u) && Enabled(u, actions[n]) && Calm(u, actions[n])
               && t == Apply(u, actions[n]);
      RunKeepsBacked(s, actions[..n], u);
      StepKeepsBacked(u, actions[n]);
    }
  }

  /** In every run of a session, with duplicated timeline and legacy events, interrupts, archives, any
      number of agents and restarts of agents that have no turn active: once every frame under way is
      applied, the gateway has a turn active for a public thread only if the agent has that same turn
      active for the raw thread. A turn left of a restarted agent is one that its former read loop is
      about to end. */
  lemma ActiveTurnsAreBacked(s: State, actions: seq<Action>, t: State, agentID: Bytes, threadID: Bytes)
    requires Begins(s) && ReachesCalmly(s, actions, t)
    requires agentID in t.agents && Raw(threadID)
    ensures var turn := Eventually(t, agentID, threadID);
      turn.Some? && Lookup(t.agents[agentID].activeTurns, threadID) != turn ==>
        exists k :: 0 <= k < |t.orphans| && TurnAfter(turn, PublicThreadID(agentID, threadID), t.orphans[k]) == None
    ensures t.orphans == [] && Eventually(t, agentID, threadID).Some? ==>
      Lookup(t.agents[agentID].activeTurns, threadID) == Eventually(t, agentID, threadID)
  {
    RunKeepsBacked(s, actions, t);
    assert Backed(t, agentID, threadID);
  }

  lemma NamelessCompletionIsSilent(agentID: Bytes, c: Codex.Client, threadID: Bytes)
    requires threadID != [] && threadID in c.activeTurns && c.activeTurns[threadID] != []
    ensures var e := Codex.Handle(c, Codex.TurnCompleted(threadID, [], [], false, ""));
            threadID !in e.client.activeTurns && Frames(agentID, e.emitted) == []
  {
    var n := Codex.TurnCompleted(threadID, [], [], false, "");
    var emitted := Codex.OnTurnCompleted(c, n).emitted;
    assert |emitted| == 1 && !emitted[0].Timeline?;
    assert Frames(agentID, emitted[..0]) == [];
  }

  /** A completion without a turn identifier ends the turn in the client and sends no frame about it:
      the gateway keeps the turn, which is why notifications have to carry the identifier. */
  lemma NamelessCompletionLeavesTheTurn(s: State, agentID: Bytes, threadID: Bytes, turnID: Bytes)
    requires agentID in s.agents && s.Unsent(agentID) == [] && threadID != [] && turnID != []
    requires Eventually(s, agentID, threadID) == Lookup(s.agents[agentID].activeTurns, threadID) == Some(turnID)
    ensures var t := Notified(s, agentID, Codex.TurnCompleted(threadID, [], [], false, ""));
      && Lookup(t.agents[agentID].activeTurns, threadID) == None
      && Eventually(t, agentID, threadID) == Some(turnID)
  {
    NamelessCompletionIsSilent(agentID, s.agents[agentID], threadID);
    var t := Notified(s, agentID, Codex.TurnCompleted(threadID, [], [], false, ""));
    assert t.Unsent(agentID) == [] == s.Unsent(agentID);
  }

  // ----- what the frames sent say about a restart -----

  predicate Begin(key: Bytes, event: Event) {
    !OnlyClears(key, event)
  }

  predicate Ends(key: Bytes, turnID: Bytes, event: Event) {
    TurnAfter(Some(turnID), key, event) == None
  }

  /** What ends a turn at the gateway: the end of this turn, or of any, or the archiving of its thread. */
  lemma EndsTells(key: Bytes, turnID: Bytes, event: Event)
    requires key != []
    ensures Ends(key, turnID, event) <==>
      || event == CommandCompletedEvent(ThreadArchived(key))
      || TellsOfEnd(event, key, turnID) || TellsOfEnd(event, key, [])
  {
  }

  function Heard(log: seq<Sent>): (frames: seq<Event>)
    ensures |frames| == |log|
  {
    seq(|log|, i requires 0 <= i < |log| => log[i].frame)
  }

  /** Back from the end to the last start of the thread: that set this turn, and no read loop's frame
      since then ends it. */
  predicate Lasting(key: Bytes, turnID: Bytes, log: seq<Sent>) {
    if log == [] then true
    else
      var init, last := log[..|log| - 1], log[|log| - 1];
      if Begin(key, last.frame) then TurnAfter(None, key, last.frame) == Some(turnID)
      else (last.origin.OfLoop? ==> !Ends(key, turnID, last.frame)) && Lasting(key, turnID, init)
  }

  /** Since the last start of the thread, if there was one, a frame has ended the turn. */
  predicate EndedSince(key: Bytes, turnID: Bytes, log: seq<Sent>) {
    if log == [] then true
    else
      var init, last := log[..|log| - 1], log[|log| - 1];
      !Begin(key, last.frame) && (Ends(key, turnID, last.frame) || EndedSince(key, turnID, init))
  }

  lemma LastingOneMore(key: Bytes, turnID: Bytes, log: seq<Sent>, last: Sent)
    ensures Lasting(key, turnID, log + [last]) ==
      if Begin(key, last.frame) then TurnAfter(None, key, last.frame) == Some(turnID)
      else (last.origin.OfLoop? ==> !Ends(key, turnID, last.frame)) && Lasting(key, turnID, log)
    ensures EndedSince(key, turnID, log + [last])
       <==> !Begin(key, last.frame) && (Ends(key, turnID, last.frame) || EndedSince(key, turnID, log))
  {
    assert (log + [last])[..|log|] == log;
  }

  lemma HeardOneMore(log: seq<Sent>, last: Sent)
    ensures Heard(log + [last]) == Heard(log) + [last.frame]
  {
  }

  lemma FinalOneMore(current: Option<Bytes>, key: Bytes, frames: seq<Event>, last: Event)
    ensures Final(current, key, frames + [last]) == TurnAfter(Final(current, key, frames), key, last)
  {
    assert (frames + [last])[..|frames|] == frames;
  }

  ghost predicate EndedAfter(key: Bytes, turnID: Bytes, log: seq<Sent>, p: nat) {
    exists q :: p < q < |log| && Ends(key, turnID, log[q].frame)
  }

  /** Where the turn is the one its last start was about, the frame that ends it came from the command
      handler or from the read loop of an agent that has been restarted. */
  ghost predicate EndedByOthers(key: Bytes, turnID: Bytes, log: seq<Sent>, p: nat) {
    exists q :: p < q < |log| && Ends(key, turnID, log[q].frame) && !log[q].origin.OfLoop?
  }

  lemma AfterOneMore(key: Bytes, turnID: Bytes, log: seq<Sent>, last: Sent, p: nat)
    requires p < |log|
    ensures EndedAfter(key, turnID, log + [last], p)
       <==> EndedAfter(key, turnID, log, p) || Ends(key, turnID, last.frame)
    ensures EndedByOthers(key, turnID, log + [last], p)
       <==> EndedByOthers(key, turnID, log, p) || (Ends(key, turnID, last.frame) && !last.origin.OfLoop?)
  {
    var all := log + [last];
    assert forall q :: 0 <= q < |log| ==> all[q] == log[q];
    assert all[|log|] == last;
  }

  /** In other words: every start of the thread was followed by a frame that ends the turn. */
  lemma {:induction false} EndedSinceIff(key: Bytes, turnID: Bytes, log: seq<Sent>)
    ensures EndedSince(key, turnID, log)
       <==> forall p :: 0 <= p < |log| && Begin(key, log[p].frame) ==> EndedAfter(key, turnID, log, p)
    ensures EndedSince(key, turnID, log) && Lasting(key, turnID, log) ==>
      forall p :: 0 <= p < |log| && Begin(key, log[p].frame) ==> EndedByOthers(key, turnID, log, p)
  {
    if log != [] {
      var n := |log| - 1;
      var init, last := log[..n], log[n];
      assert log == init + [last];
      EndedSinceIff(key, turnID, init);
      forall p: nat | p < n
        ensures log[p] == init[p]
        ensures EndedAfter(key, turnID, log, p) <==> EndedAfter(key, turnID, init, p) || Ends(key, turnID, last.frame)
        ensures EndedByOthers(key, turnID, log, p)
           <==> EndedByOthers(key, turnID, init, p) || (Ends(key, turnID, last.frame) && !last.origin.OfLoop?)
      {
        AfterOneMore(key, turnID, init, last, p);
      }
      if Ends(key, turnID, last.frame) {
        EndIsNoStart(key, turnID, last.frame);
      }
      assert !EndedAfter(key, turnID, log, n);
    }
  }

  lemma EndIsNoStart(key: Bytes, turnID: Bytes, event: Event)
    requires Ends(key, turnID, event)
    ensures OnlyClears(key, event)
  {
    if TurnAfter(None, key, event).Some? {
      TurnAfterForgets(Some(turnID), key, event);
    }
  }

  /** So what was sent leaves the turn at the gateway, unless it has been ended since. */
  lemma {:induction false} LastingDecides(key: Bytes, turnID: Bytes, log: seq<Sent>)
    requires Lasting(key, turnID, log)
    ensures Final(None, key, Heard(log)) == if EndedSince(key, turnID, log) then None else Some(turnID)
  {
    if log != [] {
      var init, last := log[..|log| - 1], log[|log| - 1];
      assert log == init + [last];
      HeardOneMore(init, last);
      FinalOneMore(None, key, Heard(init), last.frame);
      if Begin(key, last.frame) {
        TurnAfterForgets(Final(None, key, Heard(init)), key, last.frame);
      } else {
        LastingDecides(key, turnID, init);
        ClearsOrKeeps(Final(None, key, Heard(init)), key, last.frame);
      }
    }
  }

  ghost predicate HistoryEnds(key: Bytes, turnID: Bytes, log: seq<Sent>) {
    forall p :: 0 <= p < |log| && Begin(key, log[p].frame) ==> EndedByOthers(key, turnID, log, p)
  }

  lemma HistoryDecides(key: Bytes, turnID: Bytes, log: seq<Sent>)
    requires Lasting(key, turnID, log)
    ensures Final(None, key, Heard(log)) == if HistoryEnds(key, turnID, log) then None else Some(turnID)
  {
    LastingDecides(key, turnID, log);
    EndedSinceIff(key, turnID, log);
    forall p: nat | EndedByOthers(key, turnID, log, p)
      ensures EndedAfter(key, turnID, log, p)
    {
    }
  }

  /** A frame of someone else in between changes nothing. */
  lemma {:induction false} LastingInserted(key: Bytes, turnID: Bytes, log: seq<Sent>, extra: Sent, rest: seq<Sent>)
    requires Lasting(key, turnID, log + rest) && OnlyClears(key, extra.frame)
    requires extra.origin.OfLoop? ==> !Ends(key, turnID, extra.frame)
    ensures Lasting(key, turnID, log + [extra] + rest)
    decreases |rest|
  {
    if rest == [] {
      assert log + rest == log && log + [extra] + rest == log + [extra];
      LastingOneMore(key, turnID, log, extra);
    } else {
      var init, last := rest[..|rest| - 1], rest[|rest| - 1];
      MiddleSplits(log, extra, rest);
      LastingOneMore(key, turnID, log + init, last);
      LastingOneMore(key, turnID, log + [extra] + init, last);
      if !Begin(key, last.frame) {
        LastingInserted(key, turnID, log, extra, init);
      }
    }
  }

  lemma MiddleSplits(log: seq<Sent>, extra: Sent, rest: seq<Sent>)
    requires rest != []
    ensures var init, last := rest[..|rest| - 1], rest[|rest| - 1];
      log + rest == (log + init) + [last] && log + [extra] + rest == (log + [extra] + init) + [last]
  {
  }

  /** Frames of a read loop that start nothing and do not end the turn may follow, or be taken away. */
  lemma {:induction false} LastingFollowed(key: Bytes, turnID: Bytes, log: seq<Sent>, frames: seq<Event>)
    requires AllClear(key, frames)
    ensures Lasting(key, turnID, log + FromLoop(frames))
       <==> Lasting(key, turnID, log) && forall k :: 0 <= k < |frames| ==> !Ends(key, turnID, frames[k])
    decreases |frames|
  {
    if frames == [] {
      assert log + FromLoop(frames) == log;
    } else {
      var n := |frames| - 1;
      LastingFollowed(key, turnID, log, frames[..n]);
      assert log + FromLoop(frames) == (log + FromLoop(frames[..n])) + [Sent(frames[n], OfLoop)];
      LastingOneMore(key, turnID, log + FromLoop(frames[..n]), Sent(frames[n], OfLoop));
    }
  }

  /** What the gateway makes of the frames on the wire is what they make of nothing, all of them. */
  predicate Recorded(s: State, key: Bytes) {
    Final(Lookup(s.gateway, key), key, s.wire) == Final(None, key, Heard(s.log))
  }

  /** A turn that is active in an agent is the one its last start was about, sent or not. */
  predicate Told(s: State, agentID: Bytes, threadID: Bytes)
    requires agentID in s.agents
  {
    var turns, key := s.agents[agentID].activeTurns, PublicThreadID(agentID, threadID);
    threadID in turns ==> Lasting(key, turns[threadID], s.log + FromLoop(s.Unsent(agentID)))
  }

  ghost predicate AllTold(s: State) {
    && (forall key: Bytes :: Recorded(s, key))
    && (forall agentID, threadID :: agentID in s.agents && Raw(threadID) ==> Told(s, agentID, threadID))
  }

  lemma PutKeepsRecorded(s: State, frame: Event, origin: Origin, key: Bytes)
    requires Recorded(s, key)
    ensures Recorded(Put(s, frame, origin), key)
  {
    FinalOneMore(Lookup(s.gateway, key), key, s.wire, frame);
    HeardOneMore(s.log, Sent(frame, origin));
    FinalOneMore(None, key, Heard(s.log), frame);
  }

  lemma StepKeepsRecorded(s: State, a: Action, key: Bytes)
    requires Recorded(s, key) && Enabled(s, a)
    ensures Recorded(Apply(s, a), key)
  {
    match a
    case Notify(_, _) =>
    case Send(agentID) => PutKeepsRecorded(s, s.Unsent(agentID)[0], OfLoop, key);
    case Interrupt(agentID, threadID, turnID) =>
      PutKeepsRecorded(s, TurnEndedEvent(PublicThreadID(agentID, threadID), turnID), OfCommand, key);
    case Archive(id) => PutKeepsRecorded(s, CommandCompletedEvent(ThreadArchived(id)), OfCommand, key);
    case Restart(_) =>
    case SendOrphan(k) => PutKeepsRecorded(s, s.orphans[k], OfFormer, key);
    case Deliver =>
      FirstFrameFirst(s.gateway, key, s.wire, []);
      assert s.wire[1..] + [] == s.wire[1..] && s.wire + [] == s.wire;
  }

  lemma OtherEndSpares(key: Bytes, turnID: Bytes, event: Event, threadID: Bytes, ended: Bytes)
    requires TellsOfEnd(event, threadID, ended) && threadID != [] && ended != []
    requires key != threadID || turnID != ended
    ensures OnlyClears(key, event) && !Ends(key, turnID, event)
  {
  }

  lemma OtherFramesAreNeutral(agentID: Bytes, c: Codex.Client, n: Codex.Notification, k: nat)
    requires !n.TurnStarted? && !n.TurnCompleted? && k < |Frames(agentID, Codex.Handle(c, n).emitted)|
    ensures Neutral(Frames(agentID, Codex.Handle(c, n).emitted)[k])
  {
    OthersTellOfNoTurn(c, n);
    FramesAreNeutral(agentID, Codex.Handle(c, n).emitted);
  }

  lemma EndSparesActive(agentID: Bytes, c: Codex.Client, n: Codex.Notification, threadID: Bytes, turnID: Bytes, k: nat)
    requires !Blank(agentID) && Proper(n) && Raw(threadID) && n.TurnCompleted?
    requires n.threadID != threadID || n.turnID != turnID
    requires k < |Frames(agentID, Codex.Handle(c, n).emitted)|
    ensures var event, key := Frames(agentID, Codex.Handle(c, n).emitted)[k], PublicThreadID(agentID, threadID);
      OnlyClears(key, event) && !Ends(key, turnID, event)
  {
    var ended := PublicTimelineThreadID(agentID, n.threadID);
    EndIsTold(agentID, c, n, k);
    PublicName(agentID, n.threadID, agentID, threadID);
    OtherEndSpares(PublicThreadID(agentID, threadID), turnID, Frames(agentID, Codex.Handle(c, n).emitted)[k], ended,
        n.turnID);
  }

  lemma EndIsTold(agentID: Bytes, c: Codex.Client, n: Codex.Notification, k: nat)
    requires Proper(n) && n.TurnCompleted? && k < |Frames(agentID, Codex.Handle(c, n).emitted)|
    ensures TellsOfEnd(Frames(agentID, Codex.Handle(c, n).emitted)[k], PublicTimelineThreadID(agentID, n.threadID),
        n.turnID)
  {
    FramesOfEnd(agentID, c, n);
  }

  lemma FrameSparesActive(agentID: Bytes, c: Codex.Client, n: Codex.Notification, threadID: Bytes, turnID: Bytes,
                          k: nat)
    requires !Blank(agentID) && Proper(n) && Raw(threadID) && !(n.TurnStarted? && n.threadID == threadID)
    requires !(n.TurnCompleted? && n.threadID == threadID && n.turnID == turnID)
    requires k < |Frames(agentID, Codex.Handle(c, n).emitted)|
    ensures var event, key := Frames(agentID, Codex.Handle(c, n).emitted)[k], PublicThreadID(agentID, threadID);
      OnlyClears(key, event) && !Ends(key, turnID, event)
  {
    var key, frames := PublicThreadID(agentID, threadID), Frames(agentID, Codex.Handle(c, n).emitted);
    if n.TurnStarted? {
      PublicName(agentID, n.threadID, agentID, threadID);
      FramesOfStart(agentID, c, n);
      StartsSpareOthers(key, frames, k, PublicTimelineThreadID(agentID, n.threadID), n.turnID);
    } else if n.TurnCompleted? {
      EndSparesActive(agentID, c, n, threadID, turnID, k);
    } else {
      OtherFramesAreNeutral(agentID, c, n, k);
      NeutralOnlyClears(key, frames[k]);
    }
  }

  lemma FramesSpareActive(agentID: Bytes, c: Codex.Client, n: Codex.Notification, threadID: Bytes)
    requires !Blank(agentID) && Proper(n) && Raw(threadID)
    requires threadID in Codex.Handle(c, n).client.activeTurns && !(n.TurnStarted? && n.threadID == threadID)
    ensures var e, key := Codex.Handle(c, n), PublicThreadID(agentID, threadID);
            var frames, turnID := Frames(agentID, e.emitted), e.client.activeTurns[threadID];
      && threadID in c.activeTurns && c.activeTurns[threadID] == turnID && AllClear(key, frames)
      && forall k :: 0 <= k < |frames| ==> !Ends(key, turnID, frames[k])
  {
    var e := Codex.Handle(c, n);
    HandleTurns(c, n);
    forall k | 0 <= k < |Frames(agentID, e.emitted)|
      ensures OnlyClears(PublicThreadID(agentID, threadID), Frames(agentID, e.emitted)[k])
      ensures !Ends(PublicThreadID(agentID, threadID), e.client.activeTurns[threadID], Frames(agentID, e.emitted)[k])
    {
      FrameSparesActive(agentID, c, n, threadID, e.client.activeTurns[threadID], k);
    }
  }

  lemma StartIsTold(agentID: Bytes, c: Codex.Client, n: Codex.Notification, log: seq<Sent>)
    requires !Blank(agentID) && Proper(n) && n.TurnStarted?
    ensures Lasting(PublicThreadID(agentID, n.threadID), n.turnID,
                    log + FromLoop(Frames(agentID, Codex.Handle(c, n).emitted)))
  {
    var key, frames := PublicThreadID(agentID, n.threadID), Frames(agentID, Codex.Handle(c, n).emitted);
    PublicName(agentID, n.threadID, agentID, n.threadID);
    FramesOfStart(agentID, c, n);
    assert log + FromLoop(frames) == log + FromLoop(frames[..1]) + [Sent(frames[1], OfLoop)];
    LastingOneMore(key, n.turnID, log + FromLoop(frames[..1]), Sent(frames[1], OfLoop));
  }

  lemma NotifyKeepsTold(s: State, a: Action, agentID: Bytes, threadID: Bytes)
    requires Enabled(s, a) && a.Notify? && agentID in s.agents && !Blank(agentID) && Raw(threadID)
    requires Told(s, agentID, threadID)
    ensures Told(Apply(s, a), agentID, threadID)
  {
    if agentID == a.agentID {
      var c, frames := s.agents[agentID], Apply(s, a).Unsent(agentID);
      var turns, key := Codex.Handle(c, a.n).client.activeTurns, PublicThreadID(agentID, threadID);
      if threadID in turns {
        if a.n.TurnStarted? && a.n.threadID == threadID {
          HandleTurns(c, a.n);
          StartIsTold(agentID, c, a.n, s.log);
        } else {
          FramesSpareActive(agentID, c, a.n, threadID);
          assert s.log + FromLoop([]) == s.log;
          LastingFollowed(key, turns[threadID], s.log, frames);
        }
      }
    }
  }

  /** A frame that starts no turn of the thread, and ends none if it comes from a read loop. */
  lemma PutKeepsTold(s: State, t: State, frame: Event, origin: Origin, agentID: Bytes, threadID: Bytes)
    requires agentID in s.agents && Told(s, agentID, threadID)
    requires t.agents == s.agents && t.Unsent(agentID) == s.Unsent(agentID) && t.log == s.log + [Sent(frame, origin)]
    requires OnlyClears(PublicThreadID(agentID, threadID), frame)
    requires origin.OfLoop? ==> Spares(PublicThreadID(agentID, threadID), frame)
    ensures Told(t, agentID, threadID)
  {
    var turns, key := s.agents[agentID].activeTurns, PublicThreadID(agentID, threadID);
    if threadID in turns {
      LastingInserted(key, turns[threadID], s.log, Sent(frame, origin), FromLoop(s.Unsent(agentID)));
    }
  }

  lemma SendKeepsTold(s: State, a: Action, agentID: Bytes, threadID: Bytes)
    requires AllBacked(s) && Enabled(s, a) && a.Send? && agentID in s.agents && Raw(threadID)
    requires Told(s, agentID, threadID)
    ensures Told(Apply(s, a), agentID, threadID)
  {
    var frames := s.Unsent(a.agentID);
    if agentID == a.agentID {
      MovedToLog(s.log, frames);
    } else {
      assert OwnFrames(a.agentID, frames);
      assert Spares(PublicThreadID(agentID, threadID), frames[0]);
      PutKeepsTold(s, Apply(s, a), frames[0], OfLoop, agentID, threadID);
    }
  }

  lemma MovedToLog(log: seq<Sent>, frames: seq<Event>)
    requires frames != []
    ensures log + [Sent(frames[0], OfLoop)] + FromLoop(frames[1..]) == log + FromLoop(frames)
  {
    assert FromLoop(frames) == [Sent(frames[0], OfLoop)] + FromLoop(frames[1..]);
  }

  lemma CommandKeepsTold(s: State, a: Action, agentID: Bytes, threadID: Bytes)
    requires Enabled(s, a) && (a.Interrupt? || a.Archive?) && agentID in s.agents && Told(s, agentID, threadID)
    ensures Told(Apply(s, a), agentID, threadID)
  {
    var frame := if a.Interrupt? then TurnEndedEvent(PublicThreadID(a.agentID, a.threadID), a.turnID)
                 else CommandCompletedEvent(ThreadArchived(a.publicThreadID));
    PutKeepsTold(s, Apply(s, a), frame, OfCommand, agentID, threadID);
  }

  lemma StepKeepsTold(s: State, a: Action, agentID: Bytes, threadID: Bytes)
    requires AllBacked(s) && Enabled(s, a) && Calm(s, a) && agentID in s.agents && Raw(threadID)
    requires Told(s, agentID, threadID)
    ensures Told(Apply(s, a), agentID, threadID)
  {
    match a
    case Notify(_, _) => NotifyKeepsTold(s, a, agentID, threadID);
    case Send(_) => SendKeepsTold(s, a, agentID, threadID);
    case Interrupt(_, _, _) => CommandKeepsTold(s, a, agentID, threadID);
    case Archive(_) => CommandKeepsTold(s, a, agentID, threadID);
    case Restart(_) => assert agentID != a.agentID ==> Apply(s, a).Unsent(agentID) == s.Unsent(agentID);
    case SendOrphan(k) =>
      assert AllClear(PublicThreadID(agentID, threadID), s.orphans);
      PutKeepsTold(s, Apply(s, a), s.orphans[k], OfFormer, agentID, threadID);
    case Deliver =>
  }

  lemma StepKeepsAllTold(s: State, a: Action)
    requires AllBacked(s) && AllTold(s) && Enabled(s, a) && Calm(s, a)
    ensures AllTold(Apply(s, a))
  {
    forall key: Bytes
      ensures Recorded(Apply(s, a), key)
    {
      assert Recorded(s, key);
      StepKeepsRecorded(s, a, key);
    }
    forall agentID, threadID | agentID in Apply(s, a).agents && Raw(threadID)
      ensures Told(Apply(s, a), agentID, threadID)
    {
      assert agentID in s.agents && Told(s, agentID, threadID);
      StepKeepsTold(s, a, agentID, threadID);
    }
  }

  lemma {:induction false} RunKeepsTold(s: State, actions: seq<Action>, t: State)
    requires Begins(s) && ReachesCalmly(s, actions, t)
    ensures AllTold(t)
  {
    if actions == [] {
      assert Heard([]) == [];
      forall agentID, threadID | agentID in s.agents && Raw(threadID)
        ensures Told(s, agentID, threadID)
      {
        assert s.log + FromLoop(s.Unsent(agentID)) == [];
      }
    } else {
      var n := |actions| - 1;
      var u :| ReachesCalmly(s, actions[..n], u) && Enabled(u, actions[n]) && Calm(u, actions[n])
               && t == Apply(u, actions[n]);
      RunKeepsTold(s, actions[..n], u);
      RunKeepsBacked(s, actions[..n], u);
      StepKeepsAllTold(u, actions[n]);
    }
  }

  /** Every thread of the agent is backed, and no frame still to come starts a turn of it. */
  ghost predicate AgentBacked(s: State, agentID: Bytes)
    requires agentID in s.agents
  {
    forall threadID :: Raw(threadID) ==>
      Backed(s, agentID, threadID) && AllClear(PublicThreadID(agentID, threadID), s.orphans)
  }

  /** The frames of the turn's start have been sent, and after every frame that started the thread the
      command handler has sent one that ends the turn, an interrupt of it or the archiving of its thread,
      or the read loop of an agent that was restarted has sent its end, or is about to. */
  ghost predicate Settled(s: State, agentID: Bytes, threadID: Bytes, turnID: Bytes) {
    var key := PublicThreadID(agentID, threadID);
    && AllClear(key, s.Unsent(agentID))
    && (HistoryEnds(key, turnID, s.log) || Doomed(s, key, Some(turnID)))
  }

  lemma OrphansAfterRestart(s: State, agentID: Bytes, key: Bytes)
    requires agentID in s.agents && AllClear(key, s.orphans)
    ensures AllClear(key, Apply(s, Restart(agentID)).orphans) <==> AllClear(key, s.Unsent(agentID))
  {
    var orphans := Apply(s, Restart(agentID)).orphans;
    assert orphans == s.orphans + s.Unsent(agentID);
    forall k | 0 <= k < |s.Unsent(agentID)|
      ensures orphans[|s.orphans| + k] == s.Unsent(agentID)[k]
    {
    }
  }

  lemma DoomedAfterRestart(s: State, agentID: Bytes, key: Bytes, turnID: Bytes)
    requires agentID in s.agents
    requires forall k :: 0 <= k < |s.Unsent(agentID)| ==> !Ends(key, turnID, s.Unsent(agentID)[k])
    ensures Doomed(Apply(s, Restart(agentID)), key, Some(turnID)) <==> Doomed(s, key, Some(turnID))
  {
    var orphans := Apply(s, Restart(agentID)).orphans;
    assert forall k :: 0 <= k < |s.orphans| ==> orphans[k] == s.orphans[k];
    assert forall k :: |s.orphans| <= k < |orphans| ==> orphans[k] == s.Unsent(agentID)[k - |s.orphans|];
  }

  lemma ActiveThreadIsBackedIff(t: State, agentID: Bytes, threadID: Bytes)
    requires agentID in t.agents && threadID in t.agents[agentID].activeTurns && Told(t, agentID, threadID)
    requires var key := PublicThreadID(agentID, threadID); AllClear(key, t.orphans) && Recorded(t, key)
    ensures var u, key := Apply(t, Restart(agentID)), PublicThreadID(agentID, threadID);
      (Backed(u, agentID, threadID) && AllClear(key, u.orphans)) <==>
        Settled(t, agentID, threadID, t.agents[agentID].activeTurns[threadID])
  {
    var u, key := Apply(t, Restart(agentID)), PublicThreadID(agentID, threadID);
    var turnID := t.agents[agentID].activeTurns[threadID];
    OrphansAfterRestart(t, agentID, key);
    if AllClear(key, t.Unsent(agentID)) {
      LastingFollowed(key, turnID, t.log, t.Unsent(agentID));
      HistoryDecides(key, turnID, t.log);
      DoomedAfterRestart(t, agentID, key, turnID);
      assert u.wire + u.Unsent(agentID) == t.wire;
    }
  }

  /** When a restart is the next thing after a calm run, whatever has been sent of what the read loops
      have to say, the agent's threads stay backed exactly if for each turn the agent has active the
      frames of its start have been sent, and a frame that ends it since. */
  lemma RestartKeepsBackedIff(s: State, actions: seq<Action>, t: State, agentID: Bytes)
    requires Begins(s) && ReachesCalmly(s, actions, t) && agentID in t.agents
    ensures AgentBacked(Apply(t, Restart(agentID)), agentID)
       <==> forall threadID <- t.agents[agentID].activeTurns :: Raw(threadID) ==>
              Settled(t, agentID, threadID, t.agents[agentID].activeTurns[threadID])
  {
    RunKeepsBacked(s, actions, t);
    RunKeepsTold(s, actions, t);
    var u := Apply(t, Restart(agentID));
    forall threadID | Raw(threadID)
      ensures (Backed(u, agentID, threadID) && AllClear(PublicThreadID(agentID, threadID), u.orphans))
         <==> (threadID in t.agents[agentID].activeTurns ==>
                 Settled(t, agentID, threadID, t.agents[agentID].activeTurns[threadID]))
    {
      assert AllClear(PublicThreadID(agentID, threadID), t.orphans) && Recorded(t, PublicThreadID(agentID, threadID));
      if threadID in t.agents[agentID].activeTurns {
        assert Told(t, agentID, threadID);
        ActiveThreadIsBackedIff(t, agentID, threadID);
      } else {
        assert Backed(t, agentID, threadID) && Announced(t, agentID, threadID);
        RestartKeepsOwnBacked(t, agentID, threadID);
        OrphansAfterRestart(t, agentID, PublicThreadID(agentID, threadID));
      }
    }
  }

  ghost predicate Leads(s: State, t: State) {
    exists actions :: Reaches(s, actions, t)
  }

  lemma LeadsOn(s: State, t: State, a: Action)
    requires Leads(s, t) && Enabled(t, a)
    ensures Leads(s, Apply(t, a))
  {
    var actions :| Reaches(s, actions, t);
    var longer := actions + [a];
    assert longer[..|actions|] == actions;
    assert Reaches(s, longer, Apply(t, a));
  }

  /** A session with one agent. */
  function Session(agentID: Bytes): State {
    State(map[agentID := Codex.FRESH], map[], [], [], map[], [])
  }

  function FromLoop(frames: seq<Event>): seq<Sent> {
    seq(|frames|, i requires 0 <= i < |frames| => Sent(frames[i], OfLoop))
  }

  function WithSent(t: State, agentID: Bytes, unsent: seq<Event>, frames: seq<Event>): State {
    t.(unsent := t.unsent[agentID := unsent], wire := t.wire + frames, log := t.log + FromLoop(frames))
  }

  lemma OneIsSent(s: State, t: State, agentID: Bytes, frame: Event, rest: seq<Event>)
    requires Leads(s, t) && t.Unsent(agentID) == [frame] + rest
    ensures Leads(s, WithSent(t, agentID, rest, [frame]))
  {
    LeadsOn(s, t, Send(agentID));
    assert ([frame] + rest)[1..] == rest;
    assert FromLoop([frame]) == [Sent(frame, OfLoop)];
  }

  lemma BothAreSent(s: State, t: State, agentID: Bytes, first: Event, second: Event)
    requires Leads(s, t) && t.Unsent(agentID) == [first, second]
    ensures Leads(s, WithSent(t, agentID, [], [first, second]))
  {
    assert [first, second] == [first] + [second] && [second] == [second] + [];
    OneIsSent(s, t, agentID, first, [second]);
    var sent := WithSent(t, agentID, [second], [first]);
    OneIsSent(s, sent, agentID, second, []);
    SentTogether(t, agentID, first, second);
  }

  lemma SentTogether(t: State, agentID: Bytes, first: Event, second: Event)
    ensures WithSent(WithSent(t, agentID, [second], [first]), agentID, [], [second])
         == WithSent(t, agentID, [], [first, second])
  {
    assert FromLoop([first]) + FromLoop([second]) == FromLoop([first, second]);
    assert t.log + FromLoop([first]) + FromLoop([second]) == t.log + FromLoop([first, second]);
    assert t.wire + [first] + [second] == t.wire + [first, second];
  }

  /** A session of one agent, of which these frames are to be sent and those are on the wire. */
  function Under(agentID: Bytes, client: Codex.Client, frames: seq<Event>, wire: seq<Event>): State {
    State(map[agentID := client], map[agentID := frames], [], wire, map[], FromLoop(wire))
  }

  lemma NotifyGoesUnder(agentID: Bytes, n: Codex.Notification)
    requires Proper(n)
    ensures var e := Codex.Handle(Codex.FRESH, n);
      Leads(Session(agentID), Under(agentID, e.client, Frames(agentID, e.emitted), []))
  {
    var s := Session(agentID);
    assert Reaches(s, [], s);
    LeadsOn(s, s, Notify(agentID, n));
    var e := Codex.Handle(Codex.FRESH, n);
    assert Apply(s, Notify(agentID, n)) == Under(agentID, e.client, Frames(agentID, e.emitted), []);
  }

  lemma BothGoOut(s: State, agentID: Bytes, client: Codex.Client, frames: seq<Event>)
    requires |frames| == 2 && Leads(s, Under(agentID, client, frames, []))
    ensures Leads(s, Under(agentID, client, [], frames))
  {
    var t := Under(agentID, client, frames, []);
    assert frames == [frames[0], frames[1]];
    BothAreSent(s, t, agentID, frames[0], frames[1]);
    assert t.unsent[agentID := []] == map[agentID := []] && t.wire + frames == frames;
    assert t.log + FromLoop(frames) == FromLoop(frames);
  }

  /** Without calm it breaks: the turn starts, both frames about it are sent, and the agent is
      restarted; nothing is left that would end the turn at the gateway. */
  lemma RestartWithATurnLeavesIt(agentID: Bytes, threadID: Bytes, turnID: Bytes)
    requires !Blank(agentID) && Raw(threadID) && turnID != []
    ensures exists t :: Leads(Session(agentID), t) && Stranded(t, agentID, threadID, turnID)
  {
    var n := Codex.TurnStarted(threadID, turnID, []);
    var e, key := Codex.Handle(Codex.FRESH, n), PublicThreadID(agentID, threadID);
    FramesOfStart(agentID, Codex.FRESH, n);
    NotifyGoesUnder(agentID, n);
    BothGoOut(Session(agentID), agentID, e.client, Frames(agentID, e.emitted));
    var sent := Under(agentID, e.client, [], Frames(agentID, e.emitted));
    LeadsOn(Session(agentID), sent, Restart(agentID));
    var t := Apply(sent, Restart(agentID));
    PublicName(agentID, threadID, agentID, threadID);
    StartTwice(None, key, sent.wire, key, turnID);
    assert t.wire + t.Unsent(agentID) == sent.wire;
    assert Stranded(t, agentID, threadID, turnID);
  }

  /** The gateway will have the turn active and the agent has none, with no frame left to come. */
  predicate Stranded(t: State, agentID: Bytes, threadID: Bytes, turnID: Bytes) {
    && agentID in t.agents && t.orphans == [] && t.Unsent(agentID) == []
    && Eventually(t, agentID, threadID) == Some(turnID) && Lookup(t.agents[agentID].activeTurns, threadID) == None
  }
}
