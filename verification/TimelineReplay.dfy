/** Replaying a thread's events in the order of their sequence numbers shows, turn by turn, what was
    shown live. It rests on two facts about the fold: an event touches messages of its own turn only,
    and message identifiers stay distinct, with at most one agent message for a turn. */
module TimelineReplay {
  import opened Text
  import opened TimelineModel

  /** The turn that an event identifier belongs to. */
  type TurnOf = string -> Option<string>

  // ----- the shape of message lists -----

  /** A message made from an event carries the turn that its identifier tells of. */
  predicate ShapedMessage(message: Message, turnOf: TurnOf) {
    match message.id
    case UserID(InTurn(turnID), _) => message.turnID == Some(turnID) && message.kind == User
    case UserID(InEvent(eventID), _) => message.turnID == None == turnOf(eventID) && message.kind == User
    case FailedID(turnID) => message.turnID == turnID && message.kind == System
    case SystemID(eventID) => message.turnID == turnOf(eventID) && message.kind == System
    case AgentID(turnID) => message.turnID == Some(turnID) && message.kind == Agent
    case HistoryID(_) => true
  }

  predicate Shaped(messages: seq<Message>, turnOf: TurnOf) {
    forall i :: 0 <= i < |messages| ==> ShapedMessage(messages[i], turnOf)
  }

  predicate DistinctIDs(messages: seq<Message>) {
    forall i, j :: 0 <= i < j < |messages| ==> messages[i].id != messages[j].id
  }

  predicate OneAgentPerTurn(messages: seq<Message>) {
    forall i, j ::
      0 <= i < j < |messages| && messages[i].kind == Agent && messages[j].kind == Agent && messages[i].turnID.Some? ==>
      messages[i].turnID != messages[j].turnID
  }

  predicate Orderly(messages: seq<Message>, turnOf: TurnOf) {
    Shaped(messages, turnOf) && DistinctIDs(messages) && OneAgentPerTurn(messages)
  }

  /** Identifiers are made anew for each event; none is shared between turns. */
  predicate Belongs(event: Event, turnOf: TurnOf) {
    turnOf(event.eventID) == event.turnID
  }

  predicate AllBelong(events: seq<Event>, turnOf: TurnOf) {
    forall i :: 0 <= i < |events| ==> Belongs(events[i], turnOf)
  }

  lemma UpsertKeepsOrder(current: seq<Message>, next: Message, turnOf: TurnOf)
    requires Orderly(current, turnOf) && ShapedMessage(next, turnOf) && next.kind != Agent && !next.id.HistoryID?
    ensures Orderly(Upserted(current, next), turnOf)
  {
    var after := Upserted(current, next);
    if Has(current, next.id) {
      forall i | 0 <= i < |after|
        ensures after[i].id == current[i].id && after[i].kind == current[i].kind && after[i].turnID == current[i].turnID
      {
        assert ShapedMessage(current[i], turnOf);
      }
      forall i | 0 <= i < |after|
        ensures ShapedMessage(after[i], turnOf)
      {
        assert ShapedMessage(current[i], turnOf);
      }
    }
  }

  /** Merging changes neither identifier nor kind of an agent message, nor its turn. */
  lemma MergeAgentKeepsIdentity(message: Message, event: Event)
    ensures MergeAgent(message, event).id == message.id && MergeAgent(message, event).kind == message.kind
    ensures message.turnID == event.turnID ==> MergeAgent(message, event).turnID == message.turnID
  {
  }

  lemma MergeIntoAgentKeepsOrder(current: seq<Message>, event: Event, turnOf: TurnOf)
    requires Orderly(current, turnOf) && Truthy(event.turnID)
    ensures Orderly(MergeIntoAgent(current, event), turnOf)
  {
    var turnID := event.turnID.value;
    var i := FindAgent(current, turnID);
    var after := MergeIntoAgent(current, event);
    if i < |current| {
      assert ShapedMessage(current[i], turnOf);
      MergeAgentKeepsIdentity(current[i], event);
      forall j | 0 <= j < |after|
        ensures ShapedMessage(after[j], turnOf)
        ensures after[j].id == current[j].id && after[j].kind == current[j].kind && after[j].turnID == current[j].turnID
      {
        assert ShapedMessage(current[j], turnOf);
      }
    } else {
      MergeAgentKeepsIdentity(Blanked(AgentID(turnID), Agent, "", event.turnID), event);
      forall j | 0 <= j < |current|
        ensures !IsAgentOf(current[j], turnID)
      {
      }
    }
  }

  lemma MergeEventKeepsOrder(current: seq<Message>, event: Event, turnOf: TurnOf)
    requires Orderly(current, turnOf) && Belongs(event, turnOf)
    ensures Orderly(MergeEvent(current, event), turnOf)
  {
    if !Truthy(event.turnID) && event.eventType != SystemEvent {
    } else if event.fromUser || event.phase == Input {
      UpsertKeepsOrder(current, Blanked(UserMessageID(event), User, DisplayText(event), event.turnID), turnOf);
    } else if event.eventType == TurnFailed {
      UpsertKeepsOrder(current, Blanked(FailedID(event.turnID), System,
        if Truthy(event.error) then "执行失败：" + event.error.value else "执行失败", event.turnID), turnOf);
    } else if event.eventType == SystemEvent || event.phase == SystemPhase {
      UpsertKeepsOrder(current, Blanked(SystemID(event.eventID), System, SystemText(event), event.turnID), turnOf);
    } else {
      MergeIntoAgentKeepsOrder(current, event, turnOf);
    }
  }

  /** In every fold message identifiers stay pairwise distinct, and a turn has at most one agent
      message. */
  lemma {:induction false} FoldKeepsOrder(current: seq<Message>, events: seq<Event>, turnOf: TurnOf)
    requires Orderly(current, turnOf) && AllBelong(events, turnOf)
    ensures Orderly(Fold(current, events), turnOf)
  {
    if events != [] {
      var n := |events| - 1;
      FoldKeepsOrder(current, events[..n], turnOf);
      assert Belongs(events[n], turnOf);
      MergeEventKeepsOrder(Fold(current, events[..n]), events[n], turnOf);
    }
  }

  // ----- one turn's share -----

  function Share(messages: seq<Message>, turnID: Option<string>): seq<Message> {
    if messages == [] then []
    else
      var init, last := messages[..|messages| - 1], messages[|messages| - 1];
      Share(init, turnID) + if last.turnID == turnID then [last] else []
  }

  function Select(events: seq<Event>, turnID: Option<string>): seq<Event> {
    if events == [] then []
    else
      var init, last := events[..|events| - 1], events[|events| - 1];
      Select(init, turnID) + if last.turnID == turnID then [last] else []
  }

  lemma ShareOfAppended(messages: seq<Message>, message: Message, turnID: Option<string>)
    ensures Share(messages + [message], turnID)
         == Share(messages, turnID) + if message.turnID == turnID then [message] else []
  {
    assert (messages + [message])[..|messages|] == messages;
  }

  lemma {:induction false} ShareHas(messages: seq<Message>, turnID: Option<string>, message: Message)
    ensures message in Share(messages, turnID) <==> message in messages && message.turnID == turnID
  {
    if messages != [] {
      ShareHas(messages[..|messages| - 1], turnID, message);
      assert messages == messages[..|messages| - 1] + [messages[|messages| - 1]];
    }
  }

  // upserts

  /** Every message of this identifier is of this turn. */
  predicate TurnFixed(messages: seq<Message>, id: MessageID, turnID: Option<string>) {
    forall i :: 0 <= i < |messages| && messages[i].id == id ==> messages[i].turnID == turnID
  }

  function ReplacedOne(message: Message, next: Message): Message {
    if message.id == next.id then Overlaid(message, next) else message
  }

  lemma ReplacedOfAppended(messages: seq<Message>, message: Message, next: Message)
    ensures Replaced(messages + [message], next) == Replaced(messages, next) + [ReplacedOne(message, next)]
  {
  }

  lemma ShareStep(init: seq<Message>, last: Message, next: Message, turnID: Option<string>)
    requires last.id == next.id ==> last.turnID == next.turnID
    requires Share(Replaced(init, next), turnID)
          == if turnID == next.turnID then Replaced(Share(init, turnID), next) else Share(init, turnID)
    ensures Share(Replaced(init + [last], next), turnID)
         == if turnID == next.turnID then Replaced(Share(init + [last], turnID), next) else Share(init + [last], turnID)
  {
    ReplacedOfAppended(init, last, next);
    ShareOfAppended(Replaced(init, next), ReplacedOne(last, next), turnID);
    ShareOfAppended(init, last, turnID);
    if last.turnID == turnID == next.turnID {
      ReplacedOfAppended(Share(init, turnID), last, next);
    }
  }

  lemma {:induction false} ShareOfReplaced(messages: seq<Message>, next: Message, turnID: Option<string>)
    requires TurnFixed(messages, next.id, next.turnID)
    ensures Share(Replaced(messages, next), turnID)
         == if turnID == next.turnID then Replaced(Share(messages, turnID), next) else Share(messages, turnID)
  {
    if messages == [] {
      assert Replaced([], next) == [];
    } else {
      var n := |messages| - 1;
      ShareOfReplaced(messages[..n], next, turnID);
      ShareStep(messages[..n], messages[n], next, turnID);
      assert messages == messages[..n] + [messages[n]];
    }
  }

  lemma ShareOfUpserted(messages: seq<Message>, next: Message, turnID: Option<string>)
    requires TurnFixed(messages, next.id, next.turnID)
    ensures Share(Upserted(messages, next), turnID)
         == if turnID == next.turnID then Upserted(Share(messages, turnID), next) else Share(messages, turnID)
  {
    var share := Share(messages, turnID);
    if Has(messages, next.id) {
      var i :| 0 <= i < |messages| && messages[i].id == next.id;
      ShareOfReplaced(messages, next, turnID);
      ShareHas(messages, turnID, messages[i]);
      if turnID == next.turnID {
        var k :| 0 <= k < |share| && share[k] == messages[i];
        assert Has(share, next.id);
      }
    } else {
      ShareOfAppended(messages, next, turnID);
      forall k | 0 <= k < |share|
        ensures share[k].id != next.id
      {
        ShareHas(messages, turnID, share[k]);
      }
    }
  }

  // agent messages

  /** Every agent message found for the turn is of the turn. */
  predicate AgentFixed(messages: seq<Message>, turnID: string) {
    forall i :: 0 <= i < |messages| && IsAgentOf(messages[i], turnID) ==> messages[i].turnID == Some(turnID)
  }

  lemma {:induction false} FindAgentInInit(messages: seq<Message>, turnID: string, n: nat)
    requires messages != [] && n == |messages| - 1
    ensures FindAgent(messages, turnID)
         == if FindAgent(messages[..n], turnID) < n then FindAgent(messages[..n], turnID)
            else if IsAgentOf(messages[n], turnID) then n else n + 1
  {
    assert forall k :: 0 <= k < n ==> messages[..n][k] == messages[k];
  }

  /** What becomes of the first agent message of the turn, if there is one. */
  function WithAgent(messages: seq<Message>, event: Event): seq<Message>
    requires Truthy(event.turnID)
  {
    var i := FindAgent(messages, event.turnID.value);
    if i < |messages| then messages[i := MergeAgent(messages[i], event)] else messages
  }

  function Tail(message: Message, turnID: Option<string>): seq<Message> {
    if message.turnID == turnID then [message] else []
  }

  lemma ShareOfWithAgentLast(init: seq<Message>, last: Message, event: Event, turnID: Option<string>)
    requires Truthy(event.turnID) && (IsAgentOf(last, event.turnID.value) ==> last.turnID == event.turnID)
    ensures Share(WithAgent(init + [last], event), turnID)
         == if FindAgent(init, event.turnID.value) < |init| then
             Share(WithAgent(init, event), turnID) + Tail(last, turnID)
            else
              var merged := if IsAgentOf(last, event.turnID.value) then MergeAgent(last, event) else last;
              Share(init, turnID) + Tail(merged, turnID)
  {
    var messages := init + [last];
    assert messages[..|init|] == init;
    FindAgentInInit(messages, event.turnID.value, |init|);
    MergeAgentKeepsIdentity(last, event);
    if FindAgent(init, event.turnID.value) < |init| {
      assert WithAgent(messages, event) == WithAgent(init, event) + [last];
      ShareOfAppended(WithAgent(init, event), last, turnID);
    } else if IsAgentOf(last, event.turnID.value) {
      assert WithAgent(messages, event) == init + [MergeAgent(last, event)];
      ShareOfAppended(init, MergeAgent(last, event), turnID);
    } else {
      ShareOfAppended(init, last, turnID);
    }
  }

  lemma ShareFindsAgent(init: seq<Message>, last: Message, event: Event)
    requires Truthy(event.turnID)
    requires IsAgentOf(last, event.turnID.value) ==> last.turnID == event.turnID
    requires (FindAgent(init, event.turnID.value) < |init| <==>
              FindAgent(Share(init, event.turnID), event.turnID.value) < |Share(init, event.turnID)|)
    ensures var share, tail := Share(init, event.turnID), if last.turnID == event.turnID then [last] else [];
      && WithAgent(share + tail, event)
         == (if FindAgent(init, event.turnID.value) < |init| then WithAgent(share, event) + tail
             else if IsAgentOf(last, event.turnID.value) then share + [MergeAgent(last, event)] else share + tail)
      && (FindAgent(share + tail, event.turnID.value) < |share + tail| <==>
          FindAgent(init, event.turnID.value) < |init| || IsAgentOf(last, event.turnID.value))
  {
    var share, tail := Share(init, event.turnID), if last.turnID == event.turnID then [last] else [];
    if tail == [] {
      assert share + tail == share;
    } else {
      FindAgentInInit(share + tail, event.turnID.value, |share|);
      assert (share + tail)[..|share|] == share;
    }
  }

  /** The share of the turn itself, … */
  lemma {:induction false} OwnShareOfWithAgent(messages: seq<Message>, event: Event)
    requires Truthy(event.turnID) && AgentFixed(messages, event.turnID.value)
    ensures Share(WithAgent(messages, event), event.turnID) == WithAgent(Share(messages, event.turnID), event)
    ensures FindAgent(messages, event.turnID.value) < |messages|
       <==> FindAgent(Share(messages, event.turnID), event.turnID.value) < |Share(messages, event.turnID)|
  {
    if messages != [] {
      var n := |messages| - 1;
      OwnShareOfWithAgent(messages[..n], event);
      assert messages == messages[..n] + [messages[n]];
      OwnShareStep(messages[..n], messages[n], event);
    }
  }

  lemma OwnShareStep(init: seq<Message>, last: Message, event: Event)
    requires Truthy(event.turnID) && (IsAgentOf(last, event.turnID.value) ==> last.turnID == event.turnID)
    requires Share(WithAgent(init, event), event.turnID) == WithAgent(Share(init, event.turnID), event)
    requires (FindAgent(init, event.turnID.value) < |init| <==>
              FindAgent(Share(init, event.turnID), event.turnID.value) < |Share(init, event.turnID)|)
    ensures Share(WithAgent(init + [last], event), event.turnID) == WithAgent(Share(init + [last], event.turnID), event)
    ensures FindAgent(init + [last], event.turnID.value) < |init + [last]|
       <==> FindAgent(Share(init + [last], event.turnID), event.turnID.value) < |Share(init + [last], event.turnID)|
  {
    ShareOfWithAgentLast(init, last, event, event.turnID);
    ShareFindsAgent(init, last, event);
    ShareOfAppended(init, last, event.turnID);
    assert (init + [last])[..|init|] == init;
    FindAgentInInit(init + [last], event.turnID.value, |init|);
    MergeAgentKeepsIdentity(last, event);
  }

  /** … and those of the others. */
  lemma {:induction false} OtherShareOfWithAgent(messages: seq<Message>, event: Event, turnID: Option<string>)
    requires Truthy(event.turnID) && AgentFixed(messages, event.turnID.value) && turnID != event.turnID
    ensures Share(WithAgent(messages, event), turnID) == Share(messages, turnID)
  {
    if messages != [] {
      var n := |messages| - 1;
      var init, last := messages[..n], messages[n];
      OtherShareOfWithAgent(init, event, turnID);
      assert messages == init + [last];
      ShareOfWithAgentLast(init, last, event, turnID);
      ShareOfAppended(init, last, turnID);
      MergeAgentKeepsIdentity(last, event);
    }
  }

  lemma ShareOfMergedAgent(messages: seq<Message>, event: Event, turnID: Option<string>)
    requires Truthy(event.turnID) && AgentFixed(messages, event.turnID.value)
    ensures Share(MergeIntoAgent(messages, event), turnID)
         == if turnID == event.turnID then MergeIntoAgent(Share(messages, turnID), event) else Share(messages, turnID)
  {
    var t := event.turnID.value;
    if turnID == event.turnID {
      OwnShareOfWithAgent(messages, event);
    } else {
      OtherShareOfWithAgent(messages, event, turnID);
    }
    if FindAgent(messages, t) == |messages| {
      var made := MergeAgent(Blanked(AgentID(t), Agent, "", event.turnID), event);
      MergeAgentKeepsIdentity(Blanked(AgentID(t), Agent, "", event.turnID), event);
      ShareOfAppended(messages, made, turnID);
    }
  }

  // ----- non-interference -----

  lemma ShapedFixesTurns(messages: seq<Message>, next: Message, turnOf: TurnOf)
    requires Shaped(messages, turnOf) && ShapedMessage(next, turnOf) && !next.id.HistoryID?
    ensures TurnFixed(messages, next.id, next.turnID)
  {
    forall i | 0 <= i < |messages| && messages[i].id == next.id
      ensures messages[i].turnID == next.turnID
    {
      assert ShapedMessage(messages[i], turnOf);
    }
  }

  lemma ShareOfShapedUpsert(messages: seq<Message>, next: Message, turnID: Option<string>, turnOf: TurnOf)
    requires Shaped(messages, turnOf) && ShapedMessage(next, turnOf) && !next.id.HistoryID?
    ensures Share(Upserted(messages, next), turnID)
         == if turnID == next.turnID then Upserted(Share(messages, turnID), next) else Share(messages, turnID)
  {
    ShapedFixesTurns(messages, next, turnOf);
    ShareOfUpserted(messages, next, turnID);
  }

  /** An event changes its own turn's share as if there were no other turn, and leaves the shares of
      all other turns alone. */
  lemma EventKeepsToItsTurn(messages: seq<Message>, event: Event, turnID: Option<string>, turnOf: TurnOf)
    requires Shaped(messages, turnOf) && Belongs(event, turnOf)
    ensures Share(MergeEvent(messages, event), turnID)
         == if turnID == event.turnID then MergeEvent(Share(messages, turnID), event) else Share(messages, turnID)
  {
    if !Truthy(event.turnID) && event.eventType != SystemEvent {
    } else if event.fromUser || event.phase == Input {
      ShareOfShapedUpsert(messages, Blanked(UserMessageID(event), User, DisplayText(event), event.turnID), turnID,
          turnOf);
    } else if event.eventType == TurnFailed {
      var text := if Truthy(event.error) then "执行失败：" + event.error.value else "执行失败";
      ShareOfShapedUpsert(messages, Blanked(FailedID(event.turnID), System, text, event.turnID), turnID, turnOf);
    } else if event.eventType == SystemEvent || event.phase == SystemPhase {
      ShareOfShapedUpsert(messages, Blanked(SystemID(event.eventID), System, SystemText(event), event.turnID),
          turnID, turnOf);
    } else {
      forall i | 0 <= i < |messages| && IsAgentOf(messages[i], event.turnID.value)
        ensures messages[i].turnID == event.turnID
      {
        assert ShapedMessage(messages[i], turnOf);
      }
      ShareOfMergedAgent(messages, event, turnID);
    }
  }

  /** Non-interference: a turn's share of the fold is the fold of the turn's own events. */
  lemma {:induction false} FoldKeepsTurnsApart(current: seq<Message>, events: seq<Event>, turnID: Option<string>,
      turnOf: TurnOf)
    requires Orderly(current, turnOf) && AllBelong(events, turnOf)
    ensures Share(Fold(current, events), turnID) == Fold(Share(current, turnID), Select(events, turnID))
  {
    if events != [] {
      var n := |events| - 1;
      var init, last := events[..n], events[n];
      FoldKeepsTurnsApart(current, init, turnID, turnOf);
      FoldKeepsOrder(current, init, turnOf);
      assert Belongs(last, turnOf);
      EventKeepsToItsTurn(Fold(current, init), last, turnID, turnOf);
      if last.turnID == turnID {
        assert (Select(init, turnID) + [last])[..|Select(init, turnID)|] == Select(init, turnID);
      } else {
        assert Select(events, turnID) == Select(init, turnID);
      }
    }
  }

  // ----- the sort -----

  predicate Ascending(events: seq<Event>) {
    forall i, j :: 0 <= i < j < |events| ==> events[i].sequence <= events[j].sequence
  }

  function OfNumber(events: seq<Event>, sequence: int): seq<Event> {
    if events == [] then []
    else
      var init, last := events[..|events| - 1], events[|events| - 1];
      OfNumber(init, sequence) + if last.sequence == sequence then [last] else []
  }

  lemma {:induction false} InsertKeepsAscending(sorted: seq<Event>, event: Event)
    requires Ascending(sorted)
    ensures Ascending(Insert(sorted, event))
    ensures forall i :: 0 <= i < |Insert(sorted, event)| ==>
        Insert(sorted, event)[i] == event || Insert(sorted, event)[i] in sorted
  {
    if sorted != [] && sorted[|sorted| - 1].sequence > event.sequence {
      InsertKeepsAscending(sorted[..|sorted| - 1], event);
    }
  }

  lemma {:induction false} InsertIsStable(sorted: seq<Event>, event: Event, sequence: int)
    ensures Ascending(sorted) ==>
      OfNumber(Insert(sorted, event), sequence)
        == OfNumber(sorted, sequence) + if event.sequence == sequence then [event] else []
  {
    if sorted == [] || sorted[|sorted| - 1].sequence <= event.sequence {
      assert (sorted + [event])[..|sorted|] == sorted;
    } else if Ascending(sorted) {
      var init, last := sorted[..|sorted| - 1], sorted[|sorted| - 1];
      InsertIsStable(init, event, sequence);
      assert (Insert(init, event) + [last])[..|Insert(init, event)|] == Insert(init, event);
      if last.sequence == event.sequence == sequence {
        assert false;
      }
    }
  }

  /** The sort is ascending and stable, and loses and invents nothing: the events of each sequence
      number are the same in the same order. */
  lemma {:induction false} SortIsStable(events: seq<Event>, sequence: int)
    ensures Ascending(SortBySequence(events))
    ensures OfNumber(SortBySequence(events), sequence) == OfNumber(events, sequence)
  {
    if events != [] {
      var init, last := events[..|events| - 1], events[|events| - 1];
      SortIsStable(init, sequence);
      InsertKeepsAscending(SortBySequence(init), last);
      InsertIsStable(SortBySequence(init), last, sequence);
    }
  }

  lemma {:induction false} SelectOfInsert(sorted: seq<Event>, event: Event, turnID: Option<string>)
    requires event.turnID == turnID ==> forall i :: 0 <= i < |sorted| && sorted[i].turnID == turnID ==>
        sorted[i].sequence <= event.sequence
    ensures Select(Insert(sorted, event), turnID)
         == Select(sorted, turnID) + if event.turnID == turnID then [event] else []
  {
    if sorted == [] || sorted[|sorted| - 1].sequence <= event.sequence {
      assert (sorted + [event])[..|sorted|] == sorted;
    } else {
      var init, last := sorted[..|sorted| - 1], sorted[|sorted| - 1];
      SelectOfInsert(init, event, turnID);
      assert (Insert(init, event) + [last])[..|Insert(init, event)|] == Insert(init, event);
      assert last == sorted[|init|];
      if event.turnID == turnID {
        assert Select(sorted, turnID) == Select(init, turnID) + [] == Select(init, turnID);
        assert Select(Insert(sorted, event), turnID) == Select(Insert(init, event), turnID);
      } else {
        assert Select(Insert(init, event), turnID) == Select(init, turnID);
      }
    }
  }

  /** Within the turn later events have no smaller numbers. */
  predicate AscendingWithin(events: seq<Event>, turnID: Option<string>) {
    forall i, j :: 0 <= i < j < |events| && events[i].turnID == events[j].turnID == turnID ==>
      events[i].sequence <= events[j].sequence
  }

  lemma {:induction false} SortHas(events: seq<Event>, event: Event)
    ensures event in SortBySequence(events) <==> event in events
  {
    if events != [] {
      var init, last := events[..|events| - 1], events[|events| - 1];
      SortHas(init, event);
      InsertHas(SortBySequence(init), last, event);
      assert events == init + [last];
    }
  }

  lemma {:induction false} InsertHas(sorted: seq<Event>, inserted: Event, event: Event)
    ensures event in Insert(sorted, inserted) <==> event in sorted || event == inserted
  {
    if sorted != [] && sorted[|sorted| - 1].sequence > inserted.sequence {
      InsertHas(sorted[..|sorted| - 1], inserted, event);
      assert sorted == sorted[..|sorted| - 1] + [sorted[|sorted| - 1]];
    }
  }

  lemma {:induction false} SortKeepsTurnOrder(events: seq<Event>, turnID: Option<string>)
    requires AscendingWithin(events, turnID)
    ensures Select(SortBySequence(events), turnID) == Select(events, turnID)
  {
    if events != [] {
      var n := |events| - 1;
      var init, last := events[..n], events[n];
      SortKeepsTurnOrder(init, turnID);
      var sorted := SortBySequence(init);
      forall i | 0 <= i < |sorted| && last.turnID == turnID == sorted[i].turnID
        ensures sorted[i].sequence <= last.sequence
      {
        SortHas(init, sorted[i]);
        var k :| 0 <= k < |init| && init[k] == sorted[i];
        assert events[k] == init[k];
      }
      SelectOfInsert(sorted, last, turnID);
    }
  }

  // ----- replay equals live -----

  /** Replaying the events sorted by sequence number gives, for every turn whose numbers do not
      decrease, exactly the messages that folding them as they arrived gave. */
  lemma ReplayEqualsLive(events: seq<Event>, turnID: Option<string>, turnOf: TurnOf)
    requires AllBelong(events, turnOf) && AscendingWithin(events, turnID)
    ensures Share(Replayed(events), turnID) == Share(Fold([], events), turnID)
  {
    var sorted := SortBySequence(events);
    forall i | 0 <= i < |sorted|
      ensures Belongs(sorted[i], turnOf)
    {
      SortHas(events, sorted[i]);
      var k :| 0 <= k < |events| && events[k] == sorted[i];
    }
    FoldKeepsTurnsApart([], events, turnID, turnOf);
    FoldKeepsTurnsApart([], sorted, turnID, turnOf);
    SortKeepsTurnOrder(events, turnID);
  }

  /** So both views show the same messages of such a turn, and nothing else. */
  lemma ReplayShowsTheSame(events: seq<Event>, turnOf: TurnOf, message: Message)
    requires AllBelong(events, turnOf) && AscendingWithin(events, message.turnID)
    ensures message in Replayed(events) <==> message in Fold([], events)
  {
    ReplayEqualsLive(events, message.turnID, turnOf);
    ShareHas(Replayed(events), message.turnID, message);
    ShareHas(Fold([], events), message.turnID, message);
  }
}
