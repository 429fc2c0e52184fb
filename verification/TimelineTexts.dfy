/** What the messages of a folded timeline say, read off the events alone: a user's, a failure's or the
    system's message shows what was said last under its identifier; the agent's shows its final message
    pieces put together, and beside it the terminal output put together likewise. */
module TimelineTexts {
  import opened Text
  import opened ProgressText
  import opened TimelineModel

  // ----- whose an event is -----

  /** Without a turn only a system event counts. */
  predicate Counts(event: Event) {
    event.eventType == SystemEvent || (event.turnID.Some? && event.turnID.value != "")
  }

  predicate IsUsers(event: Event) {
    event.fromUser || event.phase == Input
  }

  predicate IsFailure(event: Event) {
    !IsUsers(event) && event.eventType == TurnFailed
  }

  predicate IsSystems(event: Event) {
    !IsUsers(event) && !IsFailure(event) && (event.eventType == SystemEvent || event.phase == SystemPhase)
  }

  predicate IsAgents(event: Event, turnID: string) {
    !IsUsers(event) && !IsFailure(event) && !IsSystems(event) && turnID != "" && event.turnID == Some(turnID)
  }

  // ----- messages of the user, of failures and of the system -----

  /** The event goes into the message of this identifier. */
  predicate Under(event: Event, id: MessageID) {
    match id
    case UserID(scope, position) =>
      && IsUsers(event)
      && (match scope
          case InTurn(turnID) => event.turnID == Some(turnID)
          case InEvent(eventID) => event.turnID == None && event.eventID == eventID)
      && (match position
          case OfItem(itemID) => event.itemID == Some(itemID)
          case OfSequence(sequence) => event.itemID == None && event.sequence == sequence)
    case FailedID(turnID) => IsFailure(event) && event.turnID == turnID
    case SystemID(eventID) => IsSystems(event) && event.eventID == eventID
    case _ => false
  }

  function Said(event: Event): string {
    if IsFailure(event) then
      if event.error.Some? && event.error.value != "" then "执行失败：" + event.error.value else "执行失败"
    else if IsSystems(event) && event.itemType == Context then "上下文已压缩"
    else if IsSystems(event) && event.itemType == ModeChange && DisplayText(event) == "" then "模式已变更"
    else DisplayText(event)
  }

  /** What was said last under the identifier; an event that says nothing is passed over. */
  function LastSaid(events: seq<Event>, id: MessageID): Option<string> {
    if events == [] then None
    else
      var last := events[|events| - 1];
      if Counts(last) && Under(last, id) && Said(last) != "" then Some(Said(last))
      else LastSaid(events[..|events| - 1], id)
  }

  predicate IsOwn(id: MessageID) {
    id.UserID? || id.FailedID? || id.SystemID?
  }

  function KindOf(id: MessageID): Kind
    requires IsOwn(id)
  {
    if id.UserID? then User else System
  }

  /** Messages of the identifier say this, and there is one if there is something to say. */
  predicate Shows(messages: seq<Message>, id: MessageID, said: Option<string>)
    requires IsOwn(id)
  {
    && (Has(messages, id) <==> said.Some?)
    && forall i :: 0 <= i < |messages| && messages[i].id == id ==>
         Some(messages[i].text) == said && messages[i].kind == KindOf(id)
  }

  /** Agents' messages and no others are the agent's of a turn. */
  predicate Told(messages: seq<Message>) {
    forall i :: 0 <= i < |messages| ==>
      && (messages[i].kind == Agent <==> messages[i].id.AgentID?)
      && (messages[i].id.AgentID? ==> messages[i].turnID == Some(messages[i].id.agentTurnID))
  }

  lemma UpsertShows(messages: seq<Message>, next: Message, id: MessageID, said: Option<string>)
    requires Told(messages) && IsOwn(next.id) && next.kind == KindOf(next.id)
    requires IsOwn(id) && Shows(messages, id, said)
    ensures Told(Upserted(messages, next))
    ensures Shows(Upserted(messages, next), id, if next.id == id then Some(next.text) else said)
  {
    var after := Upserted(messages, next);
    if Has(messages, next.id) {
      forall i | 0 <= i < |after|
        ensures after[i].id == messages[i].id
      {
      }
      if Has(messages, id) {
        var k :| 0 <= k < |messages| && messages[k].id == id;
        assert after[k].id == id;
      }
    } else {
      assert after[|messages|] == next;
      if Has(messages, id) {
        var k :| 0 <= k < |messages| && messages[k].id == id;
        assert after[k].id == id;
      }
    }
  }

  lemma AgentStepTells(messages: seq<Message>, event: Event)
    requires Told(messages) && Truthy(event.turnID)
    ensures Told(MergeIntoAgent(messages, event))
  {
  }

  lemma AgentStepShows(messages: seq<Message>, event: Event, id: MessageID, said: Option<string>)
    requires Told(messages) && Truthy(event.turnID) && IsOwn(id) && Shows(messages, id, said)
    ensures Shows(MergeIntoAgent(messages, event), id, said)
  {
    var after := MergeIntoAgent(messages, event);
    forall i | 0 <= i < |messages|
      ensures after[i].id == messages[i].id && (IsOwn(messages[i].id) ==> after[i] == messages[i])
    {
    }
    if Has(messages, id) {
      var k :| 0 <= k < |messages| && messages[k].id == id;
      assert after[k].id == id;
    }
  }

  lemma EventShows(messages: seq<Message>, event: Event, id: MessageID, said: Option<string>)
    requires Told(messages) && IsOwn(id) && Shows(messages, id, said)
    ensures Told(MergeEvent(messages, event))
    ensures Shows(MergeEvent(messages, event), id,
        if Counts(event) && Under(event, id) && Said(event) != "" then Some(Said(event)) else said)
  {
    if !Counts(event) {
    } else if IsUsers(event) {
      if DisplayText(event) != "" {
        UpsertShows(messages, Blanked(UserMessageID(event), User, DisplayText(event), event.turnID), id, said);
      }
    } else if IsFailure(event) {
      UpsertShows(messages, Blanked(FailedID(event.turnID), System, Said(event), event.turnID), id, said);
    } else if IsSystems(event) {
      if Said(event) != "" {
        UpsertShows(messages, Blanked(SystemID(event.eventID), System, Said(event), event.turnID), id, said);
      }
    } else {
      AgentStepTells(messages, event);
      AgentStepShows(messages, event, id, said);
    }
  }

  /** A user's, a failure's or the system's message is there exactly if something was said under its
      identifier, and shows what was said last. */
  lemma {:induction false} MessageShowsTheLastSaid(events: seq<Event>, id: MessageID)
    requires IsOwn(id)
    ensures Told(Fold([], events)) && Shows(Fold([], events), id, LastSaid(events, id))
  {
    if events != [] {
      MessageShowsTheLastSaid(events[..|events| - 1], id);
      EventShows(Fold([], events[..|events| - 1]), events[|events| - 1], id, LastSaid(events[..|events| - 1], id));
    }
  }

  // ----- the agent's message -----

  /** The event takes the place of what was there, rather than going behind it. */
  predicate Replaces(event: Event) {
    event.content.Some? && (event.content.value.appendMode == Replace || event.content.value.appendMode == SnapshotMode)
  }

  /** A piece of the agent's answer. */
  predicate IsAnswer(event: Event, turnID: string) {
    && IsAgents(event, turnID) && event.eventType != TurnStarted && event.eventType != TurnCompleted
    && event.phase == Final && event.itemType == MessageItem && DisplayText(event) != ""
  }

  /** A piece of the terminal's output: of a command, on a terminal, and showing anything at all. */
  predicate IsOutput(event: Event, turnID: string) {
    && IsAgents(event, turnID) && event.eventType != TurnStarted && event.eventType != TurnCompleted
    && event.itemType == Command && event.content.Some? && event.content.value.terminal
    && (event.eventType == ItemDelta ==> DisplayText(event) != "" || UsesTool(event))
  }

  predicate UsesTool(event: Event) {
    event.tool.Some? && (event.tool.value.kind != ""
        || (event.tool.value.name.Some? && event.tool.value.name.value != ""))
  }

  /** The event makes the agent's message if there is none yet: any that is not a mere start or end,
      and such a one if it has something to show. */
  predicate Opens(event: Event, turnID: string) {
    && IsAgents(event, turnID)
    && match event.eventType
       case TurnStarted | TurnCompleted => DisplayText(event) != "" || UsesTool(event)
       case ItemStarted => event.itemType !in {MessageItem, Reasoning, Plan}
       case ItemCompleted => DisplayText(event) != "" || event.itemType !in {MessageItem, Reasoning, Plan}
       case _ => true
  }

  predicate Opened(events: seq<Event>, turnID: string) {
    exists event <- events :: Opens(event, turnID)
  }

  /** The pieces of the answer, in order. One that comes while there is no message, and makes none, is
      not shown: the start of a message item. */
  function AnswerPieces(events: seq<Event>, turnID: string): seq<Event> {
    if events == [] then []
    else
      var init, last := events[..|events| - 1], events[|events| - 1];
      AnswerPieces(init, turnID) + if IsAnswer(last, turnID) && Opened(events, turnID) then [last] else []
  }

  function OutputPieces(events: seq<Event>, turnID: string): seq<Event> {
    if events == [] then []
    else
      var init, last := events[..|events| - 1], events[|events| - 1];
      OutputPieces(init, turnID) + if IsOutput(last, turnID) then [last] else []
  }

  function Together(pieces: seq<Event>): string {
    if pieces == [] then "" else Together(pieces[..|pieces| - 1]) + DisplayText(pieces[|pieces| - 1])
  }

  /** Position `k` is that of the last replacing piece, or 0 if none replaces. */
  predicate LastReplacing(pieces: seq<Event>, k: nat) {
    && k <= |pieces|
    && (k > 0 ==> k < |pieces| && Replaces(pieces[k]))
    && forall j :: k < j < |pieces| ==> !Replaces(pieces[j])
  }

  /** The text is that of the pieces from the last replacing one on, or of all if none replaces. */
  ghost predicate PutTogether(text: string, pieces: seq<Event>) {
    exists k: nat :: LastReplacing(pieces, k) && text == Together(pieces[k..])
  }

  lemma TogetherOneMore(pieces: seq<Event>, last: Event)
    ensures Together(pieces + [last]) == Together(pieces) + DisplayText(last)
  {
    assert (pieces + [last])[..|pieces|] == pieces;
  }

  lemma SuffixOneMore(pieces: seq<Event>, last: Event, k: nat)
    requires k <= |pieces|
    ensures (pieces + [last])[k..] == pieces[k..] + [last]
  {
  }

  lemma LastReplacingOneMore(pieces: seq<Event>, last: Event, k: nat)
    requires LastReplacing(pieces, k) && !Replaces(last)
    ensures LastReplacing(pieces + [last], k)
  {
  }

  lemma OneMorePiece(text: string, pieces: seq<Event>, last: Event)
    requires PutTogether(text, pieces)
    ensures PutTogether(if Replaces(last) then DisplayText(last) else text + DisplayText(last), pieces + [last])
  {
    if Replaces(last) {
      SuffixOneMore(pieces, last, |pieces|);
      TogetherOneMore([], last);
      assert LastReplacing(pieces + [last], |pieces|);
    } else {
      var k: nat :| LastReplacing(pieces, k) && text == Together(pieces[k..]);
      SuffixOneMore(pieces, last, k);
      TogetherOneMore(pieces[k..], last);
      LastReplacingOneMore(pieces, last, k);
    }
  }

  /** The one message of the agent in this turn, if there is one. */
  predicate AgentIs(messages: seq<Message>, turnID: string, agent: Option<Message>) {
    match agent
    case None => forall i :: 0 <= i < |messages| ==> !IsAgentOf(messages[i], turnID)
    case Some(message) =>
      exists i :: 0 <= i < |messages| && messages[i] == message && IsAgentOf(message, turnID)
        && forall j :: 0 <= j < |messages| && j != i ==> !IsAgentOf(messages[j], turnID)
  }

  /** What an event makes of it. */
  function AgentAfter(agent: Option<Message>, event: Event, turnID: string): Option<Message> {
    if !IsAgents(event, turnID) then agent
    else if agent.Some? then Some(MergeAgent(agent.value, event))
    else if LifecycleOnly(event) && ProcessText(event) == "" then None
    else Some(MergeAgent(Blanked(AgentID(turnID), Agent, "", event.turnID), event))
  }

  lemma UpsertKeepsAgent(messages: seq<Message>, next: Message, turnID: string, agent: Option<Message>)
    requires Told(messages) && IsOwn(next.id) && next.kind != Agent && AgentIs(messages, turnID, agent)
    ensures AgentIs(Upserted(messages, next), turnID, agent)
  {
    var after := Upserted(messages, next);
    forall j | 0 <= j < |messages|
      ensures if IsAgentOf(messages[j], turnID) then after[j] == messages[j] else !IsAgentOf(after[j], turnID)
    {
    }
  }

  lemma AgentStepMerges(messages: seq<Message>, event: Event, turnID: string, agent: Option<Message>)
    requires Told(messages) && IsAgents(event, turnID) && AgentIs(messages, turnID, agent)
    ensures AgentIs(MergeIntoAgent(messages, event), turnID, AgentAfter(agent, event, turnID))
  {
    var after, at := MergeIntoAgent(messages, event), FindAgent(messages, turnID);
    if agent.Some? {
      var i :| 0 <= i < |messages| && messages[i] == agent.value && IsAgentOf(agent.value, turnID)
          && forall j :: 0 <= j < |messages| && j != i ==> !IsAgentOf(messages[j], turnID);
      assert at == i && after[i] == MergeAgent(agent.value, event);
    } else if !(LifecycleOnly(event) && ProcessText(event) == "") {
      assert after[|messages|] == AgentAfter(agent, event, turnID).value;
    }
  }

  lemma OtherStepKeepsAgent(messages: seq<Message>, event: Event, turnID: string, agent: Option<Message>)
    requires Told(messages) && Truthy(event.turnID) && event.turnID != Some(turnID) && AgentIs(messages, turnID, agent)
    ensures AgentIs(MergeIntoAgent(messages, event), turnID, agent)
  {
    var after := MergeIntoAgent(messages, event);
    forall j | 0 <= j < |messages|
      ensures if IsAgentOf(messages[j], turnID) then after[j] == messages[j] else !IsAgentOf(after[j], turnID)
    {
    }
  }

  lemma EventMerges(messages: seq<Message>, event: Event, turnID: string, agent: Option<Message>)
    requires Told(messages) && turnID != "" && AgentIs(messages, turnID, agent)
    ensures AgentIs(MergeEvent(messages, event), turnID, AgentAfter(agent, event, turnID))
  {
    if !Counts(event) {
    } else if IsUsers(event) {
      UpsertKeepsAgent(messages, Blanked(UserMessageID(event), User, DisplayText(event), event.turnID), turnID, agent);
    } else if IsFailure(event) {
      UpsertKeepsAgent(messages, Blanked(FailedID(event.turnID), System, Said(event), event.turnID), turnID, agent);
    } else if IsSystems(event) {
      UpsertKeepsAgent(messages, Blanked(SystemID(event.eventID), System, Said(event), event.turnID), turnID, agent);
    } else if IsAgents(event, turnID) {
      AgentStepMerges(messages, event, turnID, agent);
    } else {
      OtherStepKeepsAgent(messages, event, turnID, agent);
    }
  }

  // ----- what it says -----

  /** There is a message of the agent exactly if an event made one; its text is the pieces of the answer
      put together, and its terminal output the pieces of the output. */
  ghost predicate Says(agent: Option<Message>, events: seq<Event>, turnID: string) {
    && (agent.Some? <==> Opened(events, turnID))
    && match agent
       case None => AnswerPieces(events, turnID) == [] == OutputPieces(events, turnID)
       case Some(message) =>
         && PutTogether(message.text, AnswerPieces(events, turnID))
         && SaysOutput(message.terminalOutput, OutputPieces(events, turnID))
  }

  lemma ProcessTextIsEmptyIff(event: Event, turnID: string)
    requires IsAgents(event, turnID)
    ensures LifecycleOnly(event) && ProcessText(event) == "" <==> !Opens(event, turnID)
    ensures IsOutput(event, turnID) ==> Opens(event, turnID)
  {
  }

  /** The text after an event, and the output, from what they were before. */
  function TextAfter(text: string, event: Event, turnID: string): string {
    if !IsAnswer(event, turnID) then text
    else if Replaces(event) then DisplayText(event) else text + DisplayText(event)
  }

  function OutputAfter(output: Option<string>, event: Event, turnID: string): Option<string> {
    if !IsOutput(event, turnID) then output
    else Some(if Replaces(event) then DisplayText(event) else OrElse(output, "") + DisplayText(event))
  }

  lemma MergedSays(message: Message, event: Event, turnID: string)
    requires IsAgents(event, turnID)
    ensures MergeAgent(message, event).text == TextAfter(message.text, event, turnID)
    ensures MergeAgent(message, event).terminalOutput == OutputAfter(message.terminalOutput, event, turnID)
  {
  }

  lemma NothingTogether(pieces: seq<Event>)
    requires pieces == []
    ensures PutTogether("", pieces)
  {
    assert LastReplacing(pieces, 0);
  }

  lemma OpenedOneMore(events: seq<Event>, turnID: string)
    requires events != []
    ensures var init, last := events[..|events| - 1], events[|events| - 1];
            Opened(events, turnID) <==> Opened(init, turnID) || Opens(last, turnID)
  {
    assert events == events[..|events| - 1] + [events[|events| - 1]];
  }

  lemma AnswerPiecesOneMore(events: seq<Event>, turnID: string)
    requires events != []
    ensures var before, last := AnswerPieces(events[..|events| - 1], turnID), events[|events| - 1];
      AnswerPieces(events, turnID)
         == if IsAnswer(last, turnID) && Opened(events, turnID) then before + [last] else before
  {
  }

  lemma OutputPiecesOneMore(events: seq<Event>, turnID: string)
    requires events != []
    ensures var before, last := OutputPieces(events[..|events| - 1], turnID), events[|events| - 1];
      OutputPieces(events, turnID) == if IsOutput(last, turnID) then before + [last] else before
  {
  }

  lemma TextOneMore(text: string, events: seq<Event>, turnID: string)
    requires events != [] && Opened(events, turnID)
    requires PutTogether(text, AnswerPieces(events[..|events| - 1], turnID))
    ensures PutTogether(TextAfter(text, events[|events| - 1], turnID), AnswerPieces(events, turnID))
  {
    AnswerPiecesOneMore(events, turnID);
    OneMorePiece(text, AnswerPieces(events[..|events| - 1], turnID), events[|events| - 1]);
  }

  /** The output so far is the pieces put together, and is there if there are any. */
  ghost predicate SaysOutput(output: Option<string>, pieces: seq<Event>) {
    (output.Some? <==> pieces != []) && PutTogether(OrElse(output, ""), pieces)
  }

  lemma OutputOneMore(output: Option<string>, events: seq<Event>, turnID: string)
    requires events != [] && SaysOutput(output, OutputPieces(events[..|events| - 1], turnID))
    ensures SaysOutput(OutputAfter(output, events[|events| - 1], turnID), OutputPieces(events, turnID))
  {
    OutputPiecesOneMore(events, turnID);
    OneMorePiece(OrElse(output, ""), OutputPieces(events[..|events| - 1], turnID), events[|events| - 1]);
  }

  lemma UnopenedSaysNothing(events: seq<Event>, turnID: string)
    requires events != [] && !Opened(events, turnID)
    requires AnswerPieces(events[..|events| - 1], turnID) == [] == OutputPieces(events[..|events| - 1], turnID)
    ensures AnswerPieces(events, turnID) == [] == OutputPieces(events, turnID)
  {
    AnswerPiecesOneMore(events, turnID);
    OutputPiecesOneMore(events, turnID);
    var last := events[|events| - 1];
    assert last in events;
    if IsOutput(last, turnID) {
      ProcessTextIsEmptyIff(last, turnID);
    }
  }

  /** An event of the agent, onto the message there is or an empty one. */
  lemma AgentEventSays(before: Message, events: seq<Event>, turnID: string)
    requires events != [] && IsAgents(events[|events| - 1], turnID) && Opened(events, turnID)
    requires PutTogether(before.text, AnswerPieces(events[..|events| - 1], turnID))
    requires SaysOutput(before.terminalOutput, OutputPieces(events[..|events| - 1], turnID))
    ensures Says(Some(MergeAgent(before, events[|events| - 1])), events, turnID)
  {
    MergedSays(before, events[|events| - 1], turnID);
    TextOneMore(before.text, events, turnID);
    OutputOneMore(before.terminalOutput, events, turnID);
  }

  lemma OtherEventSays(agent: Option<Message>, events: seq<Event>, turnID: string)
    requires events != [] && !IsAgents(events[|events| - 1], turnID)
    requires Says(agent, events[..|events| - 1], turnID)
    ensures Says(agent, events, turnID)
  {
    OpenedOneMore(events, turnID);
    AnswerPiecesOneMore(events, turnID);
    OutputPiecesOneMore(events, turnID);
  }

  lemma EventSays(agent: Option<Message>, events: seq<Event>, turnID: string)
    requires turnID != "" && events != []
    requires Says(agent, events[..|events| - 1], turnID)
    ensures Says(AgentAfter(agent, events[|events| - 1], turnID), events, turnID)
  {
    var last := events[|events| - 1];
    if !IsAgents(last, turnID) {
      OtherEventSays(agent, events, turnID);
    } else {
      OpenedOneMore(events, turnID);
      ProcessTextIsEmptyIff(last, turnID);
      NothingTogether([]);
      if !Opened(events, turnID) {
        UnopenedSaysNothing(events, turnID);
      } else {
        AgentEventSays(if agent.Some? then agent.value else Blanked(AgentID(turnID), Agent, "", last.turnID),
          events, turnID);
      }
    }
  }

  /** In every folded timeline the agent's message of a turn, and there is at most one, shows the pieces
      of its answer and of its terminal output, each from the last replacing one on. */
  lemma {:induction false} AgentShowsItsPieces(events: seq<Event>, turnID: string) returns (agent: Option<Message>)
    requires turnID != ""
    ensures AgentIs(Fold([], events), turnID, agent) && Says(agent, events, turnID)
  {
    if events == [] {
      agent := None;
    } else {
      var init := events[..|events| - 1];
      agent := AgentShowsItsPieces(init, turnID);
      MessageShowsTheLastSaid(init, FailedID(None));
      EventMerges(Fold([], init), events[|events| - 1], turnID, agent);
      EventSays(agent, events, turnID);
      agent := AgentAfter(agent, events[|events| - 1], turnID);
    }
  }

  // ----- progress -----

  /** An event that goes into the agent's progress: one that neither starts nor ends the turn, is no
      piece of the answer, and has something to show. */
  predicate IsProgress(event: Event, turnID: string) {
    && IsAgents(event, turnID) && event.eventType != TurnStarted && event.eventType != TurnCompleted
    && !(event.phase == Final && event.itemType == MessageItem)
    && Opens(event, turnID) && (event.eventType == ItemDelta ==> DisplayText(event) != "" || UsesTool(event))
  }

  /** A snapshot of the progress so far; it may take the place of what it continues. */
  predicate IsSnapshot(event: Event) {
    && event.itemType == MessageItem && event.phase == Progressing && DisplayText(event) != ""
    && !(event.eventType == ItemDelta && event.content.Some? && event.content.value.appendMode == Append)
  }

  /** The event's own text is shown, rather than a phrase about it. */
  predicate TellsItsText(event: Event) {
    DisplayText(event) != "" && event.eventType in {ItemDelta, ItemCompleted}
  }

  /** The progress shows what the event says, and keeps what was there: as its beginning, or, under a
      snapshot, section by section. */
  ghost predicate Goes(before: Option<string>, event: Event, after: Option<string>) {
    && after.Some?
    && (TellsItsText(event) ==> Includes(after.value, Trim(DisplayText(event))))
    && (if IsSnapshot(event)
        then forall k :: 0 <= k < |Sections(Existing(before))| ==> Includes(after.value, Sections(Existing(before))[k])
        else Existing(before) <= after.value)
  }

  lemma IncludesItsText(before: string, text: string)
    ensures Includes(before + text, Trim(text))
  {
    IncludesInside(before, text, "");
    assert before + text + "" == before + text;
    IncludesTrimmed(text);
    IncludesTransitive(before + text, text, Trim(text));
  }

  lemma ShownTextIncludes(event: Event)
    requires TellsItsText(event)
    ensures Includes(ProcessText(event), Trim(DisplayText(event)))
  {
    var text := DisplayText(event);
    IncludesItsText("", text);
    assert "" + text == text;
    IncludesItsText(Bold(Label(event)) + BREAK, text);
  }

  predicate Invisible(s: string) {
    forall i :: 0 <= i < |s| ==> IsSpace(s[i])
  }

  lemma {:induction false} TrimmedAwayIsInvisible(s: string)
    requires Trim(s) == ""
    ensures Invisible(s)
  {
    if s != "" {
      if IsSpace(s[0]) {
        TrimmedAwayIsInvisible(s[1..]);
      } else {
        TrimEndKeeps(s, 0, [s[0]]);
      }
    }
  }

  lemma {:induction false} InvisibleIsTrimmedAway(s: string)
    requires Invisible(s)
    ensures TrimEnd(s) == ""
  {
    if s != "" {
      InvisibleIsTrimmedAway(s[..|s| - 1]);
    }
  }

  lemma BlankHasNothing(current: Option<string>)
    requires current.None? || Trim(current.value) == ""
    ensures Existing(current) == ""
  {
    if current.Some? {
      TrimmedAwayIsInvisible(current.value);
      InvisibleIsTrimmedAway(current.value);
    }
  }

  lemma DeltaGoesOn(current: Option<string>, event: Event)
    ensures Existing(current) <= AppendPlainProgressDelta(current, DisplayText(event))
    ensures Existing(current) <= WithDelta(current, Label(event), DisplayText(event))
    ensures Includes(AppendPlainProgressDelta(current, DisplayText(event)), Trim(DisplayText(event)))
    ensures Includes(WithDelta(current, Label(event), DisplayText(event)), Trim(DisplayText(event)))
  {
    var text := DisplayText(event);
    IncludesItsText(Existing(current), text);
    var before, body := DeltaGoesUnderItsLabel(current, Label(event), text);
    IncludesItsText(before + Header(Label(event)) + body, text);
  }

  lemma SnapshotGoes(current: Option<string>, event: Event)
    ensures var merged := MergedSnapshot(current, DisplayText(event));
      && Includes(merged, Trim(DisplayText(event)))
      && forall k :: 0 <= k < |Sections(Existing(current))| ==> Includes(merged, Sections(Existing(current))[k])
  {
    MergeKeepsSnapshot(current, DisplayText(event));
    forall k | 0 <= k < |Sections(Existing(current))|
      ensures Includes(MergedSnapshot(current, DisplayText(event)), Sections(Existing(current))[k])
    {
      MergeKeepsSections(current, DisplayText(event), k);
    }
  }

  /** A phrase goes behind what is there. */
  lemma PhraseGoes(current: Option<string>, event: Event)
    ensures var next := ProcessText(event);
      var shown := if current.None? || Trim(current.value) == "" then next else TrimEnd(current.value) + BREAK + next;
      && Existing(current) <= shown
      && (TellsItsText(event) ==> Includes(shown, Trim(DisplayText(event))))
  {
    var next := ProcessText(event);
    if current.None? || Trim(current.value) == "" {
      BlankHasNothing(current);
      if TellsItsText(event) {
        ShownTextIncludes(event);
      }
    } else if TellsItsText(event) {
      ShownTextIncludes(event);
      IncludesInside(TrimEnd(current.value) + BREAK, next, "");
      var shown := TrimEnd(current.value) + BREAK + next;
      assert shown + "" == shown;
      IncludesTransitive(shown, next, Trim(DisplayText(event)));
    }
  }

  lemma AppendedProgressGoes(current: Option<string>, event: Event)
    ensures Goes(current, event, Some(AppendProgress(current, ProcessText(event), event)))
  {
    DeltaGoesOn(current, event);
    SnapshotGoes(current, event);
    PhraseGoes(current, event);
  }

  lemma ProgressIsAppended(message: Message, event: Event, turnID: string)
    requires IsProgress(event, turnID)
    ensures MergeAgent(message, event).progressText
         == Some(AppendProgress(message.progressText, ProcessText(event), event))
  {
  }

  /** The agent's message after an event of its progress shows what the event says and keeps what was
      there. */
  lemma ProgressGoesOn(events: seq<Event>, turnID: string) returns (before: Option<Message>, after: Message)
    requires turnID != "" && events != [] && IsProgress(events[|events| - 1], turnID)
    ensures AgentIs(Fold([], events[..|events| - 1]), turnID, before)
    ensures AgentIs(Fold([], events), turnID, Some(after))
    ensures Goes(if before.Some? then before.value.progressText else None, events[|events| - 1], after.progressText)
  {
    var init, last := events[..|events| - 1], events[|events| - 1];
    before := AgentShowsItsPieces(init, turnID);
    MessageShowsTheLastSaid(init, FailedID(None));
    EventMerges(Fold([], init), last, turnID, before);
    ProcessTextIsEmptyIff(last, turnID);
    after := MergeAgent(if before.Some? then before.value else Blanked(AgentID(turnID), Agent, "", last.turnID), last);
    ProgressIsAppended(if before.Some? then before.value else Blanked(AgentID(turnID), Agent, "", last.turnID), last,
      turnID);
    AppendedProgressGoes(if before.Some? then before.value.progressText else None, last);
  }

  /** Cleaning takes nothing but the mark of an analysis that goes on. */
  lemma {:induction false} OnlyTheMarkIsTaken(s: string)
    requires !Includes(s, ANALYSING)
    ensures WithoutAnalysing(s) == s
  {
    if s != "" {
      if ANALYSING <= s {
        IncludesPrefix(s, ANALYSING);
      }
      IncludesInside([s[0]], s[1..], "");
      assert [s[0]] + s[1..] + "" == s;
      if Includes(s[1..], ANALYSING) {
        IncludesTransitive(s, s[1..], ANALYSING);
      }
      OnlyTheMarkIsTaken(s[1..]);
    }
  }
}
