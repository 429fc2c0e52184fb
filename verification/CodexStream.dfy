/** The client's end of the app server's notification stream: per-turn counters, per-item text,
    the active turn of each thread, and pending approvals. `Client` is this state as a value with a
    function for each kind of message; the class is the client as it runs. Identifiers are those the
    notifications carry, trimmed, and empty where a notification has none. */
module CodexStream {
  import opened Text

  datatype DeltaKind = Content | Progress

  /** An item of a notification; an agent message is one only if it has an identifier. */
  datatype Item =
    | NoItem
    | AgentMessage(id: Bytes, text: string, kind: DeltaKind)
    | OtherItem(id: Bytes, progress: string)

  datatype Notification =
    | TurnStarted(threadID: Bytes, turnID: Bytes, requestID: Bytes)
    | AgentMessageDelta(threadID: Bytes, turnID: Bytes, requestID: Bytes,
                        itemID: Bytes, delta: string, phase: Option<DeltaKind>)
    | GenericDelta(threadID: Bytes, turnID: Bytes, itemID: Bytes, delta: string)
    | RawDelta(threadID: Bytes, turnID: Bytes, itemID: Bytes)
    | ItemStarted(threadID: Bytes, turnID: Bytes, requestID: Bytes, item: Item)
    | ItemCompleted(threadID: Bytes, turnID: Bytes, requestID: Bytes, item: Item)
    | ErrorNotice(threadID: Bytes, turnID: Bytes, message: string, willRetry: bool)
    | TurnCompleted(threadID: Bytes, turnID: Bytes, requestID: Bytes, failed: bool, error: string)
    | RequestResolved(requestID: Bytes, decision: string)

  datatype Approval = Approval(requestID: Bytes, threadID: Bytes, turnID: Bytes, itemID: Bytes)

  datatype TimelineKind =
    | TurnStartedKind | ItemStartedKind | ItemDeltaKind | ItemCompletedKind | ItemFailedKind
    | TurnCompletedKind | TurnFailedKind | ApprovalRequestedKind | ApprovalResolvedKind

  /** What the client hands to its handlers, in order. */
  datatype Emission =
    | Timeline(kind: TimelineKind, sequence: nat, threadID: Bytes, turnID: Bytes, itemID: Bytes, text: string)
    | Started(requestID: Bytes, threadID: Bytes, turnID: Bytes)
    | Delta(requestID: Bytes, threadID: Bytes, turnID: Bytes, sequence: nat, delta: string, deltaKind: DeltaKind)
    | EndedTurn(requestID: Bytes, threadID: Bytes, turnID: Bytes, failed: bool, error: string)
    | ApprovalAsked(approval: Approval)
    | ApprovalClosed(requestID: Bytes, threadID: Bytes, turnID: Bytes, decision: string)

  /** What is known of an agent message that has not been completed. */
  datatype MessageText = MessageText(turnID: Bytes, text: string, kind: Option<DeltaKind>)

  const NO_TEXT := MessageText("", "", None)

  datatype Client = Client(
    deltaSequence: map<Bytes, nat>,
    timelineSequence: map<Bytes, nat>,
    texts: map<Bytes, MessageText>,
    turnErrors: map<Bytes, string>,
    activeTurns: map<Bytes, Bytes>,
    pending: map<Bytes, Approval>)
  {
    function Deltas(turnID: Bytes): nat {
      if turnID in deltaSequence then deltaSequence[turnID] else 0
    }

    function Timelines(turnID: Bytes): nat {
      if turnID in timelineSequence then timelineSequence[turnID] else 0
    }

    function TextOf(itemID: Bytes): MessageText {
      if itemID in texts then texts[itemID] else NO_TEXT
    }

    function Active(threadID: Bytes): Bytes {
      if threadID in activeTurns then activeTurns[threadID] else ""
    }

    function Resolve(threadID: Bytes, turnID: Bytes): Bytes {
      if turnID != "" then turnID else if threadID == "" then "" else Active(threadID)
    }

    function DrawTimeline(turnID: Bytes): Client {
      this.(timelineSequence := timelineSequence[turnID := Timelines(turnID) + 1])
    }

    function DrawDelta(turnID: Bytes): Client {
      this.(deltaSequence := deltaSequence[turnID := Deltas(turnID) + 1])
    }

    function WithText(itemID: Bytes, text: MessageText): Client {
      this.(texts := texts[itemID := text])
    }

    function KnownKind(itemID: Bytes): DeltaKind {
      if TextOf(itemID).kind.Some? then TextOf(itemID).kind.value else Content
    }
  }

  const FRESH := Client(map[], map[], map[], map[], map[], map[])

  datatype Effect = Effect(client: Client, emitted: seq<Emission>)

  function Only(condition: bool, emission: Emission): seq<Emission> {
    if condition then [emission] else []
  }

  // ----- text -----

  /** Length of the longest common prefix. */
  function SharedPrefix(a: string, b: string): (n: nat)
    ensures n <= |a| && n <= |b| && a[..n] == b[..n]
    ensures n < |a| && n < |b| ==> a[n] != b[n]
  {
    if a == "" || b == "" || a[0] != b[0] then 0
    else
      var n := SharedPrefix(a[1..], b[1..]);
      assert a == [a[0]] + a[1..] && b == [b[0]] + b[1..];
      assert a[..n + 1] == [a[0]] + a[1..][..n] && b[..n + 1] == [b[0]] + b[1..][..n];
      n + 1
  }

  /** What is left of the completed text after the prefix it shares with the streamed one. */
  function Remainder(streamed: string, completed: string): string {
    completed[SharedPrefix(streamed, completed)..]
  }

  method TrimSharedPrefix(existing: string, completed: string) returns (rest: string)
    ensures rest == Remainder(existing, completed)
  {
    var prefixLength := 0;
    var maxLength := |existing|;
    if |completed| < maxLength {
      maxLength := |completed|;
    }
    while prefixLength < maxLength && existing[prefixLength] == completed[prefixLength]
      invariant 0 <= prefixLength <= maxLength
      invariant existing[..prefixLength] == completed[..prefixLength]
    {
      prefixLength := prefixLength + 1;
    }
    SharedPrefixIsTheOnly(existing, completed, prefixLength);
    rest := completed[prefixLength..];
  }

  lemma SharedPrefixIsTheOnly(a: string, b: string, n: nat)
    requires n <= |a| && n <= |b| && a[..n] == b[..n]
    requires n < |a| && n < |b| ==> a[n] != b[n]
    ensures SharedPrefix(a, b) == n
  {
    var m := SharedPrefix(a, b);
    assert forall k :: 0 <= k < m ==> a[k] == a[..m][k] == b[..m][k] == b[k];
    assert forall k :: 0 <= k < n ==> a[k] == a[..n][k] == b[..n][k] == b[k];
  }

  // ----- notifications -----

  function OnTurnStarted(c: Client, n: Notification): Effect
    requires n.TurnStarted?
  {
    if n.threadID == "" || n.turnID == "" then Effect(c, [])
    else
      Effect(
        c.(deltaSequence := c.deltaSequence[n.turnID := 0],
           turnErrors := c.turnErrors - {n.turnID},
           activeTurns := c.activeTurns[n.threadID := n.turnID],
           timelineSequence := c.timelineSequence[n.turnID := c.Timelines(n.turnID) + 1]),
        [Started(n.requestID, n.threadID, n.turnID),
         Timeline(TurnStartedKind, c.Timelines(n.turnID) + 1, n.threadID, n.turnID, "", "")])
  }

  function OnAgentMessageDelta(c: Client, n: Notification): Effect
    requires n.AgentMessageDelta?
  {
    var turnID := c.Resolve(n.threadID, n.turnID);
    if n.threadID == "" || turnID == "" || n.delta == "" then Effect(c, [])
    else
      var kind := if n.phase.Some? then n.phase.value else if n.itemID == "" then Content else c.KnownKind(n.itemID);
      var heard := if n.itemID == "" then c
                   else c.WithText(n.itemID, MessageText(turnID, c.TextOf(n.itemID).text + n.delta, Some(kind)));
      Effect(
        heard.DrawTimeline(turnID).DrawDelta(turnID),
        [Timeline(ItemDeltaKind, c.Timelines(turnID) + 1, n.threadID, turnID, n.itemID, n.delta),
         Delta(n.requestID, n.threadID, turnID, c.Deltas(turnID) + 1, n.delta, kind)])
  }

  function OnGenericDelta(c: Client, n: Notification): Effect
    requires n.GenericDelta?
  {
    var turnID := c.Resolve(n.threadID, n.turnID);
    if n.threadID == "" || turnID == "" || n.delta == "" then Effect(c, [])
    else
      Effect(c.DrawTimeline(turnID),
             [Timeline(ItemDeltaKind, c.Timelines(turnID) + 1, n.threadID, turnID, n.itemID, n.delta)])
  }

  function OnRawDelta(c: Client, n: Notification): Effect
    requires n.RawDelta?
  {
    var turnID := c.Resolve(n.threadID, n.turnID);
    if n.threadID == "" || turnID == "" then Effect(c, [])
    else
      Effect(c.DrawTimeline(turnID),
             [Timeline(ItemDeltaKind, c.Timelines(turnID) + 1, n.threadID, turnID, n.itemID, "")])
  }

  predicate IsAgentMessage(item: Item) {
    item.AgentMessage? && item.id != ""
  }

  function ItemID(item: Item): Bytes {
    if item.NoItem? then "" else item.id
  }

  /** The progress line an item that is no agent message shows on the legacy stream. */
  function ProgressOf(item: Item): string {
    if item.OtherItem? then item.progress else ""
  }

  function ItemTimeline(n: Notification, kind: TimelineKind, number: nat): seq<Emission>
    requires n.ItemStarted? || n.ItemCompleted?
  {
    Only(n.item != NoItem && n.threadID != "" && n.turnID != "",
         Timeline(kind, number, n.threadID, n.turnID, ItemID(n.item), ""))
  }

  function ShowProgress(c: Client, n: Notification): Effect
    requires n.ItemStarted? || n.ItemCompleted?
  {
    var turnID := c.Resolve(n.threadID, n.turnID);
    if n.threadID == "" || turnID == "" || ProgressOf(n.item) == "" then Effect(c, [])
    else
      Effect(c.DrawDelta(turnID),
             [Delta(n.requestID, n.threadID, turnID, c.Deltas(turnID) + 1, ProgressOf(n.item), Progress)])
  }

  function OnItemStarted(c: Client, n: Notification): Effect
    requires n.ItemStarted?
  {
    var turnID := c.Resolve(n.threadID, n.turnID);
    var timeline := ItemTimeline(n, ItemStartedKind, c.Timelines(turnID) + 1);
    var drawn := c.DrawTimeline(turnID);
    if IsAgentMessage(n.item) then
      Effect(drawn.WithText(n.item.id, drawn.TextOf(n.item.id).(kind := Some(n.item.kind))), timeline)
    else
      var shown := ShowProgress(drawn, n);
      Effect(shown.client, timeline + shown.emitted)
  }

  /** The completed message leaves the table; what had not been streamed of it is sent. */
  function CompleteMessage(c: Client, n: Notification): Effect
    requires n.ItemCompleted? && IsAgentMessage(n.item)
  {
    var turnID := c.Resolve(n.threadID, n.turnID);
    if n.threadID == "" || turnID == "" then Effect(c, [])
    else
      var known := c.TextOf(n.item.id);
      var taken := c.(texts := c.texts - {n.item.id});
      var missing := Remainder(known.text, n.item.text);
      var kind := if known.kind.Some? then known.kind.value else n.item.kind;
      if missing == "" then Effect(taken, [])
      else Effect(taken.DrawDelta(turnID),
                  [Delta(n.requestID, n.threadID, turnID, c.Deltas(turnID) + 1, missing, kind)])
  }

  function OnItemCompleted(c: Client, n: Notification): Effect
    requires n.ItemCompleted?
  {
    var turnID := c.Resolve(n.threadID, n.turnID);
    var timeline := ItemTimeline(n, ItemCompletedKind, c.Timelines(turnID) + 1);
    var drawn := c.DrawTimeline(turnID);
    var rest := if IsAgentMessage(n.item) then CompleteMessage(drawn, n) else ShowProgress(drawn, n);
    Effect(rest.client, timeline + rest.emitted)
  }

  function OnError(c: Client, n: Notification): Effect
    requires n.ErrorNotice?
  {
    var turnID := c.Resolve(n.threadID, n.turnID);
    if n.threadID == "" || turnID == "" || n.message == "" || n.willRetry then Effect(c, [])
    else
      Effect(c.(turnErrors := c.turnErrors[turnID := n.message],
                timelineSequence := c.timelineSequence[turnID := c.Timelines(turnID) + 1]),
             [Timeline(ItemFailedKind, c.Timelines(turnID) + 1, n.threadID, turnID, "", n.message)])
  }

  function TextsWithoutTurn(texts: map<Bytes, MessageText>, turnID: Bytes): map<Bytes, MessageText> {
    map id | id in texts && texts[id].turnID != turnID :: texts[id]
  }

  function FinalError(c: Client, n: Notification): string
    requires n.TurnCompleted?
  {
    var turnID := c.Resolve(n.threadID, n.turnID);
    if n.error != "" then n.error else if turnID in c.turnErrors then c.turnErrors[turnID] else ""
  }

  /** What the turn had in the tables goes, but for its timeline counter. */
  function CloseTurn(c: Client, threadID: Bytes, turnID: Bytes): Client {
    c.(deltaSequence := c.deltaSequence - {turnID},
       activeTurns := if c.Active(threadID) == turnID then c.activeTurns - {threadID} else c.activeTurns,
       texts := TextsWithoutTurn(c.texts, turnID),
       turnErrors := c.turnErrors - {turnID})
  }

  /** The first part of a turn's completion, up to its timeline event. */
  function CompleteTurn(c: Client, n: Notification): Effect
    requires n.TurnCompleted?
  {
    var turnID := c.Resolve(n.threadID, n.turnID);
    if n.threadID == "" || turnID == "" then Effect(c, [])
    else
      Effect(
        CloseTurn(c, n.threadID, turnID).DrawTimeline(turnID),
        Only(n.turnID != "",
             Timeline(if n.failed then TurnFailedKind else TurnCompletedKind,
                      c.Timelines(turnID) + 1, n.threadID, turnID, "", FinalError(c, n))))
  }

  /** The second part: the turn's timeline counter is forgotten. */
  function ForgetTurn(c: Client, turnID: Bytes): Client {
    c.(timelineSequence := c.timelineSequence - {turnID})
  }

  function OnTurnCompleted(c: Client, n: Notification): Effect
    requires n.TurnCompleted?
  {
    var turnID := c.Resolve(n.threadID, n.turnID);
    if n.threadID == "" || turnID == "" then Effect(c, [])
    else
      var completed := CompleteTurn(c, n);
      Effect(ForgetTurn(completed.client, turnID),
             completed.emitted + [EndedTurn(n.requestID, n.threadID, turnID, n.failed, FinalError(c, n))])
  }

  function OnRequestResolved(c: Client, n: Notification): Effect
    requires n.RequestResolved?
  {
    if n.requestID == "" || n.requestID !in c.pending then Effect(c, [])
    else
      var approval := c.pending[n.requestID];
      var shows := approval.threadID != "" && approval.turnID != "";
      var taken := c.(pending := c.pending - {n.requestID});
      Effect(if shows then taken.DrawTimeline(approval.turnID) else taken,
             Only(shows, Timeline(ApprovalResolvedKind, c.Timelines(approval.turnID) + 1,
                                  approval.threadID, approval.turnID, approval.itemID, n.decision))
             + [ApprovalClosed(n.requestID, approval.threadID, approval.turnID, n.decision)])
  }

  function Handle(c: Client, n: Notification): Effect {
    match n
    case TurnStarted(_, _, _) => OnTurnStarted(c, n)
    case AgentMessageDelta(_, _, _, _, _, _) => OnAgentMessageDelta(c, n)
    case GenericDelta(_, _, _, _) => OnGenericDelta(c, n)
    case RawDelta(_, _, _) => OnRawDelta(c, n)
    case ItemStarted(_, _, _, _) => OnItemStarted(c, n)
    case ItemCompleted(_, _, _, _) => OnItemCompleted(c, n)
    case ErrorNotice(_, _, _, _) => OnError(c, n)
    case TurnCompleted(_, _, _, _, _) => OnTurnCompleted(c, n)
    case RequestResolved(_, _) => OnRequestResolved(c, n)
  }

  // ----- approvals -----

  /** A server request of a supported kind. */
  function Ask(c: Client, approval: Approval): Effect {
    var shows := approval.threadID != "" && approval.turnID != "";
    var asked := c.(pending := c.pending[approval.requestID := approval]);
    Effect(if shows then asked.DrawTimeline(approval.turnID) else asked,
           Only(shows, Timeline(ApprovalRequestedKind, c.Timelines(approval.turnID) + 1,
                                approval.threadID, approval.turnID, approval.itemID, ""))
           + [ApprovalAsked(approval)])
  }

  /** RespondApproval once the answer has been written, without interruption. */
  function Answer(c: Client, requestID: Bytes, decision: string): Effect
    requires requestID in c.pending
  {
    var approval := c.pending[requestID];
    var shows := approval.threadID != "" && approval.turnID != "";
    var drawn := if shows then c.DrawTimeline(approval.turnID) else c;
    Effect(drawn.(pending := c.pending - {requestID}),
           Only(shows, Timeline(ApprovalResolvedKind, c.Timelines(approval.turnID) + 1,
                                approval.threadID, approval.turnID, approval.itemID, decision)))
  }

  // ----- the client as it runs -----

  class AppServerClient {
    var deltaSequence: map<Bytes, nat>
    var timelineSequence: map<Bytes, nat>
    var agentMessageText: map<Bytes, MessageText>
    var turnErrors: map<Bytes, string>
    var activeTurnsByThread: map<Bytes, Bytes>
    var pendingApprovals: map<Bytes, Approval>
    /** Everything the handlers have been given. */
    var emitted: seq<Emission>

    constructor ()
      ensures View() == FRESH && emitted == []
    {
      deltaSequence, timelineSequence, agentMessageText := map[], map[], map[];
      turnErrors, activeTurnsByThread, pendingApprovals := map[], map[], map[];
      emitted := [];
    }

    function View(): Client
      reads this
    {
      Client(deltaSequence, timelineSequence, agentMessageText, turnErrors, activeTurnsByThread, pendingApprovals)
    }

    method Emit(emission: Emission)
      modifies `emitted
      ensures emitted == old(emitted) + [emission]
    {
      emitted := emitted + [emission];
    }

    method NextDeltaSequence(turnID: Bytes) returns (number: nat)
      modifies `deltaSequence
      ensures View() == old(View()).DrawDelta(turnID) && number == View().Deltas(turnID)
    {
      number := (if turnID in deltaSequence then deltaSequence[turnID] else 0) + 1;
      deltaSequence := deltaSequence[turnID := number];
    }

    method NextTimelineSequence(turnID: Bytes) returns (number: nat)
      modifies `timelineSequence
      ensures View() == old(View()).DrawTimeline(turnID) && number == View().Timelines(turnID)
    {
      number := (if turnID in timelineSequence then timelineSequence[turnID] else 0) + 1;
      timelineSequence := timelineSequence[turnID := number];
    }

    method ResolveTurnID(threadID: Bytes, turnID: Bytes) returns (resolved: Bytes)
      ensures resolved == View().Resolve(threadID, turnID)
    {
      if turnID != "" {
        return turnID;
      }
      if threadID == "" {
        return "";
      }
      resolved := if threadID in activeTurnsByThread then activeTurnsByThread[threadID] else "";
    }

    method AppendAgentMessageDelta(itemID: Bytes, turnID: Bytes, delta: string, kind: DeltaKind)
      modifies `agentMessageText
      ensures View() == old(View()).WithText(itemID,
          MessageText(turnID, old(View()).TextOf(itemID).text + delta, Some(kind)))
    {
      var state := if itemID in agentMessageText then agentMessageText[itemID] else NO_TEXT;
      state := state.(turnID := turnID);
      state := state.(text := state.text + delta);
      state := state.(kind := Some(kind));
      agentMessageText := agentMessageText[itemID := state];
    }

    method TakeCompletedAgentMessageDelta(itemID: Bytes, completedText: string, fallbackKind: DeltaKind)
      returns (missing: string, kind: DeltaKind)
      modifies `agentMessageText
      ensures agentMessageText == old(agentMessageText) - {itemID}
      ensures missing == Remainder(old(View()).TextOf(itemID).text, completedText)
      ensures kind == if old(View()).TextOf(itemID).kind.Some? then old(View()).TextOf(itemID).kind.value
          else fallbackKind
    {
      var state := if itemID in agentMessageText then agentMessageText[itemID] else NO_TEXT;
      agentMessageText := agentMessageText - {itemID};
      missing := TrimSharedPrefix(state.text, completedText);
      kind := if state.kind.Some? then state.kind.value else fallbackKind;
    }

    method HandleTurnStarted(n: Notification)
      requires n.TurnStarted?
      modifies this
      ensures View() == OnTurnStarted(old(View()), n).client
      ensures emitted == old(emitted) + OnTurnStarted(old(View()), n).emitted
    {
      if n.threadID == "" || n.turnID == "" {
        return;
      }
      deltaSequence := deltaSequence[n.turnID := 0];
      turnErrors := turnErrors - {n.turnID};
      activeTurnsByThread := activeTurnsByThread[n.threadID := n.turnID];
      Emit(Started(n.requestID, n.threadID, n.turnID));
      var number := NextTimelineSequence(n.turnID);
      Emit(Timeline(TurnStartedKind, number, n.threadID, n.turnID, "", ""));
    }

    method HandleAgentMessageDelta(n: Notification)
      requires n.AgentMessageDelta?
      modifies this
      ensures View() == OnAgentMessageDelta(old(View()), n).client
      ensures emitted == old(emitted) + OnAgentMessageDelta(old(View()), n).emitted
    {
      var turnID := ResolveTurnID(n.threadID, n.turnID);
      if n.threadID == "" || turnID == "" || n.delta == "" {
        return;
      }
      var kind := Content;
      if n.phase.Some? {
        kind := n.phase.value;
      } else if n.itemID != "" {
        kind := View().KnownKind(n.itemID);
      }
      if n.itemID != "" {
        AppendAgentMessageDelta(n.itemID, turnID, n.delta, kind);
      }
      var sequence := NextTimelineSequence(turnID);
      Emit(Timeline(ItemDeltaKind, sequence, n.threadID, turnID, n.itemID, n.delta));
      var number := NextDeltaSequence(turnID);
      Emit(Delta(n.requestID, n.threadID, turnID, number, n.delta, kind));
    }

    method EmitTimelineDelta(n: Notification)
      requires n.GenericDelta? || n.RawDelta?
      modifies this
      ensures View() == Handle(old(View()), n).client
      ensures emitted == old(emitted) + Handle(old(View()), n).emitted
    {
      var turnID := ResolveTurnID(n.threadID, n.turnID);
      if n.threadID == "" || turnID == "" || (n.GenericDelta? && n.delta == "") {
        return;
      }
      var sequence := NextTimelineSequence(turnID);
      Emit(Timeline(ItemDeltaKind, sequence, n.threadID, turnID, n.itemID, if n.GenericDelta? then n.delta else ""));
    }

    method EmitItemTimeline(n: Notification, kind: TimelineKind)
      requires n.ItemStarted? || n.ItemCompleted?
      modifies `timelineSequence, `emitted
      ensures var turnID := old(View()).Resolve(n.threadID, n.turnID);
        && View() == old(View()).DrawTimeline(turnID)
        && emitted == old(emitted) + ItemTimeline(n, kind, View().Timelines(turnID))
    {
      var turnID := ResolveTurnID(n.threadID, n.turnID);
      var sequence := NextTimelineSequence(turnID);
      if n.item != NoItem && n.threadID != "" && n.turnID != "" {
        Emit(Timeline(kind, sequence, n.threadID, n.turnID, ItemID(n.item), ""));
      }
    }

    method EmitItemProgressDelta(n: Notification)
      requires n.ItemStarted? || n.ItemCompleted?
      modifies `deltaSequence, `emitted
      ensures View() == ShowProgress(old(View()), n).client
      ensures emitted == old(emitted) + ShowProgress(old(View()), n).emitted
    {
      var turnID := ResolveTurnID(n.threadID, n.turnID);
      var delta := ProgressOf(n.item);
      if n.threadID == "" || turnID == "" || delta == "" {
        return;
      }
      var number := NextDeltaSequence(turnID);
      Emit(Delta(n.requestID, n.threadID, turnID, number, delta, Progress));
    }

    method HandleItemStarted(n: Notification)
      requires n.ItemStarted?
      modifies this
      ensures View() == OnItemStarted(old(View()), n).client
      ensures emitted == old(emitted) + OnItemStarted(old(View()), n).emitted
    {
      EmitItemTimeline(n, ItemStartedKind);
      if IsAgentMessage(n.item) {
        var state := View().TextOf(n.item.id);
        state := state.(kind := Some(n.item.kind));
        agentMessageText := agentMessageText[n.item.id := state];
        return;
      }
      EmitItemProgressDelta(n);
    }

    method CompleteAgentMessage(n: Notification)
      requires n.ItemCompleted? && IsAgentMessage(n.item)
      modifies this
      ensures View() == CompleteMessage(old(View()), n).client
      ensures emitted == old(emitted) + CompleteMessage(old(View()), n).emitted
    {
      var turnID := ResolveTurnID(n.threadID, n.turnID);
      if n.threadID == "" || turnID == "" {
        return;
      }
      var missing, kind := TakeCompletedAgentMessageDelta(n.item.id, n.item.text, n.item.kind);
      if missing != "" {
        var number := NextDeltaSequence(turnID);
        Emit(Delta(n.requestID, n.threadID, turnID, number, missing, kind));
      }
    }

    method HandleItemCompleted(n: Notification)
      requires n.ItemCompleted?
      modifies this
      ensures View() == OnItemCompleted(old(View()), n).client
      ensures emitted == old(emitted) + OnItemCompleted(old(View()), n).emitted
    {
      EmitItemTimeline(n, ItemCompletedKind);
      if IsAgentMessage(n.item) {
        CompleteAgentMessage(n);
      } else {
        EmitItemProgressDelta(n);
      }
    }

    method HandleError(n: Notification)
      requires n.ErrorNotice?
      modifies this
      ensures View() == OnError(old(View()), n).client
      ensures emitted == old(emitted) + OnError(old(View()), n).emitted
    {
      var turnID := ResolveTurnID(n.threadID, n.turnID);
      if n.threadID == "" || turnID == "" || n.message == "" {
        return;
      }
      if n.willRetry {
        return;
      }
      turnErrors := turnErrors[turnID := n.message];
      var sequence := NextTimelineSequence(turnID);
      Emit(Timeline(ItemFailedKind, sequence, n.threadID, turnID, "", n.message));
    }

    /** Drops every text of a turn while ranging over the table. */
    method DropTexts(turnID: Bytes)
      modifies `agentMessageText
      ensures agentMessageText == TextsWithoutTurn(old(agentMessageText), turnID)
    {
      var unvisited := agentMessageText.Keys;
      while unvisited != {}
        invariant unvisited <= old(agentMessageText).Keys
        invariant agentMessageText == map id | id in old(agentMessageText)
                    && (id in unvisited || old(agentMessageText)[id].turnID != turnID) :: old(agentMessageText)[id]
        decreases unvisited
      {
        var itemID :| itemID in unvisited;
        unvisited := unvisited - {itemID};
        if agentMessageText[itemID].turnID == turnID {
          agentMessageText := agentMessageText - {itemID};
        }
      }
    }

    /** What turn/completed does under the lock. */
    method ForgetProgress(threadID: Bytes, turnID: Bytes) returns (storedError: string)
      requires turnID != ""
      modifies `deltaSequence, `activeTurnsByThread, `agentMessageText, `turnErrors
      ensures View() == CloseTurn(old(View()), threadID, turnID)
      ensures storedError == if turnID in old(turnErrors) then old(turnErrors)[turnID] else ""
    {
      deltaSequence := deltaSequence - {turnID};
      if threadID in activeTurnsByThread && activeTurnsByThread[threadID] == turnID {
        activeTurnsByThread := activeTurnsByThread - {threadID};
      }
      DropTexts(turnID);
      storedError := if turnID in turnErrors then turnErrors[turnID] else "";
      turnErrors := turnErrors - {turnID};
    }

    method CompleteAndAnnounce(n: Notification, turnID: Bytes) returns (errorMessage: string)
      requires n.TurnCompleted? && n.threadID != "" && turnID != "" && turnID == View().Resolve(n.threadID, n.turnID)
      modifies this
      ensures View() == CompleteTurn(old(View()), n).client && errorMessage == FinalError(old(View()), n)
      ensures emitted == old(emitted) + CompleteTurn(old(View()), n).emitted
    {
      var storedError := ForgetProgress(n.threadID, turnID);
      errorMessage := n.error;
      if errorMessage == "" {
        errorMessage := storedError;
      }
      var sequence := NextTimelineSequence(turnID);
      if n.turnID != "" {
        Emit(Timeline(if n.failed then TurnFailedKind else TurnCompletedKind,
                      sequence, n.threadID, turnID, "", errorMessage));
      }
    }

    method HandleTurnCompleted(n: Notification)
      requires n.TurnCompleted?
      modifies this
      ensures View() == OnTurnCompleted(old(View()), n).client
      ensures emitted == old(emitted) + OnTurnCompleted(old(View()), n).emitted
    {
      var turnID := ResolveTurnID(n.threadID, n.turnID);
      if n.threadID == "" || turnID == "" {
        return;
      }
      var errorMessage := CompleteAndAnnounce(n, turnID);
      timelineSequence := timelineSequence - {turnID};
      Emit(EndedTurn(n.requestID, n.threadID, turnID, n.failed, errorMessage));
    }

    method HandleRequestResolved(n: Notification)
      requires n.RequestResolved?
      modifies this
      ensures View() == OnRequestResolved(old(View()), n).client
      ensures emitted == old(emitted) + OnRequestResolved(old(View()), n).emitted
    {
      if n.requestID == "" || n.requestID !in pendingApprovals {
        return;
      }
      var approval := pendingApprovals[n.requestID];
      pendingApprovals := pendingApprovals - {n.requestID};
      if approval.threadID != "" && approval.turnID != "" {
        var sequence := NextTimelineSequence(approval.turnID);
        Emit(Timeline(ApprovalResolvedKind, sequence, approval.threadID, approval.turnID, approval.itemID, n.decision));
      }
      Emit(ApprovalClosed(n.requestID, approval.threadID, approval.turnID, n.decision));
    }

    method HandleNotification(n: Notification)
      modifies this
      ensures View() == Handle(old(View()), n).client
      ensures emitted == old(emitted) + Handle(old(View()), n).emitted
    {
      match n {
        case TurnStarted(_, _, _) => HandleTurnStarted(n);
        case AgentMessageDelta(_, _, _, _, _, _) => HandleAgentMessageDelta(n);
        case GenericDelta(_, _, _, _) => EmitTimelineDelta(n);
        case RawDelta(_, _, _) => EmitTimelineDelta(n);
        case ItemStarted(_, _, _, _) => HandleItemStarted(n);
        case ItemCompleted(_, _, _, _) => HandleItemCompleted(n);
        case ErrorNotice(_, _, _, _) => HandleError(n);
        case TurnCompleted(_, _, _, _, _) => HandleTurnCompleted(n);
        case RequestResolved(_, _) => HandleRequestResolved(n);
      }
    }

    method HandleServerRequest(approval: Approval)
      modifies this
      ensures View() == Ask(old(View()), approval).client
      ensures emitted == old(emitted) + Ask(old(View()), approval).emitted
    {
      pendingApprovals := pendingApprovals[approval.requestID := approval];
      if approval.threadID != "" && approval.turnID != "" {
        var sequence := NextTimelineSequence(approval.turnID);
        Emit(Timeline(ApprovalRequestedKind, sequence, approval.threadID, approval.turnID, approval.itemID, ""));
      }
      Emit(ApprovalAsked(approval));
    }

    /** `written` says whether the answer could be written to the child process. */
    method RespondApproval(requestID: Bytes, decision: string, supported: bool, written: bool) returns (ok: bool)
      modifies this
      ensures ok == (supported && requestID in old(pendingApprovals) && written)
      ensures View() == if ok then Answer(old(View()), requestID, decision).client else old(View())
      ensures emitted == old(emitted) + if ok then Answer(old(View()), requestID, decision).emitted else []
    {
      if !supported {
        return false;
      }
      if requestID !in pendingApprovals {
        return false;
      }
      var approval := pendingApprovals[requestID];
      if !written {
        return false;
      }
      if approval.threadID != "" && approval.turnID != "" {
        var sequence := NextTimelineSequence(approval.turnID);
        Emit(Timeline(ApprovalResolvedKind, sequence, approval.threadID, approval.turnID, approval.itemID, decision));
      }
      pendingApprovals := pendingApprovals - {requestID};
      ok := true;
    }
  }
}
