/** What the client tells of turns, errors and approvals, read off what it has received: the turn a
    message is about, the error a turn ends with, the approvals that are pending, and what each
    notification makes the client say. */
module CodexTurns {
  import opened Text
  import opened CodexStream

  /** What reaches the client: notifications and requests of its app server, and answers of its user
      that could be written. */
  datatype Message =
    | Notice(n: Notification)
    | Request(approval: Approval)
    | Respond(requestID: Bytes, decision: string)

  function Take(c: Client, m: Message): Effect {
    match m
    case Notice(n) => Handle(c, n)
    case Request(approval) => Ask(c, approval)
    case Respond(requestID, decision) =>
      if requestID in c.pending then Answer(c, requestID, decision) else Effect(c, [])
  }

  function After(ms: seq<Message>): Client {
    if ms == [] then FRESH else Take(After(ms[..|ms| - 1]), ms[|ms| - 1]).client
  }

  // ----- the turn a message is about -----

  /** A turn of the thread starts, if both are named. */
  predicate Starts(m: Message, threadID: Bytes) {
    m.Notice? && m.n.TurnStarted? && m.n.threadID == threadID != "" && m.n.turnID != ""
  }

  /** A completion ends the turn it names, or the active one if it names none. */
  predicate Ends(m: Message, threadID: Bytes, turnID: Bytes) {
    m.Notice? && m.n.TurnCompleted? && m.n.threadID == threadID != "" && m.n.turnID in {"", turnID}
  }

  /** The turn that was started last in the thread, unless it has ended. */
  function ActiveOf(ms: seq<Message>, threadID: Bytes): Bytes {
    if ms == [] then ""
    else
      var last, active := ms[|ms| - 1], ActiveOf(ms[..|ms| - 1], threadID);
      if Starts(last, threadID) then last.n.turnID
      else if Ends(last, threadID, active) then "" else active
  }

  /** The turn named, or the one active in the thread. */
  function TurnOf(ms: seq<Message>, threadID: Bytes, turnID: Bytes): Bytes {
    if turnID != "" then turnID else if threadID == "" then "" else ActiveOf(ms, threadID)
  }

  lemma {:induction false} ActiveIsLastStarted(ms: seq<Message>, threadID: Bytes)
    ensures After(ms).Active(threadID) == ActiveOf(ms, threadID)
  {
    if ms != [] {
      ActiveIsLastStarted(ms[..|ms| - 1], threadID);
      TakingMovesActive(After(ms[..|ms| - 1]), ms[|ms| - 1], threadID);
    }
  }

  lemma TakingMovesActive(c: Client, m: Message, threadID: Bytes)
    ensures Take(c, m).client.Active(threadID)
         == if Starts(m, threadID) then m.n.turnID
            else if Ends(m, threadID, c.Active(threadID)) then "" else c.Active(threadID)
  {
    if m.Notice? && m.n.TurnStarted? {
      StartMovesActive(c, m, threadID);
    } else if m.Notice? && m.n.TurnCompleted? {
      EndMovesActive(c, m, threadID);
    } else {
      OthersKeepTurns(c, m);
    }
  }

  lemma StartMovesActive(c: Client, m: Message, threadID: Bytes)
    requires m.Notice? && m.n.TurnStarted?
    ensures Take(c, m).client.Active(threadID) == if Starts(m, threadID) then m.n.turnID else c.Active(threadID)
  {
  }

  lemma EndMovesActive(c: Client, m: Message, threadID: Bytes)
    requires m.Notice? && m.n.TurnCompleted?
    ensures Take(c, m).client.Active(threadID)
         == if Ends(m, threadID, c.Active(threadID)) then "" else c.Active(threadID)
  {
    var turnID := c.Resolve(m.n.threadID, m.n.turnID);
    if m.n.threadID != "" && turnID != "" {
      assert Take(c, m).client.activeTurns == CloseTurn(c, m.n.threadID, turnID).activeTurns;
    }
  }

  predicate SameTurns(c: Client, d: Client) {
    d.activeTurns == c.activeTurns && d.turnErrors == c.turnErrors
  }

  lemma ItemKeepsTurns(c: Client, n: Notification)
    requires n.ItemStarted? || n.ItemCompleted?
    ensures SameTurns(c, Handle(c, n).client)
  {
    var drawn := c.DrawTimeline(c.Resolve(n.threadID, n.turnID));
    assert SameTurns(drawn, ShowProgress(drawn, n).client);
    if n.ItemCompleted? && IsAgentMessage(n.item) {
      assert SameTurns(drawn, CompleteMessage(drawn, n).client);
    }
  }

  lemma DeltaKeepsTurns(c: Client, n: Notification)
    requires n.AgentMessageDelta? || n.GenericDelta? || n.RawDelta?
    ensures SameTurns(c, Handle(c, n).client)
  {
  }

  /** Only the start of a turn, its end and its errors touch what is known of turns. */
  lemma OthersKeepTurns(c: Client, m: Message)
    requires m.Notice? ==> !m.n.TurnStarted? && !m.n.TurnCompleted?
    ensures Take(c, m).client.activeTurns == c.activeTurns
    ensures (m.Notice? ==> !m.n.ErrorNotice?) ==> Take(c, m).client.turnErrors == c.turnErrors
  {
    if m.Notice? && (m.n.ItemStarted? || m.n.ItemCompleted?) {
      ItemKeepsTurns(c, m.n);
    } else if m.Notice? && (m.n.AgentMessageDelta? || m.n.GenericDelta? || m.n.RawDelta?) {
      DeltaKeepsTurns(c, m.n);
    }
  }

  /** A message without a turn is taken to be about the turn last started in its thread. */
  lemma ResolvesToTheActive(ms: seq<Message>, threadID: Bytes, turnID: Bytes)
    ensures After(ms).Resolve(threadID, turnID) == TurnOf(ms, threadID, turnID)
  {
    ActiveIsLastStarted(ms, threadID);
  }

  // ----- the error a turn ends with -----

  /** The turn starts or ends, and what was known of it is void. */
  predicate Voids(ms: seq<Message>, m: Message, turnID: Bytes) {
    && m.Notice?
    && match m.n
       case TurnStarted(threadID, id, _) => threadID != "" && id == turnID
       case TurnCompleted(threadID, id, _, _, _) => threadID != "" && TurnOf(ms, threadID, id) == turnID
       case _ => false
  }

  /** An error of the turn that the app server does not try to get over. */
  predicate Fails(ms: seq<Message>, m: Message, turnID: Bytes) {
    && m.Notice?
    && match m.n
       case ErrorNotice(threadID, id, message, willRetry) =>
         threadID != "" && message != "" && !willRetry && TurnOf(ms, threadID, id) == turnID
       case _ => false
  }

  /** The last such error of the turn since it last started or ended. */
  function ErrorOf(ms: seq<Message>, turnID: Bytes): string {
    if ms == [] then ""
    else
      var init, last := ms[..|ms| - 1], ms[|ms| - 1];
      if Fails(init, last, turnID) then last.n.message
      else if Voids(init, last, turnID) then "" else ErrorOf(init, turnID)
  }

  function Remembered(c: Client, turnID: Bytes): string {
    if turnID in c.turnErrors then c.turnErrors[turnID] else ""
  }

  lemma TakingMovesError(ms: seq<Message>, m: Message, turnID: Bytes)
    requires turnID != ""
    ensures Remembered(Take(After(ms), m).client, turnID)
         == if Fails(ms, m, turnID) then m.n.message
            else if Voids(ms, m, turnID) then "" else Remembered(After(ms), turnID)
  {
    if m.Notice? && m.n.TurnCompleted? {
      EndMovesError(ms, m, turnID);
    } else if m.Notice? && m.n.ErrorNotice? {
      ResolvesToTheActive(ms, m.n.threadID, m.n.turnID);
    } else if !(m.Notice? && m.n.TurnStarted?) {
      OthersKeepTurns(After(ms), m);
    }
  }

  lemma EndMovesError(ms: seq<Message>, m: Message, turnID: Bytes)
    requires turnID != "" && m.Notice? && m.n.TurnCompleted?
    ensures Remembered(Take(After(ms), m).client, turnID)
         == if Voids(ms, m, turnID) then "" else Remembered(After(ms), turnID)
  {
    ResolvesToTheActive(ms, m.n.threadID, m.n.turnID);
    var ended := TurnOf(ms, m.n.threadID, m.n.turnID);
    if m.n.threadID != "" && ended != "" {
      assert Take(After(ms), m).client.turnErrors == After(ms).turnErrors - {ended};
    }
  }

  lemma {:induction false} LastErrorIsRemembered(ms: seq<Message>, turnID: Bytes)
    requires turnID != ""
    ensures Remembered(After(ms), turnID) == ErrorOf(ms, turnID)
  {
    if ms != [] {
      LastErrorIsRemembered(ms[..|ms| - 1], turnID);
      TakingMovesError(ms[..|ms| - 1], ms[|ms| - 1], turnID);
    }
  }

  /** The emission is this event on the timeline, whatever its number. */
  predicate Is(e: Emission, kind: TimelineKind, threadID: Bytes, turnID: Bytes, itemID: Bytes, text: string) {
    e.Timeline? && e == Timeline(kind, e.sequence, threadID, turnID, itemID, text)
  }

  /** A turn that ends, completed or failed, is told of under its own name, with the error its
      notification bears or else the last error of the turn that was not to be retried; on the timeline
      too, if the notification names the turn. */
  lemma EndTellsTheError(ms: seq<Message>, n: Notification)
    requires n.TurnCompleted? && n.threadID != "" && TurnOf(ms, n.threadID, n.turnID) != ""
    ensures var turnID := TurnOf(ms, n.threadID, n.turnID);
      var error := if n.error != "" then n.error else ErrorOf(ms, turnID);
      var emitted := Take(After(ms), Notice(n)).emitted;
      && |emitted| == (if n.turnID == "" then 1 else 2)
      && emitted[|emitted| - 1] == EndedTurn(n.requestID, n.threadID, turnID, n.failed, error)
      && (n.turnID != "" ==>
            Is(emitted[0], if n.failed then TurnFailedKind else TurnCompletedKind, n.threadID, turnID, "", error))
  {
    ResolvesToTheActive(ms, n.threadID, n.turnID);
    LastErrorIsRemembered(ms, TurnOf(ms, n.threadID, n.turnID));
  }

  // ----- pending approvals -----

  /** The message settles the request: the user has answered it, or the app server calls it resolved. */
  predicate Settles(m: Message, requestID: Bytes) {
    match m
    case Notice(n) => n.RequestResolved? && n.requestID == requestID != ""
    case Request(_) => false
    case Respond(answered, _) => answered == requestID
  }

  /** What was asked for last under the identifier, unless it has been settled. */
  function PendingOf(ms: seq<Message>, requestID: Bytes): Option<Approval> {
    if ms == [] then None
    else
      var last := ms[|ms| - 1];
      if last.Request? && last.approval.requestID == requestID then Some(last.approval)
      else if Settles(last, requestID) then None
      else PendingOf(ms[..|ms| - 1], requestID)
  }

  function Pending(c: Client, requestID: Bytes): Option<Approval> {
    if requestID in c.pending then Some(c.pending[requestID]) else None
  }

  lemma OthersKeepPending(c: Client, n: Notification)
    requires !n.RequestResolved?
    ensures Handle(c, n).client.pending == c.pending
  {
    if n.ItemStarted? || n.ItemCompleted? {
      var drawn := c.DrawTimeline(c.Resolve(n.threadID, n.turnID));
      assert ShowProgress(drawn, n).client.pending == c.pending;
      if n.ItemCompleted? && IsAgentMessage(n.item) {
        assert CompleteMessage(drawn, n).client.pending == c.pending;
      }
    } else if n.TurnCompleted? {
      EndKeepsPending(c, n);
    }
  }

  lemma EndKeepsPending(c: Client, n: Notification)
    requires n.TurnCompleted?
    ensures Handle(c, n).client.pending == c.pending
  {
  }

  lemma TakingMovesPending(c: Client, m: Message, requestID: Bytes)
    ensures Pending(Take(c, m).client, requestID)
         == if m.Request? && m.approval.requestID == requestID then Some(m.approval)
            else if Settles(m, requestID) then None else Pending(c, requestID)
  {
    if m.Notice? && !m.n.RequestResolved? {
      OthersKeepPending(c, m.n);
    }
  }

  /** An approval is pending exactly if it was the last asked for under its identifier and has not been
      settled since. */
  lemma {:induction false} PendingIsLastAsked(ms: seq<Message>, requestID: Bytes)
    ensures Pending(After(ms), requestID) == PendingOf(ms, requestID)
  {
    if ms != [] {
      PendingIsLastAsked(ms[..|ms| - 1], requestID);
      TakingMovesPending(After(ms[..|ms| - 1]), ms[|ms| - 1], requestID);
    }
  }

  /** The approval's event on the timeline, if it has a thread and a turn to show it on, and then the
      closing words. */
  predicate TellsOf(emitted: seq<Emission>, approval: Approval, kind: TimelineKind, text: string,
      closing: seq<Emission>) {
    var shows := approval.threadID != "" && approval.turnID != "";
    && |emitted| == (if shows then 1 else 0) + |closing|
    && (shows ==> Is(emitted[0], kind, approval.threadID, approval.turnID, approval.itemID, text))
    && (closing != [] ==> emitted[|emitted| - 1] == closing[0])
  }

  /** Asking for an approval, and settling one that is pending, is told of under the thread, turn and item
      that it was asked for; the settling of one that is not pending is passed over. */
  lemma ApprovalsAreToldOf(ms: seq<Message>, approval: Approval, requestID: Bytes, decision: string)
    ensures TellsOf(Take(After(ms), Request(approval)).emitted, approval, ApprovalRequestedKind, "",
        [ApprovalAsked(approval)])
    ensures var asked := PendingOf(ms, requestID);
      var emitted := Take(After(ms), Respond(requestID, decision)).emitted;
      if asked.None? then emitted == [] else TellsOf(emitted, asked.value, ApprovalResolvedKind, decision, [])
    ensures var asked := PendingOf(ms, requestID);
      var emitted := Take(After(ms), Notice(RequestResolved(requestID, decision))).emitted;
      if asked.None? || requestID == "" then emitted == []
      else TellsOf(emitted, asked.value, ApprovalResolvedKind, decision,
             [ApprovalClosed(requestID, asked.value.threadID, asked.value.turnID, decision)])
  {
    PendingIsLastAsked(ms, requestID);
  }

  // ----- what a notification makes the client say -----

  /** The kind of timeline event, and its text, that a notification calls for. */
  function TimelineOf(n: Notification): (TimelineKind, string)
    requires !n.TurnCompleted? && !n.RequestResolved?
  {
    match n
    case TurnStarted(_, _, _) => (TurnStartedKind, "")
    case AgentMessageDelta(_, _, _, _, delta, _) => (ItemDeltaKind, delta)
    case GenericDelta(_, _, _, delta) => (ItemDeltaKind, delta)
    case RawDelta(_, _, _) => (ItemDeltaKind, "")
    case ItemStarted(_, _, _, _) => (ItemStartedKind, "")
    case ItemCompleted(_, _, _, _) => (ItemCompletedKind, "")
    case ErrorNotice(_, _, message, _) => (ItemFailedKind, message)
  }

  function ItemOf(n: Notification): Bytes
    requires !n.RequestResolved?
  {
    match n
    case AgentMessageDelta(_, _, _, itemID, _, _) => itemID
    case GenericDelta(_, _, itemID, _) => itemID
    case RawDelta(_, _, itemID) => itemID
    case ItemStarted(_, _, _, item) => if item.NoItem? then "" else item.id
    case ItemCompleted(_, _, _, item) => if item.NoItem? then "" else item.id
    case _ => ""
  }

  /** What is said is of the notification's thread, turn, item and request, and of its kind. */
  predicate Speaks(e: Emission, n: Notification, turnID: Bytes)
    requires !n.TurnCompleted? && !n.RequestResolved?
  {
    match e
    case Timeline(kind, _, threadID, turn, itemID, text) =>
      (kind, text) == TimelineOf(n) && threadID == n.threadID && turn == turnID && itemID == ItemOf(n)
    case Started(requestID, threadID, turn) =>
      n.TurnStarted? && requestID == n.requestID && threadID == n.threadID && turn == turnID
    case Delta(requestID, threadID, turn, _, _, _) =>
      && (n.AgentMessageDelta? || n.ItemStarted? || n.ItemCompleted?)
      && requestID == n.requestID && threadID == n.threadID && turn == turnID
    case _ => false
  }

  predicate AllSpeak(emitted: seq<Emission>, n: Notification, turnID: Bytes)
    requires !n.TurnCompleted? && !n.RequestResolved?
  {
    forall i :: 0 <= i < |emitted| ==> Speaks(emitted[i], n, turnID)
  }

  lemma ItemsSpeak(c: Client, n: Notification)
    requires n.ItemStarted? || n.ItemCompleted?
    ensures AllSpeak(Handle(c, n).emitted, n, c.Resolve(n.threadID, n.turnID))
  {
    var turnID := c.Resolve(n.threadID, n.turnID);
    var drawn := c.DrawTimeline(turnID);
    assert AllSpeak(ShowProgress(drawn, n).emitted, n, turnID);
    if n.ItemCompleted? && IsAgentMessage(n.item) {
      assert AllSpeak(CompleteMessage(drawn, n).emitted, n, turnID);
    }
  }

  /** Whatever a notification other than the end of a turn makes the client say is of that notification's
      thread, item and request, and of the turn it names or the one active. */
  lemma NotificationsSpeak(ms: seq<Message>, n: Notification)
    requires !n.TurnCompleted? && !n.RequestResolved?
    ensures AllSpeak(Take(After(ms), Notice(n)).emitted, n, TurnOf(ms, n.threadID, n.turnID))
  {
    ResolvesToTheActive(ms, n.threadID, n.turnID);
    if n.ItemStarted? || n.ItemCompleted? {
      ItemsSpeak(After(ms), n);
    }
  }

  /** Nothing to tell: an empty delta, or an error without a message or that is to be retried. */
  predicate Silent(n: Notification) {
    match n
    case AgentMessageDelta(_, _, _, _, delta, _) => delta == ""
    case GenericDelta(_, _, _, delta) => delta == ""
    case ErrorNotice(_, _, message, willRetry) => message == "" || willRetry
    case _ => false
  }

  /** The start of a turn, a delta and an error that is not silent are told of on the timeline; a start
      and a message's delta by themselves too, the delta with its own text. */
  lemma NotificationsAreTold(ms: seq<Message>, n: Notification)
    requires n.TurnStarted? || n.AgentMessageDelta? || n.GenericDelta? || n.RawDelta? || n.ErrorNotice?
    requires n.threadID != "" && (n.TurnStarted? ==> n.turnID != "") && TurnOf(ms, n.threadID, n.turnID) != ""
    ensures var emitted := Take(After(ms), Notice(n)).emitted;
      if Silent(n) then emitted == []
      else if n.TurnStarted? then |emitted| == 2 && emitted[0].Started? && emitted[1].Timeline?
      else if n.AgentMessageDelta? then
        |emitted| == 2 && emitted[0].Timeline? && emitted[1].Delta? && emitted[1].delta == n.delta
      else |emitted| == 1 && emitted[0].Timeline?
  {
    ResolvesToTheActive(ms, n.threadID, n.turnID);
  }

  /** An item that is no agent's message is told of on the timeline if its turn is named, and its
      progress, if it has any, as a delta. */
  lemma ItemsAreTold(ms: seq<Message>, n: Notification)
    requires (n.ItemStarted? || n.ItemCompleted?) && !(n.item.AgentMessage? && n.item.id != "")
    requires n.threadID != "" && TurnOf(ms, n.threadID, n.turnID) != ""
    ensures var emitted := Take(After(ms), Notice(n)).emitted;
      var shown := if n.item != NoItem && n.turnID != "" then 1 else 0;
      var progress := if n.item.OtherItem? then n.item.progress else "";
      && |emitted| == shown + (if progress != "" then 1 else 0)
      && (shown == 1 ==> emitted[0].Timeline?)
      && (progress != "" ==> emitted[shown].Delta? && emitted[shown].delta == progress)
  {
    ResolvesToTheActive(ms, n.threadID, n.turnID);
  }

  // ----- what is kept of a message, and for how long -----

  /** The kind of a delta that does not tell its own: that of its message, as far as it is known. */
  function KindKnown(c: Client, itemID: Bytes): Option<DeltaKind> {
    if itemID in c.texts then c.texts[itemID].kind else None
  }

  /** A message that starts is known to be of its kind, a delta's own kind is remembered, and what of the
      message has been streamed is kept with it. */
  lemma KindsAreRemembered(ms: seq<Message>, n: Notification)
    requires n.ItemStarted? ==> n.item.AgentMessage? && n.item.id != ""
    requires n.AgentMessageDelta? ==> n.itemID != "" && n.threadID != "" && n.delta != ""
    requires n.AgentMessageDelta? ==> TurnOf(ms, n.threadID, n.turnID) != ""
    requires n.ItemStarted? || n.AgentMessageDelta?
    ensures var after, before := Take(After(ms), Notice(n)).client, After(ms);
      if n.ItemStarted? then
        && KindKnown(after, n.item.id) == Some(n.item.kind)
        && after.TextOf(n.item.id).text == before.TextOf(n.item.id).text
      else
        var emitted := Take(After(ms), Notice(n)).emitted;
        && |emitted| == 2 && emitted[1].Delta?
        && emitted[1].deltaKind == (if n.phase.Some? then n.phase.value
                                    else if KindKnown(before, n.itemID).Some? then KindKnown(before, n.itemID).value
                                    else Content)
        && KindKnown(after, n.itemID) == Some(emitted[1].deltaKind)
        && after.TextOf(n.itemID).text == before.TextOf(n.itemID).text + n.delta
  {
    if n.AgentMessageDelta? {
      ResolvesToTheActive(ms, n.threadID, n.turnID);
    }
  }

  /** The end of a turn leaves nothing of the turn but what is pending: no text of its messages, no number,
      no error; what there is of other turns stays. */
  lemma EndForgetsTheTurn(ms: seq<Message>, n: Notification)
    requires n.TurnCompleted? && n.threadID != "" && TurnOf(ms, n.threadID, n.turnID) != ""
    ensures var turnID := TurnOf(ms, n.threadID, n.turnID);
      var before, after := After(ms), Take(After(ms), Notice(n)).client;
      && turnID !in after.deltaSequence && turnID !in after.timelineSequence && turnID !in after.turnErrors
      && (forall id <- after.texts :: after.texts[id].turnID != turnID)
      && (forall id <- before.texts :: before.texts[id].turnID != turnID ==>
            id in after.texts && after.texts[id] == before.texts[id])
      && after.deltaSequence == before.deltaSequence - {turnID}
      && after.timelineSequence == before.timelineSequence - {turnID} && after.pending == before.pending
  {
    ResolvesToTheActive(ms, n.threadID, n.turnID);
    EndKeepsPending(After(ms), n);
  }
}
