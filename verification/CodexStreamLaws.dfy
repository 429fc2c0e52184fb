/** What the notification stream promises: no text of a message is lost or doubled, and the numbers
    on a turn's events are consecutive or at least distinct, however the stream interleaves. */
module CodexStreamLaws {
  import opened Text
  import opened CodexStream

  function Run(c: Client, ns: seq<Notification>): Client {
    if ns == [] then c else Handle(Run(c, ns[..|ns| - 1]), ns[|ns| - 1]).client
  }

  /** Everything emitted on the way. */
  function Emitted(c: Client, ns: seq<Notification>): seq<Emission> {
    if ns == [] then []
    else
      var init := ns[..|ns| - 1];
      Emitted(c, init) + Handle(Run(c, init), ns[|ns| - 1]).emitted
  }

  // ----- conservation of streamed text -----

  function DeltaText(emitted: seq<Emission>): string {
    if emitted == [] then ""
    else
      var init, last := emitted[..|emitted| - 1], emitted[|emitted| - 1];
      DeltaText(init) + if last.Delta? then last.delta else ""
  }

  predicate Completes(n: Notification, itemID: Bytes) {
    n.ItemCompleted? && n.item.AgentMessage? && n.item.id == itemID
  }

  predicate Concerns(n: Notification, itemID: Bytes) {
    (n.AgentMessageDelta? && n.itemID == itemID) || Completes(n, itemID)
  }

  /** All delta text emitted on behalf of one message. */
  function Streamed(c: Client, ns: seq<Notification>, itemID: Bytes): string {
    if ns == [] then ""
    else
      var init, last := ns[..|ns| - 1], ns[|ns| - 1];
      Streamed(c, init, itemID) + (if Concerns(last, itemID) then DeltaText(Handle(Run(c, init), last).emitted) else "")
  }

  /** The notification ends the turn that the message's text is filed under. */
  predicate EndsTurnOf(c: Client, n: Notification, itemID: Bytes) {
    && n.TurnCompleted? && n.threadID != "" && c.Resolve(n.threadID, n.turnID) != ""
    && c.TextOf(itemID).turnID == c.Resolve(n.threadID, n.turnID)
  }

  lemma DeltaTextOfOne(emission: Emission)
    ensures DeltaText([emission]) == if emission.Delta? then emission.delta else ""
  {
    assert DeltaText([emission][..0]) == "";
  }

  lemma DeltaTextOneMore(emitted: seq<Emission>, last: Emission)
    ensures DeltaText(emitted + [last]) == DeltaText(emitted) + if last.Delta? then last.delta else ""
  {
    assert (emitted + [last])[..|emitted|] == emitted;
  }

  lemma LastSplits(a: seq<Emission>, b: seq<Emission>)
    requires b != []
    ensures b == b[..|b| - 1] + [b[|b| - 1]] && a + b == (a + b[..|b| - 1]) + [b[|b| - 1]]
  {
  }

  lemma {:induction false} DeltaTextOfConcatenation(a: seq<Emission>, b: seq<Emission>)
    ensures DeltaText(a + b) == DeltaText(a) + DeltaText(b)
    decreases |b|
  {
    if b == [] {
      assert a + b == a;
    } else {
      var init, last := b[..|b| - 1], b[|b| - 1];
      DeltaTextOfConcatenation(a, init);
      LastSplits(a, b);
      DeltaTextOneMore(a + init, last);
      DeltaTextOneMore(init, last);
    }
  }

  lemma DeltaExtendsText(c: Client, n: Notification)
    requires n.AgentMessageDelta? && n.itemID != ""
    ensures OnAgentMessageDelta(c, n).client.TextOf(n.itemID).text
         == c.TextOf(n.itemID).text + DeltaText(OnAgentMessageDelta(c, n).emitted)
  {
    var emitted := OnAgentMessageDelta(c, n).emitted;
    if emitted == [] {
      assert DeltaText([]) == "";
    } else {
      assert emitted == [emitted[0]] + [emitted[1]];
      DeltaTextOfConcatenation([emitted[0]], [emitted[1]]);
      DeltaTextOfOne(emitted[0]);
      DeltaTextOfOne(emitted[1]);
    }
  }

  /** The message's text and turn are as before. */
  predicate TextKept(c: Client, d: Client, itemID: Bytes) {
    d.TextOf(itemID).text == c.TextOf(itemID).text && d.TextOf(itemID).turnID == c.TextOf(itemID).turnID
  }

  lemma StartKeepsText(c: Client, n: Notification, itemID: Bytes)
    requires n.ItemStarted?
    ensures TextKept(c, OnItemStarted(c, n).client, itemID)
  {
  }

  lemma CompletionKeepsText(c: Client, n: Notification, itemID: Bytes)
    requires n.ItemCompleted?
    ensures || TextKept(c, OnItemCompleted(c, n).client, itemID)
            || (Completes(n, itemID) && itemID !in OnItemCompleted(c, n).client.texts)
  {
    var drawn := c.DrawTimeline(c.Resolve(n.threadID, n.turnID));
    if IsAgentMessage(n.item) {
      assert n.item.id != itemID ==> TextKept(drawn, CompleteMessage(drawn, n).client, itemID);
    } else {
      assert TextKept(drawn, ShowProgress(drawn, n).client, itemID);
    }
  }

  lemma OthersKeepText(c: Client, n: Notification, itemID: Bytes)
    requires itemID != "" && !(n.AgentMessageDelta? && n.itemID == itemID)
    ensures || TextKept(c, Handle(c, n).client, itemID)
            || ((Completes(n, itemID) || EndsTurnOf(c, n, itemID)) && itemID !in Handle(c, n).client.texts)
  {
    if n.ItemStarted? {
      StartKeepsText(c, n, itemID);
    } else if n.ItemCompleted? {
      CompletionKeepsText(c, n, itemID);
    }
  }

  lemma StepAccumulates(c: Client, n: Notification, itemID: Bytes)
    requires itemID != "" && !Completes(n, itemID) && !EndsTurnOf(c, n, itemID)
    ensures Handle(c, n).client.TextOf(itemID).text
         == c.TextOf(itemID).text + (if Concerns(n, itemID) then DeltaText(Handle(c, n).emitted) else "")
  {
    if Concerns(n, itemID) {
      DeltaExtendsText(c, n);
    } else {
      OthersKeepText(c, n, itemID);
    }
  }

  /** Until the message is completed or its turn ends, the text kept for it is the text streamed. */
  lemma {:induction false} KeptIsStreamed(c: Client, ns: seq<Notification>, itemID: Bytes)
    requires itemID != "" && c.TextOf(itemID).text == ""
    requires forall k :: 0 <= k < |ns| ==> !Completes(ns[k], itemID)
    requires forall k :: 0 <= k < |ns| ==> !EndsTurnOf(Run(c, ns[..k]), ns[k], itemID)
    ensures Run(c, ns).TextOf(itemID).text == Streamed(c, ns, itemID)
  {
    if ns != [] {
      var init := ns[..|ns| - 1];
      assert forall k :: 0 <= k < |init| ==> init[..k] == ns[..k];
      KeptIsStreamed(c, init, itemID);
      StepAccumulates(Run(c, init), ns[|ns| - 1], itemID);
    }
  }

  /** What is missing completes the text exactly when nothing else had been streamed. */
  lemma RemainderCompletes(streamed: string, completed: string)
    ensures streamed + Remainder(streamed, completed) == completed <==> streamed <= completed
  {
    var n := SharedPrefix(streamed, completed);
    var whole := streamed + Remainder(streamed, completed);
    if streamed <= completed {
      SharedPrefixIsTheOnly(streamed, completed, |streamed|);
    } else {
      assert n < |streamed|;
      if n < |completed| {
        assert whole[n] == streamed[n] != completed[n];
      } else {
        assert |whole| >= |streamed| > |completed|;
      }
    }
  }

  /** The completion reaches the thread's turn; otherwise it is dropped. */
  predicate Attributed(c: Client, n: Notification)
    requires n.ItemCompleted?
  {
    n.threadID != "" && c.Resolve(n.threadID, n.turnID) != ""
  }

  lemma CompleteMessageEmits(c: Client, done: Notification)
    requires done.ItemCompleted? && IsAgentMessage(done.item)
    ensures var e := CompleteMessage(c, done);
      && DeltaText(e.emitted) == (if Attributed(c, done) then Remainder(c.TextOf(done.item.id).text, done.item.text)
          else "")
      && (Attributed(c, done) ==> done.item.id !in e.client.texts)
  {
    var e := CompleteMessage(c, done);
    assert DeltaText([]) == "";
    if e.emitted != [] {
      DeltaTextOfOne(e.emitted[0]);
    }
  }

  lemma ItemTimelineIsQuiet(n: Notification, kind: TimelineKind, number: nat, turnID: Bytes)
    requires n.ItemStarted? || n.ItemCompleted?
    ensures DeltaText(ItemTimeline(n, kind, number)) == "" && DeltaNumbers(ItemTimeline(n, kind, number), turnID) == []
  {
    var timeline := ItemTimeline(n, kind, number);
    if timeline != [] {
      DeltaTextOfOne(timeline[0]);
      DeltaNumbersOfOne(timeline[0], turnID);
    }
  }

  lemma QuietText(timeline: seq<Emission>, rest: seq<Emission>)
    requires DeltaText(timeline) == ""
    ensures DeltaText(timeline + rest) == DeltaText(rest)
  {
    DeltaTextOfConcatenation(timeline, rest);
  }

  lemma CompletionEmits(c: Client, done: Notification, itemID: Bytes)
    requires itemID != "" && Completes(done, itemID)
    ensures DeltaText(OnItemCompleted(c, done).emitted)
         == if Attributed(c, done) then Remainder(c.TextOf(itemID).text, done.item.text) else ""
    ensures Attributed(c, done) ==> itemID !in OnItemCompleted(c, done).client.texts
  {
    var turnID := c.Resolve(done.threadID, done.turnID);
    var drawn := c.DrawTimeline(turnID);
    var timeline := ItemTimeline(done, ItemCompletedKind, c.Timelines(turnID) + 1);
    CompletionParts(c, done, drawn, timeline);
    ItemTimelineIsQuiet(done, ItemCompletedKind, c.Timelines(turnID) + 1, "");
    QuietText(timeline, CompleteMessage(drawn, done).emitted);
    CompleteMessageEmits(drawn, done);
    assert drawn.TextOf(itemID) == c.TextOf(itemID) && (Attributed(drawn, done) <==> Attributed(c, done));
  }

  lemma StreamedOneMore(c: Client, ns: seq<Notification>, last: Notification, itemID: Bytes)
    requires Concerns(last, itemID)
    ensures Streamed(c, ns + [last], itemID)
         == Streamed(c, ns, itemID) + DeltaText(Handle(Run(c, ns), last).emitted)
  {
    assert (ns + [last])[..|ns|] == ns;
  }

  /** Conservation: when a message is completed for the first time and before its turn has ended,
      what the completion adds is what remains after the longest common prefix, so the deltas of the
      message make up the completed text exactly when what was streamed is a prefix of it; no other
      item of the stream matters. A completion that reaches no turn adds nothing. */
  lemma StreamIsConserved(c: Client, ns: seq<Notification>, done: Notification, itemID: Bytes)
    requires itemID != "" && Completes(done, itemID) && c.TextOf(itemID).text == ""
    requires forall k :: 0 <= k < |ns| ==> !Completes(ns[k], itemID)
    requires forall k :: 0 <= k < |ns| ==> !EndsTurnOf(Run(c, ns[..k]), ns[k], itemID)
    ensures var before, after := Streamed(c, ns, itemID), Streamed(c, ns + [done], itemID);
      if Attributed(Run(c, ns), done)
      then after == before + Remainder(before, done.item.text)
          && (after == done.item.text <==> before <= done.item.text)
      else after == before
  {
    KeptIsStreamed(c, ns, itemID);
    CompletionEmits(Run(c, ns), done, itemID);
    StreamedOneMore(c, ns, done, itemID);
    RemainderCompletes(Streamed(c, ns, itemID), done.item.text);
  }

  lemma StepFilesUnderTurn(c: Client, n: Notification, itemID: Bytes, turnID: Bytes)
    requires itemID != "" && turnID != "" && c.TextOf(itemID).turnID in ["", turnID]
    requires n.AgentMessageDelta? && n.itemID == itemID ==> n.turnID == turnID
    ensures Handle(c, n).client.TextOf(itemID).turnID in ["", turnID]
  {
    if !(n.AgentMessageDelta? && n.itemID == itemID) {
      OthersKeepText(c, n, itemID);
    }
  }

  lemma {:induction false} FiledUnderItsTurn(c: Client, ns: seq<Notification>, itemID: Bytes, turnID: Bytes)
    requires itemID != "" && turnID != "" && itemID !in c.texts
    requires forall k :: 0 <= k < |ns| && ns[k].AgentMessageDelta? && ns[k].itemID == itemID ==> ns[k].turnID == turnID
    ensures Run(c, ns).TextOf(itemID).turnID in ["", turnID]
  {
    if ns != [] {
      FiledUnderItsTurn(c, ns[..|ns| - 1], itemID, turnID);
      StepFilesUnderTurn(Run(c, ns[..|ns| - 1]), ns[|ns| - 1], itemID, turnID);
    }
  }

  /** The same in terms of the notifications alone: the deltas of the message name turn `turnID`, and
      no turn ends meanwhile but under another name. */
  lemma StreamIsConservedWithinATurn(
      c: Client, ns: seq<Notification>, done: Notification, itemID: Bytes, turnID: Bytes)
    requires itemID != "" && turnID != "" && itemID !in c.texts
    requires Completes(done, itemID) && done.threadID != "" && done.turnID == turnID
    requires forall k :: 0 <= k < |ns| ==> !Completes(ns[k], itemID)
    requires forall k :: 0 <= k < |ns| && ns[k].AgentMessageDelta? && ns[k].itemID == itemID ==> ns[k].turnID == turnID
    requires forall k :: 0 <= k < |ns| && ns[k].TurnCompleted? ==> ns[k].turnID !in ["", turnID]
    ensures Streamed(c, ns + [done], itemID) == done.item.text <==> Streamed(c, ns, itemID) <= done.item.text
  {
    forall k | 0 <= k < |ns|
      ensures !EndsTurnOf(Run(c, ns[..k]), ns[k], itemID)
    {
      FiledUnderItsTurn(c, ns[..k], itemID, turnID);
    }
    StreamIsConserved(c, ns, done, itemID);
  }

  // ----- numbers of the legacy delta events -----

  function DeltaNumbers(emitted: seq<Emission>, turnID: Bytes): seq<nat> {
    if emitted == [] then []
    else
      var init, last := emitted[..|emitted| - 1], emitted[|emitted| - 1];
      DeltaNumbers(init, turnID) + if last.Delta? && last.turnID == turnID then [last.sequence] else []
  }

  lemma DeltaNumbersOneMore(emitted: seq<Emission>, last: Emission, turnID: Bytes)
    ensures DeltaNumbers(emitted + [last], turnID)
         == DeltaNumbers(emitted, turnID) + if last.Delta? && last.turnID == turnID then [last.sequence] else []
  {
    assert (emitted + [last])[..|emitted|] == emitted;
  }

  lemma {:induction false} DeltaNumbersOfConcatenation(a: seq<Emission>, b: seq<Emission>, turnID: Bytes)
    ensures DeltaNumbers(a + b, turnID) == DeltaNumbers(a, turnID) + DeltaNumbers(b, turnID)
    decreases |b|
  {
    if b == [] {
      assert a + b == a;
    } else {
      var init, last := b[..|b| - 1], b[|b| - 1];
      DeltaNumbersOfConcatenation(a, init, turnID);
      LastSplits(a, b);
      DeltaNumbersOneMore(a + init, last, turnID);
      DeltaNumbersOneMore(init, last, turnID);
    }
  }

  function UpTo(n: nat): seq<nat> {
    seq(n, i requires 0 <= i < n => i + 1)
  }

  /** The turn's delta counter starts over. */
  predicate RestartsDeltas(c: Client, n: Notification, turnID: Bytes) {
    || (n.TurnStarted? && n.threadID != "" && n.turnID == turnID)
    || (n.TurnCompleted? && n.threadID != "" && c.Resolve(n.threadID, n.turnID) == turnID)
  }

  lemma DeltaNumbersOfOne(emission: Emission, turnID: Bytes)
    ensures DeltaNumbers([emission], turnID)
         == if emission.Delta? && emission.turnID == turnID then [emission.sequence] else []
  {
    assert DeltaNumbers([emission][..0], turnID) == [];
  }

  /** The effect draws no delta number of the turn, or the next one, and then emits it. */
  predicate DrawsNextDelta(c: Client, e: Effect, turnID: Bytes) {
    || (DeltaNumbers(e.emitted, turnID) == [] && e.client.Deltas(turnID) == c.Deltas(turnID))
    || (DeltaNumbers(e.emitted, turnID) == [c.Deltas(turnID) + 1] && e.client.Deltas(turnID) == c.Deltas(turnID) + 1)
  }

  /** Something that is no delta in front makes no difference. */
  lemma QuietPrefix(c: Client, d: Client, quiet: seq<Emission>, e: Effect, turnID: Bytes)
    requires DeltaNumbers(quiet, turnID) == [] && d.Deltas(turnID) == c.Deltas(turnID)
    requires DrawsNextDelta(d, e, turnID)
    ensures DrawsNextDelta(c, Effect(e.client, quiet + e.emitted), turnID)
  {
    DeltaNumbersOfConcatenation(quiet, e.emitted, turnID);
  }

  lemma OneDelta(c: Client, e: Effect, u: Bytes, turnID: Bytes)
    requires |e.emitted| == 1 && e.emitted[0].Delta? && e.emitted[0].turnID == u
    requires e.emitted[0].sequence == c.Deltas(u) + 1 && e.client.deltaSequence == c.DrawDelta(u).deltaSequence
    ensures DrawsNextDelta(c, e, turnID)
  {
    DeltaNumbersOfOne(e.emitted[0], turnID);
    assert e.emitted == [e.emitted[0]];
  }

  lemma NoDelta(c: Client, e: Effect, turnID: Bytes)
    requires forall i :: 0 <= i < |e.emitted| ==> !e.emitted[i].Delta?
    requires e.client.Deltas(turnID) == c.Deltas(turnID)
    ensures DrawsNextDelta(c, e, turnID)
  {
    NoDeltaNumbers(e.emitted, turnID);
  }

  lemma {:induction false} NoDeltaNumbers(emitted: seq<Emission>, turnID: Bytes)
    requires forall i :: 0 <= i < |emitted| ==> !emitted[i].Delta?
    ensures DeltaNumbers(emitted, turnID) == []
  {
    if emitted != [] {
      NoDeltaNumbers(emitted[..|emitted| - 1], turnID);
    }
  }

  lemma ProgressDrawsNextDelta(c: Client, n: Notification, turnID: Bytes)
    requires n.ItemStarted? || n.ItemCompleted?
    ensures DrawsNextDelta(c, ShowProgress(c, n), turnID)
  {
    if ShowProgress(c, n).emitted == [] {
      NoDelta(c, ShowProgress(c, n), turnID);
    } else {
      OneDelta(c, ShowProgress(c, n), c.Resolve(n.threadID, n.turnID), turnID);
    }
  }

  lemma MessageDrawsNextDelta(c: Client, n: Notification, turnID: Bytes)
    requires n.ItemCompleted? && IsAgentMessage(n.item)
    ensures DrawsNextDelta(c, CompleteMessage(c, n), turnID)
  {
    if CompleteMessage(c, n).emitted == [] {
      NoDelta(c, CompleteMessage(c, n), turnID);
    } else {
      OneDelta(c, CompleteMessage(c, n), c.Resolve(n.threadID, n.turnID), turnID);
    }
  }

  lemma StartParts(c: Client, n: Notification, drawn: Client, timeline: seq<Emission>)
    requires n.ItemStarted? && drawn == c.DrawTimeline(c.Resolve(n.threadID, n.turnID))
    requires timeline == ItemTimeline(n, ItemStartedKind, c.Timelines(c.Resolve(n.threadID, n.turnID)) + 1)
    ensures IsAgentMessage(n.item) ==>
      OnItemStarted(c, n).emitted == timeline && OnItemStarted(c, n).client.deltaSequence == c.deltaSequence
    ensures !IsAgentMessage(n.item) ==>
      OnItemStarted(c, n) == Effect(ShowProgress(drawn, n).client, timeline + ShowProgress(drawn, n).emitted)
  {
  }

  lemma StartDrawsNextDelta(c: Client, n: Notification, turnID: Bytes)
    requires n.ItemStarted?
    ensures DrawsNextDelta(c, OnItemStarted(c, n), turnID)
  {
    var u := c.Resolve(n.threadID, n.turnID);
    var drawn, number := c.DrawTimeline(u), c.Timelines(u) + 1;
    var timeline := ItemTimeline(n, ItemStartedKind, number);
    ItemTimelineIsQuiet(n, ItemStartedKind, number, turnID);
    StartParts(c, n, drawn, timeline);
    if !IsAgentMessage(n.item) {
      ProgressDrawsNextDelta(drawn, n, turnID);
      QuietPrefix(c, drawn, timeline, ShowProgress(drawn, n), turnID);
    }
  }

  lemma CompletionParts(c: Client, n: Notification, drawn: Client, timeline: seq<Emission>)
    requires n.ItemCompleted? && drawn == c.DrawTimeline(c.Resolve(n.threadID, n.turnID))
    requires timeline == ItemTimeline(n, ItemCompletedKind, c.Timelines(c.Resolve(n.threadID, n.turnID)) + 1)
    ensures IsAgentMessage(n.item) ==>
      OnItemCompleted(c, n) == Effect(CompleteMessage(drawn, n).client, timeline + CompleteMessage(drawn, n).emitted)
    ensures !IsAgentMessage(n.item) ==>
      OnItemCompleted(c, n) == Effect(ShowProgress(drawn, n).client, timeline + ShowProgress(drawn, n).emitted)
  {
  }

  lemma CompletionDrawsNextDelta(c: Client, n: Notification, turnID: Bytes)
    requires n.ItemCompleted?
    ensures DrawsNextDelta(c, OnItemCompleted(c, n), turnID)
  {
    var u := c.Resolve(n.threadID, n.turnID);
    var drawn, number := c.DrawTimeline(u), c.Timelines(u) + 1;
    var timeline := ItemTimeline(n, ItemCompletedKind, number);
    ItemTimelineIsQuiet(n, ItemCompletedKind, number, turnID);
    CompletionParts(c, n, drawn, timeline);
    if IsAgentMessage(n.item) {
      MessageDrawsNextDelta(drawn, n, turnID);
      QuietPrefix(c, drawn, timeline, CompleteMessage(drawn, n), turnID);
    } else {
      ProgressDrawsNextDelta(drawn, n, turnID);
      QuietPrefix(c, drawn, timeline, ShowProgress(drawn, n), turnID);
    }
  }

  lemma MessageDeltaDrawsNextDelta(c: Client, n: Notification, turnID: Bytes)
    requires n.AgentMessageDelta?
    ensures DrawsNextDelta(c, OnAgentMessageDelta(c, n), turnID)
  {
    var e := OnAgentMessageDelta(c, n);
    if e.emitted == [] {
      NoDelta(c, e, turnID);
    } else {
      var rest := Effect(e.client, [e.emitted[1]]);
      OneDelta(c, rest, c.Resolve(n.threadID, n.turnID), turnID);
      DeltaNumbersOfOne(e.emitted[0], turnID);
      QuietPrefix(c, c, [e.emitted[0]], rest, turnID);
      assert e == Effect(e.client, [e.emitted[0]] + rest.emitted);
    }
  }

  lemma OtherDrawsNoDelta(c: Client, n: Notification, turnID: Bytes)
    requires !n.ItemStarted? && !n.ItemCompleted? && !n.AgentMessageDelta? && !RestartsDeltas(c, n, turnID)
        && turnID != ""
    ensures forall i :: 0 <= i < |Handle(c, n).emitted| ==> !Handle(c, n).emitted[i].Delta?
    ensures Handle(c, n).client.Deltas(turnID) == c.Deltas(turnID)
  {
  }

  /** Each notification draws at most one delta number per turn. */
  lemma NotificationDrawsNextDelta(c: Client, n: Notification, turnID: Bytes)
    requires turnID != "" && !RestartsDeltas(c, n, turnID)
    ensures DrawsNextDelta(c, Handle(c, n), turnID)
  {
    if n.ItemStarted? {
      StartDrawsNextDelta(c, n, turnID);
    } else if n.ItemCompleted? {
      CompletionDrawsNextDelta(c, n, turnID);
    } else if n.AgentMessageDelta? {
      MessageDeltaDrawsNextDelta(c, n, turnID);
    } else {
      OtherDrawsNoDelta(c, n, turnID);
      NoDelta(c, Handle(c, n), turnID);
    }
  }

  lemma CountContinues(numbers: seq<nat>, c: Client, e: Effect, turnID: Bytes)
    requires numbers == UpTo(c.Deltas(turnID)) && DrawsNextDelta(c, e, turnID)
    ensures numbers + DeltaNumbers(e.emitted, turnID) == UpTo(e.client.Deltas(turnID))
  {
  }

  lemma {:induction false} DeltasCount(c: Client, ns: seq<Notification>, turnID: Bytes)
    requires turnID != "" && c.Deltas(turnID) == 0
    requires forall k :: 0 <= k < |ns| ==> !RestartsDeltas(Run(c, ns[..k]), ns[k], turnID)
    ensures DeltaNumbers(Emitted(c, ns), turnID) == UpTo(Run(c, ns).Deltas(turnID))
  {
    if ns != [] {
      var init := ns[..|ns| - 1];
      assert forall k :: 0 <= k < |init| ==> init[..k] == ns[..k];
      DeltasCount(c, init, turnID);
      NotificationDrawsNextDelta(Run(c, init), ns[|ns| - 1], turnID);
      var e := Handle(Run(c, init), ns[|ns| - 1]);
      CountContinues(DeltaNumbers(Emitted(c, init), turnID), Run(c, init), e, turnID);
      DeltaNumbersOfConcatenation(Emitted(c, init), e.emitted, turnID);
    }
  }

  /** Between turn/started and turn/completed the delta events of a turn carry exactly 1, 2, … n,
      from whichever of the three places in the code they come and whatever other turns do. */
  lemma DeltasNumberedFromOne(c: Client, started: Notification, ns: seq<Notification>)
    requires started.TurnStarted? && started.threadID != "" && started.turnID != ""
    requires var live := Handle(c, started).client;
             forall k :: 0 <= k < |ns| ==> !RestartsDeltas(Run(live, ns[..k]), ns[k], started.turnID)
    ensures var numbers := DeltaNumbers(Emitted(Handle(c, started).client, ns), started.turnID);
            numbers == UpTo(|numbers|)
  {
    DeltasCount(Handle(c, started).client, ns, started.turnID);
  }
}
