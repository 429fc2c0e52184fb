/** The numbers on a turn's timeline events. Whoever shows one draws its number first, under a lock of
    its own, and shows it later: the read loop, one event at a time, and any number of answers to
    approvals on other goroutines. So drawing and showing are steps of their own, and so are the parts
    of an answer and of a turn's completion. A turn's counter is forgotten when the turn completes and
    starts again from zero if the identifier is seen once more; each such stretch is a life of it. */
module TimelineNumbering {
  import opened Text
  import opened CodexStream

  datatype Who = Loop | Caller(call: nat)

  /** An answer to an approval that has been looked up; its event may have been shown already. */
  datatype Call = Call(approval: Approval, answered: bool)

  /** An event whose number has been drawn and which is still to be shown: in which life of its turn it
      was drawn, and when. Time is counted in steps. */
  datatype Held = Held(event: Emission, life: nat, drawnAt: nat)

  /** An event as the timeline handler was given it. */
  datatype Shown = Shown(held: Held, who: Who, shownAt: nat)

  datatype World = World(
    client: Client,
    lives: map<Bytes, nat>,
    clock: nat,
    calls: map<nat, Call>,
    held: map<Who, Held>,
    shown: seq<Shown>)
  {
    /** How many lives of the turn have ended. */
    function Life(turnID: Bytes): nat {
      if turnID in lives then lives[turnID] else 0
    }

    /** An event of the turn is in its hands. */
    predicate Holds(who: Who, turnID: Bytes) {
      who in held && OfTurn(held[who].event, turnID)
    }
  }

  predicate OfTurn(event: Emission, turnID: Bytes) {
    event.Timeline? && event.turnID == turnID
  }

  predicate Shows(approval: Approval) {
    approval.threadID != "" && approval.turnID != ""
  }

  const START := World(FRESH, map[], 0, map[], map[], [])

  datatype Step =
    | Receive(n: Notification)
    | CompleteTurn(n: Notification)
    | ForgetTurn(turnID: Bytes)
    | Pend(approval: Approval)
    | Ask(approval: Approval)
    | FindAnswer(call: nat, requestID: Bytes)
    | AbandonAnswer(call: nat)
    | DrawAnswer(call: nat)
    | FinishAnswer(call: nat)
    | Show(who: Who)

  /** The read loop goes on only when it has shown what it has drawn. */
  predicate Enabled(w: World, step: Step) {
    match step
    case Receive(n) => Loop !in w.held && !n.TurnCompleted?
    case CompleteTurn(n) => Loop !in w.held && n.TurnCompleted?
    case ForgetTurn(_) => Loop !in w.held
    case Pend(_) => Loop !in w.held
    case Ask(_) => Loop !in w.held
    case FindAnswer(call, requestID) => call !in w.calls && requestID in w.client.pending
    case AbandonAnswer(call) => call in w.calls && !w.calls[call].answered && Caller(call) !in w.held
    case DrawAnswer(call) =>
      call in w.calls && !w.calls[call].answered && Caller(call) !in w.held && Shows(w.calls[call].approval)
    case FinishAnswer(call) =>
      call in w.calls && Caller(call) !in w.held && (w.calls[call].answered || !Shows(w.calls[call].approval))
    case Show(who) => who in w.held
  }

  /** What an effect puts on the timeline. */
  function TimelineOf(emitted: seq<Emission>): (timeline: seq<Emission>)
    ensures forall i :: 0 <= i < |timeline| ==> timeline[i].Timeline?
  {
    if emitted == [] then []
    else (if emitted[0].Timeline? then [emitted[0]] else []) + TimelineOf(emitted[1..])
  }

  predicate ByLoop(step: Step) {
    step.Receive? || step.CompleteTurn? || step.Ask?
  }

  function EffectOf(w: World, step: Step): Effect
    requires ByLoop(step) && Enabled(w, step)
  {
    match step
    case Receive(n) => Handle(w.client, n)
    case CompleteTurn(n) => CodexStream.CompleteTurn(w.client, n)
    case Ask(approval) =>
      var asked := CodexStream.Ask(w.client, approval);
      Effect(asked.client.(pending := w.client.pending), asked.emitted)
  }

  /** The handler's edits are made and its event, if there is one, is numbered; `DrawsOnce` says that
      there is no second one. */
  function Drawn(w: World, e: Effect): World {
    var timeline := TimelineOf(e.emitted);
    w.(client := e.client,
       held := if timeline == [] then w.held
               else w.held[Loop := Held(timeline[0], w.Life(timeline[0].turnID), w.clock)])
  }

  function ResolvedEvent(approval: Approval, number: nat): Emission {
    Timeline(ApprovalResolvedKind, number, approval.threadID, approval.turnID, approval.itemID, "")
  }

  function Changed(w: World, step: Step): World
    requires Enabled(w, step)
  {
    match step
    case Receive(_) => Drawn(w, EffectOf(w, step))
    case CompleteTurn(_) => Drawn(w, EffectOf(w, step))
    case Ask(_) => Drawn(w, EffectOf(w, step))
    case ForgetTurn(turnID) =>
      w.(client := CodexStream.ForgetTurn(w.client, turnID), lives := w.lives[turnID := w.Life(turnID) + 1])
    case Pend(approval) =>
      w.(client := w.client.(pending := w.client.pending[approval.requestID := approval]))
    case FindAnswer(call, requestID) => w.(calls := w.calls[call := Call(w.client.pending[requestID], false)])
    case AbandonAnswer(call) => w.(calls := w.calls - {call})
    case DrawAnswer(call) =>
      var approval := w.calls[call].approval;
      var event := ResolvedEvent(approval, w.client.Timelines(approval.turnID) + 1);
      w.(client := w.client.DrawTimeline(approval.turnID),
         held := w.held[Caller(call) := Held(event, w.Life(approval.turnID), w.clock)])
    case FinishAnswer(call) =>
      w.(client := w.client.(pending := w.client.pending - {w.calls[call].approval.requestID}),
          calls := w.calls - {call})
    case Show(who) =>
      w.(held := w.held - {who},
         shown := w.shown + [Shown(w.held[who], who, w.clock)],
         calls := if who.Caller? && who.call in w.calls
                  then w.calls[who.call := w.calls[who.call].(answered := true)] else w.calls)
  }

  function Apply(w: World, step: Step): World
    requires Enabled(w, step)
  {
    Changed(w, step).(clock := w.clock + 1)
  }

  ghost predicate Reaches(w: World, steps: seq<Step>, v: World)
    decreases |steps|
  {
    if steps == [] then w == v
    else
      var n := |steps| - 1;
      exists u :: Reaches(w, steps[..n], u) && Enabled(u, steps[n]) && v == Apply(u, steps[n])
  }

  // ----- a handler draws one event -----

  predicate NoTimeline(emitted: seq<Emission>) {
    forall i :: 0 <= i < |emitted| ==> !emitted[i].Timeline?
  }

  /** The only timeline event of an effect is at `k`, and the number was drawn for it. */
  predicate OneTimelineAt(c: Client, e: Effect, k: nat) {
    && k < |e.emitted| && e.emitted[k].Timeline?
    && NoTimeline(e.emitted[..k]) && NoTimeline(e.emitted[k + 1..])
    && e.emitted[k].sequence == c.Timelines(e.emitted[k].turnID) + 1
    && e.client.timelineSequence == c.DrawTimeline(e.emitted[k].turnID).timelineSequence
  }

  predicate NoTimelineAt(c: Client, e: Effect, turnID: Bytes) {
    && NoTimeline(e.emitted)
    && (e.client.timelineSequence == c.timelineSequence
        || e.client.timelineSequence == c.DrawTimeline(turnID).timelineSequence)
  }

  lemma ItemShape(c: Client, n: Notification)
    requires n.ItemStarted? || n.ItemCompleted?
    ensures OneTimelineAt(c, Handle(c, n), 0) || NoTimelineAt(c, Handle(c, n), c.Resolve(n.threadID, n.turnID))
  {
    if n.ItemStarted? {
      StartShape(c, n);
    } else {
      CompletionShape(c, n);
    }
  }

  /** A timeline event, if any, and behind it nothing for the timeline: that is the shape. */
  lemma FrontShape(c: Client, e: Effect, timeline: seq<Emission>, rest: seq<Emission>, drawnFor: Bytes)
    requires e.emitted == timeline + rest && |timeline| <= 1 && NoTimeline(rest)
    requires e.client.timelineSequence == c.DrawTimeline(drawnFor).timelineSequence
    requires timeline != [] ==>
      timeline[0].Timeline? && timeline[0].turnID == drawnFor && timeline[0].sequence == c.Timelines(drawnFor) + 1
    ensures OneTimelineAt(c, e, 0) || NoTimelineAt(c, e, drawnFor)
  {
    if timeline == [] {
      assert e.emitted == rest;
    } else {
      assert e.emitted[..0] == [] && e.emitted[1..] == rest;
    }
  }

  lemma ProgressIsNoTimeline(c: Client, n: Notification)
    requires n.ItemStarted? || n.ItemCompleted?
    ensures NoTimeline(ShowProgress(c, n).emitted) && ShowProgress(c, n).client.timelineSequence == c.timelineSequence
  {
  }

  lemma StartShape(c: Client, n: Notification)
    requires n.ItemStarted?
    ensures OneTimelineAt(c, OnItemStarted(c, n), 0)
        || NoTimelineAt(c, OnItemStarted(c, n), c.Resolve(n.threadID, n.turnID))
  {
    var u := c.Resolve(n.threadID, n.turnID);
    var timeline := ItemTimeline(n, ItemStartedKind, c.Timelines(u) + 1);
    var drawn := c.DrawTimeline(u);
    ProgressIsNoTimeline(drawn, n);
    var rest := if IsAgentMessage(n.item) then [] else ShowProgress(drawn, n).emitted;
    assert timeline + [] == timeline;
    FrontShape(c, OnItemStarted(c, n), timeline, rest, u);
  }

  lemma CompletionShape(c: Client, n: Notification)
    requires n.ItemCompleted?
    ensures OneTimelineAt(c, OnItemCompleted(c, n), 0)
        || NoTimelineAt(c, OnItemCompleted(c, n), c.Resolve(n.threadID, n.turnID))
  {
    var u := c.Resolve(n.threadID, n.turnID);
    var timeline := ItemTimeline(n, ItemCompletedKind, c.Timelines(u) + 1);
    var drawn := c.DrawTimeline(u);
    ProgressIsNoTimeline(drawn, n);
    var rest := if IsAgentMessage(n.item) then CompleteMessage(drawn, n) else ShowProgress(drawn, n);
    FrontShape(c, OnItemCompleted(c, n), timeline, rest.emitted, u);
  }

  lemma StartedShape(c: Client, n: Notification)
    requires n.TurnStarted?
    ensures OneTimelineAt(c, OnTurnStarted(c, n), 1) || NoTimelineAt(c, OnTurnStarted(c, n), "")
  {
    var e := OnTurnStarted(c, n);
    if e.emitted != [] {
      assert e.emitted[..1] == [e.emitted[0]] && e.emitted[2..] == [];
    }
  }

  lemma MessageDeltaShape(c: Client, n: Notification)
    requires n.AgentMessageDelta?
    ensures OneTimelineAt(c, OnAgentMessageDelta(c, n), 0) || NoTimelineAt(c, OnAgentMessageDelta(c, n), "")
  {
    var e := OnAgentMessageDelta(c, n);
    if e.emitted != [] {
      FrontShape(c, e, [e.emitted[0]], [e.emitted[1]], c.Resolve(n.threadID, n.turnID));
    }
  }

  lemma DeltaOrErrorShape(c: Client, n: Notification)
    requires n.GenericDelta? || n.RawDelta? || n.ErrorNotice?
    ensures OneTimelineAt(c, Handle(c, n), 0) || NoTimelineAt(c, Handle(c, n), "")
  {
    var e := Handle(c, n);
    if e.emitted != [] {
      FrontShape(c, e, [e.emitted[0]], [], c.Resolve(n.threadID, n.turnID));
    }
  }

  lemma NotificationShape(c: Client, n: Notification)
    requires !n.TurnCompleted? && !n.ItemStarted? && !n.ItemCompleted? && !n.RequestResolved?
    ensures OneTimelineAt(c, Handle(c, n), if n.TurnStarted? then 1 else 0) || NoTimelineAt(c, Handle(c, n), "")
  {
    if n.TurnStarted? {
      StartedShape(c, n);
    } else if n.AgentMessageDelta? {
      MessageDeltaShape(c, n);
    } else {
      DeltaOrErrorShape(c, n);
    }
  }

  lemma ResolvedShape(c: Client, n: Notification)
    requires n.RequestResolved?
    ensures OneTimelineAt(c, OnRequestResolved(c, n), 0) || NoTimelineAt(c, OnRequestResolved(c, n), "")
  {
    var e := OnRequestResolved(c, n);
    if |e.emitted| == 2 {
      FrontShape(c, e, [e.emitted[0]], [e.emitted[1]], c.pending[n.requestID].turnID);
    }
  }

  lemma ApprovalShape(c: Client, approval: Approval)
    ensures OneTimelineAt(c, CodexStream.Ask(c, approval), 0) || NoTimelineAt(c, CodexStream.Ask(c, approval), "")
  {
    var e := CodexStream.Ask(c, approval);
    if |e.emitted| == 2 {
      FrontShape(c, e, [e.emitted[0]], [e.emitted[1]], approval.turnID);
    }
  }

  lemma TurnShape(c: Client, n: Notification)
    requires n.TurnCompleted?
    ensures || OneTimelineAt(c, CodexStream.CompleteTurn(c, n), 0)
            || NoTimelineAt(c, CodexStream.CompleteTurn(c, n), c.Resolve(n.threadID, n.turnID))
  {
    var e := CodexStream.CompleteTurn(c, n);
    if e.emitted != [] {
      FrontShape(c, e, [e.emitted[0]], [], c.Resolve(n.threadID, n.turnID));
    }
  }

  lemma {:induction false} NoTimelineIsEmpty(emitted: seq<Emission>)
    requires NoTimeline(emitted)
    ensures TimelineOf(emitted) == []
  {
    if emitted != [] {
      NoTimelineIsEmpty(emitted[1..]);
    }
  }

  lemma {:induction false} OnlyThatOne(emitted: seq<Emission>, k: nat)
    requires k < |emitted| && emitted[k].Timeline? && NoTimeline(emitted[..k]) && NoTimeline(emitted[k + 1..])
    ensures TimelineOf(emitted) == [emitted[k]]
  {
    if k == 0 {
      NoTimelineIsEmpty(emitted[1..]);
    } else {
      assert !emitted[..k][0].Timeline?;
      assert emitted[1..][..k - 1] == emitted[..k][1..] && emitted[1..][k..] == emitted[k + 1..];
      OnlyThatOne(emitted[1..], k - 1);
    }
  }

  /** Nothing is put on the timeline, though a number may have been drawn; … */
  ghost predicate Quiet(c: Client, e: Effect) {
    TimelineOf(e.emitted) == [] && forall turnID: Bytes :: e.client.Timelines(turnID) >= c.Timelines(turnID)
  }

  /** … or there is one event, with the next number of its turn, and nothing else is drawn. */
  predicate Next(c: Client, e: Effect) {
    var timeline := TimelineOf(e.emitted);
    && |timeline| == 1 && timeline[0].Timeline?
    && timeline[0].sequence == c.Timelines(timeline[0].turnID) + 1
    && e.client.timelineSequence == c.DrawTimeline(timeline[0].turnID).timelineSequence
  }

  lemma ShapeDecides(c: Client, e: Effect, k: nat, drawnFor: Bytes)
    requires OneTimelineAt(c, e, k) || NoTimelineAt(c, e, drawnFor)
    ensures Quiet(c, e) || Next(c, e)
  {
    if NoTimelineAt(c, e, drawnFor) {
      NoTimelineIsEmpty(e.emitted);
    } else {
      OnlyThatOne(e.emitted, k);
    }
  }

  lemma ReceiveDrawsOnce(c: Client, n: Notification)
    requires !n.TurnCompleted?
    ensures Quiet(c, Handle(c, n)) || Next(c, Handle(c, n))
  {
    if n.ItemStarted? || n.ItemCompleted? {
      ItemShape(c, n);
      ShapeDecides(c, Handle(c, n), 0, c.Resolve(n.threadID, n.turnID));
    } else if n.RequestResolved? {
      ResolvedShape(c, n);
      ShapeDecides(c, Handle(c, n), 0, "");
    } else {
      NotificationShape(c, n);
      ShapeDecides(c, Handle(c, n), if n.TurnStarted? then 1 else 0, "");
    }
  }

  /** Whatever the read loop handles, it draws a number for at most one event. */
  lemma DrawsOnce(w: World, step: Step)
    requires ByLoop(step) && Enabled(w, step)
    ensures Quiet(w.client, EffectOf(w, step)) || Next(w.client, EffectOf(w, step))
  {
    match step
    case Receive(n) => ReceiveDrawsOnce(w.client, n);
    case CompleteTurn(n) =>
      TurnShape(w.client, n);
      ShapeDecides(w.client, EffectOf(w, step), 0, w.client.Resolve(n.threadID, n.turnID));
    case Ask(approval) =>
      ApprovalShape(w.client, approval);
      ShapeDecides(w.client, CodexStream.Ask(w.client, approval), 0, "");
  }

  // ----- tickets and marks -----

  /** A number as it was drawn. */
  datatype Ticket = Ticket(life: nat, number: nat, drawnAt: nat)

  /** An event of a turn as it was shown. */
  datatype Mark = Mark(ticket: Ticket, who: Who, shownAt: nat)

  function TicketOf(held: Held): Ticket {
    Ticket(held.life, if held.event.Timeline? then held.event.sequence else 0, held.drawnAt)
  }

  function MarkOf(shown: Shown, turnID: Bytes): seq<Mark> {
    if OfTurn(shown.held.event, turnID) then [Mark(TicketOf(shown.held), shown.who, shown.shownAt)] else []
  }

  function Marks(shown: seq<Shown>, turnID: Bytes): seq<Mark> {
    if shown == [] then []
    else Marks(shown[..|shown| - 1], turnID) + MarkOf(shown[|shown| - 1], turnID)
  }

  function NumbersOf(marks: seq<Mark>): (numbers: seq<nat>)
    ensures |numbers| == |marks|
  {
    seq(|marks|, i requires 0 <= i < |marks| => marks[i].ticket.number)
  }

  lemma MarksOfOneMore(shown: seq<Shown>, last: Shown, turnID: Bytes)
    ensures Marks(shown + [last], turnID) == Marks(shown, turnID) + MarkOf(last, turnID)
  {
    assert (shown + [last])[..|shown|] == shown;
  }

  lemma ShowMarks(w: World, who: Who, turnID: Bytes)
    requires who in w.held
    ensures Marks(Apply(w, Show(who)).shown, turnID) == Marks(w.shown, turnID)
         + if w.Holds(who, turnID) then [Mark(TicketOf(w.held[who]), who, w.clock)] else []
  {
    MarksOfOneMore(w.shown, Shown(w.held[who], who, w.clock), turnID);
  }

  // ----- the invariant -----

  predicate Increasing(numbers: seq<nat>) {
    forall i, j :: 0 <= i < j < |numbers| ==> numbers[i] < numbers[j]
  }

  predicate Distinct(numbers: seq<nat>) {
    forall i, j :: 0 <= i < j < |numbers| ==> numbers[i] != numbers[j]
  }

  /** A number that was drawn: in an earlier life, or in this one and not above its counter. */
  predicate Issued(ticket: Ticket, life: nat, top: nat, clock: nat) {
    && 1 <= ticket.number && ticket.drawnAt < clock
    && (ticket.life < life || (ticket.life == life && ticket.number <= top))
  }

  predicate Smaller(a: Ticket, b: Ticket) {
    a.life < b.life || (a.life == b.life && a.number < b.number)
  }

  /** One was drawn before the other, and has the smaller number, or was drawn in an earlier life. */
  predicate Ordered(a: Ticket, b: Ticket) {
    (a.drawnAt < b.drawnAt && Smaller(a, b)) || (b.drawnAt < a.drawnAt && Smaller(b, a))
  }

  /** Any two were drawn in the order of their numbers; the read loop showed what it drew in order. */
  predicate Apart(marks: seq<Mark>) {
    forall i, j :: 0 <= i < j < |marks| ==>
      && Ordered(marks[i].ticket, marks[j].ticket) && marks[i].shownAt < marks[j].shownAt
      && (marks[i].who.Loop? && marks[j].who.Loop? ==> marks[i].ticket.drawnAt < marks[j].ticket.drawnAt)
  }

  predicate AllIssued(marks: seq<Mark>, life: nat, top: nat, clock: nat) {
    forall i :: 0 <= i < |marks| ==>
      Issued(marks[i].ticket, life, top, clock) && marks[i].ticket.drawnAt < marks[i].shownAt < clock
  }

  predicate Counted(w: World, turnID: Bytes) {
    var marks := Marks(w.shown, turnID);
    Apart(marks) && AllIssued(marks, w.Life(turnID), w.client.Timelines(turnID), w.clock)
  }

  predicate OrderedWithAll(ticket: Ticket, who: Who, marks: seq<Mark>) {
    forall i :: 0 <= i < |marks| ==>
      && Ordered(marks[i].ticket, ticket)
      && (who.Loop? && marks[i].who.Loop? ==> marks[i].ticket.drawnAt < ticket.drawnAt)
  }

  predicate HeldApart(w: World, turnID: Bytes, who: Who) {
    w.Holds(who, turnID) ==>
      && Issued(TicketOf(w.held[who]), w.Life(turnID), w.client.Timelines(turnID), w.clock)
      && OrderedWithAll(TicketOf(w.held[who]), who, Marks(w.shown, turnID))
      && forall other <- w.held :: w.Holds(other, turnID) && other != who ==>
           Ordered(TicketOf(w.held[other]), TicketOf(w.held[who]))
  }

  predicate Numbered(w: World, turnID: Bytes) {
    Counted(w, turnID) && forall who <- w.held :: HeldApart(w, turnID, who)
  }

  // steps

  /** Steps that neither draw for the turn nor show anything: its counter does not fall, unless its
      life ends with that. */
  predicate Passes(w: World, v: World, turnID: Bytes) {
    && v.shown == w.shown && v.clock >= w.clock
    && ((v.Life(turnID) == w.Life(turnID) && v.client.Timelines(turnID) >= w.client.Timelines(turnID))
        || v.Life(turnID) > w.Life(turnID))
  }

  lemma PassingKeepsCounted(w: World, v: World, turnID: Bytes)
    requires Counted(w, turnID) && Passes(w, v, turnID)
    ensures Counted(v, turnID)
  {
  }

  lemma PassingKeepsNumbered(w: World, v: World, turnID: Bytes)
    requires Numbered(w, turnID) && Passes(w, v, turnID) && v.held == w.held
    ensures Numbered(v, turnID)
  {
    PassingKeepsCounted(w, v, turnID);
    forall who <- v.held
      ensures HeldApart(v, turnID, who)
    {
      assert HeldApart(w, turnID, who);
    }
  }

  /** The step draws: `who` holds an event with the next number of its turn. */
  predicate Draws(w: World, v: World, who: Who, held: Held) {
    && who !in w.held && v.held == w.held[who := held] && v.shown == w.shown && v.lives == w.lives
    && v.clock == w.clock + 1 && held.drawnAt == w.clock && held.event.Timeline?
    && held.life == w.Life(held.event.turnID) && held.event.sequence == w.client.Timelines(held.event.turnID) + 1
    && v.client.timelineSequence == w.client.DrawTimeline(held.event.turnID).timelineSequence
  }

  lemma NewTicketIsLast(w: World, turnID: Bytes, ticket: Ticket, other: Ticket)
    requires ticket == Ticket(w.Life(turnID), w.client.Timelines(turnID) + 1, w.clock)
    requires Issued(other, w.Life(turnID), w.client.Timelines(turnID), w.clock)
    ensures Ordered(other, ticket) && Ordered(ticket, other) && other.drawnAt < ticket.drawnAt
  {
  }

  lemma DrawKeepsNewHeld(w: World, v: World, who: Who, held: Held, turnID: Bytes)
    requires Numbered(w, turnID) && Draws(w, v, who, held)
    ensures HeldApart(v, turnID, who)
  {
    if OfTurn(held.event, turnID) {
      var ticket, marks := TicketOf(held), Marks(w.shown, turnID);
      forall i | 0 <= i < |marks|
        ensures Ordered(marks[i].ticket, ticket) && marks[i].ticket.drawnAt < ticket.drawnAt
      {
        NewTicketIsLast(w, turnID, ticket, marks[i].ticket);
      }
      forall other <- v.held | v.Holds(other, turnID) && other != who
        ensures Ordered(TicketOf(v.held[other]), ticket)
      {
        assert HeldApart(w, turnID, other);
        NewTicketIsLast(w, turnID, ticket, TicketOf(w.held[other]));
      }
    }
  }

  lemma DrawKeepsOldHeld(w: World, v: World, who: Who, held: Held, turnID: Bytes, other: Who)
    requires Draws(w, v, who, held) && other in w.held && HeldApart(w, turnID, other)
    ensures HeldApart(v, turnID, other)
  {
    if w.Holds(other, turnID) && OfTurn(held.event, turnID) {
      NewTicketIsLast(w, turnID, TicketOf(held), TicketOf(w.held[other]));
    }
  }

  lemma DrawKeepsNumbered(w: World, v: World, who: Who, held: Held, turnID: Bytes)
    requires Numbered(w, turnID) && Draws(w, v, who, held)
    ensures Numbered(v, turnID)
  {
    PassingKeepsCounted(w, v, turnID);
    forall other <- v.held
      ensures HeldApart(v, turnID, other)
    {
      if other == who {
        DrawKeepsNewHeld(w, v, who, held, turnID);
      } else {
        assert HeldApart(w, turnID, other);
        DrawKeepsOldHeld(w, v, who, held, turnID, other);
      }
    }
  }

  /** A step of the read loop passes, or draws. */
  lemma LoopPassesOrDraws(w: World, step: Step)
    requires ByLoop(step) && Enabled(w, step)
    ensures if TimelineOf(EffectOf(w, step).emitted) == [] then
              Apply(w, step).held == w.held && forall turnID: Bytes :: Passes(w, Apply(w, step), turnID)
            else
              Loop in Apply(w, step).held && Draws(w, Apply(w, step), Loop, Apply(w, step).held[Loop])
    ensures TimelineOf(EffectOf(w, step).emitted) != [] ==>
              Apply(w, step).held[Loop].event == TimelineOf(EffectOf(w, step).emitted)[0]
  {
    DrawsOnce(w, step);
  }

  lemma AnswerDraws(w: World, call: nat)
    requires Enabled(w, DrawAnswer(call))
    ensures var v := Apply(w, DrawAnswer(call));
            Caller(call) in v.held && Draws(w, v, Caller(call), v.held[Caller(call)])
  {
  }

  lemma ShowKeepsHeld(w: World, who: Who, turnID: Bytes, other: Who)
    requires who in w.held && other in w.held && other != who
    requires HeldApart(w, turnID, who) && HeldApart(w, turnID, other)
    ensures HeldApart(Apply(w, Show(who)), turnID, other)
  {
    ShowMarks(w, who, turnID);
  }

  lemma MarkAppends(marks: seq<Mark>, mark: Mark, life: nat, top: nat, clock: nat)
    requires Apart(marks) && AllIssued(marks, life, top, clock)
    requires Issued(mark.ticket, life, top, clock) && OrderedWithAll(mark.ticket, mark.who, marks)
        && mark.shownAt == clock
    ensures Apart(marks + [mark]) && AllIssued(marks + [mark], life, top, clock + 1)
  {
  }

  lemma ShowKeepsCounted(w: World, who: Who, turnID: Bytes)
    requires who in w.held && Counted(w, turnID) && HeldApart(w, turnID, who)
    ensures Counted(Apply(w, Show(who)), turnID)
  {
    ShowMarks(w, who, turnID);
    if w.Holds(who, turnID) {
      MarkAppends(Marks(w.shown, turnID), Mark(TicketOf(w.held[who]), who, w.clock), w.Life(turnID),
                  w.client.Timelines(turnID), w.clock);
    } else {
      assert Marks(w.shown, turnID) + [] == Marks(w.shown, turnID);
    }
  }

  lemma ShowKeepsNumbered(w: World, who: Who, turnID: Bytes)
    requires Numbered(w, turnID) && who in w.held
    ensures Numbered(Apply(w, Show(who)), turnID)
  {
    assert HeldApart(w, turnID, who);
    ShowKeepsCounted(w, who, turnID);
    forall other <- Apply(w, Show(who)).held
      ensures HeldApart(Apply(w, Show(who)), turnID, other)
    {
      assert HeldApart(w, turnID, other);
      ShowKeepsHeld(w, who, turnID, other);
    }
  }

  lemma StepKeepsNumbered(w: World, step: Step, turnID: Bytes)
    requires Numbered(w, turnID) && Enabled(w, step)
    ensures Numbered(Apply(w, step), turnID)
  {
    var v := Apply(w, step);
    if ByLoop(step) {
      LoopPassesOrDraws(w, step);
      if TimelineOf(EffectOf(w, step).emitted) == [] {
        PassingKeepsNumbered(w, v, turnID);
      } else {
        DrawKeepsNumbered(w, v, Loop, v.held[Loop], turnID);
      }
    } else if step.DrawAnswer? {
      AnswerDraws(w, step.call);
      DrawKeepsNumbered(w, v, Caller(step.call), v.held[Caller(step.call)], turnID);
    } else if step.Show? {
      ShowKeepsNumbered(w, step.who, turnID);
    } else {
      PassingKeepsNumbered(w, v, turnID);
    }
  }

  /** Nothing of the turn has been shown yet, nor is any event of it under way. */
  predicate Begins(w: World, turnID: Bytes) {
    && Marks(w.shown, turnID) == [] && w.Life(turnID) == 0
    && forall who <- w.held :: !w.Holds(who, turnID)
  }

  lemma BeginsNumbered(w: World, turnID: Bytes)
    requires Begins(w, turnID)
    ensures Numbered(w, turnID)
  {
    forall who <- w.held
      ensures HeldApart(w, turnID, who)
    {
      assert !w.Holds(who, turnID);
    }
  }

  lemma {:induction false} StaysNumbered(w: World, steps: seq<Step>, v: World, turnID: Bytes)
    requires Numbered(w, turnID) && Reaches(w, steps, v)
    ensures Numbered(v, turnID)
    decreases |steps|
  {
    if steps != [] {
      var n := |steps| - 1;
      var u :| Reaches(w, steps[..n], u) && Enabled(u, steps[n]) && v == Apply(u, steps[n]);
      StaysNumbered(w, steps[..n], u, turnID);
      StepKeepsNumbered(u, steps[n], turnID);
    }
  }

  lemma RunKeepsNumbered(w: World, steps: seq<Step>, v: World, turnID: Bytes)
    requires Begins(w, turnID) && Reaches(w, steps, v)
    ensures Numbered(v, turnID)
  {
    BeginsNumbered(w, turnID);
    StaysNumbered(w, steps, v, turnID);
  }

  lemma LifeStays(u: World, step: Step, turnID: Bytes)
    requires Enabled(u, step) && step != ForgetTurn(turnID)
    ensures Apply(u, step).Life(turnID) == u.Life(turnID)
  {
  }

  lemma {:induction false} FirstLife(w: World, steps: seq<Step>, v: World, turnID: Bytes)
    requires Begins(w, turnID) && Reaches(w, steps, v) && ForgetTurn(turnID) !in steps
    ensures v.Life(turnID) == 0
  {
    if steps != [] {
      var n := |steps| - 1;
      var u :| Reaches(w, steps[..n], u) && Enabled(u, steps[n]) && v == Apply(u, steps[n]);
      FirstLife(w, steps[..n], u, turnID);
      LifeStays(u, steps[n], turnID);
    }
  }

  // ----- what readers of the timeline may rely on -----

  /** While a turn lives its timeline events carry positive numbers no two of which are equal, and
      those of the read loop increase, however drawing and showing interleave. */
  lemma LiveNumbersDistinct(w: World, steps: seq<Step>, v: World, turnID: Bytes)
    requires Begins(w, turnID) && Reaches(w, steps, v)
    requires ForgetTurn(turnID) !in steps
    ensures var marks := Marks(v.shown, turnID);
      && Distinct(NumbersOf(marks))
      && (forall i, j :: 0 <= i < j < |marks| && marks[i].who.Loop? && marks[j].who.Loop? ==>
            marks[i].ticket.number < marks[j].ticket.number)
      && (forall i :: 0 <= i < |marks| ==> marks[i].ticket.number >= 1)
  {
    RunKeepsNumbered(w, steps, v, turnID);
    FirstLife(w, steps, v, turnID);
  }

  /** In every run whatsoever, a number is shown at most once in each life of its turn. So the numbers
      shown for a turn are pairwise distinct exactly if no number is shown in two of its lives. */
  lemma NumbersDistinctIff(w: World, steps: seq<Step>, v: World, turnID: Bytes)
    requires Begins(w, turnID) && Reaches(w, steps, v)
    ensures var marks := Marks(v.shown, turnID);
      Distinct(NumbersOf(marks)) <==>
        forall i, j :: 0 <= i < |marks| && 0 <= j < |marks| && marks[i].ticket.life < marks[j].ticket.life ==>
          marks[i].ticket.number != marks[j].ticket.number
  {
    RunKeepsNumbered(w, steps, v, turnID);
    var marks := Marks(v.shown, turnID);
    var numbers := NumbersOf(marks);
    if Distinct(numbers) {
      forall i, j | 0 <= i < |marks| && 0 <= j < |marks| && marks[i].ticket.life < marks[j].ticket.life
        ensures marks[i].ticket.number != marks[j].ticket.number
      {
        assert i != j && numbers[i] == marks[i].ticket.number && numbers[j] == marks[j].ticket.number;
      }
    }
  }

  /** When the terminal event is numbered it gets the largest number issued for the turn's life so far:
      larger than every number of that life shown, and than every one drawn and still held. */
  lemma TerminalNumberIsLargest(w: World, steps: seq<Step>, v: World, n: Notification)
    requires n.TurnCompleted? && n.threadID != "" && n.turnID != ""
    requires Begins(w, n.turnID) && Reaches(w, steps, v)
    ensures var emitted, life := CodexStream.CompleteTurn(v.client, n).emitted, v.Life(n.turnID);
      && |emitted| == 1 && emitted[0].Timeline? && emitted[0].turnID == n.turnID
      && emitted[0].kind == (if n.failed then TurnFailedKind else TurnCompletedKind)
      && (forall mark <- Marks(v.shown, n.turnID) ::
            mark.ticket.life == life ==> mark.ticket.number < emitted[0].sequence)
      && (forall who <- v.held :: v.Holds(who, n.turnID) && v.held[who].life == life ==>
            v.held[who].event.sequence < emitted[0].sequence)
  {
    RunKeepsNumbered(w, steps, v, n.turnID);
    forall who <- v.held
      ensures v.Holds(who, n.turnID) && v.held[who].life == v.Life(n.turnID) ==>
        v.held[who].event.sequence <= v.client.Timelines(n.turnID)
    {
      assert HeldApart(v, n.turnID, who);
    }
  }

  // ----- the order of the numbers -----

  /** `b` was shown between the drawing of `a` and the showing of it, and drawn then as well. */
  predicate Overtakes(b: Mark, a: Mark) {
    a.ticket.drawnAt < b.ticket.drawnAt && b.shownAt < a.shownAt
  }

  predicate NoneOvertaken(marks: seq<Mark>) {
    forall i, j :: 0 <= i < |marks| && 0 <= j < |marks| && marks[i].ticket.life == marks[j].ticket.life ==>
      !Overtakes(marks[j], marks[i])
  }

  /** Events of different lives are shown in the order of their numbers. */
  predicate LivesAscend(marks: seq<Mark>) {
    forall i, j :: 0 <= i < j < |marks| && marks[i].ticket.life != marks[j].ticket.life ==>
      marks[i].ticket.number < marks[j].ticket.number
  }

  lemma AscendIff(marks: seq<Mark>)
    requires Apart(marks)
    ensures Increasing(NumbersOf(marks)) <==> NoneOvertaken(marks) && LivesAscend(marks)
  {
    var numbers := NumbersOf(marks);
    assert forall i :: 0 <= i < |marks| ==> numbers[i] == marks[i].ticket.number;
    if Increasing(numbers) {
      forall i, j | 0 <= i < |marks| && 0 <= j < |marks| && marks[i].ticket.life == marks[j].ticket.life
        ensures !Overtakes(marks[j], marks[i])
      {
        if j < i {
          assert numbers[j] < numbers[i] && Ordered(marks[j].ticket, marks[i].ticket);
        }
      }
      forall i, j | 0 <= i < j < |marks| && marks[i].ticket.life != marks[j].ticket.life
        ensures marks[i].ticket.number < marks[j].ticket.number
      {
        assert numbers[i] < numbers[j];
      }
    } else {
      var i, j :| 0 <= i < j < |numbers| && numbers[i] >= numbers[j];
      assert Ordered(marks[i].ticket, marks[j].ticket) && marks[i].shownAt < marks[j].shownAt;
      if marks[i].ticket.life == marks[j].ticket.life {
        assert Overtakes(marks[i], marks[j]);
      }
    }
  }

  /** In every run the events of a turn are shown in the order of their numbers exactly if none of a
      life is overtaken, that is, no other event of it is drawn and shown, by the read loop or by an
      answer, between its own drawing and its own showing, and events of different lives ascend. */
  lemma NumbersAscendIff(w: World, steps: seq<Step>, v: World, turnID: Bytes)
    requires Begins(w, turnID) && Reaches(w, steps, v)
    ensures var marks := Marks(v.shown, turnID);
      Increasing(NumbersOf(marks)) <==> NoneOvertaken(marks) && LivesAscend(marks)
    ensures ForgetTurn(turnID) !in steps ==>
      (Increasing(NumbersOf(Marks(v.shown, turnID))) <==> NoneOvertaken(Marks(v.shown, turnID)))
  {
    RunKeepsNumbered(w, steps, v, turnID);
    AscendIff(Marks(v.shown, turnID));
    if ForgetTurn(turnID) !in steps {
      FirstLife(w, steps, v, turnID);
    }
  }

  /** The step of the run at which the event was drawn. */
  predicate DrawnBy(step: Step, who: Who) {
    match who
    case Loop => ByLoop(step)
    case Caller(call) => step == DrawAnswer(call)
  }

  predicate HeldSince(steps: seq<Step>, who: Who, held: Held) {
    held.drawnAt < |steps| && DrawnBy(steps[held.drawnAt], who)
  }

  predicate ShownThen(steps: seq<Step>, shown: Shown) {
    && HeldSince(steps, shown.who, shown.held)
    && shown.held.drawnAt < shown.shownAt < |steps| && steps[shown.shownAt] == Show(shown.who)
  }

  predicate Timed(steps: seq<Step>, w: World) {
    && w.clock == |steps|
    && (forall who <- w.held :: HeldSince(steps, who, w.held[who]))
    && (forall i :: 0 <= i < |w.shown| ==> ShownThen(steps, w.shown[i]))
  }

  lemma StepIsTimed(steps: seq<Step>, u: World, step: Step)
    requires Timed(steps, u) && Enabled(u, step)
    ensures Timed(steps + [step], Apply(u, step))
  {
    var v, longer := Apply(u, step), steps + [step];
    assert forall k :: 0 <= k < |steps| ==> longer[k] == steps[k];
    assert longer[|steps|] == step;
    if ByLoop(step) {
      LoopPassesOrDraws(u, step);
    }
    forall who <- v.held
      ensures HeldSince(longer, who, v.held[who])
    {
      assert who in u.held ==> HeldSince(steps, who, u.held[who]);
    }
    forall i | 0 <= i < |v.shown|
      ensures ShownThen(longer, v.shown[i])
    {
      assert i < |u.shown| ==> ShownThen(steps, u.shown[i]);
    }
  }

  /** The times on the events are positions in the run: where a step drew the event for the one who
      showed it, and where a later step showed it. */
  lemma {:induction false} TimesArePositions(steps: seq<Step>, v: World)
    requires Reaches(START, steps, v)
    ensures Timed(steps, v)
  {
    if steps != [] {
      var n := |steps| - 1;
      var u :| Reaches(START, steps[..n], u) && Enabled(u, steps[n]) && v == Apply(u, steps[n]);
      TimesArePositions(steps[..n], u);
      StepIsTimed(steps[..n], u, steps[n]);
      LastSplits(steps);
    }
  }

  lemma LastSplits(steps: seq<Step>)
    requires steps != []
    ensures steps == steps[..|steps| - 1] + [steps[|steps| - 1]]
  {
  }

  // ----- after the end of a turn -----

  predicate Has(marks: seq<Mark>, life: nat, number: nat) {
    exists i :: 0 <= i < |marks| && marks[i].ticket.life == life && marks[i].ticket.number == number
  }

  /** Every life of which anything was shown has its number 1 shown, as it is if the event drawn first
      is not still held and no notification drew that number in vain. */
  predicate FirstsShown(marks: seq<Mark>) {
    forall i :: 0 <= i < |marks| ==> Has(marks, marks[i].ticket.life, 1)
  }

  /** A number that is held to be shown, or has been. */
  predicate UnderWay(w: World, who: Who, turnID: Bytes, life: nat, number: nat) {
    || (w.Holds(who, turnID) && w.held[who].life == life && w.held[who].event.sequence == number)
    || Has(Marks(w.shown, turnID), life, number)
  }

  lemma ShowsMore(w: World, who: Who, turnID: Bytes, life: nat, number: nat)
    requires who in w.held && Has(Marks(w.shown, turnID), life, number)
    ensures Has(Marks(Apply(w, Show(who)).shown, turnID), life, number)
  {
    ShowMarks(w, who, turnID);
    var marks, after := Marks(w.shown, turnID), Marks(Apply(w, Show(who)).shown, turnID);
    var i :| 0 <= i < |marks| && marks[i].ticket.life == life && marks[i].ticket.number == number;
    assert after[i] == marks[i];
  }

  lemma ShowsIt(w: World, who: Who, turnID: Bytes)
    requires w.Holds(who, turnID)
    ensures Has(Marks(Apply(w, Show(who)).shown, turnID), w.held[who].life, w.held[who].event.sequence)
  {
    ShowMarks(w, who, turnID);
    var after := Marks(Apply(w, Show(who)).shown, turnID);
    assert after[|after| - 1].ticket == TicketOf(w.held[who]);
  }

  lemma StepKeepsUnderWay(w: World, step: Step, who: Who, turnID: Bytes, life: nat, number: nat)
    requires UnderWay(w, who, turnID, life, number) && Enabled(w, step)
    ensures UnderWay(Apply(w, step), who, turnID, life, number)
  {
    if step.Show? {
      if Has(Marks(w.shown, turnID), life, number) {
        ShowsMore(w, step.who, turnID, life, number);
      } else if step.who == who {
        ShowsIt(w, who, turnID);
      }
    } else if ByLoop(step) {
      LoopPassesOrDraws(w, step);
    }
  }

  lemma {:induction false} RunKeepsUnderWay(w: World, steps: seq<Step>, v: World, who: Who, turnID: Bytes, life: nat,
                                            number: nat)
    requires UnderWay(w, who, turnID, life, number) && Reaches(w, steps, v)
    ensures UnderWay(v, who, turnID, life, number)
    decreases |steps|
  {
    if steps != [] {
      var n := |steps| - 1;
      var u :| Reaches(w, steps[..n], u) && Enabled(u, steps[n]) && v == Apply(u, steps[n]);
      RunKeepsUnderWay(w, steps[..n], u, who, turnID, life, number);
      StepKeepsUnderWay(u, steps[n], who, turnID, life, number);
    }
  }

  /** The step at which a turn is started. */
  function Start(threadID: Bytes, turnID: Bytes, requestID: Bytes): Step {
    Receive(TurnStarted(threadID, turnID, requestID))
  }

  /** The turn's start is received as the first thing of the turn. */
  predicate Starts(w: World, s: World, threadID: Bytes, turnID: Bytes, requestID: Bytes) {
    && Begins(w, turnID) && w.client.Timelines(turnID) == 0 && threadID != "" && turnID != ""
    && Enabled(w, Start(threadID, turnID, requestID)) && s == Apply(w, Start(threadID, turnID, requestID))
  }

  lemma StartDraws(w: World, threadID: Bytes, turnID: Bytes, requestID: Bytes)
    requires threadID != "" && turnID != "" && Loop !in w.held
    ensures var v := Apply(w, Start(threadID, turnID, requestID));
      v.Holds(Loop, turnID) && v.held[Loop].life == w.Life(turnID)
      && v.held[Loop].event.sequence == w.client.Timelines(turnID) + 1 && v.Life(turnID) == w.Life(turnID)
  {
    var emitted := Handle(w.client, TurnStarted(threadID, turnID, requestID)).emitted;
    assert emitted == [emitted[0], emitted[1]];
    assert emitted[1..] == [emitted[1]] && emitted[1..][1..] == [];
    assert TimelineOf([emitted[1]]) == [emitted[1]];
  }

  /** Before the counter of the turn can be forgotten, the loop has shown the start. */
  predicate Launched(w: World, turnID: Bytes) {
    && UnderWay(w, Loop, turnID, 0, 1)
    && (w.Life(turnID) > 0 ==> Has(Marks(w.shown, turnID), 0, 1))
  }

  lemma StepKeepsLaunched(w: World, step: Step, turnID: Bytes)
    requires Launched(w, turnID) && Enabled(w, step)
    ensures Launched(Apply(w, step), turnID)
  {
    StepKeepsUnderWay(w, step, Loop, turnID, 0, 1);
    if Has(Marks(w.shown, turnID), 0, 1) && step.Show? {
      ShowsMore(w, step.who, turnID, 0, 1);
    }
  }

  lemma {:induction false} RunKeepsLaunched(w: World, steps: seq<Step>, v: World, turnID: Bytes)
    requires Launched(w, turnID) && Reaches(w, steps, v)
    ensures Launched(v, turnID)
    decreases |steps|
  {
    if steps != [] {
      var n := |steps| - 1;
      var u :| Reaches(w, steps[..n], u) && Enabled(u, steps[n]) && v == Apply(u, steps[n]);
      RunKeepsLaunched(w, steps[..n], u, turnID);
      StepKeepsLaunched(u, steps[n], turnID);
    }
  }

  lemma StartsIsLaunched(w: World, s: World, threadID: Bytes, turnID: Bytes, requestID: Bytes)
    requires Starts(w, s, threadID, turnID, requestID)
    ensures Numbered(s, turnID) && Launched(s, turnID)
  {
    StartDraws(w, threadID, turnID, requestID);
    BeginsNumbered(w, turnID);
    StepKeepsNumbered(w, Start(threadID, turnID, requestID), turnID);
  }

  lemma SameMarkTwice(marks: seq<Mark>, i: nat, j: nat)
    requires i < |marks| && j < |marks| && i != j && marks[i].ticket.number == marks[j].ticket.number
    ensures !Distinct(NumbersOf(marks))
  {
    var a, b := if i < j then i else j, if i < j then j else i;
    assert NumbersOf(marks)[a] == NumbersOf(marks)[b];
  }

  lemma OneInTwoLives(marks: seq<Mark>, life: nat)
    requires Has(marks, 0, 1) && Has(marks, life, 1) && life > 0
    ensures !Distinct(NumbersOf(marks))
  {
    var i :| 0 <= i < |marks| && marks[i].ticket.life == 0 && marks[i].ticket.number == 1;
    var j :| 0 <= j < |marks| && marks[j].ticket.life == life && marks[j].ticket.number == 1;
    SameMarkTwice(marks, i, j);
  }

  lemma DistinctIffOneLife(marks: seq<Mark>)
    requires Apart(marks) && FirstsShown(marks)
    requires Has(marks, 0, 1) || forall mark <- marks :: mark.ticket.life == 0
    ensures Distinct(NumbersOf(marks)) <==> forall mark <- marks :: mark.ticket.life == 0
  {
    if k :| 0 <= k < |marks| && marks[k].ticket.life != 0 {
      assert marks[k] in marks;
      OneInTwoLives(marks, marks[k].ticket.life);
    } else {
      var numbers := NumbersOf(marks);
      forall i, j | 0 <= i < j < |marks|
        ensures numbers[i] != numbers[j]
      {
        assert Ordered(marks[i].ticket, marks[j].ticket);
      }
    }
  }

  /** In every run that begins with the turn's start, and in which no life hides its number 1, the
      numbers shown for the turn are pairwise distinct exactly if no number drawn after its counter
      was forgotten is shown. */
  lemma DistinctIffNothingIsLate(w: World, s: World, steps: seq<Step>, v: World, threadID: Bytes, turnID: Bytes,
                                 requestID: Bytes)
    requires Starts(w, s, threadID, turnID, requestID) && Reaches(s, steps, v)
    requires FirstsShown(Marks(v.shown, turnID))
    ensures Distinct(NumbersOf(Marks(v.shown, turnID)))
       <==> forall mark <- Marks(v.shown, turnID) :: mark.ticket.life == 0
  {
    StartsIsLaunched(w, s, threadID, turnID, requestID);
    StaysNumbered(s, steps, v, turnID);
    RunKeepsLaunched(s, steps, v, turnID);
    var marks := Marks(v.shown, turnID);
    forall mark <- marks | v.Life(turnID) == 0
      ensures mark.ticket.life == 0
    {
      var i :| 0 <= i < |marks| && marks[i] == mark;
      assert Issued(mark.ticket, 0, v.client.Timelines(turnID), v.clock);
    }
    DistinctIffOneLife(marks);
  }

  /** The turn has begun with its start, and its counter has been forgotten since. */
  ghost predicate Over(w: World, s: World, steps: seq<Step>, u: World, threadID: Bytes, turnID: Bytes,
                       requestID: Bytes) {
    Starts(w, s, threadID, turnID, requestID) && Reaches(s, steps, u) && u.client.Timelines(turnID) == 0
  }

  lemma OverHasShownOne(w: World, s: World, steps: seq<Step>, u: World, threadID: Bytes, turnID: Bytes,
                        requestID: Bytes)
    requires Over(w, s, steps, u, threadID, turnID, requestID)
    ensures Has(Marks(u.shown, turnID), 0, 1) && u.Life(turnID) > 0
  {
    StartsIsLaunched(w, s, threadID, turnID, requestID);
    StaysNumbered(s, steps, u, turnID);
    RunKeepsLaunched(s, steps, u, turnID);
    if u.Holds(Loop, turnID) {
      assert HeldApart(u, turnID, Loop);
    }
  }

  /** Number 1 of a later life, once it is shown, repeats the one the turn's start had. */
  lemma NumberOneRepeats(u: World, more: seq<Step>, v: World, who: Who, turnID: Bytes, life: nat)
    requires Has(Marks(u.shown, turnID), 0, 1) && life > 0 && UnderWay(u, who, turnID, life, 1)
    requires Reaches(u, more, v) && who !in v.held
    ensures !Distinct(NumbersOf(Marks(v.shown, turnID)))
  {
    RunKeepsUnderWay(u, more, v, who, turnID, life, 1);
    assert UnderWay(u, who, turnID, 0, 1);
    RunShows(u, more, v, turnID, 0, 1);
    OneInTwoLives(Marks(v.shown, turnID), life);
  }

  lemma {:induction false} RunShows(w: World, steps: seq<Step>, v: World, turnID: Bytes, life: nat, number: nat)
    requires Has(Marks(w.shown, turnID), life, number) && Reaches(w, steps, v)
    ensures Has(Marks(v.shown, turnID), life, number)
    decreases |steps|
  {
    if steps != [] {
      var n := |steps| - 1;
      var u :| Reaches(w, steps[..n], u) && Enabled(u, steps[n]) && v == Apply(u, steps[n]);
      RunShows(w, steps[..n], u, turnID, life, number);
      if steps[n].Show? {
        ShowsMore(u, steps[n].who, turnID, life, number);
      }
    }
  }

  /** A turn identifier that is started again while its counter is at zero shows number 1 twice, once
      the read loop has shown that start, whatever happens before and after. */
  lemma RestartedTurnRepeats(w: World, s: World, steps: seq<Step>, u: World, threadID: Bytes, turnID: Bytes,
                             requestID: Bytes, more: seq<Step>, v: World)
    requires Over(w, s, steps, u, threadID, turnID, requestID) && Loop !in u.held
    requires Reaches(Apply(u, Start(threadID, turnID, requestID)), more, v) && Loop !in v.held
    ensures !Distinct(NumbersOf(Marks(v.shown, turnID)))
  {
    OverHasShownOne(w, s, steps, u, threadID, turnID, requestID);
    StartDraws(u, threadID, turnID, requestID);
    NumberOneRepeats(Apply(u, Start(threadID, turnID, requestID)), more, v, Loop, turnID, u.Life(turnID));
  }

  /** So does an approval whose answer is numbered then: whether it was found before the end or after. */
  lemma LateAnswerRepeats(w: World, s: World, steps: seq<Step>, u: World, threadID: Bytes, turnID: Bytes,
                          requestID: Bytes, call: nat, more: seq<Step>, v: World)
    requires Over(w, s, steps, u, threadID, turnID, requestID)
    requires Enabled(u, DrawAnswer(call)) && u.calls[call].approval.turnID == turnID
    requires Reaches(Apply(u, DrawAnswer(call)), more, v) && Caller(call) !in v.held
    ensures !Distinct(NumbersOf(Marks(v.shown, turnID)))
  {
    OverHasShownOne(w, s, steps, u, threadID, turnID, requestID);
    NumberOneRepeats(Apply(u, DrawAnswer(call)), more, v, Caller(call), turnID, u.Life(turnID));
  }

  // ----- three runs -----

  ghost predicate Arises(v: World) {
    exists steps :: Reaches(START, steps, v)
  }

  lemma ArisesNext(u: World, step: Step)
    requires Arises(u) && Enabled(u, step)
    ensures Arises(Apply(u, step))
  {
    var steps :| Reaches(START, steps, u);
    var longer := steps + [step];
    assert longer[..|steps|] == steps && longer[|steps|] == step;
    assert Reaches(START, longer, Apply(u, step));
  }

  /** What a reader sees of a mark, and who showed it. */
  datatype Brief = Brief(life: nat, number: nat, who: Who)

  function BriefOf(mark: Mark): Brief {
    Brief(mark.ticket.life, mark.ticket.number, mark.who)
  }

  function Briefs(marks: seq<Mark>): seq<Brief> {
    seq(|marks|, i requires 0 <= i < |marks| => BriefOf(marks[i]))
  }

  lemma ShowBriefs(w: World, who: Who, turnID: Bytes)
    requires w.Holds(who, turnID)
    ensures Briefs(Marks(Apply(w, Show(who)).shown, turnID))
         == Briefs(Marks(w.shown, turnID)) + [Brief(w.held[who].life, w.held[who].event.sequence, who)]
  {
    ShowMarks(w, who, turnID);
  }

  /** A world in which nothing is held, described by what concerns the approval's turn. */
  predicate Placed(w: World, approval: Approval, seen: seq<Brief>, life: nat, top: nat) {
    && w.calls == map[] && w.held == map[] && Shows(approval)
    && Briefs(Marks(w.shown, approval.turnID)) == seen && w.Life(approval.turnID) == life
    && w.client.Timelines(approval.turnID) == top
  }

  ghost predicate Stands(w: World, approval: Approval, seen: seq<Brief>, life: nat, top: nat) {
    Arises(w) && Placed(w, approval, seen, life, top)
  }

  predicate Asked(w: World, approval: Approval) {
    approval.requestID in w.client.pending && w.client.pending[approval.requestID] == approval
  }

  /** Where an effect's one timeline event is. */
  predicate EventAt(e: Effect, k: nat, turnID: Bytes) {
    && k < |e.emitted| && OfTurn(e.emitted[k], turnID)
    && NoTimeline(e.emitted[..k]) && NoTimeline(e.emitted[k + 1..])
  }

  lemma LoopHolds(w: World, step: Step, turnID: Bytes, k: nat)
    requires ByLoop(step) && Enabled(w, step) && EventAt(EffectOf(w, step), k, turnID)
    ensures var v := Apply(w, step);
      && v.Holds(Loop, turnID) && v.held[Loop].life == w.Life(turnID)
      && v.held[Loop].event.sequence == w.client.Timelines(turnID) + 1
      && v.client.Timelines(turnID) == w.client.Timelines(turnID) + 1
      && v.shown == w.shown && v.lives == w.lives && v.calls == w.calls && v.held == w.held[Loop := v.held[Loop]]
  {
    OnlyThatOne(EffectOf(w, step).emitted, k);
    LoopPassesOrDraws(w, step);
  }

  /** The read loop draws an event of the turn and shows it at once. */
  function AtOnce(w: World, step: Step): World
    requires ByLoop(step) && Enabled(w, step) && Loop in Apply(w, step).held
  {
    Apply(Apply(w, step), Show(Loop))
  }

  lemma AtOncePlaces(w: World, step: Step, k: nat, approval: Approval, seen: seq<Brief>, life: nat, top: nat)
    requires Placed(w, approval, seen, life, top)
    requires ByLoop(step) && Enabled(w, step) && EventAt(EffectOf(w, step), k, approval.turnID)
    ensures Loop in Apply(w, step).held
    ensures Placed(AtOnce(w, step), approval, seen + [Brief(life, top + 1, Loop)], life, top + 1)
    ensures AtOnce(w, step).client.pending == EffectOf(w, step).client.pending
  {
    LoopHolds(w, step, approval.turnID, k);
    ShowBriefs(Apply(w, step), Loop, approval.turnID);
  }

  lemma AtOnceStands(w: World, step: Step, k: nat, approval: Approval, seen: seq<Brief>, life: nat, top: nat)
    returns (v: World)
    requires Stands(w, approval, seen, life, top)
    requires ByLoop(step) && Enabled(w, step) && EventAt(EffectOf(w, step), k, approval.turnID)
    ensures Stands(v, approval, seen + [Brief(life, top + 1, Loop)], life, top + 1)
    ensures v.client.pending == EffectOf(w, step).client.pending
  {
    AtOncePlaces(w, step, k, approval, seen, life, top);
    ArisesNext(w, step);
    ArisesNext(Apply(w, step), Show(Loop));
    v := AtOnce(w, step);
  }

  lemma StartStands(approval: Approval) returns (v: World)
    requires Shows(approval)
    ensures Stands(v, approval, [Brief(0, 1, Loop)], 0, 1)
  {
    assert Reaches(START, [], START);
    var step := Start(approval.threadID, approval.turnID, "");
    v := AtOnceStands(START, step, 1, approval, [], 0, 0);
  }

  lemma AskStands(w: World, approval: Approval, seen: seq<Brief>, life: nat, top: nat) returns (v: World)
    requires Stands(w, approval, seen, life, top)
    ensures Stands(v, approval, seen + [Brief(life, top + 1, Loop)], life, top + 1) && Asked(v, approval)
  {
    ArisesNext(w, Pend(approval));
    v := AtOnceStands(Apply(w, Pend(approval)), Ask(approval), 0, approval, seen, life, top);
  }

  /** An item that is no item draws a number for its turn and shows nothing. */
  function EmptyItem(approval: Approval): Step {
    Receive(ItemStarted(approval.threadID, approval.turnID, "", NoItem))
  }

  lemma EmptyItemPlaces(w: World, approval: Approval, seen: seq<Brief>, life: nat, top: nat)
    requires Placed(w, approval, seen, life, top)
    ensures var v := Apply(w, EmptyItem(approval));
      Placed(v, approval, seen, life, top + 1) && v.client.pending == w.client.pending
  {
    assert EffectOf(w, EmptyItem(approval)).emitted == [];
    assert TimelineOf([]) == [];
  }

  lemma EmptyItemStands(w: World, approval: Approval, seen: seq<Brief>, life: nat, top: nat) returns (v: World)
    requires Stands(w, approval, seen, life, top)
    ensures Stands(v, approval, seen, life, top + 1) && (Asked(w, approval) ==> Asked(v, approval))
  {
    EmptyItemPlaces(w, approval, seen, life, top);
    ArisesNext(w, EmptyItem(approval));
    v := Apply(w, EmptyItem(approval));
  }

  function End(approval: Approval): Step {
    CompleteTurn(TurnCompleted(approval.threadID, approval.turnID, "", false, ""))
  }

  lemma EndStands(w: World, approval: Approval, seen: seq<Brief>, life: nat, top: nat) returns (v: World)
    requires Stands(w, approval, seen, life, top)
    ensures Stands(v, approval, seen + [Brief(life, top + 1, Loop)], life + 1, 0)
    ensures Asked(w, approval) ==> Asked(v, approval)
  {
    var ended := AtOnceStands(w, End(approval), 0, approval, seen, life, top);
    ArisesNext(ended, ForgetTurn(approval.turnID));
    v := Apply(ended, ForgetTurn(approval.turnID));
  }

  function AnswerDrawn(w: World, approval: Approval): World
    requires w.calls == map[] && Caller(0) !in w.held && Shows(approval) && Asked(w, approval)
  {
    Apply(Apply(w, FindAnswer(0, approval.requestID)), DrawAnswer(0))
  }

  lemma AnswerIsHeld(w: World, approval: Approval)
    requires w.calls == map[] && Caller(0) !in w.held && Shows(approval) && Asked(w, approval)
    ensures var t, v := approval.turnID, AnswerDrawn(w, approval);
      && v.Holds(Caller(0), t) && v.held[Caller(0)].life == w.Life(t)
      && v.held[Caller(0)].event.sequence == w.client.Timelines(t) + 1
      && v.shown == w.shown && v.held - {Caller(0)} == w.held
  {
    var found := Apply(w, FindAnswer(0, approval.requestID));
    assert found.calls[0] == Call(approval, false) && found.held == w.held && found.client == w.client;
  }

  lemma AnswerPlaces(w: World, approval: Approval)
    requires w.calls == map[] && Caller(0) !in w.held && Shows(approval) && Asked(w, approval)
    ensures Caller(0) in AnswerDrawn(w, approval).held
    ensures var t, v := approval.turnID, Apply(AnswerDrawn(w, approval), Show(Caller(0)));
      && Briefs(Marks(v.shown, t))
           == Briefs(Marks(w.shown, t)) + [Brief(w.Life(t), w.client.Timelines(t) + 1, Caller(0))]
      && v.held == w.held
  {
    AnswerIsHeld(w, approval);
    ShowBriefs(AnswerDrawn(w, approval), Caller(0), approval.turnID);
  }

  lemma AnswerStands(w: World, approval: Approval) returns (v: World)
    requires Arises(w) && w.calls == map[] && Caller(0) !in w.held && Shows(approval) && Asked(w, approval)
    ensures var t := approval.turnID;
      && Arises(v) && v.held == w.held
      && Briefs(Marks(v.shown, t))
           == Briefs(Marks(w.shown, t)) + [Brief(w.Life(t), w.client.Timelines(t) + 1, Caller(0))]
  {
    AnswerPlaces(w, approval);
    var find := FindAnswer(0, approval.requestID);
    ArisesNext(w, find);
    ArisesNext(Apply(w, find), DrawAnswer(0));
    var drawn := AnswerDrawn(w, approval);
    ArisesNext(drawn, Show(Caller(0)));
    v := Apply(drawn, Show(Caller(0)));
  }

  lemma BriefsTell(marks: seq<Mark>, i: nat)
    requires i < |marks|
    ensures Briefs(marks)[i].number == NumbersOf(marks)[i] == marks[i].ticket.number
    ensures Briefs(marks)[i].life == marks[i].ticket.life && marks[i] in marks
  {
  }

  /** It happens: a turn is started, asks for an approval and completes, and the approval is answered
      after that. */
  lemma NumbersRepeatAfterTheEnd(approval: Approval)
    requires Shows(approval)
    ensures exists v :: Arises(v) && !Distinct(NumbersOf(Marks(v.shown, approval.turnID)))
  {
    var one := [Brief(0, 1, Loop)];
    var started := StartStands(approval);
    var asked := AskStands(started, approval, one, 0, 1);
    var ended := EndStands(asked, approval, one + [Brief(0, 2, Loop)], 0, 2);
    var v := AnswerStands(ended, approval);
    var marks := Marks(v.shown, approval.turnID);
    BriefsTell(marks, 0);
    BriefsTell(marks, 3);
    SameMarkTwice(marks, 0, 3);
  }

  lemma GapBeforeTheEnd(approval: Approval) returns (v: World)
    requires Shows(approval)
    ensures Stands(v, approval, [Brief(0, 1, Loop)] + [Brief(0, 3, Loop)], 0, 3) && Asked(v, approval)
  {
    var started := StartStands(approval);
    var skipped := EmptyItemStands(started, approval, [Brief(0, 1, Loop)], 0, 1);
    v := AskStands(skipped, approval, [Brief(0, 1, Loop)], 0, 2);
  }

  lemma GapAfterTheEnd(w: World, approval: Approval, seen: seq<Brief>) returns (v: World)
    requires Stands(w, approval, seen, 0, 3) && Asked(w, approval)
    ensures Stands(v, approval, seen + [Brief(0, 4, Loop)], 1, 1) && Asked(v, approval)
  {
    var ended := EndStands(w, approval, seen, 0, 3);
    v := EmptyItemStands(ended, approval, seen + [Brief(0, 4, Loop)], 1, 0);
  }

  lemma GapRun(approval: Approval) returns (v: World)
    requires Shows(approval)
    ensures Arises(v)
    ensures Briefs(Marks(v.shown, approval.turnID))
         == [Brief(0, 1, Loop)] + [Brief(0, 3, Loop)] + [Brief(0, 4, Loop)] + [Brief(1, 2, Caller(0))]
  {
    var asked := GapBeforeTheEnd(approval);
    var late := GapAfterTheEnd(asked, approval, [Brief(0, 1, Loop)] + [Brief(0, 3, Loop)]);
    v := AnswerStands(late, approval);
  }

  lemma NumbersAreTold(marks: seq<Mark>)
    ensures |NumbersOf(marks)| == |Briefs(marks)|
    ensures forall i :: 0 <= i < |marks| ==> NumbersOf(marks)[i] == Briefs(marks)[i].number
    ensures forall i :: 0 <= i < |marks| ==> marks[i].ticket.life == Briefs(marks)[i].life
  {
  }

  /** That every life shows its number 1 matters: where numbers have been drawn in vain, before the end
      and after it, one drawn late can be shown and fall into the gap. */
  lemma LateNumberMayFillAGap(approval: Approval)
    requires Shows(approval)
    ensures exists v :: Arises(v) && Distinct(NumbersOf(Marks(v.shown, approval.turnID)))
                     && exists mark <- Marks(v.shown, approval.turnID) :: mark.ticket.life == 1
  {
    var v := GapRun(approval);
    var marks := Marks(v.shown, approval.turnID);
    NumbersAreTold(marks);
    assert NumbersOf(marks) == [1, 3, 4, 2];
    assert marks[3].ticket.life == 1 && marks[3] in marks;
  }

  function Output(approval: Approval): Step {
    Receive(GenericDelta(approval.threadID, approval.turnID, "", "x"))
  }

  /** The read loop has drawn 3 for a delta and is yet to show it. */
  lemma OutputIsDrawn(approval: Approval) returns (v: World)
    requires Shows(approval)
    ensures Arises(v) && v.calls == map[] && v.held.Keys == {Loop} && v.Holds(Loop, approval.turnID)
        && Asked(v, approval)
    ensures v.held[Loop].life == 0 && v.held[Loop].event.sequence == 3
    ensures v.Life(approval.turnID) == 0 && v.client.Timelines(approval.turnID) == 3
    ensures Briefs(Marks(v.shown, approval.turnID)) == [Brief(0, 1, Loop)] + [Brief(0, 2, Loop)]
  {
    var started := StartStands(approval);
    var asked := AskStands(started, approval, [Brief(0, 1, Loop)], 0, 1);
    ArisesNext(asked, Output(approval));
    LoopHolds(asked, Output(approval), approval.turnID, 0);
    v := Apply(asked, Output(approval));
    assert v.client.pending == asked.client.pending;
  }

  /** The answer draws 4 and shows it, and then the read loop shows what it has. */
  lemma OvertakingRun(approval: Approval) returns (v: World)
    requires Shows(approval)
    ensures Arises(v) && AnswerFirst(Marks(v.shown, approval.turnID))
  {
    var drawn := OutputIsDrawn(approval);
    var answered := AnswerStands(drawn, approval);
    assert answered.held[Loop] == drawn.held[Loop];
    ArisesNext(answered, Show(Loop));
    ShowBriefs(answered, Loop, approval.turnID);
    v := Apply(answered, Show(Loop));
  }

  /** The read loop can be overtaken by an answer: no answer is, nothing is late, and yet the numbers are
      not in order. */
  lemma LoopIsOvertaken(approval: Approval)
    requires Shows(approval)
    ensures exists v :: Arises(v) && AnswerFirst(Marks(v.shown, approval.turnID))
                     && !Increasing(NumbersOf(Marks(v.shown, approval.turnID)))
  {
    var v := OvertakingRun(approval);
    var marks := Marks(v.shown, approval.turnID);
    NumbersAreTold(marks);
    assert NumbersOf(marks)[2] == 4 && NumbersOf(marks)[3] == 3;
  }

  predicate AnswerFirst(marks: seq<Mark>) {
    Briefs(marks) == [Brief(0, 1, Loop)] + [Brief(0, 2, Loop)] + [Brief(0, 4, Caller(0))] + [Brief(0, 3, Loop)]
  }

  // ----- steps and handlers -----

  /** Whoever holds an event shows it. */
  function ShownBy(w: World, who: Who): World {
    if who in w.held then Apply(w, Show(who)) else w
  }

  /** A completion, without interruption. */
  function Ended(w: World, n: Notification): World
    requires Loop !in w.held && n.TurnCompleted?
  {
    Apply(ShownBy(Apply(w, CompleteTurn(n)), Loop), ForgetTurn(w.client.Resolve(n.threadID, n.turnID)))
  }

  /** A request for an approval, without interruption. */
  function AskedFor(w: World, approval: Approval): World
    requires Loop !in w.held
  {
    ShownBy(Apply(Apply(w, Pend(approval)), Ask(approval)), Loop)
  }

  /** An answer from its look-up to its end, without interruption. */
  function Answered(w: World, call: nat, requestID: Bytes): World
    requires call !in w.calls && Caller(call) !in w.held && requestID in w.client.pending
  {
    var found := Apply(w, FindAnswer(call, requestID));
    var drawn := if Shows(found.calls[call].approval) then Apply(found, DrawAnswer(call)) else found;
    Apply(ShownBy(drawn, Caller(call)), FinishAnswer(call))
  }

  /** Without interruption the steps make up the handlers of the client: a completion, … */
  lemma StepsMakeUpHandlers(w: World, n: Notification)
    requires Loop !in w.held && n.TurnCompleted?
    requires n.threadID != "" && w.client.Resolve(n.threadID, n.turnID) != ""
    ensures Ended(w, n).client == Handle(w.client, n).client
  {
  }

  /** … a request for an approval, … */
  lemma StepsMakeUpRequests(w: World, approval: Approval)
    requires Loop !in w.held
    ensures AskedFor(w, approval).client == CodexStream.Ask(w.client, approval).client
  {
  }

  /** … and an answer. */
  lemma StepsMakeUpAnswers(w: World, call: nat, requestID: Bytes, decision: string)
    requires call !in w.calls && Caller(call) !in w.held && requestID in w.client.pending
    requires w.client.pending[requestID].requestID == requestID
    ensures Answered(w, call, requestID).client == Answer(w.client, requestID, decision).client
  {
    var approval := w.client.pending[requestID];
    var found := Apply(w, FindAnswer(call, requestID));
    assert found.client == w.client && found.calls[call] == Call(approval, false);
    if Shows(approval) {
      var drawn := Apply(found, DrawAnswer(call));
      assert drawn.client == w.client.DrawTimeline(approval.turnID) && drawn.calls == found.calls;
      var shown := Apply(drawn, Show(Caller(call)));
      assert shown.client == drawn.client && shown.calls[call] == Call(approval, true);
    }
  }
}
