/** The command protocol with the client's handler in it: where the protocol has a client reply as it
    likes, here the handler runs on the command that arrived, and what it sends goes on the wire. */
module CommandHandling {
  import opened ClientCommands
  import opened CommandProtocol

  /** How a result or a reason is written in a reply frame. */
  type Render = Frame -> string

  /** `stopped` are the connections whose handler has reported an error, which ends the client's
      command loop; `log` is everything the handlers have sent. */
  datatype World = World(protocol: State, stopped: set<Conn>, log: seq<Frame>)

  const START := World(INITIAL, {}, [])

  datatype Step =
    | Other(action: Action)
    | Handle(c: Conn, command: Command, payload: Payload, around: Surroundings, holds: nat)

  function ReplyOf(frame: Frame, render: Render): CommandProtocol.Reply
    requires IsReply(frame)
  {
    if frame.CommandCompleted? then Completed(render(frame)) else Rejected(render(frame))
  }

  /** A frame that is a reply joins the answers to the request it names, and travels back. */
  function Carry(s: State, c: Conn, frame: Frame, render: Render): State {
    if !IsReply(frame) then s
    else
      var reply := ReplyOf(frame, render);
      s.(answers := s.answers[frame.requestID := s.Answers(frame.requestID) + [reply]],
         replies := s.replies[c := s.RepliesFrom(c) + [(frame.requestID, reply)]])
  }

  function CarryAll(s: State, c: Conn, frames: seq<Frame>, render: Render): State
    decreases |frames|
  {
    if frames == [] then s else CarryAll(Carry(s, c, frames[0], render), c, frames[1..], render)
  }

  ghost predicate CanTake(w: World, step: Step) {
    match step
    case Other(action) => !action.ClientReplies? && !action.ClientFails? && Enabled(w.protocol, action)
    case Handle(c, _, _, _, _) => w.protocol.CommandsTo(c) != [] && c !in w.stopped
  }

  function EnvelopeOf(w: World, step: Step): Envelope
    requires step.Handle? && w.protocol.CommandsTo(step.c) != []
  {
    Envelope(w.protocol.CommandsTo(step.c)[0], step.command, step.payload)
  }

  ghost function Sends(w: World, step: Step): seq<Frame>
    requires step.Handle? && w.protocol.CommandsTo(step.c) != []
  {
    Prefix(Script(EnvelopeOf(w, step), step.around), step.holds)
  }

  ghost predicate Succeeds(w: World, step: Step)
    requires step.Handle? && w.protocol.CommandsTo(step.c) != []
  {
    var envelope := EnvelopeOf(w, step);
    Finishes(envelope, step.around) && |Script(envelope, step.around)| <= step.holds
  }

  /** The handler takes the command off the wire and sends up to `holds` frames of its script. */
  ghost function Take(w: World, step: Step, render: Render): World
    requires CanTake(w, step)
  {
    match step
    case Other(action) => w.(protocol := Apply(w.protocol, action))
    case Handle(c, _, _, _, _) =>
      var s := w.protocol;
      var taken := s.(commands := s.commands[c := s.CommandsTo(c)[1..]]);
      World(CarryAll(taken, c, Sends(w, step), render),
            if Succeeds(w, step) then w.stopped else w.stopped + {c},
            w.log + Sends(w, step))
  }

  ghost predicate Runs(steps: seq<Step>, t: World, render: Render)
    decreases |steps|
  {
    if steps == [] then t == START
    else
      var n := |steps| - 1;
      exists w :: Runs(steps[..n], w, render) && CanTake(w, steps[n]) && t == Take(w, steps[n], render)
  }

  ghost predicate Occurs(w: World, render: Render) {
    exists steps :: Runs(steps, w, render)
  }

  // ----- one run of the handler is one step of the protocol -----

  /** What is carried depends on the replies alone. */
  lemma {:induction false} OnlyRepliesCarry(s: State, c: Conn, frames: seq<Frame>, render: Render)
    ensures CarryAll(s, c, frames, render) == CarryAll(s, c, RepliesIn(frames), render)
    decreases |frames|
  {
    if frames != [] {
      var next := Carry(s, c, frames[0], render);
      OnlyRepliesCarry(next, c, frames[1..], render);
      if IsReply(frames[0]) {
        assert RepliesIn(frames)[1..] == RepliesIn(frames[1..]);
      } else {
        assert RepliesIn(frames) == RepliesIn(frames[1..]);
      }
    }
  }

  /** The protocol step that a run of the handler comes to. */
  ghost function ActionOf(w: World, step: Step, render: Render): Action
    requires step.Handle? && w.protocol.CommandsTo(step.c) != []
  {
    var envelope := EnvelopeOf(w, step);
    if step.holds > |Opening(envelope, step.around)| then
      ExactlyOneReply(envelope, step.around, 0);
      ClientReplies(step.c, ReplyOf(ClientCommands.Reply(envelope, step.around), render))
    else ClientFails(step.c)
  }

  /** A run of the handler, whatever the command and wherever its connection breaks, is exactly one
      reply of the client to that command, or none if the connection broke before. */
  lemma HandlerIsOneReply(w: World, step: Step, render: Render)
    requires step.Handle? && CanTake(w, step)
    ensures Enabled(w.protocol, ActionOf(w, step, render))
    ensures Take(w, step, render).protocol == Apply(w.protocol, ActionOf(w, step, render))
    ensures ActionOf(w, step, render).ClientFails? ==> step.c in Take(w, step, render).stopped
  {
    var envelope, c := EnvelopeOf(w, step), step.c;
    var s := w.protocol;
    var taken := s.(commands := s.commands[c := s.CommandsTo(c)[1..]]);
    ExactlyOneReply(envelope, step.around, step.holds);
    OnlyRepliesCarry(taken, c, Sends(w, step), render);
    var replies := RepliesIn(Sends(w, step));
    if replies != [] {
      assert replies[1..] == [];
      assert CarryAll(taken, c, replies, render) == Carry(taken, c, replies[0], render);
    }
    var rest := ScriptHasOneReply(envelope, step.around);
  }

  lemma {:induction false} RunsAreProtocolRuns(steps: seq<Step>, w: World, render: Render)
    requires Runs(steps, w, render)
    ensures Reachable(w.protocol)
  {
    if steps == [] {
      assert Reaches(INITIAL, [], INITIAL);
    } else {
      var n := |steps| - 1;
      var v :| Runs(steps[..n], v, render) && CanTake(v, steps[n]) && w == Take(v, steps[n], render);
      RunsAreProtocolRuns(steps[..n], v, render);
      if steps[n].Handle? {
        HandlerIsOneReply(v, steps[n], render);
        Extend(v.protocol, ActionOf(v, steps[n], render));
      } else {
        Extend(v.protocol, steps[n].action);
      }
    }
  }

  lemma Extend(s: State, a: Action)
    requires Reachable(s) && Enabled(s, a)
    ensures Reachable(Apply(s, a))
  {
    var actions :| Reaches(INITIAL, actions, s);
    var longer := actions + [a];
    assert longer[..|actions|] == actions;
    assert Reaches(INITIAL, longer, Apply(s, a));
  }

  // ----- what the frames on the wire show -----

  /** The replies to one request among everything that was sent. */
  function RepliesTo(frames: seq<Frame>, r: Request, render: Render): seq<CommandProtocol.Reply> {
    if frames == [] then []
    else
      (if IsReply(frames[0]) && frames[0].requestID == r then [ReplyOf(frames[0], render)] else [])
      + RepliesTo(frames[1..], r, render)
  }

  lemma {:induction false} RepliesToBoth(xs: seq<Frame>, ys: seq<Frame>, r: Request, render: Render)
    ensures RepliesTo(xs + ys, r, render) == RepliesTo(xs, r, render) + RepliesTo(ys, r, render)
  {
    if xs == [] {
      assert xs + ys == ys;
    } else {
      assert (xs + ys)[0] == xs[0] && (xs + ys)[1..] == xs[1..] + ys;
      RepliesToBoth(xs[1..], ys, r, render);
    }
  }

  lemma CarriedIsAnswer(s: State, c: Conn, frame: Frame, r: Request, render: Render)
    ensures Carry(s, c, frame, render).Answers(r)
         == s.Answers(r) + if IsReply(frame) && frame.requestID == r then [ReplyOf(frame, render)] else []
  {
  }

  lemma {:induction false} CarriedAreAnswers(s: State, c: Conn, frames: seq<Frame>, r: Request, render: Render)
    ensures CarryAll(s, c, frames, render).Answers(r) == s.Answers(r) + RepliesTo(frames, r, render)
    decreases |frames|
  {
    if frames != [] {
      CarriedIsAnswer(s, c, frames[0], r, render);
      var next := Carry(s, c, frames[0], render);
      CarriedAreAnswers(next, c, frames[1..], r, render);
    }
  }

  /** The log agrees with the answers the protocol has seen for a request. */
  ghost predicate Shows(w: World, r: Request, render: Render) {
    RepliesTo(w.log, r, render) == w.protocol.Answers(r)
  }

  lemma OthersAnswerNothing(s: State, a: Action)
    requires Enabled(s, a) && !a.ClientReplies?
    ensures Apply(s, a).answers == s.answers
  {
    if a.Register? || a.Disconnect? {
      ReleaseAnswersNothing(s, a.c);
    }
  }

  lemma ReleaseAnswersNothing(s: State, c: Conn)
    ensures s.Release(c).answers == s.answers
  {
  }

  lemma HandlerShowsAnswers(w: World, step: Step, r: Request, render: Render)
    requires Shows(w, r, render) && step.Handle? && CanTake(w, step)
    ensures Shows(Take(w, step, render), r, render)
  {
    var s := w.protocol;
    var taken := s.(commands := s.commands[step.c := s.CommandsTo(step.c)[1..]]);
    assert taken.Answers(r) == s.Answers(r);
    RepliesToBoth(w.log, Sends(w, step), r, render);
    CarriedAreAnswers(taken, step.c, Sends(w, step), r, render);
  }

  lemma {:induction false} LogShowsAnswers(steps: seq<Step>, w: World, r: Request, render: Render)
    requires Runs(steps, w, render)
    ensures Shows(w, r, render)
  {
    if steps != [] {
      var n := |steps| - 1;
      var v :| Runs(steps[..n], v, render) && CanTake(v, steps[n]) && w == Take(v, steps[n], render);
      LogShowsAnswers(steps[..n], v, r, render);
      if steps[n].Handle? {
        HandlerShowsAnswers(v, steps[n], r, render);
      } else {
        OthersAnswerNothing(v.protocol, steps[n].action);
      }
    }
  }

  /** In every run of gateway and clients, with every command going through its arm of the handler,
      no request is ever answered twice on any wire. */
  lemma NoRequestIsAnsweredTwice(w: World, r: Request, render: Render)
    requires Occurs(w, render)
    ensures |RepliesTo(w.log, r, render)| <= 1
    ensures RepliesTo(w.log, r, render) == w.protocol.Answers(r)
  {
    var steps :| Runs(steps, w, render);
    RunsAreProtocolRuns(steps, w, render);
    LogShowsAnswers(steps, w, r, render);
    ReachableKeepsInvariant(w.protocol);
    assert RequestInOrder(w.protocol, r);
  }

  /** When a command is handled nobody has answered it before; afterwards it has the one answer of
      its arm, and none exactly if the connection broke before the reply. */
  lemma HandledCommandIsAnswered(w: World, step: Step, render: Render)
    requires Occurs(w, render) && step.Handle? && CanTake(w, step)
    ensures var envelope := EnvelopeOf(w, step);
            var answer := ClientCommands.Reply(envelope, step.around);
      && Answers(answer, envelope, step.around)
      && RepliesTo(w.log, envelope.requestID, render) == []
      && RepliesTo(Take(w, step, render).log, envelope.requestID, render)
         == (if step.holds > |Opening(envelope, step.around)| then [ReplyOf(answer, render)] else [])
  {
    var steps :| Runs(steps, w, render);
    var envelope := EnvelopeOf(w, step);
    ExactlyOneReply(envelope, step.around, 0);
    RunsAreProtocolRuns(steps, w, render);
    LogShowsAnswers(steps, w, envelope.requestID, render);
    HandlerShowsAnswers(w, step, envelope.requestID, render);
    HandlerIsOneReply(w, step, render);
    OneAnswer(w.protocol, ActionOf(w, step, render));
  }

  /** What the protocol promises of a client's step: the head command was unanswered. */
  lemma OneAnswer(s: State, a: Action)
    requires Reachable(s) && Enabled(s, a) && (a.ClientReplies? || a.ClientFails?)
    ensures var r := s.CommandsTo(a.c)[0];
      && s.Answers(r) == []
      && Apply(s, a).Answers(r) == (if a.ClientReplies? then [a.reply] else [])
  {
    AnsweredOnce(s, a.c, if a.ClientReplies? then a.reply else Completed(""));
  }
}
