/** What a handled command is carried out on, and what the consoles are told of it: which commands are
    carried out, whom the operation is asked of, which thread or request the reply and the events
    after it name, and what follows the reply. */
module CommandReplies {
  import opened Text
  import opened Identifiers
  import opened ClientCommands
  import ApprovalSession

  // ----- whom a command is for -----

  /** The commands on a thread of an agent. */
  predicate OnAThread(command: Command) {
    match command
    case ThreadRead | ThreadRuntimeRead | ThreadRuntimeUpdate | ThreadResume | ThreadArchive => true
    case TurnStart | TurnSteer | TurnInterrupt => true
    case _ => false
  }

  /** The commands on an agent as a whole. */
  predicate OnAnAgent(command: Command) {
    match command
    case ThreadCreate | SkillSetEnabled | SkillCreate | SkillDelete | MCPUpsert | MCPSetEnabled | MCPRemove => true
    case PluginInstall | PluginSetEnabled | PluginUninstall => true
    case _ => false
  }

  /** The commands the supervisor carries out. */
  predicate OnTheFleet(command: Command) {
    match command
    case RuntimeStop | RuntimeStart | AgentInstall | AgentDelete | AgentRestart => true
    case AgentConfigRead | AgentConfigWrite | AgentConfigApply => true
    case _ => false
  }

  function Known(around: Surroundings): set<Bytes> {
    if around.fleet.Some? then around.fleet.value
    else if around.registry.Some? then around.registry.value.Keys
    else {}
  }

  /** The agent a payload means: the one it names, which the supervisor must record if there is one,
      or the only one there is. */
  predicate Means(named: Bytes, agentID: Bytes, around: Surroundings) {
    if Blank(named) then Known(around) == {agentID}
    else
      agentID == TrimSpace(named)
        && (around.fleet.Some? ==> around.valid(agentID) && agentID in around.fleet.value)
  }

  lemma MeansIffResolved(named: Bytes, agentID: Bytes, around: Surroundings)
    ensures ResolvedAgent(named, around) == Some(agentID) <==> Means(named, agentID, around)
  {
    if Known(around) == {agentID} {
      OnlyOne(Known(around), agentID);
    }
    if |Known(around)| == 1 && TheOnly(Known(around)) == agentID {
      assert |Known(around) - {agentID}| == 0;
    }
  }

  /** The agent and the thread of its own that a command on a thread is for. */
  ghost predicate IsFor(payload: Payload, agentID: Bytes, rawThreadID: Bytes, around: Surroundings) {
    exists caller :: Means(payload.agentID, caller, around)
      && ResolveRuntimeThread(caller, payload.threadID) == Resolved(agentID, rawThreadID)
  }

  /** The agent that asked for an approval, and the identifier it asked with. */
  predicate IsForAsker(payload: Payload, agentID: Bytes, rawRequestID: Bytes, around: Surroundings) {
    && RawApprovalID(around.machineID, ApprovalSession.RawIDs(around.approvals), payload.requestID)
         == Some(rawRequestID)
    && Means(ApprovalSession.ContextOf(around.approvals, payload.requestID).agentID, agentID, around)
  }

  /** A public identifier is for the thread it was made from, whomever else the payload names. */
  lemma PublicThreadIsFor(payload: Payload, agentID: Bytes, rawThreadID: Bytes, owner: Bytes, ownThreadID: Bytes,
      around: Surroundings)
    requires IsFor(payload, agentID, rawThreadID, around)
    requires !Blank(owner) && !Blank(ownThreadID) && payload.threadID == PublicThreadID(owner, ownThreadID)
    ensures agentID == owner && rawThreadID == ownThreadID
  {
    var caller :| Means(payload.agentID, caller, around)
        && ResolveRuntimeThread(caller, payload.threadID) == Resolved(agentID, rawThreadID);
    ResolveInvertsPublicThreadID(caller, owner, ownThreadID);
  }

  // ----- which commands are carried out, and on what -----

  /** The operation that a command asks for, if what it names can be found. */
  ghost predicate Asks(envelope: Envelope, agentID: Bytes, outcome: Outcome, around: Surroundings) {
    var Envelope(_, command, payload) := envelope;
    if OnAThread(command) then
      exists raw :: IsFor(payload, agentID, raw, around) && outcome == around.perform(agentID, raw)
    else if OnAnAgent(command) then Means(payload.agentID, agentID, around) && outcome == around.perform(agentID, [])
    else if OnTheFleet(command) then
      around.fleet.Some? && agentID == payload.agentID && outcome == around.perform(agentID, [])
    else if command == ApprovalRespond then
      exists raw :: IsForAsker(payload, agentID, raw, around) && outcome == around.perform(agentID, raw)
    else if command == MCPReload then
      around.registry.Some? && agentID == []
      && outcome == if exists agent <- around.registry.value.Values :: agent.reloads == Some(false) then Fails
          else NOTHING
    else command == EnvironmentRefresh && agentID == [] && outcome == NOTHING
  }

  lemma ForIffResolved(payload: Payload, agentID: Bytes, raw: Bytes, around: Surroundings)
    ensures IsFor(payload, agentID, raw, around)
       <==> var caller := ResolvedAgent(payload.agentID, around);
            caller.Some? && ResolveRuntimeThread(caller.value, payload.threadID) == Resolved(agentID, raw)
  {
    var caller := ResolvedAgent(payload.agentID, around);
    if caller.Some? {
      MeansIffResolved(payload.agentID, caller.value, around);
    }
    if IsFor(payload, agentID, raw, around) {
      var other :| Means(payload.agentID, other, around)
          && ResolveRuntimeThread(other, payload.threadID) == Resolved(agentID, raw);
      MeansIffResolved(payload.agentID, other, around);
    }
  }

  lemma ThreadIsJudged(envelope: Envelope, around: Surroundings, agentID: Bytes, outcome: Outcome)
    requires OnAThread(envelope.command) && around.decodes && outcome.Succeeds?
    ensures Judge(envelope, around) == Carried(agentID, outcome) <==> Asks(envelope, agentID, outcome, around)
  {
    forall raw
      ensures IsFor(envelope.payload, agentID, raw, around)
         <==> var caller := ResolvedAgent(envelope.payload.agentID, around);
              caller.Some? && ResolveRuntimeThread(caller.value, envelope.payload.threadID) == Resolved(agentID, raw)
    {
      ForIffResolved(envelope.payload, agentID, raw, around);
    }
  }

  lemma AgentIsJudged(envelope: Envelope, around: Surroundings, agentID: Bytes, outcome: Outcome)
    requires OnAnAgent(envelope.command) && around.decodes && outcome.Succeeds?
    ensures Judge(envelope, around) == Carried(agentID, outcome) <==> Asks(envelope, agentID, outcome, around)
  {
    MeansIffResolved(envelope.payload.agentID, agentID, around);
  }

  lemma FleetIsJudged(envelope: Envelope, around: Surroundings, agentID: Bytes, outcome: Outcome)
    requires OnTheFleet(envelope.command) && around.decodes && outcome.Succeeds?
    ensures Judge(envelope, around) == Carried(agentID, outcome) <==> Asks(envelope, agentID, outcome, around)
  {
  }

  lemma AnswerIsJudged(envelope: Envelope, around: Surroundings, agentID: Bytes, outcome: Outcome)
    requires envelope.command == ApprovalRespond && around.decodes && outcome.Succeeds?
    ensures Judge(envelope, around) == Carried(agentID, outcome) <==> Asks(envelope, agentID, outcome, around)
  {
    MeansIffResolved(ApprovalSession.ContextOf(around.approvals, envelope.payload.requestID).agentID, agentID, around);
  }

  lemma ReloadIsJudged(envelope: Envelope, around: Surroundings, agentID: Bytes, outcome: Outcome)
    requires envelope.command in {MCPReload, EnvironmentRefresh} && around.decodes && outcome.Succeeds?
    ensures Judge(envelope, around) == Carried(agentID, outcome) <==> Asks(envelope, agentID, outcome, around)
  {
    if envelope.command == MCPReload && around.registry.Some? {
      var registry := around.registry.value;
      if Reloads(registry) {
        assert forall agent <- registry.Values :: agent.reloads != Some(false);
      } else {
        var id :| id in registry && registry[id].reloads == Some(false);
        assert registry[id] in registry.Values;
      }
    }
  }

  /** A command is carried out exactly if it can be read and the operation it asks for, of the agent
      and on the thread or request it names, succeeds; what is carried out is that operation. */
  lemma CarriedOutIffAsked(envelope: Envelope, around: Surroundings, agentID: Bytes, outcome: Outcome)
    requires outcome.Succeeds?
    ensures Judge(envelope, around) == Carried(agentID, outcome)
       <==> around.decodes && Asks(envelope, agentID, outcome, around)
  {
    var command := envelope.command;
    if around.decodes {
      if OnAThread(command) {
        ThreadIsJudged(envelope, around, agentID, outcome);
      } else if OnAnAgent(command) {
        AgentIsJudged(envelope, around, agentID, outcome);
      } else if OnTheFleet(command) {
        FleetIsJudged(envelope, around, agentID, outcome);
      } else if command == ApprovalRespond {
        AnswerIsJudged(envelope, around, agentID, outcome);
      } else if command != Unsupported {
        ReloadIsJudged(envelope, around, agentID, outcome);
      }
    }
  }

  /** A command under a public identifier is carried out on the agent and thread it was made from. */
  lemma PublicThreadReachesItsOwner(envelope: Envelope, around: Surroundings, agentID: Bytes, outcome: Outcome,
      owner: Bytes, ownThreadID: Bytes)
    requires OnAThread(envelope.command) && Judge(envelope, around) == Carried(agentID, outcome)
    requires !Blank(owner) && !Blank(ownThreadID) && envelope.payload.threadID == PublicThreadID(owner, ownThreadID)
    ensures agentID == owner && outcome == around.perform(owner, ownThreadID)
  {
    CarriedOutIffAsked(envelope, around, agentID, outcome);
    var raw :| IsFor(envelope.payload, agentID, raw, around) && outcome == around.perform(agentID, raw);
    PublicThreadIsFor(envelope.payload, agentID, raw, owner, ownThreadID, around);
  }

  /** An answer under the public identifier of an approval, that reaches the asker, is carried out on
      the agent that asked, under the identifier it asked with. */
  lemma AnswerIsForTheAsker(envelope: Envelope, around: Surroundings, agentID: Bytes, outcome: Outcome,
      asked: ApprovalSession.Step)
    requires envelope.command == ApprovalRespond && Judge(envelope, around) == Carried(agentID, outcome)
    requires asked.Require? && !Blank(asked.agentID)
    requires ApprovalSession.Reaches(around.machineID, around.approvals, asked)
    requires envelope.payload.requestID == EncodePublicApprovalID(around.machineID, asked.requestID)
    ensures agentID == TrimSpace(asked.agentID) && outcome == around.perform(agentID, asked.requestID)
  {
    var raw := AnswerAsks(envelope, around, agentID, outcome);
    AskerIsMeant(envelope.payload, around, agentID, raw, asked);
  }

  lemma AnswerAsks(envelope: Envelope, around: Surroundings, agentID: Bytes, outcome: Outcome) returns (raw: Bytes)
    requires envelope.command == ApprovalRespond && Judge(envelope, around) == Carried(agentID, outcome)
    ensures IsForAsker(envelope.payload, agentID, raw, around) && outcome == around.perform(agentID, raw)
  {
    CarriedOutIffAsked(envelope, around, agentID, outcome);
    raw :| IsForAsker(envelope.payload, agentID, raw, around) && outcome == around.perform(agentID, raw);
  }

  lemma AskerIsMeant(payload: Payload, around: Surroundings, agentID: Bytes, raw: Bytes, asked: ApprovalSession.Step)
    requires asked.Require? && !Blank(asked.agentID)
    requires ApprovalSession.Reaches(around.machineID, around.approvals, asked)
    requires payload.requestID == EncodePublicApprovalID(around.machineID, asked.requestID)
    requires IsForAsker(payload, agentID, raw, around)
    ensures agentID == TrimSpace(asked.agentID) && raw == asked.requestID
  {
    AskerIsRemembered(around, asked);
    TrimSpaceIdempotent(asked.agentID);
  }

  lemma AskerIsRemembered(around: Surroundings, asked: ApprovalSession.Step)
    requires asked.Require? && ApprovalSession.Reaches(around.machineID, around.approvals, asked)
    ensures var publicID := EncodePublicApprovalID(around.machineID, asked.requestID);
      && RawApprovalID(around.machineID, ApprovalSession.RawIDs(around.approvals), publicID) == Some(asked.requestID)
      && ApprovalSession.ContextOf(around.approvals, publicID).agentID == TrimSpace(asked.agentID)
      && ApprovalSession.ContextOf(around.approvals, publicID).threadID == asked.threadID
      && ApprovalSession.ContextOf(around.approvals, publicID).turnID == asked.turnID
  {
  }

  // ----- why a command is refused -----

  /** The reason says what was missing. */
  ghost predicate Explains(reason: Reason, envelope: Envelope, around: Surroundings) {
    var payload := envelope.payload;
    match reason
    case UnsupportedCommand => envelope.command == Unsupported
    case BadPayload => !around.decodes
    case NoAgent =>
      var named := if envelope.command == ApprovalRespond
                   then ApprovalSession.ContextOf(around.approvals, payload.requestID).agentID else payload.agentID;
      forall agentID :: !Means(named, agentID, around)
    case BadThread(error) =>
      exists caller :: Means(payload.agentID, caller, around)
        && ResolveRuntimeThread(caller, payload.threadID) == Unresolved(error)
    case NoSupervisor => around.fleet == None
    case NoRegistry => around.registry == None
    case UnknownApproval =>
      RawApprovalID(around.machineID, ApprovalSession.RawIDs(around.approvals), payload.requestID) == None
    case OperationFailed => exists agentID :: Asks(envelope, agentID, Fails, around)
  }

  lemma ThreadFailureIsAsked(envelope: Envelope, around: Surroundings)
    requires OnAThread(envelope.command) && Judge(envelope, around).Refused?
    requires Judge(envelope, around).reason == OperationFailed
    ensures exists agentID :: Asks(envelope, agentID, Fails, around)
  {
    var caller := ResolvedAgent(envelope.payload.agentID, around).value;
    var Resolved(agentID, raw) := ResolveRuntimeThread(caller, envelope.payload.threadID);
    ForIffResolved(envelope.payload, agentID, raw, around);
    assert Asks(envelope, agentID, Fails, around);
  }

  lemma AnswerFailureIsAsked(envelope: Envelope, around: Surroundings)
    requires envelope.command == ApprovalRespond && Judge(envelope, around).Refused?
    requires Judge(envelope, around).reason == OperationFailed
    ensures exists agentID :: Asks(envelope, agentID, Fails, around)
  {
    var named := ApprovalSession.ContextOf(around.approvals, envelope.payload.requestID).agentID;
    var agentID := ResolvedAgent(named, around).value;
    MeansIffResolved(named, agentID, around);
    assert Asks(envelope, agentID, Fails, around);
  }

  lemma OtherFailureIsAsked(envelope: Envelope, around: Surroundings)
    requires !OnAThread(envelope.command) && envelope.command != ApprovalRespond && Judge(envelope, around).Refused?
    requires Judge(envelope, around).reason == OperationFailed
    ensures exists agentID :: Asks(envelope, agentID, Fails, around)
  {
    if OnAnAgent(envelope.command) {
      var agentID := ResolvedAgent(envelope.payload.agentID, around).value;
      MeansIffResolved(envelope.payload.agentID, agentID, around);
      assert Asks(envelope, agentID, Fails, around);
    } else if OnTheFleet(envelope.command) {
      assert Asks(envelope, envelope.payload.agentID, Fails, around);
    } else {
      var registry := around.registry.value;
      var id :| id in registry && registry[id].reloads == Some(false);
      assert registry[id] in registry.Values;
      assert Asks(envelope, [], Fails, around);
    }
  }

  lemma NoAgentIsMeant(named: Bytes, around: Surroundings)
    requires ResolvedAgent(named, around) == None
    ensures forall agentID :: !Means(named, agentID, around)
  {
    forall agentID
      ensures !Means(named, agentID, around)
    {
      MeansIffResolved(named, agentID, around);
    }
  }

  /** A command that is refused is refused for the reason given; the reply names the thread that the
      command was for, once its payload could be read. */
  lemma RefusalIsExplained(envelope: Envelope, around: Surroundings)
    requires Judge(envelope, around).Refused?
    ensures var Refused(reason, threadID) := Judge(envelope, around);
      && Explains(reason, envelope, around)
      && threadID == if OnAThread(envelope.command) && reason != BadPayload then envelope.payload.threadID else []
  {
    var payload, reason := envelope.payload, Judge(envelope, around).reason;
    match reason
    case NoAgent =>
      NoAgentIsMeant(if envelope.command == ApprovalRespond
                     then ApprovalSession.ContextOf(around.approvals, payload.requestID).agentID else payload.agentID,
                     around);
    case BadThread(_) => MeansIffResolved(payload.agentID, ResolvedAgent(payload.agentID, around).value, around);
    case OperationFailed =>
      if OnAThread(envelope.command) {
        ThreadFailureIsAsked(envelope, around);
      } else if envelope.command == ApprovalRespond {
        AnswerFailureIsAsked(envelope, around);
      } else {
        OtherFailureIsAsked(envelope, around);
      }
    case _ =>
  }

  // ----- what the consoles are told -----

  /** The text names this thread of this agent, whoever resolves it. */
  predicate NamesThread(text: Bytes, agentID: Bytes, threadID: Bytes) {
    && ResolveRuntimeThread([], text) == Resolved(agentID, threadID)
    && ResolveRuntimeThread(agentID, text) == Resolved(agentID, threadID)
  }

  lemma PublicNamesThread(agentID: Bytes, threadID: Bytes)
    requires !Blank(agentID) && !Blank(threadID)
    ensures NamesThread(PublicThreadID(agentID, threadID), agentID, threadID)
  {
    assert Blank([]);
    ResolveInvertsPublicThreadID([], agentID, threadID);
    ResolveInvertsPublicThreadID(agentID, agentID, threadID);
  }

  /** The commands whose result is a thread. */
  predicate ReturnsThread(command: Command) {
    match command
    case ThreadCreate | ThreadRead | ThreadResume | TurnStart | TurnSteer | TurnInterrupt => true
    case _ => false
  }

  /** The reply to a command that was carried out: it names the thread and agent of the result, or what
      the command itself named. */
  lemma ReplyNamesItsSubject(envelope: Envelope, around: Surroundings, agentID: Bytes, outcome: Outcome)
    requires Judge(envelope, around) == Carried(agentID, outcome)
    ensures var reply := Reply(envelope, around);
      && reply == CommandCompleted(envelope.requestID, envelope.command, reply.subject)
      && (ReturnsThread(envelope.command) && !Blank(agentID) && !Blank(outcome.threadID) ==>
            NamesThread(reply.subject, agentID, outcome.threadID))
      && (OnAThread(envelope.command) && !ReturnsThread(envelope.command) ==>
            reply.subject == envelope.payload.threadID)
      && (envelope.command == ApprovalRespond ==> reply.subject == envelope.payload.requestID)
      && (!ReturnsThread(envelope.command) && !OnAThread(envelope.command) && envelope.command != ApprovalRespond ==>
            reply.subject == [])
  {
    if !Blank(agentID) && !Blank(outcome.threadID) {
      PublicNamesThread(agentID, outcome.threadID);
    }
  }

  /** A frame that tells of a turn names the thread and agent it ran on. */
  predicate TellsOf(frame: Frame, requestID: nat, agentID: Bytes, outcome: Outcome)
    requires outcome.Succeeds?
  {
    && (frame.TurnDelta? || frame.TurnCompleted?)
    && frame.requestID == requestID && frame.turnID == outcome.turnID
    && (!Blank(agentID) && !Blank(outcome.threadID) ==> NamesThread(frame.threadID, agentID, outcome.threadID))
  }

  /** Every runtime there is would list its threads and describe its environment. */
  predicate Willing(around: Surroundings) {
    around.registryAfter.Some? ==>
      forall id <- around.registryAfter.value ::
        around.registryAfter.value[id].lists && around.registryAfter.value[id].describes
  }

  lemma CollectsIfWilling(around: Surroundings)
    ensures Collects(around) <==> Willing(around)
  {
    if around.registryAfter.Some? {
      var agents := around.registryAfter.value;
      forall id | id in agents
        ensures agents[id] in agents.Values
      {
      }
    }
  }

  predicate Thereupon(frames: seq<Frame>, around: Surroundings, snapshots: seq<Frame>) {
    frames == if Willing(around) then snapshots else []
  }

  /** What follows the reply to a turn that its runtime does not stream: its deltas in order, its end,
      and the threads as they are now. */
  predicate TellsTurn(frames: seq<Frame>, requestID: nat, around: Surroundings, agentID: Bytes, outcome: Outcome)
    requires outcome.Succeeds?
  {
    var n := |outcome.deltas|;
    && |frames| > n
    && (forall i :: 0 <= i < n ==> TellsOf(frames[i], requestID, agentID, outcome))
    && (forall i :: 0 <= i < n ==> frames[i].TurnDelta? && frames[i].delta == outcome.deltas[i])
    && TellsOf(frames[n], requestID, agentID, outcome) && frames[n].TurnCompleted?
    && Thereupon(frames[n + 1..], around, [ThreadSnapshot])
  }

  /** What follows the reply to a command that was carried out. */
  predicate Tells(frames: seq<Frame>, envelope: Envelope, around: Surroundings, agentID: Bytes, outcome: Outcome)
    requires outcome.Succeeds?
  {
    match envelope.command
    case TurnStart | TurnSteer =>
      if Streams(agentID, around) then frames == []
      else TellsTurn(frames, envelope.requestID, around, agentID, outcome)
    case TurnInterrupt => TellsTurn(frames, envelope.requestID, around, agentID, outcome.(deltas := []))
    case ApprovalRespond => |frames| == 1 && frames[0].ApprovalResolved?
    case ThreadCreate | ThreadResume | ThreadArchive => Thereupon(frames, around, [ThreadSnapshot])
    case RuntimeStop | RuntimeStart | AgentInstall | AgentDelete | AgentRestart =>
      Thereupon(frames, around, [MachineSnapshot, ThreadSnapshot, EnvironmentSnapshot])
    case ThreadRead | ThreadRuntimeRead | ThreadRuntimeUpdate => frames == []
    case AgentConfigRead | AgentConfigWrite | AgentConfigApply => frames == []
    case _ => Thereupon(frames, around, [EnvironmentSnapshot])
  }

  lemma TurnIsTold(frames: seq<Frame>, envelope: Envelope, around: Surroundings, agentID: Bytes, outcome: Outcome)
    requires outcome.Succeeds?
    requires var threadID := PublicThreadID(agentID, outcome.threadID);
             frames == Deltas(envelope.requestID, threadID, outcome)
                + [TurnCompleted(envelope.requestID, threadID, outcome.turnID)] + Collected(around, [ThreadSnapshot])
    ensures TellsTurn(frames, envelope.requestID, around, agentID, outcome)
  {
    if !Blank(agentID) && !Blank(outcome.threadID) {
      PublicNamesThread(agentID, outcome.threadID);
    }
    CollectsIfWilling(around);
    assert frames[|outcome.deltas| + 1..] == Collected(around, [ThreadSnapshot]);
  }

  lemma InterruptIsTold(envelope: Envelope, around: Surroundings, agentID: Bytes, outcome: Outcome)
    requires envelope.command == TurnInterrupt && outcome.Succeeds?
    ensures Tells(FollowUp(envelope, around, agentID, outcome), envelope, around, agentID, outcome)
  {
    var threadID := PublicThreadID(agentID, outcome.threadID);
    var ended := [TurnCompleted(envelope.requestID, threadID, outcome.turnID)];
    assert Deltas(envelope.requestID, threadID, outcome.(deltas := [])) == [];
    assert [] + ended + Collected(around, [ThreadSnapshot]) == ended + Collected(around, [ThreadSnapshot]);
    TurnIsTold(FollowUp(envelope, around, agentID, outcome), envelope, around, agentID, outcome.(deltas := []));
  }

  lemma FollowUpTells(envelope: Envelope, around: Surroundings, agentID: Bytes, outcome: Outcome)
    requires outcome.Succeeds? && envelope.command != Unsupported
    ensures Tells(FollowUp(envelope, around, agentID, outcome), envelope, around, agentID, outcome)
  {
    var frames := FollowUp(envelope, around, agentID, outcome);
    CollectsIfWilling(around);
    if envelope.command == TurnInterrupt {
      InterruptIsTold(envelope, around, agentID, outcome);
    } else if envelope.command in {TurnStart, TurnSteer} {
      if !Streams(agentID, around) {
        TurnIsTold(frames, envelope, around, agentID, outcome);
      }
    } else if envelope.command == ApprovalRespond {
      ClosedFollows(envelope, around, agentID, outcome);
    } else {
      assert frames == Collected(around, Snapshots(envelope.command));
    }
  }

  lemma EarlyIs(command: Command, outcome: Outcome)
    requires outcome.Succeeds?
    ensures Early(command, outcome) == if command == ApprovalRespond && outcome.shows then [TimelineEvent] else []
  {
  }

  lemma ScriptIs(envelope: Envelope, around: Surroundings, verdict: Verdict)
    requires verdict == Judge(envelope, around) && verdict.Carried?
    ensures Script(envelope, around) == Early(envelope.command, verdict.outcome) + [Reply(envelope, around)]
              + FollowUp(envelope, around, verdict.agentID, verdict.outcome)
  {
  }

  /** What the handler sends for a command that was carried out: the event an answer shows on its way,
      the reply, and then what the command calls for. */
  lemma CommandIsTold(envelope: Envelope, around: Surroundings, agentID: Bytes, outcome: Outcome)
    returns (rest: seq<Frame>)
    requires Judge(envelope, around) == Carried(agentID, outcome)
    ensures Script(envelope, around)
         == (if envelope.command == ApprovalRespond && outcome.shows then [TimelineEvent] else [])
            + [Reply(envelope, around)] + rest
    ensures Tells(rest, envelope, around, agentID, outcome)
  {
    rest := FollowUp(envelope, around, agentID, outcome);
    EarlyIs(envelope.command, outcome);
    ScriptIs(envelope, around, Carried(agentID, outcome));
    FollowUpTells(envelope, around, agentID, outcome);
  }

  /** The commands that are followed by no snapshot. */
  predicate NeedsNone(command: Command) {
    match command
    case ThreadRead | ThreadRuntimeRead | ThreadRuntimeUpdate | ApprovalRespond => true
    case AgentConfigRead | AgentConfigWrite | AgentConfigApply => true
    case _ => false
  }

  /** The handler reports an error of its own exactly if a command was carried out whose snapshot cannot be
      collected: not for a refusal, nor for a turn that its runtime streams. */
  lemma HandlerFailsIff(envelope: Envelope, around: Surroundings)
    ensures var verdict := Judge(envelope, around);
      !Finishes(envelope, around)
      <==> verdict.Carried? && !NeedsNone(envelope.command) && !Willing(around)
           && !((envelope.command == TurnStart || envelope.command == TurnSteer) && Streams(verdict.agentID, around))
  {
    CollectsIfWilling(around);
  }

  /** How the answer to an approval closes it: under its public identifier, on the thread and turn the
      answer names or else on those that asked. */
  function Closing(payload: Payload, asked: ApprovalSession.Step): Frame
    requires asked.Require?
  {
    ApprovalResolved(payload.requestID,
      if payload.threadID == [] then asked.threadID else payload.threadID,
      if payload.turnID == [] then asked.turnID else payload.turnID)
  }

  lemma AskedIsClosed(payload: Payload, around: Surroundings, asked: ApprovalSession.Step)
    requires !Blank(around.machineID) && asked.Require? && RawFor(around.machineID, asked.requestID)
    requires ApprovalSession.Reaches(around.machineID, around.approvals, asked)
    requires payload.requestID == EncodePublicApprovalID(around.machineID, asked.requestID)
    ensures Closed(payload, around) == Closing(payload, asked)
  {
    AskerIsRemembered(around, asked);
    ApprovalIdentitySurvives(around.machineID, asked.requestID, map[]);
  }

  lemma AnswerClosesWhatWasAsked(envelope: Envelope, around: Surroundings, agentID: Bytes, outcome: Outcome,
      asked: ApprovalSession.Step)
    requires envelope.command == ApprovalRespond && Judge(envelope, around) == Carried(agentID, outcome)
    requires !Blank(around.machineID) && asked.Require? && RawFor(around.machineID, asked.requestID)
    requires ApprovalSession.Reaches(around.machineID, around.approvals, asked)
    requires envelope.payload.requestID == EncodePublicApprovalID(around.machineID, asked.requestID)
    ensures Script(envelope, around) != []
    ensures Last(Script(envelope, around)) == Closing(envelope.payload, asked)
  {
    AskedIsClosed(envelope.payload, around, asked);
    ClosingIsLast(envelope, around, agentID, outcome);
  }

  lemma ClosingIsLast(envelope: Envelope, around: Surroundings, agentID: Bytes, outcome: Outcome)
    requires envelope.command == ApprovalRespond && Judge(envelope, around) == Carried(agentID, outcome)
    ensures Script(envelope, around) != []
    ensures Last(Script(envelope, around)) == Closed(envelope.payload, around)
  {
    ScriptIs(envelope, around, Carried(agentID, outcome));
    ClosedFollows(envelope, around, agentID, outcome);
    LastOf(Early(envelope.command, outcome) + [Reply(envelope, around)], Closed(envelope.payload, around));
  }

  lemma ClosedFollows(envelope: Envelope, around: Surroundings, agentID: Bytes, outcome: Outcome)
    requires envelope.command == ApprovalRespond && outcome.Succeeds?
    ensures FollowUp(envelope, around, agentID, outcome) == [Closed(envelope.payload, around)]
  {
  }

  lemma LastOf(frames: seq<Frame>, last: Frame)
    ensures Last(frames + [last]) == last
  {
  }

  function Last(frames: seq<Frame>): Frame
    requires frames != []
  {
    frames[|frames| - 1]
  }
}
