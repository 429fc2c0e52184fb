/** The client's command handler: one arm for each kind of command, with the checks it goes through,
    the operation it asks of a runtime, and everything it sends, up to the first send that fails.
    What the surroundings answer is a parameter; what is sent, and in which order, is not. */
module ClientCommands {
  import opened Text
  import opened Sorting
  import Identifiers
  import ApprovalSession

  datatype Command =
    | ThreadCreate | ThreadRead | ThreadResume | ThreadRuntimeRead | ThreadRuntimeUpdate | ThreadArchive
    | TurnStart | TurnSteer | TurnInterrupt
    | ApprovalRespond
    | RuntimeStop | RuntimeStart | AgentInstall | AgentDelete | AgentRestart
    | AgentConfigRead | AgentConfigWrite | AgentConfigApply
    | SkillSetEnabled | SkillCreate | SkillDelete
    | MCPUpsert | MCPSetEnabled | MCPRemove | MCPReload
    | EnvironmentRefresh
    | PluginInstall | PluginSetEnabled | PluginUninstall
    | Unsupported

  /** What the payload of a command names. */
  datatype Payload = Payload(agentID: Bytes, threadID: Bytes, turnID: Bytes, requestID: Bytes)

  /** A command as it arrives. */
  datatype Envelope = Envelope(requestID: nat, command: Command, payload: Payload)

  /** A registered runtime: whether it would list its threads and describe its environment, whether
      it streams its turns, and, if it manages MCP servers, whether it would reload them. */
  datatype Agent = Agent(lists: bool, describes: bool, streams: bool, reloads: Option<bool>)

  /** What the operation behind a command comes to; `shows` says that it puts an event on the
      timeline while it runs. */
  datatype Outcome = Fails | Succeeds(threadID: Bytes, turnID: Bytes, deltas: seq<string>, shows: bool)

  /** What a handler finds. The registry may be another one once the operation has been carried out. */
  datatype Surroundings = Surroundings(
    machineID: Bytes,
    decodes: bool,
    /** The agents the supervisor records, if there is a supervisor. */
    fleet: Option<set<Bytes>>,
    valid: Bytes -> bool,
    registry: Option<map<Bytes, Agent>>,
    registryAfter: Option<map<Bytes, Agent>>,
    approvals: ApprovalSession.Table,
    /** The operation on an agent and the thread or request of its own that it concerns. */
    perform: (Bytes, Bytes) -> Outcome)

  datatype Reason =
    | BadPayload | NoAgent | BadThread(error: Identifiers.ResolveError) | NoSupervisor | NoRegistry
    | UnknownApproval | OperationFailed | UnsupportedCommand

  datatype Frame =
    | CommandCompleted(requestID: nat, command: Command, subject: Bytes)
    | CommandRejected(requestID: nat, command: Command, reason: Reason, threadID: Bytes)
    | TurnDelta(requestID: nat, threadID: Bytes, turnID: Bytes, delta: string)
    | TurnCompleted(requestID: nat, threadID: Bytes, turnID: Bytes)
    | TimelineEvent
    | ApprovalResolved(approvalID: Bytes, threadID: Bytes, turnID: Bytes)
    | MachineSnapshot
    | ThreadSnapshot
    | EnvironmentSnapshot

  // ----- which commands are carried out -----

  /** The arms of the handler; those that differ only in the operation they ask for are one. */
  datatype Arm =
    | Creating | Reading | Changing | Running | Interrupting | Answering
    | Managing | Configuring | Equipping | Refreshing | Reloading | Unknown

  function ArmOf(command: Command): Arm {
    match command
    case ThreadCreate => Creating
    case ThreadRead | ThreadRuntimeRead | ThreadRuntimeUpdate => Reading
    case ThreadResume | ThreadArchive => Changing
    case TurnStart | TurnSteer => Running
    case TurnInterrupt => Interrupting
    case ApprovalRespond => Answering
    case RuntimeStop | RuntimeStart | AgentInstall | AgentDelete | AgentRestart => Managing
    case AgentConfigRead | AgentConfigWrite | AgentConfigApply => Configuring
    case SkillSetEnabled | SkillCreate | SkillDelete | MCPUpsert | MCPSetEnabled | MCPRemove => Equipping
    case PluginInstall | PluginSetEnabled | PluginUninstall => Equipping
    case EnvironmentRefresh => Refreshing
    case MCPReload => Reloading
    case Unsupported => Unknown
  }

  predicate OnThread(arm: Arm) {
    arm.Reading? || arm.Changing? || arm.Running? || arm.Interrupting?
  }

  datatype Verdict = Refused(reason: Reason, threadID: Bytes) | Carried(agentID: Bytes, outcome: Outcome)

  const NOTHING := Succeeds([], [], [], false)

  ghost function TheOnly(keys: set<Bytes>): Bytes
    requires |keys| == 1
  {
    var key :| key in keys;
    key
  }

  lemma OnlyOne(keys: set<Bytes>, key: Bytes)
    requires |keys| == 1 && key in keys
    ensures TheOnly(keys) == key
  {
    assert |keys - {key}| == 0;
    assert TheOnly(keys) !in keys - {key};
  }

  /** A named agent counts as it stands without a supervisor, and if it is recorded with one; no name
      is enough where there is only one agent. */
  ghost function ResolvedAgent(agentID: Bytes, around: Surroundings): Option<Bytes> {
    var known := if around.fleet.Some? then around.fleet.value
                 else if around.registry.Some? then around.registry.value.Keys
                 else {};
    if Blank(agentID) then if |known| == 1 then Some(TheOnly(known)) else None
    else if around.fleet.None? || (around.valid(TrimSpace(agentID)) && TrimSpace(agentID) in known) then
      Some(TrimSpace(agentID))
    else None
  }

  function Ran(agentID: Bytes, subject: Bytes, blamed: Bytes, around: Surroundings): (verdict: Verdict)
    ensures verdict.Carried? ==> verdict.outcome.Succeeds?
  {
    match around.perform(agentID, subject)
    case Fails => Refused(OperationFailed, blamed)
    case outcome => Carried(agentID, outcome)
  }

  predicate Reloads(registry: map<Bytes, Agent>) {
    forall agentID <- registry :: registry[agentID].reloads != Some(false)
  }

  ghost function Judge(envelope: Envelope, around: Surroundings): (verdict: Verdict)
    ensures verdict.Carried? ==> verdict.outcome.Succeeds?
  {
    var Envelope(_, command, payload) := envelope;
    var arm := ArmOf(command);
    if arm.Unknown? then Refused(UnsupportedCommand, [])
    else if !around.decodes then Refused(BadPayload, [])
    else
      match arm
      case Managing | Configuring =>
        if around.fleet.None? then Refused(NoSupervisor, []) else Ran(payload.agentID, [], [], around)
      case Refreshing => Carried([], NOTHING)
      case Reloading =>
        if around.registry.None? then Refused(NoRegistry, [])
        else if Reloads(around.registry.value) then Carried([], NOTHING)
        else Refused(OperationFailed, [])
      case Answering => JudgeApproval(payload, around)
      case _ =>
        match ResolvedAgent(payload.agentID, around)
        case None => Refused(NoAgent, if OnThread(arm) then payload.threadID else [])
        case Some(agentID) =>
          if OnThread(arm) then JudgeOnThread(agentID, payload.threadID, around) else Ran(agentID, [], [], around)
  }

  function JudgeOnThread(agentID: Bytes, threadID: Bytes, around: Surroundings): (verdict: Verdict)
    ensures verdict.Carried? ==> verdict.outcome.Succeeds?
  {
    match Identifiers.ResolveRuntimeThread(agentID, threadID)
    case Unresolved(error) => Refused(BadThread(error), threadID)
    case Resolved(owner, rawThreadID) => Ran(owner, rawThreadID, threadID, around)
  }

  ghost function JudgeApproval(payload: Payload, around: Surroundings): (verdict: Verdict)
    ensures verdict.Carried? ==> verdict.outcome.Succeeds?
  {
    match Identifiers.RawApprovalID(around.machineID, ApprovalSession.RawIDs(around.approvals), payload.requestID)
    case None => Refused(UnknownApproval, [])
    case Some(rawRequestID) =>
      match ResolvedAgent(ApprovalSession.ContextOf(around.approvals, payload.requestID).agentID, around)
      case None => Refused(NoAgent, [])
      case Some(agentID) => Ran(agentID, rawRequestID, [], around)
  }

  ghost predicate CarriedOut(envelope: Envelope, around: Surroundings) {
    Judge(envelope, around).Carried?
  }

  lemma ApprovalIsJudged(envelope: Envelope, around: Surroundings, raw: Bytes, asker: Bytes, agentID: Bytes)
    requires envelope.command == ApprovalRespond && around.decodes && ResolvedAgent(asker, around) == Some(agentID)
    requires ApprovalSession.ContextOf(around.approvals, envelope.payload.requestID).agentID == asker
    requires var remembered := ApprovalSession.RawIDs(around.approvals);
             Identifiers.RawApprovalID(around.machineID, remembered, envelope.payload.requestID) == Some(raw)
    ensures Judge(envelope, around) == Ran(agentID, raw, [], around)
  {
  }

  /** Where two agents have asked under one identifier, the answer to the first is carried out on the
      second. */
  lemma SharedApprovalGoesToTheSecond(envelope: Envelope, around: Surroundings, before: seq<ApprovalSession.Step>,
                                      first: ApprovalSession.Step, second: ApprovalSession.Step)
    requires envelope.command == ApprovalRespond && around.decodes && !Blank(around.machineID)
    requires first.Require? && second.Require? && second.requestID == first.requestID
    requires Identifiers.RawFor(around.machineID, first.requestID)
    requires TrimSpace(first.agentID) != TrimSpace(second.agentID)
    requires envelope.payload.requestID == Identifiers.EncodePublicApprovalID(around.machineID, first.requestID)
    requires around.approvals == ApprovalSession.Run(around.machineID, before + [first] + [second])
    requires ResolvedAgent(TrimSpace(second.agentID), around) == Some(TrimSpace(second.agentID))
    ensures Judge(envelope, around) == Ran(TrimSpace(second.agentID), first.requestID, [], around)
  {
    ApprovalSession.SharedIdentifierMisdelivers(around.machineID, before, first, second);
    ApprovalIsJudged(envelope, around, first.requestID, TrimSpace(second.agentID), TrimSpace(second.agentID));
  }

  // ----- what is sent -----

  /** What the result of a command is about: a thread or request as the consoles know it. */
  function Subject(envelope: Envelope, agentID: Bytes, outcome: Outcome): Bytes
    requires outcome.Succeeds?
  {
    var Envelope(_, command, payload) := envelope;
    if command in {ThreadRuntimeRead, ThreadRuntimeUpdate, ThreadArchive} then payload.threadID
    else
      match ArmOf(command)
      case Creating | Reading | Changing | Running | Interrupting =>
        Identifiers.PublicThreadID(agentID, outcome.threadID)
      case Answering => payload.requestID
      case _ => []
  }

  predicate Collects(around: Surroundings) {
    around.registryAfter.Some? ==>
      forall agent <- around.registryAfter.value.Values :: agent.lists && agent.describes
  }

  predicate Streams(agentID: Bytes, around: Surroundings) {
    && around.registryAfter.Some? && !Blank(agentID)
    && agentID in around.registryAfter.value && around.registryAfter.value[agentID].streams
  }

  /** The snapshots a command that was carried out is followed by. */
  function Snapshots(command: Command): seq<Frame> {
    match ArmOf(command)
    case Creating | Changing | Running | Interrupting => [ThreadSnapshot]
    case Managing => [MachineSnapshot, ThreadSnapshot, EnvironmentSnapshot]
    case Equipping | Refreshing | Reloading => [EnvironmentSnapshot]
    case _ => []
  }

  function Deltas(requestID: nat, threadID: Bytes, outcome: Outcome): (frames: seq<Frame>)
    requires outcome.Succeeds?
  {
    seq(|outcome.deltas|, i requires 0 <= i < |outcome.deltas| =>
      TurnDelta(requestID, threadID, outcome.turnID, outcome.deltas[i]))
  }

  /** The events a command shows itself: a turn whose runtime does not stream is told from its
      result, and an answered approval is closed. */
  function Events(envelope: Envelope, around: Surroundings, agentID: Bytes, outcome: Outcome): seq<Frame>
    requires outcome.Succeeds?
  {
    var Envelope(requestID, command, payload) := envelope;
    var threadID := Identifiers.PublicThreadID(agentID, outcome.threadID);
    match ArmOf(command)
    case Running => Deltas(requestID, threadID, outcome) + [TurnCompleted(requestID, threadID, outcome.turnID)]
    case Interrupting => [TurnCompleted(requestID, threadID, outcome.turnID)]
    case Answering => [Closed(payload, around)]
    case _ => []
  }

  function Closed(payload: Payload, around: Surroundings): Frame {
    var key := Identifiers.ApprovalKey(around.machineID, payload.requestID);
    var context := ApprovalSession.ContextOf(around.approvals, key);
    ApprovalResolved(key, if payload.threadID == [] then context.threadID else payload.threadID,
                     if payload.turnID == [] then context.turnID else payload.turnID)
  }

  /** Nothing follows the reply to a turn that its runtime streams. */
  predicate Silent(command: Command, agentID: Bytes, around: Surroundings) {
    ArmOf(command).Running? && Streams(agentID, around)
  }

  function FollowUp(envelope: Envelope, around: Surroundings, agentID: Bytes, outcome: Outcome): seq<Frame>
    requires outcome.Succeeds?
  {
    if Silent(envelope.command, agentID, around) then []
    else Events(envelope, around, agentID, outcome) + Collected(around, Snapshots(envelope.command))
  }

  function Collected(around: Surroundings, snapshots: seq<Frame>): seq<Frame> {
    if Collects(around) then snapshots else []
  }

  /** An answer to an approval shows on the timeline before the command is answered. */
  function Early(command: Command, outcome: Outcome): seq<Frame>
    requires outcome.Succeeds?
  {
    if ArmOf(command).Answering? && outcome.shows then [TimelineEvent] else []
  }

  ghost function Reply(envelope: Envelope, around: Surroundings): Frame {
    match Judge(envelope, around)
    case Refused(reason, threadID) => CommandRejected(envelope.requestID, envelope.command, reason, threadID)
    case Carried(agentID, outcome) =>
      CommandCompleted(envelope.requestID, envelope.command, Subject(envelope, agentID, outcome))
  }

  /** The frames the handler sends while the connection holds. */
  ghost function Script(envelope: Envelope, around: Surroundings): seq<Frame> {
    var reply := [Reply(envelope, around)];
    match Judge(envelope, around)
    case Refused(_, _) => reply
    case Carried(agentID, outcome) =>
      Early(envelope.command, outcome) + reply + FollowUp(envelope, around, agentID, outcome)
  }

  /** The handler reports no error of its own: it needs no snapshot or can collect one. */
  ghost predicate Finishes(envelope: Envelope, around: Surroundings) {
    match Judge(envelope, around)
    case Refused(_, _) => true
    case Carried(agentID, _) =>
      Silent(envelope.command, agentID, around) || Snapshots(envelope.command) == [] || Collects(around)
  }

  // ----- replies -----

  predicate IsReply(frame: Frame) {
    frame.CommandCompleted? || frame.CommandRejected?
  }

  function RepliesIn(frames: seq<Frame>): seq<Frame> {
    if frames == [] then []
    else (if IsReply(frames[0]) then [frames[0]] else []) + RepliesIn(frames[1..])
  }

  predicate NoReply(frames: seq<Frame>) {
    forall i :: 0 <= i < |frames| ==> !IsReply(frames[i])
  }

  lemma {:induction false} NoReplies(frames: seq<Frame>)
    requires NoReply(frames)
    ensures RepliesIn(frames) == []
  {
    if frames != [] {
      NoReplies(frames[1..]);
    }
  }

  lemma {:induction false} OneReply(frames: seq<Frame>, k: nat)
    requires k < |frames| && IsReply(frames[k])
    requires NoReply(frames[..k]) && NoReply(frames[k + 1..])
    ensures RepliesIn(frames) == [frames[k]]
  {
    if k == 0 {
      NoReplies(frames[1..]);
    } else {
      assert !IsReply(frames[..k][0]);
      assert frames[1..][..k - 1] == frames[..k][1..] && frames[1..][k..] == frames[k + 1..];
      OneReply(frames[1..], k - 1);
    }
  }

  lemma FollowUpHasNoReplies(envelope: Envelope, around: Surroundings, agentID: Bytes, outcome: Outcome)
    requires outcome.Succeeds?
    ensures NoReply(FollowUp(envelope, around, agentID, outcome)) && NoReply(Early(envelope.command, outcome))
  {
    assert NoReply(Events(envelope, around, agentID, outcome));
    assert NoReply(Collected(around, Snapshots(envelope.command)));
  }

  /** What a command shows before it is answered. */
  ghost function Opening(envelope: Envelope, around: Surroundings): seq<Frame> {
    match Judge(envelope, around)
    case Refused(_, _) => []
    case Carried(_, outcome) => Early(envelope.command, outcome)
  }

  lemma ScriptHasOneReply(envelope: Envelope, around: Surroundings) returns (rest: seq<Frame>)
    ensures Script(envelope, around) == Opening(envelope, around) + [Reply(envelope, around)] + rest
    ensures NoReply(Opening(envelope, around)) && NoReply(rest)
  {
    match Judge(envelope, around)
    case Refused(_, _) => rest := [];
    case Carried(agentID, outcome) =>
      FollowUpHasNoReplies(envelope, around, agentID, outcome);
      rest := FollowUp(envelope, around, agentID, outcome);
  }

  ghost predicate Answers(reply: Frame, envelope: Envelope, around: Surroundings) {
    && IsReply(reply)
    && reply.requestID == envelope.requestID && reply.command == envelope.command
    && (reply.CommandCompleted? <==> CarriedOut(envelope, around))
  }

  /** Of what a handled command sends, however far its connection carries it, there is one reply if
      the connection holds until then and none otherwise. It names the request and the command, and
      says completed exactly if the command was carried out. */
  lemma ExactlyOneReply(envelope: Envelope, around: Surroundings, holds: nat)
    ensures var reply := Reply(envelope, around);
      && RepliesIn(Prefix(Script(envelope, around), holds))
         == (if holds > |Opening(envelope, around)| then [reply] else [])
      && Answers(reply, envelope, around)
  {
    var opening, reply := Opening(envelope, around), Reply(envelope, around);
    var rest := ScriptHasOneReply(envelope, around);
    if holds > |opening| {
      var more := Prefix(rest, holds - |opening| - 1);
      var frames := opening + [reply] + more;
      assert Prefix(Script(envelope, around), holds) == frames;
      assert frames[..|opening|] == opening && frames[|opening| + 1..] == more;
      OneReply(frames, |opening|);
    } else {
      assert Prefix(Script(envelope, around), holds) == opening[..holds];
      NoReplies(opening[..holds]);
    }
  }

  // ----- the handler -----

  function Prefix(frames: seq<Frame>, n: nat): seq<Frame> {
    if n < |frames| then frames[..n] else frames
  }

  /** A connection: what it has carried, and how many more sends it will carry. */
  datatype Line = Line(sent: seq<Frame>, holds: nat)
  {
    function After(frames: seq<Frame>): Line {
      Line(sent + Prefix(frames, holds), if holds > |frames| then holds - |frames| else 0)
    }

    predicate Carries(frames: seq<Frame>) {
      |frames| <= holds
    }
  }

  lemma AfterBoth(line: Line, first: seq<Frame>, second: seq<Frame>)
    ensures line.After(first).After(second) == line.After(first + second)
    ensures !line.Carries(first) ==> line.After(first) == line.After(first + second)
  {
  }

  /** The client's end of a connection. */
  class Session {
    var line: Line

    constructor (holds: nat)
      ensures line == Line([], holds)
    {
      line := Line([], holds);
    }

    method Send(frame: Frame) returns (ok: bool)
      modifies this
      ensures line == old(line).After([frame]) && ok == old(line).Carries([frame])
    {
      ok := line.holds > 0;
      if ok {
        line := Line(line.sent + [frame], line.holds - 1);
      }
    }

    method ResolveAgentID(agentID: Bytes, around: Surroundings) returns (resolved: Option<Bytes>)
      ensures resolved == ResolvedAgent(agentID, around)
    {
      var trimmed := TrimSpace(agentID);
      if around.fleet.None? {
        if trimmed != [] {
          return Some(trimmed);
        }
        if around.registry.Some? {
          var names := SortKeys(around.registry.value.Keys);
          SortingCounts(names, around.registry.value.Keys);
          if |names| == 1 {
            OnlyOne(around.registry.value.Keys, names[0]);
            return Some(names[0]);
          }
        }
        return None;
      }
      var records := around.fleet.value;
      if trimmed != [] {
        if !around.valid(trimmed) {
          return None;
        }
        if trimmed !in records {
          return None;
        }
        return Some(trimmed);
      }
      if |records| == 1 {
        var id :| id in records;
        OnlyOne(records, id);
        return Some(id);
      }
      return None;
    }

    /** Asks every runtime for its threads and its environment, up to the first that fails. */
    method CollectManagedSnapshot(around: Surroundings) returns (ok: bool)
      ensures ok == Collects(around)
    {
      if around.registryAfter.None? {
        return true;
      }
      var agents := around.registryAfter.value;
      var names := SortKeys(agents.Keys);
      for i := 0 to |names|
        invariant forall k :: 0 <= k < i ==> agents[names[k]].lists && agents[names[k]].describes
      {
        assert names[i] in Elements(names);
        if !agents[names[i]].lists {
          return false;
        }
        if !agents[names[i]].describes {
          return false;
        }
      }
      assert forall name <- agents :: name in Elements(names);
      ok := true;
    }

    method RefreshThreadSnapshot(around: Surroundings) returns (ok: bool)
      modifies this
      ensures var frames := Collected(around, [ThreadSnapshot]);
              line == old(line).After(frames) && ok == (Collects(around) && old(line).Carries(frames))
    {
      var collected := CollectManagedSnapshot(around);
      if !collected {
        return false;
      }
      ok := Send(ThreadSnapshot);
    }

    method RefreshEnvironmentSnapshot(around: Surroundings) returns (ok: bool)
      modifies this
      ensures var frames := Collected(around, [EnvironmentSnapshot]);
              line == old(line).After(frames) && ok == (Collects(around) && old(line).Carries(frames))
    {
      var collected := CollectManagedSnapshot(around);
      if !collected {
        return false;
      }
      ok := Send(EnvironmentSnapshot);
    }

    method SendLiveSnapshot(around: Surroundings) returns (ok: bool)
      modifies this
      ensures var frames := Collected(around, [MachineSnapshot, ThreadSnapshot, EnvironmentSnapshot]);
              line == old(line).After(frames) && ok == (Collects(around) && old(line).Carries(frames))
    {
      var collected := CollectManagedSnapshot(around);
      if !collected {
        return false;
      }
      AfterBoth(line, [MachineSnapshot], [ThreadSnapshot]);
      AfterBoth(line, [MachineSnapshot] + [ThreadSnapshot], [EnvironmentSnapshot]);
      AfterBoth(line, [MachineSnapshot], [ThreadSnapshot, EnvironmentSnapshot]);
      ok := Send(MachineSnapshot);
      if !ok {
        return;
      }
      ok := Send(ThreadSnapshot);
      if !ok {
        return;
      }
      ok := Send(EnvironmentSnapshot);
    }

    /** The runtime's result as delta events, up to the first that cannot be sent. */
    method SendDeltas(requestID: nat, threadID: Bytes, outcome: Outcome) returns (ok: bool)
      requires outcome.Succeeds?
      modifies this
      ensures var frames := Deltas(requestID, threadID, outcome);
              line == old(line).After(frames) && ok == old(line).Carries(frames)
    {
      ghost var frames := Deltas(requestID, threadID, outcome);
      for i := 0 to |outcome.deltas|
        invariant i <= old(line.holds) && line == Line(old(line.sent) + frames[..i], old(line.holds) - i)
      {
        ok := Send(TurnDelta(requestID, threadID, outcome.turnID, outcome.deltas[i]));
        if !ok {
          return;
        }
      }
      ok := true;
    }

    // ----- the arms -----

    method Reject(envelope: Envelope, ghost around: Surroundings, reason: Reason, threadID: Bytes) returns (ok: bool)
      requires Judge(envelope, around) == Refused(reason, threadID)
      modifies this
      ensures Handled(old(line), line, ok, envelope, around)
    {
      ok := Send(CommandRejected(envelope.requestID, envelope.command, reason, threadID));
    }

    /** Sends the reply; the arm goes on only if it went out. `before` is the line before anything of
        this command was sent. */
    method Complete(envelope: Envelope, ghost around: Surroundings, agentID: Bytes, outcome: Outcome,
                    ghost before: Line) returns (ok: bool)
      requires Judge(envelope, around) == Carried(agentID, outcome)
      requires line == before.After(Early(envelope.command, outcome))
      modifies this
      ensures Answered(before, line, ok, envelope, around)
    {
      ghost var early := Early(envelope.command, outcome);
      ghost var reply := [Reply(envelope, around)];
      AfterBoth(before, early, reply);
      AfterBoth(before, early + reply, FollowUp(envelope, around, agentID, outcome));
      ok := Send(CommandCompleted(envelope.requestID, envelope.command, Subject(envelope, agentID, outcome)));
    }

    method CreateThread(envelope: Envelope, around: Surroundings) returns (ok: bool)
      requires ArmOf(envelope.command) == Creating
      modifies this
      ensures Handled(old(line), line, ok, envelope, around)
    {
      if !around.decodes {
        ok := Reject(envelope, around, BadPayload, []);
        return;
      }
      var agentID := ResolveAgentID(envelope.payload.agentID, around);
      if agentID.None? {
        ok := Reject(envelope, around, NoAgent, []);
        return;
      }
      var outcome := around.perform(agentID.value, []);
      if outcome.Fails? {
        ok := Reject(envelope, around, OperationFailed, []);
        return;
      }
      ok := Complete(envelope, around, agentID.value, outcome, line);
      if !ok {
        return;
      }
      label replied:
      ok := RefreshThreadSnapshot(around);
      Followed(old(line), old@replied(line), line, ok, envelope, around, agentID.value, outcome);
    }

    /** Reading a thread, or reading or updating its runtime settings: nothing follows the reply. */
    method ReadThread(envelope: Envelope, around: Surroundings) returns (ok: bool)
      requires ArmOf(envelope.command) == Reading
      modifies this
      ensures Handled(old(line), line, ok, envelope, around)
    {
      if !around.decodes {
        ok := Reject(envelope, around, BadPayload, []);
        return;
      }
      var agentID := ResolveAgentID(envelope.payload.agentID, around);
      if agentID.None? {
        ok := Reject(envelope, around, NoAgent, envelope.payload.threadID);
        return;
      }
      var thread := Identifiers.ResolveRuntimeThread(agentID.value, envelope.payload.threadID);
      if thread.Unresolved? {
        ok := Reject(envelope, around, BadThread(thread.error), envelope.payload.threadID);
        return;
      }
      var outcome := around.perform(thread.agentID, thread.threadID);
      if outcome.Fails? {
        ok := Reject(envelope, around, OperationFailed, envelope.payload.threadID);
        return;
      }
      ok := Complete(envelope, around, thread.agentID, outcome, line);
      if ok {
        Followed(old(line), line, line, ok, envelope, around, thread.agentID, outcome);
      }
    }

    method ChangeThread(envelope: Envelope, around: Surroundings) returns (ok: bool)
      requires ArmOf(envelope.command) == Changing
      modifies this
      ensures Handled(old(line), line, ok, envelope, around)
    {
      if !around.decodes {
        ok := Reject(envelope, around, BadPayload, []);
        return;
      }
      var agentID := ResolveAgentID(envelope.payload.agentID, around);
      if agentID.None? {
        ok := Reject(envelope, around, NoAgent, envelope.payload.threadID);
        return;
      }
      var thread := Identifiers.ResolveRuntimeThread(agentID.value, envelope.payload.threadID);
      if thread.Unresolved? {
        ok := Reject(envelope, around, BadThread(thread.error), envelope.payload.threadID);
        return;
      }
      var outcome := around.perform(thread.agentID, thread.threadID);
      if outcome.Fails? {
        ok := Reject(envelope, around, OperationFailed, envelope.payload.threadID);
        return;
      }
      ok := Complete(envelope, around, thread.agentID, outcome, line);
      if !ok {
        return;
      }
      label replied:
      ok := RefreshThreadSnapshot(around);
      Followed(old(line), old@replied(line), line, ok, envelope, around, thread.agentID, outcome);
    }

    /** A turn whose runtime streams it is told from the stream, any other from its result. */
    method RunTurn(envelope: Envelope, around: Surroundings) returns (ok: bool)
      requires ArmOf(envelope.command) == Running
      modifies this
      ensures Handled(old(line), line, ok, envelope, around)
    {
      if !around.decodes {
        ok := Reject(envelope, around, BadPayload, []);
        return;
      }
      var agentID := ResolveAgentID(envelope.payload.agentID, around);
      if agentID.None? {
        ok := Reject(envelope, around, NoAgent, envelope.payload.threadID);
        return;
      }
      var thread := Identifiers.ResolveRuntimeThread(agentID.value, envelope.payload.threadID);
      if thread.Unresolved? {
        ok := Reject(envelope, around, BadThread(thread.error), envelope.payload.threadID);
        return;
      }
      var outcome := around.perform(thread.agentID, thread.threadID);
      if outcome.Fails? {
        ok := Reject(envelope, around, OperationFailed, envelope.payload.threadID);
        return;
      }
      ok := Complete(envelope, around, thread.agentID, outcome, line);
      if !ok {
        return;
      }
      label replied:
      var streams := RuntimeStreamsTurnEvents(thread.agentID, around);
      if streams {
        Followed(old(line), line, line, true, envelope, around, thread.agentID, outcome);
        return true;
      }
      ok := TellTurn(envelope, around, thread.agentID, outcome);
      Followed(old(line), old@replied(line), line, ok, envelope, around, thread.agentID, outcome);
    }

    method InterruptTurn(envelope: Envelope, around: Surroundings) returns (ok: bool)
      requires ArmOf(envelope.command) == Interrupting
      modifies this
      ensures Handled(old(line), line, ok, envelope, around)
    {
      if !around.decodes {
        ok := Reject(envelope, around, BadPayload, []);
        return;
      }
      var agentID := ResolveAgentID(envelope.payload.agentID, around);
      if agentID.None? {
        ok := Reject(envelope, around, NoAgent, envelope.payload.threadID);
        return;
      }
      var thread := Identifiers.ResolveRuntimeThread(agentID.value, envelope.payload.threadID);
      if thread.Unresolved? {
        ok := Reject(envelope, around, BadThread(thread.error), envelope.payload.threadID);
        return;
      }
      var outcome := around.perform(thread.agentID, thread.threadID);
      if outcome.Fails? {
        ok := Reject(envelope, around, OperationFailed, envelope.payload.threadID);
        return;
      }
      ok := Complete(envelope, around, thread.agentID, outcome, line);
      if !ok {
        return;
      }
      label replied:
      var threadID := Identifiers.PublicThreadID(thread.agentID, outcome.threadID);
      ok := FinishTurn(TurnCompleted(envelope.requestID, threadID, outcome.turnID), around);
      Followed(old(line), old@replied(line), line, ok, envelope, around, thread.agentID, outcome);
    }

    method RuntimeStreamsTurnEvents(agentID: Bytes, around: Surroundings) returns (streams: bool)
      ensures streams == Streams(agentID, around)
    {
      if around.registryAfter.None? || TrimSpace(agentID) == [] {
        return false;
      }
      if agentID !in around.registryAfter.value {
        return false;
      }
      streams := around.registryAfter.value[agentID].streams;
    }

    method FinishTurn(event: Frame, around: Surroundings) returns (ok: bool)
      modifies this
      ensures var frames := [event] + Collected(around, [ThreadSnapshot]);
              line == old(line).After(frames) && ok == (Collects(around) && old(line).Carries(frames))
    {
      AfterBoth(line, [event], Collected(around, [ThreadSnapshot]));
      ok := Send(event);
      if !ok {
        return;
      }
      ok := RefreshThreadSnapshot(around);
    }

    method TellTurn(envelope: Envelope, around: Surroundings, agentID: Bytes, outcome: Outcome) returns (ok: bool)
      requires ArmOf(envelope.command) == Running && outcome.Succeeds?
      modifies this
      ensures var frames := Events(envelope, around, agentID, outcome) + Collected(around, [ThreadSnapshot]);
              line == old(line).After(frames) && ok == (Collects(around) && old(line).Carries(frames))
    {
      var threadID := Identifiers.PublicThreadID(agentID, outcome.threadID);
      var event := TurnCompleted(envelope.requestID, threadID, outcome.turnID);
      ghost var deltas := Deltas(envelope.requestID, threadID, outcome);
      ghost var rest := [event] + Collected(around, [ThreadSnapshot]);
      AfterBoth(line, deltas, rest);
      assert deltas + rest == Events(envelope, around, agentID, outcome) + Collected(around, [ThreadSnapshot]);
      ok := SendDeltas(envelope.requestID, threadID, outcome);
      if !ok {
        return;
      }
      ok := FinishTurn(event, around);
    }

    /** The answer to an approval goes to the agent that asked, under the identifier it asked with. An
        event it shows on the way is sent by the event handler, which drops an error of its send. */
    method RespondApproval(envelope: Envelope, around: Surroundings) returns (ok: bool)
      requires ArmOf(envelope.command) == Answering
      modifies this
      ensures Handled(old(line), line, ok, envelope, around)
    {
      if !around.decodes {
        ok := Reject(envelope, around, BadPayload, []);
        return;
      }
      var requestID := envelope.payload.requestID;
      var raw := Identifiers.RawApprovalID(around.machineID, ApprovalSession.RawIDs(around.approvals), requestID);
      if raw.None? {
        ok := Reject(envelope, around, UnknownApproval, []);
        return;
      }
      var context := ApprovalSession.ContextOf(around.approvals, requestID);
      var agentID := ResolveAgentID(context.agentID, around);
      if agentID.None? {
        ok := Reject(envelope, around, NoAgent, []);
        return;
      }
      var outcome := around.perform(agentID.value, raw.value);
      if outcome.Fails? {
        ok := Reject(envelope, around, OperationFailed, []);
        return;
      }
      if outcome.shows {
        var _ := Send(TimelineEvent);
      }
      ok := Complete(envelope, around, agentID.value, outcome, old(line));
      if !ok {
        return;
      }
      label replied:
      ok := Send(Closed(envelope.payload, around));
      assert [Closed(envelope.payload, around)] + Collected(around, []) == [Closed(envelope.payload, around)];
      Followed(old(line), old@replied(line), line, ok, envelope, around, agentID.value, outcome);
    }

    method ManageRuntimes(envelope: Envelope, around: Surroundings) returns (ok: bool)
      requires ArmOf(envelope.command) == Managing
      modifies this
      ensures Handled(old(line), line, ok, envelope, around)
    {
      if !around.decodes {
        ok := Reject(envelope, around, BadPayload, []);
        return;
      }
      if around.fleet.None? {
        ok := Reject(envelope, around, NoSupervisor, []);
        return;
      }
      var outcome := around.perform(envelope.payload.agentID, []);
      if outcome.Fails? {
        ok := Reject(envelope, around, OperationFailed, []);
        return;
      }
      ok := Complete(envelope, around, envelope.payload.agentID, outcome, line);
      if !ok {
        return;
      }
      label replied:
      ok := SendLiveSnapshot(around);
      Followed(old(line), old@replied(line), line, ok, envelope, around, envelope.payload.agentID, outcome);
    }

    method Configure(envelope: Envelope, around: Surroundings) returns (ok: bool)
      requires ArmOf(envelope.command) == Configuring
      modifies this
      ensures Handled(old(line), line, ok, envelope, around)
    {
      if !around.decodes {
        ok := Reject(envelope, around, BadPayload, []);
        return;
      }
      if around.fleet.None? {
        ok := Reject(envelope, around, NoSupervisor, []);
        return;
      }
      var outcome := around.perform(envelope.payload.agentID, []);
      if outcome.Fails? {
        ok := Reject(envelope, around, OperationFailed, []);
        return;
      }
      ok := Complete(envelope, around, envelope.payload.agentID, outcome, line);
      if ok {
        Followed(old(line), line, line, ok, envelope, around, envelope.payload.agentID, outcome);
      }
    }

    method ChangeEnvironment(envelope: Envelope, around: Surroundings) returns (ok: bool)
      requires ArmOf(envelope.command) == Equipping
      modifies this
      ensures Handled(old(line), line, ok, envelope, around)
    {
      if !around.decodes {
        ok := Reject(envelope, around, BadPayload, []);
        return;
      }
      var agentID := ResolveAgentID(envelope.payload.agentID, around);
      if agentID.None? {
        ok := Reject(envelope, around, NoAgent, []);
        return;
      }
      var outcome := around.perform(agentID.value, []);
      if outcome.Fails? {
        ok := Reject(envelope, around, OperationFailed, []);
        return;
      }
      ok := Complete(envelope, around, agentID.value, outcome, line);
      if !ok {
        return;
      }
      label replied:
      ok := RefreshEnvironmentSnapshot(around);
      Followed(old(line), old@replied(line), line, ok, envelope, around, agentID.value, outcome);
    }

    method RefreshEnvironment(envelope: Envelope, around: Surroundings) returns (ok: bool)
      requires ArmOf(envelope.command) == Refreshing
      modifies this
      ensures Handled(old(line), line, ok, envelope, around)
    {
      if !around.decodes {
        ok := Reject(envelope, around, BadPayload, []);
        return;
      }
      ok := Complete(envelope, around, [], NOTHING, line);
      if !ok {
        return;
      }
      label replied:
      ok := RefreshEnvironmentSnapshot(around);
      Followed(old(line), old@replied(line), line, ok, envelope, around, [], NOTHING);
    }

    /** Reloads in the order of the registry's names; the first runtime that fails ends it. */
    method ReloadServers(envelope: Envelope, around: Surroundings) returns (ok: bool)
      requires ArmOf(envelope.command) == Reloading
      modifies this
      ensures Handled(old(line), line, ok, envelope, around)
    {
      if !around.decodes {
        ok := Reject(envelope, around, BadPayload, []);
        return;
      }
      if around.registry.None? {
        ok := Reject(envelope, around, NoRegistry, []);
        return;
      }
      var agents := around.registry.value;
      var names := SortKeys(agents.Keys);
      for i := 0 to |names|
        invariant line == old(line)
        invariant forall k :: 0 <= k < i ==> names[k] in agents && agents[names[k]].reloads != Some(false)
      {
        assert names[i] in Elements(names);
        if agents[names[i]].reloads == Some(false) {
          ok := Reject(envelope, around, OperationFailed, []);
          return;
        }
      }
      assert forall name <- agents :: name in Elements(names);
      ok := Complete(envelope, around, [], NOTHING, line);
      if !ok {
        return;
      }
      label replied:
      ok := RefreshEnvironmentSnapshot(around);
      Followed(old(line), old@replied(line), line, ok, envelope, around, [], NOTHING);
    }

    method RunArm(envelope: Envelope, around: Surroundings) returns (ok: bool)
      modifies this
      ensures Handled(old(line), line, ok, envelope, around)
    {
      match envelope.command {
        case ThreadCreate => ok := CreateThread(envelope, around);
        case ThreadRead | ThreadRuntimeRead | ThreadRuntimeUpdate => ok := ReadThread(envelope, around);
        case ThreadResume | ThreadArchive => ok := ChangeThread(envelope, around);
        case TurnStart | TurnSteer => ok := RunTurn(envelope, around);
        case TurnInterrupt => ok := InterruptTurn(envelope, around);
        case ApprovalRespond => ok := RespondApproval(envelope, around);
        case RuntimeStop | RuntimeStart | AgentInstall | AgentDelete | AgentRestart =>
          ok := ManageRuntimes(envelope, around);
        case AgentConfigRead | AgentConfigWrite | AgentConfigApply => ok := Configure(envelope, around);
        case SkillSetEnabled | SkillCreate | SkillDelete | MCPUpsert | MCPSetEnabled | MCPRemove =>
          ok := ChangeEnvironment(envelope, around);
        case PluginInstall | PluginSetEnabled | PluginUninstall => ok := ChangeEnvironment(envelope, around);
        case EnvironmentRefresh => ok := RefreshEnvironment(envelope, around);
        case MCPReload => ok := ReloadServers(envelope, around);
        case Unsupported => ok := Reject(envelope, around, UnsupportedCommand, []);
      }
    }

    /** At most one reply goes out, exactly one unless a send fails, and it answers this command. */
    method HandleCommandEnvelope(envelope: Envelope, around: Surroundings) returns (ok: bool)
      modifies this
      ensures Handled(old(line), line, ok, envelope, around)
      ensures old(line).sent <= line.sent
      ensures var replies := RepliesIn(line.sent[|old(line).sent|..]);
        && |replies| <= 1 && (ok || old(line).holds > 1 ==> |replies| == 1)
        && forall reply <- replies :: Answers(reply, envelope, around)
    {
      ok := RunArm(envelope, around);
      ExactlyOneReply(envelope, around, old(line).holds);
      assert line.sent[|old(line).sent|..] == Prefix(Script(envelope, around), old(line).holds);
    }
  }

  ghost predicate Handled(before: Line, after: Line, ok: bool, envelope: Envelope, around: Surroundings) {
    var script := Script(envelope, around);
    after == before.After(script) && ok == (Finishes(envelope, around) && before.Carries(script))
  }

  /** Either the reply is out and the rest of the script is to come, or a send has failed. */
  ghost predicate Answered(before: Line, after: Line, ok: bool, envelope: Envelope, around: Surroundings)
    requires CarriedOut(envelope, around)
  {
    var Carried(agentID, outcome) := Judge(envelope, around);
    var opening := Early(envelope.command, outcome) + [Reply(envelope, around)];
    && after == before.After(opening) && ok == before.Carries(opening)
    && (!ok ==> Handled(before, after, ok, envelope, around))
  }

  lemma Followed(before: Line, middle: Line, after: Line, ok: bool, envelope: Envelope, around: Surroundings,
                 agentID: Bytes, outcome: Outcome)
    requires Judge(envelope, around) == Carried(agentID, outcome)
    requires Answered(before, middle, true, envelope, around)
    requires var frames := FollowUp(envelope, around, agentID, outcome);
             after == middle.After(frames) && ok == (Finishes(envelope, around) && middle.Carries(frames))
    ensures Handled(before, after, ok, envelope, around)
  {
    AfterBoth(before, Early(envelope.command, outcome) + [Reply(envelope, around)],
              FollowUp(envelope, around, agentID, outcome));
  }
}
