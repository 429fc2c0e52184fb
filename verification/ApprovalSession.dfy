/** The approval context of a client session: which agent asked under which public identifier, and
    how an answer finds its way back to it. */
module ApprovalSession {
  import opened Text
  import opened Identifiers

  datatype Context = Context(rawRequestID: Bytes, publicRequestID: Bytes, agentID: Bytes, threadID: Bytes,
                             turnID: Bytes)

  const NO_CONTEXT := Context([], [], [], [], [])

  type Table = map<Bytes, Context>

  datatype Frame =
    | RequiredFrame(requestID: Bytes, threadID: Bytes, turnID: Bytes)
    | ResolvedFrame(requestID: Bytes, threadID: Bytes, turnID: Bytes)

  datatype Step =
    | Require(agentID: Bytes, requestID: Bytes, threadID: Bytes, turnID: Bytes)
    | Resolve(requestID: Bytes, sends: bool)

  function ContextOf(table: Table, requestID: Bytes): Context {
    if !Blank(requestID) && requestID in table then table[requestID] else NO_CONTEXT
  }

  function MadeContext(machineID: Bytes, step: Step): Context
    requires step.Require?
  {
    Context(TrimSpace(step.requestID), ApprovalKey(machineID, step.requestID), TrimSpace(step.agentID),
        step.threadID, step.turnID)
  }

  function After(machineID: Bytes, table: Table, step: Step): Table {
    var key := ApprovalKey(machineID, step.requestID);
    if Blank(key) then table
    else
      match step
      case Require(_, _, _, _) => table[key := MadeContext(machineID, step)]
      case Resolve(_, sends) => if sends then table - {key} else table
  }

  function Run(machineID: Bytes, steps: seq<Step>): Table {
    if steps == [] then map[] else After(machineID, Run(machineID, steps[..|steps| - 1]), steps[|steps| - 1])
  }

  function RawIDs(table: Table): map<Bytes, Bytes> {
    map id | id in table :: table[id].rawRequestID
  }

  class ClientSession {
    const machineID: Bytes
    var approvalByID: Table
    var sent: seq<Frame>

    constructor (machineID: Bytes)
      ensures this.machineID == machineID && approvalByID == map[] && sent == []
    {
      this.machineID, approvalByID, sent := machineID, map[], [];
    }

    method ApprovalContext(requestID: Bytes) returns (context: Context)
      ensures context == ContextOf(approvalByID, requestID)
    {
      if TrimSpace(requestID) == [] {
        return NO_CONTEXT;
      }
      context := if requestID in approvalByID then approvalByID[requestID] else NO_CONTEXT;
    }

    /** `sends` says whether the connection would take the frame. */
    method ApprovalRequired(agentID: Bytes, requestID: Bytes, threadID: Bytes, turnID: Bytes, sends: bool)
      modifies this
      ensures approvalByID == After(machineID, old(approvalByID), Require(agentID, requestID, threadID, turnID))
      ensures sent == old(sent) + if sends then [RequiredFrame(ApprovalKey(machineID, requestID), threadID, turnID)]
          else []
    {
      var publicRequestID := ApprovalKey(machineID, requestID);
      if TrimSpace(publicRequestID) != [] {
        approvalByID := approvalByID[publicRequestID :=
          Context(TrimSpace(requestID), publicRequestID, TrimSpace(agentID), threadID, turnID)];
      }
      if sends {
        sent := sent + [RequiredFrame(publicRequestID, threadID, turnID)];
      }
    }

    method ApprovalResolved(requestID: Bytes, threadID: Bytes, turnID: Bytes, sends: bool)
      modifies this
      ensures approvalByID == After(machineID, old(approvalByID), Resolve(requestID, sends))
      ensures var key := ApprovalKey(machineID, requestID);
              var context := ContextOf(old(approvalByID), key);
              sent == old(sent) + if sends then [ResolvedFrame(key,
                if threadID == [] then context.threadID else threadID,
                if turnID == [] then context.turnID else turnID)] else []
    {
      var key := ApprovalKey(machineID, requestID);
      var thread, turn := threadID, turnID;
      if threadID == [] || turnID == [] {
        var context := ApprovalContext(key);
        if thread == [] {
          thread := context.threadID;
        }
        if turn == [] {
          turn := context.turnID;
        }
      }
      if !sends {
        return;
      }
      sent := sent + [ResolvedFrame(key, thread, turn)];
      if TrimSpace(key) != [] {
        approvalByID := approvalByID - {key};
      }
    }

    method RawApprovalRequestID(text: Bytes) returns (raw: Option<Bytes>)
      ensures raw == RawApprovalID(machineID, RawIDs(approvalByID), text)
    {
      var requestID := TrimSpace(text);
      if requestID == [] {
        return None;
      }
      var decoded := DecodePublicApprovalID(machineID, requestID);
      if decoded.Some? {
        return decoded;
      }
      if requestID in approvalByID {
        var context := approvalByID[requestID];
        if TrimSpace(context.rawRequestID) != [] {
          return Some(context.rawRequestID);
        }
      }
      if APPROVAL_PREFIX + ['.'] <= requestID {
        return None;
      }
      raw := Some(requestID);
    }
  }

  /** The step changes what is remembered under the key. */
  predicate Names(machineID: Bytes, step: Step, key: Bytes) {
    ApprovalKey(machineID, step.requestID) == key && (step.Require? || step.sends)
  }

  /** The last step that does. */
  function LastNaming(machineID: Bytes, steps: seq<Step>, key: Bytes): Option<Step> {
    if steps == [] then None
    else
      var init, last := steps[..|steps| - 1], steps[|steps| - 1];
      if Names(machineID, last, key) then Some(last) else LastNaming(machineID, init, key)
  }

  /** Who asked: agent, thread and turn. After a resolution that is nobody. */
  datatype Origin = Origin(agentID: Bytes, threadID: Bytes, turnID: Bytes)

  function OriginOf(step: Step): Origin {
    match step
    case Require(agentID, _, threadID, turnID) => Origin(TrimSpace(agentID), threadID, turnID)
    case Resolve(_, _) => Origin([], [], [])
  }

  function OriginIn(table: Table, key: Bytes): Origin {
    var context := ContextOf(table, key);
    Origin(context.agentID, context.threadID, context.turnID)
  }

  /** An answer under the public identifier is handed to the agent, thread and turn that asked, with
      the identifier it asked under. */
  predicate Reaches(machineID: Bytes, table: Table, asked: Step) {
    var publicID := EncodePublicApprovalID(machineID, asked.requestID);
    RawApprovalID(machineID, RawIDs(table), publicID) == Some(asked.requestID)
        && OriginIn(table, publicID) == OriginOf(asked)
  }

  /** A step leaves under a key what it names it for, and otherwise what there was. */
  lemma StepDecidesOrigin(machineID: Bytes, table: Table, step: Step, key: Bytes)
    requires !Blank(key)
    ensures OriginIn(After(machineID, table, step), key)
         == if Names(machineID, step, key) then OriginOf(step) else OriginIn(table, key)
  {
  }

  lemma RunOneMore(machineID: Bytes, steps: seq<Step>, last: Step)
    ensures Run(machineID, steps + [last]) == After(machineID, Run(machineID, steps), last)
  {
    assert (steps + [last])[..|steps|] == steps;
  }

  lemma LastNamingOneMore(machineID: Bytes, steps: seq<Step>, last: Step, key: Bytes)
    ensures LastNaming(machineID, steps + [last], key)
         == if Names(machineID, last, key) then Some(last) else LastNaming(machineID, steps, key)
  {
    assert (steps + [last])[..|steps|] == steps;
  }

  /** Whom the steps since leave under the key, if it was `origin` before. */
  function Decided(machineID: Bytes, since: seq<Step>, key: Bytes, origin: Origin): Origin {
    match LastNaming(machineID, since, key)
    case None => origin
    case Some(step) => OriginOf(step)
  }

  lemma OneMoreDecides(machineID: Bytes, earlier: seq<Step>, since: seq<Step>, last: Step, key: Bytes, origin: Origin)
    requires !Blank(key)
    requires OriginIn(Run(machineID, earlier + since), key) == Decided(machineID, since, key, origin)
    ensures OriginIn(Run(machineID, (earlier + since) + [last]), key) == Decided(machineID, since + [last], key, origin)
  {
    RunOneMore(machineID, earlier + since, last);
    StepDecidesOrigin(machineID, Run(machineID, earlier + since), last, key);
    LastNamingOneMore(machineID, since, last, key);
  }

  lemma LastSplits(earlier: seq<Step>, since: seq<Step>)
    requires since != []
    ensures var init, last := since[..|since| - 1], since[|since| - 1];
      since == init + [last] && earlier + since == (earlier + init) + [last]
  {
  }

  lemma {:induction false} LastNamingDecides(machineID: Bytes, earlier: seq<Step>, since: seq<Step>, key: Bytes)
    requires !Blank(key)
    ensures OriginIn(Run(machineID, earlier + since), key)
         == Decided(machineID, since, key, OriginIn(Run(machineID, earlier), key))
    decreases |since|
  {
    if since == [] {
      assert earlier + since == earlier;
    } else {
      var init, last := since[..|since| - 1], since[|since| - 1];
      LastNamingDecides(machineID, earlier, init, key);
      OneMoreDecides(machineID, earlier, init, last, key, OriginIn(Run(machineID, earlier), key));
      LastSplits(earlier, since);
    }
  }

  lemma AskedIsRemembered(machineID: Bytes, before: seq<Step>, asked: Step)
    requires !Blank(machineID) && asked.Require? && RawFor(machineID, asked.requestID)
    ensures var publicID := EncodePublicApprovalID(machineID, asked.requestID);
      && !Blank(publicID) && ApprovalKey(machineID, asked.requestID) == publicID
      && OriginIn(Run(machineID, before + [asked]), publicID) == OriginOf(asked)
  {
    ApprovalIDRoundTrip(machineID, asked.requestID);
    RunOneMore(machineID, before, asked);
    StepDecidesOrigin(machineID, Run(machineID, before), asked, EncodePublicApprovalID(machineID, asked.requestID));
  }

  /** Whatever was asked for and resolved before and since, an answer under the public identifier of an
      approval reaches the agent, thread and turn that asked exactly if the last step since then that
      named its key, if any, came from the same agent, thread and turn. */
  lemma AnswerReachesTheAskerIff(machineID: Bytes, before: seq<Step>, asked: Step, since: seq<Step>)
    requires !Blank(machineID) && asked.Require? && RawFor(machineID, asked.requestID)
    ensures var last := LastNaming(machineID, since, ApprovalKey(machineID, asked.requestID));
            Reaches(machineID, Run(machineID, before + [asked] + since), asked)
            <==> last == None || OriginOf(last.value) == OriginOf(asked)
  {
    var publicID := EncodePublicApprovalID(machineID, asked.requestID);
    var table := Run(machineID, before + [asked] + since);
    AskedIsRemembered(machineID, before, asked);
    LastNamingDecides(machineID, before + [asked], since, publicID);
    ApprovalIdentitySurvives(machineID, asked.requestID, RawIDs(table));
  }

  lemma {:induction false} LastNamingIsOne(machineID: Bytes, steps: seq<Step>, key: Bytes)
    ensures LastNaming(machineID, steps, key) == None <==> forall step <- steps :: !Names(machineID, step, key)
    ensures LastNaming(machineID, steps, key).Some? ==>
      LastNaming(machineID, steps, key).value in steps && Names(machineID, LastNaming(machineID, steps, key).value, key)
  {
    if steps != [] {
      var init, last := steps[..|steps| - 1], steps[|steps| - 1];
      LastNamingIsOne(machineID, init, key);
      assert steps == init + [last];
    }
  }

  /** So where the asker itself does not ask again under the same identifier, its answer arrives exactly
      if no other agent, thread or turn has asked under it since and no sent resolution names it. */
  lemma AnswerReachesTheAsker(machineID: Bytes, before: seq<Step>, asked: Step, since: seq<Step>)
    requires !Blank(machineID) && asked.Require? && RawFor(machineID, asked.requestID) && !Blank(asked.agentID)
    requires forall step <- since :: Names(machineID, step, ApprovalKey(machineID, asked.requestID)) ==>
               step.Resolve? || OriginOf(step) != OriginOf(asked)
    ensures Reaches(machineID, Run(machineID, before + [asked] + since), asked)
       <==> forall step <- since :: !Names(machineID, step, ApprovalKey(machineID, asked.requestID))
  {
    AnswerReachesTheAskerIff(machineID, before, asked, since);
    LastNamingIsOne(machineID, since, ApprovalKey(machineID, asked.requestID));
  }

  /** An asker that asks again after a resolution is reached again, although a resolution was sent. */
  lemma AskedAgainIsReached(machineID: Bytes, before: seq<Step>, asked: Step)
    requires !Blank(machineID) && asked.Require? && RawFor(machineID, asked.requestID)
    ensures Reaches(machineID, Run(machineID, before + [asked] + [Resolve(asked.requestID, true), asked]), asked)
  {
    var since := [Resolve(asked.requestID, true), asked];
    assert LastNaming(machineID, since, ApprovalKey(machineID, asked.requestID)) == Some(asked);
    AnswerReachesTheAskerIff(machineID, before, asked, since);
  }

  /** Two app servers of one machine that use the same raw identifier: the answer to the first goes to
      the second, and so does the answer to the second. */
  lemma SharedIdentifierMisdelivers(machineID: Bytes, before: seq<Step>, first: Step, second: Step)
    requires !Blank(machineID) && first.Require? && second.Require?
    requires RawFor(machineID, first.requestID) && second.requestID == first.requestID
    requires TrimSpace(first.agentID) != TrimSpace(second.agentID)
    ensures var table := Run(machineID, before + [first] + [second]);
      && !Reaches(machineID, table, first) && Reaches(machineID, table, second)
      && ContextOf(table, EncodePublicApprovalID(machineID, first.requestID)).agentID == TrimSpace(second.agentID)
  {
    var key := ApprovalKey(machineID, first.requestID);
    AskedIsRemembered(machineID, before, first);
    assert [second][..0] == [];
    assert LastNaming(machineID, [second], key) == Some(second);
    AnswerReachesTheAskerIff(machineID, before, first, [second]);
    AnswerReachesTheAskerIff(machineID, before + [first], second, []);
    assert before + [first] + [second] + [] == before + [first] + [second];
  }

  /** Once it is resolved nothing is remembered of it, in whichever form the resolution names it. */
  lemma ResolvedIsForgotten(machineID: Bytes, table: Table, raw: Bytes)
    requires !Blank(machineID) && RawFor(machineID, raw)
    ensures var publicID := EncodePublicApprovalID(machineID, raw);
      && publicID !in After(machineID, table, Resolve(raw, true))
      && After(machineID, table, Resolve(publicID, true)) == After(machineID, table, Resolve(raw, true))
  {
    ApprovalIDRoundTrip(machineID, raw);
    ApprovalIdentitySurvives(machineID, raw, map[]);
  }
}
