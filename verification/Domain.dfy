/** The entities that travel between client and gateway. */
module Domain {
  import opened Text
  import opened Activity

  datatype ThreadStatus = NotLoaded | Idle | Active | Unknown | SystemError

  datatype ThreadMessage = ThreadMessage(id: Bytes, turnID: Bytes, text: Bytes)

  datatype Thread = Thread(
    threadID: Bytes,
    machineID: Bytes,
    agentID: Bytes,
    status: ThreadStatus,
    title: Bytes,
    lastActivityAt: Stamp,
    messages: seq<ThreadMessage>)

  datatype ThreadRoute = ThreadRoute(machineID: Bytes, agentID: Bytes)

  datatype EnvironmentResource = EnvironmentResource(
    resourceID: Bytes,
    machineID: Bytes,
    agentID: Bytes,
    kind: Bytes,
    displayName: Bytes,
    status: Bytes,
    restartRequired: bool,
    lastObservedAt: Bytes,
    details: Option<Bytes>)

  datatype AgentStatus = Running | Stopped | Failed

  datatype AgentInstance = AgentInstance(agentID: Bytes, displayName: Bytes, status: AgentStatus)

  datatype MachineStatus = NoStatus | Online | Offline

  datatype RuntimeStatus = NoRuntimeStatus | RuntimeUnknown | RuntimeRunning | RuntimeStopped

  datatype Machine = Machine(
    id: Bytes,
    name: Bytes,
    status: MachineStatus,
    runtimeStatus: RuntimeStatus,
    agents: seq<AgentInstance>)

  datatype Approval = Approval(requestID: Bytes, threadID: Bytes, turnID: Bytes, itemID: Bytes, kind: Bytes)

  datatype TimelineType =
    | TurnStarted | TurnCompleted | TurnFailed
    | ApprovalRequested | ApprovalResolved
    | OtherTimeline

  datatype TimelineApproval = TimelineApproval(requestID: Bytes, kind: Bytes)

  datatype TimelineEvent = TimelineEvent(
    eventID: Bytes,
    sequence: int,
    machineID: Bytes,
    threadID: Bytes,
    turnID: Bytes,
    itemID: Bytes,
    eventType: TimelineType,
    approval: Option<TimelineApproval>)

  // ----- thread lists -----

  /** Every identifier is trimmed, and no identifier but the empty one occurs twice. */
  predicate WellFormed(threads: seq<Thread>) {
    && (forall i :: 0 <= i < |threads| ==> Trimmed(threads[i].threadID))
    && (forall i, j :: 0 <= i < j < |threads| ==>
          threads[i].threadID != threads[j].threadID || threads[i].threadID == [])
  }

  predicate Lists(threads: seq<Thread>, threadID: Bytes) {
    exists i :: 0 <= i < |threads| && threads[i].threadID == threadID
  }

  /** A thread with its timestamp in canonical spelling. */
  function Canonical(thread: Thread): Thread {
    thread.(lastActivityAt := Normalize(thread.lastActivityAt))
  }

  /** The same threads in the same order, field by field, timestamps compared as instants. */
  predicate Copies(xs: seq<Thread>, ys: seq<Thread>) {
    && |xs| == |ys|
    && forall i :: 0 <= i < |xs| ==> Canonical(xs[i]) == Canonical(ys[i])
  }

  /** No thread that both lists name is older in the second. */
  predicate NeverOlder(before: seq<Thread>, after: seq<Thread>) {
    forall i, j :: 0 <= i < |before| && 0 <= j < |after| ==>
      (before[i].threadID == after[j].threadID != [] ==>
         NotAfter(before[i].lastActivityAt, after[j].lastActivityAt))
  }

  /** The threads by identifier; the last of several with one identifier wins, blank ones are left
      out. */
  function ByThreadID(threads: seq<Thread>): map<Bytes, Thread> {
    if threads == [] then map[]
    else
      var last := threads[|threads| - 1];
      var byID := ByThreadID(threads[..|threads| - 1]);
      if Blank(last.threadID) then byID else byID[last.threadID := last]
  }

  lemma {:induction false} ByThreadIDFinds(threads: seq<Thread>, threadID: Bytes)
    ensures threadID in ByThreadID(threads) <==> !Blank(threadID) && Lists(threads, threadID)
    ensures threadID in ByThreadID(threads) ==>
      exists i :: 0 <= i < |threads| && threads[i] == ByThreadID(threads)[threadID] && threads[i].threadID == threadID
  {
    if threads != [] {
      var n := |threads| - 1;
      var init, last := threads[..n], threads[n];
      ByThreadIDFinds(init, threadID);
      if last.threadID == threadID {
        assert threads[n].threadID == threadID;
      } else {
        if Lists(threads, threadID) {
          var k :| 0 <= k < |threads| && threads[k].threadID == threadID;
          assert init[k].threadID == threadID;
        }
        if threadID in ByThreadID(init) {
          var i :| 0 <= i < |init| && init[i] == ByThreadID(init)[threadID];
          assert threads[i] == init[i];
        }
      }
    }
  }

  /** `thread` with the later of its own activity and the one known under `key`. */
  function WithKnownActivity(known: map<Bytes, Thread>, key: Bytes, thread: Thread): Thread {
    if key in known then thread.(lastActivityAt := Latest(known[key].lastActivityAt, thread.lastActivityAt))
    else thread
  }
}
