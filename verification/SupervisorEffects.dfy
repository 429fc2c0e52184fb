/** What each operation of the supervisor does to each agent: to its record, its process, the runtime
    registered under its name and its status. */
module SupervisorEffects {
  import opened Text
  import opened Domain
  import opened Sorting
  import opened Supervisor
  import opened SupervisorLaws

  /** All the supervisor holds of an agent. */
  datatype Agent = Agent(record: Option<Record>, process: Option<Runtime>, registered: Option<Runtime>,
                         status: Option<AgentStatus>)
  {
    function Runs(runtime: Runtime): Agent {
      this.(process := Some(runtime), registered := Some(runtime), status := Some(Running))
    }

    function Rests(): Agent {
      this.(process := None, registered := None, status := Some(Stopped))
    }
  }

  const NO_AGENT := Agent(None, None, None, None)

  function AgentOf(fleet: Fleet, id: Bytes): Agent {
    Agent(
      if id in fleet.records then Some(fleet.records[id]) else None,
      if id in fleet.cleanups then Some(fleet.cleanups[id]) else None,
      if id in fleet.runtimes then Some(fleet.runtimes[id]) else None,
      if id in fleet.status then Some(fleet.status[id]) else None)
  }

  /** What starting it makes of an agent: one that runs goes on, a new process is the one started, a
      failure shows. */
  function Started(agent: Agent, start: Start): Agent {
    if agent.process.Some? then agent
    else
      match start
      case Unsupported => agent
      case Fails => agent.(status := Some(Failed))
      case Starts(runtime) => agent.Runs(runtime)
  }

  /** An installation adds the agent with its record and its process, or nothing. */
  lemma InstalledAgentIs(fleet: Fleet, agentID: Bytes, record: Record, saves: bool, start: Start, id: Bytes)
    requires InStep(fleet) && agentID !in fleet.records
    ensures AgentOf(fleet.Install(agentID, record, saves, start), id)
         == if id == agentID && !Blank(record.displayName) && saves && start.Starts?
            then Agent(Some(record), None, None, None).Runs(start.runtime)
            else AgentOf(fleet, id)
  {
  }

  /** A deletion takes the agent away whole, unless its cleanup fails: then it only rests. */
  lemma DeletedAgentIs(fleet: Fleet, agentID: Bytes, valid: bool, cleans: bool, id: Bytes)
    ensures AgentOf(fleet.Delete(agentID, valid, cleans), id)
         == if id != agentID || !valid then AgentOf(fleet, id)
            else if agentID in fleet.cleanups && !cleans then AgentOf(fleet, id).Rests()
            else NO_AGENT
  {
  }

  /** A restart ends the agent's process and starts another, unless the cleanup fails: then it rests. */
  lemma RestartedAgentIs(fleet: Fleet, agentID: Bytes, valid: bool, cleans: bool, start: Start, id: Bytes)
    ensures AgentOf(fleet.Restart(agentID, valid, cleans, start), id)
         == if id != agentID || !valid || agentID !in fleet.records then AgentOf(fleet, id)
            else if agentID !in fleet.cleanups then Started(AgentOf(fleet, id), start)
            else if cleans then Started(AgentOf(fleet, id).Rests(), start)
            else AgentOf(fleet, id).Rests()
  {
  }

  /** The agent runs or can be started. */
  predicate Able(fleet: Fleet, id: Bytes, starts: Starts) {
    id in fleet.cleanups || starts(id).Starts?
  }

  /** Where every agent is able a start of all starts each that does not run. */
  lemma StartedAgentIs(fleet: Fleet, order: seq<Bytes>, starts: Starts, id: Bytes)
    requires InStep(fleet) && IsSorting(order, fleet.records.Keys)
    requires forall recorded <- fleet.records :: Able(fleet, recorded, starts)
    ensures AgentOf(fleet.StartAll(order, starts), id)
         == if id in fleet.records then Started(AgentOf(fleet, id), starts(id)) else AgentOf(fleet, id)
  {
    StartAllSucceedsIff(fleet, order, starts);
  }

  lemma StuckIsFirst(fleet: Fleet, order: seq<Bytes>, starts: Starts, stuck: Bytes)
    requires IsSorting(order, fleet.records.Keys) && stuck in fleet.records && !Able(fleet, stuck, starts)
    requires forall other <- fleet.records :: Less(other, stuck) ==> Able(fleet, other, starts)
    ensures fleet.FirstStuck(order, starts) < |order| && order[fleet.FirstStuck(order, starts)] == stuck
  {
    assert stuck in Elements(order);
    var i :| 0 <= i < |order| && order[i] == stuck;
    EarlierAreAble(fleet, order, starts, i);
  }

  lemma EarlierAreAble(fleet: Fleet, order: seq<Bytes>, starts: Starts, i: nat)
    requires IsSorting(order, fleet.records.Keys) && i < |order|
    requires forall other <- fleet.records :: Less(other, order[i]) ==> Able(fleet, other, starts)
    ensures forall j :: 0 <= j < i ==> fleet.CanRun(order[j], starts)
  {
    forall j | 0 <= j < i
      ensures fleet.CanRun(order[j], starts)
    {
      assert order[j] in Elements(order) && Less(order[j], order[i]);
    }
  }

  /** Where one is not, the agents before it rest, ran they before or not, its failure shows if it is
      one, and the agents after it are as they were. */
  lemma FailedStartLeaves(fleet: Fleet, order: seq<Bytes>, starts: Starts, stuck: Bytes, id: Bytes)
    requires InStep(fleet) && IsSorting(order, fleet.records.Keys)
    requires stuck in fleet.records && !Able(fleet, stuck, starts)
    requires forall other <- fleet.records :: Less(other, stuck) ==> Able(fleet, other, starts)
    ensures AgentOf(fleet.StartAll(order, starts), id)
         == if id == stuck then Started(AgentOf(fleet, id), starts(id))
            else if id in fleet.records && Less(id, stuck) then AgentOf(fleet, id).Rests()
            else AgentOf(fleet, id)
  {
    StuckIsFirst(fleet, order, starts, stuck);
    var n := fleet.FirstStuck(order, starts);
    if id in fleet.records {
      assert id in Elements(order);
      BeforeIffLess(order, n, id);
      LessIsTotal(id, stuck);
    } else {
      assert forall j :: 0 <= j < n ==> order[j] in Elements(order);
    }
  }

  lemma EarlierCleanIff(order: seq<Bytes>, keys: set<Bytes>, cleans: Bytes -> bool, i: nat)
    requires IsSorting(order, keys) && i < |order|
    ensures (forall other <- keys :: Less(other, order[i]) ==> cleans(other))
       <==> forall j :: 0 <= j < i ==> cleans(order[j])
  {
    forall j | 0 <= j < i
      ensures order[j] in keys && Less(order[j], order[i])
    {
      assert order[j] in Elements(order);
    }
    forall other | other in keys && Less(other, order[i])
      ensures exists j :: 0 <= j < i && order[j] == other
    {
      assert other in Elements(order);
      var j :| 0 <= j < |order| && order[j] == other;
      LessIsTotal(order[i], order[j]);
    }
  }

  lemma StoppedUpTo(order: seq<Bytes>, n: nat, i: nat)
    requires StrictlySorted(order) && i < |order| && n <= |order|
    ensures order[i] in Elements(if n == |order| then order else order[..n + 1]) <==> i <= n
  {
    if i <= n {
      assert n < |order| ==> order[..n + 1][i] == order[i];
    } else {
      NotAmongEarlier(order, i);
      assert forall j :: 0 <= j < n + 1 ==> order[..n + 1][j] == order[..i][j];
    }
  }

  /** The agent runs, and so does none before it whose cleanup fails. */
  predicate StopsAt(fleet: Fleet, cleans: Bytes -> bool, id: Bytes) {
    id in fleet.cleanups && forall other <- fleet.cleanups :: Less(other, id) ==> cleans(other)
  }

  lemma StopsAtIff(fleet: Fleet, order: seq<Bytes>, cleans: Bytes -> bool, id: Bytes)
    requires IsSorting(order, fleet.cleanups.Keys)
    ensures var n := fleet.FirstUnclean(order, cleans);
            id in Elements(if n == |order| then order else order[..n + 1]) <==> StopsAt(fleet, cleans, id)
  {
    var n := fleet.FirstUnclean(order, cleans);
    if id in fleet.cleanups {
      assert id in Elements(order);
      var i :| 0 <= i < |order| && order[i] == id;
      EarlierCleanIff(order, fleet.cleanups.Keys, cleans, i);
      StoppedUpTo(order, n, i);
    } else {
      assert forall j :: 0 <= j < |order| ==> order[j] in Elements(order);
    }
  }

  /** A stop of all rests each running agent up to the first whose cleanup fails, that one included; the
      agents after it are as they were. */
  lemma StoppedAgentIs(fleet: Fleet, order: seq<Bytes>, cleans: Bytes -> bool, id: Bytes)
    requires IsSorting(order, fleet.cleanups.Keys)
    ensures AgentOf(fleet.StopAll(order, cleans), id)
         == if StopsAt(fleet, cleans, id) then AgentOf(fleet, id).Rests() else AgentOf(fleet, id)
  {
    StopsAtIff(fleet, order, cleans, id);
  }

  /** The machine snapshot lists each recorded agent once, under its name and with its status. */
  lemma InstancesShowAgents(fleet: Fleet, order: seq<Bytes>)
    requires IsSorting(order, fleet.records.Keys)
    ensures var items := Instances(fleet, order);
      && |items| == |fleet.records|
      && (forall i :: 0 <= i < |items| ==> order[i] in fleet.records && items[i] == AgentInstance(order[i],
            AgentOf(fleet, order[i]).record.value.displayName,
            if AgentOf(fleet, order[i]).status.Some? then AgentOf(fleet, order[i]).status.value else Stopped))
  {
    SortingCounts(order, fleet.records.Keys);
    assert |fleet.records| == |fleet.records.Keys|;
    assert forall i :: 0 <= i < |order| ==> order[i] in Elements(order);
  }
}
