/** The supervisor's maps stay in step over every sequence of operations, whatever starts, cleanups
    and saves fail; what failed operations leave behind; and how a snapshot reads the fleet. */
module SupervisorLaws {
  import opened Text
  import opened Domain
  import opened Sorting
  import opened Supervisor

  datatype Step =
    | StartAll(order: seq<Bytes>, starts: Starts)
    | StopAll(order: seq<Bytes>, cleanups: Bytes -> bool)
    | Install(agentID: Bytes, record: Record, saves: bool, start: Start)
    | Delete(agentID: Bytes, valid: bool, cleans: bool)
    | Restart(agentID: Bytes, valid: bool, cleans: bool, start: Start)

  /** What the operations themselves see to: sorted keys and a free identifier. */
  predicate Enabled(fleet: Fleet, step: Step) {
    match step
    case StartAll(order, _) => IsSorting(order, fleet.records.Keys)
    case StopAll(order, _) => IsSorting(order, fleet.cleanups.Keys)
    case Install(agentID, _, _, _) => agentID !in fleet.records
    case _ => true
  }

  function Apply(fleet: Fleet, step: Step): Fleet {
    match step
    case StartAll(order, starts) => fleet.StartAll(order, starts)
    case StopAll(order, cleans) => fleet.StopAll(order, cleans)
    case Install(agentID, record, saves, start) => fleet.Install(agentID, record, saves, start)
    case Delete(agentID, valid, cleans) => fleet.Delete(agentID, valid, cleans)
    case Restart(agentID, valid, cleans, start) => fleet.Restart(agentID, valid, cleans, start)
  }

  ghost predicate Reaches(fleet: Fleet, steps: seq<Step>, after: Fleet)
    decreases |steps|
  {
    if steps == [] then fleet == after
    else
      var n := |steps| - 1;
      exists before :: Reaches(fleet, steps[..n], before) && Enabled(before, steps[n])
          && after == Apply(before, steps[n])
  }

  // ----- the invariant -----

  /** Registered runtimes, cleanups and agents with status running are the same; a cleanup closes the
      process that is registered; nothing is known of agents that have no record. */
  predicate InStep(fleet: Fleet) {
    && fleet.cleanups == fleet.runtimes
    && (forall id <- fleet.status :: fleet.status[id] == Running <==> id in fleet.cleanups)
    && fleet.cleanups.Keys <= fleet.status.Keys <= fleet.records.Keys
  }

  lemma LaunchKeepsStep(fleet: Fleet, agentID: Bytes, start: Start)
    requires InStep(fleet) && agentID in fleet.records
    ensures InStep(fleet.Launch(agentID, start))
  {
  }

  lemma HaltAllKeepsStep(fleet: Fleet, agentIDs: set<Bytes>)
    requires InStep(fleet) && agentIDs <= fleet.records.Keys
    ensures InStep(fleet.HaltAll(agentIDs))
  {
  }

  lemma LaunchAllKeepsStep(fleet: Fleet, agentIDs: set<Bytes>, starts: Starts)
    requires InStep(fleet) && agentIDs <= fleet.records.Keys
    ensures InStep(fleet.LaunchAll(agentIDs, starts))
  {
    var after := fleet.LaunchAll(agentIDs, starts);
    var started := fleet.NewRuntimes(agentIDs, starts);
    assert started.Keys <= agentIDs;
    forall id <- after.status
      ensures after.status[id] == Running <==> id in after.cleanups
    {
    }
  }

  lemma StepKeepsStep(fleet: Fleet, step: Step)
    requires InStep(fleet) && Enabled(fleet, step)
    ensures InStep(Apply(fleet, step))
  {
    match step
    case StartAll(order, starts) =>
      var stuck := fleet.FirstStuck(order, starts);
      assert forall i :: 0 <= i < |order| ==> order[i] in Elements(order);
      assert Elements(order[..stuck]) <= fleet.records.Keys;
      LaunchAllKeepsStep(fleet, Elements(order), starts);
      HaltAllKeepsStep(fleet, Elements(order[..stuck]));
      if stuck < |order| {
        LaunchKeepsStep(fleet.HaltAll(Elements(order[..stuck])), order[stuck], starts(order[stuck]));
      }
    case StopAll(order, cleans) =>
      assert forall i :: 0 <= i < |order| ==> order[i] in Elements(order);
      var unclean := fleet.FirstUnclean(order, cleans);
      HaltAllKeepsStep(fleet, Elements(if unclean == |order| then order else order[..unclean + 1]));
    case Install(agentID, record, saves, start) =>
      LaunchKeepsStep(fleet.Add(agentID, record), agentID, start);
    case Delete(agentID, _, _) =>
    case Restart(agentID, _, _, start) =>
      if agentID in fleet.records {
        LaunchKeepsStep(fleet.Halt(agentID), agentID, start);
        LaunchKeepsStep(fleet, agentID, start);
      }
  }

  /** In every run of operations, from a supervisor that has just read its records, the maps are in
      step. */
  lemma {:induction false} FleetIsInStepInEveryRun(records: map<Bytes, Record>, steps: seq<Step>, fleet: Fleet)
    requires Reaches(Fleet(records, map[], map[], map[]), steps, fleet)
    ensures InStep(fleet)
  {
    if steps != [] {
      var n := |steps| - 1;
      var start := Fleet(records, map[], map[], map[]);
      var before :| Reaches(start, steps[..n], before) && Enabled(before, steps[n]) && fleet == Apply(before, steps[n]);
      FleetIsInStepInEveryRun(records, steps[..n], before);
      StepKeepsStep(before, steps[n]);
    }
  }

  // ----- what failures leave behind -----

  /** An installation that fails, wherever it does, leaves the fleet exactly as it was. */
  lemma FailedInstallRestores(fleet: Fleet, agentID: Bytes, record: Record, saves: bool, start: Start)
    requires InStep(fleet) && agentID !in fleet.records
    ensures fleet.Install(agentID, record, saves, start) == fleet
       <==> Blank(record.displayName) || !saves || !start.Starts?
  {
    var installed := fleet.Install(agentID, record, saves, start);
    assert fleet.records - {agentID} == fleet.records && fleet.status - {agentID} == fleet.status;
    if !Blank(record.displayName) && saves {
      if start.Starts? {
        assert agentID in installed.records;
      } else {
        assert installed.records == fleet.records;
        assert installed.status == fleet.status;
      }
    }
  }

  /** StartAll succeeds exactly when every recorded agent runs or can be started, and then all run. */
  lemma StartAllSucceedsIff(fleet: Fleet, order: seq<Bytes>, starts: Starts)
    requires InStep(fleet) && IsSorting(order, fleet.records.Keys)
    ensures fleet.FirstStuck(order, starts) == |order| <==> forall id <- fleet.records :: fleet.CanRun(id, starts)
    ensures (fleet.FirstStuck(order, starts) == |order| ==>
      && fleet.StartAll(order, starts).cleanups.Keys == fleet.records.Keys
      && forall id <- fleet.cleanups :: fleet.StartAll(order, starts).runtimes[id] == fleet.runtimes[id])
  {
    forall i | 0 <= i < |order|
      ensures order[i] in fleet.records
    {
      assert order[i] in Elements(order);
    }
    forall id <- fleet.records
      ensures id in order
    {
      assert id in Elements(order);
    }
    if fleet.FirstStuck(order, starts) == |order| {
      var started := fleet.NewRuntimes(Elements(order), starts);
      assert started.Keys + fleet.cleanups.Keys == fleet.records.Keys;
    }
  }

  /** What a failed StartAll leaves running: the agents that ran before and come after the one that
      could not be started, and no other. */
  lemma FailedStartAllLeaves(fleet: Fleet, order: seq<Bytes>, starts: Starts, id: Bytes)
    requires InStep(fleet) && IsSorting(order, fleet.records.Keys)
    requires fleet.FirstStuck(order, starts) < |order|
    ensures var stuck := order[fleet.FirstStuck(order, starts)];
            id in fleet.StartAll(order, starts).cleanups <==> id in fleet.cleanups && Less(stuck, id)
  {
    var n := fleet.FirstStuck(order, starts);
    if id in fleet.cleanups {
      assert id in Elements(order);
      BeforeIffLess(order, n, id);
    }
  }

  lemma BeforeIffLess(order: seq<Bytes>, n: nat, id: Bytes)
    requires StrictlySorted(order) && n < |order| && id in order
    ensures id in Elements(order[..n]) <==> id != order[n] && !Less(order[n], id)
  {
    var i :| 0 <= i < |order| && order[i] == id;
    LessIsTotal(order[n], id);
    if i < n {
      assert order[..n][i] == id;
    } else {
      assert forall j :: 0 <= j < n ==> order[..n][j] == order[j];
      forall j | 0 <= j < n
        ensures order[j] != id
      {
        LessIsTotal(order[j], order[i]);
      }
    }
  }

  /** From a fleet at rest StartAll is all or nothing. */
  lemma StartAllFromRestIsAllOrNothing(fleet: Fleet, order: seq<Bytes>, starts: Starts)
    requires InStep(fleet) && fleet.cleanups == map[] && IsSorting(order, fleet.records.Keys)
    ensures var after := fleet.StartAll(order, starts);
      || after.cleanups.Keys == after.runtimes.Keys == fleet.records.Keys
      || after.cleanups == after.runtimes == map[]
  {
    StartAllSucceedsIff(fleet, order, starts);
    StepKeepsStep(fleet, StartAll(order, starts));
    if fleet.FirstStuck(order, starts) < |order| {
      forall id
        ensures id !in fleet.StartAll(order, starts).cleanups
      {
        FailedStartAllLeaves(fleet, order, starts, id);
      }
      assert fleet.StartAll(order, starts).cleanups == map[];
    }
  }

  /** Otherwise it is not: a failed StartAll spares the agents that were running exactly when none of
      them comes before the one that could not be started. */
  lemma FailedStartAllSparesIff(fleet: Fleet, order: seq<Bytes>, starts: Starts)
    requires InStep(fleet) && IsSorting(order, fleet.records.Keys)
    requires fleet.FirstStuck(order, starts) < |order|
    ensures fleet.StartAll(order, starts).cleanups == fleet.cleanups
       <==> forall id <- fleet.cleanups :: Less(order[fleet.FirstStuck(order, starts)], id)
  {
    var after := fleet.StartAll(order, starts);
    forall id
      ensures id in after.cleanups <==> id in fleet.cleanups && Less(order[fleet.FirstStuck(order, starts)], id)
    {
      FailedStartAllLeaves(fleet, order, starts, id);
    }
    forall id <- after.cleanups
      ensures after.cleanups[id] == fleet.cleanups[id]
    {
    }
  }

  /** StopAll stops everything exactly when no cleanup but that of the last agent fails. */
  lemma StopAllStopsAllIff(fleet: Fleet, order: seq<Bytes>, cleans: Bytes -> bool)
    requires InStep(fleet) && IsSorting(order, fleet.cleanups.Keys)
    ensures fleet.StopAll(order, cleans).cleanups == map[] <==> forall i :: 0 <= i < |order| - 1 ==> cleans(order[i])
  {
    var n := fleet.FirstUnclean(order, cleans);
    var after := fleet.StopAll(order, cleans);
    if n < |order| - 1 {
      var last := order[|order| - 1];
      assert last in Elements(order);
      if last in order[..n + 1] {
        var j :| 0 <= j < n + 1 && order[..n + 1][j] == last;
        SortedIsDuplicateFree(order, |order| - 1, j);
      }
      assert last in after.cleanups;
    } else {
      assert n < |order| ==> order[..n + 1] == order;
    }
  }

  // ----- how the machine snapshot reads the fleet -----

  /** The runtime status the machine snapshot reports. */
  function RuntimeStatusOf(items: seq<AgentInstance>): RuntimeStatus {
    if exists i :: 0 <= i < |items| && items[i].status == Running then RuntimeRunning else RuntimeStopped
  }

  method ReportRuntimeStatus(items: seq<AgentInstance>) returns (status: RuntimeStatus)
    ensures status == RuntimeStatusOf(items)
  {
    status := RuntimeStopped;
    for i := 0 to |items|
      invariant forall j :: 0 <= j < i ==> items[j].status != Running
    {
      if items[i].status == Running {
        return RuntimeRunning;
      }
    }
  }

  /** A machine reports a running runtime exactly when some agent process is registered. */
  lemma ReportsRunningIffRegistered(fleet: Fleet, order: seq<Bytes>)
    requires InStep(fleet) && IsSorting(order, fleet.records.Keys)
    ensures RuntimeStatusOf(Instances(fleet, order)) == RuntimeRunning <==> fleet.runtimes != map[]
  {
    var items := Instances(fleet, order);
    if fleet.runtimes != map[] {
      var id :| id in fleet.runtimes;
      assert id in Elements(order);
      var i :| 0 <= i < |order| && order[i] == id;
      assert items[i].status == Running;
    }
  }
}
