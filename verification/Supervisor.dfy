/** The client's supervisor of agent processes. `Fleet` is the supervisor with the runtime registry
    as one value; the classes are the two objects as they run. Starting, stopping, saving and
    removing may each fail: their outcomes are parameters. */
module Supervisor {
  import opened Text
  import opened Domain
  import opened Sorting

  /** A running agent process. */
  type Runtime = nat

  datatype Record = Record(agentType: Bytes, displayName: Bytes)

  /** What starting an agent would come to. */
  datatype Start = Unsupported | Fails | Starts(runtime: Runtime)

  type Starts = Bytes -> Start

  datatype Fleet = Fleet(
    records: map<Bytes, Record>,
    /** For each running agent the process its cleanup closes. */
    cleanups: map<Bytes, Runtime>,
    status: map<Bytes, AgentStatus>,
    runtimes: map<Bytes, Runtime>)
  {
    function Status(agentID: Bytes): AgentStatus {
      if agentID in status then status[agentID] else Stopped
    }

    predicate CanRun(agentID: Bytes, starts: Starts) {
      agentID in cleanups || starts(agentID).Starts?
    }

    function Launch(agentID: Bytes, start: Start): Fleet {
      if agentID in cleanups then this
      else
        match start
        case Unsupported => this
        case Fails => this.(status := status[agentID := Failed])
        case Starts(runtime) =>
          this.(runtimes := runtimes[agentID := runtime],
                cleanups := cleanups[agentID := runtime],
                status := status[agentID := Running])
    }

    function Halt(agentID: Bytes): Fleet {
      this.(cleanups := cleanups - {agentID}, runtimes := runtimes - {agentID}, status := status[agentID := Stopped])
    }

    function HaltAll(agentIDs: set<Bytes>): Fleet {
      this.(cleanups := cleanups - agentIDs, runtimes := runtimes - agentIDs,
          status := AllAre(status, agentIDs, Stopped))
    }

    /** The processes that starting `agentIDs` creates. */
    function NewRuntimes(agentIDs: set<Bytes>, starts: Starts): map<Bytes, Runtime> {
      map id | id in agentIDs && id !in cleanups && starts(id).Starts? :: starts(id).runtime
    }

    /** Those of `agentIDs` that were not running are started. */
    function LaunchAll(agentIDs: set<Bytes>, starts: Starts): Fleet {
      var started := NewRuntimes(agentIDs, starts);
      this.(cleanups := cleanups + started, runtimes := runtimes + started,
          status := AllAre(status, started.Keys, Running))
    }

    function Add(agentID: Bytes, record: Record): Fleet {
      this.(records := records[agentID := record])
    }

    function Drop(agentID: Bytes): Fleet {
      this.(records := records - {agentID}, status := status - {agentID})
    }

    /** Position of the first agent in the order that cannot be started. */
    function FirstStuck(order: seq<Bytes>, starts: Starts): (i: nat)
      ensures i <= |order|
      ensures i < |order| ==> !CanRun(order[i], starts)
      ensures forall j :: 0 <= j < i ==> CanRun(order[j], starts)
    {
      if order == [] || !CanRun(order[0], starts) then 0
      else
        var i := FirstStuck(order[1..], starts);
        assert forall j :: 0 < j < i + 1 ==> order[j] == order[1..][j - 1];
        i + 1
    }

    /** Either all are started, or the first that cannot be is marked and all before it are halted,
        whether or not they were running before. */
    function StartAll(order: seq<Bytes>, starts: Starts): Fleet {
      var stuck := FirstStuck(order, starts);
      if stuck == |order| then LaunchAll(Elements(order), starts)
      else HaltAll(Elements(order[..stuck])).Launch(order[stuck], starts(order[stuck]))
    }

    function FirstUnclean(order: seq<Bytes>, cleans: Bytes -> bool): (i: nat)
      ensures i <= |order|
      ensures i < |order| ==> !cleans(order[i])
      ensures forall j :: 0 <= j < i ==> cleans(order[j])
    {
      if order == [] || !cleans(order[0]) then 0
      else
        var i := FirstUnclean(order[1..], cleans);
        assert forall j :: 0 < j < i + 1 ==> order[j] == order[1..][j - 1];
        i + 1
    }

    /** Agents are stopped up to and including the first whose cleanup fails. */
    function StopAll(order: seq<Bytes>, cleans: Bytes -> bool): Fleet {
      var unclean := FirstUnclean(order, cleans);
      HaltAll(Elements(if unclean == |order| then order else order[..unclean + 1]))
    }

    function Install(agentID: Bytes, record: Record, saves: bool, start: Start): Fleet {
      if Blank(record.displayName) || !saves then this
      else
        var launched := Add(agentID, record).Launch(agentID, start);
        if Add(agentID, record).CanRun(agentID, id => start) then launched else launched.Drop(agentID)
    }

    function Delete(agentID: Bytes, valid: bool, cleans: bool): Fleet {
      if !valid then this
      else if agentID in cleanups && !cleans then Halt(agentID)
      else Halt(agentID).Drop(agentID)
    }

    function Restart(agentID: Bytes, valid: bool, cleans: bool, start: Start): Fleet {
      if !valid || agentID !in records then this
      else if agentID in cleanups then
        if cleans then Halt(agentID).Launch(agentID, start) else Halt(agentID)
      else Launch(agentID, start)
    }
  }

  function AllAre(status: map<Bytes, AgentStatus>, agentIDs: set<Bytes>, next: AgentStatus): map<Bytes, AgentStatus> {
    map id | id in status.Keys + agentIDs :: if id in agentIDs then next else status[id]
  }

  // ----- agent identifiers -----

  function Digit(d: nat): Byte
    requires d < 10
  {
    (48 + d) as char
  }

  function Digits(n: nat): Bytes {
    if n < 10 then [Digit(n)] else Digits(n / 10) + [Digit(n % 10)]
  }

  const AGENT: Bytes := ['a', 'g', 'e', 'n', 't', '-']

  /** `agent-%02d`. */
  function Candidate(n: nat): Bytes {
    AGENT + (if n < 10 then ['0'] else []) + Digits(n)
  }

  function Parse(digits: Bytes): int {
    if digits == [] then 0 else Parse(digits[..|digits| - 1]) * 10 + (digits[|digits| - 1] as int - 48)
  }

  lemma {:induction false} ParseReadsDigits(n: nat)
    ensures Parse(Digits(n)) == n
  {
    if n < 10 {
      assert Parse([]) == 0;
    } else {
      ParseReadsDigits(n / 10);
      assert Digits(n)[..|Digits(n)| - 1] == Digits(n / 10);
    }
  }

  lemma ParseReadsCandidate(n: nat)
    ensures |Candidate(n)| >= 6 && Parse(Candidate(n)[6..]) == n
  {
    ParseReadsDigits(n);
    assert Candidate(n)[6..] == (if n < 10 then ['0'] else []) + Digits(n);
    if n < 10 {
      var text: Bytes := ['0'] + Digits(n);
      assert text[..1] == ['0'] && ['0'][..0] == [];
      assert Parse([]) == 0 && Parse(['0']) == 0;
    }
  }

  /** Different numbers make different identifiers. */
  lemma CandidatesDistinct(m: nat, n: nat)
    requires Candidate(m) == Candidate(n)
    ensures m == n
  {
    ParseReadsCandidate(m);
    ParseReadsCandidate(n);
  }

  function Candidates(n: nat): set<Bytes> {
    set i | 1 <= i <= n :: Candidate(i)
  }

  lemma {:induction false} CandidatesCount(n: nat)
    ensures |Candidates(n)| == n
  {
    if n == 0 {
      assert Candidates(0) == {};
    } else {
      CandidatesCount(n - 1);
      forall i | 1 <= i <= n - 1
        ensures Candidate(i) != Candidate(n)
      {
        if Candidate(i) == Candidate(n) {
          CandidatesDistinct(i, n);
        }
      }
      assert Candidates(n) == Candidates(n - 1) + {Candidate(n)};
    }
  }

  lemma {:induction false} SubsetIsNotLarger(small: set<Bytes>, large: set<Bytes>)
    requires small <= large
    ensures |small| <= |large|
  {
    if small != {} {
      var x :| x in small;
      SubsetIsNotLarger(small - {x}, large - {x});
    }
  }

  /** Of the first |taken| + 1 candidates one is free. */
  lemma Pigeonhole(taken: set<Bytes>, n: nat)
    requires Candidates(n) <= taken
    ensures n <= |taken|
  {
    CandidatesCount(n);
    SubsetIsNotLarger(Candidates(n), taken);
  }

  // ----- the runtime registry -----

  class Registry {
    var runtimes: map<Bytes, Runtime>

    constructor ()
      ensures runtimes == map[]
    {
      runtimes := map[];
    }

    method Register(name: Bytes, runtime: Runtime)
      modifies this
      ensures runtimes == old(runtimes)[name := runtime]
    {
      runtimes := runtimes[name := runtime];
    }

    method Get(name: Bytes) returns (runtime: Option<Runtime>)
      ensures runtime == if name in runtimes then Some(runtimes[name]) else None
    {
      runtime := if name in runtimes then Some(runtimes[name]) else None;
    }

    method Remove(name: Bytes)
      modifies this
      ensures runtimes == old(runtimes) - {name}
    {
      runtimes := runtimes - {name};
    }

    method Names() returns (names: seq<Bytes>)
      ensures IsSorting(names, runtimes.Keys)
    {
      names := SortKeys(runtimes.Keys);
    }
  }

  // ----- the supervisor as it runs -----

  class Supervisor {
    const registry: Registry
    var records: map<Bytes, Record>
    var cleanups: map<Bytes, Runtime>
    var statusByAgentID: map<Bytes, AgentStatus>

    constructor (registry: Registry, records: map<Bytes, Record>)
      ensures this.registry == registry
      ensures View() == Fleet(records, map[], map[], registry.runtimes)
    {
      this.registry := registry;
      this.records, cleanups, statusByAgentID := records, map[], map[];
    }

    function View(): Fleet
      reads this, registry
    {
      Fleet(records, cleanups, statusByAgentID, registry.runtimes)
    }

    method StartAgent(agentID: Bytes, start: Start) returns (ok: bool)
      modifies this, registry
      ensures View() == old(View()).Launch(agentID, start)
      ensures ok == (agentID in cleanups)
      ensures ok == (agentID in old(cleanups) || start.Starts?)
    {
      if agentID in cleanups {
        return true;
      }
      match start {
        case Unsupported => return false;
        case Fails =>
          statusByAgentID := statusByAgentID[agentID := Failed];
          return false;
        case Starts(runtime) =>
          registry.Register(agentID, runtime);
          cleanups := cleanups[agentID := runtime];
          statusByAgentID := statusByAgentID[agentID := Running];
          return true;
      }
    }

    /** `cleans` says whether the agent's cleanup would succeed. */
    method StopAgent(agentID: Bytes, cleans: bool) returns (ok: bool)
      modifies this, registry
      ensures View() == old(View()).Halt(agentID)
      ensures ok == (agentID in old(cleanups) ==> cleans)
    {
      var cleanup := agentID in cleanups;
      cleanups := cleanups - {agentID};
      registry.Remove(agentID);
      statusByAgentID := statusByAgentID[agentID := Stopped];
      ok := !cleanup || cleans;
    }

    method StartAll(starts: Starts, cleans: Bytes -> bool) returns (ok: bool, ghost order: seq<Bytes>)
      modifies this, registry
      ensures IsSorting(order, old(records).Keys)
      ensures View() == old(View()).StartAll(order, starts)
      ensures ok == (old(View()).FirstStuck(order, starts) == |order|)
    {
      var sorted := SortKeys(records.Keys);
      order := sorted;
      ghost var was := View();
      LaunchNone(was, starts);
      assert Elements(sorted[..0]) == {};
      for i := 0 to |sorted|
        invariant i <= was.FirstStuck(sorted, starts)
        invariant View() == was.LaunchAll(Elements(sorted[..i]), starts)
      {
        NotAmongEarlier(sorted, i);
        StuckIs(was, sorted, i, starts);
        var started := StartAgent(sorted[i], starts(sorted[i]));
        if !started {
          RollBack(was, sorted, i, starts, cleans);
          return false, sorted;
        }
        LaunchOneMore(was, Elements(sorted[..i]), sorted[i], starts);
      }
      assert sorted[..|sorted|] == sorted;
      ok := true;
    }

    /** Stops what this StartAll has been through, last first. */
    method RollBack(ghost was: Fleet, sorted: seq<Bytes>, failed: nat, starts: Starts, cleans: Bytes -> bool)
      requires StrictlySorted(sorted) && failed < |sorted| && failed == was.FirstStuck(sorted, starts)
      requires View() == was.LaunchAll(Elements(sorted[..failed]), starts).Launch(sorted[failed],
          starts(sorted[failed]))
      modifies this, registry
      ensures View() == was.StartAll(sorted, starts)
    {
      ghost var launched := View();
      var i := failed;
      HaltNone(launched);
      assert Elements(sorted[i..failed]) == {};
      while i > 0
        invariant 0 <= i <= failed
        invariant View() == launched.HaltAll(Elements(sorted[i..failed]))
      {
        i := i - 1;
        var _ := StopAgent(sorted[i], cleans(sorted[i]));
        HaltOneMore(launched, Elements(sorted[i + 1..failed]), sorted[i]);
        SliceGains(sorted, i, failed);
      }
      assert sorted[0..failed] == sorted[..failed];
      HaltForgetsLaunch(was, sorted, failed, starts);
    }

    method StopAll(cleans: Bytes -> bool) returns (ok: bool, ghost order: seq<Bytes>)
      modifies this, registry
      ensures IsSorting(order, old(cleanups).Keys)
      ensures View() == old(View()).StopAll(order, cleans)
      ensures ok == (old(View()).FirstUnclean(order, cleans) == |order|)
    {
      var sorted := SortKeys(cleanups.Keys);
      order := sorted;
      ghost var was := View();
      HaltNone(was);
      assert Elements(sorted[..0]) == {};
      for i := 0 to |sorted|
        invariant i <= was.FirstUnclean(sorted, cleans)
        invariant View() == was.HaltAll(Elements(sorted[..i]))
      {
        NotAmongEarlier(sorted, i);
        assert sorted[i] in Elements(sorted);
        var stopped := StopAgent(sorted[i], cleans(sorted[i]));
        HaltOneMore(was, Elements(sorted[..i]), sorted[i]);
        if !stopped {
          return false, sorted;
        }
      }
      assert sorted[..|sorted|] == sorted;
      ok := true;
    }

    method NextAgentID() returns (agentID: Bytes, ghost n: nat)
      ensures 1 <= n <= |records.Keys| + 1 && agentID == Candidate(n) && agentID !in records
      ensures forall i :: 1 <= i < n ==> Candidate(i) in records
    {
      var idx := 1;
      while Candidate(idx) in records
        invariant 1 <= idx && Candidates(idx - 1) <= records.Keys
        decreases |records.Keys| + 1 - idx
      {
        assert Candidates(idx) == Candidates(idx - 1) + {Candidate(idx)};
        Pigeonhole(records.Keys, idx);
        idx := idx + 1;
      }
      Pigeonhole(records.Keys, idx - 1);
      assert forall i :: 1 <= i < idx ==> Candidate(i) in Candidates(idx - 1);
      agentID, n := Candidate(idx), idx;
    }

    /** `saves` says whether the record could be written, `starts` what starting it comes to. */
    method InstallAgent(agentType: Bytes, displayName: Bytes, saves: bool, starts: Starts)
      returns (agentID: Option<Bytes>, ghost candidate: Bytes)
      modifies this, registry
      ensures candidate !in old(records)
      ensures exists n :: 1 <= n <= |old(records).Keys| + 1 && candidate == Candidate(n)
      ensures View() == old(View()).Install(candidate, Record(agentType, displayName), saves, starts(candidate))
      ensures agentID.Some? ==> agentID == Some(candidate) && candidate in cleanups
      ensures agentID.None? ==> candidate !in records
    {
      var id;
      ghost var n;
      id, n := NextAgentID();
      candidate := id;
      agentID := None;
      if TrimSpace(displayName) == [] {
        return;
      }
      if !saves {
        return;
      }
      records := records[id := Record(agentType, displayName)];
      var started := StartAgent(id, starts(id));
      if !started {
        records := records - {id};
        statusByAgentID := statusByAgentID - {id};
        return;
      }
      agentID := Some(id);
    }

    method DeleteAgent(text: Bytes, valid: bool, cleans: bool, removes: bool) returns (ok: bool)
      modifies this, registry
      ensures View() == old(View()).Delete(TrimSpace(text), valid, cleans)
      ensures ok ==> TrimSpace(text) !in records && TrimSpace(text) !in cleanups
    {
      var agentID := TrimSpace(text);
      if !valid {
        return false;
      }
      var stopped := StopAgent(agentID, cleans);
      if !stopped {
        return false;
      }
      records := records - {agentID};
      statusByAgentID := statusByAgentID - {agentID};
      ok := removes;
    }

    method RestartAgent(text: Bytes, valid: bool, cleans: bool, start: Start) returns (ok: bool)
      modifies this, registry
      ensures View() == old(View()).Restart(TrimSpace(text), valid, cleans, start)
      ensures ok ==> TrimSpace(text) in cleanups
    {
      var agentID := TrimSpace(text);
      if !valid {
        return false;
      }
      if agentID !in records {
        return false;
      }
      if agentID in cleanups {
        var stopped := StopAgent(agentID, cleans);
        if !stopped {
          return false;
        }
      }
      ok := StartAgent(agentID, start);
    }

    /** What the machine snapshot lists. */
    method AgentInstances() returns (items: seq<AgentInstance>)
      ensures exists order :: IsSorting(order, records.Keys) && items == Instances(View(), order)
    {
      var sorted := SortKeys(records.Keys);
      items := [];
      for i := 0 to |sorted|
        invariant |items| == i
        invariant forall k :: 0 <= k < i ==> sorted[k] in records && items[k] == Instance(View(), sorted[k])
      {
        assert sorted[i] in Elements(sorted);
        items := items + [AgentInstance(sorted[i], records[sorted[i]].displayName,
          if sorted[i] in statusByAgentID then statusByAgentID[sorted[i]] else Stopped)];
      }
      assert items == Instances(View(), sorted);
    }
  }

  // ----- how the loops compose -----

  lemma AllButOne(status: map<Bytes, AgentStatus>, agentIDs: set<Bytes>, agentID: Bytes, next: AgentStatus)
    ensures AllAre(status, agentIDs, next)[agentID := next] == AllAre(status, agentIDs + {agentID}, next)
  {
  }

  lemma RemovedOneMore(runtimes: map<Bytes, Runtime>, agentIDs: set<Bytes>, agentID: Bytes)
    ensures runtimes - agentIDs - {agentID} == runtimes - (agentIDs + {agentID})
  {
  }

  lemma HaltOneMore(fleet: Fleet, agentIDs: set<Bytes>, agentID: Bytes)
    ensures fleet.HaltAll(agentIDs).Halt(agentID) == fleet.HaltAll(agentIDs + {agentID})
  {
    AllButOne(fleet.status, agentIDs, agentID, Stopped);
    RemovedOneMore(fleet.cleanups, agentIDs, agentID);
    RemovedOneMore(fleet.runtimes, agentIDs, agentID);
  }

  lemma HaltNone(fleet: Fleet)
    ensures fleet.HaltAll({}) == fleet
  {
    assert fleet.cleanups - {} == fleet.cleanups && fleet.runtimes - {} == fleet.runtimes;
    assert AllAre(fleet.status, {}, Stopped) == fleet.status;
  }

  lemma LaunchNone(fleet: Fleet, starts: Starts)
    ensures fleet.LaunchAll({}, starts) == fleet
  {
    assert fleet.NewRuntimes({}, starts) == map[];
    assert AllAre(fleet.status, {}, Running) == fleet.status;
  }

  lemma AddedOneMore(runtimes: map<Bytes, Runtime>, before: map<Bytes, Runtime>, agentID: Bytes, runtime: Runtime)
    ensures runtimes + before[agentID := runtime] == (runtimes + before)[agentID := runtime]
  {
  }

  lemma LaunchOneMore(fleet: Fleet, agentIDs: set<Bytes>, agentID: Bytes, starts: Starts)
    requires agentID !in agentIDs && fleet.CanRun(agentID, starts)
    ensures fleet.LaunchAll(agentIDs, starts).Launch(agentID, starts(agentID))
         == fleet.LaunchAll(agentIDs + {agentID}, starts)
  {
    var before, after := fleet.NewRuntimes(agentIDs, starts), fleet.NewRuntimes(agentIDs + {agentID}, starts);
    if agentID in fleet.cleanups {
      assert after == before;
    } else {
      var runtime := starts(agentID).runtime;
      assert after == before[agentID := runtime];
      assert after.Keys == before.Keys + {agentID};
      AllButOne(fleet.status, before.Keys, agentID, Running);
      AddedOneMore(fleet.cleanups, before, agentID, runtime);
      AddedOneMore(fleet.runtimes, before, agentID, runtime);
    }
  }

  lemma NotAmongEarlier(order: seq<Bytes>, i: nat)
    requires StrictlySorted(order) && i < |order|
    ensures order[i] !in Elements(order[..i])
    ensures Elements(order[..i + 1]) == Elements(order[..i]) + {order[i]}
  {
    if order[i] in order[..i] {
      var j :| 0 <= j < i && order[..i][j] == order[i];
      SortedIsDuplicateFree(order, j, i);
    }
    assert order[..i + 1] == order[..i] + [order[i]];
  }

  lemma SliceGains(order: seq<Bytes>, i: nat, n: nat)
    requires i < n <= |order|
    ensures Elements(order[i..n]) == Elements(order[i + 1..n]) + {order[i]}
  {
    assert order[i..n] == [order[i]] + order[i + 1..n];
  }

  lemma StuckIs(was: Fleet, order: seq<Bytes>, i: nat, starts: Starts)
    requires i < |order| && i <= was.FirstStuck(order, starts)
    ensures was.CanRun(order[i], starts) <==> i < was.FirstStuck(order, starts)
  {
  }

  /** Halting what has just been launched leaves no trace of the launch. */
  lemma HaltForgetsLaunch(was: Fleet, order: seq<Bytes>, failed: nat, starts: Starts)
    requires StrictlySorted(order) && failed < |order| && failed == was.FirstStuck(order, starts)
    ensures was.LaunchAll(Elements(order[..failed]), starts).Launch(order[failed], starts(order[failed]))
              .HaltAll(Elements(order[..failed]))
         == was.StartAll(order, starts)
  {
    NotAmongEarlier(order, failed);
    LaunchedThenHalted(was, Elements(order[..failed]), order[failed], starts);
  }

  lemma LaunchedThenHalted(was: Fleet, agentIDs: set<Bytes>, stuck: Bytes, starts: Starts)
    requires stuck !in agentIDs && !was.CanRun(stuck, starts)
    ensures was.LaunchAll(agentIDs, starts).Launch(stuck, starts(stuck)).HaltAll(agentIDs)
         == was.HaltAll(agentIDs).Launch(stuck, starts(stuck))
  {
    var started := was.NewRuntimes(agentIDs, starts);
    assert started.Keys <= agentIDs;
    assert was.cleanups + started - agentIDs == was.cleanups - agentIDs;
    assert was.runtimes + started - agentIDs == was.runtimes - agentIDs;
    var running, halted := AllAre(was.status, started.Keys, Running), AllAre(was.status, agentIDs, Stopped);
    assert AllAre(running, agentIDs, Stopped) == halted;
    assert AllAre(running[stuck := Failed], agentIDs, Stopped) == halted[stuck := Failed];
  }

  function Instance(fleet: Fleet, agentID: Bytes): AgentInstance
    requires agentID in fleet.records
  {
    AgentInstance(agentID, fleet.records[agentID].displayName, fleet.Status(agentID))
  }

  function Instances(fleet: Fleet, order: seq<Bytes>): (items: seq<AgentInstance>)
    requires Elements(order) == fleet.records.Keys
    ensures |items| == |order|
  {
    assert forall i :: 0 <= i < |order| ==> order[i] in Elements(order);
    seq(|order|, i requires 0 <= i < |order| => Instance(fleet, order[i]))
  }
}
