/** The gateway's runtime index: threads and environment by machine, and a route table. */
module RuntimeIndex {
  import opened Text
  import opened Activity
  import opened Domain
  import opened Routing

  datatype Index = Index(
    threads: map<Bytes, seq<Thread>>,
    environment: map<Bytes, seq<EnvironmentResource>>,
    routes: Routes)
  {
    function Threads(machineID: Bytes): seq<Thread> {
      if machineID in threads then threads[machineID] else []
    }

    function Environment(machineID: Bytes): seq<EnvironmentResource> {
      if machineID in environment then environment[machineID] else []
    }

    function ReplaceSnapshot(machineID: Bytes, items: seq<Thread>, resources: seq<EnvironmentResource>): Index {
      Index(
        threads[machineID := Merged(Threads(machineID), items)],
        environment[machineID := resources],
        Replaced(routes, machineID, items))
    }

    function UpsertThread(machineID: Bytes, thread: Thread): Index {
      if machineID == [] || thread.threadID == [] then this
      else
        var owned := if thread.machineID == [] then thread.(machineID := machineID) else thread;
        this.(threads := threads[machineID := Upserted(Threads(machineID), owned)],
             routes := routes[thread.threadID := RouteOf(machineID, thread)])
    }

    function RemoveThread(machineID: Bytes, threadID: Bytes): Index {
      if machineID == [] || threadID == [] then this
      else
        this.(threads := threads[machineID := Without(Threads(machineID), threadID)],
             routes := routes - {threadID})
    }

    function ClearMachine(machineID: Bytes): Index {
      if machineID == [] then this
      else Index(threads - {machineID}, environment - {machineID}, WithoutMachine(routes, machineID))
    }

    function MarkMachineUnknown(machineID: Bytes): Index {
      if machineID == [] || Threads(machineID) == [] then this
      else this.(threads := threads[machineID := MarkedUnknown(Threads(machineID))])
    }
  }

  const EMPTY := Index(map[], map[], map[])

  /** A snapshot's threads, each with the later of its own activity and the one stored before. */
  function Merged(previous: seq<Thread>, threads: seq<Thread>): (merged: seq<Thread>)
    ensures |merged| == |threads|
  {
    seq(|threads|, i requires 0 <= i < |threads| =>
      WithKnownActivity(ByThreadID(previous), TrimSpace(threads[i].threadID), threads[i]))
  }

  /** Position of the first thread with this identifier; the length when there is none. */
  function Find(threads: seq<Thread>, threadID: Bytes): (i: nat)
    ensures i <= |threads|
    ensures i < |threads| ==> threads[i].threadID == threadID
  {
    if threads == [] || threads[0].threadID == threadID then 0 else 1 + Find(threads[1..], threadID)
  }

  lemma {:induction false} FindIsFirst(threads: seq<Thread>, threadID: Bytes)
    ensures forall j :: 0 <= j < Find(threads, threadID) ==> threads[j].threadID != threadID
  {
    if threads != [] && threads[0].threadID != threadID {
      FindIsFirst(threads[1..], threadID);
      forall j | 0 <= j < Find(threads, threadID)
        ensures threads[j].threadID != threadID
      {
        assert j > 0 ==> threads[j] == threads[1..][j - 1];
      }
    }
  }

  /** The list with `thread` in the place of the first entry of its identifier, or at the end. */
  function Upserted(threads: seq<Thread>, thread: Thread): seq<Thread> {
    var i := Find(threads, thread.threadID);
    if i < |threads|
    then threads[i := thread.(lastActivityAt := Latest(threads[i].lastActivityAt, thread.lastActivityAt))]
    else threads + [thread]
  }

  function Without(threads: seq<Thread>, threadID: Bytes): seq<Thread> {
    if threads == [] then []
    else
      var init, last := threads[..|threads| - 1], threads[|threads| - 1];
      if last.threadID == threadID then Without(init, threadID) else Without(init, threadID) + [last]
  }

  lemma {:induction false} WithoutKeepsTheOthers(threads: seq<Thread>, threadID: Bytes, thread: Thread)
    ensures thread in Without(threads, threadID) <==> thread in threads && thread.threadID != threadID
  {
    if threads != [] {
      var init, last := threads[..|threads| - 1], threads[|threads| - 1];
      WithoutKeepsTheOthers(init, threadID, thread);
      assert threads == init + [last];
    }
  }

  function MarkedUnknown(threads: seq<Thread>): (marked: seq<Thread>)
    ensures |marked| == |threads|
  {
    seq(|threads|, i requires 0 <= i < |threads| => threads[i].(status := Unknown))
  }

  method IndexByThreadID(threads: seq<Thread>) returns (byID: map<Bytes, Thread>)
    ensures byID == ByThreadID(threads)
  {
    byID := map[];
    for i := 0 to |threads|
      invariant byID == ByThreadID(threads[..i])
    {
      assert threads[..i + 1][..i] == threads[..i];
      if !Blank(threads[i].threadID) {
        byID := byID[threads[i].threadID := threads[i]];
      }
    }
    assert threads[..|threads|] == threads;
  }

  method MergeActivities(previous: seq<Thread>, threads: seq<Thread>) returns (next: seq<Thread>)
    ensures next == Merged(previous, threads)
  {
    var previousByThreadID := IndexByThreadID(previous);
    next := threads;
    for i := 0 to |threads|
      invariant |next| == |threads|
      invariant forall k :: 0 <= k < i ==> next[k] == Merged(previous, threads)[k]
      invariant forall k :: i <= k < |threads| ==> next[k] == threads[k]
    {
      var threadID := TrimSpace(next[i].threadID);
      if threadID == [] {
        EmptyIsNotBlankKey(previous);
        continue;
      }
      if threadID in previousByThreadID {
        var existing := previousByThreadID[threadID];
        next := next[i := next[i].(lastActivityAt := Latest(existing.lastActivityAt, next[i].lastActivityAt))];
      }
    }
  }

  lemma EmptyIsNotBlankKey(threads: seq<Thread>)
    ensures [] !in ByThreadID(threads)
  {
    assert Blank([]);
    ByThreadIDFinds(threads, []);
  }

  class Store {
    var threadsByMachine: map<Bytes, seq<Thread>>
    var environmentByMachine: map<Bytes, seq<EnvironmentResource>>
    var threadRoutes: Routes

    constructor ()
      ensures View() == EMPTY
    {
      threadsByMachine, environmentByMachine, threadRoutes := map[], map[], map[];
    }

    function View(): Index
      reads this
    {
      Index(threadsByMachine, environmentByMachine, threadRoutes)
    }

    method ReplaceSnapshot(machineID: Bytes, threads: seq<Thread>, environment: seq<EnvironmentResource>)
      modifies this
      ensures View() == old(View()).ReplaceSnapshot(machineID, threads, environment)
    {
      var nextThreads := MergeActivities(View().Threads(machineID), threads);
      threadsByMachine := threadsByMachine[machineID := nextThreads];
      environmentByMachine := environmentByMachine[machineID := environment];
      var kept := DropMachine(threadRoutes, machineID);
      threadRoutes := AddThreads(kept, machineID, threads);
    }

    method UpsertThread(machineID: Bytes, thread: Thread)
      modifies this
      ensures View() == old(View()).UpsertThread(machineID, thread)
    {
      if machineID == [] || thread.threadID == [] {
        return;
      }
      var next := thread;
      if next.machineID == [] {
        next := next.(machineID := machineID);
      }
      var items := View().Threads(machineID);
      var i := 0;
      FindIsFirst(items, next.threadID);
      while i < |items| && items[i].threadID != next.threadID
        invariant 0 <= i <= Find(items, next.threadID)
      {
        i := i + 1;
      }
      if i < |items| {
        next := next.(lastActivityAt := Latest(items[i].lastActivityAt, next.lastActivityAt));
        items := items[i := next];
      } else {
        items := items + [next];
      }
      threadsByMachine := threadsByMachine[machineID := items];
      threadRoutes := threadRoutes[next.threadID := Domain.ThreadRoute(next.machineID, next.agentID)];
    }

    method RemoveThread(machineID: Bytes, threadID: Bytes)
      modifies this
      ensures View() == old(View()).RemoveThread(machineID, threadID)
    {
      if machineID == [] || threadID == [] {
        return;
      }
      var items := View().Threads(machineID);
      var filtered := [];
      for i := 0 to |items|
        invariant filtered == Without(items[..i], threadID)
      {
        assert items[..i + 1][..i] == items[..i];
        if items[i].threadID != threadID {
          filtered := filtered + [items[i]];
        }
      }
      assert items[..|items|] == items;
      threadsByMachine := threadsByMachine[machineID := filtered];
      threadRoutes := threadRoutes - {threadID};
    }

    method ClearMachine(machineID: Bytes)
      modifies this
      ensures View() == old(View()).ClearMachine(machineID)
    {
      if machineID == [] {
        return;
      }
      threadsByMachine := threadsByMachine - {machineID};
      environmentByMachine := environmentByMachine - {machineID};
      threadRoutes := DropMachine(threadRoutes, machineID);
    }

    method MarkMachineUnknown(machineID: Bytes)
      modifies this
      ensures View() == old(View()).MarkMachineUnknown(machineID)
    {
      if machineID == [] {
        return;
      }
      var threads := View().Threads(machineID);
      if |threads| == 0 {
        return;
      }
      var updated := threads;
      for i := 0 to |updated|
        invariant |updated| == |threads|
        invariant forall k :: 0 <= k < i ==> updated[k] == MarkedUnknown(threads)[k]
        invariant forall k :: i <= k < |threads| ==> updated[k] == threads[k]
      {
        updated := updated[i := updated[i].(status := Unknown)];
      }
      assert updated == MarkedUnknown(threads);
      threadsByMachine := threadsByMachine[machineID := updated];
    }

    method ThreadRoute(threadID: Bytes) returns (route: Option<Domain.ThreadRoute>)
      ensures route == if threadID in threadRoutes then Some(threadRoutes[threadID]) else None
    {
      route := if threadID in threadRoutes then Some(threadRoutes[threadID]) else None;
    }
  }
}
