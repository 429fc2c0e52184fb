/** The route table of the runtime index agrees with a scan of its thread lists. */
module IndexRoutes {
  import opened Text
  import opened Domain
  import opened Routing
  import opened RuntimeIndex

  datatype Operation =
    | Replace(machineID: Bytes, threads: seq<Thread>, environment: seq<EnvironmentResource>)
    | Upsert(machineID: Bytes, thread: Thread)
    | Remove(machineID: Bytes, threadID: Bytes)
    | Clear(machineID: Bytes)
    | MarkUnknown(machineID: Bytes)

  /** The thread lives on `machineID` and says so, or says nothing. */
  predicate HomedAt(thread: Thread, machineID: Bytes, home: Bytes -> Bytes) {
    && (thread.machineID == [] || thread.machineID == machineID)
    && (thread.threadID != [] ==> home(thread.threadID) == machineID)
  }

  /** Threads live on one machine each, and no list names one twice. */
  predicate Allowed(operation: Operation, home: Bytes -> Bytes) {
    match operation
    case Replace(machineID, threads, _) => Storable(threads, machineID, home)
    case Upsert(machineID, thread) => HomedAt(thread, machineID, home)
    case Remove(machineID, threadID) => threadID != [] ==> home(threadID) == machineID
    case _ => true
  }

  function Apply(index: Index, operation: Operation): Index {
    match operation
    case Replace(machineID, threads, environment) => index.ReplaceSnapshot(machineID, threads, environment)
    case Upsert(machineID, thread) => index.UpsertThread(machineID, thread)
    case Remove(machineID, threadID) => index.RemoveThread(machineID, threadID)
    case Clear(machineID) => index.ClearMachine(machineID)
    case MarkUnknown(machineID) => index.MarkMachineUnknown(machineID)
  }

  function ApplyAll(index: Index, operations: seq<Operation>): Index {
    if operations == [] then index
    else Apply(ApplyAll(index, operations[..|operations| - 1]), operations[|operations| - 1])
  }

  /** A list as it may be stored for `machineID`: every thread homed there, none named twice. */
  predicate Storable(threads: seq<Thread>, machineID: Bytes, home: Bytes -> Bytes) {
    && (forall i :: 0 <= i < |threads| ==> HomedAt(threads[i], machineID, home))
    && (forall i, j :: 0 <= i < j < |threads| ==>
          threads[i].threadID != threads[j].threadID || threads[i].threadID == [])
  }

  /** A linear scan of one machine's list for a thread's route. */
  function Scan(threads: seq<Thread>, machineID: Bytes, threadID: Bytes): Option<ThreadRoute> {
    var i := Find(threads, threadID);
    if threadID != [] && i < |threads| then Some(RouteOf(machineID, threads[i])) else None
  }

  function LookUp(routes: Routes, threadID: Bytes): Option<ThreadRoute> {
    if threadID in routes then Some(routes[threadID]) else None
  }

  ghost predicate Agreement(index: Index, home: Bytes -> Bytes) {
    && (forall m <- index.threads :: Storable(index.threads[m], m, home))
    && (forall id: Bytes :: LookUp(index.routes, id) == Scan(index.Threads(home(id)), home(id), id))
  }

  /** With agreement it does not matter which machine's list is scanned. */
  lemma AnyScanFindsTheRoute(index: Index, home: Bytes -> Bytes, machineID: Bytes, threadID: Bytes)
    requires Agreement(index, home)
    requires Scan(index.Threads(machineID), machineID, threadID).Some?
    ensures LookUp(index.routes, threadID) == Scan(index.Threads(machineID), machineID, threadID)
  {
    var i := Find(index.Threads(machineID), threadID);
    assert HomedAt(index.Threads(machineID)[i], machineID, home);
  }

  lemma {:induction false} FindsAlike(xs: seq<Thread>, ys: seq<Thread>, threadID: Bytes)
    requires |xs| == |ys|
    requires forall i :: 0 <= i < |xs| ==> xs[i].threadID == ys[i].threadID
    ensures Find(xs, threadID) == Find(ys, threadID)
  {
    if xs != [] {
      FindsAlike(xs[1..], ys[1..], threadID);
    }
  }

  /** The lists agree on identifiers, machines and agents, which is all that routing looks at. */
  predicate RoutedAlike(xs: seq<Thread>, ys: seq<Thread>) {
    && |xs| == |ys|
    && (forall i :: 0 <= i < |xs| ==> xs[i].threadID == ys[i].threadID)
    && (forall i :: 0 <= i < |xs| ==> xs[i].machineID == ys[i].machineID)
    && (forall i :: 0 <= i < |xs| ==> xs[i].agentID == ys[i].agentID)
  }

  lemma ScansAlike(xs: seq<Thread>, ys: seq<Thread>, machineID: Bytes, threadID: Bytes)
    requires RoutedAlike(xs, ys)
    ensures Scan(xs, machineID, threadID) == Scan(ys, machineID, threadID)
  {
    FindsAlike(xs, ys, threadID);
  }

  /** Entering a list of distinct names makes the table answer like a scan of the list, and leaves
      the other entries as they were. */
  lemma TableAfterSnapshot(routes: Routes, machineID: Bytes, threads: seq<Thread>, home: Bytes -> Bytes,
      threadID: Bytes)
    requires Storable(threads, machineID, home)
    ensures LookUp(WithThreads(routes, machineID, threads), threadID)
         == if Scan(threads, machineID, threadID).Some? then Scan(threads, machineID, threadID)
            else LookUp(routes, threadID)
  {
    WithThreadsLooksUp(routes, machineID, threads, threadID);
    FindIsFirst(threads, threadID);
    var at := Find(threads, threadID);
    if threadID != [] && at < |threads| {
      assert Lists(threads, threadID);
    }
  }

  /** What a scan of a storable list finds is a route to the machine that is home to the thread. */
  lemma ScanFindsHome(threads: seq<Thread>, machineID: Bytes, home: Bytes -> Bytes, threadID: Bytes)
    requires Storable(threads, machineID, home)
    requires Scan(threads, machineID, threadID).Some?
    ensures home(threadID) == machineID && Scan(threads, machineID, threadID).value.machineID == machineID
  {
    assert HomedAt(threads[Find(threads, threadID)], machineID, home);
  }

  lemma StoredIsStorable(index: Index, machineID: Bytes, home: Bytes -> Bytes)
    requires Agreement(index, home)
    ensures Storable(index.Threads(machineID), machineID, home)
  {
  }

  lemma MergedIsStorable(previous: seq<Thread>, threads: seq<Thread>, machineID: Bytes, home: Bytes -> Bytes)
    requires Storable(threads, machineID, home)
    ensures Storable(Merged(previous, threads), machineID, home)
    ensures RoutedAlike(threads, Merged(previous, threads))
  {
    var merged := Merged(previous, threads);
    forall i | 0 <= i < |merged|
      ensures HomedAt(merged[i], machineID, home)
    {
      assert HomedAt(threads[i], machineID, home);
    }
  }

  /** Dropping a machine's routes removes exactly the routes of the threads homed there. */
  lemma TableWithoutMachine(index: Index, machineID: Bytes, home: Bytes -> Bytes, threadID: Bytes)
    requires Agreement(index, home)
    ensures LookUp(WithoutMachine(index.routes, machineID), threadID)
         == if home(threadID) == machineID then None else LookUp(index.routes, threadID)
  {
    var there := home(threadID);
    assert LookUp(index.routes, threadID) == Scan(index.Threads(there), there, threadID);
    StoredIsStorable(index, there, home);
    if threadID in index.routes {
      ScanFindsHome(index.Threads(there), there, home, threadID);
    }
  }

  lemma ReplaceKeepsAgreement(index: Index, machineID: Bytes, threads: seq<Thread>,
      environment: seq<EnvironmentResource>, home: Bytes -> Bytes)
    requires Agreement(index, home) && Storable(threads, machineID, home)
    ensures Agreement(index.ReplaceSnapshot(machineID, threads, environment), home)
  {
    var merged := Merged(index.Threads(machineID), threads);
    MergedIsStorable(index.Threads(machineID), threads, machineID, home);
    var table := Replaced(index.routes, machineID, threads);
    forall id: Bytes
      ensures LookUp(table, id) == Scan(if home(id) == machineID then merged else index.Threads(home(id)), home(id), id)
    {
      assert LookUp(index.routes, id) == Scan(index.Threads(home(id)), home(id), id);
      TableAfterSnapshot(WithoutMachine(index.routes, machineID), machineID, threads, home, id);
      TableWithoutMachine(index, machineID, home, id);
      ScansAlike(threads, merged, machineID, id);
      if Scan(threads, machineID, id).Some? {
        ScanFindsHome(threads, machineID, home, id);
      }
    }
    var next := index.ReplaceSnapshot(machineID, threads, environment);
    assert next.routes == table;
    assert forall id: Bytes :: next.Threads(home(id)) == if home(id) == machineID then merged
        else index.Threads(home(id));
  }

  lemma {:induction false} FindInUpserted(threads: seq<Thread>, thread: Thread, threadID: Bytes)
    ensures var i, k := Find(threads, threadID), Find(Upserted(threads, thread), threadID);
            && (threadID == thread.threadID ==> k == i && k < |Upserted(threads, thread)|)
            && (threadID != thread.threadID ==>
                  (i < |threads| <==> k < |Upserted(threads, thread)|) && (i < |threads| ==> k == i))
  {
    var after := Upserted(threads, thread);
    var i, k := Find(threads, threadID), Find(after, threadID);
    FindIsFirst(threads, threadID);
    FindIsFirst(after, threadID);
    FindIsFirst(threads, thread.threadID);
    if threadID == thread.threadID {
      assert after[i].threadID == threadID;
      assert forall j :: 0 <= j < i ==> after[j] == threads[j];
    } else {
      assert forall j :: 0 <= j < |threads| ==> after[j].threadID == threads[j].threadID;
    }
  }

  lemma UpsertedIsStorable(threads: seq<Thread>, thread: Thread, machineID: Bytes, home: Bytes -> Bytes)
    requires Storable(threads, machineID, home) && HomedAt(thread, machineID, home)
    ensures Storable(Upserted(threads, thread), machineID, home)
  {
    FindIsFirst(threads, thread.threadID);
  }

  /** A scan after an upsert finds the new thread's route, and otherwise what it found before. */
  lemma ScanUpserted(threads: seq<Thread>, thread: Thread, machineID: Bytes, threadID: Bytes)
    requires thread.threadID != []
    ensures Scan(Upserted(threads, thread), machineID, threadID)
         == if threadID == thread.threadID then Some(RouteOf(machineID, thread)) else Scan(threads, machineID, threadID)
  {
    FindInUpserted(threads, thread, threadID);
  }

  lemma UpsertKeepsAgreement(index: Index, machineID: Bytes, thread: Thread, home: Bytes -> Bytes)
    requires Agreement(index, home) && HomedAt(thread, machineID, home)
    ensures Agreement(index.UpsertThread(machineID, thread), home)
  {
    if machineID != [] && thread.threadID != [] {
      var owned := if thread.machineID == [] then thread.(machineID := machineID) else thread;
      var before := index.Threads(machineID);
      StoredIsStorable(index, machineID, home);
      UpsertedIsStorable(before, owned, machineID, home);
      var next := index.UpsertThread(machineID, thread);
      forall id: Bytes
        ensures LookUp(next.routes, id) == Scan(next.Threads(home(id)), home(id), id)
      {
        assert LookUp(index.routes, id) == Scan(index.Threads(home(id)), home(id), id);
        ScanUpserted(before, owned, machineID, id);
      }
    }
  }

  lemma {:induction false} WithoutKeepsOrder(threads: seq<Thread>, threadID: Bytes, i: nat, j: nat)
    requires i < j < |Without(threads, threadID)|
    ensures exists a, b :: 0 <= a < b < |threads| && threads[a] == Without(threads, threadID)[i]
                           && threads[b] == Without(threads, threadID)[j]
  {
    var init, last := threads[..|threads| - 1], threads[|threads| - 1];
    var kept := Without(init, threadID);
    if j < |kept| {
      WithoutKeepsOrder(init, threadID, i, j);
      var a, b :| 0 <= a < b < |init| && init[a] == kept[i] && init[b] == kept[j];
      assert threads[a] == init[a] && threads[b] == init[b];
    } else {
      WithoutKeepsTheOthers(init, threadID, kept[i]);
      var a :| 0 <= a < |init| && init[a] == kept[i];
      assert threads[a] == init[a] && threads[|threads| - 1] == last;
    }
  }

  lemma WithoutIsStorable(threads: seq<Thread>, threadID: Bytes, machineID: Bytes, home: Bytes -> Bytes)
    requires Storable(threads, machineID, home)
    ensures Storable(Without(threads, threadID), machineID, home)
  {
    var kept := Without(threads, threadID);
    forall i | 0 <= i < |kept|
      ensures HomedAt(kept[i], machineID, home)
    {
      WithoutKeepsTheOthers(threads, threadID, kept[i]);
    }
    forall i, j | 0 <= i < j < |kept|
      ensures kept[i].threadID != kept[j].threadID || kept[i].threadID == []
    {
      WithoutKeepsOrder(threads, threadID, i, j);
    }
  }

  lemma ScanWithout(threads: seq<Thread>, threadID: Bytes, machineID: Bytes, home: Bytes -> Bytes, id: Bytes)
    requires Storable(threads, machineID, home)
    ensures Scan(Without(threads, threadID), machineID, id)
         == if id == threadID then None else Scan(threads, machineID, id)
  {
    WithoutIsStorable(threads, threadID, machineID, home);
    var kept := Without(threads, threadID);
    var i, k := Find(threads, id), Find(kept, id);
    FindIsFirst(threads, id);
    FindIsFirst(kept, id);
    if k < |kept| {
      WithoutKeepsTheOthers(threads, threadID, kept[k]);
    }
    if i < |threads| && id != threadID {
      WithoutKeepsTheOthers(threads, threadID, threads[i]);
    }
  }

  lemma RemoveKeepsAgreement(index: Index, machineID: Bytes, threadID: Bytes, home: Bytes -> Bytes)
    requires Agreement(index, home)
    requires threadID != [] ==> home(threadID) == machineID
    ensures Agreement(index.RemoveThread(machineID, threadID), home)
  {
    if machineID != [] && threadID != [] {
      var next := index.RemoveThread(machineID, threadID);
      WithoutIsStorable(index.Threads(machineID), threadID, machineID, home);
      forall id: Bytes
        ensures LookUp(next.routes, id) == Scan(next.Threads(home(id)), home(id), id)
      {
        assert LookUp(index.routes, id) == Scan(index.Threads(home(id)), home(id), id);
        ScanWithout(index.Threads(machineID), threadID, machineID, home, id);
      }
    }
  }

  lemma ClearKeepsAgreement(index: Index, machineID: Bytes, home: Bytes -> Bytes)
    requires Agreement(index, home)
    ensures Agreement(index.ClearMachine(machineID), home)
  {
    var next := index.ClearMachine(machineID);
    forall id: Bytes
      ensures LookUp(next.routes, id) == Scan(next.Threads(home(id)), home(id), id)
    {
      assert LookUp(index.routes, id) == Scan(index.Threads(home(id)), home(id), id);
      var at := Find(index.Threads(home(id)), id);
      if id != [] && at < |index.Threads(home(id))| {
        assert HomedAt(index.Threads(home(id))[at], home(id), home);
      }
    }
  }

  lemma MarkUnknownKeepsAgreement(index: Index, machineID: Bytes, home: Bytes -> Bytes)
    requires Agreement(index, home)
    ensures Agreement(index.MarkMachineUnknown(machineID), home)
  {
    var next := index.MarkMachineUnknown(machineID);
    forall id: Bytes
      ensures LookUp(next.routes, id) == Scan(next.Threads(home(id)), home(id), id)
    {
      assert LookUp(index.routes, id) == Scan(index.Threads(home(id)), home(id), id);
      ScansAlike(index.Threads(home(id)), next.Threads(home(id)), home(id), id);
    }
  }

  lemma ApplyKeepsAgreement(index: Index, operation: Operation, home: Bytes -> Bytes)
    requires Agreement(index, home) && Allowed(operation, home)
    ensures Agreement(Apply(index, operation), home)
  {
    match operation
    case Replace(machineID, threads, environment) =>
      ReplaceKeepsAgreement(index, machineID, threads, environment, home);
    case Upsert(machineID, thread) => UpsertKeepsAgreement(index, machineID, thread, home);
    case Remove(machineID, threadID) => RemoveKeepsAgreement(index, machineID, threadID, home);
    case Clear(machineID) => ClearKeepsAgreement(index, machineID, home);
    case MarkUnknown(machineID) => MarkUnknownKeepsAgreement(index, machineID, home);
  }

  /** After any sequence of operations on an empty index, table and scan give the same answer for
      every thread. */
  lemma {:induction false} TableAgreesWithScan(operations: seq<Operation>, home: Bytes -> Bytes)
    requires forall i :: 0 <= i < |operations| ==> Allowed(operations[i], home)
    ensures Agreement(ApplyAll(EMPTY, operations), home)
  {
    if operations != [] {
      TableAgreesWithScan(operations[..|operations| - 1], home);
      ApplyKeepsAgreement(ApplyAll(EMPTY, operations[..|operations| - 1]), operations[|operations| - 1], home);
    }
  }

  // ----- router and index -----

  function RoutesTo(routes: Routes, machineID: Bytes): Routes {
    map id | id in routes && routes[id].machineID == machineID :: routes[id]
  }

  lemma {:induction false} OnlyTheSnapshotRoutesThere(routes: Routes, machineID: Bytes, threads: seq<Thread>)
    requires RoutesTo(routes, machineID) == map[]
    requires forall i :: 0 <= i < |threads| ==> threads[i].machineID == [] || threads[i].machineID == machineID
    ensures RoutesTo(WithThreads(routes, machineID, threads), machineID) == WithThreads(map[], machineID, threads)
  {
    if threads != [] {
      OnlyTheSnapshotRoutesThere(routes, machineID, threads[..|threads| - 1]);
    } else {
      assert WithThreads(routes, machineID, threads) == routes;
    }
  }

  lemma {:induction false} RoutedAlikeGivesOneTable(machineID: Bytes, xs: seq<Thread>, ys: seq<Thread>)
    requires RoutedAlike(xs, ys)
    ensures WithThreads(map[], machineID, xs) == WithThreads(map[], machineID, ys)
  {
    if xs != [] {
      var n := |xs| - 1;
      RoutedAlikeGivesOneTable(machineID, xs[..n], ys[..n]);
      assert RouteOf(machineID, xs[n]) == RouteOf(machineID, ys[n]);
    }
  }

  /** Two tables that receive the same snapshot, whatever they held before and however each of them
      merged timestamps, afterwards hold the same routes to that machine. */
  lemma SnapshotRoutesAlike(first: Routes, second: Routes, machineID: Bytes, xs: seq<Thread>, ys: seq<Thread>)
    requires RoutedAlike(xs, ys)
    requires forall i :: 0 <= i < |xs| ==> xs[i].machineID == [] || xs[i].machineID == machineID
    ensures RoutesTo(Replaced(first, machineID, xs), machineID) == RoutesTo(Replaced(second, machineID, ys), machineID)
  {
    OnlyTheSnapshotRoutesThere(WithoutMachine(first, machineID), machineID, xs);
    OnlyTheSnapshotRoutesThere(WithoutMachine(second, machineID), machineID, ys);
    RoutedAlikeGivesOneTable(machineID, xs, ys);
  }
}
