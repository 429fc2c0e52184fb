/** Which machine and agent serve a thread: the router, and the route tables it shares with the
    runtime index. */
module Routing {
  import opened Text
  import opened Domain

  type Routes = map<Bytes, ThreadRoute>

  function RouteOf(machineID: Bytes, thread: Thread): ThreadRoute {
    ThreadRoute(if thread.machineID == [] then machineID else thread.machineID, thread.agentID)
  }

  function WithoutMachine(routes: Routes, machineID: Bytes): Routes {
    map id | id in routes && routes[id].machineID != machineID :: routes[id]
  }

  function WithThreads(routes: Routes, machineID: Bytes, threads: seq<Thread>): Routes {
    if threads == [] then routes
    else
      var last := threads[|threads| - 1];
      var rest := WithThreads(routes, machineID, threads[..|threads| - 1]);
      if last.threadID == [] then rest else rest[last.threadID := RouteOf(machineID, last)]
  }

  /** The table after a snapshot of `machineID`. */
  function Replaced(routes: Routes, machineID: Bytes, threads: seq<Thread>): Routes {
    WithThreads(WithoutMachine(routes, machineID), machineID, threads)
  }

  /** Deletes, while ranging over the table, the entries that point to `machineID`. */
  method DropMachine(routes: Routes, machineID: Bytes) returns (kept: Routes)
    ensures kept == WithoutMachine(routes, machineID)
  {
    kept := routes;
    var unvisited := routes.Keys;
    while unvisited != {}
      invariant unvisited <= routes.Keys
      invariant kept == map id | id in routes && (id in unvisited || routes[id].machineID != machineID) :: routes[id]
      decreases unvisited
    {
      var threadID :| threadID in unvisited;
      unvisited := unvisited - {threadID};
      if kept[threadID].machineID == machineID {
        kept := kept - {threadID};
      }
    }
  }

  /** Enters a machine's threads into the table. */
  method AddThreads(routes: Routes, machineID: Bytes, threads: seq<Thread>) returns (table: Routes)
    ensures table == WithThreads(routes, machineID, threads)
  {
    table := routes;
    for i := 0 to |threads|
      invariant table == WithThreads(routes, machineID, threads[..i])
    {
      assert threads[..i + 1][..i] == threads[..i];
      if threads[i].threadID != [] {
        var owner := threads[i].machineID;
        if owner == [] {
          owner := machineID;
        }
        table := table[threads[i].threadID := ThreadRoute(owner, threads[i].agentID)];
      }
    }
    assert threads[..|threads|] == threads;
  }

  /** What the table holds afterwards: for a listed identifier the route of a thread listed under
      it, for any other identifier what it held before. */
  lemma {:induction false} WithThreadsLooksUp(routes: Routes, machineID: Bytes, threads: seq<Thread>, threadID: Bytes)
    ensures var table := WithThreads(routes, machineID, threads);
            if threadID != [] && Lists(threads, threadID)
            then exists i :: 0 <= i < |threads| && threads[i].threadID == threadID
                             && threadID in table && table[threadID] == RouteOf(machineID, threads[i])
            else (threadID in table <==> threadID in routes)
                 && (threadID in routes ==> table[threadID] == routes[threadID])
  {
    if threads != [] {
      var n := |threads| - 1;
      var init := threads[..n];
      WithThreadsLooksUp(routes, machineID, init, threadID);
      if threadID != [] && Lists(threads, threadID) {
        if threads[n].threadID != threadID {
          var k :| 0 <= k < |threads| && threads[k].threadID == threadID;
          assert init[k].threadID == threadID;
          var i :| 0 <= i < |init| && init[i].threadID == threadID
                   && WithThreads(routes, machineID, init)[threadID] == RouteOf(machineID, init[i]);
          assert threads[i] == init[i];
        }
      }
    }
  }

  /** A snapshot leaves the routes of other machines alone, and drops every route of `machineID`
      that it does not list. */
  lemma ReplacedFramesOtherMachines(routes: Routes, machineID: Bytes, threads: seq<Thread>, threadID: Bytes)
    requires threadID == [] || !Lists(threads, threadID)
    ensures threadID in Replaced(routes, machineID, threads)
       <==> threadID in routes && routes[threadID].machineID != machineID
    ensures threadID in Replaced(routes, machineID, threads) ==>
              Replaced(routes, machineID, threads)[threadID] == routes[threadID]
  {
    WithThreadsLooksUp(WithoutMachine(routes, machineID), machineID, threads, threadID);
  }

  class Router {
    var threads: Routes

    constructor ()
      ensures threads == map[]
    {
      threads := map[];
    }

    method TrackThread(threadID: Bytes, machineID: Bytes, agentID: Bytes)
      modifies this
      ensures threads == if threadID == [] then old(threads)
                         else old(threads)[threadID := ThreadRoute(machineID, agentID)]
    {
      if threadID == [] {
        return;
      }
      threads := threads[threadID := ThreadRoute(machineID, agentID)];
    }

    method ReplaceSnapshot(machineID: Bytes, items: seq<Thread>)
      modifies this
      ensures threads == Replaced(old(threads), machineID, items)
    {
      var kept := DropMachine(threads, machineID);
      threads := AddThreads(kept, machineID, items);
    }

    method ClearMachine(machineID: Bytes)
      modifies this
      ensures threads == if machineID == [] then old(threads) else WithoutMachine(old(threads), machineID)
    {
      if machineID == [] {
        return;
      }
      threads := DropMachine(threads, machineID);
    }

    method ResolveThread(threadID: Bytes) returns (route: Option<ThreadRoute>)
      ensures route == if threadID in threads then Some(threads[threadID]) else None
    {
      route := if threadID in threads then Some(threads[threadID]) else None;
    }
  }
}
