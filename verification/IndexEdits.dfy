/** HTTP handlers that edit the runtime index behind the hub's back: when the hub's next store makes
    the index a copy of the hub's own list again. */
module IndexEdits {
  import opened Text
  import opened Activity
  import opened Domain
  import opened RuntimeIndex
  import opened ClientHub
  import opened HubAgreement

  function WithUpsert(hub: Hub, machineID: Bytes, thread: Thread): Hub {
    hub.(index := hub.index.UpsertThread(machineID, thread))
  }

  function WithRemoval(hub: Hub, machineID: Bytes, threadID: Bytes): Hub {
    hub.(index := hub.index.RemoveThread(machineID, threadID))
  }

  /** The index knows no later activity of the thread than it is now said to have. */
  predicate NotOutdated(indexed: seq<Thread>, thread: Thread) {
    thread.threadID in ByThreadID(indexed) ==>
      NotAfter(ByThreadID(indexed)[thread.threadID].lastActivityAt, thread.lastActivityAt)
  }

  lemma MergedOneIff(indexed: seq<Thread>, thread: Thread)
    requires Trimmed(thread.threadID)
    ensures Canonical(WithKnownActivity(ByThreadID(indexed), TrimSpace(thread.threadID), thread)) == Canonical(thread)
       <==> NotOutdated(indexed, thread)
  {
    if thread.threadID in ByThreadID(indexed) {
      var known := ByThreadID(indexed)[thread.threadID];
      NotAfterIffLatest(known.lastActivityAt, thread.lastActivityAt);
      LatestIsSemilattice(known.lastActivityAt, thread.lastActivityAt, NO_STAMP);
    }
  }

  /** Merging makes a copy exactly if nothing that is listed is outdated. */
  lemma MergedCopiesIff(indexed: seq<Thread>, after: seq<Thread>)
    requires WellFormed(after)
    ensures Copies(Merged(indexed, after), after) <==> forall listed <- after :: NotOutdated(indexed, listed)
  {
    var merged := Merged(indexed, after);
    forall i | 0 <= i < |after|
      ensures Canonical(merged[i]) == Canonical(after[i]) <==> NotOutdated(indexed, after[i])
    {
      MergedOneIff(indexed, after[i]);
    }
  }

  lemma CopyIsWellFormed(indexed: seq<Thread>, before: seq<Thread>)
    requires Copies(indexed, before) && WellFormed(before)
    ensures WellFormed(indexed)
    ensures forall i :: 0 <= i < |indexed| ==> indexed[i].threadID == before[i].threadID
  {
    assert forall i :: 0 <= i < |indexed| ==> Canonical(indexed[i]).threadID == Canonical(before[i]).threadID;
  }

  /** Before an edit nothing that the hub is about to store is outdated. */
  lemma CopyIsNotOutdated(indexed: seq<Thread>, before: seq<Thread>, after: seq<Thread>, listed: Thread)
    requires Copies(indexed, before) && NeverOlder(before, after) && WellFormed(after) && listed in after
    ensures NotOutdated(indexed, listed)
  {
    var j :| 0 <= j < |after| && after[j] == listed;
    MergedCopy(indexed, before, listed);
    MergedOneIff(indexed, listed);
  }

  /** What an edited list knows of a thread: of the edited one the later activity, of any other what it
      knew before. */
  lemma UpsertedKnows(indexed: seq<Thread>, thread: Thread, id: Bytes)
    requires WellFormed(indexed) && Trimmed(thread.threadID) && thread.threadID != [] && Trimmed(id) && id != []
    ensures var known, edited := ByThreadID(indexed), ByThreadID(Upserted(indexed, thread));
      if id != thread.threadID then
        (id in edited <==> id in known) && (id in edited ==> edited[id] == known[id])
      else
        id in edited && edited[id].lastActivityAt
          == if id in known then Latest(known[id].lastActivityAt, thread.lastActivityAt) else thread.lastActivityAt
  {
    var edited, at := Upserted(indexed, thread), Find(indexed, thread.threadID);
    UpsertedIsFine(indexed, thread);
    FindIsFirst(indexed, thread.threadID);
    TrimmedIsNotBlank(id);
    ByThreadIDFinds(indexed, id);
    ByThreadIDFinds(edited, id);
    if id == thread.threadID {
      KnowsItsThreads(edited, at);
      if at < |indexed| {
        KnowsItsThreads(indexed, at);
      }
    } else {
      OthersAreListedAlike(indexed, thread, id);
    }
  }

  lemma OthersAreListedAlike(indexed: seq<Thread>, thread: Thread, id: Bytes)
    requires WellFormed(indexed) && Trimmed(thread.threadID) && thread.threadID != []
    requires Trimmed(id) && id != [] && id != thread.threadID
    ensures var known, edited := ByThreadID(indexed), ByThreadID(Upserted(indexed, thread));
      (id in edited <==> id in known) && (id in edited ==> edited[id] == known[id])
  {
    var edited := Upserted(indexed, thread);
    UpsertedIsFine(indexed, thread);
    TrimmedIsNotBlank(id);
    ByThreadIDFinds(indexed, id);
    ByThreadIDFinds(edited, id);
    assert forall k :: 0 <= k < |edited| && edited[k].threadID == id ==> k < |indexed| && indexed[k].threadID == id;
    if k :| 0 <= k < |indexed| && indexed[k].threadID == id {
      KnowsItsThreads(indexed, k);
      assert edited[k] == indexed[k];
      KnowsItsThreads(edited, k);
    }
  }

  /** An edited list outdates a thread that is about to be stored only if it is the edited one, and
      the edit carries a later activity. */
  lemma EditOutdatesIff(indexed: seq<Thread>, before: seq<Thread>, after: seq<Thread>, thread: Thread, listed: Thread)
    requires Copies(indexed, before) && NeverOlder(before, after) && WellFormed(before) && WellFormed(after)
    requires Trimmed(thread.threadID) && thread.threadID != [] && listed in after
    ensures NotOutdated(Upserted(indexed, thread), listed)
       <==> (listed.threadID == thread.threadID ==> NotAfter(thread.lastActivityAt, listed.lastActivityAt))
  {
    var id := listed.threadID;
    var j :| 0 <= j < |after| && after[j] == listed;
    CopyIsWellFormed(indexed, before);
    CopyIsNotOutdated(indexed, before, after, listed);
    if id == [] {
      assert Blank([]);
      ByThreadIDFinds(Upserted(indexed, thread), []);
    } else {
      UpsertedKnows(indexed, thread, id);
      if id == thread.threadID && id in ByThreadID(indexed) {
        LatestIsLeastUpperBound(ByThreadID(indexed)[id].lastActivityAt, thread.lastActivityAt, listed.lastActivityAt);
        var known := ByThreadID(indexed)[id];
        JoinIsBelowIff(known.lastActivityAt, thread.lastActivityAt, listed.lastActivityAt);
      }
    }
  }

  lemma JoinIsBelowIff(a: Stamp, b: Stamp, bound: Stamp)
    ensures NotAfter(Latest(a, b), bound) <==> NotAfter(a, bound) && NotAfter(b, bound)
  {
  }

  /** After an edit of the index that upserts a thread, the hub's next store of the machine restores
      the copy exactly if the edit carries no later activity than the stored list has for the thread;
      a list that no longer has the thread is copied in any case. */
  lemma NextStoreRestoresIff(hub: Hub, machineID: Bytes, thread: Thread, state: MachineState)
    requires Faithful(hub) && machineID != [] && Trimmed(thread.threadID) && thread.threadID != []
    requires WellFormed(state.threads) && NeverOlder(hub.Snapshot(machineID).threads, state.threads)
    ensures Faithful(WithUpsert(hub, machineID, thread).Store(machineID, state))
       <==> forall listed <- state.threads :: listed.threadID == thread.threadID ==>
              NotAfter(thread.lastActivityAt, listed.lastActivityAt)
  {
    var edited := WithUpsert(hub, machineID, thread);
    var owned := if thread.machineID == [] then thread.(machineID := machineID) else thread;
    var indexed, before := hub.index.Threads(machineID), hub.Snapshot(machineID).threads;
    assert MachineFaithful(hub, machineID);
    assert edited.index.Threads(machineID) == Upserted(indexed, owned);
    forall listed <- state.threads
      ensures NotOutdated(Upserted(indexed, owned), listed)
         <==> (listed.threadID == thread.threadID ==> NotAfter(thread.lastActivityAt, listed.lastActivityAt))
    {
      EditOutdatesIff(indexed, before, state.threads, owned, listed);
    }
    MergedCopiesIff(Upserted(indexed, owned), state.threads);
    StoredFaithfulIff(hub, edited, machineID, state);
  }

  /** Only the stored machine is in question: an edit of its list leaves the others alone. */
  lemma StoredFaithfulIff(hub: Hub, edited: Hub, machineID: Bytes, state: MachineState)
    requires Faithful(hub) && WellFormed(state.threads) && edited.snapshots == hub.snapshots
    requires edited.index.environment == hub.index.environment
    requires forall other: Bytes | other != machineID :: edited.index.Threads(other) == hub.index.Threads(other)
    ensures Faithful(edited.Store(machineID, state))
       <==> Copies(Merged(edited.index.Threads(machineID), state.threads), state.threads)
  {
    var next := edited.Store(machineID, state);
    forall other: Bytes | other != machineID
      ensures MachineFaithful(next, other)
    {
      OtherStaysFaithful(hub, edited, machineID, state, other);
    }
    StoredIsFaithfulIff(edited, machineID, state);
    if MachineFaithful(next, machineID) {
      assert Faithful(next);
    }
  }

  lemma OtherStaysFaithful(hub: Hub, edited: Hub, machineID: Bytes, state: MachineState, other: Bytes)
    requires Faithful(hub) && edited.snapshots == hub.snapshots && other != machineID
    requires edited.index.environment == hub.index.environment
        && edited.index.Threads(other) == hub.index.Threads(other)
    ensures MachineFaithful(edited.Store(machineID, state), other)
  {
    assert MachineFaithful(hub, other);
  }

  lemma StoredIsFaithfulIff(edited: Hub, machineID: Bytes, state: MachineState)
    requires WellFormed(state.threads)
    ensures MachineFaithful(edited.Store(machineID, state), machineID)
       <==> Copies(Merged(edited.index.Threads(machineID), state.threads), state.threads)
  {
  }

  /** A removal is undone by any store that still lists the thread, and leaves nothing to outdate it. */
  lemma NextStoreUndoesRemoval(hub: Hub, machineID: Bytes, threadID: Bytes, state: MachineState)
    requires Faithful(hub) && machineID != [] && threadID != []
    requires WellFormed(state.threads) && NeverOlder(hub.Snapshot(machineID).threads, state.threads)
    ensures Faithful(WithRemoval(hub, machineID, threadID).Store(machineID, state))
  {
    var edited := WithRemoval(hub, machineID, threadID);
    var indexed, before := hub.index.Threads(machineID), hub.Snapshot(machineID).threads;
    assert MachineFaithful(hub, machineID);
    CopyIsWellFormed(indexed, before);
    WithoutIsFine(indexed, threadID);
    var kept := Without(indexed, threadID);
    assert edited.index.Threads(machineID) == kept;
    forall listed <- state.threads
      ensures NotOutdated(kept, listed)
    {
      CopyIsNotOutdated(indexed, before, state.threads, listed);
      RemovalOutdatesNothing(indexed, threadID, listed);
    }
    MergedCopiesIff(kept, state.threads);
    StoredFaithfulIff(hub, edited, machineID, state);
  }

  lemma RemovalOutdatesNothing(indexed: seq<Thread>, threadID: Bytes, listed: Thread)
    requires WellFormed(indexed) && WellFormed(Without(indexed, threadID)) && NotOutdated(indexed, listed)
    ensures NotOutdated(Without(indexed, threadID), listed)
  {
    var kept, id := Without(indexed, threadID), listed.threadID;
    ByThreadIDFinds(kept, id);
    if id in ByThreadID(kept) {
      var k :| 0 <= k < |kept| && kept[k].threadID == id && kept[k] == ByThreadID(kept)[id];
      WithoutKeepsTheOthers(indexed, threadID, kept[k]);
      var i :| 0 <= i < |indexed| && indexed[i] == kept[k];
      assert Blank([]);
      KnowsItsThreads(indexed, i);
    }
  }
}
