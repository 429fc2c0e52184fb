/** What the consoles are delivered when broadcasts overlap. A broadcast copies the list of clients under
    the lock and then goes through its copy without it; meanwhile writers write, consoles come and go,
    and other broadcasts go through copies of their own. */
module ConsoleDelivery {
  import opened Text
  import opened ConsoleHub

  /** A broadcast: the clients it has copied, those it has not come to yet, and the one whose queue it has
      found full and which it is about to drop. */
  datatype Cast = Cast(envelope: Envelope, copy: set<ConnID>, todo: set<ConnID>, dropping: Option<ConnID>)

  /** `joined` is the number of broadcasts begun before each console joined, `taken` the broadcasts whose
      frame its queue has taken, in order, and `refused` those that found it full. */
  datatype World = World(
    hub: Hub,
    casts: seq<Cast>,
    joined: map<ConnID, nat>,
    taken: map<ConnID, seq<nat>>,
    refused: map<ConnID, set<nat>>)
  {
    function Taken(conn: ConnID): seq<nat> {
      if conn in taken then taken[conn] else []
    }

    function Refused(conn: ConnID): set<nat> {
      if conn in refused then refused[conn] else {}
    }
  }

  const INITIAL := World(NO_CONSOLES, [], map[], map[], map[])

  datatype Step =
    | JoinStep(conn: ConnID, query: Bytes)
    | BeginStep(envelope: Envelope)
    | OfferStep(b: nat, conn: ConnID)
    | DropStep(b: nat)
    | TakeStep(conn: ConnID)
    | WrittenStep(conn: ConnID)
    | FailedStep(conn: ConnID)
    | LeaveStep(conn: ConnID)
    | StopWriterStep(conn: ConnID)

  predicate Enabled(w: World, step: Step) {
    match step
    case JoinStep(conn, _) => conn !in w.hub.connections
    case BeginStep(_) => true
    case OfferStep(b, conn) =>
      b < |w.casts| && conn in w.casts[b].todo && w.casts[b].dropping.None? && conn in w.hub.connections
    case DropStep(b) => b < |w.casts| && w.casts[b].dropping.Some?
    case TakeStep(conn) => w.hub.CanTake(conn)
    case WrittenStep(conn) => w.hub.InWrite(conn)
    case FailedStep(conn) => w.hub.InWrite(conn)
    case LeaveStep(conn) => conn in w.hub.connections
    case StopWriterStep(conn) => conn in w.hub.connections && w.hub.connections[conn].done
  }

  /** The broadcast comes to a client of its copy. */
  function Offered(w: World, b: nat, conn: ConnID): World
    requires Enabled(w, OfferStep(b, conn))
  {
    var cast, c := w.casts[b], w.hub.connections[conn];
    var passed := cast.(todo := cast.todo - {conn});
    if !ShouldDeliver(c.threadID, cast.envelope) then w.(casts := w.casts[b := passed])
    else if c.Full() then
      w.(casts := w.casts[b := passed.(dropping := Some(conn))],
         refused := w.refused[conn := w.Refused(conn) + {b}])
    else
      w.(casts := w.casts[b := passed],
         hub := w.hub.(connections := w.hub.connections[conn := c.(outbound := c.outbound + [cast.envelope])]),
         taken := w.taken[conn := w.Taken(conn) + [b]])
  }

  function Apply(w: World, step: Step): World
    requires Enabled(w, step)
  {
    match step
    case JoinStep(conn, query) => w.(hub := w.hub.Join(conn, query), joined := w.joined[conn := |w.casts|])
    case BeginStep(envelope) => w.(casts := w.casts + [Cast(envelope, w.hub.clients, w.hub.clients, None)])
    case OfferStep(b, conn) => Offered(w, b, conn)
    case DropStep(b) =>
      w.(hub := w.hub.Remove(w.casts[b].dropping.value), casts := w.casts[b := w.casts[b].(dropping := None)])
    case TakeStep(conn) => w.(hub := w.hub.Take(conn))
    case WrittenStep(conn) => w.(hub := w.hub.Written(conn))
    case FailedStep(conn) => w.(hub := w.hub.Failed(conn))
    case LeaveStep(conn) => w.(hub := w.hub.Remove(conn))
    case StopWriterStep(conn) => w.(hub := w.hub.StopWriter(conn))
  }

  ghost predicate Reaches(steps: seq<Step>, v: World)
    decreases |steps|
  {
    if steps == [] then v == INITIAL
    else
      var n := |steps| - 1;
      exists u :: Reaches(steps[..n], u) && Enabled(u, steps[n]) && v == Apply(u, steps[n])
  }

  // ----- what a console is due -----

  /** The broadcast was begun when the console was registered, and is of a frame that it is due. */
  predicate Concerns(w: World, conn: ConnID, b: nat) {
    && b < |w.casts| && conn in w.casts[b].copy && conn in w.hub.connections
    && IsDue(w.casts[b].envelope, w.hub.connections[conn].threadID)
  }

  /** The broadcasts that concern a console, in the order in which they began; the first `n` of all. */
  function DueOf(w: World, conn: ConnID, n: nat): seq<nat>
    requires n <= |w.casts|
  {
    if n == 0 then [] else DueOf(w, conn, n - 1) + if Concerns(w, conn, n - 1) then [n - 1] else []
  }

  function Due(w: World, conn: ConnID): seq<nat> {
    DueOf(w, conn, |w.casts|)
  }

  predicate Begun(w: World, ids: seq<nat>) {
    forall i :: 0 <= i < |ids| ==> ids[i] < |w.casts|
  }

  /** The frames of these broadcasts. */
  function FramesOf(w: World, ids: seq<nat>): seq<Envelope>
    requires Begun(w, ids)
  {
    seq(|ids|, i requires 0 <= i < |ids| => w.casts[ids[i]].envelope)
  }

  // ----- the invariant -----

  predicate CastInOrder(w: World, b: nat)
    requires b < |w.casts|
  {
    var cast := w.casts[b];
    && cast.todo <= cast.copy <= w.hub.connections.Keys
    && (cast.dropping.Some? ==>
          && cast.dropping.value in cast.copy && cast.dropping.value !in cast.todo
          && b in w.Refused(cast.dropping.value))
  }

  /** A broadcast that concerns the console has been taken, was refused, or is still to come to it; while
      the console is registered a refusal is followed by its removal. */
  predicate BroadcastInOrder(w: World, conn: ConnID, b: nat) {
    && (b in w.Taken(conn) ==> Concerns(w, conn, b) && conn !in w.casts[b].todo && b !in w.Refused(conn))
    && (b in w.Refused(conn) ==>
          && Concerns(w, conn, b) && conn !in w.casts[b].todo
          && (conn in w.hub.clients ==> w.casts[b].dropping == Some(conn)))
    && (Concerns(w, conn, b) ==> b in w.Taken(conn) || b in w.Refused(conn) || conn in w.casts[b].todo)
    && (conn in w.hub.connections && b < |w.casts| ==>
          && conn in w.joined && (conn in w.casts[b].copy ==> w.joined[conn] <= b)
          && (conn in w.hub.clients && w.joined[conn] <= b ==> conn in w.casts[b].copy))
  }

  predicate Distinct(ids: seq<nat>) {
    forall i, j :: 0 <= i < j < |ids| ==> ids[i] != ids[j]
  }

  predicate ConsoleInOrder(w: World, conn: ConnID) {
    && (conn !in w.hub.connections ==> w.Taken(conn) == [] && w.Refused(conn) == {})
    && (conn in w.hub.connections ==>
          var c := w.hub.connections[conn];
          && conn in w.joined && w.joined[conn] <= |w.casts|
          && Begun(w, w.Taken(conn)) && Distinct(w.Taken(conn))
          && c.Accepted() == FramesOf(w, w.Taken(conn))
          && |c.outbound| <= OUTBOUND_BUFFER_SIZE)
  }

  ghost predicate InOrder(w: World) {
    && w.hub.Valid()
    && (forall b :: 0 <= b < |w.casts| ==> CastInOrder(w, b))
    && (forall conn: ConnID :: ConsoleInOrder(w, conn))
    && (forall conn: ConnID, b: nat :: BroadcastInOrder(w, conn, b))
  }

  lemma JoinKeepsOrder(w: World, step: Step)
    requires InOrder(w) && Enabled(w, step) && step.JoinStep?
    ensures InOrder(Apply(w, step))
  {
    var v := Apply(w, step);
    forall conn: ConnID
      ensures ConsoleInOrder(v, conn)
    {
      assert ConsoleInOrder(w, conn);
    }
    forall conn: ConnID, b: nat
      ensures BroadcastInOrder(v, conn, b)
    {
      assert BroadcastInOrder(w, conn, b);
      if b < |w.casts| {
        assert CastInOrder(w, b);
      }
    }
    forall b | 0 <= b < |v.casts|
      ensures CastInOrder(v, b)
    {
      assert CastInOrder(w, b);
    }
  }

  lemma BeginKeepsOrder(w: World, step: Step)
    requires InOrder(w) && step.BeginStep?
    ensures InOrder(Apply(w, step))
  {
    var v := Apply(w, step);
    forall conn: ConnID
      ensures ConsoleInOrder(v, conn)
    {
      assert ConsoleInOrder(w, conn);
    }
    forall conn: ConnID, b: nat
      ensures BroadcastInOrder(v, conn, b)
    {
      assert BroadcastInOrder(w, conn, b) && ConsoleInOrder(w, conn);
    }
    forall b | 0 <= b < |v.casts|
      ensures CastInOrder(v, b)
    {
      assert b < |w.casts| ==> CastInOrder(w, b);
    }
  }

  lemma OfferKeepsConsole(w: World, step: Step, conn: ConnID)
    requires InOrder(w) && Enabled(w, step) && step.OfferStep?
    ensures ConsoleInOrder(Apply(w, step), conn)
  {
    var v, b := Apply(w, step), step.b;
    assert ConsoleInOrder(w, conn) && BroadcastInOrder(w, step.conn, b);
    if conn == step.conn && v.Taken(conn) != w.Taken(conn) {
      var c, envelope := w.hub.connections[conn], w.casts[b].envelope;
      OfferAccepts(c, envelope);
      FramesOfOneMore(w, v, w.Taken(conn), b);
    } else if conn in w.hub.connections {
      FramesStay(w, v, w.Taken(conn));
    }
  }

  predicate SameEnvelopes(w: World, v: World) {
    |v.casts| == |w.casts| && forall b :: 0 <= b < |w.casts| ==> v.casts[b].envelope == w.casts[b].envelope
  }

  lemma FramesStay(w: World, v: World, ids: seq<nat>)
    requires SameEnvelopes(w, v) && Begun(w, ids)
    ensures Begun(v, ids) && FramesOf(v, ids) == FramesOf(w, ids)
  {
  }

  lemma FramesOfOneMore(w: World, v: World, ids: seq<nat>, b: nat)
    requires SameEnvelopes(w, v) && Begun(w, ids) && b < |w.casts|
    ensures Begun(v, ids + [b]) && FramesOf(v, ids + [b]) == FramesOf(w, ids) + [w.casts[b].envelope]
  {
  }

  lemma OfferSettles(w: World, step: Step)
    requires InOrder(w) && Enabled(w, step) && step.OfferStep?
    ensures BroadcastInOrder(Apply(w, step), step.conn, step.b)
  {
    assert BroadcastInOrder(w, step.conn, step.b) && CastInOrder(w, step.b);
    DeliversWhatIsDue(w.hub.connections[step.conn].threadID, w.casts[step.b].envelope);
  }

  lemma OfferLeaves(w: World, step: Step, conn: ConnID, b: nat)
    requires InOrder(w) && Enabled(w, step) && step.OfferStep? && (conn != step.conn || b != step.b)
    ensures BroadcastInOrder(Apply(w, step), conn, b)
  {
    assert BroadcastInOrder(w, conn, b);
  }

  lemma OfferKeepsBroadcast(w: World, step: Step, conn: ConnID, b: nat)
    requires InOrder(w) && Enabled(w, step) && step.OfferStep?
    ensures BroadcastInOrder(Apply(w, step), conn, b)
  {
    if conn == step.conn && b == step.b {
      OfferSettles(w, step);
    } else {
      OfferLeaves(w, step, conn, b);
    }
  }

  lemma OfferKeepsOrder(w: World, step: Step)
    requires InOrder(w) && Enabled(w, step) && step.OfferStep?
    ensures InOrder(Apply(w, step))
  {
    var v := Apply(w, step);
    forall conn: ConnID
      ensures ConsoleInOrder(v, conn)
    {
      OfferKeepsConsole(w, step, conn);
    }
    forall conn: ConnID, b: nat
      ensures BroadcastInOrder(v, conn, b)
    {
      OfferKeepsBroadcast(w, step, conn, b);
    }
    forall b | 0 <= b < |v.casts|
      ensures CastInOrder(v, b)
    {
      assert CastInOrder(w, b);
    }
  }

  /** Dropping, leaving and the writer's steps change no broadcast but for whom it is about to drop, and
      of a console at most what it has accepted's whereabouts and whether it is registered. */
  predicate Moves(w: World, v: World) {
    && v.joined == w.joined && v.taken == w.taken && v.refused == w.refused
    && v.hub.connections.Keys == w.hub.connections.Keys && v.hub.clients <= w.hub.clients
    && (forall conn <- w.hub.connections :: Moved(w.hub.connections[conn], v.hub.connections[conn]))
  }

  predicate Moved(c: Connection, d: Connection) {
    d.threadID == c.threadID && d.Accepted() == c.Accepted() && |d.outbound| <= |c.outbound|
  }

  lemma MovesKeepOrder(w: World, v: World)
    requires InOrder(w) && Moves(w, v) && v.casts == w.casts
    ensures InOrder(v)
  {
    forall conn: ConnID
      ensures ConsoleInOrder(v, conn)
    {
      assert ConsoleInOrder(w, conn);
      assert conn in w.hub.connections ==> FramesOf(v, w.Taken(conn)) == FramesOf(w, w.Taken(conn));
    }
    forall conn: ConnID, b: nat
      ensures BroadcastInOrder(v, conn, b)
    {
      assert BroadcastInOrder(w, conn, b);
    }
    forall b | 0 <= b < |v.casts|
      ensures CastInOrder(v, b)
    {
      assert CastInOrder(w, b);
    }
  }

  lemma StepMoves(w: World, step: Step)
    requires Enabled(w, step) && !step.JoinStep? && !step.BeginStep? && !step.OfferStep? && !step.DropStep?
    ensures Moves(w, Apply(w, step)) && Apply(w, step).casts == w.casts
  {
    if step.TakeStep? {
      MovedOn(w.hub.connections[step.conn]);
    } else if step.WrittenStep? {
      WrittenOut(w.hub.connections[step.conn]);
    }
  }

  lemma DropKeepsOrder(w: World, step: Step)
    requires InOrder(w) && Enabled(w, step) && step.DropStep?
    ensures InOrder(Apply(w, step))
  {
    var conn := w.casts[step.b].dropping.value;
    var removed := w.(hub := w.hub.Remove(conn));
    assert Moves(w, removed);
    MovesKeepOrder(w, removed);
    var v := Apply(w, step);
    forall other: ConnID
      ensures ConsoleInOrder(v, other)
    {
      assert ConsoleInOrder(removed, other);
      assert other in w.hub.connections ==> FramesOf(v, w.Taken(other)) == FramesOf(removed, w.Taken(other));
    }
    forall other: ConnID, b: nat
      ensures BroadcastInOrder(v, other, b)
    {
      assert BroadcastInOrder(removed, other, b);
    }
    forall b | 0 <= b < |v.casts|
      ensures CastInOrder(v, b)
    {
      assert CastInOrder(removed, b);
    }
  }

  lemma StepKeepsOrder(w: World, step: Step)
    requires InOrder(w) && Enabled(w, step)
    ensures InOrder(Apply(w, step))
  {
    if step.JoinStep? {
      JoinKeepsOrder(w, step);
    } else if step.BeginStep? {
      BeginKeepsOrder(w, step);
    } else if step.OfferStep? {
      OfferKeepsOrder(w, step);
    } else if step.DropStep? {
      DropKeepsOrder(w, step);
    } else {
      StepMoves(w, step);
      MovesKeepOrder(w, Apply(w, step));
    }
  }

  lemma {:induction false} RunKeepsOrder(steps: seq<Step>, w: World)
    requires Reaches(steps, w)
    ensures InOrder(w)
  {
    if steps != [] {
      var n := |steps| - 1;
      var u :| Reaches(steps[..n], u) && Enabled(u, steps[n]) && w == Apply(u, steps[n]);
      RunKeepsOrder(steps[..n], u);
      StepKeepsOrder(u, steps[n]);
    }
  }

  ghost predicate Reachable(w: World) {
    exists steps :: Reaches(steps, w)
  }

  lemma ReachableIsInOrder(w: World)
    requires Reachable(w)
    ensures InOrder(w)
  {
    var steps :| Reaches(steps, w);
    RunKeepsOrder(steps, w);
  }

  // ----- what every run keeps -----

  /** However broadcasts overlap, what a console has been written, is being written and has queued are the
      frames its queue has taken, in that order: each of a broadcast that was begun while it was
      registered and concerns its thread, and none twice; and no queue holds more than 32. As long as it
      is registered every such broadcast has been taken, is still to come to it, or is about to drop it. */
  lemma NothingIsLost(w: World, conn: ConnID)
    requires Reachable(w) && conn in w.hub.connections
    ensures var taken := w.Taken(conn);
      && Begun(w, taken) && Distinct(taken) && w.hub.connections[conn].Accepted() == FramesOf(w, taken)
      && (forall b <- taken :: Concerns(w, conn, b))
    ensures |w.hub.connections[conn].outbound| <= OUTBOUND_BUFFER_SIZE
    ensures conn in w.joined && w.joined[conn] <= |w.casts|
    ensures conn in w.hub.clients ==>
      forall b :: w.joined[conn] <= b < |w.casts|
                  && IsDue(w.casts[b].envelope, w.hub.connections[conn].threadID) ==>
        b in w.Taken(conn) || conn in w.casts[b].todo || w.casts[b].dropping == Some(conn)
  {
    ReachableIsInOrder(w);
    assert ConsoleInOrder(w, conn);
    forall b <- w.Taken(conn)
      ensures Concerns(w, conn, b)
    {
      assert BroadcastInOrder(w, conn, b);
    }
    forall b | conn in w.hub.clients && w.joined[conn] <= b < |w.casts|
               && IsDue(w.casts[b].envelope, w.hub.connections[conn].threadID)
      ensures b in w.Taken(conn) || conn in w.casts[b].todo || w.casts[b].dropping == Some(conn)
    {
      assert BroadcastInOrder(w, conn, b);
    }
  }

  /** A console follows the thread its query names, trimmed. */
  lemma {:induction false} ConsoleFollowsItsQuery(steps: seq<Step>, w: World, conn: ConnID)
    requires Reaches(steps, w) && conn in w.hub.connections
    ensures exists k :: 0 <= k < |steps| && steps[k].JoinStep? && steps[k].conn == conn
              && w.hub.connections[conn].threadID == TrimSpace(steps[k].query)
  {
    if steps != [] {
      var n := |steps| - 1;
      var u :| Reaches(steps[..n], u) && Enabled(u, steps[n]) && w == Apply(u, steps[n]);
      if conn in u.hub.connections {
        ConsoleFollowsItsQuery(steps[..n], u, conn);
        FollowedStays(u, steps[n], conn);
        var k :| 0 <= k < n && steps[..n][k].JoinStep? && steps[..n][k].conn == conn
            && u.hub.connections[conn].threadID == TrimSpace(steps[..n][k].query);
        assert steps[k] == steps[..n][k];
      } else {
        OnlyJoinsAdd(u, steps[n], conn);
      }
    }
  }

  lemma FollowedStays(u: World, step: Step, conn: ConnID)
    requires Enabled(u, step) && conn in u.hub.connections
    ensures conn in Apply(u, step).hub.connections
    ensures Apply(u, step).hub.connections[conn].threadID == u.hub.connections[conn].threadID
  {
    if !step.JoinStep? && !step.BeginStep? && !step.OfferStep? && !step.DropStep? {
      StepMoves(u, step);
      assert Moved(u.hub.connections[conn], Apply(u, step).hub.connections[conn]);
    }
  }

  lemma OnlyJoinsAdd(u: World, step: Step, conn: ConnID)
    requires Enabled(u, step) && conn !in u.hub.connections && conn in Apply(u, step).hub.connections
    ensures step.JoinStep? && step.conn == conn
    ensures Apply(u, step).hub.connections[conn].threadID == TrimSpace(step.query)
  {
    if !step.JoinStep? && !step.BeginStep? && !step.OfferStep? && !step.DropStep? {
      StepMoves(u, step);
    }
  }

  /** However broadcasts overlap, whatever a console that follows a thread has been written, is being
      written or has queued is about that thread. */
  lemma FollowersGetTheirThread(w: World, conn: ConnID)
    requires Reachable(w) && conn in w.hub.connections && w.hub.connections[conn].threadID != []
    ensures forall frame <- w.hub.connections[conn].Accepted() :: IsAbout(frame, w.hub.connections[conn].threadID)
  {
    NothingIsLost(w, conn);
    var taken := w.Taken(conn);
    forall i | 0 <= i < |taken|
      ensures IsAbout(FramesOf(w, taken)[i], w.hub.connections[conn].threadID)
    {
      assert Concerns(w, conn, taken[i]);
    }
  }

  // ----- when there are no gaps -----

  predicate Ascending(ids: seq<nat>) {
    forall i, j :: 0 <= i < j < |ids| ==> ids[i] < ids[j]
  }

  lemma {:induction false} DueIs(w: World, conn: ConnID, n: nat)
    requires n <= |w.casts|
    ensures Ascending(DueOf(w, conn, n))
    ensures forall b: nat :: b in DueOf(w, conn, n) <==> b < n && Concerns(w, conn, b)
    decreases n
  {
    if n > 0 {
      DueIs(w, conn, n - 1);
      var before := DueOf(w, conn, n - 1);
      assert forall i :: 0 <= i < |before| ==> before[i] in before;
    }
  }

  /** What concerns a console is settled when a broadcast begins. */
  lemma {:induction false} DueStays(w: World, v: World, conn: ConnID, n: nat)
    requires n <= |w.casts| && n <= |v.casts|
    requires forall b :: 0 <= b < n ==> (Concerns(w, conn, b) <==> Concerns(v, conn, b))
    ensures DueOf(v, conn, n) == DueOf(w, conn, n)
    decreases n
  {
    if n > 0 {
      DueStays(w, v, conn, n - 1);
    }
  }

  /** The next of an ascending list comes next exactly if all before it have come. */
  lemma NextIsDue(due: seq<nat>, taken: seq<nat>, b: nat)
    requires Ascending(due) && taken <= due && b in due && b !in taken
    ensures taken + [b] <= due <==> forall a :: a in due && a < b ==> a in taken
  {
    var m :| 0 <= m < |due| && due[m] == b;
    assert forall i :: 0 <= i < |taken| ==> taken[i] == due[i];
    assert forall i :: |taken| <= i < |due| ==> due[i] !in taken;
    assert m >= |taken|;
    assert m > |taken| ==> due[|taken|] in due && due[|taken|] < b;
    if m == |taken| {
      assert due[..m + 1] == taken + [b];
      forall a | a in due && a < b
        ensures a in taken
      {
        var i :| 0 <= i < |due| && due[i] == a;
        assert taken[i] == a;
      }
    }
  }

  /** The queue takes the frame. */
  predicate Takes(u: World, step: Step, conn: ConnID)
    requires Enabled(u, step)
  {
    && step.OfferStep? && step.conn == conn && !u.hub.connections[conn].Full()
    && IsDue(u.casts[step.b].envelope, u.hub.connections[conn].threadID)
  }

  /** A frame is taken while a broadcast that began earlier has yet to come to the console, or after one
      has found its queue full. */
  ghost predicate Jumps(u: World, step: Step, conn: ConnID)
    requires Enabled(u, step)
  {
    Takes(u, step, conn) && exists a :: 0 <= a < step.b && LeftBehind(u, conn, a)
  }

  predicate LeftBehind(u: World, conn: ConnID, a: nat) {
    Concerns(u, conn, a) && (conn in u.casts[a].todo || a in u.Refused(conn))
  }

  ghost predicate ReachesInTurn(steps: seq<Step>, v: World, conn: ConnID)
    decreases |steps|
  {
    if steps == [] then v == INITIAL
    else
      var n := |steps| - 1;
      exists u :: ReachesInTurn(steps[..n], u, conn) && Enabled(u, steps[n]) && !Jumps(u, steps[n], conn)
               && v == Apply(u, steps[n])
  }

  lemma {:induction false} InTurnReaches(steps: seq<Step>, v: World, conn: ConnID)
    requires ReachesInTurn(steps, v, conn)
    ensures Reaches(steps, v)
    decreases |steps|
  {
    if steps != [] {
      var n := |steps| - 1;
      var u :| ReachesInTurn(steps[..n], u, conn) && Enabled(u, steps[n]) && !Jumps(u, steps[n], conn)
               && v == Apply(u, steps[n]);
      InTurnReaches(steps[..n], u, conn);
    }
  }

  /** What the queue has taken is the beginning of what the console is due. */
  predicate Gapless(w: World, conn: ConnID) {
    w.Taken(conn) <= Due(w, conn)
  }

  lemma TakingIsGaplessIff(u: World, step: Step, conn: ConnID)
    requires InOrder(u) && Enabled(u, step) && Takes(u, step, conn)
    ensures Gapless(Apply(u, step), conn) <==> Gapless(u, conn) && !Jumps(u, step, conn)
  {
    var v, due, taken := Apply(u, step), Due(u, conn), u.Taken(conn);
    DueStays(u, v, conn, |u.casts|);
    DueIs(u, conn, |u.casts|);
    assert CastInOrder(u, step.b) && BroadcastInOrder(u, conn, step.b);
    assert v.Taken(conn) == taken + [step.b] && step.b in due && step.b !in taken;
    if taken <= due {
      NextIsDue(due, taken, step.b);
      forall a: nat | a in due
        ensures a in taken <==> !LeftBehind(u, conn, a)
      {
        assert BroadcastInOrder(u, conn, a);
      }
    } else {
      assert taken <= taken + [step.b];
    }
  }

  lemma BeginKeepsGapless(u: World, step: Step, conn: ConnID)
    requires InOrder(u) && step.BeginStep?
    ensures Gapless(Apply(u, step), conn) <==> Gapless(u, conn)
  {
    var v, n := Apply(u, step), |u.casts|;
    DueStays(u, v, conn, n);
    assert Due(v, conn) == Due(u, conn) + if Concerns(v, conn, n) then [n] else [];
    assert BroadcastInOrder(u, conn, n);
    PrefixWithout(u.Taken(conn), Due(u, conn), n);
  }

  lemma PrefixWithout(taken: seq<nat>, due: seq<nat>, b: nat)
    requires b !in taken
    ensures taken <= due + [b] <==> taken <= due
  {
    assert (due + [b])[|due|] == b;
  }

  lemma PrefixMisses(taken: seq<nat>, due: seq<nat>)
    requires Ascending(due) && taken <= due && taken != due
    ensures exists b <- due :: b !in taken
  {
    assert forall i :: 0 <= i < |taken| ==> taken[i] == due[i];
    assert due[|taken|] in due;
  }

  lemma OtherStepKeepsGapless(u: World, step: Step, conn: ConnID)
    requires InOrder(u) && Enabled(u, step) && !Takes(u, step, conn) && !step.BeginStep?
    ensures Gapless(Apply(u, step), conn) <==> Gapless(u, conn)
  {
    var v := Apply(u, step);
    assert v.Taken(conn) == u.Taken(conn) && ConsoleInOrder(u, conn);
    if conn in u.hub.connections {
      ConcernStays(u, step, conn);
      DueStays(u, v, conn, |u.casts|);
    }
  }

  lemma ConcernStays(u: World, step: Step, conn: ConnID)
    requires Enabled(u, step) && !step.BeginStep? && conn in u.hub.connections
    ensures |Apply(u, step).casts| == |u.casts|
    ensures forall b: nat :: Concerns(u, conn, b) <==> Concerns(Apply(u, step), conn, b)
  {
    if !step.OfferStep? && !step.DropStep? && !step.JoinStep? {
      StepMoves(u, step);
    }
  }

  lemma StepIsGaplessIff(u: World, step: Step, conn: ConnID)
    requires InOrder(u) && Enabled(u, step)
    ensures Gapless(Apply(u, step), conn) <==> Gapless(u, conn) && !Jumps(u, step, conn)
  {
    if Takes(u, step, conn) {
      TakingIsGaplessIff(u, step, conn);
    } else if step.BeginStep? {
      BeginKeepsGapless(u, step, conn);
    } else {
      OtherStepKeepsGapless(u, step, conn);
    }
  }

  lemma {:induction false} InTurnIsGapless(steps: seq<Step>, w: World, conn: ConnID)
    requires ReachesInTurn(steps, w, conn)
    ensures Gapless(w, conn)
    decreases |steps|
  {
    if steps != [] {
      var n := |steps| - 1;
      var u :| ReachesInTurn(steps[..n], u, conn) && Enabled(u, steps[n]) && !Jumps(u, steps[n], conn)
               && w == Apply(u, steps[n]);
      InTurnIsGapless(steps[..n], u, conn);
      InTurnReaches(steps[..n], u, conn);
      RunKeepsOrder(steps[..n], u);
      StepIsGaplessIff(u, steps[n], conn);
    }
  }

  lemma {:induction false} GaplessIsInTurn(steps: seq<Step>, w: World, conn: ConnID)
    requires Reaches(steps, w) && Gapless(w, conn)
    ensures ReachesInTurn(steps, w, conn)
    decreases |steps|
  {
    if steps != [] {
      var n := |steps| - 1;
      var u :| Reaches(steps[..n], u) && Enabled(u, steps[n]) && w == Apply(u, steps[n]);
      RunKeepsOrder(steps[..n], u);
      StepIsGaplessIff(u, steps[n], conn);
      GaplessIsInTurn(steps[..n], u, conn);
    }
  }

  /** In every run, with any number of broadcasts under way at once, what a console's queue has taken is
      gapless, the first of the broadcasts that concern it in the order in which they began, exactly if no
      frame was ever taken while an earlier broadcast had yet to come to the console, or after an earlier
      one had found its queue full. */
  lemma GaplessIff(steps: seq<Step>, w: World, conn: ConnID)
    requires Reaches(steps, w)
    ensures w.Taken(conn) <= Due(w, conn) <==> ReachesInTurn(steps, w, conn)
  {
    if Gapless(w, conn) {
      GaplessIsInTurn(steps, w, conn);
    }
    if ReachesInTurn(steps, w, conn) {
      InTurnIsGapless(steps, w, conn);
    }
  }

  // ----- broadcasts that do not overlap -----

  predicate Finished(cast: Cast) {
    cast.todo == {} && cast.dropping.None?
  }

  predicate Idle(w: World) {
    forall b :: 0 <= b < |w.casts| ==> Finished(w.casts[b])
  }

  /** A broadcast begins only when all others are through. */
  ghost predicate ReachesSerially(steps: seq<Step>, v: World)
    decreases |steps|
  {
    if steps == [] then v == INITIAL
    else
      var n := |steps| - 1;
      exists u :: ReachesSerially(steps[..n], u) && Enabled(u, steps[n]) && (steps[n].BeginStep? ==> Idle(u))
               && v == Apply(u, steps[n])
  }

  predicate NoneRefusedBefore(w: World, conn: ConnID, b: nat) {
    forall a <- w.Refused(conn) :: a >= b
  }

  /** Only the last broadcast is under way, and nobody has been copied after a refusal. */
  ghost predicate Alone(w: World) {
    && (forall b :: 0 <= b < |w.casts| - 1 ==> Finished(w.casts[b]))
    && (forall b, conn :: 0 <= b < |w.casts| && conn in w.casts[b].copy ==> NoneRefusedBefore(w, conn, b))
  }

  lemma CopiedAreUnrefused(u: World, conn: ConnID)
    requires InOrder(u) && Idle(u) && conn in u.hub.clients
    ensures u.Refused(conn) == {}
  {
    forall a: nat
      ensures a !in u.Refused(conn)
    {
      assert BroadcastInOrder(u, conn, a);
    }
  }

  lemma RefusalIsLast(u: World, step: Step, conn: ConnID, a: nat)
    requires Alone(u) && Enabled(u, step) && a in Apply(u, step).Refused(conn) && a !in u.Refused(conn)
    ensures a == |u.casts| - 1 == |Apply(u, step).casts| - 1
  {
    assert step.OfferStep? && a == step.b && !Finished(u.casts[a]);
  }

  lemma StepKeepsAlone(u: World, step: Step)
    requires InOrder(u) && Alone(u) && Enabled(u, step) && (step.BeginStep? ==> Idle(u))
    ensures Alone(Apply(u, step))
  {
    var v := Apply(u, step);
    assert step.OfferStep? || step.DropStep? ==> !Finished(u.casts[step.b]);
    forall b, conn | 0 <= b < |v.casts| && conn in v.casts[b].copy
      ensures NoneRefusedBefore(v, conn, b)
    {
      if b < |u.casts| {
        assert conn in u.casts[b].copy && NoneRefusedBefore(u, conn, b);
        forall a <- v.Refused(conn)
          ensures a >= b
        {
          if a !in u.Refused(conn) {
            RefusalIsLast(u, step, conn, a);
          }
        }
      } else {
        CopiedAreUnrefused(u, conn);
      }
    }
  }

  lemma AloneDoesNotJump(u: World, step: Step, conn: ConnID)
    requires InOrder(u) && Alone(u) && Enabled(u, step)
    ensures !Jumps(u, step, conn)
  {
    if Takes(u, step, conn) {
      assert CastInOrder(u, step.b) && NoneRefusedBefore(u, conn, step.b);
      assert step.b == |u.casts| - 1;
      forall a: nat | a < step.b
        ensures !LeftBehind(u, conn, a)
      {
        assert Finished(u.casts[a]);
      }
    }
  }

  lemma {:induction false} SerialIsGapless(steps: seq<Step>, w: World, conn: ConnID)
    requires ReachesSerially(steps, w)
    ensures Reaches(steps, w) && Alone(w) && Gapless(w, conn)
    decreases |steps|
  {
    if steps != [] {
      var n := |steps| - 1;
      var u :| ReachesSerially(steps[..n], u) && Enabled(u, steps[n]) && (steps[n].BeginStep? ==> Idle(u))
               && w == Apply(u, steps[n]);
      SerialIsGapless(steps[..n], u, conn);
      RunKeepsOrder(steps[..n], u);
      StepKeepsAlone(u, steps[n]);
      AloneDoesNotJump(u, steps[n], conn);
      StepIsGaplessIff(u, steps[n], conn);
    }
  }

  /** Where broadcasts do not overlap delivery has no gaps: whatever the writers and the other consoles do,
      what a registered console has been written, is being written and has queued is, once the last
      broadcast is through, every broadcast since it joined that concerns its thread, in order. */
  lemma DeliveryHasNoGaps(steps: seq<Step>, w: World, conn: ConnID)
    requires ReachesSerially(steps, w) && Idle(w) && conn in w.hub.clients
    ensures conn in w.hub.connections && Begun(w, Due(w, conn))
    ensures w.hub.connections[conn].Accepted() == FramesOf(w, Due(w, conn))
  {
    SerialIsGapless(steps, w, conn);
    RunKeepsOrder(steps, w);
    assert ConsoleInOrder(w, conn);
    var taken, due := w.Taken(conn), Due(w, conn);
    DueIs(w, conn, |w.casts|);
    forall b <- due
      ensures b in taken
    {
      assert BroadcastInOrder(w, conn, b) && Finished(w.casts[b]);
    }
    if taken != due {
      PrefixMisses(taken, due);
    }
  }

  /** So each frame about the thread a console follows, and each frame at all if it follows none, that was
      broadcast since it joined is among those it was given. */
  lemma EveryFrameDueArrives(steps: seq<Step>, w: World, conn: ConnID, b: nat)
    requires ReachesSerially(steps, w) && Idle(w) && conn in w.hub.clients
    requires conn in w.joined && w.joined[conn] <= b < |w.casts|
    requires conn in w.hub.connections
    requires w.hub.connections[conn].threadID == [] || IsAbout(w.casts[b].envelope, w.hub.connections[conn].threadID)
    ensures w.casts[b].envelope in w.hub.connections[conn].Accepted()
  {
    SerialIsGapless(steps, w, conn);
    RunKeepsOrder(steps, w);
    DeliveryHasNoGaps(steps, w, conn);
    DueIs(w, conn, |w.casts|);
    assert BroadcastInOrder(w, conn, b);
    var due := Due(w, conn);
    var i :| 0 <= i < |due| && due[i] == b;
    assert FramesOf(w, due)[i] == w.casts[b].envelope;
  }

  /** And a console that has been removed, for overflow or otherwise, was written a prefix of that. */
  lemma RemovedConsoleSawAPrefix(steps: seq<Step>, w: World, conn: ConnID)
    requires ReachesSerially(steps, w) && conn in w.hub.connections
    ensures Begun(w, Due(w, conn))
    ensures w.hub.connections[conn].Accepted() <= FramesOf(w, Due(w, conn))
    ensures w.hub.connections[conn].written <= FramesOf(w, Due(w, conn))
  {
    SerialIsGapless(steps, w, conn);
    RunKeepsOrder(steps, w);
    assert ConsoleInOrder(w, conn);
    var taken, due := w.Taken(conn), Due(w, conn);
    DueIs(w, conn, |w.casts|);
    forall i | 0 <= i < |due|
      ensures due[i] < |w.casts|
    {
      assert due[i] in due;
    }
    assert FramesOf(w, taken) == FramesOf(w, due)[..|taken|];
    assert w.hub.connections[conn].written <= w.hub.connections[conn].Accepted();
  }

  // ----- one broadcast without interruption -----

  /** The broadcast has reached all clients but those left. */
  predicate Partly(was: Hub, hub: Hub, envelope: Envelope, left: set<ConnID>)
    requires was.Valid()
  {
    && hub.connections.Keys == was.connections.Keys && left <= hub.clients <= was.clients
    && (forall conn <- was.clients :: conn in hub.clients <==> conn in left || !was.Overflows(conn, envelope))
    && (forall conn <- was.connections :: hub.connections[conn] ==
          if conn in was.clients && conn !in left then was.connections[conn].Offer(envelope)
          else was.connections[conn])
  }

  lemma ReachableNext(u: World, step: Step)
    requires Reachable(u) && Enabled(u, step)
    ensures Reachable(Apply(u, step))
  {
    var steps :| Reaches(steps, u);
    var longer := steps + [step];
    assert longer[..|steps|] == steps && longer[|steps|] == step;
    assert Reaches(longer, Apply(u, step));
  }

  lemma OfferGoesOn(was: Hub, u: World, b: nat, conn: ConnID)
    requires was.Valid() && Enabled(u, OfferStep(b, conn)) && !Apply(u, OfferStep(b, conn)).casts[b].dropping.Some?
    requires Partly(was, u.hub, u.casts[b].envelope, u.casts[b].todo)
    ensures Partly(was, Apply(u, OfferStep(b, conn)).hub, u.casts[b].envelope, u.casts[b].todo - {conn})
  {
    var c, v := u.hub.connections[conn], Apply(u, OfferStep(b, conn));
    assert c == was.connections[conn] && conn in was.clients;
    assert v.hub.connections == u.hub.connections[conn := c.Offer(u.casts[b].envelope)];
    assert v.hub.clients == u.hub.clients;
  }

  lemma DropGoesOn(was: Hub, u: World, b: nat, conn: ConnID)
    requires was.Valid() && Enabled(u, OfferStep(b, conn)) && Apply(u, OfferStep(b, conn)).casts[b].dropping.Some?
    requires Partly(was, u.hub, u.casts[b].envelope, u.casts[b].todo)
    ensures Partly(was, u.hub.Remove(conn), u.casts[b].envelope, u.casts[b].todo - {conn})
  {
  }

  /** It goes on to the next client, and drops it if it has to. */
  lemma OfferNext(was: Hub, u: World, b: nat, conn: ConnID) returns (v: World)
    requires Reachable(u) && was.Valid() && b < |u.casts| && u.casts[b].dropping.None? && conn in u.casts[b].todo
    requires Partly(was, u.hub, u.casts[b].envelope, u.casts[b].todo)
    ensures Reachable(v) && |v.casts| == |u.casts|
    ensures v.casts[b] == u.casts[b].(todo := u.casts[b].todo - {conn})
    ensures Partly(was, v.hub, v.casts[b].envelope, v.casts[b].todo)
  {
    ReachableNext(u, OfferStep(b, conn));
    v := Apply(u, OfferStep(b, conn));
    if v.casts[b].dropping.Some? {
      DropGoesOn(was, u, b, conn);
      ReachableNext(v, DropStep(b));
      v := Apply(v, DropStep(b));
    } else {
      OfferGoesOn(was, u, b, conn);
    }
  }

  lemma PartlyIsWhole(was: Hub, hub: Hub, envelope: Envelope)
    requires was.Valid() && Partly(was, hub, envelope, {})
    ensures hub == was.Broadcast(envelope)
  {
    assert hub.connections == was.Broadcast(envelope).connections;
    assert hub.clients == was.Broadcast(envelope).clients;
  }

  lemma {:induction false} GoesThrough(was: Hub, u: World, b: nat) returns (v: World)
    requires Reachable(u) && was.Valid() && b < |u.casts| && u.casts[b].dropping.None?
    requires Partly(was, u.hub, u.casts[b].envelope, u.casts[b].todo)
    ensures Reachable(v) && v.hub == was.Broadcast(u.casts[b].envelope)
    decreases u.casts[b].todo
  {
    if u.casts[b].todo == {} {
      PartlyIsWhole(was, u.hub, u.casts[b].envelope);
      v := u;
    } else {
      var conn :| conn in u.casts[b].todo;
      var next := OfferNext(was, u, b, conn);
      v := GoesThrough(was, next, b);
    }
  }

  /** A broadcast that nothing comes between does what the hub's own method does. */
  lemma UninterruptedIsBroadcast(w: World, envelope: Envelope)
    requires Reachable(w)
    ensures w.hub.Valid() && exists v :: Reachable(v) && v.hub == w.hub.Broadcast(envelope)
  {
    ReachableIsInOrder(w);
    ReachableNext(w, BeginStep(envelope));
    var v := GoesThrough(w.hub, Apply(w, BeginStep(envelope)), |w.casts|);
  }

  // ----- what overlapping broadcasts can do -----

  /** Nothing is in a console's way: the next frame that concerns it is taken. */
  lemma OfferIsTaken(u: World, b: nat, conn: ConnID) returns (v: World)
    requires Reachable(u) && Enabled(u, OfferStep(b, conn)) && Takes(u, OfferStep(b, conn), conn)
    ensures Reachable(v) && v == Apply(u, OfferStep(b, conn))
    ensures v.casts == u.casts[b := u.casts[b].(todo := u.casts[b].todo - {conn})]
    ensures v.taken == u.taken[conn := u.Taken(conn) + [b]] && v.refused == u.refused && v.hub.clients == u.hub.clients
    ensures v.hub.connections == u.hub.connections[conn :=
              u.hub.connections[conn].(outbound := u.hub.connections[conn].outbound + [u.casts[b].envelope])]
  {
    ReachableNext(u, OfferStep(b, conn));
    v := Apply(u, OfferStep(b, conn));
  }

  lemma BeginsNext(u: World, envelope: Envelope) returns (v: World)
    requires Reachable(u)
    ensures Reachable(v)
    ensures v == u.(casts := u.casts + [Cast(envelope, u.hub.clients, u.hub.clients, None)])
  {
    ReachableNext(u, BeginStep(envelope));
    v := Apply(u, BeginStep(envelope));
  }

  const IDLE := Connection([], [], None, [], false, true)

  lemma TwoJoin() returns (w: World)
    ensures Reachable(w) && w.hub == Hub(map[0 := IDLE, 1 := IDLE], {0, 1}) && w.casts == []
    ensures w.Taken(0) == w.Taken(1) == []
  {
    assert Trimmed([]);
    assert Reaches([], INITIAL);
    ReachableNext(INITIAL, JoinStep(0, []));
    var one := Apply(INITIAL, JoinStep(0, []));
    ReachableNext(one, JoinStep(1, []));
    w := Apply(one, JoinStep(1, []));
    assert {} + {0} + {1} == {0, 1};
  }

  lemma TwoBegin(first: Envelope, second: Envelope) returns (w: World)
    ensures Reachable(w) && w.hub == Hub(map[0 := IDLE, 1 := IDLE], {0, 1})
    ensures w.casts == [Cast(first, {0, 1}, {0, 1}, None), Cast(second, {0, 1}, {0, 1}, None)]
    ensures w.Taken(0) == w.Taken(1) == []
  {
    var joined := TwoJoin();
    var one := BeginsNext(joined, first);
    w := BeginsNext(one, second);
  }

  /** Two broadcasts reach two consoles in different orders. */
  lemma ConsolesMayDisagree(first: Envelope, second: Envelope)
    ensures exists w :: Reachable(w) && w.hub.clients == {0, 1} && w.Taken(0) == [0, 1] && w.Taken(1) == [1, 0]
  {
    var w := TwoBegin(first, second);
    var a := OfferIsTaken(w, 0, 0);
    var b := OfferIsTaken(a, 1, 0);
    var c := OfferIsTaken(b, 1, 1);
    var d := OfferIsTaken(c, 0, 1);
    assert [] + [0] + [1] == [0, 1] && [] + [1] + [0] == [1, 0];
  }

  /** One console is registered, and its queue holds `n` frames. */
  predicate Filled(w: World, n: nat) {
    && w.hub.clients == w.hub.connections.Keys == {0} && w.refused == map[]
    && w.hub.connections[0].threadID == [] && |w.hub.connections[0].outbound| == n
    && w.hub.connections[0].inWrite.None? && w.hub.connections[0].writing
  }

  lemma {:induction false} FillsUp(envelope: Envelope, n: nat) returns (w: World)
    requires n <= OUTBOUND_BUFFER_SIZE
    ensures Reachable(w) && Filled(w, n)
  {
    if n == 0 {
      assert Trimmed([]);
      assert Reaches([], INITIAL);
      ReachableNext(INITIAL, JoinStep(0, []));
      w := Apply(INITIAL, JoinStep(0, []));
    } else {
      var before := FillsUp(envelope, n - 1);
      var begun := BeginsNext(before, envelope);
      w := OfferIsTaken(begun, |before.casts|, 0);
    }
  }

  /** A broadcast finds the queue full; before it drops the console, the writer takes a frame. */
  lemma FoundFull(envelope: Envelope) returns (w: World)
    ensures Reachable(w) && w.hub.clients == w.hub.connections.Keys == {0} && w.casts != []
    ensures w.hub.connections[0].threadID == [] && !w.hub.connections[0].Full()
    ensures var a := |w.casts| - 1; w.casts[a].dropping == Some(0) && 0 in w.casts[a].copy && a in w.Refused(0)
  {
    var full := FillsUp(envelope, OUTBOUND_BUFFER_SIZE);
    var begun := BeginsNext(full, envelope);
    ReachableNext(begun, OfferStep(|full.casts|, 0));
    var found := Apply(begun, OfferStep(|full.casts|, 0));
    ReachableNext(found, TakeStep(0));
    w := Apply(found, TakeStep(0));
  }

  /** And before that, another broadcast begins and gets its frame into the queue: what was taken has a
      gap, and keeps it when the console is dropped. */
  lemma DroppedConsoleMayHaveAGap(envelope: Envelope)
    ensures exists w :: Reachable(w) && 0 in w.hub.connections && 0 !in w.hub.clients && !Gapless(w, 0)
  {
    var found := FoundFull(envelope);
    var a, b := |found.casts| - 1, |found.casts|;
    var begun := BeginsNext(found, envelope);
    var step := OfferStep(b, 0);
    ReachableIsInOrder(begun);
    assert LeftBehind(begun, 0, a);
    TakingIsGaplessIff(begun, step, 0);
    var taken := OfferIsTaken(begun, b, 0);
    GapStays(begun, taken, a, b);
  }

  lemma GapStays(begun: World, taken: World, a: nat, b: nat)
    requires Reachable(begun) && Enabled(begun, OfferStep(b, 0)) && taken == Apply(begun, OfferStep(b, 0))
    requires !Gapless(taken, 0) && Enabled(taken, DropStep(a)) && taken.casts[a].dropping == Some(0)
    ensures exists w :: Reachable(w) && 0 in w.hub.connections && 0 !in w.hub.clients && !Gapless(w, 0)
  {
    ReachableNext(begun, OfferStep(b, 0));
    ReachableIsInOrder(taken);
    ReachableNext(taken, DropStep(a));
    OtherStepKeepsGapless(taken, DropStep(a), 0);
    var w := Apply(taken, DropStep(a));
    assert Reachable(w) && !Gapless(w, 0);
  }
}
