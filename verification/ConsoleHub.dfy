/** Fan-out to the consoles: a bounded queue for each client, and a client that falls behind is
    dropped rather than a frame. */
module ConsoleHub {
  import opened Text

  type ConnID = nat

  datatype Result = TurnStartResult(threadID: Bytes) | ThreadCreateResult(threadID: Bytes) | OtherResult

  /** What is broadcast; `body` tells frames of one kind apart. A payload that cannot be decoded
      leaves a frame without a thread, as `OtherFrame` is. */
  datatype Envelope =
    | ApprovalFrame(body: nat, threadID: Bytes)
    | TurnFrame(body: nat, threadID: Bytes)
    | TimelineFrame(body: nat, threadID: Bytes)
    | CommandCompleted(body: nat, result: Result)
    | CommandRejected(body: nat, threadID: Bytes)
    | ThreadUpdated(body: nat, thread: Option<Bytes>, threadID: Bytes)
    | OtherFrame(body: nat)

  function EnvelopeThreadID(envelope: Envelope): Bytes {
    match envelope
    case ApprovalFrame(_, threadID) => threadID
    case TurnFrame(_, threadID) => threadID
    case TimelineFrame(_, threadID) => threadID
    case CommandCompleted(_, TurnStartResult(threadID)) => threadID
    case CommandCompleted(_, ThreadCreateResult(threadID)) => threadID
    case CommandCompleted(_, OtherResult) => []
    case CommandRejected(_, threadID) => threadID
    case ThreadUpdated(_, thread, threadID) => if thread.Some? && thread.value != [] then thread.value else threadID
    case OtherFrame(_) => []
  }

  predicate ShouldDeliver(threadID: Bytes, envelope: Envelope) {
    threadID == [] || (EnvelopeThreadID(envelope) != [] && EnvelopeThreadID(envelope) == threadID)
  }

  /** Which thread each kind of frame is about; a frame without a thread is about none. */
  predicate IsAbout(envelope: Envelope, threadID: Bytes) {
    && threadID != []
    && match envelope
       case ApprovalFrame(_, its) => its == threadID
       case TurnFrame(_, its) => its == threadID
       case TimelineFrame(_, its) => its == threadID
       case CommandCompleted(_, result) =>
         result == TurnStartResult(threadID) || result == ThreadCreateResult(threadID)
       case CommandRejected(_, its) => its == threadID
       case ThreadUpdated(_, thread, its) => thread == Some(threadID) || (thread in {None, Some([])} && its == threadID)
       case OtherFrame(_) => false
  }

  /** A console that follows a thread is due the frames about it, one that follows none every frame. */
  predicate IsDue(envelope: Envelope, followed: Bytes) {
    followed == [] || IsAbout(envelope, followed)
  }

  lemma DeliversWhatIsDue(followed: Bytes, envelope: Envelope)
    ensures ShouldDeliver(followed, envelope) <==> IsDue(envelope, followed)
  {
  }

  const OUTBOUND_BUFFER_SIZE := 32

  /** One console. `inWrite` is the frame its writer has taken and not yet written; `writing` ends
      with the writer. */
  datatype Connection = Connection(
    threadID: Bytes,
    outbound: seq<Envelope>,
    inWrite: Option<Envelope>,
    written: seq<Envelope>,
    done: bool,
    writing: bool)
  {
    predicate Full() {
      |outbound| >= OUTBOUND_BUFFER_SIZE
    }

    function Offer(envelope: Envelope): Connection {
      if !ShouldDeliver(threadID, envelope) then this
      else if Full() then this.(done := true)
      else this.(outbound := outbound + [envelope])
    }

    /** Whatever has been put into the queue, in order. */
    function Accepted(): seq<Envelope> {
      written + (if inWrite.Some? then [inWrite.value] else []) + outbound
    }
  }

  datatype Hub = Hub(connections: map<ConnID, Connection>, clients: set<ConnID>)
  {
    predicate Overflows(conn: ConnID, envelope: Envelope)
      requires conn in connections
    {
      ShouldDeliver(connections[conn].threadID, envelope) && connections[conn].Full()
    }

    predicate Valid() {
      clients <= connections.Keys
    }

    function Join(conn: ConnID, query: Bytes): Hub {
      Hub(connections[conn := Connection(TrimSpace(query), [], None, [], false, true)], clients + {conn})
    }

    function Broadcast(envelope: Envelope): Hub
      requires Valid()
    {
      Hub(map conn | conn in connections ::
            if conn in clients then connections[conn].Offer(envelope) else connections[conn],
          set conn | conn in clients && !Overflows(conn, envelope))
    }

    function Remove(conn: ConnID): Hub {
      Hub(if conn in connections then connections[conn := connections[conn].(done := true)] else connections,
          clients - {conn})
    }

    predicate CanTake(conn: ConnID) {
      conn in connections && connections[conn].writing && connections[conn].inWrite.None?
          && connections[conn].outbound != []
    }

    predicate InWrite(conn: ConnID) {
      conn in connections && connections[conn].writing && connections[conn].inWrite.Some?
    }

    function Take(conn: ConnID): Hub
      requires CanTake(conn)
    {
      var c := connections[conn];
      this.(connections := connections[conn := c.(inWrite := Some(c.outbound[0]), outbound := c.outbound[1..])])
    }

    function Written(conn: ConnID): Hub
      requires InWrite(conn)
    {
      var c := connections[conn];
      this.(connections := connections[conn := c.(inWrite := None, written := c.written + [c.inWrite.value])])
    }

    /** The write failed: the client is removed and its writer ends. */
    function Failed(conn: ConnID): Hub
      requires InWrite(conn)
    {
      this.(connections := connections[conn := connections[conn].(writing := false)]).Remove(conn)
    }

    function StopWriter(conn: ConnID): Hub
      requires conn in connections && connections[conn].done
    {
      this.(connections := connections[conn := connections[conn].(writing := false)])
    }
  }

  const NO_CONSOLES := Hub(map[], {})

  class ConsoleHub {
    var connections: map<ConnID, Connection>
    var clients: set<ConnID>

    constructor ()
      ensures View() == NO_CONSOLES
    {
      connections, clients := map[], {};
    }

    function View(): Hub
      reads this
    {
      Hub(connections, clients)
    }

    method Join(conn: ConnID, query: Bytes)
      modifies this
      ensures View() == old(View()).Join(conn, query)
    {
      connections := connections[conn := Connection(TrimSpace(query), [], None, [], false, true)];
      clients := clients + {conn};
    }

    method RemoveClient(conn: ConnID)
      modifies this
      ensures View() == old(View()).Remove(conn)
    {
      clients := clients - {conn};
      if conn in connections {
        connections := connections[conn := connections[conn].(done := true)];
      }
    }

    /** One client's turn in a broadcast: the frame goes into the queue, or the client goes. */
    method Offer(conn: ConnID, envelope: Envelope)
      requires conn in clients && View().Valid()
      modifies this
      ensures connections == old(connections)[conn := old(connections)[conn].Offer(envelope)]
      ensures clients == if old(View()).Overflows(conn, envelope) then old(clients) - {conn} else old(clients)
    {
      var client := connections[conn];
      if !ShouldDeliver(client.threadID, envelope) {
        return;
      }
      if |client.outbound| < OUTBOUND_BUFFER_SIZE {
        connections := connections[conn := client.(outbound := client.outbound + [envelope])];
      } else {
        RemoveClient(conn);
      }
    }

    /** The broadcast has reached all clients but those in `unvisited`. */
    ghost predicate Reached(was: Hub, envelope: Envelope, unvisited: set<ConnID>)
      requires was.Valid()
      reads this
    {
      && connections.Keys == was.connections.Keys
      && (forall conn <- was.clients :: conn in clients <==> conn in unvisited || !was.Overflows(conn, envelope))
      && (forall conn <- was.connections :: connections[conn] ==
            if conn in was.clients && conn !in unvisited then was.connections[conn].Offer(envelope)
            else was.connections[conn])
    }

    lemma ReachedEverybody(was: Hub, envelope: Envelope)
      requires was.Valid() && clients <= was.clients && Reached(was, envelope, {})
      ensures View() == was.Broadcast(envelope)
    {
    }

    method OfferNext(ghost was: Hub, conn: ConnID, ghost unvisited: set<ConnID>, envelope: Envelope)
      requires was.Valid() && View().Valid() && conn in unvisited && unvisited <= clients <= was.clients
      requires Reached(was, envelope, unvisited)
      modifies this
      ensures unvisited - {conn} <= clients <= was.clients && View().Valid()
      ensures Reached(was, envelope, unvisited - {conn})
    {
      Offer(conn, envelope);
    }

    method Broadcast(envelope: Envelope)
      requires View().Valid()
      modifies this
      ensures View() == old(View()).Broadcast(envelope)
    {
      ghost var was := View();
      var unvisited := clients;
      while unvisited != {}
        invariant unvisited <= clients <= was.clients && View().Valid()
        invariant Reached(was, envelope, unvisited)
        decreases unvisited
      {
        var conn :| conn in unvisited;
        OfferNext(was, conn, unvisited, envelope);
        unvisited := unvisited - {conn};
      }
      ReachedEverybody(was, envelope);
    }

    /** One round of a client's writer, when it picks a frame: `ok` says whether the write succeeds. */
    method WriteOne(conn: ConnID, ok: bool)
      requires View().CanTake(conn)
      modifies this
      ensures var taken := old(View()).Take(conn);
              View() == if ok then taken.Written(conn) else taken.Failed(conn)
    {
      var client := connections[conn];
      var data := client.outbound[0];
      connections := connections[conn := client.(inWrite := Some(data), outbound := client.outbound[1..])];
      if ok {
        connections := connections[conn := connections[conn].(inWrite := None, written := client.written + [data])];
      } else {
        connections := connections[conn := connections[conn].(writing := false)];
        RemoveClient(conn);
      }
    }
  }

  lemma OfferAccepts(c: Connection, envelope: Envelope)
    ensures c.Offer(envelope).Accepted()
         == c.Accepted() + if ShouldDeliver(c.threadID, envelope) && !c.Full() then [envelope] else []
  {
    var front := c.written + (if c.inWrite.Some? then [c.inWrite.value] else []);
    assert front + (c.outbound + [envelope]) == front + c.outbound + [envelope];
    assert c.Accepted() + [] == c.Accepted();
  }

  lemma MovedOn(c: Connection)
    requires c.inWrite.None? && c.outbound != []
    ensures c.(inWrite := Some(c.outbound[0]), outbound := c.outbound[1..]).Accepted() == c.Accepted()
  {
    assert c.outbound == [c.outbound[0]] + c.outbound[1..];
    assert c.written + [] == c.written;
  }

  lemma WrittenOut(c: Connection)
    requires c.inWrite.Some?
    ensures c.(inWrite := None, written := c.written + [c.inWrite.value]).Accepted() == c.Accepted()
  {
  }

  /** A console is dropped by a broadcast exactly when it is due the frame and its queue is full, and is
      then done with; if it is due the frame and stays, the frame goes behind all it was given before. */
  lemma OnlyTheSlowAreDropped(hub: Hub, envelope: Envelope, conn: ConnID)
    requires hub.Valid() && conn in hub.clients && |hub.connections[conn].outbound| <= OUTBOUND_BUFFER_SIZE
    ensures conn !in hub.Broadcast(envelope).clients
       <==> && IsDue(envelope, hub.connections[conn].threadID)
            && |hub.connections[conn].outbound| == OUTBOUND_BUFFER_SIZE
    ensures conn !in hub.Broadcast(envelope).clients ==> hub.Broadcast(envelope).connections[conn].done
    ensures (conn in hub.Broadcast(envelope).clients ==>
      hub.Broadcast(envelope).connections[conn].Accepted() == hub.connections[conn].Accepted()
        + if IsDue(envelope, hub.connections[conn].threadID) then [envelope] else [])
  {
    DeliversWhatIsDue(hub.connections[conn].threadID, envelope);
    OfferAccepts(hub.connections[conn], envelope);
  }
}
