/** The course of a command that nothing interferes with, from the call to its result: the reply, the
    machine's disconnect, a connection that cannot be found or written to. */
module CommandCourse {
  import opened Text
  import opened CommandProtocol

  /** These actions are possible one after the other, and lead from `s` to `t`. */
  ghost predicate Leads(s: State, actions: seq<Action>, t: State)
    decreases |actions|
  {
    if actions == [] then s == t
    else Enabled(s, actions[0]) && Leads(Apply(s, actions[0]), actions[1..], t)
  }

  lemma LeadsOn(s: State, a: Action, actions: seq<Action>, t: State)
    requires Enabled(s, a) && Leads(Apply(s, a), actions, t)
    ensures Leads(s, [a] + actions, t)
  {
    assert ([a] + actions)[1..] == actions;
  }

  lemma LeadsOnce(s: State, a: Action)
    requires Enabled(s, a)
    ensures Leads(s, [a], Apply(s, a))
  {
    LeadsOn(s, a, [], Apply(s, a));
  }

  /** The call has returned this. */
  predicate Returns(s: State, r: Request, result: Result) {
    s.At(r, Returned(result))
  }

  /** The connection owns this machine, and nothing is under way on it. */
  predicate Quiet(s: State, c: Conn, machineID: MachineName) {
    && machineID in s.clients && s.clients[machineID] == c && c in s.registered && s.registered[c] == machineID
    && s.CommandsTo(c) == [] && s.RepliesFrom(c) == [] && c !in s.checked
  }

  /** The command of this call is the one frame on the connection, and its waiter in the table. */
  predicate Sent(s: State, c: Conn, machineID: MachineName, r: Request) {
    && machineID in s.clients && s.clients[machineID] == c && c in s.registered && s.registered[c] == machineID
    && s.CommandsTo(c) == [r] && s.RepliesFrom(c) == [] && c !in s.checked
    && s.At(r, Waiting) && r in s.pending && s.pending[r] == machineID
  }

  lemma OwnerIsFound(s: State, c: Conn, machineID: MachineName) returns (t: State)
    requires Quiet(s, c, machineID)
    ensures Leads(s, [Draw(machineID), LookUp(s.drawn + 1)], t) && Quiet(t, c, machineID)
    ensures s.drawn + 1 in t.calls && t.calls[s.drawn + 1] == Call(machineID, Some(c), LookedUp)
  {
    var r := s.drawn + 1;
    var a := Apply(s, Draw(machineID));
    t := Apply(a, LookUp(r));
    LeadsOnce(a, LookUp(r));
    LeadsOn(s, Draw(machineID), [LookUp(r)], t);
    assert [Draw(machineID)] + [LookUp(r)] == [Draw(machineID), LookUp(r)];
  }

  lemma CommandIsWritten(s: State, c: Conn, machineID: MachineName, r: Request) returns (t: State)
    requires Quiet(s, c, machineID) && r in s.calls && s.calls[r] == Call(machineID, Some(c), LookedUp)
    ensures Leads(s, [AddWaiter(r), Write(r, true, true)], t) && Sent(t, c, machineID, r)
  {
    var a := Apply(s, AddWaiter(r));
    t := Apply(a, Write(r, true, true));
    LeadsOnce(a, Write(r, true, true));
    LeadsOn(s, AddWaiter(r), [Write(r, true, true)], t);
    assert [AddWaiter(r)] + [Write(r, true, true)] == [AddWaiter(r), Write(r, true, true)];
  }

  /** A call to a quiet machine puts its command on the connection that owns the machine. */
  lemma CallIsSent(s: State, c: Conn, machineID: MachineName) returns (t: State)
    requires Quiet(s, c, machineID)
    ensures var r := s.drawn + 1;
      Leads(s, [Draw(machineID), LookUp(r)] + [AddWaiter(r), Write(r, true, true)], t) && Sent(t, c, machineID, r)
  {
    var r := s.drawn + 1;
    var u := OwnerIsFound(s, c, machineID);
    t := CommandIsWritten(u, c, machineID, r);
    LeadsThrough(s, [Draw(machineID), LookUp(r)], u, [AddWaiter(r), Write(r, true, true)], t);
  }

  /** What a reply comes to. */
  function Told(reply: Reply): Result {
    match reply
    case Completed(result) => Success(result)
    case Rejected(reason) => CommandRejected(reason)
  }

  /** The client's reply is read, takes the waiter, and is in the table's hand. */
  lemma ReplyIsTaken(s: State, c: Conn, machineID: MachineName, r: Request, reply: Reply) returns (t: State)
    requires Sent(s, c, machineID, r)
    ensures Leads(s, [ClientReplies(c, reply), GatewayReads(c), TakeWaiter(c)], t)
    ensures r in t.inHand && t.inHand[r] == Answered(reply) && r !in t.pending
    ensures t.calls == s.calls && t.sent == s.sent && t.received == s.received
  {
    var a := Apply(s, ClientReplies(c, reply));
    assert a.RepliesFrom(c) == [(r, reply)];
    var b := Apply(a, GatewayReads(c));
    t := Apply(b, TakeWaiter(c));
    LeadsOnce(b, TakeWaiter(c));
    LeadsOn(a, GatewayReads(c), [TakeWaiter(c)], t);
    LeadsOn(s, ClientReplies(c, reply), [GatewayReads(c), TakeWaiter(c)], t);
    assert [ClientReplies(c, reply)] + [GatewayReads(c), TakeWaiter(c)]
        == [ClientReplies(c, reply), GatewayReads(c), TakeWaiter(c)];
  }

  /** What is in hand for a waiting call is what it returns. */
  lemma HandedIsReturned(s: State, r: Request) returns (t: State)
    requires r in s.inHand && s.At(r, Waiting) && s.Sent(r) == [] && r !in s.received
    ensures Leads(s, [Deliver(r), Receive(r)], t) && Returns(t, r, ResultOf(s.inHand[r])) && t.pending == s.pending
  {
    var a := Apply(s, Deliver(r));
    assert a.Sent(r) == [s.inHand[r]];
    t := Apply(a, Receive(r));
    LeadsOnce(a, Receive(r));
    LeadsOn(s, Deliver(r), [Receive(r)], t);
    assert [Deliver(r)] + [Receive(r)] == [Deliver(r), Receive(r)];
  }

  lemma {:induction false} LeadsThrough(s: State, first: seq<Action>, u: State, second: seq<Action>, t: State)
    requires Leads(s, first, u) && Leads(u, second, t)
    ensures Leads(s, first + second, t)
    decreases |first|
  {
    if first == [] {
      assert first + second == second;
    } else {
      LeadsThrough(Apply(s, first[0]), first[1..], u, second, t);
      LeadsOn(s, first[0], first[1..] + second, t);
      assert [first[0]] + (first[1..] + second) == first + second;
    }
  }

  lemma WaiterIsUntold(s: State, c: Conn, machineID: MachineName, r: Request)
    requires Reachable(s) && Sent(s, c, machineID, r)
    ensures s.Sent(r) == [] && r !in s.received && r !in s.inHand
  {
    ReachableKeepsInvariant(s);
    assert RequestInOrder(s, r);
  }

  /** A call that is answered returns the answer: a result as a success, a refusal as one, and no waiter
      is left. */
  lemma AnswerIsReturned(s: State, c: Conn, machineID: MachineName, r: Request, reply: Reply) returns (t: State)
    requires Reachable(s) && Sent(s, c, machineID, r)
    ensures Leads(s, [ClientReplies(c, reply), GatewayReads(c), TakeWaiter(c)] + [Deliver(r), Receive(r)], t)
    ensures Returns(t, r, Told(reply)) && r !in t.pending
  {
    WaiterIsUntold(s, c, machineID, r);
    var u := ReplyIsTaken(s, c, machineID, r, reply);
    t := HandedIsReturned(u, r);
    LeadsThrough(s, [ClientReplies(c, reply), GatewayReads(c), TakeWaiter(c)], u, [Deliver(r), Receive(r)], t);
  }

  /** A call whose machine's owner disconnects returns that its machine has gone. */
  lemma DisconnectIsReturned(s: State, c: Conn, machineID: MachineName, r: Request) returns (t: State)
    requires Reachable(s) && Sent(s, c, machineID, r)
    ensures Leads(s, [Disconnect(c)] + [Deliver(r), Receive(r)], t)
    ensures Returns(t, r, MachineDisconnected(machineID)) && r !in t.pending
  {
    WaiterIsUntold(s, c, machineID, r);
    DisconnectTakesItsWaiters(s, c, r);
    var u := Apply(s, Disconnect(c));
    LeadsOnce(s, Disconnect(c));
    t := HandedIsReturned(u, r);
    LeadsThrough(s, [Disconnect(c)], u, [Deliver(r), Receive(r)], t);
  }

  /** So does one whose machine's owner registers another machine. */
  lemma MoveIsReturned(s: State, c: Conn, machineID: MachineName, r: Request, other: MachineName) returns (t: State)
    requires Reachable(s) && Sent(s, c, machineID, r) && other != machineID
    ensures Leads(s, [Register(c, other)] + [Deliver(r), Receive(r)], t)
    ensures Returns(t, r, MachineDisconnected(machineID)) && r !in t.pending
  {
    WaiterIsUntold(s, c, machineID, r);
    var u := Apply(s, Register(c, other));
    assert r !in u.pending && r in u.inHand && u.inHand[r] == Disconnected(machineID);
    LeadsOnce(s, Register(c, other));
    t := HandedIsReturned(u, r);
    LeadsThrough(s, [Register(c, other)], u, [Deliver(r), Receive(r)], t);
  }

  /** A call to a machine that nobody owns returns at once. */
  lemma UnownedIsReturned(s: State, machineID: MachineName) returns (t: State)
    requires machineID !in s.clients
    ensures Leads(s, [Draw(machineID), LookUp(s.drawn + 1)], t) && Returns(t, s.drawn + 1, NotConnected)
  {
    var r := s.drawn + 1;
    var a := Apply(s, Draw(machineID));
    t := Apply(a, LookUp(r));
    LeadsOnce(a, LookUp(r));
    LeadsOn(s, Draw(machineID), [LookUp(r)], t);
    assert [Draw(machineID)] + [LookUp(r)] == [Draw(machineID), LookUp(r)];
  }

  /** A call whose command cannot be written takes its waiter back, and so does one that is not told in
      time. */
  lemma FailuresAreReturned(s: State, r: Request, arrives: bool)
    ensures (Enabled(s, Write(r, false, arrives)) ==>
      Returns(Apply(s, Write(r, false, arrives)), r, WriteFailed) && r !in Apply(s, Write(r, false, arrives)).pending)
    ensures (Enabled(s, TimeOut(r)) ==>
      Returns(Apply(s, TimeOut(r)), r, TimedOut) && r !in Apply(s, TimeOut(r)).pending)
  {
  }

  /** The reply on a connection that no longer owns its machine is read and passed over: it takes no
      waiter, and tells no call. */
  lemma SupersededReplyIsPassedOver(s: State, c: Conn)
    requires Enabled(s, GatewayReads(c)) && !s.Owns(c)
    ensures var t := Apply(s, GatewayReads(c));
      && !Enabled(t, TakeWaiter(c)) && t.RepliesFrom(c) == s.RepliesFrom(c)[1..]
      && t.calls == s.calls && t.pending == s.pending && t.inHand == s.inHand && t.sent == s.sent
  {
  }

  /** A reply that comes when the call has returned changes nothing for any call. */
  lemma LateReplyIsPassedOver(s: State, c: Conn)
    requires Enabled(s, TakeWaiter(c)) && s.checked[c].0 !in s.pending
    ensures var t := Apply(s, TakeWaiter(c));
            t.calls == s.calls && t.pending == s.pending && t.inHand == s.inHand && t.sent == s.sent
  {
  }
}
