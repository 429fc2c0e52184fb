/** The command protocol between gateway and clients, as a state machine whose steps are the
    critical sections of `SendCommand`, of the connection read loops and of the client. Any number
    of calls, connections and takeovers may interleave, and any write may fail or get lost. */
module CommandProtocol {
  import opened Text

  type Request = nat
  type Conn = nat
  type MachineName = string

  datatype Reply = Completed(result: string) | Rejected(reason: string)

  /** What is sent into a waiter's channel. */
  datatype Outcome = Answered(reply: Reply) | Disconnected(machineID: MachineName)

  datatype Result =
    | Success(result: string) | CommandRejected(reason: string) | MachineDisconnected(machineID: MachineName)
    | NotConnected | WriteFailed | TimedOut

  datatype Phase = Drawn | LookedUp | Registered | Waiting | Returned(result: Result)

  /** One activation of SendCommand; `client` is the connection it found. */
  datatype Call = Call(machineID: MachineName, client: Option<Conn>, phase: Phase)

  datatype State = State(
    drawn: nat,
    calls: map<Request, Call>,
    clients: map<MachineName, Conn>,
    registered: map<Conn, MachineName>,
    pending: map<Request, MachineName>,
    /** Waiters some goroutine has taken out of the table and not yet sent to. */
    inHand: map<Request, Outcome>,
    /** Everything ever sent into the channel of a call. */
    sent: map<Request, seq<Outcome>>,
    received: set<Request>,
    /** Results lost in a `default` arm because a channel was full. */
    dropped: nat,
    /** Replies whose connection was found to own its machine, and whose waiter is still to be taken. */
    checked: map<Conn, (Request, Reply)>,
    commands: map<Conn, seq<Request>>,
    replies: map<Conn, seq<(Request, Reply)>>,
    /** Every reply frame clients have emitted for a request. */
    answers: map<Request, seq<Reply>>)
  {
    function Sent(r: Request): seq<Outcome> {
      if r in sent then sent[r] else []
    }

    function Answers(r: Request): seq<Reply> {
      if r in answers then answers[r] else []
    }

    function CommandsTo(c: Conn): seq<Request> {
      if c in commands then commands[c] else []
    }

    function RepliesFrom(c: Conn): seq<(Request, Reply)> {
      if c in replies then replies[c] else []
    }

    predicate Owns(c: Conn) {
      c in registered && registered[c] in clients && clients[registered[c]] == c
    }

    predicate At(r: Request, phase: Phase) {
      r in calls && calls[r].phase == phase
    }

    predicate BeforeWaiter(r: Request) {
      At(r, Drawn) || At(r, LookedUp)
    }

    predicate BeforeWrite(r: Request) {
      BeforeWaiter(r) || At(r, Registered)
    }

    /** The waiters of a machine leave the table; whoever took them will tell them. */
    function FailWaiters(machineID: MachineName): State {
      var failed := set r | r in pending && pending[r] == machineID;
      this.(pending := pending - failed,
            inHand := inHand + map r | r in failed :: Disconnected(machineID))
    }

    function Release(c: Conn): State {
      if Owns(c) then this.(clients := clients - {registered[c]}).FailWaiters(registered[c]) else this
    }
  }

  const INITIAL := State(0, map[], map[], map[], map[], map[], map[], {}, 0, map[], map[], map[], map[])

  datatype Action =
    | Draw(machineID: MachineName)
    | LookUp(r: Request)
    | AddWaiter(r: Request)
    | Write(r: Request, succeeds: bool, arrives: bool)
    | ClientReplies(c: Conn, reply: Reply)
    | ClientFails(c: Conn)
    | GatewayReads(c: Conn)
    | TakeWaiter(c: Conn)
    | Deliver(r: Request)
    | Receive(r: Request)
    | TimeOut(r: Request)
    | Register(c: Conn, machineID: MachineName)
    | Disconnect(c: Conn)

  predicate Enabled(s: State, a: Action) {
    match a
    case Draw(_) => true
    case LookUp(r) => s.At(r, Drawn)
    case AddWaiter(r) => s.At(r, LookedUp)
    case Write(r, _, _) => s.At(r, Registered) && s.calls[r].client.Some?
    case ClientReplies(c, _) => s.CommandsTo(c) != []
    case ClientFails(c) => s.CommandsTo(c) != []
    case GatewayReads(c) => s.RepliesFrom(c) != [] && c !in s.checked
    case TakeWaiter(c) => c in s.checked
    case Deliver(r) => r in s.inHand
    case Receive(r) => s.At(r, Waiting) && s.Sent(r) != [] && r !in s.received
    case TimeOut(r) => s.At(r, Waiting)
    case Register(c, _) => c !in s.checked
    case Disconnect(c) => c !in s.checked
  }

  function ResultOf(outcome: Outcome): Result {
    match outcome
    case Answered(Completed(result)) => Success(result)
    case Answered(Rejected(reason)) => CommandRejected(reason)
    case Disconnected(machineID) => MachineDisconnected(machineID)
  }

  function Apply(s: State, a: Action): State
    requires Enabled(s, a)
  {
    match a
    case Draw(machineID) =>
      s.(drawn := s.drawn + 1, calls := s.calls[s.drawn + 1 := Call(machineID, None, Drawn)])
    case LookUp(r) =>
      var machineID := s.calls[r].machineID;
      var found := machineID in s.clients;
      s.(calls := s.calls[r :=
        if found then Call(machineID, Some(s.clients[machineID]), LookedUp)
        else Call(machineID, None, Returned(NotConnected))])
    case AddWaiter(r) =>
      s.(calls := s.calls[r := s.calls[r].(phase := Registered)],
         pending := s.pending[r := s.calls[r].machineID])
    case Write(r, succeeds, arrives) =>
      var c := s.calls[r].client.value;
      s.(calls := s.calls[r := s.calls[r].(phase := if succeeds then Waiting else Returned(WriteFailed))],
         pending := if succeeds then s.pending else s.pending - {r},
         commands := if arrives then s.commands[c := s.CommandsTo(c) + [r]] else s.commands)
    case ClientReplies(c, reply) =>
      var r := s.CommandsTo(c)[0];
      s.(commands := s.commands[c := s.CommandsTo(c)[1..]],
         answers := s.answers[r := s.Answers(r) + [reply]],
         replies := s.replies[c := s.RepliesFrom(c) + [(r, reply)]])
    case ClientFails(c) => s.(commands := s.commands[c := s.CommandsTo(c)[1..]])
    case GatewayReads(c) =>
      s.(replies := s.replies[c := s.RepliesFrom(c)[1..]],
         checked := if s.Owns(c) then s.checked[c := s.RepliesFrom(c)[0]] else s.checked)
    case TakeWaiter(c) =>
      var (r, reply) := s.checked[c];
      s.(checked := s.checked - {c},
         pending := s.pending - {r},
         inHand := if r in s.pending then s.inHand[r := Answered(reply)] else s.inHand)
    case Deliver(r) =>
      var full := |s.Sent(r)| - (if r in s.received then 1 else 0) >= 1;
      s.(inHand := s.inHand - {r},
         dropped := if full then s.dropped + 1 else s.dropped,
         sent := if full then s.sent else s.sent[r := s.Sent(r) + [s.inHand[r]]])
    case Receive(r) =>
      s.(calls := s.calls[r := s.calls[r].(phase := Returned(ResultOf(s.Sent(r)[0])))],
         received := s.received + {r})
    case TimeOut(r) =>
      s.(calls := s.calls[r := s.calls[r].(phase := Returned(TimedOut))],
         pending := s.pending - {r})
    case Register(c, machineID) =>
      var released := if c in s.registered && s.registered[c] != machineID then s.Release(c) else s;
      released.(clients := released.clients[machineID := c], registered := released.registered[c := machineID])
    case Disconnect(c) =>
      s.Release(c).(registered := s.registered - {c}, commands := s.commands - {c}, replies := s.replies - {c})
  }

  ghost predicate Reaches(s: State, actions: seq<Action>, t: State)
    decreases |actions|
  {
    if actions == [] then s == t
    else
      var n := |actions| - 1;
      exists u :: Reaches(s, actions[..n], u) && Enabled(u, actions[n]) && t == Apply(u, actions[n])
  }

  // ----- the invariant -----

  /** One request is in at most one of three places: the table, a goroutine's hand, its channel; it
      gets into them no sooner than its call got that far; and whatever travels back to the call is
      the one reply a client emitted for it. */
  predicate RequestInOrder(s: State, r: Request) {
    && (r in s.calls ==> r <= s.drawn)
    && (r in s.pending || r in s.inHand || s.Sent(r) != [] || s.Answers(r) != [] ==>
          r in s.calls && !s.BeforeWaiter(r))
    && (r in s.pending ==> (s.At(r, Registered) || s.At(r, Waiting)) && r !in s.inHand && s.Sent(r) == [])
    && (r in s.inHand ==> s.Sent(r) == [] && FromClient(s, r, s.inHand[r]))
    && |s.Sent(r)| <= 1
    && (s.Sent(r) != [] ==> FromClient(s, r, s.Sent(r)[0]))
    && (r in s.received ==> s.Sent(r) != [] && r in s.calls && s.calls[r].phase.Returned?)
    && |s.Answers(r)| <= 1
    && (s.At(r, Registered) ==> s.Answers(r) == [])
    && (r in s.calls && s.calls[r].phase.Returned? ==> Justified(s, r, s.calls[r].phase.result))
  }

  predicate FromClient(s: State, r: Request, outcome: Outcome) {
    outcome.Answered? ==> s.Answers(r) == [outcome.reply]
  }

  predicate Justified(s: State, r: Request, result: Result) {
    match result
    case Success(value) => s.Answers(r) == [Completed(value)]
    case CommandRejected(reason) => s.Answers(r) == [Rejected(reason)]
    case _ => true
  }

  /** A command frame has been written by a call to the connection it found, and is unanswered. */
  predicate CommandInOrder(s: State, c: Conn, i: nat)
    requires i < |s.CommandsTo(c)|
  {
    var r := s.CommandsTo(c)[i];
    && r in s.calls && !s.BeforeWrite(r)
    && s.calls[r].client == Some(c)
    && s.Answers(r) == []
  }

  /** A reply frame is the answer to the request it names. */
  predicate ReplyInOrder(s: State, c: Conn, i: nat)
    requires i < |s.RepliesFrom(c)|
  {
    s.Answers(s.RepliesFrom(c)[i].0) == [s.RepliesFrom(c)[i].1]
  }

  /** So is one whose connection has been checked, whoever owns the machine by now. */
  predicate CheckedInOrder(s: State, c: Conn) {
    c in s.checked ==> s.Answers(s.checked[c].0) == [s.checked[c].1]
  }

  predicate NoDuplicates(requests: seq<Request>) {
    forall i, j :: 0 <= i < j < |requests| ==> requests[i] != requests[j]
  }

  ghost predicate RequestsInOrder(s: State) {
    s.dropped == 0 && forall r: Request :: RequestInOrder(s, r)
  }

  ghost predicate WiresInOrder(s: State) {
    && (forall c: Conn, i: nat :: i < |s.CommandsTo(c)| ==> CommandInOrder(s, c, i))
    && (forall c: Conn :: NoDuplicates(s.CommandsTo(c)))
    && (forall c: Conn, i: nat :: i < |s.RepliesFrom(c)| ==> ReplyInOrder(s, c, i))
    && (forall c: Conn :: CheckedInOrder(s, c))
  }

  ghost predicate Invariant(s: State) {
    RequestsInOrder(s) && WiresInOrder(s)
  }

  lemma ReleaseKeepsInvariant(s: State, c: Conn)
    requires Invariant(s)
    ensures Invariant(s.Release(c))
  {
    var t := s.Release(c);
    forall r: Request
      ensures RequestInOrder(t, r)
    {
      assert RequestInOrder(s, r);
    }
    forall d: Conn, i: nat | i < |t.CommandsTo(d)|
      ensures CommandInOrder(t, d, i)
    {
      assert CommandInOrder(s, d, i);
    }
    forall d: Conn, i: nat | i < |t.RepliesFrom(d)|
      ensures ReplyInOrder(t, d, i)
    {
      assert ReplyInOrder(s, d, i);
    }
    forall d: Conn
      ensures CheckedInOrder(t, d)
    {
      assert CheckedInOrder(s, d);
    }
    forall d: Conn
      ensures NoDuplicates(t.CommandsTo(d))
    {
      assert NoDuplicates(s.CommandsTo(d));
    }
  }

  /** No call that has written its command is forgotten or taken back. */
  ghost predicate WrittenStayWritten(s: State, t: State) {
    forall r <- s.calls :: !s.BeforeWrite(r) ==>
      && r in t.calls && !t.BeforeWrite(r)
      && t.calls[r].client == s.calls[r].client
  }

  /** A step that touches no wire only has to keep the requests in order. */
  lemma WiresUntouched(s: State, t: State)
    requires Invariant(s)
    requires t.commands == s.commands && t.replies == s.replies && t.answers == s.answers
    requires forall c <- t.checked :: c in s.checked && t.checked[c] == s.checked[c]
    requires t.dropped == 0 && WrittenStayWritten(s, t)
    requires forall r: Request :: RequestInOrder(t, r)
    ensures Invariant(t)
  {
    forall c: Conn, i: nat | i < |t.CommandsTo(c)|
      ensures CommandInOrder(t, c, i)
    {
      assert CommandInOrder(s, c, i);
    }
    forall c: Conn, i: nat | i < |t.RepliesFrom(c)|
      ensures ReplyInOrder(t, c, i)
    {
      assert ReplyInOrder(s, c, i);
    }
    forall d: Conn
      ensures CheckedInOrder(t, d)
    {
      assert CheckedInOrder(s, d);
    }
    forall c: Conn
      ensures NoDuplicates(t.CommandsTo(c))
    {
      assert NoDuplicates(s.CommandsTo(c));
    }
  }

  lemma DrawKeepsInvariant(s: State, a: Action)
    requires Invariant(s) && a.Draw?
    ensures Invariant(Apply(s, a))
  {
    var t := Apply(s, a);
    assert RequestInOrder(s, s.drawn + 1);
    forall r: Request
      ensures RequestInOrder(t, r)
    {
      assert RequestInOrder(s, r);
    }
    WiresUntouched(s, t);
  }

  /** A call that has not added its waiter may change in any way that leaves it without one, as long
      as it does not claim a client's reply. */
  lemma EarlyCallChanges(s: State, q: Request, call: Call)
    requires Invariant(s) && s.BeforeWaiter(q)
    requires call.phase == LookedUp || call.phase == Returned(NotConnected)
    ensures Invariant(s.(calls := s.calls[q := call]))
  {
    var t := s.(calls := s.calls[q := call]);
    assert RequestInOrder(s, q);
    forall r: Request
      ensures RequestInOrder(t, r)
    {
      assert RequestInOrder(s, r);
    }
    WiresUntouched(s, t);
  }

  lemma LookUpKeepsInvariant(s: State, a: Action)
    requires Invariant(s) && Enabled(s, a) && a.LookUp?
    ensures Invariant(Apply(s, a))
  {
    var t := Apply(s, a);
    assert t == s.(calls := s.calls[a.r := t.calls[a.r]]);
    EarlyCallChanges(s, a.r, t.calls[a.r]);
  }

  lemma AddWaiterKeepsInvariant(s: State, a: Action)
    requires Invariant(s) && Enabled(s, a) && a.AddWaiter?
    ensures Invariant(Apply(s, a))
  {
    var t := Apply(s, a);
    assert RequestInOrder(s, a.r);
    forall r: Request
      ensures RequestInOrder(t, r)
    {
      assert RequestInOrder(s, r);
    }
    WiresUntouched(s, t);
  }

  lemma TimeOutKeepsInOrder(s: State, a: Action, r: Request)
    requires Invariant(s) && Enabled(s, a) && a.TimeOut?
    ensures RequestInOrder(Apply(s, a), r)
  {
    assert RequestInOrder(s, a.r) && RequestInOrder(s, r);
  }

  lemma TimeOutKeepsInvariant(s: State, a: Action)
    requires Invariant(s) && Enabled(s, a) && a.TimeOut?
    ensures Invariant(Apply(s, a))
  {
    forall r: Request
      ensures RequestInOrder(Apply(s, a), r)
    {
      TimeOutKeepsInOrder(s, a, r);
    }
    WiresUntouched(s, Apply(s, a));
  }

  lemma ReceiveKeepsInOrder(s: State, a: Action, r: Request)
    requires Invariant(s) && Enabled(s, a) && a.Receive?
    ensures RequestInOrder(Apply(s, a), r)
  {
    assert RequestInOrder(s, a.r) && RequestInOrder(s, r);
  }

  lemma ReceiveKeepsInvariant(s: State, a: Action)
    requires Invariant(s) && Enabled(s, a) && a.Receive?
    ensures Invariant(Apply(s, a))
  {
    forall r: Request
      ensures RequestInOrder(Apply(s, a), r)
    {
      ReceiveKeepsInOrder(s, a, r);
    }
    WiresUntouched(s, Apply(s, a));
  }

  lemma DeliverKeepsInvariant(s: State, a: Action)
    requires Invariant(s) && Enabled(s, a) && a.Deliver?
    ensures Invariant(Apply(s, a))
  {
    var t := Apply(s, a);
    assert RequestInOrder(s, a.r);
    forall r: Request
      ensures RequestInOrder(t, r)
    {
      assert RequestInOrder(s, r);
    }
    WiresUntouched(s, t);
  }

  lemma WriteKeepsRequests(s: State, a: Action)
    requires RequestsInOrder(s) && Enabled(s, a) && a.Write?
    ensures RequestsInOrder(Apply(s, a))
  {
    var t := Apply(s, a);
    assert RequestInOrder(s, a.r);
    forall r: Request
      ensures RequestInOrder(t, r)
    {
      assert RequestInOrder(s, r);
    }
  }

  lemma WriteKeepsWires(s: State, a: Action)
    requires Invariant(s) && Enabled(s, a) && a.Write?
    ensures WiresInOrder(Apply(s, a))
  {
    var t := Apply(s, a);
    assert RequestInOrder(s, a.r);
    forall c: Conn, i: nat | i < |t.CommandsTo(c)|
      ensures CommandInOrder(t, c, i)
    {
      if i < |s.CommandsTo(c)| {
        assert CommandInOrder(s, c, i);
      }
    }
    forall c: Conn, i: nat | i < |t.RepliesFrom(c)|
      ensures ReplyInOrder(t, c, i)
    {
      assert ReplyInOrder(s, c, i);
    }
    forall d: Conn
      ensures CheckedInOrder(t, d)
    {
      assert CheckedInOrder(s, d);
    }
    forall c: Conn
      ensures NoDuplicates(t.CommandsTo(c))
    {
      assert NoDuplicates(s.CommandsTo(c));
      forall i: nat | i < |s.CommandsTo(c)|
        ensures s.CommandsTo(c)[i] != a.r
      {
        assert CommandInOrder(s, c, i);
      }
    }
  }

  lemma ClientRepliesKeepsInvariant(s: State, a: Action)
    requires Invariant(s) && Enabled(s, a) && a.ClientReplies?
    ensures Invariant(Apply(s, a))
  {
    var t := Apply(s, a);
    var q := s.CommandsTo(a.c)[0];
    assert CommandInOrder(s, a.c, 0) && RequestInOrder(s, q);
    forall r: Request
      ensures RequestInOrder(t, r)
    {
      assert RequestInOrder(s, r);
    }
    forall c: Conn, i: nat | i < |t.CommandsTo(c)|
      ensures CommandInOrder(t, c, i)
    {
      assert NoDuplicates(s.CommandsTo(c));
      assert CommandInOrder(s, c, if c == a.c then i + 1 else i);
    }
    forall c: Conn, i: nat | i < |t.RepliesFrom(c)|
      ensures ReplyInOrder(t, c, i)
    {
      if i < |s.RepliesFrom(c)| {
        assert ReplyInOrder(s, c, i);
      }
    }
    forall d: Conn
      ensures CheckedInOrder(t, d)
    {
      assert CheckedInOrder(s, d);
    }
    forall c: Conn
      ensures NoDuplicates(t.CommandsTo(c))
    {
      assert NoDuplicates(s.CommandsTo(c));
    }
  }

  lemma ClientFailsKeepsInvariant(s: State, a: Action)
    requires Invariant(s) && Enabled(s, a) && a.ClientFails?
    ensures Invariant(Apply(s, a))
  {
    var t := Apply(s, a);
    forall r: Request
      ensures RequestInOrder(t, r)
    {
      assert RequestInOrder(s, r);
    }
    forall c: Conn, i: nat | i < |t.CommandsTo(c)|
      ensures CommandInOrder(t, c, i)
    {
      assert CommandInOrder(s, c, if c == a.c then i + 1 else i);
    }
    forall c: Conn, i: nat | i < |t.RepliesFrom(c)|
      ensures ReplyInOrder(t, c, i)
    {
      assert ReplyInOrder(s, c, i);
    }
    forall d: Conn
      ensures CheckedInOrder(t, d)
    {
      assert CheckedInOrder(s, d);
    }
    forall c: Conn
      ensures NoDuplicates(t.CommandsTo(c))
    {
      assert NoDuplicates(s.CommandsTo(c));
    }
  }

  lemma GatewayReadsKeepsInvariant(s: State, a: Action)
    requires Invariant(s) && Enabled(s, a) && a.GatewayReads?
    ensures Invariant(Apply(s, a))
  {
    var read := s.(replies := s.replies[a.c := s.RepliesFrom(a.c)[1..]]);
    ReadKeepsInvariant(s, a.c);
    assert ReplyInOrder(s, a.c, 0);
    if s.Owns(a.c) {
      CheckKeepsInvariant(read, a.c, s.RepliesFrom(a.c)[0]);
    }
  }

  lemma CheckKeepsInvariant(s: State, c: Conn, frame: (Request, Reply))
    requires Invariant(s) && s.Answers(frame.0) == [frame.1]
    ensures Invariant(s.(checked := s.checked[c := frame]))
  {
    var t := s.(checked := s.checked[c := frame]);
    forall r: Request
      ensures RequestInOrder(t, r)
    {
      assert RequestInOrder(s, r);
    }
    forall d: Conn, i: nat | i < |t.CommandsTo(d)|
      ensures CommandInOrder(t, d, i)
    {
      assert CommandInOrder(s, d, i);
    }
    forall d: Conn, i: nat | i < |t.RepliesFrom(d)|
      ensures ReplyInOrder(t, d, i)
    {
      assert ReplyInOrder(s, d, i);
    }
    forall d: Conn
      ensures NoDuplicates(t.CommandsTo(d)) && CheckedInOrder(t, d)
    {
      assert NoDuplicates(s.CommandsTo(d)) && CheckedInOrder(s, d);
    }
  }

  lemma TakeWaiterKeepsInvariant(s: State, a: Action)
    requires Invariant(s) && Enabled(s, a) && a.TakeWaiter?
    ensures Invariant(Apply(s, a))
  {
    var t := Apply(s, a);
    assert CheckedInOrder(s, a.c) && RequestInOrder(s, s.checked[a.c].0);
    forall r: Request
      ensures RequestInOrder(t, r)
    {
      assert RequestInOrder(s, r);
    }
    WiresUntouched(s, t);
  }

  lemma ReadKeepsInvariant(s: State, c: Conn)
    requires Invariant(s) && s.RepliesFrom(c) != []
    ensures Invariant(s.(replies := s.replies[c := s.RepliesFrom(c)[1..]]))
  {
    var t := s.(replies := s.replies[c := s.RepliesFrom(c)[1..]]);
    forall r: Request
      ensures RequestInOrder(t, r)
    {
      assert RequestInOrder(s, r);
    }
    forall d: Conn, i: nat | i < |t.CommandsTo(d)|
      ensures CommandInOrder(t, d, i)
    {
      assert CommandInOrder(s, d, i);
    }
    forall d: Conn, i: nat | i < |t.RepliesFrom(d)|
      ensures ReplyInOrder(t, d, i)
    {
      assert ReplyInOrder(s, d, if d == c then i + 1 else i);
    }
    forall d: Conn
      ensures CheckedInOrder(t, d)
    {
      assert CheckedInOrder(s, d);
    }
    forall d: Conn
      ensures NoDuplicates(t.CommandsTo(d))
    {
      assert NoDuplicates(s.CommandsTo(d));
    }
  }

  /** Once the waiters are released, registering and disconnecting only edit tables no request is
      in, and drop wires. */
  lemma ConnectionEdit(s: State, t: State, c: Conn)
    requires Invariant(s)
    requires t == s.(clients := t.clients, registered := t.registered)
          || t == s.(clients := t.clients, registered := t.registered, commands := s.commands - {c},
              replies := s.replies - {c})
    ensures Invariant(t)
  {
    forall r: Request
      ensures RequestInOrder(t, r)
    {
      assert RequestInOrder(s, r);
    }
    forall d: Conn, i: nat | i < |t.CommandsTo(d)|
      ensures CommandInOrder(t, d, i)
    {
      assert CommandInOrder(s, d, i);
    }
    forall d: Conn, i: nat | i < |t.RepliesFrom(d)|
      ensures ReplyInOrder(t, d, i)
    {
      assert ReplyInOrder(s, d, i);
    }
    forall d: Conn
      ensures CheckedInOrder(t, d)
    {
      assert CheckedInOrder(s, d);
    }
    forall d: Conn
      ensures NoDuplicates(t.CommandsTo(d))
    {
      assert NoDuplicates(s.CommandsTo(d));
    }
  }

  lemma RegisterKeepsInvariant(s: State, a: Action)
    requires Invariant(s) && Enabled(s, a) && a.Register?
    ensures Invariant(Apply(s, a))
  {
    ReleaseKeepsInvariant(s, a.c);
    var released := if a.c in s.registered && s.registered[a.c] != a.machineID then s.Release(a.c) else s;
    ConnectionEdit(released, Apply(s, a), a.c);
  }

  lemma DisconnectKeepsInvariant(s: State, a: Action)
    requires Invariant(s) && Enabled(s, a) && a.Disconnect?
    ensures Invariant(Apply(s, a))
  {
    ReleaseKeepsInvariant(s, a.c);
    var released := s.Release(a.c);
    assert released.commands == s.commands && released.replies == s.replies;
    ConnectionEdit(released, Apply(s, a), a.c);
  }

  lemma StepKeepsInvariant(s: State, a: Action)
    requires Invariant(s) && Enabled(s, a)
    ensures Invariant(Apply(s, a))
  {
    match a
    case Write(_, _, _) =>
      WriteKeepsRequests(s, a);
      WriteKeepsWires(s, a);
    case ClientReplies(_, _) => ClientRepliesKeepsInvariant(s, a);
    case ClientFails(_) => ClientFailsKeepsInvariant(s, a);
    case GatewayReads(_) => GatewayReadsKeepsInvariant(s, a);
    case TakeWaiter(_) => TakeWaiterKeepsInvariant(s, a);
    case Register(_, _) => RegisterKeepsInvariant(s, a);
    case Disconnect(_) => DisconnectKeepsInvariant(s, a);
    case Draw(_) => DrawKeepsInvariant(s, a);
    case Deliver(_) => DeliverKeepsInvariant(s, a);
    case LookUp(_) => LookUpKeepsInvariant(s, a);
    case AddWaiter(_) => AddWaiterKeepsInvariant(s, a);
    case TimeOut(_) => TimeOutKeepsInvariant(s, a);
    case Receive(_) => ReceiveKeepsInvariant(s, a);
  }

  lemma {:induction false} RunKeepsInvariant(actions: seq<Action>, t: State)
    requires Reaches(INITIAL, actions, t)
    ensures Invariant(t)
  {
    if actions != [] {
      var n := |actions| - 1;
      var u :| Reaches(INITIAL, actions[..n], u) && Enabled(u, actions[n]) && t == Apply(u, actions[n]);
      RunKeepsInvariant(actions[..n], u);
      StepKeepsInvariant(u, actions[n]);
    }
  }

  ghost predicate Reachable(s: State) {
    exists actions :: Reaches(INITIAL, actions, s)
  }

  lemma ReachableKeepsInvariant(s: State)
    requires Reachable(s)
    ensures Invariant(s)
  {
    var actions :| Reaches(INITIAL, actions, s);
    RunKeepsInvariant(actions, s);
  }

  // ----- what callers may rely on -----

  /** In every interleaving a request has at most one holder, its channel gets at most one send and
      no `default` arm ever loses a result. */
  lemma OneHolderOneSend(s: State, r: Request)
    requires Reachable(s)
    ensures r in s.pending ==> r !in s.inHand && s.Sent(r) == []
    ensures r in s.inHand ==> s.Sent(r) == []
    ensures |s.Sent(r)| <= 1 && s.dropped == 0
  {
    ReachableKeepsInvariant(s);
    assert RequestInOrder(s, r);
  }

  /** In every interleaving a success returned by SendCommand is the reply to that very request, and
      the only reply a client ever emitted for it; likewise a rejection. */
  lemma SuccessIsTheReply(s: State, r: Request)
    requires Reachable(s)
    requires r in s.calls && s.calls[r].phase.Returned?
    ensures s.calls[r].phase.result.Success? ==> s.Answers(r) == [Completed(s.calls[r].phase.result.result)]
    ensures s.calls[r].phase.result.CommandRejected? ==> s.Answers(r) == [Rejected(s.calls[r].phase.result.reason)]
  {
    ReachableKeepsInvariant(s);
    assert RequestInOrder(s, r);
  }

  /** A client emits one reply for each command frame it reads, whatever happens to the call
      meanwhile; no request is ever answered twice. */
  lemma AnsweredOnce(s: State, c: Conn, reply: Reply)
    requires Reachable(s) && s.CommandsTo(c) != []
    ensures var r := s.CommandsTo(c)[0];
            s.Answers(r) == [] && Apply(s, ClientReplies(c, reply)).Answers(r) == [reply]
  {
    ReachableKeepsInvariant(s);
    assert CommandInOrder(s, c, 0);
  }

  /** An owner's disconnect takes every waiter of its machine, each to be told so, and no other. */
  lemma DisconnectTakesItsWaiters(s: State, c: Conn, r: Request)
    requires Reachable(s) && s.Owns(c) && Enabled(s, Disconnect(c)) && r in s.pending
    ensures var t := Apply(s, Disconnect(c));
      if s.pending[r] == s.registered[c]
      then r !in t.pending && r in t.inHand && t.inHand[r] == Disconnected(s.registered[c])
      else r in t.pending && t.pending[r] == s.pending[r] && r !in t.inHand
  {
    ReachableKeepsInvariant(s);
    assert RequestInOrder(s, r);
  }

  /** A waiter that was taken gets what was meant for it: the channel is free in every run. */
  lemma DeliveryArrives(s: State, r: Request)
    requires Reachable(s) && r in s.inHand
    ensures Apply(s, Deliver(r)).Sent(r) == [s.inHand[r]]
  {
    ReachableKeepsInvariant(s);
    assert RequestInOrder(s, r);
    assert s.Sent(r) + [s.inHand[r]] == [s.inHand[r]];
  }
}
