/** The JSON-RPC correlator between the client daemon and its child process. Unlike the gateway's,
    its sends block: one read loop, which every notification depends on, sends each result itself,
    and at the end of the stream it does so while it holds the lock of the table. The loop also runs
    the handlers of notifications and of server requests, and a handler may make calls of its own. */
module StdioCorrelator {

  type RequestID = nat

  datatype Reply = Value(result: string) | Failure(message: string)

  /** What is sent into the one-slot channel of a call. */
  datatype Outcome = Answered(reply: Reply) | StreamEnded

  datatype Result = Success(result: string) | RemoteError(message: string) | Closed | WriteFailed | TimedOut

  /** Where one activation of Call stands; `Abandoning` still has to take its entry out. */
  datatype Stage = Drawn | Registered | Waiting | Abandoning(result: Result) | Returned(result: Result)

  /** What the read loop is doing; it holds the lock while it fails what is pending. `made` are the
      calls that the handler of the current message has made, `InCall` is inside the last of them. */
  datatype Reader =
    | Reading
    | Sending(id: RequestID, outcome: Outcome)
    | Handling(made: set<RequestID>)
    | InCall(made: set<RequestID>, call: RequestID)
    | Failing
    | Ended

  datatype State = State(
    nextID: nat,
    calls: map<RequestID, Stage>,
    pending: set<RequestID>,
    channels: map<RequestID, seq<Outcome>>,
    reader: Reader,
    /** The calls that handlers have made. */
    fromHandler: set<RequestID>,
    /** Everything ever sent into the channel of a call. */
    sent: map<RequestID, seq<Outcome>>,
    /** Every response line read, in order. */
    responses: seq<(RequestID, Reply)>)
  {
    function Channel(id: RequestID): seq<Outcome> {
      if id in channels then channels[id] else []
    }

    function Sent(id: RequestID): seq<Outcome> {
      if id in sent then sent[id] else []
    }

    predicate At(id: RequestID, stage: Stage) {
      id in calls && calls[id] == stage
    }

    predicate LockFree() {
      !reader.Failing?
    }

    /** A send into a one-slot channel goes through when the slot is free. */
    predicate SlotFree(id: RequestID) {
      |Channel(id)| < 1
    }

    function Push(id: RequestID, outcome: Outcome): State {
      this.(channels := channels[id := Channel(id) + [outcome]], sent := sent[id := Sent(id) + [outcome]])
    }
  }

  const INITIAL := State(0, map[], {}, map[], Reading, {}, map[], [])

  datatype Action =
    | Draw
    | AddPending(id: RequestID)
    | Write(id: RequestID, succeeds: bool)
    | Response(id: RequestID, reply: Reply)
    | Send
    | Dispatch
    | HandlerCalls
    | HandlerResumes
    | HandlerReturns
    | EndOfStream
    | FailOne(id: RequestID)
    | FailDone
    | Receive(id: RequestID)
    | TimeOut(id: RequestID)
    | RemovePending(id: RequestID)

  predicate Enabled(s: State, a: Action) {
    match a
    case Draw => true
    case AddPending(id) => s.At(id, Drawn) && s.LockFree()
    case Write(id, _) => s.At(id, Registered)
    case Response(_, _) => s.reader.Reading?
    case Send => s.reader.Sending? && s.SlotFree(s.reader.id)
    case Dispatch => s.reader.Reading?
    case HandlerCalls => s.reader.Handling?
    case HandlerResumes => s.reader.InCall? && s.reader.call in s.calls && s.calls[s.reader.call].Returned?
    case HandlerReturns => s.reader.Handling?
    case EndOfStream => s.reader.Reading?
    case FailOne(id) => s.reader.Failing? && id in s.pending && s.SlotFree(id)
    case FailDone => s.reader.Failing? && s.pending == {}
    case Receive(id) => s.At(id, Waiting) && s.Channel(id) != []
    case TimeOut(id) => s.At(id, Waiting)
    case RemovePending(id) => id in s.calls && s.calls[id].Abandoning? && s.LockFree()
  }

  function ResultOf(outcome: Outcome): Result {
    match outcome
    case Answered(Value(result)) => Success(result)
    case Answered(Failure(message)) => RemoteError(message)
    case StreamEnded => Closed
  }

  function Apply(s: State, a: Action): State
    requires Enabled(s, a)
  {
    match a
    case Draw => s.(nextID := s.nextID + 1, calls := s.calls[s.nextID + 1 := Drawn])
    case AddPending(id) => s.(pending := s.pending + {id}, calls := s.calls[id := Registered])
    case Write(id, succeeds) => s.(calls := s.calls[id := if succeeds then Waiting else Abandoning(WriteFailed)])
    case Response(id, reply) =>
      var heard := s.(responses := s.responses + [(id, reply)], pending := s.pending - {id});
      if id in s.pending then heard.(reader := Sending(id, Answered(reply))) else heard
    case Send => s.Push(s.reader.id, s.reader.outcome).(reader := Reading)
    case Dispatch => s.(reader := Handling({}))
    case HandlerCalls =>
      var id := s.nextID + 1;
      s.(nextID := id, calls := s.calls[id := Drawn], fromHandler := s.fromHandler + {id},
         reader := InCall(s.reader.made + {id}, id))
    case HandlerResumes => s.(reader := Handling(s.reader.made))
    case HandlerReturns => s.(reader := Reading)
    case EndOfStream => s.(reader := Failing)
    case FailOne(id) => s.Push(id, StreamEnded).(pending := s.pending - {id})
    case FailDone => s.(reader := Ended)
    case Receive(id) =>
      s.(channels := s.channels[id := s.Channel(id)[1..]], calls := s.calls[id := Returned(ResultOf(s.Channel(id)[0]))])
    case TimeOut(id) => s.(calls := s.calls[id := Abandoning(TimedOut)])
    case RemovePending(id) => s.(pending := s.pending - {id}, calls := s.calls[id := Returned(s.calls[id].result)])
  }

  ghost predicate Reaches(s: State, actions: seq<Action>, t: State)
    decreases |actions|
  {
    if actions == [] then s == t
    else
      var n := |actions| - 1;
      exists u :: Reaches(s, actions[..n], u) && Enabled(u, actions[n]) && t == Apply(u, actions[n])
  }

  // ----- the invariant -----

  predicate InHand(s: State, id: RequestID) {
    s.reader.Sending? && s.reader.id == id
  }

  /** An answer is a response that was read under this very identifier. */
  predicate WasRead(s: State, id: RequestID, outcome: Outcome) {
    outcome.Answered? ==> (id, outcome.reply) in s.responses
  }

  predicate Justified(s: State, id: RequestID, result: Result) {
    match result
    case Success(value) => s.Sent(id) == [Answered(Value(value))] && (id, Value(value)) in s.responses
    case RemoteError(message) => s.Sent(id) == [Answered(Failure(message))] && (id, Failure(message)) in s.responses
    case Closed => s.Sent(id) == [StreamEnded]
    case _ => true
  }

  /** A request is pending, in the read loop's hand, or has had its one result, never two of these;
      only the last can fill its channel. */
  predicate InOrder(s: State, id: RequestID) {
    && (id in s.calls ==> id <= s.nextID)
    && (id !in s.calls || s.At(id, Drawn) ==> id !in s.pending && !InHand(s, id) && s.Sent(id) == [])
    && (id in s.pending ==> !InHand(s, id) && s.Sent(id) == [])
    && (InHand(s, id) ==> s.Sent(id) == [] && WasRead(s, id, s.reader.outcome))
    && |s.Sent(id)| <= 1
    && (s.Sent(id) != [] ==> WasRead(s, id, s.Sent(id)[0]))
    && (s.Channel(id) == [] || s.Channel(id) == s.Sent(id))
    && (id in s.calls && (s.calls[id].Returned? || s.calls[id].Abandoning?) ==> Justified(s, id, s.calls[id].result))
    && (id in s.calls && s.calls[id].Returned? ==> id !in s.pending)
    && HandlerInOrder(s, id)
  }

  predicate Failed(stage: Stage) {
    (stage.Returned? || stage.Abandoning?) ==> stage.result in {WriteFailed, TimedOut}
  }

  /** A call that a handler made has returned, or the read loop is inside it; nobody can ever answer
      it, for that is the read loop's own work. */
  predicate HandlerInOrder(s: State, id: RequestID) {
    && (id in s.fromHandler ==>
          && id in s.calls && Failed(s.calls[id]) && s.Sent(id) == [] && !InHand(s, id)
          && (s.calls[id].Returned? || (s.reader.InCall? && s.reader.call == id)))
    && ((s.reader.Handling? || s.reader.InCall?) && id in s.reader.made ==> id in s.fromHandler)
    && (s.reader.InCall? && s.reader.call == id ==> id in s.reader.made)
  }

  ghost predicate Invariant(s: State) {
    forall id: RequestID :: InOrder(s, id)
  }

  lemma CallStepKeepsInvariant(s: State, a: Action)
    requires Invariant(s) && Enabled(s, a)
    requires a.Draw? || a.AddPending? || a.Write? || a.TimeOut? || a.RemovePending? || a.Receive?
    ensures Invariant(Apply(s, a))
  {
    var t := Apply(s, a);
    assert InOrder(s, s.nextID + 1);
    forall id: RequestID
      ensures InOrder(t, id)
    {
      assert InOrder(s, id);
    }
  }

  lemma ReaderStepKeepsInvariant(s: State, a: Action)
    requires Invariant(s) && Enabled(s, a)
    requires a.Response? || a.Send? || a.EndOfStream? || a.FailOne? || a.FailDone?
    ensures Invariant(Apply(s, a))
  {
    var t := Apply(s, a);
    forall id: RequestID
      ensures InOrder(t, id)
    {
      assert InOrder(s, id);
    }
  }

  lemma HandlerStepKeepsInvariant(s: State, a: Action)
    requires Invariant(s) && Enabled(s, a)
    requires a.Dispatch? || a.HandlerCalls? || a.HandlerResumes? || a.HandlerReturns?
    ensures Invariant(Apply(s, a))
  {
    var t := Apply(s, a);
    assert InOrder(s, s.nextID + 1);
    forall id: RequestID
      ensures InOrder(t, id)
    {
      assert InOrder(s, id);
    }
  }

  lemma StepKeepsInvariant(s: State, a: Action)
    requires Invariant(s) && Enabled(s, a)
    ensures Invariant(Apply(s, a))
  {
    if a.Draw? || a.AddPending? || a.Write? || a.TimeOut? || a.RemovePending? || a.Receive? {
      CallStepKeepsInvariant(s, a);
    } else if a.Dispatch? || a.HandlerCalls? || a.HandlerResumes? || a.HandlerReturns? {
      HandlerStepKeepsInvariant(s, a);
    } else {
      ReaderStepKeepsInvariant(s, a);
    }
  }

  lemma {:induction false} RunKeepsInvariant(actions: seq<Action>, t: State)
    requires Reaches(INITIAL, actions, t)
    ensures Invariant(t)
  {
    if actions != [] {
      var n := |actions| - 1;
      var u :| Reaches(INITIAL, actions[..n], u) && Enabled(u, actions[n]) && t == Apply(u, actions[n]);
      RunKeepsInvariant(actions[..n], u);
      StepKeepsInvariant(u, actions[n]);
    }
  }

  ghost predicate Reachable(s: State) {
    exists actions :: Reaches(INITIAL, actions, s)
  }

  lemma ReachableKeepsInvariant(s: State)
    requires Reachable(s)
    ensures Invariant(s)
  {
    var actions :| Reaches(INITIAL, actions, s);
    RunKeepsInvariant(actions, s);
  }

  // ----- what callers may rely on -----

  /** In every interleaving a send of the read loop never blocks: it never finds the slot taken, nor
      does any send the loop makes while it holds the lock. */
  lemma SendsNeverBlock(s: State)
    requires Reachable(s)
    ensures s.reader.Sending? ==> Enabled(s, Send)
    ensures s.reader.Failing? ==> forall id <- s.pending :: Enabled(s, FailOne(id))
    ensures s.reader.Failing? && s.pending == {} ==> Enabled(s, FailDone)
  {
    ReachableKeepsInvariant(s);
    if s.reader.Sending? {
      assert InOrder(s, s.reader.id);
    }
    forall id <- s.pending
      ensures s.SlotFree(id)
    {
      assert InOrder(s, id);
    }
  }

  // ----- calls from handlers -----

  /** A call that a handler makes on the runner whose read loop runs the handler fails: nobody else
      can read its answer. When it was written it ends by its timer, and no other call from the same
      loop is ever under way. */
  lemma HandlerCallsOnlyFail(s: State, id: RequestID)
    requires Reachable(s) && id in s.fromHandler
    ensures id in s.calls
    ensures s.calls[id].Returned? ==> s.calls[id].result in {WriteFailed, TimedOut}
    ensures !s.calls[id].Returned? ==> s.reader.InCall? && s.reader.call == id
    ensures s.Sent(id) == []
  {
    ReachableKeepsInvariant(s);
    assert InOrder(s, id);
  }

  predicate Written(stage: Stage) {
    stage.Waiting? || ((stage.Abandoning? || stage.Returned?) && stage.result != WriteFailed)
  }

  predicate Unwritten(stage: Stage) {
    (stage.Abandoning? || stage.Returned?) && stage.result == WriteFailed
  }

  predicate Expired(stage: Stage) {
    (stage.Abandoning? || stage.Returned?) && stage.result == TimedOut
  }

  /** How far a call is tells whether its request was written and whether its timer has run out. */
  predicate Traced(actions: seq<Action>, s: State, id: RequestID) {
    && (Write(id, true) in actions <==> id in s.calls && Written(s.calls[id]))
    && (TimeOut(id) in actions <==> id in s.calls && Expired(s.calls[id]))
    && (Write(id, false) in actions <==> id in s.calls && Unwritten(s.calls[id]))
  }

  lemma StepIsTraced(actions: seq<Action>, s: State, a: Action, id: RequestID)
    requires Invariant(s) && Enabled(s, a) && Traced(actions, s, id)
    ensures Traced(actions + [a], Apply(s, a), id)
  {
    var t := Apply(s, a);
    assert InOrder(s, id) && InOrder(s, s.nextID + 1);
  }

  lemma {:induction false} RunIsTraced(actions: seq<Action>, s: State, id: RequestID)
    requires Reaches(INITIAL, actions, s)
    ensures Traced(actions, s, id)
  {
    if actions != [] {
      var n := |actions| - 1;
      var u :| Reaches(INITIAL, actions[..n], u) && Enabled(u, actions[n]) && s == Apply(u, actions[n]);
      RunIsTraced(actions[..n], u, id);
      RunKeepsInvariant(actions[..n], u);
      StepIsTraced(actions[..n], u, actions[n], id);
      assert actions == actions[..n] + [actions[n]];
    }
  }

  /** When the handler of a message is about to return, it has waited for a timer exactly if some
      call it made on its own runner was written. A handler that makes no call never waits for one,
      and if no write fails every handler that makes a call does. */
  lemma DispatchWaitsIffItCalls(actions: seq<Action>, s: State)
    requires Reaches(INITIAL, actions, s) && s.reader.Handling?
    ensures (exists id <- s.reader.made :: TimeOut(id) in actions)
        <==> (exists id <- s.reader.made :: Write(id, true) in actions)
    ensures (forall id <- s.reader.made :: Write(id, false) !in actions) ==>
        ((exists id <- s.reader.made :: TimeOut(id) in actions) <==> s.reader.made != {})
  {
    RunKeepsInvariant(actions, s);
    forall id <- s.reader.made
      ensures TimeOut(id) in actions <==> Write(id, true) in actions
      ensures Write(id, true) in actions || Write(id, false) in actions
    {
      assert InOrder(s, id);
      RunIsTraced(actions, s, id);
    }
    if s.reader.made != {} {
      var id :| id in s.reader.made;
    }
  }

  /** The read loop waits inside the call of a handler. */
  predicate Stands(s: State) {
    s.reader.InCall? && s.At(s.reader.call, Waiting)
  }

  /** While a handler waits for a call of its own, the loop reads no response and sends no result to
      anyone, whatever else happens, until that call's timer runs out. */
  lemma NothingIsReadMeanwhile(s: State, actions: seq<Action>, t: State, other: RequestID)
    requires Reachable(s) && Stands(s)
    requires Reaches(s, actions, t) && TimeOut(s.reader.call) !in actions
    ensures Stands(t) && t.reader == s.reader && t.responses == s.responses && t.sent == s.sent
    ensures Unanswered(s, other) ==> Unanswered(t, other)
  {
    ReachableKeepsInvariant(s);
    StillWaiting(s, actions, t, other);
  }

  /** The call waits, or has given up or returned by its timer. */
  predicate Unanswered(s: State, id: RequestID) {
    id in s.calls && s.Sent(id) == [] && (s.calls[id].Waiting? || Expired(s.calls[id]))
  }

  lemma StepStillWaits(s: State, a: Action, other: RequestID)
    requires Invariant(s) && Enabled(s, a) && Stands(s) && a != TimeOut(s.reader.call)
    ensures var t := Apply(s, a); Stands(t) && t.reader == s.reader && t.responses == s.responses && t.sent == s.sent
    ensures Unanswered(s, other) ==> Unanswered(Apply(s, a), other)
  {
    assert InOrder(s, s.reader.call) && InOrder(s, other) && InOrder(s, s.nextID + 1);
  }

  lemma {:induction false} StillWaiting(s: State, actions: seq<Action>, t: State, other: RequestID)
    requires Invariant(s) && Stands(s)
    requires Reaches(s, actions, t) && TimeOut(s.reader.call) !in actions
    ensures Invariant(t) && Stands(t) && t.reader == s.reader && t.responses == s.responses && t.sent == s.sent
    ensures Unanswered(s, other) ==> Unanswered(t, other)
    decreases |actions|
  {
    if actions != [] {
      var n := |actions| - 1;
      var u :| Reaches(s, actions[..n], u) && Enabled(u, actions[n]) && t == Apply(u, actions[n]);
      StillWaiting(s, actions[..n], u, other);
      StepKeepsInvariant(u, actions[n]);
      assert actions[n] in actions;
      StepStillWaits(u, actions[n], other);
    }
  }

  lemma Extend(s: State, a: Action)
    requires Reachable(s) && Enabled(s, a)
    ensures Reachable(Apply(s, a))
  {
    var actions :| Reaches(INITIAL, actions, s);
    var longer := actions + [a];
    assert longer[..|actions|] == actions;
    assert Reaches(INITIAL, longer, Apply(s, a));
  }

  function Stalled(): State {
    State(2, map[1 := Waiting, 2 := Waiting], {1, 2}, map[], InCall({2}, 2), {2}, map[], [])
  }

  function Asked(): State {
    State(1, map[1 := Waiting], {1}, map[], Reading, {}, map[], [])
  }

  lemma AskedIsReachable()
    ensures Reachable(Asked())
  {
    assert Reaches(INITIAL, [], INITIAL);
    Extend(INITIAL, Draw);
    var s1 := Apply(INITIAL, Draw);
    Extend(s1, AddPending(1));
    var s2 := Apply(s1, AddPending(1));
    Extend(s2, Write(1, true));
    assert Apply(s2, Write(1, true)) == Asked();
  }

  function Called(): State {
    State(2, map[1 := Waiting, 2 := Drawn], {1}, map[], InCall({2}, 2), {2}, map[], [])
  }

  lemma CalledIsReachable()
    ensures Reachable(Called())
  {
    AskedIsReachable();
    Extend(Asked(), Dispatch);
    var s4 := Apply(Asked(), Dispatch);
    Extend(s4, HandlerCalls);
    assert {} + {2} == {2} && map[1 := Waiting][2 := Drawn] == map[1 := Waiting, 2 := Drawn];
    assert Apply(s4, HandlerCalls) == Called();
  }

  /** A request goes out, and then a message is dispatched whose handler makes one. */
  lemma StalledIsReachable()
    ensures Reachable(Stalled())
  {
    CalledIsReachable();
    Extend(Called(), AddPending(2));
    var s6 := Apply(Called(), AddPending(2));
    Extend(s6, Write(2, true));
    assert Apply(s6, Write(2, true)) == Stalled();
  }

  /** The read loop does stall: in every continuation of that run the first request has no answer
      until the timer of the handler's call has run out, however soon its response arrives. */
  lemma CallInHandlerStarvesOthers(actions: seq<Action>, t: State)
    requires Reaches(Stalled(), actions, t)
    ensures Reachable(Stalled()) && Stalled().At(1, Waiting) && Stalled().reader.InCall?
    ensures TimeOut(2) !in actions ==> t.reader == InCall({2}, 2) && Unanswered(t, 1)
  {
    StalledIsReachable();
    if TimeOut(2) !in actions {
      NothingIsReadMeanwhile(Stalled(), actions, t, 1);
    }
  }

  // ----- results -----

  /** In every interleaving of calls, timeouts, late or duplicate responses and the end of the
      stream, a call gets at most one result, and a result it returns is the one sent to it, read
      under its own identifier. */
  lemma OneResultOfItsOwn(s: State, id: RequestID)
    requires Reachable(s)
    ensures |s.Sent(id)| <= 1
    ensures id in s.calls && s.calls[id].Returned? ==>
      match s.calls[id].result
      case Success(value) => s.Sent(id) == [Answered(Value(value))] && (id, Value(value)) in s.responses
      case RemoteError(message) => s.Sent(id) == [Answered(Failure(message))] && (id, Failure(message)) in s.responses
      case Closed => s.Sent(id) == [StreamEnded]
      case _ => true
  {
    ReachableKeepsInvariant(s);
    assert InOrder(s, id);
  }

  /** A response whose call has already been answered, has given up or was never made is dropped:
      it is noted as read and changes nothing else. */
  lemma StrayResponseIgnored(s: State, id: RequestID, reply: Reply)
    requires Reachable(s) && Enabled(s, Response(id, reply))
    requires id !in s.calls || s.Sent(id) != [] || s.calls[id].Drawn? || s.calls[id].Returned?
    ensures Apply(s, Response(id, reply)) == s.(responses := s.responses + [(id, reply)])
  {
    ReachableKeepsInvariant(s);
    assert InOrder(s, id);
  }

  function Entry(queues: map<RequestID, seq<Outcome>>, id: RequestID): seq<Outcome> {
    if id in queues then queues[id] else []
  }

  /** The end of the stream put into every queue of `ids`. */
  function WithEnd(queues: map<RequestID, seq<Outcome>>, ids: set<RequestID>): map<RequestID, seq<Outcome>> {
    queues + map id | id in ids :: Entry(queues, id) + [StreamEnded]
  }

  lemma WithEndOneByOne(queues: map<RequestID, seq<Outcome>>, ids: set<RequestID>, id: RequestID)
    requires id in ids
    ensures WithEnd(queues[id := Entry(queues, id) + [StreamEnded]], ids - {id}) == WithEnd(queues, ids)
  {
    var next := queues[id := Entry(queues, id) + [StreamEnded]];
    var one, all := WithEnd(next, ids - {id}), WithEnd(queues, ids);
    assert one.Keys == queues.Keys + ids == all.Keys;
    forall other <- all
      ensures one[other] == all[other]
    {
      assert other != id ==> Entry(next, other) == Entry(queues, other);
    }
  }

  /** What the read loop leaves behind when it fails everything pending. */
  function Drained(s: State): State
    requires s.reader.Failing?
  {
    s.(pending := {}, reader := Ended,
       channels := WithEnd(s.channels, s.pending), sent := WithEnd(s.sent, s.pending))
  }

  lemma ReachesNext(s: State, actions: seq<Action>, u: State, a: Action)
    requires Reaches(s, actions, u) && Enabled(u, a)
    ensures Reaches(s, actions + [a], Apply(u, a))
  {
    var whole, n := actions + [a], |actions|;
    assert whole[..n] == actions && whole[n] == a;
    assert Reaches(s, whole[..n], u) && Enabled(u, whole[n]);
  }

  lemma {:induction false} Prepend(s: State, a: Action, actions: seq<Action>, t: State)
    requires Enabled(s, a) && Reaches(Apply(s, a), actions, t)
    ensures Reaches(s, [a] + actions, t)
    decreases |actions|
  {
    if actions == [] {
      ReachesNext(s, [], s, a);
      assert [] + [a] == [a] + actions;
    } else {
      var n := |actions| - 1;
      var u :| Reaches(Apply(s, a), actions[..n], u) && Enabled(u, actions[n]) && t == Apply(u, actions[n]);
      Prepend(s, a, actions[..n], u);
      ReachesNext(s, [a] + actions[..n], u, actions[n]);
      assert [a] + actions[..n] + [actions[n]] == [a] + actions;
    }
  }

  lemma DrainedIsTheSame(s: State, id: RequestID)
    requires s.reader.Failing? && id in s.pending && s.SlotFree(id)
    ensures Drained(Apply(s, FailOne(id))) == Drained(s)
  {
    WithEndOneByOne(s.channels, s.pending, id);
    WithEndOneByOne(s.sent, s.pending, id);
  }

  /** Everyone who was pending has been told, and told nothing else. */
  lemma DrainedTellsEveryone(s: State, id: RequestID)
    requires Invariant(s) && s.reader.Failing? && id in s.pending
    ensures Drained(s).Channel(id) == Drained(s).Sent(id) == [StreamEnded]
  {
    assert InOrder(s, id);
  }

  /** With the lock held the read loop gets through to its end alone, whatever the callers do or
      fail to do: one send for each pending call, none of which has to wait for a receiver. */
  lemma {:induction false} FailPendingTerminates(s: State) returns (actions: seq<Action>)
    requires Invariant(s) && s.reader.Failing?
    ensures |actions| == |s.pending| + 1 && forall a <- actions :: a.FailOne? || a.FailDone?
    ensures Reaches(s, actions, Drained(s))
    decreases |s.pending|
  {
    if s.pending == {} {
      actions := [FailDone];
      assert Reaches(s, actions[..0], s);
      assert Drained(s) == Apply(s, FailDone);
    } else {
      var id :| id in s.pending;
      assert InOrder(s, id);
      var next := Apply(s, FailOne(id));
      ReaderStepKeepsInvariant(s, FailOne(id));
      var rest := FailPendingTerminates(next);
      DrainedIsTheSame(s, id);
      Prepend(s, FailOne(id), rest, Drained(s));
      actions := [FailOne(id)] + rest;
    }
  }

  /** A call that reaches the table after the stream has ended can only fail to write or time out:
      no continuation gives it a result. */
  lemma {:induction false} LateCallsOnlyTimeOut(s: State, actions: seq<Action>, t: State, id: RequestID)
    requires Invariant(s) && s.reader.Ended? && s.Sent(id) == []
    requires Reaches(s, actions, t)
    ensures t.reader.Ended? && t.Sent(id) == [] && Invariant(t)
    ensures id in t.calls && t.calls[id].Returned? ==> t.calls[id].result in {WriteFailed, TimedOut}
    decreases |actions|
  {
    if actions != [] {
      var n := |actions| - 1;
      var u :| Reaches(s, actions[..n], u) && Enabled(u, actions[n]) && t == Apply(u, actions[n]);
      LateCallsOnlyTimeOut(s, actions[..n], u, id);
      StepKeepsInvariant(u, actions[n]);
    }
    assert InOrder(t, id);
  }

  // ----- a call that nothing interferes with -----

  /** A call is drawn under a new identifier, enters the table and is written. */
  lemma CallIsWritten(s: State)
    requires s.LockFree()
    ensures var id, a := s.nextID + 1, Apply(s, Draw);
      && Enabled(a, AddPending(id)) && Enabled(Apply(a, AddPending(id)), Write(id, true))
      && var t := Apply(Apply(a, AddPending(id)), Write(id, true));
      && t.At(id, Waiting) && t.pending == s.pending + {id} && t.nextID == id && t.reader == s.reader
      && t.calls == s.calls[id := Waiting] && t.channels == s.channels
  {
  }

  /** The response to a call that waits is what the call returns, a value as a success and a failure as
      the remote's, and the read loop goes on reading. */
  lemma ResponseIsReturned(s: State, id: RequestID, reply: Reply)
    requires Reachable(s) && s.reader.Reading? && id in s.pending && s.At(id, Waiting)
    ensures var a := Apply(s, Response(id, reply));
      && Enabled(a, Send) && Enabled(Apply(a, Send), Receive(id))
      && var t := Apply(Apply(a, Send), Receive(id));
      && t.At(id, Returned(match reply case Value(result) => Success(result)
                                       case Failure(message) => RemoteError(message)))
      && t.pending == s.pending - {id} && t.reader.Reading?
      && forall other | other != id :: t.Channel(other) == s.Channel(other)
  {
    ReachableKeepsInvariant(s);
    assert InOrder(s, id);
  }

  /** A call that waits when the stream ends returns that it is closed. */
  lemma EndIsReturned(s: State, id: RequestID)
    requires Reachable(s) && s.reader.Failing? && id in s.pending && s.At(id, Waiting)
    ensures Enabled(Drained(s), Receive(id)) && Apply(Drained(s), Receive(id)).At(id, Returned(Closed))
  {
    ReachableKeepsInvariant(s);
    DrainedTellsEveryone(s, id);
  }

  /** A call that cannot be written, or is not told in time, takes its entry out and returns so. */
  lemma FailuresAreReturned(s: State, id: RequestID)
    requires s.LockFree()
    ensures (Enabled(s, Write(id, false)) ==>
      var a := Apply(s, Write(id, false));
      Enabled(a, RemovePending(id)) && id !in Apply(a, RemovePending(id)).pending
        && Apply(a, RemovePending(id)).At(id, Returned(WriteFailed)))
    ensures (Enabled(s, TimeOut(id)) ==>
      var a := Apply(s, TimeOut(id));
      Enabled(a, RemovePending(id)) && id !in Apply(a, RemovePending(id)).pending
        && Apply(a, RemovePending(id)).At(id, Returned(TimedOut)))
  {
  }

  // ----- the runner's table -----

  /** The table as the runner keeps it; each method is one critical section. */
  class StdioRunner {
    var nextID: nat
    var pending: set<RequestID>
    var channels: map<RequestID, seq<Outcome>>

    constructor ()
      ensures nextID == 0 && pending == {} && channels == map[]
    {
      nextID, pending, channels := 0, {}, map[];
    }

    /** The part of a state this object holds. */
    ghost predicate Holds(s: State)
      reads this
    {
      nextID == s.nextID && pending == s.pending && channels == s.channels
    }

    function Channel(id: RequestID): seq<Outcome>
      reads this
    {
      if id in channels then channels[id] else []
    }

    method Push(id: RequestID, outcome: Outcome)
      requires Channel(id) == []
      modifies `channels
      ensures channels == old(channels)[id := [outcome]]
    {
      assert Channel(id) + [outcome] == [outcome];
      channels := channels[id := Channel(id) + [outcome]];
    }

    method RemoveEntry(id: RequestID)
      modifies `pending
      ensures pending == old(pending) - {id}
    {
      pending := pending - {id};
    }

    /** The read loop on a response line: take the entry out, then send. */
    method Deliver(ghost s: State, id: RequestID, reply: Reply)
      requires Holds(s) && Invariant(s) && s.reader.Reading?
      modifies this
      ensures var t := Apply(s, Response(id, reply));
              if t.reader.Sending? then Enabled(t, Send) && Holds(Apply(t, Send)) else Holds(t)
    {
      assert InOrder(s, id);
      var known := id in pending;
      pending := pending - {id};
      if !known {
        return;
      }
      assert s.Channel(id) + [Answered(reply)] == [Answered(reply)];
      Push(id, Answered(reply));
    }

    method FailPending(ghost s: State)
      requires Holds(s) && Invariant(s) && s.reader.Failing?
      modifies `pending, `channels
      ensures Holds(Drained(s))
    {
      forall id <- pending
        ensures Entry(channels, id) == []
      {
        assert InOrder(s, id);
      }
      while pending != {}
        invariant pending <= s.pending
        invariant WithEnd(channels, pending) == WithEnd(s.channels, s.pending)
        invariant forall id <- pending :: Entry(channels, id) == []
        decreases pending
      {
        var id :| id in pending;
        WithEndOneByOne(channels, pending, id);
        assert Entry(channels, id) + [StreamEnded] == [StreamEnded];
        Push(id, StreamEnded);
        RemoveEntry(id);
      }
      assert WithEnd(channels, {}) == channels;
    }
  }
}
