/** Which messages of the app server make the read loop wait for itself. The handler of the end of a
    turn refreshes the thread snapshot: it asks every registered runtime for its threads, in order, and
    so in time the very runner whose read loop is running it. The handler is a program of its own here,
    run step by step within the runs of the correlator. */
module ReadLoopStall {
  import opened Text
  import opened Sorting
  import opened CodexStream
  import opened ClientCommands
  import Correlator = StdioCorrelator

  datatype Input = Notice(n: Notification) | Request(approval: Approval)

  /** A message as it is dispatched: what the client was before, whether the frames about it can be
      sent, and what the registry holds, with its names in order. */
  datatype Message = Message(
    before: Client, input: Input, sent: bool, agents: map<Bytes, Agent>, names: seq<Bytes>)

  function EmittedFor(m: Message): seq<Emission> {
    match m.input
    case Notice(n) => Handle(m.before, n).emitted
    case Request(approval) => CodexStream.Ask(m.before, approval).emitted
  }

  /** Timeline events at which the daemon refreshes its thread snapshot. */
  predicate Refreshes(e: Emission) {
    e.Timeline? && e.kind in {TurnCompletedKind, TurnFailedKind}
  }

  ghost predicate SomeRefresh(emitted: seq<Emission>) {
    exists e <- emitted :: Refreshes(e)
  }

  predicate EndsATurn(input: Input) {
    input.Notice? && input.n.TurnCompleted? && input.n.threadID != "" && input.n.turnID != ""
  }

  /** Of all messages only the end of a turn that names thread and turn refreshes, and it always does. */
  lemma OnlyTurnEndsRefresh(m: Message)
    ensures SomeRefresh(EmittedFor(m)) <==> EndsATurn(m.input)
  {
    if EndsATurn(m.input) {
      assert Refreshes(EmittedFor(m)[0]);
    } else if m.input.Notice? {
      OthersDoNotRefresh(m.before, m.input.n);
    }
  }

  lemma OthersDoNotRefresh(c: Client, n: Notification)
    requires !(n.TurnCompleted? && n.threadID != "" && n.turnID != "")
    ensures !SomeRefresh(Handle(c, n).emitted)
  {
  }

  // ----- the handler as it runs -----

  /** The runtimes a refresh goes through. */
  ghost function PlanFor(m: Message): seq<Bytes> {
    if SomeRefresh(EmittedFor(m)) && m.sent then m.names else []
  }

  predicate Answers(m: Message, name: Bytes) {
    name in m.agents ==> m.agents[name].lists && m.agents[name].describes
  }

  /** `own` is the name under which the runtime of this read loop is registered, `plan` what the handler
      of the current message has left to ask, and `trace` the steps of the correlator so far. */
  datatype World = World(
    own: Bytes, runner: Correlator.State, message: Option<Message>, plan: seq<Bytes>, trace: seq<Correlator.Action>)

  datatype Step =
    | Elsewhere(action: Correlator.Action)
    | Read(m: Message)
    | AskOther
    | AskOwn
    | Resume
    | Return

  predicate OfHandler(a: Correlator.Action) {
    a.Dispatch? || a.HandlerCalls? || a.HandlerResumes? || a.HandlerReturns?
  }

  function ActionOf(step: Step): Correlator.Action
    requires !step.AskOther?
  {
    match step
    case Elsewhere(action) => action
    case Read(_) => Correlator.Dispatch
    case AskOwn => Correlator.HandlerCalls
    case Resume => Correlator.HandlerResumes
    case Return => Correlator.HandlerReturns
  }

  predicate CanTake(w: World, step: Step) {
    && (!step.AskOther? ==> Correlator.Enabled(w.runner, ActionOf(step)))
    && match step
       case Elsewhere(action) => !OfHandler(action)
       case Read(m) => IsSorting(m.names, m.agents.Keys)
       case AskOther => w.runner.reader.Handling? && w.message.Some? && w.plan != [] && w.plan[0] != w.own
       case AskOwn => w.plan != [] && w.plan[0] == w.own
       case Resume => true
       case Return => w.plan == []
  }

  /** Whether the call the handler is in has brought an answer; if not, the refresh ends with it. */
  predicate Succeeded(s: Correlator.State)
    requires s.reader.InCall? && s.reader.call in s.calls && s.calls[s.reader.call].Returned?
  {
    s.calls[s.reader.call].result.Success?
  }

  ghost function NextPlan(w: World, step: Step): seq<Bytes>
    requires CanTake(w, step)
  {
    match step
    case Read(m) => PlanFor(m)
    case AskOther => if Answers(w.message.value, w.plan[0]) then w.plan[1..] else []
    case Resume => if Succeeded(w.runner) && w.plan != [] then w.plan[1..] else []
    case _ => w.plan
  }

  ghost function Take(w: World, step: Step): World
    requires CanTake(w, step)
  {
    World(w.own,
          if step.AskOther? then w.runner else Correlator.Apply(w.runner, ActionOf(step)),
          if step.Read? then Some(step.m) else w.message,
          NextPlan(w, step),
          if step.AskOther? then w.trace else w.trace + [ActionOf(step)])
  }

  ghost predicate Runs(own: Bytes, steps: seq<Step>, w: World)
    decreases |steps|
  {
    if steps == [] then w == World(own, Correlator.INITIAL, None, [], [])
    else
      var n := |steps| - 1;
      exists u :: Runs(own, steps[..n], u) && CanTake(u, steps[n]) && w == Take(u, steps[n])
  }

  // ----- what the handler gets to -----

  /** The first `k` runtimes of the plan are others, and answered. */
  predicate Past(m: Message, full: seq<Bytes>, k: nat, own: Bytes) {
    k <= |full| && forall i :: 0 <= i < k ==> full[i] != own && Answers(m, full[i])
  }

  /** Nothing has been asked of the loop's own runtime: the plan is what is left, or another failed. */
  predicate Before(m: Message, full: seq<Bytes>, k: nat, own: Bytes, plan: seq<Bytes>) {
    && Past(m, full, k, own)
    && (plan == full[k..] || (plan == [] && k < |full| && full[k] != own && !Answers(m, full[k])))
  }

  predicate At(m: Message, full: seq<Bytes>, k: nat, own: Bytes) {
    Past(m, full, k, own) && k < |full| && full[k] == own
  }

  ghost predicate InStep(w: World, m: Message) {
    var full := PlanFor(m);
    match w.runner.reader
    case Handling(made) =>
      if made == {} then exists k: nat :: Before(m, full, k, w.own, w.plan)
      else w.plan == [] && exists k: nat :: At(m, full, k, w.own)
    case InCall(made, call) => made == {call} && exists k: nat :: At(m, full, k, w.own) && w.plan == full[k..]
    case _ => true
  }

  ghost predicate Kept(w: World) {
    && Correlator.Reaches(Correlator.INITIAL, w.trace, w.runner)
    && (w.message.Some? ==> InStep(w, w.message.value) && IsSorting(w.message.value.names, w.message.value.agents.Keys))
    && (w.runner.reader.Handling? || w.runner.reader.InCall? ==> w.message.Some?)
  }

  lemma TraceGrows(trace: seq<Correlator.Action>, s: Correlator.State, a: Correlator.Action)
    requires Correlator.Reaches(Correlator.INITIAL, trace, s) && Correlator.Enabled(s, a)
    ensures Correlator.Reaches(Correlator.INITIAL, trace + [a], Correlator.Apply(s, a))
  {
    var longer := trace + [a];
    assert longer[..|trace|] == trace && longer[|trace|] == a;
  }

  lemma ElsewhereKeepsReader(s: Correlator.State, a: Correlator.Action)
    requires Correlator.Enabled(s, a) && !OfHandler(a)
    ensures s.reader.Handling? || s.reader.InCall? ==> Correlator.Apply(s, a).reader == s.reader
    ensures var r := Correlator.Apply(s, a).reader; r.Handling? || r.InCall? ==> r == s.reader
  {
  }

  lemma AskingKeepsInStep(w: World, m: Message)
    requires InStep(w, m) && CanTake(w, AskOther) && w.message == Some(m)
    requires IsSorting(m.names, m.agents.Keys)
    ensures InStep(Take(w, AskOther), m)
  {
    var full := PlanFor(m);
    assert w.runner.reader.made == {};
    var k: nat :| Before(m, full, k, w.own, w.plan);
    assert w.plan == full[k..] && w.plan[0] == full[k];
    if Answers(m, full[k]) {
      assert full[k..][1..] == full[k + 1..];
      assert Before(m, full, k + 1, w.own, w.plan[1..]);
    } else {
      assert Before(m, full, k, w.own, []);
    }
  }

  lemma CallingKeepsInStep(w: World, m: Message)
    requires InStep(w, m) && CanTake(w, AskOwn)
    ensures InStep(Take(w, AskOwn), m)
  {
    var full := PlanFor(m);
    assert w.runner.reader.made == {};
    var k: nat :| Before(m, full, k, w.own, w.plan);
    assert w.plan == full[k..] && w.plan[0] == full[k];
    assert At(m, full, k, w.own);
  }

  /** The call brings no answer, so the refresh ends with it. */
  lemma ResumingKeepsInStep(w: World, m: Message)
    requires InStep(w, m) && CanTake(w, Resume) && Correlator.Reaches(Correlator.INITIAL, w.trace, w.runner)
    ensures InStep(Take(w, Resume), m)
  {
    var call := w.runner.reader.call;
    Correlator.RunKeepsInvariant(w.trace, w.runner);
    assert Correlator.InOrder(w.runner, call);
    assert !Succeeded(w.runner);
    var full := PlanFor(m);
    var k: nat :| At(m, full, k, w.own) && w.plan == full[k..];
    assert Take(w, Resume).plan == [];
  }

  lemma ReadingIsInStep(w: World, m: Message)
    requires CanTake(w, Read(m))
    ensures InStep(Take(w, Read(m)), m)
  {
    assert Before(m, PlanFor(m), 0, w.own, PlanFor(m));
  }

  lemma StepKeepsInStep(w: World, step: Step)
    requires Kept(w) && CanTake(w, step)
    ensures var v := Take(w, step); v.message.Some? ==> InStep(v, v.message.value)
  {
    match step
    case Elsewhere(action) => ElsewhereKeepsReader(w.runner, action);
    case Read(m) => ReadingIsInStep(w, m);
    case AskOther => AskingKeepsInStep(w, w.message.value);
    case AskOwn => CallingKeepsInStep(w, w.message.value);
    case Resume => ResumingKeepsInStep(w, w.message.value);
    case Return =>
  }

  lemma StepKeeps(w: World, step: Step)
    requires Kept(w) && CanTake(w, step)
    ensures Kept(Take(w, step))
  {
    StepKeepsInStep(w, step);
    if !step.AskOther? {
      TraceGrows(w.trace, w.runner, ActionOf(step));
    }
    if step.Elsewhere? {
      ElsewhereKeepsReader(w.runner, step.action);
    }
  }

  lemma {:induction false} RunKeeps(own: Bytes, steps: seq<Step>, w: World)
    requires Runs(own, steps, w)
    ensures Kept(w) && w.own == own
  {
    if steps != [] {
      var n := |steps| - 1;
      var u :| Runs(own, steps[..n], u) && CanTake(u, steps[n]) && w == Take(u, steps[n]);
      RunKeeps(own, steps[..n], u);
      StepKeeps(u, steps[n]);
    }
  }

  // ----- what makes the loop wait -----

  /** The message is the end of a turn, the frames about it can be sent, and every runtime that is
      listed before the loop's own lists its threads and describes its environment. */
  predicate GetsToItself(m: Message, own: Bytes) {
    && EndsATurn(m.input) && m.sent && own in m.agents
    && forall name <- m.agents :: Less(name, own) ==> m.agents[name].lists && m.agents[name].describes
  }

  lemma ReachedIffAnswered(names: seq<Bytes>, m: Message, k: nat, own: Bytes)
    requires IsSorting(m.names, m.agents.Keys) && names == m.names && k < |names| && names[k] == own
    ensures Past(m, names, k, own) <==> forall name <- m.agents :: Less(name, own) ==> Answers(m, name)
  {
    forall name <- m.agents
      ensures Less(name, own) <==> exists i :: 0 <= i < k && names[i] == name
    {
      assert name in Elements(names);
      var i :| 0 <= i < |names| && names[i] == name;
      LessIsTotal(name, own);
      if k < i {
        assert Less(names[k], names[i]);
      }
    }
    forall i | 0 <= i < k
      ensures names[i] != own && names[i] in m.agents && Less(names[i], own)
    {
      assert names[i] in Elements(names);
      LessIsTotal(names[i], names[k]);
    }
  }

  /** When the handler is through it has called on its own runner exactly in that case. */
  lemma HandlerCallsIff(own: Bytes, steps: seq<Step>, w: World)
    requires Runs(own, steps, w) && w.runner.reader.Handling? && w.plan == []
    ensures w.message.Some? && (w.runner.reader.made != {} <==> GetsToItself(w.message.value, own))
  {
    RunKeeps(own, steps, w);
    var m := w.message.value;
    var full := PlanFor(m);
    OnlyTurnEndsRefresh(m);
    if w.runner.reader.made != {} {
      var k: nat :| At(m, full, k, own);
      assert own in Elements(m.names);
      ReachedIffAnswered(full, m, k, own);
    } else {
      var k: nat :| Before(m, full, k, own, []);
      if own in full {
        var i :| 0 <= i < |full| && full[i] == own;
        ReachedIffAnswered(full, m, i, own);
        StoppedBefore(m, full, k, own, i);
      } else {
        assert own in Elements(m.names) <==> own in m.names;
      }
    }
  }

  /** Where the plan has come to an end before the loop's own runtime, another has failed. */
  lemma StoppedBefore(m: Message, full: seq<Bytes>, k: nat, own: Bytes, i: nat)
    requires Before(m, full, k, own, []) && i < |full| && full[i] == own
    ensures !Past(m, full, i, own)
  {
    assert k <= i;
    assert k < |full| && !Answers(m, full[k]);
  }

  /** In every run in which no write of the handler fails, the read loop has waited for a timer to
      handle a message exactly if that was the end of a turn, naming thread and turn, the frames about
      it could be sent, and every runtime listed before the loop's own answered; and nothing that the
      handler asked of its own runner was ever answered. */
  lemma TurnEndsStallTheReadLoop(own: Bytes, steps: seq<Step>, w: World)
    requires Runs(own, steps, w) && w.runner.reader.Handling? && w.plan == []
    requires forall id <- w.runner.reader.made :: Correlator.Write(id, false) !in w.trace
    ensures w.message.Some?
    ensures (exists id <- w.runner.reader.made :: Correlator.TimeOut(id) in w.trace)
       <==> GetsToItself(w.message.value, own)
    ensures forall id <- w.runner.reader.made :: w.runner.Sent(id) == []
  {
    RunKeeps(own, steps, w);
    HandlerCallsIff(own, steps, w);
    Correlator.DispatchWaitsIffItCalls(w.trace, w.runner);
    Correlator.RunKeepsInvariant(w.trace, w.runner);
    forall id <- w.runner.reader.made
      ensures w.runner.Sent(id) == []
    {
      assert Correlator.InOrder(w.runner, id);
    }
  }
}
