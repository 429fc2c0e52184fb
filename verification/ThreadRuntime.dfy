/** A thread's runtime preferences: what the user asked for, what the client believes the server
    holds, and the override that a turn's start carries. */
module ThreadRuntime {
  import opened Text

  /** The normal forms of an approval policy; `NoPolicy` is the empty string. */
  datatype Policy = NoPolicy | Untrusted | OnFailure | OnRequest | Never | Granular

  datatype Mode = NoMode | ReadOnly | WorkspaceWrite | DangerFullAccess

  datatype Prefs = Prefs(model: Bytes, policy: Policy, mode: Mode)

  const NO_PREFS := Prefs([], NoPolicy, NoMode)

  /** A decoded JSON value; `kind` is an object's "type" if that is a string. */
  datatype Value = TextValue(text: Bytes) | ObjectValue(kind: Bytes) | OtherValue

  // ----- normal forms -----

  function LowerByte(c: Byte): Byte {
    if Between(c, 65, 90) then (c as int + 32) as char else c
  }

  /** Go's strings.ToLower on ASCII text. */
  function Lower(s: Bytes): Bytes {
    seq(|s|, i requires 0 <= i < |s| => LowerByte(s[i]))
  }

  function PolicyNamed(name: Bytes): Policy {
    if name == "untrusted" || name == "unless-trusted" || name == "unless_trusted" then Untrusted
    else if name == "on-failure" || name == "on_failure" || name == "onfailure" then OnFailure
    else if name == "on-request" || name == "on_request" || name == "onrequest" then OnRequest
    else if name == "never" then Never
    else if name == "granular" then Granular
    else NoPolicy
  }

  function PolicyOfText(text: Bytes): Policy {
    PolicyNamed(Lower(TrimSpace(text)))
  }

  function ModeNamed(name: Bytes): Mode {
    if name == "readonly" || name == "read-only" || name == "read_only" || name == "readonlymode" then ReadOnly
    else if name == "workspacewrite" || name == "workspace-write" || name == "workspace_write" then WorkspaceWrite
    else if name == "dangerfullaccess" || name == "danger-full-access" || name == "danger_full_access" then
      DangerFullAccess
    else if name == "externalsandbox" || name == "external-sandbox" || name == "external_sandbox" then DangerFullAccess
    else NoMode
  }

  function ModeOfText(text: Bytes): Mode {
    ModeNamed(Lower(TrimSpace(text)))
  }

  function ModeOf(value: Value): Mode {
    match value
    case TextValue(text) => ModeOfText(text)
    case ObjectValue(kind) => ModeOfText(kind)
    case OtherValue => NoMode
  }

  /** The spelling the client stores. */
  function PolicySpelling(policy: Policy): Bytes {
    match policy
    case NoPolicy => []
    case Untrusted => "untrusted"
    case OnFailure => "on-failure"
    case OnRequest => "on-request"
    case Never => "never"
    case Granular => "granular"
  }

  function ModeSpelling(mode: Mode): Bytes {
    match mode
    case NoMode => []
    case ReadOnly => "read-only"
    case WorkspaceWrite => "workspace-write"
    case DangerFullAccess => "danger-full-access"
  }

  /** The spelling the override carries. */
  function SandboxType(mode: Mode): Option<Bytes> {
    match mode
    case NoMode => None
    case ReadOnly => Some("readOnly")
    case WorkspaceWrite => Some("workspaceWrite")
    case DangerFullAccess => Some("dangerFullAccess")
  }

  lemma VisibleText(text: Bytes, lower: Bytes)
    requires text != [] && Between(text[0], 33, 126) && Between(text[|text| - 1], 33, 126)
    requires |text| == |lower| && forall i :: 0 <= i < |text| ==> LowerByte(text[i]) == lower[i]
    ensures Lower(TrimSpace(text)) == lower
  {
    VisibleEndsAreTrimmed(text);
  }

  // each spelling reads back as what it spells

  lemma UntrustedReads()
    ensures PolicyOfText("untrusted") == Untrusted
  {
    VisibleText("untrusted", "untrusted");
  }

  lemma OnFailureReads()
    ensures PolicyOfText("on-failure") == OnFailure
  {
    VisibleText("on-failure", "on-failure");
  }

  lemma OnRequestReads()
    ensures PolicyOfText("on-request") == OnRequest
  {
    VisibleText("on-request", "on-request");
  }

  lemma NeverReads()
    ensures PolicyOfText("never") == Never
  {
    VisibleText("never", "never");
  }

  lemma GranularReads()
    ensures PolicyOfText("granular") == Granular
  {
    VisibleText("granular", "granular");
  }

  lemma ReadOnlyReads()
    ensures ModeOfText("read-only") == ReadOnly
  {
    VisibleText("read-only", "read-only");
  }

  lemma WorkspaceWriteReads()
    ensures ModeOfText("workspace-write") == WorkspaceWrite
  {
    VisibleText("workspace-write", "workspace-write");
  }

  lemma DangerFullAccessReads()
    ensures ModeOfText("danger-full-access") == DangerFullAccess
  {
    VisibleText("danger-full-access", "danger-full-access");
  }

  lemma SentReadOnlyReads()
    ensures ModeOfText("readOnly") == ReadOnly
  {
    VisibleText("readOnly", "readonly");
  }

  lemma SentWorkspaceWriteReads()
    ensures ModeOfText("workspaceWrite") == WorkspaceWrite
  {
    VisibleText("workspaceWrite", "workspacewrite");
  }

  lemma SentDangerFullAccessReads()
    ensures ModeOfText("dangerFullAccess") == DangerFullAccess
  {
    VisibleText("dangerFullAccess", "dangerfullaccess");
  }

  lemma NothingReads()
    ensures PolicyOfText([]) == NoPolicy && ModeOfText([]) == NoMode
  {
    assert Trimmed([]) && Lower([]) == [];
  }

  lemma PolicySpellingIsNormal(policy: Policy)
    ensures PolicyOfText(PolicySpelling(policy)) == policy
  {
    match policy
    case NoPolicy => NothingReads();
    case Untrusted => UntrustedReads();
    case OnFailure => OnFailureReads();
    case OnRequest => OnRequestReads();
    case Never => NeverReads();
    case Granular => GranularReads();
  }

  lemma ModeSpellingIsNormal(mode: Mode)
    ensures ModeOfText(ModeSpelling(mode)) == mode
  {
    match mode
    case NoMode => NothingReads();
    case ReadOnly => ReadOnlyReads();
    case WorkspaceWrite => WorkspaceWriteReads();
    case DangerFullAccess => DangerFullAccessReads();
  }

  /** Normalising a normal form changes nothing, … */
  lemma SpellingsAreNormal(policy: Policy, mode: Mode)
    ensures PolicyOfText(PolicySpelling(policy)) == policy
    ensures ModeOfText(ModeSpelling(mode)) == mode
  {
    PolicySpellingIsNormal(policy);
    ModeSpellingIsNormal(mode);
  }

  /** … and reading back the mode an override carries gives the mode it was made from. */
  lemma SandboxRoundTrip(mode: Mode)
    ensures SandboxType(mode).Some? <==> mode != NoMode
    ensures SandboxType(mode).Some? ==> ModeOf(ObjectValue(SandboxType(mode).value)) == mode
  {
    match mode
    case NoMode =>
    case ReadOnly => SentReadOnlyReads();
    case WorkspaceWrite => SentWorkspaceWriteReads();
    case DangerFullAccess => SentDangerFullAccessReads();
  }

  function Normalized(prefs: Prefs): Prefs {
    Prefs(TrimSpace(prefs.model), PolicyOfText(PolicySpelling(prefs.policy)), ModeOfText(ModeSpelling(prefs.mode)))
  }

  lemma NormalizedIdempotent(prefs: Prefs)
    ensures Normalized(prefs) == prefs.(model := TrimSpace(prefs.model))
    ensures Normalized(Normalized(prefs)) == Normalized(prefs)
  {
    SpellingsAreNormal(prefs.policy, prefs.mode);
    TrimSpaceIdempotent(prefs.model);
  }

  // ----- the override -----

  /** The part of a turn/start call that sets preferences. */
  datatype Override = Override(model: Option<Bytes>, policy: Option<Policy>, sandbox: Option<Bytes>)

  const NO_OVERRIDE := Override(None, None, None)

  function OverrideFor(desired: Prefs): Override {
    Override(
      if desired.model != [] then Some(desired.model) else None,
      if desired.policy != NoPolicy then Some(desired.policy) else None,
      SandboxType(desired.mode))
  }

  /** What the override makes of the preferences the server holds. */
  function Received(server: Prefs, sent: Override): Prefs {
    Prefs(
      if sent.model.Some? then sent.model.value else server.model,
      if sent.policy.Some? then sent.policy.value else server.policy,
      if sent.sandbox.Some? then ModeOf(ObjectValue(sent.sandbox.value)) else server.mode)
  }

  /** The server holds every preference that is not empty. */
  predicate Holds(server: Prefs, wanted: Prefs) {
    && (wanted.model != [] ==> server.model == wanted.model)
    && (wanted.policy != NoPolicy ==> server.policy == wanted.policy)
    && (wanted.mode != NoMode ==> server.mode == wanted.mode)
  }

  /** An override carries everything that is wanted. */
  lemma OverrideSuffices(server: Prefs, desired: Prefs)
    ensures Holds(Received(server, OverrideFor(desired)), desired)
    ensures Received(server, NO_OVERRIDE) == server
    ensures OverrideFor(desired) == NO_OVERRIDE <==> desired == NO_PREFS
  {
    SandboxRoundTrip(desired.mode);
  }

  // ----- updates -----

  datatype Patch = Patch(model: Option<Bytes>, policy: Option<Bytes>, mode: Option<Bytes>)

  datatype Options = Options(models: seq<Bytes>, policies: seq<Policy>, modes: seq<Mode>)

  predicate AllowsModel(options: Options, text: Bytes) {
    var model := TrimSpace(text);
    || model == [] || options.models == []
    || exists i :: 0 <= i < |options.models| && TrimSpace(options.models[i]) == model
  }

  predicate AllowsPolicy(options: Options, text: Bytes) {
    if PolicyOfText(text) == NoPolicy then Blank(text) else PolicyOfText(text) in options.policies
  }

  predicate AllowsMode(options: Options, text: Bytes) {
    if ModeOfText(text) == NoMode then Blank(text) else ModeOfText(text) in options.modes
  }

  predicate Allows(options: Options, patch: Patch) {
    && (patch.model.Some? ==> AllowsModel(options, patch.model.value))
    && (patch.policy.Some? ==> AllowsPolicy(options, patch.policy.value))
    && (patch.mode.Some? ==> AllowsMode(options, patch.mode.value))
  }

  function Patched(current: Prefs, patch: Patch): Prefs {
    Prefs(
      if patch.model.Some? then TrimSpace(patch.model.value) else current.model,
      if patch.policy.Some? then PolicyOfText(patch.policy.value) else current.policy,
      if patch.mode.Some? then ModeOfText(patch.mode.value) else current.mode)
  }

  // ----- the client's tables -----

  datatype Tables = Tables(desired: map<Bytes, Prefs>, applied: map<Bytes, Prefs>)
  {
    function Current(threadID: Bytes): Prefs {
      if threadID in desired then desired[threadID] else if threadID in applied then applied[threadID] else NO_PREFS
    }

    function Override(threadID: Bytes): Override {
      if threadID == [] || threadID !in desired then NO_OVERRIDE
      else if threadID in applied && Normalized(desired[threadID]) == Normalized(applied[threadID]) then NO_OVERRIDE
      else OverrideFor(Normalized(desired[threadID]))
    }

    function Seed(threadID: Bytes, reported: Prefs): Tables {
      if threadID == [] || Normalized(reported) == NO_PREFS then this
      else Tables(desired[threadID := Normalized(reported)], applied[threadID := Normalized(reported)])
    }

    function Update(threadID: Bytes, patch: Patch, options: Options): Tables {
      if threadID == [] || !Allows(options, patch) then this
      else this.(desired := desired[threadID := Normalized(Patched(Normalized(Current(threadID)), patch))])
    }

    function Start(threadID: Bytes, succeeds: bool): Tables {
      if succeeds && Override(threadID) != NO_OVERRIDE
      then this.(applied := applied[threadID := Normalized(desired[threadID])])
      else this
    }

    function Forget(threadID: Bytes): Tables {
      if Blank(threadID) then this else Tables(desired - {threadID}, applied - {threadID})
    }
  }

  class RuntimePreferences {
    var threadRuntimeDesired: map<Bytes, Prefs>
    var threadRuntimeApplied: map<Bytes, Prefs>

    constructor ()
      ensures View() == Tables(map[], map[])
    {
      threadRuntimeDesired, threadRuntimeApplied := map[], map[];
    }

    function View(): Tables
      reads this
    {
      Tables(threadRuntimeDesired, threadRuntimeApplied)
    }

    method SeedThreadRuntimeState(text: Bytes, prefs: Prefs)
      modifies this
      ensures View() == old(View()).Seed(TrimSpace(text), prefs)
    {
      var threadID := TrimSpace(text);
      if threadID == [] {
        return;
      }
      var next := Normalized(prefs);
      if next == NO_PREFS {
        return;
      }
      threadRuntimeDesired := threadRuntimeDesired[threadID := next];
      threadRuntimeApplied := threadRuntimeApplied[threadID := next];
    }

    method UpdateThreadRuntimeSettings(text: Bytes, patch: Patch, options: Options) returns (ok: bool)
      modifies this
      ensures View() == old(View()).Update(TrimSpace(text), patch, options)
      ensures ok == (!Blank(text) && Allows(options, patch))
    {
      var threadID := TrimSpace(text);
      if threadID == [] {
        return false;
      }
      var next := Normalized(View().Current(threadID));
      if patch.model.Some? {
        var accepted := AcceptModel(options, patch.model.value);
        if !accepted {
          return false;
        }
        next := next.(model := TrimSpace(patch.model.value));
      }
      if patch.policy.Some? {
        var accepted := AcceptPolicy(options, patch.policy.value);
        if !accepted {
          return false;
        }
        next := next.(policy := PolicyOfText(patch.policy.value));
      }
      if patch.mode.Some? {
        var accepted := AcceptMode(options, patch.mode.value);
        if !accepted {
          return false;
        }
        next := next.(mode := ModeOfText(patch.mode.value));
      }
      threadRuntimeDesired := threadRuntimeDesired[threadID := Normalized(next)];
      ok := true;
    }

    method TurnStartRuntimeOverride(text: Bytes) returns (sent: Override, applied: Option<Prefs>)
      ensures sent == View().Override(TrimSpace(text))
      ensures applied == if sent == NO_OVERRIDE then None else Some(Normalized(threadRuntimeDesired[TrimSpace(text)]))
    {
      var threadID := TrimSpace(text);
      if threadID == [] || threadID !in threadRuntimeDesired {
        return NO_OVERRIDE, None;
      }
      var desired := Normalized(threadRuntimeDesired[threadID]);
      if threadID in threadRuntimeApplied && desired == Normalized(threadRuntimeApplied[threadID]) {
        return NO_OVERRIDE, None;
      }
      sent := OverrideFor(desired);
      applied := if sent == NO_OVERRIDE then None else Some(desired);
    }

    /** `succeeds` says whether the turn/start call would return without an error. */
    method StartTurn(text: Bytes, succeeds: bool) returns (sent: Override)
      modifies this
      ensures sent == old(View()).Override(TrimSpace(text))
      ensures View() == old(View()).Start(TrimSpace(text), succeeds)
    {
      var applied;
      sent, applied := TurnStartRuntimeOverride(text);
      if !succeeds {
        return;
      }
      if applied.Some? {
        NormalizedIdempotent(threadRuntimeDesired[TrimSpace(text)]);
        threadRuntimeApplied := threadRuntimeApplied[TrimSpace(text) := Normalized(applied.value)];
      }
    }

    method ForgetThread(threadID: Bytes)
      modifies this
      ensures View() == old(View()).Forget(threadID)
    {
      if TrimSpace(threadID) == [] {
        return;
      }
      threadRuntimeDesired := threadRuntimeDesired - {threadID};
      threadRuntimeApplied := threadRuntimeApplied - {threadID};
    }
  }

  method ContainsModel(models: seq<Bytes>, model: Bytes) returns (found: bool)
    ensures found == exists i :: 0 <= i < |models| && TrimSpace(models[i]) == model
  {
    for i := 0 to |models|
      invariant forall j :: 0 <= j < i ==> TrimSpace(models[j]) != model
    {
      if TrimSpace(models[i]) == model {
        return true;
      }
    }
    found := false;
  }

  method AcceptModel(options: Options, text: Bytes) returns (accepted: bool)
    ensures accepted == AllowsModel(options, text)
  {
    var model := TrimSpace(text);
    if model == [] || |options.models| == 0 {
      return true;
    }
    accepted := ContainsModel(options.models, model);
  }

  method AcceptPolicy(options: Options, text: Bytes) returns (accepted: bool)
    ensures accepted == AllowsPolicy(options, text)
  {
    var policy := PolicyOfText(text);
    if policy == NoPolicy && TrimSpace(text) != [] {
      return false;
    }
    accepted := policy == NoPolicy || policy in options.policies;
  }

  method AcceptMode(options: Options, text: Bytes) returns (accepted: bool)
    ensures accepted == AllowsMode(options, text)
  {
    var mode := ModeOfText(text);
    if mode == NoMode && TrimSpace(text) != [] {
      return false;
    }
    accepted := mode == NoMode || mode in options.modes;
  }

  // ----- client and server together -----

  /** An override whose start failed, and whether it had reached the server all the same. */
  datatype Lost = Lost(prefs: Prefs, reached: bool)

  /** For each thread `base` is what the server held when client and server last agreed, at a report,
      a successful start with an override or an archiving, and `lost` are the overrides of the starts
      that have failed since. */
  datatype World = World(
    tables: Tables, server: map<Bytes, Prefs>, base: map<Bytes, Prefs>, lost: map<Bytes, seq<Lost>>)
  {
    function Server(threadID: Bytes): Prefs {
      if threadID in server then server[threadID] else NO_PREFS
    }

    function Base(threadID: Bytes): Prefs {
      if threadID in base then base[threadID] else NO_PREFS
    }

    function LostOf(threadID: Bytes): seq<Lost> {
      if threadID in lost then lost[threadID] else []
    }

    /** Client and server agree on the thread, and the server holds `held`. */
    function Agreed(tables: Tables, threadID: Bytes, held: Prefs): World {
      World(tables, server[threadID := held], base[threadID := held], lost - {threadID})
    }

    /** A start has failed, and the server holds `held`. */
    function Loses(tables: Tables, threadID: Bytes, held: Prefs, override: Lost): World {
      World(tables, server[threadID := held], base, lost[threadID := LostOf(threadID) + [override]])
    }

    /** The same, but for what the server holds of the thread and which overrides are lost. */
    function With(threadID: Bytes, held: Prefs, overrides: seq<Lost>): World {
      this.(server := server[threadID := held], lost := lost[threadID := overrides])
    }
  }

  datatype Step =
    | Open(threadID: Bytes, held: Prefs, reported: Prefs)
    | Update(threadID: Bytes, patch: Patch, options: Options)
    | Start(threadID: Bytes, succeeds: bool, reaches: bool)
    | Archive(threadID: Bytes)

  /** A thread is created or resumed with an answer that tells the truth where it tells anything,
      and changes nothing when it tells nothing; a start that succeeds has reached the server. */
  predicate Enabled(w: World, step: Step) {
    match step
    case Open(threadID, held, reported) =>
      && Trimmed(threadID) && Trimmed(reported.model) && Holds(held, reported)
      && (reported == NO_PREFS ==> held == w.Server(threadID))
    case Update(threadID, _, _) => Trimmed(threadID)
    case Start(threadID, succeeds, reaches) => Trimmed(threadID) && (succeeds ==> reaches)
    case Archive(threadID) => Trimmed(threadID)
  }

  function TablesAfter(tables: Tables, step: Step): Tables {
    match step
    case Open(threadID, _, reported) => tables.Seed(threadID, reported)
    case Update(threadID, patch, options) => tables.Update(threadID, patch, options)
    case Start(threadID, succeeds, _) => tables.Start(threadID, succeeds)
    case Archive(threadID) => tables.Forget(threadID)
  }

  function Apply(w: World, step: Step): World {
    var tables := TablesAfter(w.tables, step);
    match step
    case Open(threadID, held, reported) =>
      if reported == NO_PREFS then w.(tables := tables) else w.Agreed(tables, threadID, held)
    case Update(_, _, _) => w.(tables := tables)
    case Start(threadID, succeeds, reaches) => AfterStart(w, tables, threadID, succeeds, reaches)
    case Archive(threadID) => w.Agreed(tables, threadID, w.Server(threadID))
  }

  function AfterStart(w: World, tables: Tables, threadID: Bytes, succeeds: bool, reaches: bool): World {
    var sent := w.tables.Override(threadID);
    var held := if reaches then Received(w.Server(threadID), sent) else w.Server(threadID);
    if sent == NO_OVERRIDE then w.(tables := tables)
    else if succeeds then w.Agreed(tables, threadID, held)
    else w.Loses(tables, threadID, held, Lost(Normalized(w.tables.desired[threadID]), reaches))
  }

  const INITIAL := World(Tables(map[], map[]), map[], map[], map[])

  ghost predicate Reaches(w: World, steps: seq<Step>, v: World)
    decreases |steps|
  {
    if steps == [] then w == v
    else
      var n := |steps| - 1;
      exists u :: Reaches(w, steps[..n], u) && Enabled(u, steps[n]) && v == Apply(u, steps[n])
  }

  ghost predicate Reachable(w: World) {
    exists steps :: Reaches(INITIAL, steps, w)
  }

  lemma ReachableGoesOn(w: World, step: Step)
    requires Reachable(w) && Enabled(w, step)
    ensures Reachable(Apply(w, step))
  {
    var steps :| Reaches(INITIAL, steps, w);
    var all := steps + [step];
    assert all[..|all| - 1] == steps && all[|all| - 1] == step;
    assert Reaches(INITIAL, all, Apply(w, step)) by {
      assert Reaches(INITIAL, all[..|all| - 1], w) && Enabled(w, all[|all| - 1]);
    }
  }

  // ----- what the server holds -----

  /** What the lost overrides that reached the server leave there, field by field. */
  function Left(lost: seq<Lost>): Prefs {
    if lost == [] then NO_PREFS
    else
      var n := |lost| - 1;
      if lost[n].reached then Received(Left(lost[..n]), OverrideFor(lost[n].prefs)) else Left(lost[..n])
  }

  lemma ReceivedTwice(held: Prefs, first: Prefs, second: Prefs)
    ensures Received(Received(held, OverrideFor(first)), OverrideFor(second))
         == Received(held, OverrideFor(Received(first, OverrideFor(second))))
  {
    SandboxRoundTrip(first.mode);
    SandboxRoundTrip(second.mode);
  }

  /** The tables' entries for a thread are in normal form, and `held` bears out what is believed. */
  predicate Sound(tables: Tables, threadID: Bytes, held: Prefs) {
    && (threadID in tables.desired ==> Normalized(tables.desired[threadID]) == tables.desired[threadID])
    && (threadID in tables.applied ==> Normalized(tables.applied[threadID]) == tables.applied[threadID])
    && (threadID in tables.applied ==> Holds(held, tables.applied[threadID]))
    && (threadID == [] ==> [] !in tables.desired && [] !in tables.applied)
  }

  /** Since client and server last agreed the server has changed by the lost overrides alone. */
  predicate Explained(held: Prefs, base: Prefs, lost: seq<Lost>) {
    held == Received(base, OverrideFor(Left(lost)))
  }

  /** What is believed of the server held at the last agreement. */
  predicate Believed(w: World, threadID: Bytes) {
    && Sound(w.tables, threadID, w.Base(threadID))
    && Explained(w.Server(threadID), w.Base(threadID), w.LostOf(threadID))
  }

  ghost predicate AllBelieved(w: World) {
    forall threadID: Bytes :: Believed(w, threadID)
  }

  predicate Same(before: map<Bytes, Prefs>, after: map<Bytes, Prefs>, threadID: Bytes) {
    && (threadID in after <==> threadID in before)
    && (threadID in after ==> after[threadID] == before[threadID])
  }

  ghost predicate SameElsewhere(before: Tables, after: Tables, threadID: Bytes) {
    forall other | other != threadID ::
      Same(before.desired, after.desired, other) && Same(before.applied, after.applied, other)
  }

  /** A change of the tables, and of what the world says, at one thread leaves the others believed. */
  lemma OthersStayBelieved(w: World, v: World, threadID: Bytes, other: Bytes)
    requires Believed(w, other) && other != threadID && SameElsewhere(w.tables, v.tables, threadID)
    requires v.Server(other) == w.Server(other) && v.Base(other) == w.Base(other) && v.LostOf(other) == w.LostOf(other)
    ensures Believed(v, other)
  {
    assert Same(w.tables.desired, v.tables.desired, other) && Same(w.tables.applied, v.tables.applied, other);
  }

  lemma TablesKeepBelieved(w: World, tables: Tables, threadID: Bytes)
    requires AllBelieved(w) && SameElsewhere(w.tables, tables, threadID)
    requires Sound(tables, threadID, w.Base(threadID))
    ensures AllBelieved(w.(tables := tables))
  {
    forall other: Bytes
      ensures Believed(w.(tables := tables), other)
    {
      assert Believed(w, other);
      if other != threadID {
        OthersStayBelieved(w, w.(tables := tables), threadID, other);
      }
    }
  }

  lemma AgreedIsBelieved(w: World, tables: Tables, threadID: Bytes, held: Prefs)
    requires Sound(tables, threadID, held)
    ensures Believed(w.Agreed(tables, threadID, held), threadID)
  {
    OverrideSuffices(held, NO_PREFS);
  }

  lemma AgreedKeepsBelieved(w: World, tables: Tables, threadID: Bytes, held: Prefs)
    requires AllBelieved(w) && SameElsewhere(w.tables, tables, threadID) && Sound(tables, threadID, held)
    ensures AllBelieved(w.Agreed(tables, threadID, held))
  {
    var v := w.Agreed(tables, threadID, held);
    forall other: Bytes
      ensures Believed(v, other)
    {
      if other == threadID {
        AgreedIsBelieved(w, tables, threadID, held);
      } else {
        assert Believed(w, other);
        OthersStayBelieved(w, v, threadID, other);
      }
    }
  }

  lemma LeftOfOneMore(lost: seq<Lost>, override: Lost)
    ensures Left(lost + [override])
         == if override.reached then Received(Left(lost), OverrideFor(override.prefs)) else Left(lost)
  {
    assert (lost + [override])[..|lost|] == lost;
  }

  function HeldAfter(held: Prefs, override: Lost): Prefs {
    if override.reached then Received(held, OverrideFor(override.prefs)) else held
  }

  lemma OneMoreIsExplained(held: Prefs, base: Prefs, lost: seq<Lost>, override: Lost)
    requires Explained(held, base, lost)
    ensures Explained(HeldAfter(held, override), base, lost + [override])
  {
    LeftOfOneMore(lost, override);
    ReceivedTwice(base, Left(lost), override.prefs);
  }

  lemma LosesKeepsBelieved(w: World, threadID: Bytes, override: Lost)
    requires AllBelieved(w)
    ensures AllBelieved(w.Loses(w.tables, threadID, HeldAfter(w.Server(threadID), override), override))
  {
    var held := HeldAfter(w.Server(threadID), override);
    var v := w.Loses(w.tables, threadID, held, override);
    forall other: Bytes
      ensures Believed(v, other)
    {
      assert Believed(w, other);
      if other == threadID {
        OneMoreIsExplained(w.Server(threadID), w.Base(threadID), w.LostOf(threadID), override);
        assert v.Base(threadID) == w.Base(threadID);
      } else {
        OthersStayBelieved(w, v, threadID, other);
      }
    }
  }

  lemma SentIsDesired(w: World, threadID: Bytes)
    requires Believed(w, threadID) && w.tables.Override(threadID) != NO_OVERRIDE
    ensures w.tables.Override(threadID) == OverrideFor(w.tables.desired[threadID])
    ensures Normalized(w.tables.desired[threadID]) == w.tables.desired[threadID]
  {
  }

  lemma SuccessKeepsBelieved(w: World, threadID: Bytes)
    requires AllBelieved(w) && w.tables.Override(threadID) != NO_OVERRIDE
    ensures AllBelieved(w.Agreed(w.tables.Start(threadID, true), threadID,
                                 Received(w.Server(threadID), w.tables.Override(threadID))))
  {
    assert Believed(w, threadID);
    SentIsDesired(w, threadID);
    var desired := w.tables.desired[threadID];
    OverrideSuffices(w.Server(threadID), desired);
    AgreedKeepsBelieved(w, w.tables.Start(threadID, true), threadID,
        Received(w.Server(threadID), OverrideFor(desired)));
  }

  lemma FailureIs(w: World, threadID: Bytes, reaches: bool)
    requires Believed(w, threadID) && w.tables.Override(threadID) != NO_OVERRIDE
    ensures var lost := Lost(w.tables.desired[threadID], reaches);
            Apply(w, Start(threadID, false, reaches))
            == w.Loses(w.tables, threadID, HeldAfter(w.Server(threadID), lost), lost)
  {
    SentIsDesired(w, threadID);
  }

  lemma SuccessIs(w: World, threadID: Bytes)
    requires Believed(w, threadID) && w.tables.Override(threadID) != NO_OVERRIDE
    ensures Apply(w, Start(threadID, true, true))
         == w.Agreed(w.tables.Start(threadID, true), threadID,
             Received(w.Server(threadID), w.tables.Override(threadID)))
  {
  }

  lemma SilentStartIs(w: World, step: Step)
    requires step.Start? && w.tables.Override(step.threadID) == NO_OVERRIDE
    ensures Apply(w, step) == w
  {
  }

  lemma StartKeepsBelieved(w: World, step: Step)
    requires AllBelieved(w) && Enabled(w, step) && step.Start?
    ensures AllBelieved(Apply(w, step))
  {
    var Start(threadID, succeeds, reaches) := step;
    assert Believed(w, threadID);
    if w.tables.Override(threadID) == NO_OVERRIDE {
      SilentStartIs(w, step);
    } else if succeeds {
      SuccessIs(w, threadID);
      SuccessKeepsBelieved(w, threadID);
    } else {
      FailureIs(w, threadID, reaches);
      LosesKeepsBelieved(w, threadID, Lost(w.tables.desired[threadID], reaches));
    }
  }

  lemma OpenKeepsBelieved(w: World, step: Step)
    requires AllBelieved(w) && Enabled(w, step) && step.Open?
    ensures AllBelieved(Apply(w, step))
  {
    var tables := w.tables.Seed(step.threadID, step.reported);
    assert Believed(w, step.threadID);
    NormalizedIdempotent(step.reported);
    if step.reported == NO_PREFS {
      assert tables == w.tables;
    } else {
      AgreedKeepsBelieved(w, tables, step.threadID, step.held);
    }
  }

  lemma UpdateKeepsBelieved(w: World, step: Step)
    requires AllBelieved(w) && step.Update?
    ensures AllBelieved(Apply(w, step))
  {
    assert Believed(w, step.threadID);
    NormalizedIdempotent(Patched(Normalized(w.tables.Current(step.threadID)), step.patch));
    TablesKeepBelieved(w, w.tables.Update(step.threadID, step.patch, step.options), step.threadID);
  }

  lemma ArchiveKeepsBelieved(w: World, step: Step)
    requires AllBelieved(w) && Enabled(w, step) && step.Archive?
    ensures AllBelieved(Apply(w, step))
  {
    assert Believed(w, step.threadID);
    assert Blank([]);
    AgreedKeepsBelieved(w, w.tables.Forget(step.threadID), step.threadID, w.Server(step.threadID));
  }

  lemma {:induction false} RunKeepsBelieved(steps: seq<Step>, w: World)
    requires Reaches(INITIAL, steps, w)
    ensures AllBelieved(w)
  {
    if steps == [] {
      OverrideSuffices(NO_PREFS, NO_PREFS);
      assert forall threadID: Bytes :: Believed(w, threadID);
    } else {
      var n := |steps| - 1;
      var u :| Reaches(INITIAL, steps[..n], u) && Enabled(u, steps[n]) && w == Apply(u, steps[n]);
      RunKeepsBelieved(steps[..n], u);
      match steps[n]
      case Start(_, _, _) => StartKeepsBelieved(u, steps[n]);
      case Open(_, _, _) => OpenKeepsBelieved(u, steps[n]);
      case Update(_, _, _) => UpdateKeepsBelieved(u, steps[n]);
      case Archive(_) => ArchiveKeepsBelieved(u, steps[n]);
    }
  }

  lemma ReachableIsBelieved(w: World)
    requires Reachable(w)
    ensures AllBelieved(w)
  {
    var steps :| Reaches(INITIAL, steps, w);
    RunKeepsBelieved(steps, w);
  }

  // ----- when a start applies what is desired -----

  /** The two want nothing different. */
  predicate Agrees(a: Prefs, b: Prefs) {
    && (a.model == [] || b.model == [] || a.model == b.model)
    && (a.policy == NoPolicy || b.policy == NoPolicy || a.policy == b.policy)
    && (a.mode == NoMode || b.mode == NoMode || a.mode == b.mode)
  }

  /** A start that succeeds leaves the server with every desired preference that is not empty. */
  predicate StartApplies(w: World, threadID: Bytes)
    requires threadID in w.tables.desired
  {
    Holds(Apply(w, Start(threadID, true, true)).Server(threadID), w.tables.desired[threadID])
  }

  /** An override changes only what it disagrees with. */
  lemma OverrideKeepsIff(held: Prefs, change: Prefs, wanted: Prefs)
    requires Holds(held, wanted)
    ensures Holds(Received(held, OverrideFor(change)), wanted) <==> Agrees(change, wanted)
  {
    SandboxRoundTrip(change.mode);
  }

  /** Where no override is sent the client believes that the server holds what is desired, as it did
      at the last agreement. */
  lemma SilentMeansBelieved(w: World, threadID: Bytes)
    requires AllBelieved(w) && threadID in w.tables.desired && w.tables.Override(threadID) == NO_OVERRIDE
    ensures Holds(w.Base(threadID), w.tables.desired[threadID])
  {
    assert Believed(w, threadID);
    OverrideSuffices(w.Base(threadID), w.tables.desired[threadID]);
  }

  lemma StartAppliesIffHeld(w: World, threadID: Bytes)
    requires AllBelieved(w) && threadID in w.tables.desired
    ensures w.tables.Override(threadID) != NO_OVERRIDE ==> StartApplies(w, threadID)
    ensures w.tables.Override(threadID) == NO_OVERRIDE ==>
      (StartApplies(w, threadID) <==> Holds(w.Server(threadID), w.tables.desired[threadID]))
  {
    assert Believed(w, threadID);
    OverrideSuffices(w.Server(threadID), w.tables.desired[threadID]);
  }

  /** After any run of creations, resumptions, updates, starts, failed starts and archivings, a start
      that succeeds leaves the server with every desired preference of the thread that is not empty
      exactly if it sends an override or what the lost overrides left there does not disagree. */
  lemma StartAppliesDesiredIff(w: World, threadID: Bytes)
    requires Reachable(w) && threadID in w.tables.desired
    ensures StartApplies(w, threadID)
       <==> w.tables.Override(threadID) != NO_OVERRIDE || Agrees(Left(w.LostOf(threadID)), w.tables.desired[threadID])
  {
    ReachableIsBelieved(w);
    assert Believed(w, threadID);
    StartAppliesIffHeld(w, threadID);
    if w.tables.Override(threadID) == NO_OVERRIDE {
      SilentMeansBelieved(w, threadID);
      OverrideKeepsIff(w.Base(threadID), Left(w.LostOf(threadID)), w.tables.desired[threadID]);
    }
  }

  /** The same overrides were lost, but others of them had reached the server. */
  function Told(lost: seq<Lost>, reached: seq<bool>): seq<Lost>
    requires |reached| == |lost|
  {
    seq(|lost|, i requires 0 <= i < |lost| => Lost(lost[i].prefs, reached[i]))
  }

  /** The world as it would be then; the client cannot tell it from the one it is in. */
  function Otherwise(w: World, threadID: Bytes, reached: seq<bool>): World
    requires |reached| == |w.LostOf(threadID)|
  {
    if reached == [] then w
    else
      var lost := Told(w.LostOf(threadID), reached);
      w.With(threadID, Received(w.Base(threadID), OverrideFor(Left(lost))), lost)
  }

  lemma {:induction false} LeftAgrees(lost: seq<Lost>, wanted: Prefs)
    requires forall i :: 0 <= i < |lost| ==> Agrees(lost[i].prefs, wanted)
    ensures Agrees(Left(lost), wanted)
  {
    if lost != [] {
      var n := |lost| - 1;
      LeftAgrees(lost[..n], wanted);
      SandboxRoundTrip(lost[n].prefs.mode);
    }
  }

  function Only(n: nat, k: nat): seq<bool> {
    seq(n, i => i == k)
  }

  lemma {:induction false} LeftOfNone(lost: seq<Lost>)
    requires forall i :: 0 <= i < |lost| ==> !lost[i].reached
    ensures Left(lost) == NO_PREFS
  {
    if lost != [] {
      LeftOfNone(lost[..|lost| - 1]);
    }
  }

  lemma {:induction false} LeftOfOne(lost: seq<Lost>, k: nat)
    requires k < |lost| && forall i :: 0 <= i < |lost| ==> (lost[i].reached <==> i == k)
    ensures Left(lost) == lost[k].prefs
  {
    var n := |lost| - 1;
    if k == n {
      LeftOfNone(lost[..n]);
      SandboxRoundTrip(lost[k].prefs.mode);
    } else {
      LeftOfOne(lost[..n], k);
    }
  }

  /** The client does not learn which of its lost overrides reached the server. For all that it
      knows, the next successful start applies what is desired exactly if it sends an override or
      every lost one agrees with what is desired. */
  lemma StartAppliesWhateverWasLostIff(w: World, threadID: Bytes)
    requires Reachable(w) && Trimmed(threadID) && threadID in w.tables.desired
    ensures (forall reached: seq<bool> | |reached| == |w.LostOf(threadID)| ::
               StartApplies(Otherwise(w, threadID, reached), threadID))
       <==> w.tables.Override(threadID) != NO_OVERRIDE
            || forall i :: 0 <= i < |w.LostOf(threadID)| ==>
                Agrees(w.LostOf(threadID)[i].prefs, w.tables.desired[threadID])
  {
    var desired, lost := w.tables.desired[threadID], w.LostOf(threadID);
    if w.tables.Override(threadID) != NO_OVERRIDE || forall i :: 0 <= i < |lost| ==> Agrees(lost[i].prefs, desired) {
      forall reached: seq<bool> | |reached| == |lost|
        ensures StartApplies(Otherwise(w, threadID, reached), threadID)
      {
        OtherwiseStartApplies(w, threadID, reached);
      }
    } else {
      var k :| 0 <= k < |lost| && !Agrees(lost[k].prefs, desired);
      OneLostMisleads(w, threadID, k);
    }
  }

  lemma OtherwiseKeeps(w: World, threadID: Bytes, reached: seq<bool>)
    requires |reached| == |w.LostOf(threadID)|
    ensures Otherwise(w, threadID, reached).tables == w.tables
    ensures Otherwise(w, threadID, reached).LostOf(threadID) == Told(w.LostOf(threadID), reached)
  {
  }

  lemma OtherwiseStartApplies(w: World, threadID: Bytes, reached: seq<bool>)
    requires Reachable(w) && threadID in w.tables.desired && |reached| == |w.LostOf(threadID)|
    requires w.tables.Override(threadID) != NO_OVERRIDE
          || forall i :: 0 <= i < |w.LostOf(threadID)| ==>
              Agrees(w.LostOf(threadID)[i].prefs, w.tables.desired[threadID])
    ensures StartApplies(Otherwise(w, threadID, reached), threadID)
  {
    var other := Otherwise(w, threadID, reached);
    OtherwiseIsReachable(w, threadID, reached);
    OtherwiseKeeps(w, threadID, reached);
    StartAppliesDesiredIff(other, threadID);
    if w.tables.Override(threadID) == NO_OVERRIDE {
      LeftAgrees(other.LostOf(threadID), w.tables.desired[threadID]);
    }
  }

  lemma OneLostMisleads(w: World, threadID: Bytes, k: nat)
    requires Reachable(w) && threadID in w.tables.desired && w.tables.Override(threadID) == NO_OVERRIDE
    requires k < |w.LostOf(threadID)| && !Agrees(w.LostOf(threadID)[k].prefs, w.tables.desired[threadID])
    ensures var reached := Only(|w.LostOf(threadID)|, k);
            |reached| == |w.LostOf(threadID)| && !StartApplies(Otherwise(w, threadID, reached), threadID)
  {
    var reached := Only(|w.LostOf(threadID)|, k);
    OtherwiseIsReachable(w, threadID, reached);
    OtherwiseKeeps(w, threadID, reached);
    StartAppliesDesiredIff(Otherwise(w, threadID, reached), threadID);
    LeftOfOne(Told(w.LostOf(threadID), reached), k);
  }

  // ----- every other world is reachable as well -----

  lemma AgreedElsewhere(w: World, tables: Tables, other: Bytes, held: Prefs, threadID: Bytes, reached: seq<bool>)
    requires reached != [] && |reached| == |w.LostOf(threadID)| && other != threadID
    ensures w.Agreed(tables, other, held).LostOf(threadID) == w.LostOf(threadID)
    ensures Otherwise(w, threadID, reached).Agreed(tables, other, held)
         == Otherwise(w.Agreed(tables, other, held), threadID, reached)
  {
    var v := w.Agreed(tables, other, held);
    assert v.LostOf(threadID) == w.LostOf(threadID) && v.Base(threadID) == w.Base(threadID);
    var lost := Told(w.LostOf(threadID), reached);
    assert w.lost[threadID := lost] - {other} == (w.lost - {other})[threadID := lost];
  }

  lemma WithElsewhere(w: World, other: Bytes, held: Prefs, override: Lost, threadID: Bytes, here: Prefs,
                      lost: seq<Lost>)
    requires other != threadID
    ensures w.With(threadID, here, lost).Loses(w.tables, other, held, override)
         == w.Loses(w.tables, other, held, override).With(threadID, here, lost)
  {
    var overrides := w.LostOf(other) + [override];
    assert w.lost[threadID := lost][other := overrides] == w.lost[other := overrides][threadID := lost];
    assert w.server[threadID := here][other := held] == w.server[other := held][threadID := here];
  }

  lemma LosesElsewhere(w: World, other: Bytes, held: Prefs, override: Lost, threadID: Bytes, reached: seq<bool>)
    requires reached != [] && |reached| == |w.LostOf(threadID)| && other != threadID
    ensures w.Loses(w.tables, other, held, override).LostOf(threadID) == w.LostOf(threadID)
    ensures Otherwise(w, threadID, reached).Loses(w.tables, other, held, override)
         == Otherwise(w.Loses(w.tables, other, held, override), threadID, reached)
  {
    var v := w.Loses(w.tables, other, held, override);
    assert v.LostOf(threadID) == w.LostOf(threadID) && v.Base(threadID) == w.Base(threadID);
    var lost := Told(w.LostOf(threadID), reached);
    WithElsewhere(w, other, held, override, threadID, Received(w.Base(threadID), OverrideFor(Left(lost))), lost);
  }

  /** What the server holds of another thread is its own affair. */
  lemma OthersHappenAlike(w: World, step: Step, threadID: Bytes, reached: seq<bool>)
    requires Enabled(w, step) && step.threadID != threadID
    requires reached != [] && |reached| == |w.LostOf(threadID)|
    ensures Enabled(Otherwise(w, threadID, reached), step)
    ensures |reached| == |Apply(w, step).LostOf(threadID)|
    ensures Apply(Otherwise(w, threadID, reached), step) == Otherwise(Apply(w, step), threadID, reached)
  {
    var x := step.threadID;
    var tables := TablesAfter(w.tables, step);
    assert Otherwise(w, threadID, reached).Server(x) == w.Server(x);
    match step
    case Open(_, held, _) => AgreedElsewhere(w, tables, x, held, threadID, reached);
    case Update(_, _, _) =>
    case Start(_, _, reaches) =>
      var held := if reaches then Received(w.Server(x), w.tables.Override(x)) else w.Server(x);
      AgreedElsewhere(w, tables, x, held, threadID, reached);
      if w.tables.Override(x) != NO_OVERRIDE {
        LosesElsewhere(w, x, held, Lost(Normalized(w.tables.desired[x]), reaches), threadID, reached);
      }
    case Archive(_) => AgreedElsewhere(w, tables, x, w.Server(x), threadID, reached);
  }

  /** The step touches the client's tables alone, and whatever the server holds. */
  predicate Local(w: World, step: Step) {
    match step
    case Open(_, _, reported) => reported == NO_PREFS
    case Update(_, _, _) => true
    case Start(threadID, _, _) => w.tables.Override(threadID) == NO_OVERRIDE
    case Archive(_) => false
  }

  lemma LocalHappensAlike(w: World, step: Step, reached: seq<bool>) returns (same: Step)
    requires Enabled(w, step) && Local(w, step) && |reached| == |w.LostOf(step.threadID)|
    ensures Enabled(Otherwise(w, step.threadID, reached), same)
    ensures |Apply(w, step).LostOf(step.threadID)| == |reached|
    ensures Apply(Otherwise(w, step.threadID, reached), same) == Otherwise(Apply(w, step), step.threadID, reached)
  {
    var other := Otherwise(w, step.threadID, reached);
    same := if step.Open? then step.(held := other.Server(step.threadID)) else step;
  }

  /** Where a step that is not local leaves any overrides lost, it is a failed start. */
  lemma LossIsAFailedStart(w: World, step: Step)
    requires Enabled(w, step) && !Local(w, step) && Apply(w, step).LostOf(step.threadID) != []
    ensures step.Start? && !step.succeeds && w.tables.Override(step.threadID) != NO_OVERRIDE
    ensures |Apply(w, step).LostOf(step.threadID)| == |w.LostOf(step.threadID)| + 1
  {
  }

  lemma ToldOneMore(lost: seq<Lost>, override: Lost, reached: seq<bool>, last: bool)
    requires |reached| == |lost|
    ensures Told(lost + [override], reached + [last]) == Told(lost, reached) + [Lost(override.prefs, last)]
  {
  }

  lemma WithOneMore(w: World, threadID: Bytes, here: Prefs, lost: seq<Lost>, next: Prefs, override: Lost, held: Prefs,
                    actual: Lost)
    ensures w.With(threadID, here, lost).Loses(w.tables, threadID, next, override)
         == w.Loses(w.tables, threadID, held, actual).With(threadID, next, lost + [override])
  {
    assert w.server[threadID := here][threadID := next] == w.server[threadID := next];
    assert w.server[threadID := held][threadID := next] == w.server[threadID := next];
  }

  lemma WithTheFirst(w: World, threadID: Bytes, next: Prefs, override: Lost, held: Prefs, actual: Lost)
    ensures w.Loses(w.tables, threadID, next, override)
         == w.Loses(w.tables, threadID, held, actual).With(threadID, next, w.LostOf(threadID) + [override])
  {
  }

  lemma OtherwiseHolds(w: World, threadID: Bytes, reached: seq<bool>)
    requires Believed(w, threadID) && |reached| == |w.LostOf(threadID)|
    ensures Otherwise(w, threadID, reached).Server(threadID)
         == Received(w.Base(threadID), OverrideFor(Left(Told(w.LostOf(threadID), reached))))
  {
    assert reached == [] ==> Told(w.LostOf(threadID), reached) == w.LostOf(threadID);
  }

  /** What is lost with a failed start may have reached the server or not. */
  lemma LosesEitherWay(w: World, threadID: Bytes, override: Lost, held: Prefs, reached: seq<bool>, last: bool)
    requires Believed(w, threadID) && |reached| == |w.LostOf(threadID)|
    ensures var other, again := Otherwise(w, threadID, reached), Lost(override.prefs, last);
      && |reached| + 1 == |w.Loses(w.tables, threadID, held, override).LostOf(threadID)|
      && other.Loses(w.tables, threadID, HeldAfter(other.Server(threadID), again), again)
         == Otherwise(w.Loses(w.tables, threadID, held, override), threadID, reached + [last])
  {
    var told := Told(w.LostOf(threadID), reached);
    var again := Lost(override.prefs, last);
    ToldOneMore(w.LostOf(threadID), override, reached, last);
    LeftOfOneMore(told, again);
    ReceivedTwice(w.Base(threadID), Left(told), override.prefs);
    OtherwiseHolds(w, threadID, reached);
    var next := Received(w.Base(threadID), OverrideFor(Left(told + [again])));
    var here := Received(w.Base(threadID), OverrideFor(Left(told)));
    WithOneMore(w, threadID, here, told, next, again, held, override);
    WithTheFirst(w, threadID, next, again, held, override);
    assert reached == [] ==> told == w.LostOf(threadID);
  }

  lemma LossHappensEitherWay(w: World, threadID: Bytes, reaches: bool, reached: seq<bool>, last: bool)
    requires w.tables.Override(threadID) != NO_OVERRIDE && |reached| == |w.LostOf(threadID)|
    requires Believed(w, threadID) && Believed(Otherwise(w, threadID, reached), threadID)
    ensures var v := Apply(w, Start(threadID, false, reaches));
      && |reached| + 1 == |v.LostOf(threadID)|
      && Apply(Otherwise(w, threadID, reached), Start(threadID, false, last))
         == Otherwise(v, threadID, reached + [last])
  {
    var lost := Lost(w.tables.desired[threadID], reaches);
    OtherwiseKeeps(w, threadID, reached);
    FailureIs(w, threadID, reaches);
    FailureIs(Otherwise(w, threadID, reached), threadID, last);
    LosesEitherWay(w, threadID, lost, HeldAfter(w.Server(threadID), lost), reached, last);
  }

  lemma LossIsReachableEitherWay(w: World, threadID: Bytes, reaches: bool, reached: seq<bool>, last: bool, v: World,
                                 all: seq<bool>)
    requires Trimmed(threadID) && w.tables.Override(threadID) != NO_OVERRIDE && |reached| == |w.LostOf(threadID)|
    requires Believed(w, threadID) && Reachable(Otherwise(w, threadID, reached))
    requires v == Apply(w, Start(threadID, false, reaches)) && all == reached + [last]
    ensures |all| == |v.LostOf(threadID)| && Reachable(Otherwise(v, threadID, all))
  {
    var other := Otherwise(w, threadID, reached);
    ReachableIsBelieved(other);
    assert Believed(other, threadID);
    LossHappensEitherWay(w, threadID, reaches, reached, last);
    ReachableGoesOn(other, Start(threadID, false, last));
  }

  lemma OthersHappenOtherwise(w: World, step: Step, threadID: Bytes, reached: seq<bool>)
    requires Enabled(w, step) && step.threadID != threadID
    requires reached != [] && |reached| == |w.LostOf(threadID)| && Reachable(Otherwise(w, threadID, reached))
    ensures |reached| == |Apply(w, step).LostOf(threadID)|
    ensures Reachable(Otherwise(Apply(w, step), threadID, reached))
  {
    OthersHappenAlike(w, step, threadID, reached);
    ReachableGoesOn(Otherwise(w, threadID, reached), step);
  }

  lemma LocalHappensOtherwise(w: World, step: Step, reached: seq<bool>)
    requires Enabled(w, step) && Local(w, step)
    requires |reached| == |w.LostOf(step.threadID)| && Reachable(Otherwise(w, step.threadID, reached))
    ensures |reached| == |Apply(w, step).LostOf(step.threadID)|
    ensures Reachable(Otherwise(Apply(w, step), step.threadID, reached))
  {
    var same := LocalHappensAlike(w, step, reached);
    ReachableGoesOn(Otherwise(w, step.threadID, reached), same);
  }

  /** What had been told of the thread's lost overrides before the step. */
  function Earlier(w: World, threadID: Bytes, reached: seq<bool>): seq<bool>
    requires reached != []
  {
    if |reached| == |w.LostOf(threadID)| then reached else reached[..|reached| - 1]
  }

  lemma EarlierFits(w: World, step: Step, threadID: Bytes, reached: seq<bool>)
    requires Enabled(w, step) && reached != [] && |reached| == |Apply(w, step).LostOf(threadID)|
    ensures |Earlier(w, threadID, reached)| == |w.LostOf(threadID)|
  {
    if step.threadID != threadID {
      OthersKeepLost(w, step, threadID);
    } else if Local(w, step) {
      LocalKeepsLost(w, step);
    } else {
      LossIsAFailedStart(w, step);
    }
  }

  lemma LastSplits(reached: seq<bool>)
    requires reached != []
    ensures reached == reached[..|reached| - 1] + [reached[|reached| - 1]]
  {
  }

  lemma LossHappensOtherwise(w: World, step: Step, reached: seq<bool>)
    requires Believed(w, step.threadID) && Enabled(w, step) && step.Start? && !step.succeeds
    requires w.tables.Override(step.threadID) != NO_OVERRIDE && |reached| == |w.LostOf(step.threadID)| + 1
    requires Reachable(Otherwise(w, step.threadID, reached[..|reached| - 1]))
    ensures |reached| == |Apply(w, step).LostOf(step.threadID)|
    ensures Reachable(Otherwise(Apply(w, step), step.threadID, reached))
  {
    var n := |reached| - 1;
    var v := Apply(w, Start(step.threadID, false, step.reaches));
    LastSplits(reached);
    LossIsReachableEitherWay(w, step.threadID, step.reaches, reached[..n], reached[n], v, reached);
  }

  lemma StepHappensOtherwise(w: World, step: Step, threadID: Bytes, reached: seq<bool>)
    requires Believed(w, threadID) && Enabled(w, step) && reached != []
    requires |reached| == |Apply(w, step).LostOf(threadID)|
    requires |Earlier(w, threadID, reached)| == |w.LostOf(threadID)|
    requires Reachable(Otherwise(w, threadID, Earlier(w, threadID, reached)))
    ensures Reachable(Otherwise(Apply(w, step), threadID, reached))
  {
    if step.threadID != threadID {
      OthersKeepLost(w, step, threadID);
      OthersHappenOtherwise(w, step, threadID, reached);
    } else if Local(w, step) {
      LocalKeepsLost(w, step);
      LocalHappensOtherwise(w, step, reached);
    } else {
      LossIsAFailedStart(w, step);
      LossHappensOtherwise(w, step, reached);
    }
  }

  lemma OthersKeepLost(w: World, step: Step, threadID: Bytes)
    requires step.threadID != threadID
    ensures Apply(w, step).LostOf(threadID) == w.LostOf(threadID)
  {
  }

  lemma LocalKeepsLost(w: World, step: Step)
    requires Local(w, step)
    ensures Apply(w, step).LostOf(step.threadID) == w.LostOf(step.threadID)
  {
  }

  lemma {:induction false} RunHappensOtherwise(steps: seq<Step>, w: World, threadID: Bytes, reached: seq<bool>)
    requires Reaches(INITIAL, steps, w) && |reached| == |w.LostOf(threadID)|
    ensures Reachable(Otherwise(w, threadID, reached))
  {
    if reached == [] {
      assert Reachable(w);
    } else {
      var n := |steps| - 1;
      var u :| Reaches(INITIAL, steps[..n], u) && Enabled(u, steps[n]) && w == Apply(u, steps[n]);
      EarlierFits(u, steps[n], threadID, reached);
      RunHappensOtherwise(steps[..n], u, threadID, Earlier(u, threadID, reached));
      RunKeepsBelieved(steps[..n], u);
      assert Believed(u, threadID);
      StepHappensOtherwise(u, steps[n], threadID, reached);
    }
  }

  lemma OtherwiseIsReachable(w: World, threadID: Bytes, reached: seq<bool>)
    requires Reachable(w) && |reached| == |w.LostOf(threadID)|
    ensures Reachable(Otherwise(w, threadID, reached))
  {
    var steps :| Reaches(INITIAL, steps, w);
    RunHappensOtherwise(steps, w, threadID, reached);
  }

  // ----- updates and repeated starts -----

  /** A second start with no update in between sends no override. */
  lemma SecondStartSendsNothing(w: World, threadID: Bytes)
    requires AllBelieved(w)
    ensures Apply(w, Start(threadID, true, true)).tables.Override(threadID) == NO_OVERRIDE
  {
    assert Believed(w, threadID);
    if threadID in w.tables.desired {
      NormalizedIdempotent(w.tables.desired[threadID]);
    }
  }

  /** An update that is accepted reaches the server with the next successful start, field by field
      what the patch names in normal form, unless that start sends nothing although what the lost
      overrides left on the server disagrees. */
  lemma UpdateReachesServer(w: World, threadID: Bytes, patch: Patch, options: Options)
    requires Reachable(w) && Trimmed(threadID) && threadID != [] && Allows(options, patch)
    requires var tables := w.tables.Update(threadID, patch, options);
             tables.Override(threadID) != NO_OVERRIDE || Agrees(Left(w.LostOf(threadID)), tables.desired[threadID])
    ensures var updated := Apply(w, Update(threadID, patch, options));
            var server := Apply(updated, Start(threadID, true, true)).Server(threadID);
      && (patch.model.Some? && !Blank(patch.model.value) ==> server.model == TrimSpace(patch.model.value))
      && (patch.policy.Some? && !Blank(patch.policy.value) ==> server.policy == PolicyOfText(patch.policy.value))
      && (patch.mode.Some? && !Blank(patch.mode.value) ==> server.mode == ModeOfText(patch.mode.value))
  {
    var updated := Apply(w, Update(threadID, patch, options));
    ReachableGoesOn(w, Update(threadID, patch, options));
    StartAppliesDesiredIff(updated, threadID);
    NormalizedIdempotent(Patched(Normalized(w.tables.Current(threadID)), patch));
    if patch.model.Some? {
      TrimSpaceIdempotent(patch.model.value);
    }
  }

  // ----- the failing case -----

  const ALL_OPTIONS :=
    Options([], [Untrusted, OnFailure, OnRequest, Never], [WorkspaceWrite, DangerFullAccess, ReadOnly])

  function ToPolicy(text: Bytes): Patch {
    Patch(None, Some(text), None)
  }

  /** The text names a policy that may be chosen by default. */
  predicate Choosable(text: Bytes) {
    PolicyOfText(text) in ALL_OPTIONS.policies
  }

  function OnlyPolicy(policy: Policy): Prefs {
    Prefs([], policy, NoMode)
  }

  lemma OnlyPolicyIsNormal(policy: Policy)
    ensures Normalized(OnlyPolicy(policy)) == OnlyPolicy(policy)
  {
    assert Trimmed([]);
    NormalizedIdempotent(OnlyPolicy(policy));
  }

  /** The thread asked for one policy, the client believes the server holds another, and it holds
      what the lost overrides have made of that. */
  function Situation(threadID: Bytes, desired: Policy, believed: Policy, held: Policy,
                     lost: map<Bytes, seq<Lost>>): World {
    World(Tables(map[threadID := OnlyPolicy(desired)], map[threadID := OnlyPolicy(believed)]),
          map[threadID := OnlyPolicy(held)], map[threadID := OnlyPolicy(believed)], lost)
  }

  lemma OpensWith(threadID: Bytes, policy: Policy)
    requires Trimmed(threadID) && threadID != [] && policy != NoPolicy
    ensures Enabled(INITIAL, Open(threadID, OnlyPolicy(policy), OnlyPolicy(policy)))
    ensures Apply(INITIAL, Open(threadID, OnlyPolicy(policy), OnlyPolicy(policy)))
         == Situation(threadID, policy, policy, policy, map[])
  {
    assert Trimmed([]);
    OnlyPolicyIsNormal(policy);
  }

  lemma UpdateStores(tables: Tables, threadID: Bytes, patch: Patch, options: Options, next: Prefs)
    requires threadID != [] && Allows(options, patch)
    requires Normalized(Patched(Normalized(tables.Current(threadID)), patch)) == next
    ensures tables.Update(threadID, patch, options) == tables.(desired := tables.desired[threadID := next])
  {
  }

  lemma ChoosableIsAllowed(text: Bytes)
    requires Choosable(text)
    ensures Allows(ALL_OPTIONS, ToPolicy(text))
  {
  }

  lemma PatchesPolicy(before: Policy, text: Bytes)
    ensures Normalized(Patched(Normalized(OnlyPolicy(before)), ToPolicy(text))) == OnlyPolicy(PolicyOfText(text))
  {
    OnlyPolicyIsNormal(before);
    OnlyPolicyIsNormal(PolicyOfText(text));
  }

  lemma AsksFor(desired: map<Bytes, Prefs>, applied: map<Bytes, Prefs>, threadID: Bytes, before: Policy, text: Bytes,
      options: Options)
    requires threadID != [] && Allows(options, ToPolicy(text))
    requires threadID in desired && desired[threadID] == OnlyPolicy(before)
    ensures Tables(desired, applied).Update(threadID, ToPolicy(text), options)
         == Tables(desired[threadID := OnlyPolicy(PolicyOfText(text))], applied)
  {
    PatchesPolicy(before, text);
    UpdateStores(Tables(desired, applied), threadID, ToPolicy(text), options, OnlyPolicy(PolicyOfText(text)));
  }

  lemma UpdateOnlyAsks(w: World, threadID: Bytes, patch: Patch, options: Options, desired: map<Bytes, Prefs>)
    requires w.tables.Update(threadID, patch, options) == Tables(desired, w.tables.applied)
    ensures Apply(w, Update(threadID, patch, options)) == w.(tables := Tables(desired, w.tables.applied))
  {
  }

  lemma SituationChanges(threadID: Bytes, before: Policy, text: Bytes, believed: Policy, held: Policy,
      lost: map<Bytes, seq<Lost>>, options: Options)
    requires threadID != [] && Allows(options, ToPolicy(text))
    ensures Apply(Situation(threadID, before, believed, held, lost), Update(threadID, ToPolicy(text), options))
         == Situation(threadID, PolicyOfText(text), believed, held, lost)
  {
    var desired, applied := map[threadID := OnlyPolicy(before)], map[threadID := OnlyPolicy(believed)];
    var next := desired[threadID := OnlyPolicy(PolicyOfText(text))];
    assert next == map[threadID := OnlyPolicy(PolicyOfText(text))];
    AsksFor(desired, applied, threadID, before, text, options);
    UpdateOnlyAsks(Situation(threadID, before, believed, held, lost), threadID, ToPolicy(text), options, next);
  }

  /** The override of `asked` was lost although it had reached the server. */
  function OneLost(threadID: Bytes, asked: Policy): map<Bytes, seq<Lost>> {
    map[threadID := [Lost(OnlyPolicy(asked), true)]]
  }

  lemma PolicyReplaces(held: Policy, asked: Policy)
    requires asked != NoPolicy
    ensures Received(OnlyPolicy(held), OverrideFor(OnlyPolicy(asked))) == OnlyPolicy(asked)
    ensures OverrideFor(OnlyPolicy(asked)) != NO_OVERRIDE
  {
  }

  lemma LosesTheAnswer(threadID: Bytes, asked: Policy, believed: Policy)
    requires Trimmed(threadID) && threadID != [] && asked != believed && asked != NoPolicy
    ensures Apply(Situation(threadID, asked, believed, believed, map[]), Start(threadID, false, true))
         == Situation(threadID, asked, believed, asked, OneLost(threadID, asked))
  {
    OnlyPolicyIsNormal(asked);
    OnlyPolicyIsNormal(believed);
    var w := Situation(threadID, asked, believed, believed, map[]);
    PolicyReplaces(believed, asked);
    assert w.tables.Override(threadID) == OverrideFor(OnlyPolicy(asked));
    OverrideSuffices(OnlyPolicy(believed), NO_PREFS);
    FailureIs(w, threadID, true);
    assert w.LostOf(threadID) + [Lost(OnlyPolicy(asked), true)] == [Lost(OnlyPolicy(asked), true)];
  }

  lemma AsksAndLoses(threadID: Bytes, a: Policy, second: Bytes)
    requires Trimmed(threadID) && threadID != [] && a != NoPolicy
    requires Choosable(second) && PolicyOfText(second) != a
    ensures var b := PolicyOfText(second); Reachable(Situation(threadID, b, a, b, OneLost(threadID, b)))
  {
    var b := PolicyOfText(second);
    assert Reaches(INITIAL, [], INITIAL);
    OpensWith(threadID, a);
    ReachableGoesOn(INITIAL, Open(threadID, OnlyPolicy(a), OnlyPolicy(a)));
    ChoosableIsAllowed(second);
    SituationChanges(threadID, a, second, a, a, map[], ALL_OPTIONS);
    ReachableGoesOn(Situation(threadID, a, a, a, map[]), Update(threadID, ToPolicy(second), ALL_OPTIONS));
    LosesTheAnswer(threadID, b, a);
    ReachableGoesOn(Situation(threadID, b, a, a, map[]), Start(threadID, false, true));
  }

  /** The failing case exists: a start fails after the server has taken its override, the user goes
      back to what was there before, and the next start, which succeeds, sends nothing. */
  lemma LostAnswerMisleads(threadID: Bytes, first: Bytes, second: Bytes)
    requires Trimmed(threadID) && threadID != []
    requires Choosable(first) && Choosable(second) && PolicyOfText(first) != PolicyOfText(second)
    ensures exists w :: Reachable(w) && Misled(w, threadID)
  {
    var a, b := PolicyOfText(first), PolicyOfText(second);
    AsksAndLoses(threadID, a, second);
    var lost := OneLost(threadID, b);
    ChoosableIsAllowed(first);
    SituationChanges(threadID, b, first, a, b, lost, ALL_OPTIONS);
    ReachableGoesOn(Situation(threadID, b, a, b, lost), Update(threadID, ToPolicy(first), ALL_OPTIONS));
    SendsNothingNow(threadID, Situation(threadID, a, a, b, lost), OnlyPolicy(a), OnlyPolicy(b));
  }

  /** A start would succeed and yet leave the server without what is desired. */
  predicate Misled(w: World, threadID: Bytes) {
    threadID in w.tables.desired && !StartApplies(w, threadID)
  }

  lemma SendsNothingNow(threadID: Bytes, w: World, wanted: Prefs, held: Prefs)
    requires w.tables == Tables(map[threadID := wanted], map[threadID := wanted])
    requires w.Server(threadID) == held && !Holds(held, wanted)
    ensures Misled(w, threadID)
  {
    OverrideSuffices(held, NO_PREFS);
  }
}
