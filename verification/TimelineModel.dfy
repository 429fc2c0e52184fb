/** The console's timeline: a fold of timeline events into messages. Message identifiers are written
    as the parts they are put together from. */
module TimelineModel {
  import opened Text
  import opened ProgressText

  datatype EventType =
    | TurnStarted | TurnCompleted | TurnFailed | ItemStarted | ItemDelta | ItemCompleted | ItemFailed
    | ApprovalRequested | ApprovalResolved | SystemEvent

  datatype ItemType =
    | MessageItem | Reasoning | Plan | Command | FileChange | WebSearch | MCPTool | Tool | Subagent
    | Image | Artifact | Context | ModeChange | OtherItem(name: string)

  datatype Phase = Input | Analysis | Progressing | Final | SystemPhase | OtherPhase

  datatype AppendMode = Append | Replace | SnapshotMode | OtherMode

  /** A snapshot that is no string is shown as its JSON text. */
  datatype Snapshot = NoSnapshot | TextSnapshot(text: string) | JSONSnapshot(json: string)

  datatype Content = Content(
    terminal: bool, delta: Option<string>, text: Option<string>, snapshot: Snapshot, appendMode: AppendMode)

  datatype ToolCall = ToolCall(kind: string, name: Option<string>)

  datatype ApprovalInfo = ApprovalInfo(kind: Option<string>, title: Option<string>, decision: Option<string>)

  datatype Event = Event(
    eventID: string,
    sequence: int,
    turnID: Option<string>,
    itemID: Option<string>,
    eventType: EventType,
    itemType: ItemType,
    fromUser: bool,
    phase: Phase,
    content: Option<Content>,
    tool: Option<ToolCall>,
    approval: Option<ApprovalInfo>,
    error: Option<string>)

  datatype Scope = InTurn(turnID: string) | InEvent(eventID: string)

  datatype Position = OfItem(itemID: string) | OfSequence(sequence: int)

  datatype MessageID =
    | UserID(scope: Scope, position: Position)
    | FailedID(turnID: Option<string>)
    | SystemID(eventID: string)
    | AgentID(agentTurnID: string)
    | HistoryID(text: string)

  datatype Kind = User | Agent | System

  datatype Message = Message(
    id: MessageID,
    kind: Kind,
    text: string,
    turnID: Option<string>,
    progressText: Option<string>,
    terminalOutput: Option<string>,
    isPending: bool)

  // ----- texts -----

  function DisplayText(event: Event): string {
    if event.content.None? then ""
    else
      var content := event.content.value;
      if content.delta.Some? then content.delta.value
      else if content.text.Some? then content.text.value
      else
        match content.snapshot
        case NoSnapshot => ""
        case TextSnapshot(text) => text
        case JSONSnapshot(json) => json
  }

  function Label(event: Event): string {
    match event.itemType
    case Reasoning => "分析"
    case Plan => "计划"
    case Command => "终端输出"
    case FileChange => "文件变更"
    case WebSearch => "网页搜索"
    case MCPTool => "MCP 工具"
    case Tool => "工具调用"
    case Subagent => "子 Agent"
    case Image => "图片"
    case Artifact => "产物"
    case Context => "上下文"
    case ModeChange => "模式"
    case MessageItem => if event.phase == Analysis then "分析" else "过程"
    case OtherItem(name) => if name == "" then "事件" else name
  }

  function Bold(title: string): string {
    "**" + title + "**"
  }

  predicate IsQuiet(event: Event) {
    event.itemType == MessageItem || event.itemType == Reasoning || event.itemType == Plan
  }

  function OrElse(value: Option<string>, otherwise: string): string {
    if value.Some? then value.value else otherwise
  }

  predicate Truthy(value: Option<string>) {
    value.Some? && value.value != ""
  }

  function ProcessText(event: Event): string {
    var text := DisplayText(event);
    match event.eventType
    case ItemStarted => if IsQuiet(event) then "" else Bold(Label(event)) + " 开始。"
    case ItemFailed => Bold(Label(event)) + " 失败：" + OrElse(event.error, "未知错误")
    case ApprovalResolved =>
      Bold("审批") + " 已处理：" + if event.approval.None? then "completed"
          else OrElse(event.approval.value.decision, "completed")
    case ApprovalRequested =>
      Bold("审批") + " " +
      if event.approval.None? then "待处理"
          else OrElse(event.approval.value.title, OrElse(event.approval.value.kind, "待处理"))
    case ItemCompleted =>
      if text != "" then TextOrTool(event) else if IsQuiet(event) then "" else Bold(Label(event)) + " 完成。"
    case _ => TextOrTool(event)
  }

  function TextOrTool(event: Event): string {
    var text := DisplayText(event);
    if text != "" then
      if event.itemType == MessageItem && event.phase == Progressing then text else Bold(Label(event)) + BREAK + text
    else if event.tool.Some? && (Truthy(event.tool.value.name) || event.tool.value.kind != "") then
      Bold(Label(event)) + " " + OrElse(event.tool.value.name, event.tool.value.kind)
    else ""
  }

  function SystemText(event: Event): string {
    if event.itemType == Context then "上下文已压缩"
    else if event.itemType == ModeChange && DisplayText(event) == "" then "模式已变更"
    else DisplayText(event)
  }

  const ANALYSING := BREAK + "正在分析..."

  function WithoutAnalysing(s: string): string
    decreases |s|
  {
    if s == "" then ""
    else if ANALYSING <= s then WithoutAnalysing(s[|ANALYSING|..])
    else [s[0]] + WithoutAnalysing(s[1..])
  }

  function CleanProgress(text: Option<string>): Option<string> {
    var cleaned := Trim(WithoutAnalysing(OrElse(text, "")));
    if cleaned == "" then None else Some(cleaned)
  }

  function MergeText(current: string, next: string, mode: AppendMode): string {
    if mode == Replace || mode == SnapshotMode then next else current + next
  }

  function ModeOf(event: Event): AppendMode {
    if event.content.Some? then event.content.value.appendMode else OtherMode
  }

  function AppendProgress(current: Option<string>, next: string, event: Event): string {
    var text := DisplayText(event);
    var appends := event.eventType == ItemDelta && ModeOf(event) == Append && text != "";
    if event.itemType == MessageItem && event.phase == Progressing && appends then
        AppendPlainProgressDelta(current, text)
    else if event.itemType == MessageItem && event.phase == Progressing && text != "" then MergedSnapshot(current, text)
    else if appends then WithDelta(current, Label(event), text)
    else if current.None? || Trim(current.value) == "" then next
    else TrimEnd(current.value) + BREAK + next
  }

  // ----- messages -----

  function Settled(message: Message): Message {
    message.(isPending := false)
  }

  function MergeAgent(message: Message, event: Event): Message {
    if event.eventType == TurnStarted then Settled(message).(turnID := event.turnID)
    else if event.eventType == TurnCompleted then Settled(message).(progressText := CleanProgress(message.progressText))
    else if event.phase == Final && event.itemType == MessageItem then
      if DisplayText(event) == "" then message
      else
        Settled(message).(text := MergeText(message.text, DisplayText(event), ModeOf(event)),
                          progressText := CleanProgress(message.progressText))
    else if ProcessText(event) == "" then message
    else if event.itemType == Command && event.content.Some? && event.content.value.terminal then
      Settled(message).(
        terminalOutput := Some(MergeText(OrElse(message.terminalOutput, ""), DisplayText(event), ModeOf(event))),
        progressText := Some(AppendProgress(message.progressText, ProcessText(event), event)))
    else Settled(message).(progressText := Some(AppendProgress(message.progressText, ProcessText(event), event)))
  }

  /** An upsert keeps what the new message does not mention. */
  function Overlaid(message: Message, next: Message): Message {
    message.(id := next.id, kind := next.kind, text := next.text, turnID := next.turnID)
  }

  predicate Has(current: seq<Message>, id: MessageID) {
    exists i :: 0 <= i < |current| && current[i].id == id
  }

  function Upserted(current: seq<Message>, next: Message): seq<Message> {
    if !Has(current, next.id) then current + [next] else Replaced(current, next)
  }

  function Replaced(current: seq<Message>, next: Message): (replaced: seq<Message>)
    ensures |replaced| == |current|
  {
    seq(|current|, i requires 0 <= i < |current| =>
      if current[i].id == next.id then Overlaid(current[i], next) else current[i])
  }

  predicate IsAgentOf(message: Message, turnID: string) {
    message.id == AgentID(turnID) || (message.turnID == Some(turnID) && message.kind == Agent)
  }

  function FindAgent(current: seq<Message>, turnID: string): (i: nat)
    ensures i <= |current|
    ensures i < |current| ==> IsAgentOf(current[i], turnID)
    ensures forall j :: 0 <= j < i ==> !IsAgentOf(current[j], turnID)
  {
    if current == [] || IsAgentOf(current[0], turnID) then 0
    else
      var i := FindAgent(current[1..], turnID);
      assert forall j :: 0 < j < i + 1 ==> current[j] == current[1..][j - 1];
      i + 1
  }

  function Blanked(id: MessageID, kind: Kind, text: string, turnID: Option<string>): Message {
    Message(id, kind, text, turnID, None, None, false)
  }

  function UserMessageID(event: Event): MessageID {
    UserID(if event.turnID.Some? then InTurn(event.turnID.value) else InEvent(event.eventID),
           if event.itemID.Some? then OfItem(event.itemID.value) else OfSequence(event.sequence))
  }

  predicate LifecycleOnly(event: Event) {
    event.eventType in {TurnStarted, TurnCompleted, ItemStarted, ItemCompleted}
  }

  function MergeIntoAgent(current: seq<Message>, event: Event): seq<Message>
    requires Truthy(event.turnID)
  {
    var turnID := event.turnID.value;
    var i := FindAgent(current, turnID);
    if i < |current| then current[i := MergeAgent(current[i], event)]
    else if LifecycleOnly(event) && ProcessText(event) == "" then current
    else current + [MergeAgent(Blanked(AgentID(turnID), Agent, "", event.turnID), event)]
  }

  function MergeEvent(current: seq<Message>, event: Event): seq<Message> {
    if !Truthy(event.turnID) && event.eventType != SystemEvent then current
    else if event.fromUser || event.phase == Input then
      if DisplayText(event) == "" then current
      else Upserted(current, Blanked(UserMessageID(event), User, DisplayText(event), event.turnID))
    else if event.eventType == TurnFailed then
      Upserted(current, Blanked(FailedID(event.turnID), System,
        if Truthy(event.error) then "执行失败：" + event.error.value else "执行失败", event.turnID))
    else if event.eventType == SystemEvent || event.phase == SystemPhase then
      if SystemText(event) == "" then current
      else Upserted(current, Blanked(SystemID(event.eventID), System, SystemText(event), event.turnID))
    else MergeIntoAgent(current, event)
  }

  function Fold(current: seq<Message>, events: seq<Event>): seq<Message> {
    if events == [] then current
    else MergeEvent(Fold(current, events[..|events| - 1]), events[|events| - 1])
  }

  // ----- replay -----

  /** The event goes behind every event that is not later than it. */
  function Insert(sorted: seq<Event>, event: Event): seq<Event> {
    if sorted == [] || sorted[|sorted| - 1].sequence <= event.sequence then sorted + [event]
    else Insert(sorted[..|sorted| - 1], event) + [sorted[|sorted| - 1]]
  }

  /** The stable sort by sequence number. */
  function SortBySequence(events: seq<Event>): seq<Event> {
    if events == [] then [] else Insert(SortBySequence(events[..|events| - 1]), events[|events| - 1])
  }

  function Replayed(events: seq<Event>): seq<Message> {
    Fold([], SortBySequence(events))
  }
}
