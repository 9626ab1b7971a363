/** The Anthropic-to-chat stream translator (internal/anthropicegress/stream.go) and the
    non-streaming form it must agree with (response.go). A payload that decodes is an
    Event; JSON encoding of the chunks never fails and is left out. */
module EgressStream {
  import opened Wrappers
  import opened GoText
  import opened ChatChunks
  import opened SortedInts

  // --- The Messages side ---

  datatype UsageBlock = UsageBlock(input: int, output: int, cacheCreation: int, cacheRead: int)

  const NO_USAGE := UsageBlock(0, 0, 0, 0)

  /** `input` is the member's raw JSON text, empty when the member is absent. */
  datatype Block = Text(text: string) | Thinking(thinking: string) | ToolUse(id: string, name: string, input: string) | OtherBlock

  datatype BlockDelta = TextDelta(text: string) | ThinkingDelta(thinking: string) | InputJsonDelta(partial: string) | OtherDelta

  datatype Event =
    | Malformed
    | MessageStart(usage: Option<UsageBlock>)
    | BlockStart(index: int, block: Option<Block>)
    | BlockDeltaEvent(index: int, delta: Option<BlockDelta>)
    | BlockStop(index: int)
    | MessageDelta(stopReason: string, outputUsage: Option<UsageBlock>)
    | MessageStop
    | ErrorEvent
    | PingEvent
    | UnknownEvent

  datatype StreamError = InvalidEvent | UpstreamError | UnopenedBlock | Truncated

  // --- The non-streaming form ---

  datatype Response = Response(content: seq<Block>, stopReason: string, usage: Option<UsageBlock>)

  /** Absent and null inputs are the empty object; anything else is compacted. */
  function ToolArguments(input: string): string {
    if MemberSet(input) then Compact(input) else "{}"
  }

  function MapFinishReason(stopReason: string): string {
    if stopReason == "max_tokens" then "length"
    else if stopReason == "tool_use" then "tool_calls"
    else if stopReason == "refusal" then "content_filter"
    else "stop"
  }

  function BuildUsage(u: UsageBlock): CompletionUsage {
    var prompt := u.input + u.cacheRead + u.cacheCreation;
    CompletionUsage(prompt, u.output, prompt + u.output,
                    if u.cacheCreation > 0 then u.cacheCreation else 0,
                    if u.cacheRead > 0 then u.cacheRead else 0,
                    if u.cacheRead > 0 then Some(u.cacheRead) else None)
  }

  function TextOf(blocks: seq<Block>): string {
    if blocks == [] then ""
    else TextOf(blocks[..|blocks| - 1]) + var b := blocks[|blocks| - 1]; if b.Text? then b.text else ""
  }

  function ReasoningOf(blocks: seq<Block>): string {
    if blocks == [] then ""
    else ReasoningOf(blocks[..|blocks| - 1]) + var b := blocks[|blocks| - 1]; if b.Thinking? then b.thinking else ""
  }

  function ToolCallsOf(blocks: seq<Block>): seq<ToolCall> {
    if blocks == [] then []
    else
      var rest := ToolCallsOf(blocks[..|blocks| - 1]);
      var b := blocks[|blocks| - 1];
      if b.ToolUse? then rest + [ToolCall(b.id, b.name, ToolArguments(b.input), "")] else rest
  }

  /** The message of a non-streaming completion. */
  function BuildChatCompletion(resp: Response): Message {
    Message(TextOf(resp.content), ReasoningOf(resp.content), ToolCallsOf(resp.content),
            Some(MapFinishReason(resp.stopReason)),
            if resp.usage.Some? then Some(BuildUsage(resp.usage.value)) else None)
  }

  /** translateContent: three lists filled side by side, the first two then joined. */
  method TranslateContent(blocks: seq<Block>) returns (text: string, reasoning: string, toolCalls: seq<ToolCall>)
    ensures text == TextOf(blocks) && reasoning == ReasoningOf(blocks) && toolCalls == ToolCallsOf(blocks)
  {
    var textParts, reasoningParts: seq<string> := [], [];
    toolCalls := [];
    for i := 0 to |blocks|
      invariant Concat(textParts) == TextOf(blocks[..i])
      invariant Concat(reasoningParts) == ReasoningOf(blocks[..i])
      invariant toolCalls == ToolCallsOf(blocks[..i])
    {
      assert blocks[..i + 1][..i] == blocks[..i];
      match blocks[i]
      case Text(t) =>
        assert (textParts + [t])[..|textParts|] == textParts;
        textParts := textParts + [t];
      case Thinking(t) =>
        assert (reasoningParts + [t])[..|reasoningParts|] == reasoningParts;
        reasoningParts := reasoningParts + [t];
      case ToolUse(id, name, input) =>
        toolCalls := toolCalls + [ToolCall(id, name, ToolArguments(input), "")];
      case OtherBlock =>
    }
    assert blocks[..|blocks|] == blocks;
    text, reasoning := Concat(textParts), Concat(reasoningParts);
  }

  // --- The translator's state, and each event as a function of it ---

  datatype State = State(
    started: bool, finished: bool, failed: bool, stopReason: string, usage: UsageBlock,
    toolIndexByBlock: map<int, int>, toolCalls: int, toolArgsSeen: set<int>, openerInput: map<int, string>)

  const FRESH := State(false, false, false, "", NO_USAGE, map[], 0, {}, map[])

  /** The frames an event yields, and the error that ends the stream if there is one. */
  datatype Outcome = Outcome(frames: seq<Frame>, error: Option<StreamError>)

  const SILENT := Outcome([], None)

  function Write(s: State, delta: Delta, finish: Option<string>, usage: Option<CompletionUsage>): (State, Outcome) {
    (s.(started := true),
     Outcome([Data(Chunk(delta.(role := if s.started then "" else "assistant"), finish, usage))], None))
  }

  function TextDeltaOf(text: string): Delta { NO_DELTA.(content := text) }

  function ReasoningDeltaOf(text: string): Delta { NO_DELTA.(reasoning := text) }

  function Header(index: int, id: string, name: string): Delta {
    NO_DELTA.(tools := [ToolFragment(Some(index), id, "function", name, "", "")])
  }

  function Arguments(index: int, args: string): Delta {
    NO_DELTA.(tools := [ToolFragment(Some(index), "", "", "", args, "")])
  }

  /** An opener's input worth holding: a non-empty object. The event decoded, so a present
      input is valid JSON. */
  function HeldInput(input: string): Option<string> {
    var t := TrimSpace(input);
    if |t| > 1 && t[0] == '{' && t != "{}" then Some(t) else None
  }

  /** A reused index starts with no arguments seen and no opener input of its own. */
  function OpenTool(s: State, index: int, id: string, name: string, held: Option<string>): (State, Outcome) {
    Write(s.(toolCalls := s.toolCalls + 1,
             toolIndexByBlock := s.toolIndexByBlock[index := s.toolCalls],
             toolArgsSeen := s.toolArgsSeen - {index},
             openerInput := if held.Some? then s.openerInput[index := held.value] else s.openerInput - {index}),
          Header(s.toolCalls, id, name), None, None)
  }

  function StartBlock(s: State, index: int, block: Option<Block>): (State, Outcome) {
    match block
    case None => (s, SILENT)
    case Some(Text(t)) => if t == "" then (s, SILENT) else Write(s, TextDeltaOf(t), None, None)
    case Some(Thinking(t)) => if t == "" then (s, SILENT) else Write(s, ReasoningDeltaOf(t), None, None)
    case Some(OtherBlock) => (s, SILENT)
    case Some(ToolUse(id, name, input)) => OpenTool(s, index, id, name, HeldInput(input))
  }

  function OnDelta(s: State, index: int, delta: Option<BlockDelta>): (State, Outcome) {
    match delta
    case Some(TextDelta(t)) => if t == "" then (s, SILENT) else Write(s, TextDeltaOf(t), None, None)
    case Some(ThinkingDelta(t)) => if t == "" then (s, SILENT) else Write(s, ReasoningDeltaOf(t), None, None)
    case Some(InputJsonDelta(p)) =>
      if p == "" then (s, SILENT)
      else if index !in s.toolIndexByBlock then (s, Outcome([], Some(UnopenedBlock)))
      else Write(s.(toolArgsSeen := s.toolArgsSeen + {index}), Arguments(s.toolIndexByBlock[index], p), None, None)
    case _ => (s, SILENT)
  }

  /** The arguments a tool block owes when it closes without a fragment. */
  function Owed(s: State, index: int): string {
    if index in s.openerInput then s.openerInput[index] else "{}"
  }

  function StopBlock(s: State, index: int): (State, Outcome) {
    if index !in s.toolIndexByBlock || index in s.toolArgsSeen then (s, SILENT)
    else Write(s.(toolArgsSeen := s.toolArgsSeen + {index}), Arguments(s.toolIndexByBlock[index], Owed(s, index)), None, None)
  }

  /** Tool blocks whose arguments are still owed. */
  function Pending(s: State): set<int> {
    s.toolIndexByBlock.Keys - s.toolArgsSeen
  }

  function StopAll(s: State, list: seq<int>): (State, seq<Frame>) {
    if list == [] then (s, [])
    else
      var (mid, frames) := StopAll(s, list[..|list| - 1]);
      var (after, out) := StopBlock(mid, list[|list| - 1]);
      (after, frames + out.frames)
  }

  function Terminal(s: State): (State, Outcome) {
    var (after, out) := Write(s, NO_DELTA, Some(MapFinishReason(s.stopReason)),
                              if s.usage != NO_USAGE then Some(BuildUsage(s.usage)) else None);
    (after, Outcome(out.frames + [Done], None))
  }

  /** Close the stream, stopping the pending blocks in ascending order of block index. */
  ghost function Close(s: State): (State, Outcome) {
    if s.finished || s.failed then (s, SILENT)
    else
      var (mid, owed) := StopAll(s.(finished := true), Listing(Pending(s)));
      var (after, last) := Terminal(mid);
      (after, Outcome(owed + last.frames, None))
  }

  function UsageOnly(s: State): (State, seq<Frame>) {
    if s.finished || s.failed || s.usage == NO_USAGE then (s, [])
    else
      var (after, out) := Write(s, NO_DELTA, None, Some(BuildUsage(s.usage)));
      (after, out.frames)
  }

  /** What one payload does. */
  ghost function Step(s: State, ev: Event): (State, Outcome) {
    if s.finished then (s, SILENT)
    else
      match ev
      case Malformed => (s, Outcome([], Some(InvalidEvent)))
      case MessageStart(u) =>
        var counted := if u.None? then s else
          s.(usage := u.value.(output := s.usage.output));
        Write(counted, NO_DELTA, None, None)
      case BlockStart(i, b) => StartBlock(s, i, b)
      case BlockDeltaEvent(i, d) => OnDelta(s, i, d)
      case BlockStop(i) => StopBlock(s, i)
      case MessageDelta(r, u) =>
        (s.(stopReason := if r != "" then r else s.stopReason,
            usage := if u.Some? then s.usage.(output := u.value.output) else s.usage), SILENT)
      case MessageStop => Close(s)
      case ErrorEvent => (s.(failed := true), Outcome([], Some(UpstreamError)))
      case PingEvent => (s, Outcome([Ping], None))
      case UnknownEvent => (s, SILENT)
  }

  /** What end of input does. */
  ghost function AtEof(s: State): (State, Outcome) {
    if !s.finished && !s.failed && s.stopReason == "" then
      var (after, frames) := UsageOnly(s);
      (after, Outcome(frames, Some(Truncated)))
    else
      Close(s)
  }

  // --- The translator ---

  class StreamTranslator {
    var started: bool
    var finished: bool
    var failed: bool
    var stopReason: string
    var usage: UsageBlock
    var toolIndexByBlock: map<int, int>
    var toolCalls: int
    var toolArgsSeen: set<int>
    var openerInput: map<int, string>

    ghost function Now(): State
      reads this
    {
      State(started, finished, failed, stopReason, usage, toolIndexByBlock, toolCalls, toolArgsSeen, openerInput)
    }

    constructor ()
      ensures Now() == FRESH
    {
      started, finished, failed, stopReason, usage := false, false, false, "", NO_USAGE;
      toolIndexByBlock, toolCalls, toolArgsSeen, openerInput := map[], 0, {}, map[];
    }

    method WriteChunk(delta: Delta, finish: Option<string>, u: Option<CompletionUsage>) returns (frames: seq<Frame>)
      modifies `started
      ensures (Now(), Outcome(frames, None)) == Write(old(Now()), delta, finish, u)
    {
      frames := [Data(Chunk(delta.(role := if started then "" else "assistant"), finish, u))];
      started := true;
    }

    method StartBlockEvent(index: int, block: Option<Block>) returns (frames: seq<Frame>)
      modifies this
      ensures (Now(), Outcome(frames, None)) == StartBlock(old(Now()), index, block)
    {
      frames := [];
      match block
      case None =>
      case Some(Text(t)) =>
        if t != "" { frames := WriteChunk(TextDeltaOf(t), None, None); }
      case Some(Thinking(t)) =>
        if t != "" { frames := WriteChunk(ReasoningDeltaOf(t), None, None); }
      case Some(OtherBlock) =>
      case Some(ToolUse(id, name, input)) =>
        frames := StartTool(index, id, name, HeldInput(input));
    }

    method StartTool(index: int, id: string, name: string, held: Option<string>) returns (frames: seq<Frame>)
      modifies this
      ensures (Now(), Outcome(frames, None)) == OpenTool(old(Now()), index, id, name, held)
    {
      var oaIndex := toolCalls;
      toolCalls := toolCalls + 1;
      toolIndexByBlock := toolIndexByBlock[index := oaIndex];
      toolArgsSeen := toolArgsSeen - {index};
      openerInput := openerInput - {index};
      frames := WriteChunk(Header(oaIndex, id, name), None, None);
      if held.Some? {
        openerInput := openerInput[index := held.value];
        assert openerInput == old(openerInput)[index := held.value];
      }
    }

    method BlockDelta(index: int, delta: Option<BlockDelta>) returns (frames: seq<Frame>, error: Option<StreamError>)
      modifies this
      ensures (Now(), Outcome(frames, error)) == OnDelta(old(Now()), index, delta)
    {
      frames, error := [], None;
      match delta
      case Some(TextDelta(t)) =>
        if t != "" { frames := WriteChunk(TextDeltaOf(t), None, None); }
      case Some(ThinkingDelta(t)) =>
        if t != "" { frames := WriteChunk(ReasoningDeltaOf(t), None, None); }
      case Some(InputJsonDelta(p)) =>
        if p == "" { return; }
        if index !in toolIndexByBlock { error := Some(UnopenedBlock); return; }
        toolArgsSeen := toolArgsSeen + {index};
        frames := WriteChunk(Arguments(toolIndexByBlock[index], p), None, None);
      case _ =>
    }

    method StopBlockEvent(index: int) returns (frames: seq<Frame>)
      modifies this
      ensures (Now(), Outcome(frames, None)) == StopBlock(old(Now()), index)
    {
      frames := [];
      if index !in toolIndexByBlock || index in toolArgsSeen { return; }
      toolArgsSeen := toolArgsSeen + {index};
      var args := "{}";
      if index in openerInput { args := openerInput[index]; }
      frames := WriteChunk(Arguments(toolIndexByBlock[index], args), None, None);
    }

    /** Stops the pending blocks in ascending order of block index, then ends the stream. */
    method CloseStream() returns (frames: seq<Frame>)
      modifies this
      ensures (Now(), Outcome(frames, None)) == Close(old(Now()))
    {
      frames := [];
      var pending: seq<int> := [];
      var blocks := toolIndexByBlock.Keys;
      while blocks != {}
        invariant blocks <= toolIndexByBlock.Keys
        invariant forall k :: k in pending <==> k in Pending(Now()) && k !in blocks
        invariant forall i, j :: 0 <= i < j < |pending| ==> pending[i] != pending[j]
      {
        assert (forall k :: k !in blocks) ==> blocks == {};
        var b: int :| b in blocks;
        blocks := blocks - {b};
        if b !in toolArgsSeen { pending := pending + [b]; }
      }
      pending := Sort(pending);
      AscendingUnique(pending, Listing(Pending(Now())), Pending(Now()));
      if finished || failed { return; }
      finished := true;
      ghost var s := Now();
      for i := 0 to |pending|
        invariant (Now(), frames) == StopAll(s, pending[..i])
      {
        assert pending[..i + 1][..i] == pending[..i];
        var more := StopBlockEvent(pending[i]);
        frames := frames + more;
      }
      assert pending[..|pending|] == pending;
      var reason := MapFinishReason(stopReason);
      var u: Option<CompletionUsage> := None;
      if usage != NO_USAGE { u := Some(BuildUsage(usage)); }
      var last := WriteChunk(NO_DELTA, Some(reason), u);
      frames := frames + (last + [Done]);
    }

    method Translate(ev: Event) returns (frames: seq<Frame>, error: Option<StreamError>)
      modifies this
      ensures (Now(), Outcome(frames, error)) == Step(old(Now()), ev)
    {
      frames, error := [], None;
      if finished { return; }
      match ev
      case Malformed => error := Some(InvalidEvent);
      case MessageStart(u) =>
        if u.Some? { usage := u.value.(output := usage.output); }
        frames := WriteChunk(NO_DELTA, None, None);
      case BlockStart(i, b) => frames := StartBlockEvent(i, b);
      case BlockDeltaEvent(i, d) => frames, error := BlockDelta(i, d);
      case BlockStop(i) => frames := StopBlockEvent(i);
      case MessageDelta(r, u) =>
        if r != "" { stopReason := r; }
        if u.Some? { usage := usage.(output := u.value.output); }
      case MessageStop => frames := CloseStream();
      case ErrorEvent => failed := true; error := Some(UpstreamError);
      case PingEvent => frames := [Ping];
      case UnknownEvent =>
    }

    method Finish() returns (frames: seq<Frame>, error: Option<StreamError>)
      modifies this
      ensures (Now(), Outcome(frames, error)) == AtEof(old(Now()))
    {
      error := None;
      if !finished && !failed && stopReason == "" {
        frames := UsageChunk();
        error := Some(Truncated);
      } else {
        frames := CloseStream();
      }
    }

    method UsageChunk() returns (frames: seq<Frame>)
      modifies `started
      ensures (Now(), frames) == UsageOnly(old(Now()))
    {
      frames := [];
      if finished || failed || usage == NO_USAGE { return; }
      frames := WriteChunk(NO_DELTA, None, Some(BuildUsage(usage)));
    }
  }
}
