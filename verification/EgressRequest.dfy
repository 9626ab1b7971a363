/** The chat-to-Anthropic request translator (internal/anthropicegress/request.go and
    content.go). */
module EgressRequest {
  import opened Wrappers
  import opened GoText
  import opened DataUri
  import C = ChatRequest

  // --- The Messages request it writes ---

  datatype Source = Source(kind: string, mediaType: string, data: string, url: string)

  datatype Body =
    | Text(text: string)
    | Image(source: Source)
    | Document(source: Source)
    | ToolUse(id: string, name: string, input: C.Json)
    | ToolResult(toolUseId: string, content: string)

  /** A block, with or without a cache breakpoint on it. */
  datatype Block = Block(body: Body, marked: bool)

  function Plain(body: Body): Block { Block(body, false) }

  datatype Content = Str(s: string) | Blocks(blocks: seq<Block>)

  datatype Message = Message(role: string, content: Content)

  /** The system prompt: none, a plain string, or one text block that carries a breakpoint. */
  datatype System = NoSystem | Prompt(text: string) | MarkedPrompt(text: string)

  datatype Tool = Tool(name: string, description: string, inputSchema: C.Json, marked: bool)

  datatype ToolChoice = ToolChoice(kind: string, name: string, disableParallel: bool)

  datatype Thinking = Adaptive(effort: string) | Budget(tokens: int)

  datatype Request = Request(
    model: string, maxTokens: int, messages: seq<Message>, system: System, stream: bool,
    stopSequences: seq<string>, tools: seq<Tool>, toolChoice: Option<ToolChoice>,
    thinking: Option<Thinking>, sampling: C.Sampling)

  datatype Error = InvalidContent | Unsupported(part: nat) | ModelRequired | NoTurns

  // --- Content parts ---

  const IMAGE_MEDIA_TYPES := {"image/jpeg", "image/png", "image/gif", "image/webp"}

  function DocumentBlock(du: Parsed): Option<Body> {
    if du.mediaType == "text/plain" then
      match DecodePayload(du)
      case None => None
      case Some(text) => if text == "" then None else Some(Document(Source("text", "text/plain", text, "")))
    else
      match Base64Payload(du)
      case None => None
      case Some(data) => Some(Document(Source("base64", "application/pdf", data, "")))
  }

  function ImageBlock(url: string): Option<Body> {
    match ParseDataUri(url)
    case None => if CutDataScheme(url).Some? then None else Some(Image(Source("url", "", "", url)))
    case Some(du) =>
      if du.mediaType in IMAGE_MEDIA_TYPES then
        match Base64Payload(du)
        case None => None
        case Some(data) => Some(Image(Source("base64", du.mediaType, data, "")))
      else DocumentBlock(du)
  }

  function FileBlock(f: C.File): Option<Body> {
    if f.fileData != "" then
      match ParseDataUri(f.fileData) case None => None case Some(du) => DocumentBlock(du)
    else if f.fileUrl != "" then Some(Document(Source("url", "", "", f.fileUrl)))
    else None
  }

  /** An inline payload with nothing in it leaves the part to what else it names. */
  function Stripped(f: C.File): C.File { if EmptyDataUri(f.fileData) then f.(fileData := "") else f }

  predicate ImageSlot(p: C.Part) { p.imageUrl.Some? && p.imageUrl.value != "" && !EmptyDataUri(p.imageUrl.value) }

  predicate FileSlot(p: C.Part) { p.file.Some? && Stripped(p.file.value) != C.NO_FILE }

  predicate CarriesMedia(p: C.Part) { ImageSlot(p) || FileSlot(p) }

  /** A part that carries something; any other part is dropped. */
  predicate Carries(p: C.Part) {
    if p.kind == "text" then p.text != ""
    else if p.kind == "" then CarriesMedia(p) || p.text != ""
    else if p.kind == "refusal" then p.refusal != ""
    else if p.kind == "image_url" then ImageSlot(p)
    else if p.kind == "file" then FileSlot(p)
    else true
  }

  /** The block a carrying part becomes; None is content Messages cannot be given. */
  function BlockOf(p: C.Part): Option<Body>
    requires Carries(p)
  {
    if p.kind == "text" then Some(Text(p.text))
    else if p.kind == "" then (if CarriesMedia(p) then None else Some(Text(p.text)))
    else if p.kind == "refusal" then Some(Text(p.refusal))
    else if p.kind == "image_url" then ImageBlock(p.imageUrl.value)
    else if p.kind == "file" then FileBlock(Stripped(p.file.value))
    else None
  }

  /** The walk over a part list: the blocks, or the first part that cannot be sent. */
  function PartBlocks(parts: seq<C.Part>): Result<seq<Block>, Error> {
    if parts == [] then Success([])
    else
      var n := |parts| - 1;
      match PartBlocks(parts[..n])
      case Failure(e) => Failure(e)
      case Success(before) =>
        if !Carries(parts[n]) then Success(before)
        else match BlockOf(parts[n])
             case None => Failure(Unsupported(n))
             case Some(b) => Success(before + [Plain(b)])
  }

  function ContentBlocksOf(content: C.Content): Result<seq<Block>, Error> {
    match content
    case Missing => Success([])
    case Null => Success([])
    case Str(s) => Success(if s == "" then [] else [Plain(Text(s))])
    case Parts(parts) => PartBlocks(parts)
    case Unreadable => Failure(InvalidContent)
  }

  lemma {:induction false} PartFailureStays(parts: seq<C.Part>, i: nat)
    requires i <= |parts| && PartBlocks(parts[..i]).Failure?
    ensures PartBlocks(parts) == PartBlocks(parts[..i])
  {
    if i == |parts| {
      assert parts[..i] == parts;
    } else {
      var shorter := parts[..|parts| - 1];
      assert shorter[..i] == parts[..i];
      PartFailureStays(shorter, i);
    }
  }

  method TranslateBlocks(content: C.Content) returns (r: Result<seq<Block>, Error>)
    ensures r == ContentBlocksOf(content)
  {
    if content.Missing? || content.Null? { return Success([]); }
    if content.Str? { return Success(if content.s == "" then [] else [Plain(Text(content.s))]); }
    if content.Unreadable? { return Failure(InvalidContent); }
    var parts := content.parts;
    var blocks: seq<Block> := [];
    for i := 0 to |parts|
      invariant PartBlocks(parts[..i]) == Success(blocks)
    {
      assert parts[..i + 1][..i] == parts[..i];
      var p := parts[i];
      var block: Option<Body>;
      if p.kind == "text" || p.kind == "" {
        if p.kind == "" && CarriesMedia(p) {
          PartFailureStays(parts, i + 1);
          return Failure(Unsupported(i));
        }
        if p.text == "" { continue; }
        block := Some(Text(p.text));
      } else if p.kind == "refusal" {
        if p.refusal == "" { continue; }
        block := Some(Text(p.refusal));
      } else if p.kind == "image_url" {
        if p.imageUrl.None? || p.imageUrl.value == "" || EmptyDataUri(p.imageUrl.value) { continue; }
        block := ImageBlock(p.imageUrl.value);
      } else if p.kind == "file" {
        if p.file.None? { continue; }
        var f := p.file.value;
        if EmptyDataUri(f.fileData) { f := f.(fileData := ""); }
        if f == C.NO_FILE { continue; }
        block := FileBlock(f);
      } else {
        block := None;
      }
      if block.None? {
        PartFailureStays(parts, i + 1);
        return Failure(Unsupported(i));
      }
      blocks := blocks + [Plain(block.value)];
    }
    assert parts[..|parts|] == parts;
    r := Success(blocks);
  }

  // --- Turns ---

  /** Arguments have to be an object; anything else becomes the empty one. */
  function ArgumentsObject(a: C.Json): C.Json { if a.JObject? then a else C.EMPTY_OBJECT }

  function CallBlock(c: C.Call): Block { Plain(ToolUse(c.id, c.name, ArgumentsObject(c.arguments))) }

  function CallBlocks(calls: seq<C.Call>): seq<Block> {
    seq(|calls|, i requires 0 <= i < |calls| => CallBlock(calls[i]))
  }

  /** What a content field reads as where a plain string is asked for: null is the empty string. */
  predicate StringLike(content: C.Content) { content.Str? || content.Null? }

  function StringOf(content: C.Content): string { if content.Str? then content.s else "" }

  /** One turn, or none for a message that carries nothing. */
  function TurnOf(role: string, m: C.Message): Result<Option<Message>, Error> {
    if StringLike(m.content) && m.calls == [] then
      Success(if StringOf(m.content) == "" then None else Some(Message(role, Str(StringOf(m.content)))))
    else
      match ContentBlocksOf(m.content)
      case Failure(e) => Failure(e)
      case Success(blocks) =>
        var all := blocks + CallBlocks(m.calls);
        Success(if all == [] then None else Some(Message(role, Blocks(all))))
  }

  method TranslateTurn(role: string, m: C.Message) returns (r: Result<Option<Message>, Error>)
    ensures r == TurnOf(role, m)
  {
    if StringLike(m.content) && |m.calls| == 0 {
      if StringOf(m.content) == "" { return Success(None); }
      return Success(Some(Message(role, Str(StringOf(m.content)))));
    }
    var translated := TranslateBlocks(m.content);
    if translated.Failure? { return Failure(translated.error); }
    var blocks := translated.value;
    for i := 0 to |m.calls|
      invariant blocks == translated.value + CallBlocks(m.calls)[..i]
    {
      blocks := blocks + [Plain(ToolUse(m.calls[i].id, m.calls[i].name, ArgumentsObject(m.calls[i].arguments)))];
    }
    assert CallBlocks(m.calls)[..|m.calls|] == CallBlocks(m.calls);
    r := Success(if blocks == [] then None else Some(Message(role, Blocks(blocks))));
  }

  function ContentBlocks(content: Content): seq<Block> {
    match content
    case Str(s) => [Plain(Text(s))]
    case Blocks(bs) => bs
  }

  /** A turn joins the one before it when the roles match. */
  function AppendTurn(out: seq<Message>, m: Message): seq<Message> {
    if out == [] || out[|out| - 1].role != m.role then out + [m]
    else
      var prev := out[|out| - 1];
      out[..|out| - 1] + [prev.(content := Blocks(ContentBlocks(prev.content) + ContentBlocks(m.content)))]
  }

  function FlattenParts(parts: seq<C.Part>): string {
    if parts == [] then ""
    else FlattenParts(parts[..|parts| - 1]) + var p := parts[|parts| - 1]; if p.kind in {"", "text"} then p.text else ""
  }

  /** The plain text of a content field, for the fields Anthropic types as text. */
  function FlattenText(content: C.Content): string {
    match content
    case Str(s) => s
    case Parts(parts) => FlattenParts(parts)
    case _ => ""
  }

  function RoleOf(role: string): string { if role == "assistant" then "assistant" else "user" }

  predicate IsSystem(m: C.Message) { m.role == "system" || m.role == "developer" }

  /** The loop's state: system parts, turns so far, and the open run of tool results. */
  datatype Walk = Walk(system: seq<string>, out: seq<Message>, toolRun: seq<Block>)

  const NOTHING_YET := Walk([], [], [])

  function FlushedRun(w: Walk): Walk {
    if w.toolRun == [] then w else w.(out := AppendTurn(w.out, Message("user", Blocks(w.toolRun))), toolRun := [])
  }

  function Visit(w: Walk, m: C.Message): Result<Walk, Error> {
    if m.role == "tool" then
      Success(w.(toolRun := w.toolRun + [Plain(ToolResult(m.toolCallId, FlattenText(m.content)))]))
    else
      var f := FlushedRun(w);
      if IsSystem(m) then
        Success(if FlattenText(m.content) != "" then f.(system := f.system + [FlattenText(m.content)]) else f)
      else
        match TurnOf(RoleOf(m.role), m)
        case Failure(e) => Failure(e)
        case Success(None) => Success(f)
        case Success(Some(turn)) => Success(f.(out := AppendTurn(f.out, turn)))
  }

  function Walked(messages: seq<C.Message>): Result<Walk, Error> {
    if messages == [] then Success(NOTHING_YET)
    else
      match Walked(messages[..|messages| - 1])
      case Failure(e) => Failure(e)
      case Success(w) => Visit(w, messages[|messages| - 1])
  }

  /** strings.Join with a blank line. */
  function JoinParagraphs(parts: seq<string>): string {
    if parts == [] then ""
    else if |parts| == 1 then parts[0]
    else JoinParagraphs(parts[..|parts| - 1]) + "\n\n" + parts[|parts| - 1]
  }

  function TurnsOf(messages: seq<C.Message>): Result<(string, seq<Message>), Error> {
    match Walked(messages)
    case Failure(e) => Failure(e)
    case Success(w) => Success((JoinParagraphs(w.system), FlushedRun(w).out))
  }

  lemma {:induction false} WalkFailureStays(messages: seq<C.Message>, i: nat)
    requires i <= |messages| && Walked(messages[..i]).Failure?
    ensures Walked(messages) == Walked(messages[..i])
  {
    if i == |messages| {
      assert messages[..i] == messages;
    } else {
      var shorter := messages[..|messages| - 1];
      assert shorter[..i] == messages[..i];
      WalkFailureStays(shorter, i);
    }
  }

  method TranslateMessages(messages: seq<C.Message>) returns (r: Result<(string, seq<Message>), Error>)
    ensures r == TurnsOf(messages)
  {
    var system: seq<string>, out: seq<Message>, toolRun: seq<Block> := [], [], [];
    for i := 0 to |messages|
      invariant Walked(messages[..i]) == Success(Walk(system, out, toolRun))
    {
      assert messages[..i + 1][..i] == messages[..i];
      var m := messages[i];
      if m.role == "tool" {
        toolRun := toolRun + [Plain(ToolResult(m.toolCallId, FlattenText(m.content)))];
        continue;
      }
      if toolRun != [] {
        out := AppendTurn(out, Message("user", Blocks(toolRun)));
        toolRun := [];
      }
      if IsSystem(m) {
        var text := FlattenText(m.content);
        if text != "" { system := system + [text]; }
        continue;
      }
      var turn := TranslateTurn(RoleOf(m.role), m);
      if turn.Failure? {
        WalkFailureStays(messages, i + 1);
        return Failure(turn.error);
      }
      if turn.value.Some? { out := AppendTurn(out, turn.value.value); }
    }
    assert messages[..|messages|] == messages;
    if toolRun != [] { out := AppendTurn(out, Message("user", Blocks(toolRun))); }
    r := Success((JoinParagraphs(system), out));
  }

  // --- The rest of the request ---

  function CapTemperature(t: Option<real>): Option<real> {
    if t.Some? && t.value > 1.0 then Some(1.0) else t
  }

  function NonBlankStops(stops: seq<string>): seq<string> {
    if stops == [] then []
    else NonBlankStops(stops[..|stops| - 1]) + if TrimSpace(stops[|stops| - 1]) != "" then [stops[|stops| - 1]] else []
  }

  method DropBlankStops(stops: seq<string>) returns (kept: seq<string>)
    ensures kept == NonBlankStops(stops)
  {
    kept := [];
    for i := 0 to |stops|
      invariant kept == NonBlankStops(stops[..i])
    {
      assert stops[..i + 1][..i] == stops[..i];
      if TrimSpace(stops[i]) != "" { kept := kept + [stops[i]]; } else { assert kept + [] == kept; }
    }
    assert stops[..|stops|] == stops;
  }

  const EMPTY_SCHEMA := C.JObject("{\"type\":\"object\",\"properties\":{}}")

  function ToolOf(t: C.Tool): Tool {
    Tool(t.name, t.description, if t.parameters.JObject? then t.parameters else EMPTY_SCHEMA, false)
  }

  function ToolsOf(tools: seq<C.Tool>): seq<Tool> {
    seq(|tools|, i requires 0 <= i < |tools| => ToolOf(tools[i]))
  }

  /** A value no shape covers states no choice. */
  function ChoiceOf(c: C.ToolChoice): Option<ToolChoice> {
    match c
    case Mode(mode) =>
      if mode == "auto" then Some(ToolChoice("auto", "", false))
      else if mode == "required" then Some(ToolChoice("any", "", false))
      else if mode == "none" then Some(ToolChoice("none", "", false))
      else None
    case Function(name) => if name != "" then Some(ToolChoice("tool", name, false)) else None
    case _ => None
  }

  /** The choice needs tools to choose from, and carries a refusal of parallel calls. */
  function Chosen(tools: seq<C.Tool>, choice: C.ToolChoice, parallel: Option<bool>): Option<ToolChoice> {
    if tools == [] then None
    else
      var c := ChoiceOf(choice);
      if parallel == Some(false) then
        var d := if c.None? then ToolChoice("auto", "", false) else c.value;
        Some(if d.kind != "none" then d.(disableParallel := true) else d)
      else c
  }

  function FoldResponseFormat(system: string, instruction: Option<string>): string {
    if instruction.None? then system
    else if system == "" then instruction.value
    else system + "\n\n" + instruction.value
  }

  const DEFAULT_MAX_TOKENS := 4096

  const MIN_THINKING_BUDGET := 1024

  datatype Dialect = AdaptiveDialect | BudgetDialect

  function BudgetFor(effort: string): Option<int> {
    if effort == "minimal" || effort == "low" then Some(1024)
    else if effort == "medium" then Some(4096)
    else if effort == "high" then Some(8192)
    else None
  }

  function EffortFor(effort: string): Option<string> {
    if effort == "minimal" then Some("low")
    else if effort in {"low", "medium", "high", "xhigh", "max"} then Some(effort)
    else None
  }

  predicate ForcesToolUse(c: Option<ToolChoice>) { c.Some? && c.value.kind in {"any", "tool"} }

  function Effort(reasoningEffort: string): string { ToLower(TrimSpace(reasoningEffort)) }

  /** When thinking is on, and with what; the explicit limit is the caller's spending cap. */
  function ThinkingFor(maxTokens: int, choice: Option<ToolChoice>, effort: string, dialect: Dialect, limited: bool): Option<Thinking> {
    match dialect
    case BudgetDialect =>
      var budget := BudgetFor(effort);
      if budget.None? || ForcesToolUse(choice) then None
      else if !limited then Some(Budget(budget.value))
      else
        var half := if budget.value < maxTokens / 2 then budget.value else maxTokens / 2;
        if half < MIN_THINKING_BUDGET then None else Some(Budget(half))
    case AdaptiveDialect =>
      var level := EffortFor(effort);
      if level.None? || (limited && maxTokens < MIN_THINKING_BUDGET) then None else Some(Adaptive(level.value))
  }

  /** applyThinking, on a request under construction. */
  method ApplyThinking(req: Request, reasoningEffort: string, dialect: Dialect, limited: bool) returns (out: Request)
    requires req.thinking.None? && req.maxTokens > 0
    ensures out.thinking == ThinkingFor(req.maxTokens, req.toolChoice, Effort(reasoningEffort), dialect, limited)
    ensures out.thinking.None? ==> out == req
    ensures out == req.(thinking := out.thinking, maxTokens := out.maxTokens, sampling := out.sampling)
    // Thinking refuses the sampling knobs.
    ensures out.thinking.Some? ==> out.sampling == C.UNSAMPLED
    // The caller's limit is never raised, and a budget always leaves room for the answer.
    ensures limited ==> out.maxTokens == req.maxTokens
    ensures out.maxTokens >= req.maxTokens
    ensures out.thinking.Some? && out.thinking.value.Budget? ==>
              MIN_THINKING_BUDGET <= out.thinking.value.tokens < out.maxTokens && !ForcesToolUse(out.toolChoice)
    ensures out.thinking.Some? && out.thinking.value.Budget? && limited ==> 2 * out.thinking.value.tokens <= out.maxTokens
    ensures out.maxTokens == if !limited && out.thinking.Some? && out.thinking.value.Budget?
                                && req.maxTokens <= out.thinking.value.tokens
                             then out.thinking.value.tokens + 4096 else req.maxTokens
  {
    out := req;
    var effort := Effort(reasoningEffort);
    match dialect
    case BudgetDialect =>
      var found := BudgetFor(effort);
      if found.None? { return; }
      if ForcesToolUse(req.toolChoice) { return; }
      var budget := found.value;
      if limited {
        if out.maxTokens / 2 < budget { budget := out.maxTokens / 2; }
        if budget < MIN_THINKING_BUDGET { return; }
      } else if out.maxTokens <= budget {
        out := out.(maxTokens := budget + DEFAULT_MAX_TOKENS);
      }
      out := out.(thinking := Some(Budget(budget)), sampling := C.UNSAMPLED);
    case AdaptiveDialect =>
      var level := EffortFor(effort);
      if level.None? { return; }
      if limited && out.maxTokens < MIN_THINKING_BUDGET { return; }
      out := out.(thinking := Some(Adaptive(level.value)), sampling := C.UNSAMPLED);
  }

  function Limit(req: C.Request): int { if req.maxCompletionTokens > 0 then req.maxCompletionTokens else req.maxTokens }

  function Prompted(system: string): System { if system == "" then NoSystem else Prompt(system) }

  /** The request before thinking and caching are applied. */
  function Drafted(req: C.Request): Result<Request, Error> {
    if req.model == "" then Failure(ModelRequired)
    else
      match TurnsOf(req.messages)
      case Failure(e) => Failure(e)
      case Success((system, turns)) =>
        if turns == [] then Failure(NoTurns)
        else
          Success(Request(req.model, if Limit(req) > 0 then Limit(req) else DEFAULT_MAX_TOKENS, turns,
                          Prompted(FoldResponseFormat(system, req.formatInstruction)), req.stream, NonBlankStops(req.stop),
                          ToolsOf(req.tools), Chosen(req.tools, req.toolChoice, req.parallelToolCalls), None,
                          req.sampling.(temperature := CapTemperature(req.sampling.temperature))))
  }

  /** TranslateRequestWithOptions without caching. */
  method TranslateRequest(req: C.Request, dialect: Dialect) returns (r: Result<Request, Error>)
    ensures Drafted(req).Failure? ==> r == Failure(Drafted(req).error)
    ensures Drafted(req).Success? ==>
              var draft := Drafted(req).value;
              && r.Success?
              && r.value == draft.(thinking := r.value.thinking, maxTokens := r.value.maxTokens, sampling := r.value.sampling)
              && r.value.thinking == ThinkingFor(draft.maxTokens, draft.toolChoice, Effort(req.reasoningEffort), dialect, Limit(req) > 0)
              && r.value.sampling == (if r.value.thinking.Some? then C.UNSAMPLED else draft.sampling)
              && r.value.maxTokens == (if Limit(req) > 0 then Limit(req)
                                       else match r.value.thinking
                                            case Some(Budget(b)) => if b >= 4096 then b + 4096 else 4096
                                            case _ => 4096)
  {
    if req.model == "" { return Failure(ModelRequired); }
    var stops := DropBlankStops(req.stop);
    var translated := TranslateMessages(req.messages);
    if translated.Failure? { return Failure(translated.error); }
    var (system, turns) := translated.value;
    if turns == [] { return Failure(NoTurns); }
    var tools: seq<Tool> := [];
    for i := 0 to |req.tools|
      invariant |tools| == i && forall k :: 0 <= k < i ==> tools[k] == ToolsOf(req.tools)[k]
    {
      tools := tools + [ToolOf(req.tools[i])];
    }
    assert tools == ToolsOf(req.tools);
    var choice: Option<ToolChoice> := None;
    if |tools| > 0 { choice := ChoiceOf(req.toolChoice); }
    if req.parallelToolCalls == Some(false) && |tools| > 0 {
      if choice.None? { choice := Some(ToolChoice("auto", "", false)); }
      if choice.value.kind != "none" { choice := Some(choice.value.(disableParallel := true)); }
    }
    var maxTokens := req.maxCompletionTokens;
    if maxTokens <= 0 { maxTokens := req.maxTokens; }
    var limited := maxTokens > 0;
    if !limited { maxTokens := DEFAULT_MAX_TOKENS; }
    var draft := Request(req.model, maxTokens, turns, Prompted(FoldResponseFormat(system, req.formatInstruction)), req.stream,
                         stops, tools, choice, None, req.sampling.(temperature := CapTemperature(req.sampling.temperature)));
    var out := ApplyThinking(draft, req.reasoningEffort, dialect, limited);
    r := Success(out);
  }
}
