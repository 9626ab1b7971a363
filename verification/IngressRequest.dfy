/** The Anthropic-to-chat request translator (internal/anthropic/request.go). */
module IngressRequest {
  import opened Wrappers
  import opened ToolIds
  import D = DataUri
  import C = ChatRequest

  // --- The Messages request, as decoded ---

  datatype Source = Source(kind: string, mediaType: string, data: string, url: string)

  datatype Block =
    | Text(text: string)
    | Image(source: Option<Source>)
    | Document(source: Option<Source>, title: string)
    | ToolUse(id: string, name: string, input: C.Json)
    | ToolResult(toolUseId: string, content: Content)
    | Thinking
    | Other

  /** A string, a block array, or neither; a null reads as the empty string. */
  datatype Content = Str(s: string) | Blocks(blocks: seq<Block>) | Neither

  datatype Message = Message(role: string, content: Content)

  datatype ToolChoice = NoChoice | Choice(kind: string, name: string) | Unreadable

  datatype Tool = Tool(name: string, description: string, inputSchema: C.Json)

  datatype Request = Request(model: string, maxTokens: int, messages: seq<Message>, system: Option<Content>,
                             stream: bool, sampling: C.Sampling, stopSequences: seq<string>, tools: seq<Tool>, toolChoice: ToolChoice)

  datatype Error = InvalidContent | ModelRequired

  // --- Pieces ---

  function ImageUrl(source: Option<Source>): Option<string> {
    if source.None? then None
    else
      var src := source.value;
      if src.kind == "base64" then (if src.data == "" then None else Some(D.Base64Uri(src.mediaType, src.data)))
      else if src.kind == "url" then (if src.url == "" then None else Some(src.url))
      else None
  }

  /** A text source becomes text; a file part takes a data URI and nothing else. */
  function DocumentPart(source: Option<Source>): Option<C.Part> {
    if source.None? then None
    else if source.value.kind == "text" then
      (if source.value.data == "" then None else Some(C.TextPart(source.value.data)))
    else
      match ImageUrl(source)
      case None => None
      case Some(uri) => if D.CutDataScheme(uri).Some? then Some(C.FilePart(uri)) else None
  }

  function JoinText(blocks: seq<Block>): string {
    if blocks == [] then ""
    else JoinText(blocks[..|blocks| - 1]) + var b := blocks[|blocks| - 1]; if b.Text? then b.text else ""
  }

  function JoinParts(parts: seq<C.Part>): string {
    if parts == [] then ""
    else JoinParts(parts[..|parts| - 1]) + var p := parts[|parts| - 1]; if p.kind == "text" then p.text else ""
  }

  function DecodeText(content: Content): Option<string> {
    match content
    case Str(s) => Some(s)
    case Blocks(bs) => Some(JoinText(bs))
    case Neither => None
  }

  function BlockImages(blocks: seq<Block>): seq<C.Part> {
    if blocks == [] then []
    else
      var rest := BlockImages(blocks[..|blocks| - 1]);
      var b := blocks[|blocks| - 1];
      if b.Image? && ImageUrl(b.source).Some? then rest + [C.ImagePart(ImageUrl(b.source).value)] else rest
  }

  function ResultImages(content: Content): seq<C.Part> {
    if content.Blocks? then BlockImages(content.blocks) else []
  }

  /** A tool message holds text; one left with images alone says where they went. */
  function ResultText(content: Content): string {
    var text := match DecodeText(content) case Some(t) => t case None => "";
    if text == "" && ResultImages(content) != [] then "[image]" else text
  }

  function CallOf(id: string, name: string, input: C.Json): C.Call {
    var (bare, signature) := SplitToolUseId(id);
    C.Call(bare, name, if input.JAbsent? || input.JNull? then C.EMPTY_OBJECT else input, signature)
  }

  function ToolMessage(toolUseId: string, content: Content): C.Message {
    C.Message("tool", C.Str(ResultText(content)), [], SplitToolUseId(toolUseId).0)
  }

  // --- One message ---

  /** The loop's four lists. */
  datatype Walk = Walk(out: seq<C.Message>, parts: seq<C.Part>, calls: seq<C.Call>, images: seq<C.Part>)

  const NOTHING_YET := Walk([], [], [], [])

  function Flushed(role: string, w: Walk): Walk {
    if w.parts == [] then w else w.(out := w.out + [C.Says(role, C.Parts(w.parts))], parts := [])
  }

  function Visit(role: string, w: Walk, b: Block): Walk {
    match b
    case Text(t) => w.(parts := w.parts + [C.TextPart(t)])
    case Image(src) => if ImageUrl(src).Some? then w.(parts := w.parts + [C.ImagePart(ImageUrl(src).value)]) else w
    case ToolUse(id, name, input) => w.(calls := w.calls + [CallOf(id, name, input)])
    case ToolResult(id, content) =>
      var f := Flushed(role, w);
      f.(out := f.out + [ToolMessage(id, content)], images := w.images + ResultImages(content))
    case Document(src, _) => if DocumentPart(src).Some? then w.(parts := w.parts + [DocumentPart(src).value]) else w
    case Thinking => w
    case Other => w
  }

  function Walked(role: string, blocks: seq<Block>): Walk {
    if blocks == [] then NOTHING_YET else Visit(role, Walked(role, blocks[..|blocks| - 1]), blocks[|blocks| - 1])
  }

  /** A turn with calls is one assistant message, its text beside them; otherwise the images of
      the tool results lead what is left. */
  function Ended(role: string, w: Walk): seq<C.Message> {
    if w.calls != [] then
      var text := JoinParts(w.parts);
      w.out + (if w.images != [] then [C.Says("user", C.Parts(w.images))] else [])
      + [C.Message(role, if text != "" then C.Str(text) else C.Missing, w.calls, "")]
    else Flushed(role, w.(parts := w.images + w.parts)).out
  }

  function Translated(m: Message): Result<seq<C.Message>, Error> {
    match m.content
    case Str(s) => Success([C.Says(m.role, C.Str(s))])
    case Blocks(bs) => Success(Ended(m.role, Walked(m.role, bs)))
    case Neither => Failure(InvalidContent)
  }

  method JoinTextParts(parts: seq<C.Part>) returns (text: string)
    ensures text == JoinParts(parts)
  {
    text := "";
    for i := 0 to |parts|
      invariant text == JoinParts(parts[..i])
    {
      assert parts[..i + 1][..i] == parts[..i];
      if parts[i].kind == "text" { text := text + parts[i].text; } else { assert text + "" == text; }
    }
    assert parts[..|parts|] == parts;
  }

  method ToolResultImages(content: Content) returns (images: seq<C.Part>)
    ensures images == ResultImages(content)
  {
    images := [];
    if !content.Blocks? { return; }
    var blocks := content.blocks;
    for i := 0 to |blocks|
      invariant images == BlockImages(blocks[..i])
    {
      assert blocks[..i + 1][..i] == blocks[..i];
      if blocks[i].Image? {
        var url := ImageUrl(blocks[i].source);
        if url.Some? { images := images + [C.ImagePart(url.value)]; }
      }
    }
    assert blocks[..|blocks|] == blocks;
  }

  method TranslateMessage(m: Message) returns (r: Result<seq<C.Message>, Error>)
    ensures r == Translated(m)
  {
    if m.content.Str? { return Success([C.Says(m.role, C.Str(m.content.s))]); }
    if m.content.Neither? { return Failure(InvalidContent); }
    var blocks := m.content.blocks;
    var out: seq<C.Message>, parts: seq<C.Part>, calls: seq<C.Call>, images: seq<C.Part> := [], [], [], [];
    for i := 0 to |blocks|
      invariant Walk(out, parts, calls, images) == Walked(m.role, blocks[..i])
    {
      assert blocks[..i + 1][..i] == blocks[..i];
      match blocks[i]
      case Text(t) => parts := parts + [C.TextPart(t)];
      case Image(src) =>
        var url := ImageUrl(src);
        if url.Some? { parts := parts + [C.ImagePart(url.value)]; }
      case ToolUse(id, name, input) => calls := calls + [CallOf(id, name, input)];
      case ToolResult(id, content) =>
        if parts != [] { out, parts := out + [C.Says(m.role, C.Parts(parts))], []; }
        var found := ToolResultImages(content);
        out := out + [ToolMessage(id, content)];
        images := images + found;
      case Document(src, _) =>
        var part := DocumentPart(src);
        if part.Some? { parts := parts + [part.value]; }
      case Thinking =>
      case Other =>
    }
    assert blocks[..|blocks|] == blocks;
    if calls != [] {
      var text := JoinTextParts(parts);
      if images != [] { out := out + [C.Says("user", C.Parts(images))]; } else { assert out + [] == out; }
      out := out + [C.Message(m.role, if text != "" then C.Str(text) else C.Missing, calls, "")];
    } else {
      parts := images + parts;
      if parts != [] { out := out + [C.Says(m.role, C.Parts(parts))]; }
    }
    r := Success(out);
  }

  // --- The request ---

  /** A choice without a mapping, or a forced tool without a name, keeps its nearest meaning. */
  function ChoiceOf(c: ToolChoice): C.ToolChoice {
    match c
    case Choice(kind, name) =>
      if kind == "auto" then C.Mode("auto")
      else if kind == "none" then C.Mode("none")
      else if kind == "any" then C.Mode("required")
      else if kind == "tool" then (if name == "" then C.Mode("required") else C.Function(name))
      else C.NoChoice
    case _ => C.NoChoice
  }

  function SystemText(system: Option<Content>): string {
    if system.None? then "" else match DecodeText(system.value) case Some(t) => t case None => ""
  }

  function SystemMessages(system: Option<Content>): seq<C.Message> {
    if SystemText(system) == "" then [] else [C.Says("system", C.Str(SystemText(system)))]
  }

  function AllTranslated(messages: seq<Message>): Result<seq<C.Message>, Error> {
    if messages == [] then Success([])
    else
      match AllTranslated(messages[..|messages| - 1])
      case Failure(e) => Failure(e)
      case Success(before) =>
        match Translated(messages[|messages| - 1])
        case Failure(e) => Failure(e)
        case Success(more) => Success(before + more)
  }

  function ToolsOf(tools: seq<Tool>): seq<C.Tool> {
    seq(|tools|, i requires 0 <= i < |tools| => C.Tool(tools[i].name, tools[i].description, tools[i].inputSchema))
  }

  function ChatOf(req: Request): Result<C.Request, Error> {
    if req.model == "" then Failure(ModelRequired)
    else
      match AllTranslated(req.messages)
      case Failure(e) => Failure(e)
      case Success(messages) =>
        Success(C.Request(req.model, SystemMessages(req.system) + messages, req.maxTokens, 0, req.stream, req.sampling,
                          req.stopSequences, ToolsOf(req.tools), ChoiceOf(req.toolChoice), None, "", None))
  }

  method TranslateAll(messages: seq<Message>) returns (r: Result<seq<C.Message>, Error>)
    ensures r == AllTranslated(messages)
  {
    var out: seq<C.Message> := [];
    for i := 0 to |messages|
      invariant AllTranslated(messages[..i]) == Success(out)
    {
      assert messages[..i + 1][..i] == messages[..i];
      var more := TranslateMessage(messages[i]);
      if more.Failure? {
        FailureStays(messages, i + 1);
        return Failure(more.error);
      }
      out := out + more.value;
    }
    assert messages[..|messages|] == messages;
    r := Success(out);
  }

  method TranslateRequest(req: Request) returns (r: Result<C.Request, Error>)
    ensures r == ChatOf(req)
  {
    if req.model == "" { return Failure(ModelRequired); }
    var translated := TranslateAll(req.messages);
    if translated.Failure? { return Failure(translated.error); }
    var tools: seq<C.Tool> := [];
    for i := 0 to |req.tools|
      invariant |tools| == i && forall k :: 0 <= k < i ==> tools[k] == ToolsOf(req.tools)[k]
    {
      tools := tools + [C.Tool(req.tools[i].name, req.tools[i].description, req.tools[i].inputSchema)];
    }
    assert tools == ToolsOf(req.tools);
    r := Success(C.Request(req.model, SystemMessages(req.system) + translated.value, req.maxTokens, 0, req.stream, req.sampling,
                           req.stopSequences, tools, ChoiceOf(req.toolChoice), None, "", None));
  }

  lemma {:induction false} FailureStays(messages: seq<Message>, i: nat)
    requires i <= |messages| && AllTranslated(messages[..i]).Failure?
    ensures AllTranslated(messages) == AllTranslated(messages[..i])
  {
    if i == |messages| {
      assert messages[..i] == messages;
    } else {
      var shorter := messages[..|messages| - 1];
      assert shorter[..i] == messages[..i];
      FailureStays(shorter, i);
    }
  }
}
