/** A Messages turn cut at its tool results, and what the chat side is told of each piece
    (internal/anthropic/request.go). */
module IngressMessages {
  import opened Wrappers
  import opened ToolIds
  import D = DataUri
  import C = ChatRequest
  import I = IngressRequest

  // --- What a block has to say ---

  /** An image source that names something: inline data, or a URL. */
  predicate Sendable(source: Option<I.Source>) {
    && source.Some?
    && ((source.value.kind == "base64" && source.value.data != "") || (source.value.kind == "url" && source.value.url != ""))
  }

  function Url(source: Option<I.Source>): string
    requires Sendable(source)
  {
    if source.value.kind == "base64" then "data:" + source.value.mediaType + ";base64," + source.value.data else source.value.url
  }

  predicate SendableImage(b: I.Block) { b.Image? && Sendable(b.source) }

  /** A chat file part takes inline data alone. */
  predicate SendableFile(source: Option<I.Source>) { Sendable(source) && D.CutDataScheme(Url(source)).Some? }

  /** The parts a block becomes, one or none. */
  function PartsOf(b: I.Block): seq<C.Part> {
    match b
    case Text(t) => [C.Part("text", t, "", None, None)]
    case Image(src) => if Sendable(src) then [C.Part("image_url", "", "", Some(Url(src)), None)] else []
    case Document(src, _) =>
      if src.Some? && src.value.kind == "text" && src.value.data != "" then [C.Part("text", src.value.data, "", None, None)]
      else if SendableFile(src) then [C.Part("file", "", "", None, Some(C.File(Url(src), "", "")))]
      else []
    case _ => []
  }

  function AllParts(blocks: seq<I.Block>): seq<C.Part> {
    if blocks == [] then [] else AllParts(blocks[..|blocks| - 1]) + PartsOf(blocks[|blocks| - 1])
  }

  /** The text a tool result carries. */
  function Words(content: I.Content): string {
    match content
    case Str(s) => s
    case Blocks(bs) => TextsOf(bs)
    case Neither => ""
  }

  function TextsOf(blocks: seq<I.Block>): string {
    if blocks == [] then ""
    else TextsOf(blocks[..|blocks| - 1]) + var b := blocks[|blocks| - 1]; if b.Text? then b.text else ""
  }

  /** The images a tool result carries. */
  function Pictures(content: I.Content): seq<C.Part> {
    if content.Blocks? then AllParts(ImagesIn(content.blocks)) else []
  }

  function ImagesIn(blocks: seq<I.Block>): seq<I.Block> {
    if blocks == [] then []
    else ImagesIn(blocks[..|blocks| - 1]) + var b := blocks[|blocks| - 1]; if b.Image? then [b] else []
  }

  /** The images of every tool result, in order. */
  function AllPictures(blocks: seq<I.Block>): seq<C.Part> {
    if blocks == [] then []
    else AllPictures(blocks[..|blocks| - 1]) + var b := blocks[|blocks| - 1]; if b.ToolResult? then Pictures(b.content) else []
  }

  /** A tool message says its result's text; without any, that the images come behind; else nothing. */
  ghost predicate Answers(b: I.Block, m: C.Message)
    requires b.ToolResult?
  {
    && m.role == "tool" && m.calls == [] && m.toolCallId == SplitToolUseId(b.toolUseId).0 && m.content.Str?
    && (Words(b.content) != "" ==> m.content.s == Words(b.content))
    && (Words(b.content) == "" ==> m.content.s == if HasPicture(b.content) then "[image]" else "")
  }

  ghost predicate HasPicture(content: I.Content) {
    content.Blocks? && exists k :: 0 <= k < |content.blocks| && SendableImage(content.blocks[k])
  }

  /** A call by the id the upstream knows, with the signature taken off it; no arguments are the
      empty object. */
  ghost predicate Calls(b: I.Block, c: C.Call)
    requires b.ToolUse?
  {
    && (c.id, c.signature) == SplitToolUseId(b.id) && c.name == b.name
    && c.arguments == if b.input.JAbsent? || b.input.JNull? then C.JObject("{}") else b.input
  }

  function UsesIn(blocks: seq<I.Block>): seq<I.Block> {
    if blocks == [] then []
    else UsesIn(blocks[..|blocks| - 1]) + var b := blocks[|blocks| - 1]; if b.ToolUse? then [b] else []
  }

  ghost predicate AllCalled(blocks: seq<I.Block>, calls: seq<C.Call>) {
    var uses := UsesIn(blocks);
    |calls| == |uses| && forall k :: 0 <= k < |uses| ==> uses[k].ToolUse? && Calls(uses[k], calls[k])
  }

  // --- A turn cut at its tool results ---

  /** The blocks behind the last tool result. */
  function Rest(blocks: seq<I.Block>): seq<I.Block> {
    if blocks == [] || blocks[|blocks| - 1].ToolResult? then [] else Rest(blocks[..|blocks| - 1]) + [blocks[|blocks| - 1]]
  }

  /** The messages through the last tool message: each tool result's, and right ahead of it one with the
      parts since the result before, if there are any. */
  ghost predicate Sections(role: string, blocks: seq<I.Block>, out: seq<C.Message>) {
    if blocks == [] then out == []
    else
      var n, last := |blocks| - 1, blocks[|blocks| - 1];
      if !last.ToolResult? then Sections(role, blocks[..n], out)
      else
        var says := AllParts(Rest(blocks[..n]));
        var k := if says == [] then 0 else 1;
        && |out| > k && Answers(last, out[|out| - 1])
        && (k == 1 ==> out[|out| - 2] == C.Message(role, C.Parts(says), [], ""))
        && Sections(role, blocks[..n], out[..|out| - 1 - k])
  }

  /** What follows the last tool message: the images of all results, then, without calls, the rest of
      the parts; with calls, one message with the rest of the text and every call. */
  ghost predicate Closing(role: string, blocks: seq<I.Block>, out: seq<C.Message>) {
    var pictures, rest := AllPictures(blocks), AllParts(Rest(blocks));
    if UsesIn(blocks) == [] then
      out == if pictures + rest == [] then [] else [C.Message(role, C.Parts(pictures + rest), [], "")]
    else
      var n := if pictures == [] then 0 else 1;
      && |out| == n + 1
      && (n == 1 ==> out[0] == C.Message("user", C.Parts(pictures), [], ""))
      && out[n].role == role && out[n].toolCallId == "" && AllCalled(blocks, out[n].calls)
      && out[n].content == if TextIn(rest) == "" then C.Missing else C.Str(TextIn(rest))
  }

  function TextIn(parts: seq<C.Part>): string {
    if parts == [] then ""
    else TextIn(parts[..|parts| - 1]) + var p := parts[|parts| - 1]; if p.kind == "text" then p.text else ""
  }

  // --- The translator's pieces are these ---

  lemma UrlIs(source: Option<I.Source>)
    ensures I.ImageUrl(source) == if Sendable(source) then Some(Url(source)) else None
  {
  }

  lemma PartIs(b: I.Block)
    ensures b.Image? ==> PartsOf(b) == if I.ImageUrl(b.source).Some? then [C.ImagePart(I.ImageUrl(b.source).value)] else []
    ensures b.Document? ==> PartsOf(b) == if I.DocumentPart(b.source).Some? then [I.DocumentPart(b.source).value] else []
  {
    if b.Image? || b.Document? { UrlIs(b.source); }
  }

  lemma {:induction false} TextIs(blocks: seq<I.Block>)
    ensures I.JoinText(blocks) == TextsOf(blocks)
  {
    if blocks != [] {
      TextIs(blocks[..|blocks| - 1]);
    }
  }

  lemma AllPartsGrow(blocks: seq<I.Block>, b: I.Block)
    ensures AllParts(blocks + [b]) == AllParts(blocks) + PartsOf(b)
  {
    assert (blocks + [b])[..|blocks|] == blocks;
  }

  lemma {:induction false} PicturesAre(blocks: seq<I.Block>)
    ensures I.BlockImages(blocks) == AllParts(ImagesIn(blocks))
    ensures AllParts(ImagesIn(blocks)) == [] <==> forall k :: 0 <= k < |blocks| ==> !SendableImage(blocks[k])
  {
    if blocks != [] {
      var n := |blocks| - 1;
      var b := blocks[n];
      PicturesAre(blocks[..n]);
      assert forall k :: 0 <= k < n ==> blocks[..n][k] == blocks[k];
      if b.Image? {
        AllPartsGrow(ImagesIn(blocks[..n]), b);
        PartIs(b);
      } else {
        assert ImagesIn(blocks[..n]) + [] == ImagesIn(blocks[..n]);
      }
    }
  }

  lemma AnswerIs(b: I.Block)
    requires b.ToolResult?
    ensures Answers(b, I.ToolMessage(b.toolUseId, b.content)) && I.ResultImages(b.content) == Pictures(b.content)
  {
    if b.content.Blocks? {
      TextIs(b.content.blocks);
      PicturesAre(b.content.blocks);
    }
  }

  lemma {:induction false} JoinedIs(parts: seq<C.Part>)
    ensures I.JoinParts(parts) == TextIn(parts)
  {
    if parts != [] {
      JoinedIs(parts[..|parts| - 1]);
    }
  }

  // --- The walk, block by block ---

  /** What the loop holds after the blocks. */
  ghost predicate Walks(role: string, blocks: seq<I.Block>, w: I.Walk) {
    && Sections(role, blocks, w.out) && w.parts == AllParts(Rest(blocks))
    && AllCalled(blocks, w.calls) && w.images == AllPictures(blocks)
  }

  function Saying(role: string, says: seq<C.Part>): seq<C.Message> {
    if says == [] then [] else [C.Message(role, C.Parts(says), [], "")]
  }

  lemma SectionsGrow(role: string, blocks: seq<I.Block>, b: I.Block, out: seq<C.Message>, says: seq<C.Part>, m: C.Message)
    requires Sections(role, blocks, out) && b.ToolResult? && says == AllParts(Rest(blocks)) && Answers(b, m)
    ensures Sections(role, blocks + [b], out + Saying(role, says) + [m])
  {
    var more, longer := blocks + [b], out + Saying(role, says) + [m];
    assert more[..|more| - 1] == blocks && more[|more| - 1] == b;
    assert longer[..|longer| - 1 - |Saying(role, says)|] == out;
  }

  lemma AllCalledSame(blocks: seq<I.Block>, b: I.Block, calls: seq<C.Call>)
    requires AllCalled(blocks, calls) && !b.ToolUse?
    ensures AllCalled(blocks + [b], calls)
  {
    assert (blocks + [b])[..|blocks|] == blocks;
    assert UsesIn(blocks + [b]) == UsesIn(blocks);
  }

  lemma AllCalledGrows(blocks: seq<I.Block>, b: I.Block, calls: seq<C.Call>, c: C.Call)
    requires AllCalled(blocks, calls) && b.ToolUse? && Calls(b, c)
    ensures AllCalled(blocks + [b], calls + [c])
  {
    assert (blocks + [b])[..|blocks|] == blocks;
    assert UsesIn(blocks + [b]) == UsesIn(blocks) + [b];
  }

  lemma PicturesGrow(blocks: seq<I.Block>, b: I.Block)
    ensures AllPictures(blocks + [b]) == AllPictures(blocks) + if b.ToolResult? then Pictures(b.content) else []
  {
    assert (blocks + [b])[..|blocks|] == blocks;
  }

  lemma RestGrows(blocks: seq<I.Block>, b: I.Block)
    ensures Rest(blocks + [b]) == if b.ToolResult? then [] else Rest(blocks) + [b]
  {
    assert (blocks + [b])[..|blocks|] == blocks;
  }

  lemma ResultWalks(role: string, blocks: seq<I.Block>, b: I.Block, w: I.Walk)
    requires b.ToolResult? && Walks(role, blocks, w)
    ensures Walks(role, blocks + [b], I.Visit(role, w, b))
  {
    AnswerIs(b);
    SectionsGrow(role, blocks, b, w.out, w.parts, I.ToolMessage(b.toolUseId, b.content));
    assert w.parts == [] ==> w.out + [] == w.out;
    AllCalledSame(blocks, b, w.calls);
    PicturesGrow(blocks, b);
    RestGrows(blocks, b);
  }

  lemma PartWalks(blocks: seq<I.Block>, b: I.Block, parts: seq<C.Part>)
    requires !b.ToolResult? && parts == AllParts(Rest(blocks))
    ensures parts + PartsOf(b) == AllParts(Rest(blocks + [b]))
  {
    RestGrows(blocks, b);
    AllPartsGrow(Rest(blocks), b);
  }

  /** Any other block adds its parts, or its call. */
  lemma VisitAdds(role: string, w: I.Walk, b: I.Block)
    requires !b.ToolResult?
    ensures var after := I.Visit(role, w, b);
            && after.out == w.out && after.images == w.images && after.parts == w.parts + PartsOf(b)
            && after.calls == if b.ToolUse? then w.calls + [I.CallOf(b.id, b.name, b.input)] else w.calls
  {
    PartIs(b);
    assert w.parts + [] == w.parts;
  }

  lemma OtherWalks(role: string, blocks: seq<I.Block>, b: I.Block, w: I.Walk)
    requires !b.ToolResult? && Walks(role, blocks, w)
    ensures Walks(role, blocks + [b], I.Visit(role, w, b))
  {
    VisitAdds(role, w, b);
    PartWalks(blocks, b, w.parts);
    PicturesGrow(blocks, b);
    if b.ToolUse? {
      AllCalledGrows(blocks, b, w.calls, I.CallOf(b.id, b.name, b.input));
    } else {
      AllCalledSame(blocks, b, w.calls);
    }
    SectionsSame(role, blocks, b, w.out);
  }

  lemma SectionsSame(role: string, blocks: seq<I.Block>, b: I.Block, out: seq<C.Message>)
    requires Sections(role, blocks, out) && !b.ToolResult?
    ensures Sections(role, blocks + [b], out)
  {
    assert (blocks + [b])[..|blocks|] == blocks;
  }

  lemma WalkStep(role: string, blocks: seq<I.Block>, b: I.Block, w: I.Walk)
    requires Walks(role, blocks, w)
    ensures Walks(role, blocks + [b], I.Visit(role, w, b))
  {
    if b.ToolResult? {
      ResultWalks(role, blocks, b, w);
    } else {
      OtherWalks(role, blocks, b, w);
    }
  }

  lemma {:induction false} WalkIs(role: string, blocks: seq<I.Block>) returns (w: I.Walk)
    ensures w == I.Walked(role, blocks) && Walks(role, blocks, w)
  {
    if blocks == [] {
      w := I.NOTHING_YET;
    } else {
      var n := |blocks| - 1;
      var before := WalkIs(role, blocks[..n]);
      WalkStep(role, blocks[..n], blocks[n], before);
      w := I.Visit(role, before, blocks[n]);
      var longer := blocks[..n] + [blocks[n]];
      assert Walks(role, longer, w) && longer == blocks;
    }
  }

  lemma ClosingIs(role: string, blocks: seq<I.Block>, w: I.Walk)
    requires Walks(role, blocks, w)
    ensures w.out <= I.Ended(role, w) && Closing(role, blocks, I.Ended(role, w)[|w.out|..])
  {
    JoinedIs(w.parts);
    var out := I.Ended(role, w);
    assert w.calls == [] <==> UsesIn(blocks) == [];
    assert [] + w.parts == w.parts;
  }

  /** Every message that is a block list comes out as its sections, then its closing messages: the
      parts in order around the tool messages, all images of the results right behind the last tool
      message, and the calls last. */
  lemma MessageSections(m: I.Message)
    requires m.content.Blocks?
    ensures var r := I.Translated(m);
            r.Success? && exists n :: 0 <= n <= |r.value|
                                      && Sections(m.role, m.content.blocks, r.value[..n])
                                      && Closing(m.role, m.content.blocks, r.value[n..])
  {
    var blocks := m.content.blocks;
    var w := WalkIs(m.role, blocks);
    ClosingIs(m.role, blocks, w);
    var out, n := I.Ended(m.role, w), |w.out|;
    assert out[..n] == w.out;
    assert Sections(m.role, blocks, out[..n]) && Closing(m.role, blocks, out[n..]);
  }

  /** A string goes as it is; content that is neither is refused. */
  lemma MessageText(m: I.Message)
    ensures m.content.Str? ==> I.Translated(m) == Success([C.Message(m.role, C.Str(m.content.s), [], "")])
    ensures m.content.Neither? <==> I.Translated(m).Failure?
  {
  }

  // --- The request ---

  function Flat(pieces: seq<seq<C.Message>>): seq<C.Message> {
    if pieces == [] then [] else Flat(pieces[..|pieces| - 1]) + pieces[|pieces| - 1]
  }

  /** The messages one behind the other, each as it translates. */
  ghost predicate Laid(messages: seq<I.Message>, out: seq<C.Message>, pieces: seq<seq<C.Message>>) {
    && |pieces| == |messages| && out == Flat(pieces)
    && forall k :: 0 <= k < |messages| ==> I.Translated(messages[k]) == Success(pieces[k])
  }

  /** The messages fail exactly when some content is neither a string nor a block list. */
  lemma {:induction false} MessagesLaid(messages: seq<I.Message>) returns (pieces: seq<seq<C.Message>>)
    ensures I.AllTranslated(messages).Failure? <==> exists k :: 0 <= k < |messages| && messages[k].content.Neither?
    ensures I.AllTranslated(messages).Failure? ==> I.AllTranslated(messages) == Failure(I.InvalidContent)
    ensures I.AllTranslated(messages).Success? ==> Laid(messages, I.AllTranslated(messages).value, pieces)
  {
    pieces := [];
    if messages != [] {
      var n := |messages| - 1;
      var m := messages[n];
      pieces := MessagesLaid(messages[..n]);
      assert messages == messages[..n] + [m];
      assert forall k :: 0 <= k < n ==> messages[..n][k] == messages[k];
      MessageText(m);
      if I.AllTranslated(messages).Success? {
        var out, more := I.AllTranslated(messages[..n]).value, I.Translated(m).value;
        assert (pieces + [more])[..n] == pieces;
        pieces := pieces + [more];
      }
    }
  }

  /** A choice without a mapping is none; a forced tool without a name forces some tool. */
  ghost predicate Asks(choice: I.ToolChoice, asked: C.ToolChoice) {
    && (asked == C.Mode("auto") <==> choice.Choice? && choice.kind == "auto")
    && (asked == C.Mode("none") <==> choice.Choice? && choice.kind == "none")
    && (asked == C.Mode("required") <==> choice.Choice? && (choice.kind == "any" || (choice.kind == "tool" && choice.name == "")))
    && (asked.Function? <==> choice.Choice? && choice.kind == "tool" && choice.name != "")
    && (asked.Function? ==> asked.name == choice.name)
    && (asked.NoChoice? || asked.Function? || asked in {C.Mode("auto"), C.Mode("none"), C.Mode("required")})
  }

  ghost predicate ChatSays(req: I.Request, said: C.Request, pieces: seq<seq<C.Message>>) {
    && said.model == req.model && said.maxTokens == req.maxTokens && said.maxCompletionTokens == 0
    && said.stream == req.stream && said.sampling == req.sampling && said.stop == req.stopSequences
    && Asks(req.toolChoice, said.toolChoice)
    && said.parallelToolCalls.None? && said.reasoningEffort == "" && said.formatInstruction.None?
    && |said.tools| == |req.tools|
    && (forall k :: 0 <= k < |req.tools| ==>
          said.tools[k] == C.Tool(req.tools[k].name, req.tools[k].description, req.tools[k].inputSchema))
    && var words := if req.system.Some? then Words(req.system.value) else "";
       if words == "" then Laid(req.messages, said.messages, pieces)
       else said.messages != [] && said.messages[0] == C.Message("system", C.Str(words), [], "")
            && Laid(req.messages, said.messages[1..], pieces)
  }

  /** A request is refused for having no model or for a message that is neither a string nor a block list;
      otherwise the system prompt leads, the messages follow in order, and every field says what was sent. */
  lemma RequestSays(req: I.Request) returns (pieces: seq<seq<C.Message>>)
    ensures req.model == "" <==> I.ChatOf(req) == Failure(I.ModelRequired)
    ensures req.model != "" ==> (I.ChatOf(req) == Failure(I.InvalidContent) <==>
                                   exists k :: 0 <= k < |req.messages| && req.messages[k].content.Neither?)
    ensures I.ChatOf(req).Success? ==> ChatSays(req, I.ChatOf(req).value, pieces)
  {
    pieces := MessagesLaid(req.messages);
    if I.ChatOf(req).Success? {
      var out := I.AllTranslated(req.messages).value;
      assert [] + out == out;
      SystemIs(req.system);
      var lead := I.SystemMessages(req.system);
      assert lead != [] ==> (lead + out)[0] == lead[0] && (lead + out)[1..] == out;
    }
  }

  lemma SystemIs(system: Option<I.Content>)
    ensures var words := if system.Some? then Words(system.value) else "";
            I.SystemMessages(system) == if words == "" then [] else [C.Message("system", C.Str(words), [], "")]
  {
    if system.Some? && system.value.Blocks? {
      TextIs(system.value.blocks);
    }
  }
}
