/** A canonical Messages conversation sent through both request translators comes back as it
    was: the system prompt, the turns and their blocks in order, tool ids and tool choice. */
module RequestRoundTrip {
  import opened Wrappers
  import opened GoText
  import opened ToolIds
  import opened DataUri
  import C = ChatRequest
  import I = IngressRequest
  import E = EgressRequest
  import T = EgressTurns

  // --- Canonical conversations ---

  predicate Unsigned(id: string) { SplitToolUseId(id) == (id, "") }

  predicate TextOnly(content: I.Content) {
    content.Str? || (content.Blocks? && forall i :: 0 <= i < |content.blocks| ==> content.blocks[i].Text?)
  }

  predicate CanonicalImage(src: I.Source) {
    || (src.kind == "base64" && src.mediaType in E.IMAGE_MEDIA_TYPES && src.data != "")
    || (src.kind == "url" && src.url != "" && CutDataScheme(src.url).None?)
  }

  predicate CanonicalPdf(src: I.Source, title: string) {
    src.kind == "base64" && src.mediaType == "application/pdf" && src.data != "" && title == ""
  }

  predicate CanonicalPart(b: I.Block) {
    match b
    case Text(t) => t != ""
    case Image(Some(src)) => CanonicalImage(src)
    case Document(Some(src), title) => CanonicalPdf(src, title)
    case _ => false
  }

  predicate CanonicalResult(b: I.Block) {
    b.ToolResult? && Unsigned(b.toolUseId) && TextOnly(b.content)
  }

  predicate CanonicalCall(b: I.Block) {
    b.ToolUse? && Unsigned(b.id) && b.input.JObject?
  }

  predicate NonEmptyText(b: I.Block) { b.Text? && b.text != "" }

  /** User turns mix parts and results freely. */
  predicate CanonicalUser(blocks: seq<I.Block>) {
    forall i :: 0 <= i < |blocks| ==> CanonicalPart(blocks[i]) || CanonicalResult(blocks[i])
  }

  predicate TextTurn(blocks: seq<I.Block>) {
    forall i :: 0 <= i < |blocks| ==> NonEmptyText(blocks[i])
  }

  /** At most one text, then calls. */
  predicate CallTurn(blocks: seq<I.Block>) {
    blocks != [] && CanonicalCall(blocks[|blocks| - 1])
    && forall i :: 0 <= i < |blocks| ==> CanonicalCall(blocks[i]) || (i == 0 && NonEmptyText(blocks[i]))
  }

  predicate CanonicalMessage(m: I.Message) {
    && m.role in {"user", "assistant"}
    && match m.content
       case Str(s) => s != ""
       case Blocks(bs) => bs != [] && if m.role == "user" then CanonicalUser(bs) else TextTurn(bs) || CallTurn(bs)
       case Neither => false
  }

  predicate Canonical(messages: seq<I.Message>) {
    && (forall i :: 0 <= i < |messages| ==> CanonicalMessage(messages[i]))
    && forall i :: 0 <= i < |messages| - 1 ==> messages[i].role != messages[i + 1].role
  }

  // --- The same conversation in the egress translator's own types ---

  function AsSource(src: I.Source): E.Source {
    if src.kind == "url" then E.Source("url", "", "", src.url) else E.Source("base64", src.mediaType, src.data, "")
  }

  function AsBody(b: I.Block): E.Body {
    match b
    case Text(t) => E.Text(t)
    case Image(Some(src)) => E.Image(AsSource(src))
    case Document(Some(src), _) => E.Document(AsSource(src))
    case ToolUse(id, name, input) => E.ToolUse(id, name, input)
    case ToolResult(id, content) => E.ToolResult(id, match I.DecodeText(content) case Some(t) => t case None => "")
    case _ => E.Text("")
  }

  function AsBlocks(blocks: seq<I.Block>): seq<E.Block> {
    seq(|blocks|, i requires 0 <= i < |blocks| => E.Plain(AsBody(blocks[i])))
  }

  function AsTurn(m: I.Message): E.Message
    requires !m.content.Neither?
  {
    E.Message(m.role, if m.content.Str? then E.Str(m.content.s) else E.Blocks(AsBlocks(m.content.blocks)))
  }

  function AsTurns(messages: seq<I.Message>): seq<E.Message>
    requires Canonical(messages)
  {
    seq(|messages|, i requires 0 <= i < |messages| => AsTurn(messages[i]))
  }

  // --- One part ---

  lemma MediaTypesArePlain(t: string)
    requires t in E.IMAGE_MEDIA_TYPES || t == "application/pdf"
    ensures PlainMediaType(t)
  {
  }

  function PartOf(b: I.Block): C.Part
    requires CanonicalPart(b)
  {
    match b
    case Text(t) => C.TextPart(t)
    case Image(src) => C.ImagePart(I.ImageUrl(src).value)
    case Document(src, _) => I.DocumentPart(src).value
  }

  lemma PdfPart(src: I.Source)
    requires CanonicalPdf(src, "")
    ensures I.DocumentPart(Some(src)) == Some(C.FilePart(Base64Uri(src.mediaType, src.data)))
    ensures var p := C.FilePart(Base64Uri(src.mediaType, src.data));
            E.Carries(p) && E.BlockOf(p) == Some(E.Document(AsSource(src)))
  {
    MediaTypesArePlain(src.mediaType);
    ParseBase64Uri(src.mediaType, src.data);
    var uri := Base64Uri(src.mediaType, src.data);
    assert uri != "" && E.Stripped(C.File(uri, "", "")) == C.File(uri, "", "");
    assert src.mediaType != "text/plain";
  }

  lemma ImagePartReturns(src: I.Source)
    requires CanonicalImage(src)
    ensures I.ImageUrl(Some(src)).Some?
    ensures var p := C.ImagePart(I.ImageUrl(Some(src)).value);
            E.Carries(p) && E.BlockOf(p) == Some(E.Image(AsSource(src)))
  {
    if src.kind == "base64" {
      MediaTypesArePlain(src.mediaType);
      ParseBase64Uri(src.mediaType, src.data);
      assert Base64Uri(src.mediaType, src.data) != "";
    }
  }

  /** A part block becomes one chat part, and that part becomes the block again. */
  lemma PartReturns(role: string, w: I.Walk, b: I.Block)
    requires CanonicalPart(b)
    ensures I.Visit(role, w, b) == w.(parts := w.parts + [PartOf(b)])
    ensures E.Carries(PartOf(b)) && E.BlockOf(PartOf(b)) == Some(AsBody(b))
  {
    match b
    case Text(t) =>
    case Image(src) => ImagePartReturns(src.value);
    case Document(src, _) => PdfPart(src.value);
  }

  lemma PartBlocksGrow(parts: seq<C.Part>, p: C.Part, body: E.Body)
    requires E.PartBlocks(parts).Success? && E.Carries(p) && E.BlockOf(p) == Some(body)
    ensures E.PartBlocks(parts + [p]) == Success(E.PartBlocks(parts).value + [E.Plain(body)])
  {
    assert (parts + [p])[..|parts|] == parts;
  }

  // --- Messages that all join one turn ---

  /** The blocks a message of parts, or a tool message, adds to a turn of this role. */
  function Joins(role: string, m: C.Message): Option<seq<E.Block>> {
    if m.role == "tool" then
      (if role == "user" then Some([E.Plain(E.ToolResult(m.toolCallId, E.FlattenText(m.content)))]) else None)
    else if m.role == role && m.calls == [] && m.content.Parts? && E.PartBlocks(m.content.parts).Success?
            && E.PartBlocks(m.content.parts).value != [] then
      Some(E.PartBlocks(m.content.parts).value)
    else None
  }

  predicate AllJoin(role: string, messages: seq<C.Message>) {
    forall i :: 0 <= i < |messages| ==> Joins(role, messages[i]).Some?
  }

  function Joined(role: string, messages: seq<C.Message>): seq<E.Block>
    requires AllJoin(role, messages)
  {
    if messages == [] then []
    else Joined(role, messages[..|messages| - 1]) + Joins(role, messages[|messages| - 1]).value
  }

  predicate Follows(turns: seq<E.Message>, role: string) {
    turns == [] || turns[|turns| - 1].role != role
  }

  lemma JoinStep(turns: seq<E.Message>, role: string, m: C.Message)
    requires role in {"user", "assistant"} && Joins(role, m).Some?
    ensures T.Step(turns, m) == Success(E.AppendTurn(turns, E.Message(role, E.Blocks(Joins(role, m).value))))
  {
    if m.role != "tool" {
      var blocks := E.PartBlocks(m.content.parts).value;
      assert E.CallBlocks(m.calls) == [];
      assert blocks + E.CallBlocks(m.calls) == blocks;
    }
  }

  lemma AppendNew(turns: seq<E.Message>, role: string, blocks: seq<E.Block>)
    requires Follows(turns, role)
    ensures E.AppendTurn(turns, E.Message(role, E.Blocks(blocks))) == turns + [E.Message(role, E.Blocks(blocks))]
  {
  }

  lemma AppendSame(turns: seq<E.Message>, role: string, a: seq<E.Block>, b: seq<E.Block>)
    ensures E.AppendTurn(turns + [E.Message(role, E.Blocks(a))], E.Message(role, E.Blocks(b)))
            == turns + [E.Message(role, E.Blocks(a + b))]
  {
    var mid := turns + [E.Message(role, E.Blocks(a))];
    assert mid[..|mid| - 1] == turns;
  }

  lemma StepsLast(turns: seq<E.Message>, messages: seq<C.Message>, mid: seq<E.Message>, m: C.Message)
    requires T.Steps(turns, messages) == Success(mid)
    ensures T.Steps(turns, messages + [m]) == T.Step(mid, m)
  {
    assert (messages + [m])[..|messages|] == messages;
  }

  lemma {:induction false} JoinSteps(turns: seq<E.Message>, role: string, messages: seq<C.Message>)
    requires role in {"user", "assistant"} && Follows(turns, role) && AllJoin(role, messages) && messages != []
    ensures T.Steps(turns, messages) == Success(turns + [E.Message(role, E.Blocks(Joined(role, messages)))])
  {
    var n := |messages| - 1;
    var before, m := messages[..n], messages[n];
    assert messages == before + [m];
    JoinedGrow(role, before, m);
    if n == 0 {
      StepsLast(turns, before, turns, m);
      JoinStep(turns, role, m);
      AppendNew(turns, role, Joins(role, m).value);
      assert Joined(role, before) == [];
      assert [] + Joins(role, m).value == Joins(role, m).value;
    } else {
      JoinSteps(turns, role, before);
      var mid := turns + [E.Message(role, E.Blocks(Joined(role, before)))];
      StepsLast(turns, before, mid, m);
      JoinStep(mid, role, m);
      AppendSame(turns, role, Joined(role, before), Joins(role, m).value);
    }
  }

  lemma JoinedGrow(role: string, messages: seq<C.Message>, m: C.Message)
    requires AllJoin(role, messages) && Joins(role, m).Some?
    ensures AllJoin(role, messages + [m]) && Joined(role, messages + [m]) == Joined(role, messages) + Joins(role, m).value
  {
    assert (messages + [m])[..|messages|] == messages;
  }

  // --- Turns of parts and results ---

  /** The walk has written, or still holds, exactly the blocks seen. */
  ghost predicate Holds(role: string, w: I.Walk, blocks: seq<I.Block>) {
    && w.calls == [] && w.images == []
    && AllJoin(role, w.out) && E.PartBlocks(w.parts).Success? && |E.PartBlocks(w.parts).value| == |w.parts|
    && Joined(role, w.out) + E.PartBlocks(w.parts).value == AsBlocks(blocks)
  }

  lemma HoldsPart(role: string, w: I.Walk, blocks: seq<I.Block>, b: I.Block)
    requires Holds(role, w, blocks) && CanonicalPart(b)
    ensures Holds(role, I.Visit(role, w, b), blocks + [b])
  {
    PartReturns(role, w, b);
    PartBlocksGrow(w.parts, PartOf(b), AsBody(b));
    assert AsBlocks(blocks + [b]) == AsBlocks(blocks) + [E.Plain(AsBody(b))];
    assert Joined(role, w.out) + (E.PartBlocks(w.parts).value + [E.Plain(AsBody(b))])
        == Joined(role, w.out) + E.PartBlocks(w.parts).value + [E.Plain(AsBody(b))];
  }

  lemma FlushHolds(role: string, w: I.Walk, blocks: seq<I.Block>) returns (f: I.Walk)
    requires role in {"user", "assistant"} && Holds(role, w, blocks)
    ensures f == I.Flushed(role, w) && Holds(role, f, blocks) && f.parts == [] && Joined(role, f.out) == AsBlocks(blocks)
  {
    f := I.Flushed(role, w);
    if w.parts == [] {
      assert Joined(role, w.out) + [] == Joined(role, w.out);
    } else {
      JoinedGrow(role, w.out, C.Says(role, C.Parts(w.parts)));
      assert Joined(role, w.out) + E.PartBlocks(w.parts).value + [] == Joined(role, w.out) + E.PartBlocks(w.parts).value;
    }
  }

  lemma {:induction false} TextOnlyHasNoImages(blocks: seq<I.Block>)
    requires forall i :: 0 <= i < |blocks| ==> blocks[i].Text?
    ensures I.BlockImages(blocks) == []
  {
    if blocks != [] {
      TextOnlyHasNoImages(blocks[..|blocks| - 1]);
    }
  }

  lemma HoldsResult(w: I.Walk, blocks: seq<I.Block>, b: I.Block)
    requires Holds("user", w, blocks) && CanonicalResult(b)
    ensures Holds("user", I.Visit("user", w, b), blocks + [b])
  {
    var f := FlushHolds("user", w, blocks);
    if b.content.Blocks? { TextOnlyHasNoImages(b.content.blocks); }
    assert I.ResultImages(b.content) == [];
    JoinedGrow("user", f.out, I.ToolMessage(b.toolUseId, b.content));
    assert AsBlocks(blocks + [b]) == AsBlocks(blocks) + [E.Plain(AsBody(b))];
    var out := f.out + [I.ToolMessage(b.toolUseId, b.content)];
    assert Joined("user", out) + [] == Joined("user", out);
  }

  lemma {:induction false} WalkHolds(role: string, blocks: seq<I.Block>)
    requires role == "user" ==> CanonicalUser(blocks)
    requires role == "assistant" ==> TextTurn(blocks)
    requires role in {"user", "assistant"}
    ensures Holds(role, I.Walked(role, blocks), blocks)
  {
    if blocks == [] {
      assert AsBlocks([]) == [];
    } else {
      var n := |blocks| - 1;
      WalkHolds(role, blocks[..n]);
      assert blocks == blocks[..n] + [blocks[n]];
      if CanonicalPart(blocks[n]) {
        HoldsPart(role, I.Walked(role, blocks[..n]), blocks[..n], blocks[n]);
      } else {
        HoldsResult(I.Walked(role, blocks[..n]), blocks[..n], blocks[n]);
      }
    }
  }

  lemma PartsTurnReturns(turns: seq<E.Message>, role: string, blocks: seq<I.Block>)
    requires blocks != [] && role in {"user", "assistant"} && Follows(turns, role)
    requires role == "user" ==> CanonicalUser(blocks)
    requires role == "assistant" ==> TextTurn(blocks)
    ensures T.Steps(turns, I.Ended(role, I.Walked(role, blocks)))
            == Success(turns + [E.Message(role, E.Blocks(AsBlocks(blocks)))])
  {
    var w := I.Walked(role, blocks);
    WalkHolds(role, blocks);
    var f := FlushHolds(role, w, blocks);
    assert [] + w.parts == w.parts;
    var out := f.out;
    assert I.Ended(role, w) == out;
    assert |AsBlocks(blocks)| == |blocks|;
    JoinSteps(turns, role, out);
  }

  // --- Turns that call tools ---

  function FirstText(blocks: seq<I.Block>): seq<C.Part> {
    if blocks != [] && blocks[0].Text? then [C.TextPart(blocks[0].text)] else []
  }

  function CallsIn(blocks: seq<I.Block>): seq<C.Call> {
    if blocks == [] then []
    else
      var b := blocks[|blocks| - 1];
      CallsIn(blocks[..|blocks| - 1]) + if b.ToolUse? then [C.Call(b.id, b.name, b.input, "")] else []
  }

  lemma {:induction false} WalkCalls(blocks: seq<I.Block>)
    requires forall i :: 0 <= i < |blocks| ==> CanonicalCall(blocks[i]) || (i == 0 && NonEmptyText(blocks[i]))
    ensures I.Walked("assistant", blocks) == I.Walk([], FirstText(blocks), CallsIn(blocks), [])
  {
    if blocks != [] {
      WalkCalls(blocks[..|blocks| - 1]);
    }
  }

  /** The turn's blocks are its text, if it has one, then its calls. */
  lemma {:induction false} CallBlocksAre(blocks: seq<I.Block>)
    requires forall i :: 0 <= i < |blocks| ==> CanonicalCall(blocks[i]) || (i == 0 && NonEmptyText(blocks[i]))
    ensures AsBlocks(blocks)
            == (if FirstText(blocks) != [] then [E.Plain(E.Text(blocks[0].text))] else []) + E.CallBlocks(CallsIn(blocks))
  {
    if blocks != [] {
      var n := |blocks| - 1;
      var b := blocks[n];
      CallBlocksAre(blocks[..n]);
      assert AsBlocks(blocks) == AsBlocks(blocks[..n]) + [E.Plain(AsBody(b))];
      if b.ToolUse? {
        var calls := CallsIn(blocks[..n]);
        assert E.CallBlocks(CallsIn(blocks)) == E.CallBlocks(calls) + [E.CallBlock(C.Call(b.id, b.name, b.input, ""))];
      } else {
        assert CallsIn(blocks) == [] && E.CallBlocks([]) == [];
      }
    }
  }

  lemma CallTurnReturns(turns: seq<E.Message>, blocks: seq<I.Block>)
    requires CallTurn(blocks) && Follows(turns, "assistant")
    ensures T.Steps(turns, I.Ended("assistant", I.Walked("assistant", blocks)))
            == Success(turns + [E.Message("assistant", E.Blocks(AsBlocks(blocks)))])
  {
    WalkCalls(blocks);
    CallBlocksAre(blocks);
    var parts, calls := FirstText(blocks), CallsIn(blocks);
    assert parts != [] ==> parts[..0] == [] && I.JoinParts(parts) == blocks[0].text;
    var content := if parts != [] then C.Str(blocks[0].text) else C.Missing;
    var m := C.Message("assistant", content, calls, "");
    assert I.Ended("assistant", I.Walked("assistant", blocks)) == [m];
    assert [m][..0] == [];
    assert T.Steps(turns, [m]) == T.Step(turns, m);
    assert |calls| > 0;
  }

  // --- The conversation ---

  lemma MessageReturns(turns: seq<E.Message>, m: I.Message)
    requires CanonicalMessage(m) && Follows(turns, m.role)
    ensures I.Translated(m).Success? && T.Steps(turns, I.Translated(m).value) == Success(turns + [AsTurn(m)])
  {
    match m.content
    case Str(s) =>
      var c := C.Says(m.role, C.Str(s));
      assert [c][..0] == [];
      assert T.Steps(turns, [c]) == T.Step(turns, c);
    case Blocks(bs) =>
      if m.role == "assistant" && CallTurn(bs) {
        CallTurnReturns(turns, bs);
      } else {
        PartsTurnReturns(turns, m.role, bs);
      }
  }

  lemma {:induction false} StepsAppend(turns: seq<E.Message>, a: seq<C.Message>, b: seq<C.Message>)
    requires T.Steps(turns, a).Success?
    ensures T.Steps(turns, a + b) == T.Steps(T.Steps(turns, a).value, b)
  {
    if b == [] {
      assert a + b == a;
    } else {
      assert (a + b)[..|a + b| - 1] == a + b[..|b| - 1];
      StepsAppend(turns, a, b[..|b| - 1]);
    }
  }

  lemma CanonicalBefore(messages: seq<I.Message>, n: nat)
    requires Canonical(messages) && |messages| == n + 1
    ensures Canonical(messages[..n]) && CanonicalMessage(messages[n])
    ensures AsTurns(messages) == AsTurns(messages[..n]) + [AsTurn(messages[n])]
    ensures Follows(AsTurns(messages[..n]), messages[n].role)
  {
    if n > 0 { assert messages[n - 1].role != messages[n - 1 + 1].role; }
  }

  lemma {:induction false} ConversationReturns(messages: seq<I.Message>)
    requires Canonical(messages)
    ensures I.AllTranslated(messages).Success?
    ensures T.Steps([], I.AllTranslated(messages).value) == Success(AsTurns(messages))
  {
    if messages == [] {
      assert AsTurns(messages) == [];
    } else {
      var n := |messages| - 1;
      CanonicalBefore(messages, n);
      ConversationReturns(messages[..n]);
      MessageReturns(AsTurns(messages[..n]), messages[n]);
      StepsAppend([], I.AllTranslated(messages[..n]).value, I.Translated(messages[n]).value);
    }
  }

  // --- The system prompt ---

  predicate NoSystem(messages: seq<C.Message>) {
    forall i :: 0 <= i < |messages| ==> !E.IsSystem(messages[i])
  }

  lemma {:induction false} WalkSendsNoSystem(role: string, blocks: seq<I.Block>)
    requires role in {"user", "assistant"}
    ensures NoSystem(I.Walked(role, blocks).out)
  {
    if blocks != [] {
      WalkSendsNoSystem(role, blocks[..|blocks| - 1]);
    }
  }

  lemma {:induction false} ConversationSendsNoSystem(messages: seq<I.Message>)
    requires forall i :: 0 <= i < |messages| ==> messages[i].role in {"user", "assistant"}
    ensures I.AllTranslated(messages).Success? ==> NoSystem(I.AllTranslated(messages).value)
  {
    if messages != [] {
      var n := |messages| - 1;
      ConversationSendsNoSystem(messages[..n]);
      if messages[n].content.Blocks? {
        WalkSendsNoSystem(messages[n].role, messages[n].content.blocks);
      }
    }
  }

  lemma {:induction false} SystemTextsOf(text: C.Message, messages: seq<C.Message>)
    requires E.IsSystem(text) && E.FlattenText(text.content) != "" && NoSystem(messages)
    ensures T.SystemTexts([text] + messages) == [E.FlattenText(text.content)]
  {
    if messages == [] {
      assert [text] + messages == [text] && [text][..0] == [];
    } else {
      var n := |messages| - 1;
      assert ([text] + messages)[..n + 1] == [text] + messages[..n];
      SystemTextsOf(text, messages[..n]);
    }
  }

  lemma {:induction false} NoSystemTexts(messages: seq<C.Message>)
    requires NoSystem(messages)
    ensures T.SystemTexts(messages) == []
  {
    if messages != [] {
      NoSystemTexts(messages[..|messages| - 1]);
    }
  }

  /** A system prompt of any form comes back as its text, ahead of the turns. */
  lemma SystemReturns(system: Option<I.Content>, messages: seq<C.Message>, turns: seq<E.Message>)
    requires NoSystem(messages) && T.Steps([], messages) == Success(turns)
    ensures E.TurnsOf(I.SystemMessages(system) + messages) == Success((I.SystemText(system), turns))
  {
    var sent := I.SystemMessages(system);
    var all := sent + messages;
    T.RunsCoalesce(all);
    T.SystemLifted(all);
    if sent == [] {
      assert all == messages;
      NoSystemTexts(messages);
    } else {
      assert sent[..0] == [];
      assert T.Steps([], sent) == Success([]);
      StepsAppend([], sent, messages);
      SystemTextsOf(sent[0], messages);
    }
  }

  // --- Tool choice ---

  /** A choice comes back as itself exactly when it names one of the four kinds, and its tool if
      it forces one. */
  lemma ChoiceReturns(kind: string, name: string)
    ensures E.ChoiceOf(I.ChoiceOf(I.Choice(kind, name))) == Some(E.ToolChoice(kind, if kind == "tool" then name else "", false))
            <==> kind in {"auto", "none", "any"} || (kind == "tool" && name != "")
  {
    assert "any" != "tool" && "any" != "auto" && "auto" != "none";
  }

  // --- The whole request ---

  /** The four kinds; only a forced tool has a name. */
  predicate CanonicalChoice(c: I.ToolChoice) {
    c.NoChoice? || (c.Choice? && if c.kind == "tool" then c.name != "" else c.kind in {"auto", "none", "any"} && c.name == "")
  }

  predicate CanonicalRequest(req: I.Request) {
    && req.model != "" && req.messages != [] && Canonical(req.messages)
    && (forall i :: 0 <= i < |req.tools| ==> req.tools[i].inputSchema.JObject?)
    && CanonicalChoice(req.toolChoice) && (req.tools == [] ==> req.toolChoice.NoChoice?)
    && forall i :: 0 <= i < |req.stopSequences| ==> TrimSpace(req.stopSequences[i]) != ""
  }

  function AsTools(tools: seq<I.Tool>): seq<E.Tool> {
    seq(|tools|, i requires 0 <= i < |tools| => E.Tool(tools[i].name, tools[i].description, tools[i].inputSchema, false))
  }

  function AsChoice(c: I.ToolChoice): Option<E.ToolChoice> {
    if c.Choice? then Some(E.ToolChoice(c.kind, c.name, false)) else None
  }

  lemma {:induction false} StopsReturn(stops: seq<string>)
    requires forall i :: 0 <= i < |stops| ==> TrimSpace(stops[i]) != ""
    ensures E.NonBlankStops(stops) == stops
  {
    if stops != [] {
      var n := |stops| - 1;
      StopsReturn(stops[..n]);
      assert TrimSpace(stops[n]) != "";
    }
  }

  lemma ToolsReturn(tools: seq<I.Tool>)
    requires forall i :: 0 <= i < |tools| ==> tools[i].inputSchema.JObject?
    ensures E.ToolsOf(I.ToolsOf(tools)) == AsTools(tools)
  {
    forall i | 0 <= i < |tools| ensures E.ToolsOf(I.ToolsOf(tools))[i] == AsTools(tools)[i] {
      assert I.ToolsOf(tools)[i].parameters == tools[i].inputSchema;
    }
  }

  lemma CanonicalChoiceReturns(tools: seq<I.Tool>, choice: I.ToolChoice)
    requires CanonicalChoice(choice) && (tools == [] ==> choice.NoChoice?)
    ensures E.Chosen(I.ToolsOf(tools), I.ChoiceOf(choice), None) == AsChoice(choice)
  {
    assert |I.ToolsOf(tools)| == |tools|;
    if choice.Choice? {
      ChoiceReturns(choice.kind, choice.name);
    }
  }

  lemma TurnsReturn(req: I.Request)
    requires CanonicalRequest(req)
    ensures I.AllTranslated(req.messages).Success?
    ensures E.TurnsOf(I.SystemMessages(req.system) + I.AllTranslated(req.messages).value)
            == Success((I.SystemText(req.system), AsTurns(req.messages)))
  {
    ConversationReturns(req.messages);
    ConversationSendsNoSystem(req.messages);
    SystemReturns(req.system, I.AllTranslated(req.messages).value, AsTurns(req.messages));
  }

  lemma NoThinkingAsked(maxTokens: int, choice: Option<E.ToolChoice>, dialect: E.Dialect, limited: bool)
    ensures E.ThinkingFor(maxTokens, choice, E.Effort(""), dialect, limited).None?
  {
    assert E.Effort("") == "";
  }

  /** Both translators in turn, on a canonical request: the same model, system prompt, turns, tools,
      tool choice, stops and stream flag; the limit if one was stated; the sampling exactly
      if no temperature above 1 was. No thinking is asked for. */
  lemma RequestReturns(req: I.Request, dialect: E.Dialect)
    requires CanonicalRequest(req)
    ensures I.ChatOf(req).Success? && E.Drafted(I.ChatOf(req).value).Success?
    ensures var chat := I.ChatOf(req).value;
            var back := E.Drafted(chat).value;
            && back.model == req.model && back.stream == req.stream
            && back.system == E.Prompted(I.SystemText(req.system))
            && back.messages == AsTurns(req.messages)
            && back.tools == AsTools(req.tools) && back.toolChoice == AsChoice(req.toolChoice)
            && back.stopSequences == req.stopSequences
            && back.maxTokens == (if req.maxTokens > 0 then req.maxTokens else E.DEFAULT_MAX_TOKENS)
            && (back.sampling == req.sampling <==> req.sampling.temperature.None? || req.sampling.temperature.value <= 1.0)
            && E.ThinkingFor(back.maxTokens, back.toolChoice, E.Effort(chat.reasoningEffort), dialect, E.Limit(chat) > 0).None?
  {
    TurnsReturn(req);
    assert |AsTurns(req.messages)| == |req.messages|;
    ToolsReturn(req.tools);
    CanonicalChoiceReturns(req.tools, req.toolChoice);
    StopsReturn(req.stopSequences);
    var chat := I.ChatOf(req).value;
    var back := E.Drafted(chat).value;
    NoThinkingAsked(back.maxTokens, back.toolChoice, dialect, E.Limit(chat) > 0);
  }
}
