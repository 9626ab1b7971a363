/** What the Messages request a chat request becomes says, field by field and block by block
    (internal/anthropicegress/request.go and content.go). */
module MessagesRequestView {
  import opened Wrappers
  import opened GoText
  import opened EgressRequest
  import C = ChatRequest
  import D = DataUri
  import Base64

  // --- Thinking ---

  /** The tokens each effort is worth. */
  function Worth(effort: string): Option<int> {
    if effort in {"minimal", "low"} then Some(1024)
    else if effort == "medium" then Some(4096)
    else if effort == "high" then Some(8192)
    else None
  }

  predicate Forced(choice: Option<ToolChoice>) { choice.Some? && (choice.value.kind == "any" || choice.value.kind == "tool") }

  /** A budget is what its effort is worth, but no more than half of a limit the caller set; thinking is
      off under a forced tool and where that half is below 1024. */
  lemma BudgetSays(maxTokens: int, choice: Option<ToolChoice>, reasoningEffort: string, limited: bool)
    ensures var thinking := ThinkingFor(maxTokens, choice, Effort(reasoningEffort), BudgetDialect, limited);
            var worth := Worth(D.ToLower(TrimSpace(reasoningEffort)));
            if worth.None? || Forced(choice) || (limited && maxTokens / 2 < 1024) then thinking.None?
            else thinking == Some(Budget(if limited && maxTokens / 2 < worth.value then maxTokens / 2 else worth.value))
  {
  }

  /** An adaptive effort is passed on, minimal as low; under a limit of less than 1024 it is off. */
  lemma AdaptiveSays(maxTokens: int, choice: Option<ToolChoice>, reasoningEffort: string, limited: bool)
    ensures var thinking := ThinkingFor(maxTokens, choice, Effort(reasoningEffort), AdaptiveDialect, limited);
            var effort := D.ToLower(TrimSpace(reasoningEffort));
            if effort !in {"minimal", "low", "medium", "high", "xhigh", "max"} || (limited && maxTokens < 1024) then thinking.None?
            else thinking == Some(Adaptive(if effort == "minimal" then "low" else effort))
  {
  }

  // --- The tool choice ---

  /** What each chat choice is called. */
  ghost predicate Calls(asked: C.ToolChoice, choice: ToolChoice) {
    || (asked == C.Mode("auto") && choice.kind == "auto" && choice.name == "")
    || (asked == C.Mode("required") && choice.kind == "any" && choice.name == "")
    || (asked == C.Mode("none") && choice.kind == "none" && choice.name == "")
    || (asked.Function? && asked.name != "" && choice.kind == "tool" && choice.name == asked.name)
  }

  predicate Nameable(asked: C.ToolChoice) {
    asked in {C.Mode("auto"), C.Mode("required"), C.Mode("none")} || (asked.Function? && asked.name != "")
  }

  /** Without tools there is no choice. With tools a choice Messages can name is that; a refusal of
      parallel calls rides on it, or on "auto" where none was named, and on anything but "none". */
  lemma ChoiceSays(tools: seq<C.Tool>, asked: C.ToolChoice, parallel: Option<bool>)
    ensures var choice := Chosen(tools, asked, parallel);
            && (choice.Some? <==> tools != [] && (Nameable(asked) || parallel == Some(false)))
            && (choice.Some? && Nameable(asked) ==> Calls(asked, choice.value))
            && (choice.Some? && !Nameable(asked) ==> choice.value.kind == "auto" && choice.value.name == "")
            && (choice.Some? ==> (choice.value.disableParallel <==> parallel == Some(false) && choice.value.kind != "none"))
  {
  }

  // --- The fields ---

  /** The stops that are not all white space, one for each and in their order. */
  ghost predicate StopsAt(stops: seq<string>, kept: seq<string>, at: seq<int>) {
    && |at| == |kept|
    && (forall n :: 0 <= n < |at| ==> 0 <= at[n] < |stops| && kept[n] == stops[at[n]] && !Blank(stops[at[n]]))
    && (forall m, n :: 0 <= m < n < |at| ==> at[m] < at[n])
    && (forall k :: 0 <= k < |stops| && !Blank(stops[k]) ==> k in at)
  }

  lemma OneMoreStop(stops: seq<string>, s: string, kept: seq<string>, at: seq<int>)
    requires StopsAt(stops, kept, at)
    ensures if Blank(s) then StopsAt(stops + [s], kept, at) else StopsAt(stops + [s], kept + [s], at + [|stops|])
  {
    var longer, more := stops + [s], at + [|stops|];
    assert more[|at|] == |stops|;
    forall k | 0 <= k < |longer| && !Blank(longer[k]) ensures k in more && (k < |stops| ==> k in at) {
      if k < |stops| {
        assert !Blank(stops[k]);
      }
    }
  }

  lemma {:induction false} StopsKept(stops: seq<string>) returns (at: seq<int>)
    ensures StopsAt(stops, NonBlankStops(stops), at)
  {
    at := [];
    if stops != [] {
      var n := |stops| - 1;
      at := StopsKept(stops[..n]);
      OneMoreStop(stops[..n], stops[n], NonBlankStops(stops[..n]), at);
      TrimSpaceEmpty(stops[n]);
      assert stops == stops[..n] + [stops[n]];
      if !Blank(stops[n]) {
        at := at + [n];
      }
    }
  }

  /** The tool as listed; parameters that are no object are the empty object's schema. */
  ghost predicate ToolSays(t: C.Tool, said: Tool) {
    && said.name == t.name && said.description == t.description && !said.marked
    && said.inputSchema == if t.parameters.JObject? then t.parameters else C.JObject("{\"type\":\"object\",\"properties\":{}}")
  }

  /** The system prompt: the lifted text, the format's instruction, both a blank line apart, or none. */
  ghost predicate SystemSays(text: string, instruction: Option<string>, said: System) {
    var full := if instruction.None? then text
                else if text == "" then instruction.value
                else text + "\n\n" + instruction.value;
    said == if full == "" then NoSystem else Prompt(full)
  }

  /** The request drafted: the newer limit wins, a limit that is none is 4096, a temperature is at most
      1; the rest as sent. */
  ghost predicate DraftSays(req: C.Request, text: string, turns: seq<Message>, said: Request) {
    && said.model == req.model && said.stream == req.stream && said.messages == turns && turns != []
    && said.maxTokens == (if req.maxCompletionTokens > 0 then req.maxCompletionTokens
                          else if req.maxTokens > 0 then req.maxTokens else 4096)
    && SystemSays(text, req.formatInstruction, said.system)
    && (exists at :: StopsAt(req.stop, said.stopSequences, at))
    && |said.tools| == |req.tools| && (forall k :: 0 <= k < |req.tools| ==> ToolSays(req.tools[k], said.tools[k]))
    && said.sampling.topP == req.sampling.topP && said.sampling.topK == req.sampling.topK
    && (said.sampling.temperature.Some? <==> req.sampling.temperature.Some?)
    && (req.sampling.temperature.Some? ==>
          said.sampling.temperature.value == if req.sampling.temperature.value > 1.0 then 1.0 else req.sampling.temperature.value)
    && said.toolChoice == Chosen(req.tools, req.toolChoice, req.parallelToolCalls) && said.thinking.None?
  }

  /** A request is refused for its model, its first unreadable or unsendable content, or having no turn;
      otherwise every field says what was asked. */
  lemma RequestSays(req: C.Request)
    ensures req.model == "" ==> Drafted(req) == Failure(ModelRequired)
    ensures req.model != "" && TurnsOf(req.messages).Failure? ==> Drafted(req) == Failure(TurnsOf(req.messages).error)
    ensures req.model != "" && TurnsOf(req.messages).Success? ==>
              var (text, turns) := TurnsOf(req.messages).value;
              if turns == [] then Drafted(req) == Failure(NoTurns)
              else Drafted(req).Success? && DraftSays(req, text, turns, Drafted(req).value)
  {
    var at := StopsKept(req.stop);
  }

  // --- The blocks ---

  /** An image slot or a file slot with something in it. */
  predicate HoldsImage(p: C.Part) { p.imageUrl.Some? && p.imageUrl.value != "" && !D.EmptyDataUri(p.imageUrl.value) }

  predicate HoldsFile(p: C.Part) {
    p.file.Some? && ((p.file.value.fileData != "" && !D.EmptyDataUri(p.file.value.fileData))
                     || p.file.value.fileUrl != "" || p.file.value.fileId != "")
  }

  /** A part is dropped exactly when it has nothing in it: no text, no refusal, no image, no file. A kind
      that is not known never is. */
  lemma DroppedExactly(p: C.Part)
    ensures !Carries(p) <==> || (p.kind == "text" && p.text == "")
                             || (p.kind == "" && p.text == "" && !HoldsImage(p) && !HoldsFile(p))
                             || (p.kind == "refusal" && p.refusal == "")
                             || (p.kind == "image_url" && !HoldsImage(p))
                             || (p.kind == "file" && !HoldsFile(p))
  {
    assert D.CutDataScheme("").None?;
  }

  /** Text and refusals are text; a part of no kind is too, unless it hides an image or a file, which is
      refused, as any unknown kind is. */
  lemma TextBlocks(p: C.Part)
    requires Carries(p)
    ensures p.kind == "text" ==> BlockOf(p) == Some(Text(p.text))
    ensures p.kind == "refusal" ==> BlockOf(p) == Some(Text(p.refusal))
    ensures p.kind == "" ==> BlockOf(p) == if HoldsImage(p) || HoldsFile(p) then None else Some(Text(p.text))
    ensures p.kind !in {"text", "refusal", "", "image_url", "file"} ==> BlockOf(p) == None
  {
  }

  /** An image part that is a URL is an image by that URL; inline data of an image type an image; other
      inline data a document, plain text by its text; data that cannot be read is refused. */
  lemma ImageBlocks(p: C.Part)
    requires Carries(p) && p.kind == "image_url"
    ensures var url := p.imageUrl.value;
            && (D.CutDataScheme(url).None? ==> BlockOf(p) == Some(Image(Source("url", "", "", url))))
            && (D.CutDataScheme(url).Some? && D.ParseDataUri(url).None? ==> BlockOf(p) == None)
            && (D.ParseDataUri(url).Some? ==>
                  var du := D.ParseDataUri(url).value;
                  if du.mediaType in {"image/jpeg", "image/png", "image/gif", "image/webp"} then
                    InlineSays(du, BlockOf(p), data => Image(Source("base64", du.mediaType, data, "")))
                  else DocumentSays(du, BlockOf(p)))
  {
    var url := p.imageUrl.value;
    if D.CutDataScheme(url).None? {
      assert D.ParseDataUri(url).None?;
    }
  }

  /** Base64 goes as it came; percent-encoded bytes go as their base64; others are refused. */
  ghost predicate InlineSays(du: D.Parsed, block: Option<Body>, body: string -> Body) {
    if du.base64 then block == Some(body(du.payload))
    else match D.PathUnescape(du.payload)
         case None => block == None
         case Some(raw) => block == Some(body(Base64.Encode(raw, Base64.PaddedStd)))
  }

  /** Plain text goes as the text it decodes to, which must not be empty; anything else as a PDF. */
  ghost predicate DocumentSays(du: D.Parsed, block: Option<Body>) {
    if du.mediaType == "text/plain" then
      var text := if du.base64 then Base64.Decode(du.payload, Base64.PaddedStd) else D.PathUnescape(du.payload);
      block == if text.None? || text.value == "" then None else Some(Document(Source("text", "text/plain", text.value, "")))
    else InlineSays(du, block, data => Document(Source("base64", "application/pdf", data, "")))
  }

  /** A file's data goes first, as a document; then its URL; a file by id alone is refused. */
  lemma FileBlocks(p: C.Part)
    requires Carries(p) && p.kind == "file"
    ensures var f := p.file.value;
            && (f.fileData != "" && !D.EmptyDataUri(f.fileData) && D.ParseDataUri(f.fileData).None? ==> BlockOf(p) == None)
            && (f.fileData != "" && !D.EmptyDataUri(f.fileData) && D.ParseDataUri(f.fileData).Some? ==>
                  DocumentSays(D.ParseDataUri(f.fileData).value, BlockOf(p)))
            && (f.fileData == "" || D.EmptyDataUri(f.fileData) ==>
                  BlockOf(p) == if f.fileUrl != "" then Some(Document(Source("url", "", "", f.fileUrl))) else None)
  {
    assert D.CutDataScheme("").None?;
  }

  /** A call names its tool and carries its arguments; text that is no object carries the empty one. */
  lemma CallSays(c: C.Call)
    ensures CallBlock(c) == Block(ToolUse(c.id, c.name, if c.arguments.JObject? then c.arguments else C.JObject("{}")), false)
  {
  }

  // --- Text lifted out of parts ---

  predicate IsText(p: C.Part) { p.kind == "text" || p.kind == "" }

  function Texts(parts: seq<C.Part>): seq<string> {
    if parts == [] then []
    else Texts(parts[..|parts| - 1]) + var p := parts[|parts| - 1]; if IsText(p) then [p.text] else []
  }

  /** A system prompt or a tool's answer in parts reads as its text parts end to end. */
  lemma {:induction false} FlattenedParts(parts: seq<C.Part>)
    ensures FlattenText(C.Parts(parts)) == Concat(Texts(parts))
  {
    if parts != [] {
      var n := |parts| - 1;
      FlattenedParts(parts[..n]);
      if IsText(parts[n]) {
        assert Texts(parts)[..|Texts(parts[..n])|] == Texts(parts[..n]);
      } else {
        assert Texts(parts) == Texts(parts[..n]);
        assert FlattenParts(parts[..n]) + "" == FlattenParts(parts[..n]);
      }
    }
  }

  /** System texts stand a blank line apart. */
  lemma ParagraphsApart(parts: seq<string>, last: string)
    requires parts != []
    ensures JoinParagraphs(parts + [last]) == JoinParagraphs(parts) + "\n\n" + last && JoinParagraphs([last]) == last
  {
    assert (parts + [last])[..|parts|] == parts;
  }
}
