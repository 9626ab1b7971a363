/** The chat-to-Anthropic stream translator (internal/anthropic/stream.go) with the tool-call
    index resolver it uses (internal/egress/toolindex.go). */
module IngressStream {
  import opened Wrappers
  import opened ChatChunks
  import opened ToolIds

  // --- The events it writes ---

  datatype OutEvent =
    | MessageStart(inputTokens: int, cacheReadTokens: int)
    | Ping
    | StartText(index: int)
    | StartTool(index: int, id: string, name: string)
    | TextDelta(index: int, text: string)
    | InputJsonDelta(index: int, partial: string)
    | StopBlock(index: int)
    | MessageDelta(stopReason: string, inputTokens: int, cacheReadTokens: int, outputTokens: int)
    | MessageStop

  /** A decoded chunk: its first choice, if it has one, and its usage. */
  datatype Incoming = Incoming(choice: Option<Chunk>, usage: Option<CompletionUsage>)

  function Decoded(c: Chunk): Incoming { Incoming(Some(c), c.usage) }

  // --- Index resolution ---

  datatype Indexer = Indexer(idxByCallId: map<string, int>, idByIndex: map<int, string>, aliasOf: map<int, int>, last: int)

  const NO_CALLS := Indexer(map[], map[], map[], 0)

  /** The next synthetic index. */
  function NextSynthetic(x: Indexer): int { -1 - |x.idxByCallId| }

  function Keyed(x: Indexer, wire: int, id: string): (Indexer, int)
    requires id !in x.idxByCallId
  {
    var idx := if wire in x.idByIndex && x.idByIndex[wire] != id then NextSynthetic(x) else wire;
    (Indexer(x.idxByCallId[id := idx], x.idByIndex[wire := id], x.aliasOf[wire := idx], idx), idx)
  }

  function Resolve(x: Indexer, index: Option<int>, id: string, openCalls: set<int>): (Indexer, int) {
    match index
    case Some(wire) =>
      if id != "" then
        if id in x.idxByCallId then (x.(last := x.idxByCallId[id]), x.idxByCallId[id]) else Keyed(x, wire, id)
      else
        var idx := if wire in x.aliasOf then x.aliasOf[wire]
                   else if x.last < 0 && wire !in openCalls then x.last
                   else wire;
        (x.(last := idx), idx)
    case None =>
      if id == "" then (x, x.last)
      else if id in x.idxByCallId then (x.(last := x.idxByCallId[id]), x.idxByCallId[id])
      else
        var idx := NextSynthetic(x);
        (x.(idxByCallId := x.idxByCallId[id := idx], last := idx), idx)
  }

  class ToolCallIndexer {
    var idxByCallId: map<string, int>
    var idByIndex: map<int, string>
    var aliasOf: map<int, int>
    var last: int

    ghost function Now(): Indexer
      reads this
    {
      Indexer(idxByCallId, idByIndex, aliasOf, last)
    }

    constructor ()
      ensures Now() == NO_CALLS
    {
      idxByCallId, idByIndex, aliasOf, last := map[], map[], map[], 0;
    }

    method ResolveIndex(index: Option<int>, id: string, openCalls: set<int>) returns (idx: int)
      modifies this
      ensures (Now(), idx) == Resolve(old(Now()), index, id, openCalls)
    {
      match index
      case Some(wire) =>
        idx := wire;
        if id != "" {
          if id in idxByCallId {
            idx := idxByCallId[id];
          } else {
            if wire in idByIndex && idByIndex[wire] != id {
              idx := -1 - |idxByCallId|;
            }
            idxByCallId := idxByCallId[id := idx];
            idByIndex := idByIndex[wire := id];
            aliasOf := aliasOf[wire := idx];
          }
        } else if wire in aliasOf {
          idx := aliasOf[wire];
        } else if last < 0 && wire !in openCalls {
          idx := last;
        }
        last := idx;
      case None =>
        if id != "" {
          if id in idxByCallId {
            idx := idxByCallId[id];
          } else {
            idx := -1 - |idxByCallId|;
            idxByCallId := idxByCallId[id := idx];
          }
          last := idx;
        }
        idx := last;
    }
  }

  // --- The state, and each action as a function of it ---

  datatype BlockKind = NoBlock | TextBlock | ToolBlock

  datatype State = State(
    messageId: string, started: bool, curKind: BlockKind, curIndex: int, openMax: int,
    toolBlockByIndex: map<int, int>, indexer: Indexer,
    promptTokens: int, cachedTokens: int, completionTokens: int,
    finishReason: string, finished: bool, lateSignatures: nat)

  function Fresh(messageId: string): State {
    State(messageId, false, NoBlock, 0, -1, map[], NO_CALLS, 0, 0, 0, "", false, 0)
  }

  function Digit(d: int): string
    requires 0 <= d < 10
  {
    ['0' + d as char]
  }

  function Decimal(n: int): string
    decreases if n < 0 then 1 - n else n
  {
    if n < 0 then "-" + Decimal(-n)
    else if n < 10 then Digit(n)
    else Decimal(n / 10) + Digit(n % 10)
  }

  function SyntheticToolUseId(messageId: string, n: int): string {
    "toolu_" + messageId + "_" + Decimal(n)
  }

  /** The share of the prompt served from cache, apart from the rest. */
  function SplitPrompt(prompt: int, cached: int): (int, int) {
    if cached <= 0 || cached > prompt then (prompt, 0) else (prompt - cached, cached)
  }

  function MapStopReason(finish: string): string {
    if finish == "length" then "max_tokens"
    else if finish == "tool_calls" || finish == "function_call" then "tool_use"
    else if finish == "content_filter" then "refusal"
    else "end_turn"
  }

  function StopReasonFor(finish: string, hasToolCalls: bool): string {
    if hasToolCalls && (finish == "" || finish == "stop") then "tool_use" else MapStopReason(finish)
  }

  function EnsureStarted(z: State): (State, seq<OutEvent>) {
    if z.started then (z, [])
    else
      var (input, cacheRead) := SplitPrompt(z.promptTokens, z.cachedTokens);
      (z.(started := true), [MessageStart(input, cacheRead), OutEvent.Ping])
  }

  function CloseOpenBlock(z: State): (State, seq<OutEvent>) {
    if z.curKind == NoBlock then (z, []) else (z.(curKind := NoBlock), [StopBlock(z.curIndex)])
  }

  function OpenTextBlock(z: State): (State, seq<OutEvent>) {
    if z.curKind == TextBlock then (z, [])
    else
      var (c, closing) := CloseOpenBlock(z);
      (c.(openMax := z.openMax + 1, curIndex := z.openMax + 1, curKind := TextBlock), closing + [StartText(z.openMax + 1)])
  }

  function BlockId(z: State, id: string, signature: string): string {
    SignedToolUseId(if id == "" then SyntheticToolUseId(z.messageId, z.openMax + 1) else id, signature)
  }

  function OpenToolBlock(z: State, index: int, id: string, name: string, signature: string): (State, seq<OutEvent>) {
    var (c, closing) := CloseOpenBlock(z);
    (c.(openMax := z.openMax + 1, curIndex := z.openMax + 1, curKind := ToolBlock,
        toolBlockByIndex := z.toolBlockByIndex[index := z.openMax + 1]),
     closing + [StartTool(z.openMax + 1, BlockId(z, id, signature), name)])
  }

  function Counted(z: State, usage: Option<CompletionUsage>): State {
    if usage.None? then z
    else
      var u := usage.value;
      var p := if u.prompt > 0 then z.(promptTokens := u.prompt, cachedTokens := if u.cached.Some? then u.cached.value else 0) else z;
      if u.completion > 0 then p.(completionTokens := u.completion) else p
  }

  function OnText(z: State, text: string): (State, seq<OutEvent>) {
    if text == "" then (z, [])
    else
      var (a, starting) := EnsureStarted(z);
      var (b, opening) := OpenTextBlock(a);
      (b, starting + opening + [TextDelta(b.curIndex, text)])
  }

  function OnFragment(z: State, f: ToolFragment): (State, seq<OutEvent>) {
    var (a, starting) := EnsureStarted(z);
    var (x, index) := Resolve(a.indexer, f.index, f.id, a.toolBlockByIndex.Keys);
    var r := a.(indexer := x);
    var (b, opening) :=
      if index in r.toolBlockByIndex then
        (if f.signature != "" then r.(lateSignatures := r.lateSignatures + 1) else r, [])
      else OpenToolBlock(r, index, f.id, f.name, f.signature);
    (b, starting + opening + if f.arguments != "" then [InputJsonDelta(b.toolBlockByIndex[index], f.arguments)] else [])
  }

  function OnFragments(z: State, fragments: seq<ToolFragment>): (State, seq<OutEvent>) {
    if fragments == [] then (z, [])
    else
      var (a, before) := OnFragments(z, fragments[..|fragments| - 1]);
      var (b, more) := OnFragment(a, fragments[|fragments| - 1]);
      (b, before + more)
  }

  function OnChunk(z: State, chunk: Incoming): (State, seq<OutEvent>) {
    var counted := Counted(z, chunk.usage);
    match chunk.choice
    case None => (counted, [])
    case Some(c) =>
      var a := if c.finish.Some? && c.finish.value != "" then counted.(finishReason := c.finish.value) else counted;
      var (b, text) := OnText(a, c.delta.content);
      var (d, tools) := OnFragments(b, c.delta.tools);
      (d, text + tools)
  }

  function OnFinish(z: State): (State, seq<OutEvent>) {
    if z.finished then (z, [])
    else
      var (a, starting) := EnsureStarted(z.(finished := true));
      var (b, closing) := CloseOpenBlock(a);
      var (input, cacheRead) := SplitPrompt(b.promptTokens, b.cachedTokens);
      (b, starting + closing
          + [MessageDelta(StopReasonFor(b.finishReason, b.toolBlockByIndex != map[]), input, cacheRead, b.completionTokens), MessageStop])
  }

  // --- The translator ---

  class StreamTranslator {
    const messageId: string
    var started: bool
    var curKind: BlockKind
    var curIndex: int
    var openMax: int
    var toolBlockByIndex: map<int, int>
    const toolIndex: ToolCallIndexer
    var promptTokens: int
    var cachedTokens: int
    var completionTokens: int
    var finishReason: string
    var finished: bool
    var lateSignatures: nat

    ghost function Now(): State
      reads this, toolIndex
    {
      State(messageId, started, curKind, curIndex, openMax, toolBlockByIndex, toolIndex.Now(),
            promptTokens, cachedTokens, completionTokens, finishReason, finished, lateSignatures)
    }

    constructor (id: string)
      ensures Now() == Fresh(id) && fresh(toolIndex)
    {
      messageId := id;
      toolIndex := new ToolCallIndexer();
      started, curKind, curIndex, openMax, toolBlockByIndex := false, NoBlock, 0, -1, map[];
      promptTokens, cachedTokens, completionTokens, finishReason, finished, lateSignatures := 0, 0, 0, "", false, 0;
    }

    method Start() returns (out: seq<OutEvent>)
      modifies this
      ensures (Now(), out) == EnsureStarted(old(Now()))
    {
      out := [];
      if started { return; }
      started := true;
      var (input, cacheRead) := SplitPrompt(promptTokens, cachedTokens);
      out := [MessageStart(input, cacheRead), OutEvent.Ping];
    }

    method CloseBlock() returns (out: seq<OutEvent>)
      modifies this
      ensures (Now(), out) == CloseOpenBlock(old(Now()))
    {
      out := [];
      if curKind == NoBlock { return; }
      out := [StopBlock(curIndex)];
      curKind := NoBlock;
    }

    method OpenText() returns (out: seq<OutEvent>)
      modifies this
      ensures (Now(), out) == OpenTextBlock(old(Now()))
    {
      out := [];
      if curKind == TextBlock { return; }
      out := CloseBlock();
      openMax := openMax + 1;
      curIndex := openMax;
      curKind := TextBlock;
      out := out + [StartText(curIndex)];
    }

    method OpenTool(index: int, id: string, name: string, signature: string) returns (out: seq<OutEvent>)
      modifies this
      ensures (Now(), out) == OpenToolBlock(old(Now()), index, id, name, signature)
    {
      out := CloseBlock();
      openMax := openMax + 1;
      curIndex := openMax;
      curKind := ToolBlock;
      toolBlockByIndex := toolBlockByIndex[index := curIndex];
      var named := id;
      if named == "" { named := SyntheticToolUseId(messageId, curIndex); }
      out := out + [StartTool(curIndex, SignedToolUseId(named, signature), name)];
    }

    method Fragment(f: ToolFragment) returns (out: seq<OutEvent>)
      modifies this, toolIndex
      ensures (Now(), out) == OnFragment(old(Now()), f)
    {
      out := Start();
      var index := toolIndex.ResolveIndex(f.index, f.id, toolBlockByIndex.Keys);
      var more: seq<OutEvent> := [];
      if index !in toolBlockByIndex {
        more := OpenTool(index, f.id, f.name, f.signature);
      } else if f.signature != "" {
        lateSignatures := lateSignatures + 1;
      }
      out := out + more;
      if f.arguments != "" {
        out := out + [InputJsonDelta(toolBlockByIndex[index], f.arguments)];
      } else {
        assert out + [] == out;
      }
    }

    method Count(usage: Option<CompletionUsage>)
      modifies this
      ensures Now() == Counted(old(Now()), usage)
    {
      if usage.None? { return; }
      var u := usage.value;
      if u.prompt > 0 {
        promptTokens := u.prompt;
        cachedTokens := if u.cached.Some? then u.cached.value else 0;
      }
      if u.completion > 0 { completionTokens := u.completion; }
    }

    method Text(text: string) returns (out: seq<OutEvent>)
      modifies this
      ensures (Now(), out) == OnText(old(Now()), text)
    {
      out := [];
      if text == "" { return; }
      var starting := Start();
      var opening := OpenText();
      out := starting + opening + [TextDelta(curIndex, text)];
    }

    method Fragments(fragments: seq<ToolFragment>) returns (out: seq<OutEvent>)
      modifies this, toolIndex
      ensures (Now(), out) == OnFragments(old(Now()), fragments)
    {
      out := [];
      for i := 0 to |fragments|
        invariant (Now(), out) == OnFragments(old(Now()), fragments[..i])
      {
        assert fragments[..i + 1][..i] == fragments[..i];
        var more := Fragment(fragments[i]);
        out := out + more;
      }
      assert fragments[..|fragments|] == fragments;
    }

    method Translate(chunk: Incoming) returns (out: seq<OutEvent>)
      modifies this, toolIndex
      ensures (Now(), out) == OnChunk(old(Now()), chunk)
    {
      out := [];
      Count(chunk.usage);
      if chunk.choice.None? { return; }
      var c := chunk.choice.value;
      if c.finish.Some? && c.finish.value != "" { finishReason := c.finish.value; }
      var text := Text(c.delta.content);
      var tools := Fragments(c.delta.tools);
      out := text + tools;
    }

    method Finish() returns (out: seq<OutEvent>)
      modifies this
      ensures (Now(), out) == OnFinish(old(Now()))
    {
      out := [];
      if finished { return; }
      finished := true;
      var starting := Start();
      var closing := CloseBlock();
      var stop := StopReasonFor(finishReason, toolBlockByIndex != map[]);
      var (input, cacheRead) := SplitPrompt(promptTokens, cachedTokens);
      out := starting + closing + [MessageDelta(stop, input, cacheRead, completionTokens), MessageStop];
    }
  }
}
