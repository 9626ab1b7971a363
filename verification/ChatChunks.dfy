/** The chat-completion side both stream translators share: the chunks one writes and
    the other reads, and the message a client makes of them. */
module ChatChunks {
  import opened Wrappers

  /** One tool_calls element of a delta. Empty strings are omitted members; `signature` is
      the thought signature its extra_content carries, if any. */
  datatype ToolFragment = ToolFragment(index: Option<int>, id: string, kind: string, name: string,
                                       arguments: string, signature: string)

  datatype CompletionUsage = CompletionUsage(prompt: int, completion: int, total: int,
                                             cacheCreation: int, cacheRead: int, cached: Option<int>)

  datatype Delta = Delta(role: string, content: string, reasoning: string, tools: seq<ToolFragment>)

  const NO_DELTA := Delta("", "", "", [])

  datatype Chunk = Chunk(delta: Delta, finish: Option<string>, usage: Option<CompletionUsage>)

  /** One SSE frame: a chunk, a comment, or the end sentinel. */
  datatype Frame = Data(chunk: Chunk) | Ping | Done

  /** A call keeps the signature it opened with. */
  datatype ToolCall = ToolCall(id: string, name: string, arguments: string, signature: string)

  datatype Message = Message(text: string, reasoning: string, tools: seq<ToolCall>,
                             finish: Option<string>, usage: Option<CompletionUsage>)

  const NO_MESSAGE := Message("", "", [], None, None)

  /** A fragment opens the call of its index or extends its arguments. */
  function Merged(tools: seq<ToolCall>, f: ToolFragment): seq<ToolCall> {
    if f.index.None? || !(0 <= f.index.value <= |tools|) then tools
    else if f.index.value == |tools| then tools + [ToolCall(f.id, f.name, f.arguments, f.signature)]
    else
      var k := f.index.value;
      tools[k := ToolCall(if f.id != "" then f.id else tools[k].id,
                          if f.name != "" then f.name else tools[k].name,
                          tools[k].arguments + f.arguments, tools[k].signature)]
  }

  function MergedAll(tools: seq<ToolCall>, fragments: seq<ToolFragment>): seq<ToolCall> {
    if fragments == [] then tools
    else Merged(MergedAll(tools, fragments[..|fragments| - 1]), fragments[|fragments| - 1])
  }

  function Extended(m: Message, frame: Frame): Message {
    if !frame.Data? then m
    else
      var c := frame.chunk;
      Message(m.text + c.delta.content, m.reasoning + c.delta.reasoning, MergedAll(m.tools, c.delta.tools),
              if c.finish.Some? && c.finish.value != "" then c.finish else m.finish,
              if c.usage.Some? then c.usage else m.usage)
  }

  /** What a client that has m makes of further frames. */
  function Folded(m: Message, frames: seq<Frame>): Message {
    if frames == [] then m
    else Extended(Folded(m, frames[..|frames| - 1]), frames[|frames| - 1])
  }

  /** The message a client accumulates from a stream. */
  function Received(frames: seq<Frame>): Message {
    Folded(NO_MESSAGE, frames)
  }

  lemma FoldedOne(m: Message, frame: Frame)
    ensures Folded(m, [frame]) == Extended(m, frame)
  {
    assert [frame][..0] == [];
  }

  lemma {:induction false} FoldedAppend(m: Message, a: seq<Frame>, b: seq<Frame>)
    ensures Folded(m, a + b) == Folded(Folded(m, a), b)
  {
    if b == [] {
      assert a + b == a;
    } else {
      assert (a + b)[..|a + b| - 1] == a + b[..|b| - 1];
      FoldedAppend(m, a, b[..|b| - 1]);
    }
  }

  lemma MergedOne(tools: seq<ToolCall>, f: ToolFragment)
    ensures MergedAll(tools, [f]) == Merged(tools, f)
  {
    assert [f][..0] == [];
  }
}
