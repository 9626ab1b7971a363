/** Chat chunks read through the ingress translator: when each tool call's fragments stay
    together, a client reads the blocks as the message the chunks fold to. */
module RelayedChunks {
  import opened Wrappers
  import opened ChatChunks
  import opened ToolIds
  import opened IngressStream
  import opened IngressGrammar

  // --- Chunks that keep their calls in order ---

  /** What the client saw last. */
  datatype Tail = Nothing | Words | Call

  /** A fragment opens the next call under a fresh id, or continues the call streamed last
      with nothing in between. */
  predicate FragmentInOrder(calls: seq<ToolCall>, tail: Tail, f: ToolFragment) {
    f.index.Some?
    && if f.index.value == |calls| then
         f.id == "" || forall k :: 0 <= k < |calls| ==> calls[k].id != f.id
       else
         f.index.value == |calls| - 1 && |calls| > 0 && tail == Call
         && f.id in {"", calls[|calls| - 1].id} && f.name in {"", calls[|calls| - 1].name}
  }

  predicate FragmentsInOrder(calls: seq<ToolCall>, tail: Tail, fragments: seq<ToolFragment>) {
    fragments == []
    || (var n := |fragments| - 1;
        FragmentsInOrder(calls, tail, fragments[..n])
        && FragmentInOrder(MergedAll(calls, fragments[..n]), if n > 0 then Call else tail, fragments[n]))
  }

  function TailAfter(tail: Tail, c: Chunk): Tail {
    if c.delta.tools != [] then Call else if c.delta.content != "" then Words else tail
  }

  predicate ChunkInOrder(m: Message, tail: Tail, c: Chunk) {
    FragmentsInOrder(m.tools, if c.delta.content != "" then Words else tail, c.delta.tools)
  }

  // --- What the client's document says of the message so far ---

  function DocText(blocks: seq<OutBlock>): string {
    if blocks == [] then ""
    else DocText(blocks[..|blocks| - 1]) + var b := blocks[|blocks| - 1]; if b.TextOut? then b.text else ""
  }

  function DocTools(blocks: seq<OutBlock>): seq<OutBlock> {
    if blocks == [] then []
    else DocTools(blocks[..|blocks| - 1]) + var b := blocks[|blocks| - 1]; if b.ToolOut? then [b] else []
  }

  /** The id a call shows in block `at`: its own, or a synthetic one, with its signature on it. */
  function IdAt(messageId: string, at: int, id: string, signature: string): string {
    SignedToolUseId(if id == "" then SyntheticToolUseId(messageId, at) else id, signature)
  }

  type Spelling = (int, string, string) -> string

  function Spells(messageId: string): Spelling {
    (at, id, signature) => IdAt(messageId, at, id, signature)
  }

  ghost predicate IndexerReads(x: Indexer, calls: seq<ToolCall>) {
    && (forall id :: id in x.idxByCallId ==> 0 <= x.idxByCallId[id] < |calls| && calls[x.idxByCallId[id]].id == id)
    && (forall k :: 0 <= k < |calls| && calls[k].id != "" ==> calls[k].id in x.idxByCallId && x.idxByCallId[calls[k].id] == k)
    && (forall w :: w in x.idByIndex ==> 0 <= w < |calls|)
    && (forall w :: w in x.aliasOf ==> 0 <= w < |calls| && x.aliasOf[w] == w)
    && x.last >= 0
  }

  /** The calls as the client sees them, each in its own block, whatever spells the ids. */
  ghost predicate CallsShown(spell: Spelling, at: map<int, int>, tools: seq<OutBlock>, calls: seq<ToolCall>) {
    && |tools| == |calls|
    && (forall i :: i in at <==> 0 <= i < |calls|)
    && forall k :: 0 <= k < |calls| ==>
         tools[k] == ToolOut(spell(at[k], calls[k].id, calls[k].signature), calls[k].name, calls[k].arguments)
  }

  ghost predicate CallsRead(z: State, d: Doc, calls: seq<ToolCall>) {
    CallsShown(Spells(z.messageId), z.toolBlockByIndex, DocTools(d.blocks), calls)
  }

  ghost predicate TailReads(z: State, calls: nat, tail: Tail)
  {
    tail == Call ==>
      calls > 0 && z.curKind == ToolBlock && calls - 1 in z.toolBlockByIndex && z.toolBlockByIndex[calls - 1] == z.curIndex
  }

  /** The text and the calls seen so far, the finish reason aside. */
  ghost predicate BlocksRead(z: State, d: Doc, text: string, calls: seq<ToolCall>, tail: Tail) {
    && Shaped(z, d) && IndexerReads(z.indexer, calls)
    && DocText(d.blocks) == text && CallsRead(z, d, calls) && TailReads(z, |calls|, tail)
  }

  ghost predicate Reads(z: State, d: Doc, m: Message, tail: Tail) {
    BlocksRead(z, d, m.text, m.tools, tail) && z.finishReason == (if m.finish.Some? then m.finish.value else "")
  }

  // --- One fragment ---

  /** In order, the wire index is the resolver's answer. */
  lemma ResolvesInOrder(x: Indexer, calls: seq<ToolCall>, tail: Tail, f: ToolFragment, openCalls: set<int>)
    requires IndexerReads(x, calls) && FragmentInOrder(calls, tail, f)
    ensures var (after, index) := Resolve(x, f.index, f.id, openCalls);
            index == f.index.value && IndexerReads(after, Merged(calls, f))
  {
    var merged := Merged(calls, f);
    assert forall k :: 0 <= k < |calls| ==> merged[k].id == calls[k].id;
  }

  lemma DocLast(blocks: seq<OutBlock>, b: OutBlock)
    ensures DocText(blocks + [b]) == DocText(blocks) + (if b.TextOut? then b.text else "")
    ensures DocTools(blocks + [b]) == DocTools(blocks) + (if b.ToolOut? then [b] else [])
  {
    assert (blocks + [b])[..|blocks|] == blocks;
  }

  lemma DocSplit(blocks: seq<OutBlock>)
    requires blocks != []
    ensures var b := blocks[|blocks| - 1];
            && DocText(blocks) == DocText(blocks[..|blocks| - 1]) + (if b.TextOut? then b.text else "")
            && DocTools(blocks) == DocTools(blocks[..|blocks| - 1]) + (if b.ToolOut? then [b] else [])
  {
  }

  /** Arguments, empty or not, extend the open tool block. */
  lemma ArgumentsRead(z: State, d: Doc, index: int, arguments: string)
    requires Shaped(z, d) && z.started && index in z.toolBlockByIndex
    requires z.curKind == ToolBlock && z.toolBlockByIndex[index] == z.curIndex
    ensures var out := if arguments != "" then [IngressStream.InputJsonDelta(z.toolBlockByIndex[index], arguments)] else [];
            var b := d.blocks[z.curIndex];
            b.ToolOut? && ReadAll(d, out) == Growing(d, b.(json := b.json + arguments)) && Shaped(z, ReadAll(d, out))
  {
    var b := d.blocks[z.curIndex];
    if arguments != "" {
      ReadOne(d, IngressStream.InputJsonDelta(z.toolBlockByIndex[index], arguments));
    } else {
      assert b.json + "" == b.json;
      assert d.blocks == d.blocks[..|d.blocks| - 1] + [b];
    }
  }

  /** The open block's document entry grows; the call's arguments grow with it. */
  lemma LastCallShown(spell: Spelling, at: map<int, int>, blocks: seq<OutBlock>, calls: seq<ToolCall>, f: ToolFragment)
    requires CallsShown(spell, at, DocTools(blocks), calls) && |calls| > 0 && blocks != [] && blocks[|blocks| - 1].ToolOut?
    requires FragmentInOrder(calls, Call, f) && f.index.value < |calls|
    ensures var last := blocks[|blocks| - 1];
            var after := blocks[..|blocks| - 1] + [last.(json := last.json + f.arguments)];
            CallsShown(spell, at, DocTools(after), Merged(calls, f)) && DocText(after) == DocText(blocks)
  {
    var last := blocks[|blocks| - 1];
    DocSplit(blocks);
    DocLast(blocks[..|blocks| - 1], last.(json := last.json + f.arguments));
  }

  /** The document with the fragment's arguments behind the open call's. */
  lemma ContinuationShown(z: State, d: Doc, words: string, calls: seq<ToolCall>, f: ToolFragment, a: State)
    requires BlocksRead(z, d, words, calls, Call) && FragmentInOrder(calls, Call, f) && f.index.value < |calls|
    requires a == z.(indexer := a.indexer, lateSignatures := a.lateSignatures) && IndexerReads(a.indexer, Merged(calls, f))
    ensures f.index.value in z.toolBlockByIndex
    ensures var out := if f.arguments != "" then [IngressStream.InputJsonDelta(z.toolBlockByIndex[f.index.value], f.arguments)] else [];
            BlocksRead(a, ReadAll(d, out), words, Merged(calls, f), Call)
  {
    ArgumentsRead(a, d, f.index.value, f.arguments);
    LastCallShown(Spells(z.messageId), z.toolBlockByIndex, d.blocks, calls, f);
  }

  /** A fragment that continues the open call. */
  lemma ContinuationReads(z: State, d: Doc, words: string, calls: seq<ToolCall>, f: ToolFragment) returns (a: State, after: Doc)
    requires BlocksRead(z, d, words, calls, Call) && FragmentInOrder(calls, Call, f) && f.index.value < |calls|
    ensures a == OnFragment(z, f).0 && after == ReadAll(d, OnFragment(z, f).1)
    ensures BlocksRead(a, after, words, Merged(calls, f), Call)
  {
    a, after := OnFragment(z, f).0, ReadAll(d, OnFragment(z, f).1);
    ResolvesInOrder(z.indexer, calls, Call, f, z.toolBlockByIndex.Keys);
    ContinuedOut(z, f);
    ContinuationShown(z, d, words, calls, f, a);
  }

  lemma ContinuedOut(z: State, f: ToolFragment)
    requires z.started && f.index.Some?
    requires Resolve(z.indexer, f.index, f.id, z.toolBlockByIndex.Keys).1 in z.toolBlockByIndex
    ensures var index := Resolve(z.indexer, f.index, f.id, z.toolBlockByIndex.Keys).1;
            OnFragment(z, f).0 == z.(indexer := Resolve(z.indexer, f.index, f.id, z.toolBlockByIndex.Keys).0,
                                     lateSignatures := OnFragment(z, f).0.lateSignatures)
            && OnFragment(z, f).1 == if f.arguments != "" then [IngressStream.InputJsonDelta(z.toolBlockByIndex[index], f.arguments)] else []
  {
  }

  /** The document after a fragment that opens a call. */
  lemma OpenedOut(z: State, d: Doc, f: ToolFragment)
    requires Shaped(z, d)
    requires Resolve(z.indexer, f.index, f.id, z.toolBlockByIndex.Keys).1 !in z.toolBlockByIndex
    ensures var (x, index) := Resolve(z.indexer, f.index, f.id, z.toolBlockByIndex.Keys);
            var (a, out) := OnFragment(z, f);
            var after := ReadAll(d, out);
            && a == z.(started := true, indexer := x, curKind := ToolBlock, openMax := z.openMax + 1, curIndex := z.openMax + 1,
                       toolBlockByIndex := z.toolBlockByIndex[index := z.openMax + 1])
            && Shaped(a, after) && after.blocks == d.blocks + [ToolOut(BlockId(z, f.id, f.signature), f.name, f.arguments)]
  {
    var (s, starting) := EnsureStarted(z);
    var (x, index) := Resolve(z.indexer, f.index, f.id, z.toolBlockByIndex.Keys);
    var r := s.(indexer := x);
    var (b, opening) := OpenToolBlock(r, index, f.id, f.name, f.signature);
    var body := d.(phase := Body);
    StartShapes(z, d);
    OpenToolShapes(r, body, index, f.id, f.name, f.signature);
    var widened := ReadAll(body, opening);
    ArgumentsRead(b, widened, index, f.arguments);
    var args := if f.arguments != "" then [IngressStream.InputJsonDelta(b.toolBlockByIndex[index], f.arguments)] else [];
    ReadAppend(d, starting, opening);
    ReadAppend(d, starting + opening, args);
    assert "" + f.arguments == f.arguments;
  }

  /** A fragment that opens the next call. */
  lemma OpenerReads(z: State, d: Doc, words: string, calls: seq<ToolCall>, tail: Tail, f: ToolFragment)
    returns (a: State, after: Doc)
    requires BlocksRead(z, d, words, calls, tail) && FragmentInOrder(calls, tail, f) && f.index.value == |calls|
    ensures a == OnFragment(z, f).0 && after == ReadAll(d, OnFragment(z, f).1)
    ensures BlocksRead(a, after, words, Merged(calls, f), Call)
  {
    a, after := OnFragment(z, f).0, ReadAll(d, OnFragment(z, f).1);
    ResolvesInOrder(z.indexer, calls, tail, f, z.toolBlockByIndex.Keys);
    OpenedOut(z, d, f);
    OpenedCallShown(Spells(z.messageId), z.toolBlockByIndex, d.blocks, calls, f, z.openMax + 1);
  }

  lemma OneMoreShown(spell: Spelling, at: map<int, int>, tools: seq<OutBlock>, calls: seq<ToolCall>, c: ToolCall, index: int)
    requires CallsShown(spell, at, tools, calls)
    ensures CallsShown(spell, at[|calls| := index], tools + [ToolOut(spell(index, c.id, c.signature), c.name, c.arguments)], calls + [c])
  {
  }

  lemma OpenedCallShown(spell: Spelling, at: map<int, int>, blocks: seq<OutBlock>, calls: seq<ToolCall>, f: ToolFragment, index: int)
    requires CallsShown(spell, at, DocTools(blocks), calls)
    ensures var after := blocks + [ToolOut(spell(index, f.id, f.signature), f.name, f.arguments)];
            && CallsShown(spell, at[|calls| := index], DocTools(after),
                          calls + [ToolCall(f.id, f.name, f.arguments, f.signature)])
            && DocText(after) == DocText(blocks)
  {
    var shown := ToolOut(spell(index, f.id, f.signature), f.name, f.arguments);
    DocLast(blocks, shown);
    assert DocText(blocks) + "" == DocText(blocks);
    OneMoreShown(spell, at, DocTools(blocks), calls, ToolCall(f.id, f.name, f.arguments, f.signature), index);
  }

  lemma FragmentReads(z: State, d: Doc, words: string, calls: seq<ToolCall>, tail: Tail, f: ToolFragment)
    requires BlocksRead(z, d, words, calls, tail) && FragmentInOrder(calls, tail, f)
    ensures var (a, out) := OnFragment(z, f);
            BlocksRead(a, ReadAll(d, out), words, Merged(calls, f), Call)
  {
    if f.index.value == |calls| {
      var a, after := OpenerReads(z, d, words, calls, tail, f);
    } else {
      var a, after := ContinuationReads(z, d, words, calls, f);
    }
  }

  lemma {:induction false} FragmentsRead(z: State, d: Doc, words: string, calls: seq<ToolCall>, tail: Tail, fragments: seq<ToolFragment>)
    requires BlocksRead(z, d, words, calls, tail) && FragmentsInOrder(calls, tail, fragments)
    ensures var (a, out) := OnFragments(z, fragments);
            BlocksRead(a, ReadAll(d, out), words, MergedAll(calls, fragments), if fragments == [] then tail else Call)
  {
    if fragments != [] {
      var n := |fragments| - 1;
      var (a, before) := OnFragments(z, fragments[..n]);
      FragmentsRead(z, d, words, calls, tail, fragments[..n]);
      FragmentReads(a, ReadAll(d, before), words, MergedAll(calls, fragments[..n]), if n > 0 then Call else tail, fragments[n]);
      ReadAppend(d, before, OnFragment(a, fragments[n]).1);
    }
  }

  // --- One chunk ---

  /** Text grows the last block when it is open, and starts one otherwise. */
  lemma TextGrows(before: seq<OutBlock>, after: seq<OutBlock>, grows: bool, text: string)
    requires grows ==> before != [] && before[|before| - 1].TextOut?
    requires after == if grows then before[..|before| - 1] + [TextOut(before[|before| - 1].text + text)] else before + [TextOut("" + text)]
    ensures DocText(after) == DocText(before) + text && DocTools(after) == DocTools(before)
  {
    if grows {
      var rest, last := before[..|before| - 1], before[|before| - 1];
      DocSplit(before);
      DocLast(rest, TextOut(last.text + text));
      Regrouped(DocText(rest), last.text, text);
    } else {
      DocLast(before, TextOut("" + text));
    }
  }

  lemma Regrouped(a: string, b: string, c: string)
    ensures a + (b + c) == a + b + c && "" + c == c
  {
  }

  lemma TextDoc(z: State, d: Doc, text: string)
    requires Shaped(z, d) && text != ""
    ensures var after := ReadAll(d, OnText(z, text).1);
            DocText(after.blocks) == DocText(d.blocks) + text && DocTools(after.blocks) == DocTools(d.blocks)
  {
    TextShapes(z, d, text);
    TextGrows(d.blocks, ReadAll(d, OnText(z, text).1).blocks, z.curKind == TextBlock, text);
  }

  predicate SameCounters(z: State, a: State) {
    && a.messageId == z.messageId && a.promptTokens == z.promptTokens && a.cachedTokens == z.cachedTokens
    && a.completionTokens == z.completionTokens && a.finishReason == z.finishReason
  }

  lemma TextState(z: State, text: string)
    ensures var a := OnText(z, text).0;
            a.indexer == z.indexer && a.toolBlockByIndex == z.toolBlockByIndex && SameCounters(z, a)
  {
  }

  lemma TextReads(z: State, d: Doc, words: string, calls: seq<ToolCall>, tail: Tail, text: string)
    requires BlocksRead(z, d, words, calls, tail) && text != ""
    ensures var (a, out) := OnText(z, text);
            BlocksRead(a, ReadAll(d, out), words + text, calls, Words)
  {
    TextState(z, text);
    TextDoc(z, d, text);
    TextShapes(z, d, text);
    SameCallsRead(z, OnText(z, text).0, d, ReadAll(d, OnText(z, text).1), calls);
  }

  lemma SameCallsRead(z: State, y: State, d: Doc, after: Doc, calls: seq<ToolCall>)
    requires CallsRead(z, d, calls) && DocTools(after.blocks) == DocTools(d.blocks)
    requires y.toolBlockByIndex == z.toolBlockByIndex && y.messageId == z.messageId
    ensures CallsRead(y, after, calls)
  {
  }

  function Marked(z: State, c: Chunk): State {
    var counted := Counted(z, c.usage);
    if c.finish.Some? && c.finish.value != "" then counted.(finishReason := c.finish.value) else counted
  }

  /** The counters and the finish reason show in no block. */
  lemma CountersUnread(z: State, y: State, d: Doc, words: string, calls: seq<ToolCall>, tail: Tail)
    requires y == z.(promptTokens := y.promptTokens, cachedTokens := y.cachedTokens,
                     completionTokens := y.completionTokens, finishReason := y.finishReason)
    requires BlocksRead(z, d, words, calls, tail)
    ensures BlocksRead(y, d, words, calls, tail)
  {
    SameCallsRead(z, y, d, d, calls);
  }

  lemma MarkedState(z: State, c: Chunk)
    ensures var y := Marked(z, c);
            && y == z.(promptTokens := y.promptTokens, cachedTokens := y.cachedTokens,
                       completionTokens := y.completionTokens, finishReason := y.finishReason)
            && y.finishReason == if c.finish.Some? && c.finish.value != "" then c.finish.value else z.finishReason
  {
    CountedState(z, c.usage);
  }

  lemma CountedState(z: State, usage: Option<CompletionUsage>)
    ensures var y := Counted(z, usage);
            y == z.(promptTokens := y.promptTokens, cachedTokens := y.cachedTokens, completionTokens := y.completionTokens)
  {
  }

  lemma MarkedReads(z: State, d: Doc, words: string, calls: seq<ToolCall>, tail: Tail, c: Chunk)
    requires BlocksRead(z, d, words, calls, tail)
    ensures BlocksRead(Marked(z, c), d, words, calls, tail)
  {
    MarkedState(z, c);
    CountersUnread(z, Marked(z, c), d, words, calls, tail);
  }

  /** A chunk is its marks, then its text, then its fragments. */
  lemma ChunkParts(z: State, c: Chunk)
    ensures var (b, text) := OnText(Marked(z, c), c.delta.content);
            var (a, tools) := OnFragments(b, c.delta.tools);
            OnChunk(z, Decoded(c)) == (a, text + tools)
  {
  }

  /** Chunks kept in order are read as the message they fold to, text and calls. */
  lemma ChunkReads(z: State, d: Doc, m: Message, tail: Tail, c: Chunk)
    requires Reads(z, d, m, tail) && ChunkInOrder(m, tail, c)
    ensures var (a, out) := OnChunk(z, Decoded(c));
            Reads(a, ReadAll(d, out), Extended(m, Data(c)), TailAfter(tail, c))
  {
    MarkedReads(z, d, m.text, m.tools, tail, c);
    ContentReads(Marked(z, c), d, m.text, m.tools, tail, c);
    MarkedState(z, c);
    ChunkKeepsId(z, c);
    ChunkParts(z, c);
    ReadsExtended(OnChunk(z, Decoded(c)).0, ReadAll(d, OnChunk(z, Decoded(c)).1), m, tail, c);
  }

  lemma ReadsExtended(a: State, after: Doc, m: Message, tail: Tail, c: Chunk)
    requires BlocksRead(a, after, m.text + c.delta.content, MergedAll(m.tools, c.delta.tools), TailAfter(tail, c))
    requires a.finishReason == if c.finish.Some? && c.finish.value != "" then c.finish.value else if m.finish.Some? then m.finish.value else ""
    ensures Reads(a, after, Extended(m, Data(c)), TailAfter(tail, c))
  {
  }

  lemma ContentReads(z: State, d: Doc, words: string, calls: seq<ToolCall>, tail: Tail, c: Chunk)
    requires BlocksRead(z, d, words, calls, tail)
    requires FragmentsInOrder(calls, if c.delta.content != "" then Words else tail, c.delta.tools)
    ensures var (b, text) := OnText(z, c.delta.content);
            var (a, tools) := OnFragments(b, c.delta.tools);
            BlocksRead(a, ReadAll(d, text + tools), words + c.delta.content, MergedAll(calls, c.delta.tools), TailAfter(tail, c))
  {
    var (b, text) := OnText(z, c.delta.content);
    if c.delta.content != "" {
      TextReads(z, d, words, calls, tail, c.delta.content);
    } else {
      assert words + "" == words;
    }
    FragmentsRead(b, ReadAll(d, text), words + c.delta.content, calls, if c.delta.content != "" then Words else tail, c.delta.tools);
    ReadAppend(d, text, OnFragments(b, c.delta.tools).1);
  }

  // --- A whole stream of chunks ---

  function TailOf(frames: seq<Frame>): Tail {
    if frames == [] then Nothing
    else
      var tail := TailOf(frames[..|frames| - 1]);
      var f := frames[|frames| - 1];
      if f.Data? then TailAfter(tail, f.chunk) else tail
  }

  /** Every chunk keeps its calls in order. */
  predicate InOrder(frames: seq<Frame>) {
    frames == []
    || (var before, f := frames[..|frames| - 1], frames[|frames| - 1];
        InOrder(before) && (f.Data? ==> ChunkInOrder(Received(before), TailOf(before), f.chunk)))
  }

  /** The proxy hands the translator each chunk, drops comments, and finishes at the sentinel. */
  function Relayed(messageId: string, frames: seq<Frame>): (State, seq<OutEvent>) {
    if frames == [] then (Fresh(messageId), [])
    else
      var (z, before) := Relayed(messageId, frames[..|frames| - 1]);
      var (a, more) := match frames[|frames| - 1]
                       case Data(c) => OnChunk(z, Decoded(c))
                       case Ping => (z, [])
                       case Done => OnFinish(z);
      (a, before + more)
  }

  lemma FreshReads(messageId: string)
    ensures Reads(Fresh(messageId), UNREAD, NO_MESSAGE, Nothing)
  {
  }

  /** A stream of chunks in order is read, block by block, as the message it folds to. */
  lemma {:induction false} RelayReads(messageId: string, frames: seq<Frame>)
    requires InOrder(frames) && forall k :: 0 <= k < |frames| ==> frames[k] != Done
    ensures var (z, out) := Relayed(messageId, frames);
            Reads(z, ReadAll(UNREAD, out), Received(frames), TailOf(frames))
  {
    if frames == [] {
      FreshReads(messageId);
    } else {
      var before, f := frames[..|frames| - 1], frames[|frames| - 1];
      RelayReads(messageId, before);
      var (z, out) := Relayed(messageId, before);
      if f.Data? {
        ChunkReads(z, ReadAll(UNREAD, out), Received(before), TailOf(before), f.chunk);
        ReadAppend(UNREAD, out, OnChunk(z, Decoded(f.chunk)).1);
      } else {
        assert out + [] == out;
      }
    }
  }

  lemma FrameKeepsId(z: State, f: Frame)
    ensures var a := match f case Data(c) => OnChunk(z, Decoded(c)).0 case Ping => z case Done => OnFinish(z).0;
            a.messageId == z.messageId
  {
    if f.Data? {
      ChunkKeepsId(z, f.chunk);
      MarkedState(z, f.chunk);
    }
  }

  lemma {:induction false} RelayKeepsId(messageId: string, frames: seq<Frame>)
    ensures Relayed(messageId, frames).0.messageId == messageId
  {
    if frames != [] {
      var before, f := frames[..|frames| - 1], frames[|frames| - 1];
      RelayKeepsId(messageId, before);
      FrameKeepsId(Relayed(messageId, before).0, f);
    }
  }

  lemma FragmentKeeps(z: State, f: ToolFragment)
    ensures SameCounters(z, OnFragment(z, f).0)
  {
  }

  lemma {:induction false} FragmentsKeep(z: State, fragments: seq<ToolFragment>)
    ensures var a := OnFragments(z, fragments).0;
            SameCounters(z, a)
  {
    if fragments != [] {
      var n := |fragments| - 1;
      FragmentsKeep(z, fragments[..n]);
      FragmentKeeps(OnFragments(z, fragments[..n]).0, fragments[n]);
    }
  }

  lemma ChunkKeepsId(z: State, c: Chunk)
    ensures SameCounters(Marked(z, c), OnChunk(z, Decoded(c)).0)
  {
    ChunkParts(z, c);
    TextState(Marked(z, c), c.delta.content);
    FragmentsKeep(OnText(Marked(z, c), c.delta.content).0, c.delta.tools);
  }

  // --- Usage through both translators ---

  predicate Counts(z: State, usage: Option<CompletionUsage>) {
    match usage
    case None => z.promptTokens == 0 && z.cachedTokens == 0 && z.completionTokens == 0
    case Some(u) =>
      && z.promptTokens == (if u.prompt > 0 then u.prompt else 0)
      && z.cachedTokens == (if u.prompt > 0 && u.cached.Some? then u.cached.value else 0)
      && z.completionTokens == (if u.completion > 0 then u.completion else 0)
  }

  /** At most one chunk reports usage. */
  predicate UsageOnce(frames: seq<Frame>) {
    frames == []
    || (var before, f := frames[..|frames| - 1], frames[|frames| - 1];
        UsageOnce(before) && (f.Data? && f.chunk.usage.Some? ==> Received(before).usage.None?))
  }

  lemma {:induction false} UsageReads(messageId: string, frames: seq<Frame>)
    requires UsageOnce(frames) && forall k :: 0 <= k < |frames| ==> frames[k] != Done
    ensures Counts(Relayed(messageId, frames).0, Received(frames).usage)
  {
    if frames != [] {
      var before, f := frames[..|frames| - 1], frames[|frames| - 1];
      UsageReads(messageId, before);
      if f.Data? {
        ChunkKeepsId(Relayed(messageId, before).0, f.chunk);
      }
    }
  }
}
