/** What a client reads out of the Anthropic events the ingress translator writes: the block
    grammar, and the text and tool calls of the chat message behind them. */
module IngressGrammar {
  import opened Wrappers
  import opened ChatChunks
  import opened IngressStream

  // --- A client that insists on the grammar ---

  datatype Phase = Unstarted | AwaitingPing | Body | AwaitingStop | Complete | Broken

  datatype OutBlock = TextOut(text: string) | ToolOut(id: string, name: string, json: string)

  datatype Doc = Doc(phase: Phase, blocks: seq<OutBlock>, open: bool, stopReason: string,
                     inputTokens: int, cacheReadTokens: int, outputTokens: int)

  const UNREAD := Doc(Unstarted, [], false, "", 0, 0, 0)

  predicate AtOpen(d: Doc, index: int) {
    d.phase == Body && d.open && |d.blocks| > 0 && index == |d.blocks| - 1
  }

  predicate MayOpen(d: Doc, index: int) {
    d.phase == Body && !d.open && index == |d.blocks|
  }

  function Opening(d: Doc, b: OutBlock): Doc { d.(blocks := d.blocks + [b], open := true) }

  function Growing(d: Doc, b: OutBlock): Doc
    requires d.blocks != []
  {
    d.(blocks := d.blocks[..|d.blocks| - 1] + [b])
  }

  function Broke(d: Doc): Doc { d.(phase := Broken) }

  /** One event. Anything out of order, an index that is not the next or the open one, or a
      delta of the wrong kind breaks the document for good. */
  function Read(d: Doc, e: OutEvent): Doc {
    match e
    case MessageStart(i, c) => if d.phase == Unstarted then d.(phase := AwaitingPing) else Broke(d)
    case Ping => if d.phase == AwaitingPing then d.(phase := Body) else Broke(d)
    case StartText(i) => if MayOpen(d, i) then Opening(d, TextOut("")) else Broke(d)
    case StartTool(i, id, name) => if MayOpen(d, i) then Opening(d, ToolOut(id, name, "")) else Broke(d)
    case TextDelta(i, t) =>
      if AtOpen(d, i) && d.blocks[i].TextOut? then Growing(d, TextOut(d.blocks[i].text + t)) else Broke(d)
    case InputJsonDelta(i, p) =>
      if AtOpen(d, i) && d.blocks[i].ToolOut? then Growing(d, d.blocks[i].(json := d.blocks[i].json + p)) else Broke(d)
    case StopBlock(i) => if AtOpen(d, i) then d.(open := false) else Broke(d)
    case MessageDelta(stop, i, c, o) =>
      if d.phase == Body && !d.open then d.(phase := AwaitingStop, stopReason := stop, inputTokens := i, cacheReadTokens := c, outputTokens := o)
      else Broke(d)
    case MessageStop => if d.phase == AwaitingStop then d.(phase := Complete) else Broke(d)
  }

  function ReadAll(d: Doc, events: seq<OutEvent>): Doc {
    if events == [] then d else Read(ReadAll(d, events[..|events| - 1]), events[|events| - 1])
  }

  lemma {:induction false} ReadAppend(d: Doc, a: seq<OutEvent>, b: seq<OutEvent>)
    ensures ReadAll(d, a + b) == ReadAll(ReadAll(d, a), b)
  {
    if b == [] {
      assert a + b == a;
    } else {
      assert (a + b)[..|a + b| - 1] == a + b[..|b| - 1];
      ReadAppend(d, a, b[..|b| - 1]);
    }
  }

  lemma ReadOne(d: Doc, e: OutEvent)
    ensures ReadAll(d, [e]) == Read(d, e)
  {
    assert [e][..0] == [];
  }

  lemma ReadTwo(d: Doc, e: OutEvent, f: OutEvent)
    ensures ReadAll(d, [e, f]) == Read(Read(d, e), f)
  {
    assert [e, f][..1] == [e];
    ReadOne(d, e);
  }

  lemma {:induction false} BrokenStays(d: Doc, events: seq<OutEvent>)
    requires d.phase == Broken
    ensures ReadAll(d, events).phase == Broken
  {
    if events != [] {
      BrokenStays(d, events[..|events| - 1]);
    }
  }

  // --- The translator's state against the document so far ---

  ghost predicate Shaped(z: State, d: Doc) {
    && !z.finished
    && (if z.started then d.phase == Body else d == UNREAD && z.curKind == NoBlock && z.toolBlockByIndex == map[])
    && |d.blocks| == z.openMax + 1
    && (d.open <==> z.curKind != NoBlock)
    && (d.open ==> |d.blocks| > 0 && z.curIndex == z.openMax
                   && (z.curKind == TextBlock <==> d.blocks[z.curIndex].TextOut?))
    && (forall i :: i in z.toolBlockByIndex ==>
          0 <= z.toolBlockByIndex[i] < |d.blocks| && d.blocks[z.toolBlockByIndex[i]].ToolOut?)
  }

  lemma StartShapes(z: State, d: Doc)
    requires Shaped(z, d)
    ensures var (a, out) := EnsureStarted(z);
            && Shaped(a, ReadAll(d, out)) && a == z.(started := true)
            && ReadAll(d, out) == d.(phase := Body)
  {
    if !z.started {
      var out := EnsureStarted(z).1;
      ReadTwo(d, out[0], out[1]);
    }
  }

  lemma CloseShapes(z: State, d: Doc)
    requires Shaped(z, d)
    ensures var (a, out) := CloseOpenBlock(z);
            Shaped(a, ReadAll(d, out)) && ReadAll(d, out) == d.(open := false)
  {
    if z.curKind != NoBlock {
      ReadOne(d, StopBlock(z.curIndex));
    }
  }

  lemma OpenTextShapes(z: State, d: Doc)
    requires Shaped(z, d) && z.started
    ensures var (a, out) := OpenTextBlock(z);
            Shaped(a, ReadAll(d, out)) && a.curKind == TextBlock
            && ReadAll(d, out) == if z.curKind == TextBlock then d else Opening(d.(open := false), TextOut(""))
  {
    if z.curKind != TextBlock {
      var closing := CloseOpenBlock(z).1;
      CloseShapes(z, d);
      ReadAppend(d, closing, [StartText(z.openMax + 1)]);
      ReadOne(d.(open := false), StartText(z.openMax + 1));
    }
  }

  lemma OpenToolShapes(z: State, d: Doc, index: int, id: string, name: string, signature: string)
    requires Shaped(z, d) && z.started
    ensures var (a, out) := OpenToolBlock(z, index, id, name, signature);
            Shaped(a, ReadAll(d, out))
            && ReadAll(d, out) == Opening(d.(open := false), ToolOut(BlockId(z, id, signature), name, ""))
  {
    var closing := CloseOpenBlock(z).1;
    var start := StartTool(z.openMax + 1, BlockId(z, id, signature), name);
    CloseShapes(z, d);
    ReadAppend(d, closing, [start]);
    ReadOne(d.(open := false), start);
  }

  lemma TextShapes(z: State, d: Doc, text: string)
    requires Shaped(z, d) && text != ""
    ensures var (a, out) := OnText(z, text);
            var body := d.(phase := Body);
            var widened := if z.curKind == TextBlock then body else Opening(body.(open := false), TextOut(""));
            var last := widened.blocks[|widened.blocks| - 1];
            && Shaped(a, ReadAll(d, out)) && a.curKind == TextBlock && last.TextOut?
            && ReadAll(d, out) == Growing(widened, TextOut(last.text + text))
  {
    var (a, starting) := EnsureStarted(z);
    var (b, opening) := OpenTextBlock(a);
    StartShapes(z, d);
    var body := d.(phase := Body);
    OpenTextShapes(a, body);
    var mid := ReadAll(body, opening);
    ReadAppend(d, starting, opening);
    ReadAppend(d, starting + opening, [IngressStream.TextDelta(b.curIndex, text)]);
    ReadOne(mid, IngressStream.TextDelta(b.curIndex, text));
  }

  // --- When the grammar holds ---

  /** Where a fragment's arguments would go: a call opening now, or the block open already. */
  predicate AddressesOpen(z: State, f: ToolFragment) {
    var index := Resolve(z.indexer, f.index, f.id, z.toolBlockByIndex.Keys).1;
    f.arguments == "" || index !in z.toolBlockByIndex || (z.curKind == ToolBlock && z.toolBlockByIndex[index] == z.curIndex)
  }

  /** A fragment keeps to the grammar exactly when its arguments address the open block:
      fragments of two calls must not interleave, nor text cut into one. */
  lemma FragmentGrammar(z: State, d: Doc, f: ToolFragment)
    requires Shaped(z, d)
    ensures var (a, out) := OnFragment(z, f);
            var after := ReadAll(d, out);
            && (after.phase != Broken <==> AddressesOpen(z, f))
            && (AddressesOpen(z, f) ==> Shaped(a, after))
  {
    var (a, starting) := EnsureStarted(z);
    var (x, index) := Resolve(a.indexer, f.index, f.id, a.toolBlockByIndex.Keys);
    var r := a.(indexer := x);
    StartShapes(z, d);
    var body := ReadAll(d, starting);
    assert Shaped(r, body);
    var opening: seq<OutEvent> := [];
    var b := r;
    if index in r.toolBlockByIndex {
      b := if f.signature != "" then r.(lateSignatures := r.lateSignatures + 1) else r;
    } else {
      opening := OpenToolBlock(r, index, f.id, f.name, f.signature).1;
      b := OpenToolBlock(r, index, f.id, f.name, f.signature).0;
      OpenToolShapes(r, body, index, f.id, f.name, f.signature);
    }
    var mid := ReadAll(body, opening);
    assert Shaped(b, mid);
    ReadAppend(d, starting, opening);
    ArgumentsGrammar(b, mid, index, f.arguments);
    var args := if f.arguments != "" then [InputJsonDelta(b.toolBlockByIndex[index], f.arguments)] else [];
    ReadAppend(d, starting + opening, args);
  }

  lemma ArgumentsGrammar(z: State, d: Doc, index: int, arguments: string)
    requires Shaped(z, d) && z.started && index in z.toolBlockByIndex
    ensures var out := if arguments != "" then [InputJsonDelta(z.toolBlockByIndex[index], arguments)] else [];
            var after := ReadAll(d, out);
            && (after.phase != Broken <==> arguments == "" || (z.curKind == ToolBlock && z.toolBlockByIndex[index] == z.curIndex))
            && (after.phase != Broken ==> Shaped(z, after))
  {
    if arguments != "" {
      ReadOne(d, InputJsonDelta(z.toolBlockByIndex[index], arguments));
    }
  }

  predicate AllAddressOpen(z: State, fragments: seq<ToolFragment>) {
    fragments == []
    || (AllAddressOpen(z, fragments[..|fragments| - 1])
        && AddressesOpen(OnFragments(z, fragments[..|fragments| - 1]).0, fragments[|fragments| - 1]))
  }

  lemma {:induction false} FragmentsGrammar(z: State, d: Doc, fragments: seq<ToolFragment>)
    requires Shaped(z, d)
    ensures var (a, out) := OnFragments(z, fragments);
            var after := ReadAll(d, out);
            && (after.phase != Broken <==> AllAddressOpen(z, fragments))
            && (AllAddressOpen(z, fragments) ==> Shaped(a, after))
  {
    if fragments != [] {
      var n := |fragments| - 1;
      var (a, before) := OnFragments(z, fragments[..n]);
      var (b, more) := OnFragment(a, fragments[n]);
      FragmentsGrammar(z, d, fragments[..n]);
      ReadAppend(d, before, more);
      if AllAddressOpen(z, fragments[..n]) {
        FragmentGrammar(a, ReadAll(d, before), fragments[n]);
      } else {
        BrokenStays(ReadAll(d, before), more);
      }
    }
  }

  /** The state a chunk's tool fragments meet: usage, finish reason and text come first. */
  function AfterText(z: State, chunk: Incoming): State
    requires chunk.choice.Some?
  {
    var c := chunk.choice.value;
    var counted := Counted(z, chunk.usage);
    OnText(if c.finish.Some? && c.finish.value != "" then counted.(finishReason := c.finish.value) else counted, c.delta.content).0
  }

  predicate ChunkAddressesOpen(z: State, chunk: Incoming) {
    chunk.choice.None? || AllAddressOpen(AfterText(z, chunk), chunk.choice.value.delta.tools)
  }

  lemma CountedShapes(z: State, d: Doc, usage: Option<CompletionUsage>)
    requires Shaped(z, d)
    ensures Shaped(Counted(z, usage), d) && forall reason :: Shaped(Counted(z, usage).(finishReason := reason), d)
  {
  }

  /** Text and fragments, once the counters are in. */
  lemma DeltaGrammar(z: State, d: Doc, delta: Delta)
    requires Shaped(z, d)
    ensures var (b, text) := OnText(z, delta.content);
            var (a, tools) := OnFragments(b, delta.tools);
            var after := ReadAll(d, text + tools);
            && (after.phase != Broken <==> AllAddressOpen(b, delta.tools))
            && (AllAddressOpen(b, delta.tools) ==> Shaped(a, after))
  {
    var (b, text) := OnText(z, delta.content);
    if delta.content != "" { TextShapes(z, d, delta.content); }
    FragmentsGrammar(b, ReadAll(d, text), delta.tools);
    ReadAppend(d, text, OnFragments(b, delta.tools).1);
  }

  lemma ChunkGrammar(z: State, d: Doc, chunk: Incoming)
    requires Shaped(z, d)
    ensures var (a, out) := OnChunk(z, chunk);
            var after := ReadAll(d, out);
            && (after.phase != Broken <==> ChunkAddressesOpen(z, chunk))
            && (ChunkAddressesOpen(z, chunk) ==> Shaped(a, after))
  {
    var counted := Counted(z, chunk.usage);
    CountedShapes(z, d, chunk.usage);
    if chunk.choice.Some? {
      var c := chunk.choice.value;
      DeltaGrammar(if c.finish.Some? && c.finish.value != "" then counted.(finishReason := c.finish.value) else counted, d, c.delta);
    }
  }

  function Translated(messageId: string, chunks: seq<Incoming>): (State, seq<OutEvent>) {
    if chunks == [] then (Fresh(messageId), [])
    else
      var (z, before) := Translated(messageId, chunks[..|chunks| - 1]);
      var (a, more) := OnChunk(z, chunks[|chunks| - 1]);
      (a, before + more)
  }

  predicate Contiguous(messageId: string, chunks: seq<Incoming>) {
    chunks == []
    || (Contiguous(messageId, chunks[..|chunks| - 1])
        && ChunkAddressesOpen(Translated(messageId, chunks[..|chunks| - 1]).0, chunks[|chunks| - 1]))
  }

  lemma {:induction false} RunGrammar(messageId: string, chunks: seq<Incoming>)
    ensures var (z, out) := Translated(messageId, chunks);
            var d := ReadAll(UNREAD, out);
            && (d.phase != Broken <==> Contiguous(messageId, chunks))
            && (Contiguous(messageId, chunks) ==> Shaped(z, d))
  {
    if chunks != [] {
      var n := |chunks| - 1;
      var (z, before) := Translated(messageId, chunks[..n]);
      var (a, more) := OnChunk(z, chunks[n]);
      RunGrammar(messageId, chunks[..n]);
      ReadAppend(UNREAD, before, more);
      if Contiguous(messageId, chunks[..n]) {
        ChunkGrammar(z, ReadAll(UNREAD, before), chunks[n]);
      } else {
        BrokenStays(ReadAll(UNREAD, before), more);
      }
    }
  }

  lemma FinishCompletes(z: State, d: Doc)
    requires Shaped(z, d)
    ensures var (a, out) := OnFinish(z);
            var (input, cacheRead) := SplitPrompt(z.promptTokens, z.cachedTokens);
            && a.finished
            && ReadAll(d, out) == Doc(Complete, d.blocks, false, StopReasonFor(z.finishReason, z.toolBlockByIndex != map[]),
                                      input, cacheRead, z.completionTokens)
  {
    var f := z.(finished := true);
    var (a, starting) := EnsureStarted(f);
    var (b, closing) := CloseOpenBlock(a);
    StartShapes(z, d);
    CloseShapes(EnsureStarted(z).0, ReadAll(d, starting));
    ReadAppend(d, starting, closing);
    var (input, cacheRead) := SplitPrompt(b.promptTokens, b.cachedTokens);
    var delta := IngressStream.MessageDelta(StopReasonFor(b.finishReason, b.toolBlockByIndex != map[]), input, cacheRead, b.completionTokens);
    ReadAppend(d, starting + closing, [delta, IngressStream.MessageStop]);
    ReadTwo(ReadAll(d, starting + closing), delta, IngressStream.MessageStop);
  }

  /** Whatever chunks come, the finished event sequence is message_start, ping, any number of
      whole blocks under dense indices with one open at a time, message_delta, message_stop,
      exactly when every argument fragment addresses the open block. */
  lemma EventGrammar(messageId: string, chunks: seq<Incoming>)
    ensures var (z, out) := Translated(messageId, chunks);
            ReadAll(UNREAD, out + OnFinish(z).1).phase == Complete <==> Contiguous(messageId, chunks)
  {
    var (z, out) := Translated(messageId, chunks);
    var d := ReadAll(UNREAD, out);
    RunGrammar(messageId, chunks);
    ReadAppend(UNREAD, out, OnFinish(z).1);
    if Contiguous(messageId, chunks) {
      FinishCompletes(z, d);
    } else {
      BrokenStays(d, OnFinish(z).1);
    }
  }
}
