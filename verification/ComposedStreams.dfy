/** An Anthropic upstream seen by an Anthropic client through both stream translators: the
    egress chunks keep each tool call contiguous, so the ingress events obey the block grammar
    and carry the same text and the same calls. */
module ComposedStreams {
  import opened Wrappers
  import opened GoText
  import opened ChatChunks
  import opened SortedInts
  import opened RelayedChunks
  import ES = EgressStream
  import opened EgressAgreement
  import IngressStream
  import IG = IngressGrammar

  // --- Well-bracketed upstreams ---

  ghost predicate OneOpen(bs: seq<Building>) {
    forall k :: 0 <= k < |bs| - 1 ==> bs[k].stopped
  }

  predicate AtLast(bs: seq<Building>, index: int) {
    |bs| > 0 && bs[|bs| - 1].index == index && !bs[|bs| - 1].stopped
  }

  /** One block at a time: a block starts only when the ones before it stopped, deltas and stops
      reach the open block, and named tool calls have names of their own. */
  ghost predicate Bracketed(bs: seq<Building>, ev: ES.Event) {
    Allowed(bs, ev)
    && match ev
       case BlockStart(_, Some(b)) =>
         && (forall k :: 0 <= k < |bs| ==> bs[k].stopped)
         && (b.ToolUse? && b.id != "" ==> forall k :: 0 <= k < |bs| && bs[k].block.ToolUse? ==> bs[k].block.id != b.id)
       case BlockDeltaEvent(i, Some(_)) => AtLast(bs, i)
       case BlockStop(i) => AtLast(bs, i)
       case _ => true
  }

  ghost predicate WellBracketed(events: seq<ES.Event>) {
    events == []
    || (WellBracketed(events[..|events| - 1]) && Bracketed(Assembled(events[..|events| - 1]), events[|events| - 1]))
  }

  lemma {:induction false} BracketedIsWellFormed(events: seq<ES.Event>)
    requires WellBracketed(events)
    ensures WellFormed(events) && OneOpen(Assembled(events))
  {
    if events != [] {
      BracketedIsWellFormed(events[..|events| - 1]);
    }
  }

  // --- The egress chunks keep their calls in order ---

  predicate ToolOpen(bs: seq<Building>) {
    |bs| > 0 && bs[|bs| - 1].block.ToolUse? && !bs[|bs| - 1].stopped
  }

  /** While a tool block is open, nothing has come between its fragments. */
  ghost predicate Following(s: ES.State, m: Message, tail: Tail, bs: seq<Building>) {
    Agrees(s, m, bs) && OneOpen(bs) && (ToolOpen(bs) ==> tail == Call)
  }

  /** The frames of an event: none, a comment, or one chunk that keeps its calls in order. */
  ghost predicate FrameInOrder(m: Message, tail: Tail, frames: seq<Frame>) {
    |frames| <= 1
    && (frames != [] ==>
          && frames[0] != Done
          && (frames[0].Data? ==> ChunkInOrder(m, tail, frames[0].chunk) && frames[0].chunk.usage.None?))
  }

  function TailThrough(tail: Tail, frames: seq<Frame>): Tail {
    if frames == [] || !frames[0].Data? then tail else TailAfter(tail, frames[0].chunk)
  }

  lemma NoFragments(m: Message, tail: Tail, c: Chunk)
    requires c.delta.tools == []
    ensures ChunkInOrder(m, tail, c)
  {
  }

  lemma OneFragment(m: Message, tail: Tail, c: Chunk, f: ToolFragment)
    requires c.delta.content == "" && c.delta.tools == [f] && FragmentInOrder(m.tools, tail, f)
    ensures ChunkInOrder(m, tail, c)
  {
    assert [f][..0] == [];
  }

  lemma {:induction false} LastTool(bs: seq<Building>)
    requires ToolOpen(bs)
    ensures |Tools(bs)| > 0 && Tools(bs)[|Tools(bs)| - 1] == bs[|bs| - 1]
  {
  }

  /** Arguments for the open tool block are the last call's. */
  lemma ArgumentsInOrder(s: ES.State, m: Message, tail: Tail, bs: seq<Building>, args: string, role: string)
    requires Following(s, m, tail, bs) && ToolOpen(bs)
    ensures var index := bs[|bs| - 1].index;
            && index in s.toolIndexByBlock
            && ChunkInOrder(m, tail, Chunk(ES.Arguments(s.toolIndexByBlock[index], args).(role := role), None, None))
  {
    LastTool(bs);
    var k := |Tools(bs)| - 1;
    assert ToolAgrees(s, m.tools[k], Tools(bs)[k], k);
    var delta := ES.Arguments(k, args).(role := role);
    OneFragment(m, tail, Chunk(delta, None, None), ToolFragment(Some(k), "", "", "", args, ""));
  }

  lemma StartInOrder(s: ES.State, m: Message, tail: Tail, bs: seq<Building>, index: int, block: ES.Block)
    requires Following(s, m, tail, bs) && Bracketed(bs, ES.BlockStart(index, Some(block)))
    ensures var frames := ES.StartBlock(s, index, Some(block)).1.frames;
            && FrameInOrder(m, tail, frames)
            && (block.ToolUse? ==> TailThrough(tail, frames) == Call)
  {
    match block
    case ToolUse(id, name, input) =>
      var f := ToolFragment(Some(s.toolCalls), id, "function", name, "", "");
      var c := Chunk(ES.Header(s.toolCalls, id, name).(role := if s.started then "" else "assistant"), None, None);
      forall k | 0 <= k < |m.tools| && id != "" ensures m.tools[k].id != id {
        var b := Tools(bs)[k];
        assert ToolAgrees(s, m.tools[k], b, k);
        assert b in bs;
      }
      OneFragment(m, tail, c, f);
    case _ =>
  }

  lemma DeltaInOrder(s: ES.State, m: Message, tail: Tail, bs: seq<Building>, index: int, delta: ES.BlockDelta)
    requires Following(s, m, tail, bs) && Bracketed(bs, ES.BlockDeltaEvent(index, Some(delta)))
    ensures var frames := ES.OnDelta(s, index, Some(delta)).1.frames;
            FrameInOrder(m, tail, frames) && (ToolOpen(bs) ==> TailThrough(tail, frames) == Call)
  {
    match delta
    case TextDelta(t) =>
      if t != "" { var k: nat :| NewestText(bs, k) && bs[k].index == index; OnlyLast(bs, k); }
    case ThinkingDelta(t) =>
      if t != "" { var k: nat :| NewestThinking(bs, k) && bs[k].index == index; OnlyLast(bs, k); }
    case InputJsonDelta(p) =>
      if p != "" {
        var k: nat :| OpenTool(bs, k) && bs[k].index == index;
        OnlyLast(bs, k);
        ArgumentsInOrder(s, m, tail, bs, p, if s.started then "" else "assistant");
      }
    case OtherDelta =>
  }

  /** Indices are distinct, so the block a delta names is the last. */
  lemma OnlyLast(bs: seq<Building>, k: nat)
    requires DistinctIndices(bs) && k < |bs| && bs[k].index == bs[|bs| - 1].index
    ensures k == |bs| - 1
  {
  }

  lemma StopInOrder(s: ES.State, m: Message, tail: Tail, bs: seq<Building>, index: int)
    requires Following(s, m, tail, bs) && AtLast(bs, index)
    ensures FrameInOrder(m, tail, ES.StopBlock(s, index).1.frames)
  {
    if index in s.toolIndexByBlock && index !in s.toolArgsSeen {
      var k := s.toolIndexByBlock[index];
      assert Tools(bs)[k] in bs;
      assert bs[|bs| - 1] == Tools(bs)[k];
      ArgumentsInOrder(s, m, tail, bs, ES.Owed(s, index), if s.started then "" else "assistant");
    }
  }

  lemma EventInOrder(s: ES.State, m: Message, tail: Tail, bs: seq<Building>, ev: ES.Event)
    requires Following(s, m, tail, bs) && !s.finished && Bracketed(bs, ev)
    ensures var frames := ES.Step(s, ev).1.frames;
            FrameInOrder(m, tail, frames) && (ToolOpen(AssembledOne(bs, ev)) ==> TailThrough(tail, frames) == Call)
  {
    match ev
    case BlockStart(i, Some(b)) => StartInOrder(s, m, tail, bs, i, b);
    case BlockDeltaEvent(i, Some(d)) => DeltaInOrder(s, m, tail, bs, i, d);
    case BlockStop(i) => StopInOrder(s, m, tail, bs, i);
    case _ =>
  }

  /** Nothing written so far, or a prefix in order and one more chunk in order. */
  ghost predicate Ordered(frames: seq<Frame>) {
    InOrder(frames) && forall k :: 0 <= k < |frames| ==> frames[k] != Done
  }

  lemma OrderedSnoc(frames: seq<Frame>, f: Frame)
    requires Ordered(frames) && f != Done
    requires f.Data? ==> ChunkInOrder(Received(frames), TailOf(frames), f.chunk)
    ensures Ordered(frames + [f])
    ensures TailOf(frames + [f]) == if f.Data? then TailAfter(TailOf(frames), f.chunk) else TailOf(frames)
  {
    assert (frames + [f])[..|frames|] == frames;
  }

  lemma OrderedOne(frames: seq<Frame>, more: seq<Frame>)
    requires Ordered(frames) && FrameInOrder(Received(frames), TailOf(frames), more)
    ensures Ordered(frames + more) && TailOf(frames + more) == TailThrough(TailOf(frames), more)
  {
    if more == [] {
      assert frames + more == frames;
    } else {
      assert more == [more[0]];
      OrderedSnoc(frames, more[0]);
    }
  }

  lemma UsageOnceMore(frames: seq<Frame>, more: seq<Frame>)
    requires UsageOnce(frames) && FrameInOrder(Received(frames), TailOf(frames), more)
    ensures UsageOnce(frames + more)
  {
    if more == [] {
      assert frames + more == frames;
    } else {
      assert frames + more == frames + [more[0]];
      assert (frames + [more[0]])[..|frames|] == frames;
    }
  }

  lemma {:induction false} StreamInOrder(events: seq<ES.Event>)
    requires WellBracketed(events)
    ensures var (s, frames) := Streamed(events);
            Ordered(frames) && UsageOnce(frames) && (ToolOpen(Assembled(events)) ==> TailOf(frames) == Call)
  {
    if events != [] {
      var before, ev := events[..|events| - 1], events[|events| - 1];
      StreamInOrder(before);
      BracketedIsWellFormed(before);
      StaysInStep(before);
      var (s, frames) := Streamed(before);
      EventInOrder(s, Received(frames), TailOf(frames), Assembled(before), ev);
      OrderedOne(frames, ES.Step(s, ev).1.frames);
      UsageOnceMore(frames, ES.Step(s, ev).1.frames);
    }
  }

  // --- The end of the stream ---

  /** Only the open tool block can still owe its arguments. */
  lemma PendingIsLast(s: ES.State, m: Message, tail: Tail, bs: seq<Building>)
    requires Following(s, m, tail, bs)
    ensures ES.Pending(s) == {} || (ToolOpen(bs) && ES.Pending(s) == {bs[|bs| - 1].index})
  {
    forall i | i in ES.Pending(s) ensures ToolOpen(bs) && i == bs[|bs| - 1].index {
      var k := s.toolIndexByBlock[i];
      assert ToolAgrees(s, m.tools[k], Tools(bs)[k], k);
      assert Tools(bs)[k] in bs;
    }
  }

  lemma ListingOfNone()
    ensures Listing({}) == []
  {
  }

  lemma ListingOfOne(i: int)
    ensures Listing({i}) == [i]
  {
    var list := Listing({i});
    assert Lists([i], {i});
    AscendingUnique(list, [i], {i});
  }

  /** The chunks a close writes: the arguments still owed, if any, then the last chunk. */
  lemma CloseInOrder(s: ES.State, m: Message, tail: Tail, bs: seq<Building>)
    requires Following(s, m, tail, bs) && !s.finished && !s.failed
    ensures var (mid, owed) := ES.StopAll(s.(finished := true), Listing(ES.Pending(s)));
            FrameInOrder(m, tail, owed)
  {
    PendingIsLast(s, m, tail, bs);
    var list := Listing(ES.Pending(s));
    if ES.Pending(s) == {} {
      ListingOfNone();
    } else {
      var i := bs[|bs| - 1].index;
      ListingOfOne(i);
      StopAllOne(s, i);
      StopInOrder(s, m, tail, bs, i);
    }
  }

  lemma StopAllOne(s: ES.State, i: int)
    ensures ES.StopAll(s.(finished := true), [i]).1 == ES.StopBlock(s, i).1.frames
  {
    assert [i][..0] == [];
  }

  lemma TerminalInOrder(s: ES.State, frames: seq<Frame>)
    requires Ordered(frames) && UsageOnce(frames) && Received(frames).usage.None?
    ensures var last := ES.Terminal(s).1.frames;
            && |last| == 2 && last[1] == Done && Ordered(frames + [last[0]]) && UsageOnce(frames + [last[0]])
  {
    var last := ES.Terminal(s).1.frames;
    assert (frames + [last[0]])[..|frames|] == frames;
    NoFragments(Received(frames), TailOf(frames), last[0].chunk);
  }

  /** The stream closed by message_stop: chunks in order, then the sentinel. */
  lemma ClosedInOrder(events: seq<ES.Event>) returns (chunks: seq<Frame>)
    requires WellBracketed(events)
    ensures Streamed(events + [ES.MessageStop]).1 == chunks + [Done]
    ensures Ordered(chunks) && UsageOnce(chunks)
  {
    BracketedIsWellFormed(events);
    StaysInStep(events);
    StreamInOrder(events);
    var (s, frames) := Streamed(events);
    var (mid, owed) := ES.StopAll(s.(finished := true), Listing(ES.Pending(s)));
    OwedInOrder(s, frames, Assembled(events));
    TerminalInOrder(mid, frames + owed);
    StopFrames(events);
    chunks := frames + owed + [ES.Terminal(mid).1.frames[0]];
  }

  lemma StopFrames(events: seq<ES.Event>)
    requires !Streamed(events).0.finished && !Streamed(events).0.failed
    ensures var (s, frames) := Streamed(events);
            var (mid, owed) := ES.StopAll(s.(finished := true), Listing(ES.Pending(s)));
            Streamed(events + [ES.MessageStop]).1 == frames + owed + [ES.Terminal(mid).1.frames[0]] + [Done]
  {
    var (s, frames) := Streamed(events);
    var (mid, owed) := ES.StopAll(s.(finished := true), Listing(ES.Pending(s)));
    var last := ES.Terminal(mid).1.frames;
    StreamedOne(events, ES.MessageStop);
    assert last == [last[0]] + [Done];
    assert frames + (owed + last) == frames + owed + [last[0]] + [Done];
  }

  lemma OwedInOrder(s: ES.State, frames: seq<Frame>, bs: seq<Building>)
    requires Following(s, Received(frames), TailOf(frames), bs) && !s.finished && !s.failed
    requires Ordered(frames) && UsageOnce(frames)
    ensures var (mid, owed) := ES.StopAll(s.(finished := true), Listing(ES.Pending(s)));
            Ordered(frames + owed) && UsageOnce(frames + owed) && Received(frames + owed).usage.None?
  {
    var (mid, owed) := ES.StopAll(s.(finished := true), Listing(ES.Pending(s)));
    CloseInOrder(s, Received(frames), TailOf(frames), bs);
    OrderedOne(frames, owed);
    UsageOnceMore(frames, owed);
    FoldedAppend(NO_MESSAGE, frames, owed);
    OwedUsage(Received(frames), TailOf(frames), owed);
  }

  lemma OwedUsage(m: Message, tail: Tail, owed: seq<Frame>)
    requires FrameInOrder(m, tail, owed) && m.usage.None?
    ensures Folded(m, owed).usage.None?
  {
    if owed != [] {
      assert owed == [owed[0]];
      FoldedOne(m, owed[0]);
    }
  }

  // --- The composition ---

  /** Equal but for what an Anthropic client adds: a synthetic id for an unnamed call, and
      arguments up to JSON compaction. */
  ghost predicate SameTool(messageId: string, shown: IG.OutBlock, call: ToolCall) {
    && shown.ToolOut? && shown.name == call.name && Compact(shown.json) == call.arguments
    && (call.id != "" ==> shown.id == call.id)
    && (call.id == "" ==> exists at :: shown.id == IngressStream.SyntheticToolUseId(messageId, at))
  }

  /** What the client's finished document says of the upstream's response. */
  ghost predicate SameDocument(messageId: string, d: IG.Doc, resp: ES.Response) {
    var c := ES.BuildChatCompletion(resp);
    var tools := DocTools(d.blocks);
    && d.phase == IG.Complete
    && DocText(d.blocks) == c.text
    && |tools| == |c.tools| && (forall k :: 0 <= k < |c.tools| ==> SameTool(messageId, tools[k], c.tools[k]))
    && d.stopReason == IngressStream.StopReasonFor(ES.MapFinishReason(resp.stopReason), c.tools != [])
  }

  /** A well-bracketed upstream through both translators: the events obey the block grammar
      to the end, with the same text and every call's id, name and arguments, in order. */
  lemma ComposedStreamsAgree(messageId: string, events: seq<ES.Event>)
    requires WellBracketed(events) && forall b :: b in Assembled(events) ==> ObjectInput(b)
    ensures SameDocument(messageId,
                         IG.ReadAll(IG.UNREAD, Relayed(messageId, Streamed(events + [ES.MessageStop]).1).1),
                         AssembledResponse(events))
  {
    BracketedIsWellFormed(events);
    StreamingAgrees(events);
    var chunks := ClosedInOrder(events);
    FoldedAppend(NO_MESSAGE, chunks, [Done]);
    FoldedOne(Received(chunks), Done);
    RelayReads(messageId, chunks);
    RelayKeepsId(messageId, chunks);
    FinishedDocument(messageId, chunks, AssembledResponse(events));
  }

  lemma {:induction false} Unsigned(blocks: seq<ES.Block>)
    ensures forall k :: 0 <= k < |ES.ToolCallsOf(blocks)| ==> ES.ToolCallsOf(blocks)[k].signature == ""
  {
    if blocks != [] {
      Unsigned(blocks[..|blocks| - 1]);
    }
  }

  lemma ShownAs(z: IngressStream.State, at: int, streamed: ToolCall, call: ToolCall)
    requires SameCall(streamed, call) && call.signature == ""
    ensures SameTool(z.messageId, IG.ToolOut(IdAt(z.messageId, at, streamed.id, streamed.signature), streamed.name, streamed.arguments), call)
  {
  }

  lemma ToolsShown(z: IngressStream.State, d: IG.Doc, calls: seq<ToolCall>, resp: ES.Response)
    requires CallsRead(z, d, calls)
    requires var c := ES.ToolCallsOf(resp.content); |calls| == |c| && forall k :: 0 <= k < |c| ==> SameCall(calls[k], c[k])
    ensures var tools, c := DocTools(d.blocks), ES.ToolCallsOf(resp.content);
            |tools| == |c| && forall k :: 0 <= k < |c| ==> SameTool(z.messageId, tools[k], c[k])
    ensures z.toolBlockByIndex == map[] <==> ES.ToolCallsOf(resp.content) == []
  {
    var c := ES.ToolCallsOf(resp.content);
    Unsigned(resp.content);
    forall k | 0 <= k < |c| ensures SameTool(z.messageId, DocTools(d.blocks)[k], c[k]) {
      assert SameCall(calls[k], c[k]);
      ShownAs(z, z.toolBlockByIndex[k], calls[k], c[k]);
    }
    assert (forall i :: i !in z.toolBlockByIndex) ==> z.toolBlockByIndex == map[];
    if c != [] { assert 0 in z.toolBlockByIndex; }
  }

  /** The sentinel turns the document read so far into the finished one. */
  lemma FinishRelay(messageId: string, chunks: seq<Frame>)
    requires var (z, out) := Relayed(messageId, chunks); IG.Shaped(z, IG.ReadAll(IG.UNREAD, out))
    ensures var (z, out) := Relayed(messageId, chunks);
            var d := IG.ReadAll(IG.UNREAD, out);
            var (input, cacheRead) := IngressStream.SplitPrompt(z.promptTokens, z.cachedTokens);
            IG.ReadAll(IG.UNREAD, Relayed(messageId, chunks + [Done]).1)
            == IG.Doc(IG.Complete, d.blocks, false, IngressStream.StopReasonFor(z.finishReason, z.toolBlockByIndex != map[]),
                      input, cacheRead, z.completionTokens)
  {
    var (z, out) := Relayed(messageId, chunks);
    IG.FinishCompletes(z, IG.ReadAll(IG.UNREAD, out));
    IG.ReadAppend(IG.UNREAD, out, IngressStream.OnFinish(z).1);
    assert (chunks + [Done])[..|chunks|] == chunks;
  }

  lemma FinishedDocument(messageId: string, chunks: seq<Frame>, resp: ES.Response)
    requires var (z, out) := Relayed(messageId, chunks);
             z.messageId == messageId && Reads(z, IG.ReadAll(IG.UNREAD, out), Received(chunks), TailOf(chunks))
    requires SameMessage(Received(chunks), ES.BuildChatCompletion(resp))
    ensures SameDocument(messageId, IG.ReadAll(IG.UNREAD, Relayed(messageId, chunks + [Done]).1), resp)
  {
    var (z, out) := Relayed(messageId, chunks);
    FinishRelay(messageId, chunks);
    ToolsShown(z, IG.ReadAll(IG.UNREAD, out), Received(chunks).tools, resp);
  }

  /** The stop reason survives the round trip exactly for the reasons the chat side can name;
      every other one becomes the ordinary end of a turn, or a call to run. */
  lemma StopReasonSurvives(stopReason: string, hasTools: bool)
    ensures IngressStream.StopReasonFor(ES.MapFinishReason(stopReason), hasTools) == stopReason
            <==> stopReason in {"max_tokens", "tool_use", "refusal"} || (stopReason == "end_turn" && !hasTools)
    ensures stopReason !in {"max_tokens", "tool_use", "refusal"} ==>
              IngressStream.StopReasonFor(ES.MapFinishReason(stopReason), hasTools) == if hasTools then "tool_use" else "end_turn"
  {
    assert "length" != "tool_calls" && "content_filter" != "tool_calls" && "content_filter" != "length";
  }

  /** Non-negative counts come through: the cache reads apart, cache writes folded into the input. */
  lemma ComposedUsageAgrees(messageId: string, events: seq<ES.Event>)
    requires WellBracketed(events) && forall b :: b in Assembled(events) ==> ObjectInput(b)
    requires var u := UsageOf(events); u.input >= 0 && u.output >= 0 && u.cacheCreation >= 0 && u.cacheRead >= 0
    ensures var d := IG.ReadAll(IG.UNREAD, Relayed(messageId, Streamed(events + [ES.MessageStop]).1).1);
            var u := UsageOf(events);
            && d.inputTokens == u.input + u.cacheCreation && d.cacheReadTokens == u.cacheRead && d.outputTokens == u.output
  {
    BracketedIsWellFormed(events);
    StreamingAgrees(events);
    var chunks := ClosedInOrder(events);
    FoldedAppend(NO_MESSAGE, chunks, [Done]);
    FoldedOne(Received(chunks), Done);
    RelayReads(messageId, chunks);
    UsageReads(messageId, chunks);
    FinishRelay(messageId, chunks);
  }
}
