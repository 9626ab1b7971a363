/** What a chat client gets of an upstream's Messages response, streamed or not, in the words of
    the two protocols (internal/anthropicegress/stream.go and response.go). */
module ChatClientView {
  import opened Wrappers
  import opened GoText
  import opened ChatChunks
  import opened SortedInts
  import opened EgressStream
  import opened EgressAgreement

  // --- Why the turn ended ---

  /** The finish reason each stop reason is told as: any but the three below is the ordinary end. */
  ghost predicate ToldAs(stopReason: string, finish: Option<string>) {
    && finish.Some?
    && (finish.value == "length" <==> stopReason == "max_tokens")
    && (finish.value == "tool_calls" <==> stopReason == "tool_use")
    && (finish.value == "content_filter" <==> stopReason == "refusal")
    && (finish.value == "stop" <==> stopReason !in {"max_tokens", "tool_use", "refusal"})
  }

  /** The body names the upstream's stop reason. */
  lemma BodyFinish(resp: Response)
    ensures ToldAs(resp.stopReason, BuildChatCompletion(resp).finish)
  {
    var f := BuildChatCompletion(resp).finish.value;
    assert |f| == 6 || |f| == 10 || |f| == 14 || |f| == 4;
  }

  /** The finish reason a client folds out of a finished stream. */
  lemma StreamFinish(events: seq<Event>)
    requires WellFormed(events) && forall b :: b in Assembled(events) ==> ObjectInput(b)
    ensures ToldAs(StopReasonOf(events), Received(Streamed(events + [MessageStop]).1).finish)
    ensures StopReasonOf(events) != "" ==>
              ToldAs(StopReasonOf(events), Received(Streamed(events).1 + AtEof(Streamed(events).0).1.frames).finish)
  {
    StreamingAgrees(events);
    BodyFinish(AssembledResponse(events));
    if StopReasonOf(events) != "" {
      EofAgrees(events);
    }
  }

  // --- What it cost ---

  /** Messages' counts as a chat completion states them: everything that was read is the prompt,
      what the cache served and took are shares of it. */
  ghost predicate Billed(u: UsageBlock, c: CompletionUsage) {
    && c.prompt == u.input + u.cacheCreation + u.cacheRead && c.completion == u.output && c.total == c.prompt + c.completion
    && (u.cacheRead > 0 ==> c.cached == Some(u.cacheRead) && c.cacheRead == u.cacheRead)
    && (u.cacheRead <= 0 ==> c.cached == None && c.cacheRead == 0)
    && c.cacheCreation == if u.cacheCreation > 0 then u.cacheCreation else 0
  }

  lemma BodyUsage(resp: Response)
    ensures var usage := BuildChatCompletion(resp).usage;
            (usage.Some? <==> resp.usage.Some?) && (usage.Some? ==> Billed(resp.usage.value, usage.value))
  {
  }

  /** A stream states its counts once it has any, cut short or not. */
  lemma StreamUsage(events: seq<Event>)
    requires WellFormed(events) && forall b :: b in Assembled(events) ==> ObjectInput(b)
    ensures var u := UsageOf(events);
            var usage := Received(Streamed(events + [MessageStop]).1).usage;
            (usage.None? <==> u == UsageBlock(0, 0, 0, 0)) && (usage.Some? ==> Billed(u, usage.value))
    ensures var u := UsageOf(events);
            var usage := Received(Streamed(events).1 + AtEof(Streamed(events).0).1.frames).usage;
            (usage.None? <==> u == UsageBlock(0, 0, 0, 0)) && (usage.Some? ==> Billed(u, usage.value))
  {
    StreamingAgrees(events);
    BodyUsage(AssembledResponse(events));
    if StopReasonOf(events) == "" {
      TruncatedAtEof(events);
    } else {
      EofAgrees(events);
    }
  }

  // --- Calls without arguments ---

  lemma NoArguments(input: string)
    requires input in {"", "null"}
    ensures ToolArguments(input) == "{}"
  {
    RawValueTrimmed("null");
  }

  /** A call the upstream gave no input reads as one with the empty object, in the body and, compacted,
      in the stream. */
  lemma NoInputIsEmptyObject(events: seq<Event>, k: nat)
    requires WellFormed(events) && (forall b :: b in Assembled(events) ==> ObjectInput(b)) && k < |Tools(Assembled(events))|
    requires var b := Tools(Assembled(events))[k]; b.streamed == "" && b.block.input in {"", "null"}
    ensures var calls := BuildChatCompletion(AssembledResponse(events)).tools;
            k < |calls| && calls[k].arguments == "{}"
    ensures var calls := Received(Streamed(events + [MessageStop]).1).tools;
            k < |calls| && Compact(calls[k].arguments) == "{}"
  {
    NoArguments(Tools(Assembled(events))[k].block.input);
    ToolCallsAre(Assembled(events));
    StreamedCall(events, k);
  }

  lemma StreamedCall(events: seq<Event>, k: nat)
    requires WellFormed(events) && (forall b :: b in Assembled(events) ==> ObjectInput(b))
    requires k < |BuildChatCompletion(AssembledResponse(events)).tools|
    ensures var calls := Received(Streamed(events + [MessageStop]).1).tools;
            k < |calls| && SameCall(calls[k], BuildChatCompletion(AssembledResponse(events)).tools[k])
  {
    StreamingAgrees(events);
  }

  // --- The shape of the chunks ---

  predicate IsData(f: Frame) { f.Data? }

  /** The first chunk carries the role and no other does; an opener names its call and carries no
      arguments, any other fragment carries arguments alone. */
  ghost predicate Shaped(started: bool, frames: seq<Frame>) {
    forall k :: 0 <= k < |frames| && IsData(frames[k]) ==>
      && frames[k].chunk.delta.role == (if !started && NoneData(frames[..k]) then "assistant" else "")
      && forall f :: f in frames[k].chunk.delta.tools ==> FragmentShaped(f)
  }

  ghost predicate NoneData(frames: seq<Frame>) {
    forall k :: 0 <= k < |frames| ==> !IsData(frames[k])
  }

  predicate FragmentShaped(f: ToolFragment) {
    && f.index.Some? && f.signature == ""
    && (if f.kind == "function" then f.arguments == "" else f.kind == "" && f.id == "" && f.name == "" && f.arguments != "")
  }

  lemma NoneDataAppend(a: seq<Frame>, b: seq<Frame>)
    ensures NoneData(a + b) <==> NoneData(a) && NoneData(b)
  {
    var both := a + b;
    assert forall i :: 0 <= i < |a| ==> both[i] == a[i];
    forall i | 0 <= i < |b| ensures IsData(b[i]) == IsData(both[|a| + i]) {
    }
  }

  lemma ShapedAppend(started: bool, a: seq<Frame>, b: seq<Frame>)
    requires Shaped(started, a) && Shaped(started || !NoneData(a), b)
    ensures Shaped(started, a + b)
    ensures NoneData(a + b) <==> NoneData(a) && NoneData(b)
  {
    forall k | 0 <= k < |a + b| && IsData((a + b)[k])
      ensures (a + b)[k].chunk.delta.role == (if !started && NoneData((a + b)[..k]) then "assistant" else "")
      ensures forall f :: f in (a + b)[k].chunk.delta.tools ==> FragmentShaped(f)
    {
      if k < |a| {
        assert (a + b)[..k] == a[..k];
      } else {
        assert (a + b)[..k] == a + b[..k - |a|];
        NoneDataAppend(a, b[..k - |a|]);
        assert IsData(b[k - |a|]);
      }
    }
    NoneDataAppend(a, b);
  }

  /** A step's frames are in shape, and it has started exactly when it, or one before it, wrote a chunk. */
  ghost predicate InShape(s: State, after: State, frames: seq<Frame>) {
    Shaped(s.started, frames) && (after.started <==> s.started || !NoneData(frames))
  }

  lemma WriteInShape(s: State, delta: Delta, finish: Option<string>, usage: Option<CompletionUsage>)
    requires forall f :: f in delta.tools ==> FragmentShaped(f)
    ensures var (after, out) := Write(s, delta, finish, usage); InShape(s, after, out.frames)
  {
    var out := Write(s, delta, finish, usage).1.frames;
    assert IsData(out[0]) && out[..0] == [];
  }

  /** The inputs held for a tool block are not empty. */
  ghost predicate HoldsInput(s: State) {
    forall i :: i in s.openerInput ==> s.openerInput[i] != ""
  }

  lemma StopInShape(s: State, index: int)
    requires HoldsInput(s)
    ensures var (after, out) := StopBlock(s, index); InShape(s, after, out.frames) && HoldsInput(after)
  {
    if index in s.toolIndexByBlock && index !in s.toolArgsSeen {
      WriteInShape(s.(toolArgsSeen := s.toolArgsSeen + {index}), Arguments(s.toolIndexByBlock[index], Owed(s, index)), None, None);
    }
  }

  lemma {:induction false} StopAllInShape(s: State, list: seq<int>)
    requires HoldsInput(s)
    ensures var (after, frames) := StopAll(s, list); InShape(s, after, frames) && HoldsInput(after)
  {
    if list != [] {
      var n := |list| - 1;
      StopAllInShape(s, list[..n]);
      var (mid, frames) := StopAll(s, list[..n]);
      StopInShape(mid, list[n]);
      ShapedAppend(s.started, frames, StopBlock(mid, list[n]).1.frames);
    }
  }

  lemma CloseInShape(s: State)
    requires HoldsInput(s)
    ensures var (after, out) := Close(s); InShape(s, after, out.frames) && HoldsInput(after)
  {
    if !s.finished && !s.failed {
      var closing := s.(finished := true);
      StopAllInShape(closing, Listing(Pending(s)));
      var (mid, owed) := StopAll(closing, Listing(Pending(s)));
      var last := Write(mid, NO_DELTA, Some(MapFinishReason(mid.stopReason)),
                        if mid.usage != NO_USAGE then Some(BuildUsage(mid.usage)) else None).1.frames;
      WriteInShape(mid, NO_DELTA, Some(MapFinishReason(mid.stopReason)), if mid.usage != NO_USAGE then Some(BuildUsage(mid.usage)) else None);
      ShapedAppend(mid.started, last, [Done]);
      ShapedAppend(s.started, owed, last + [Done]);
    }
  }

  lemma StartInShape(s: State, index: int, block: Option<Block>)
    requires HoldsInput(s)
    ensures var (after, out) := StartBlock(s, index, block); InShape(s, after, out.frames) && HoldsInput(after)
  {
    match block
    case Some(Text(t)) => WriteInShape(s, TextDeltaOf(t), None, None);
    case Some(Thinking(t)) => WriteInShape(s, ReasoningDeltaOf(t), None, None);
    case Some(ToolUse(id, name, input)) => WriteInShape(s, Header(s.toolCalls, id, name), None, None);
    case _ =>
  }

  lemma DeltaInShape(s: State, index: int, delta: Option<BlockDelta>)
    requires HoldsInput(s)
    ensures var (after, out) := OnDelta(s, index, delta); InShape(s, after, out.frames) && HoldsInput(after)
  {
    match delta
    case Some(TextDelta(t)) => WriteInShape(s, TextDeltaOf(t), None, None);
    case Some(ThinkingDelta(t)) => WriteInShape(s, ReasoningDeltaOf(t), None, None);
    case Some(InputJsonDelta(p)) =>
      if p != "" && index in s.toolIndexByBlock {
        WriteInShape(s.(toolArgsSeen := s.toolArgsSeen + {index}), Arguments(s.toolIndexByBlock[index], p), None, None);
      }
    case _ =>
  }

  lemma StepInShape(s: State, ev: Event)
    requires HoldsInput(s)
    ensures var (after, out) := Step(s, ev); InShape(s, after, out.frames) && HoldsInput(after)
  {
    if !s.finished {
      match ev
      case MessageStop => CloseInShape(s);
      case BlockStop(i) => StopInShape(s, i);
      case BlockStart(i, b) => StartInShape(s, i, b);
      case BlockDeltaEvent(i, d) => DeltaInShape(s, i, d);
      case MessageStart(u) => WriteInShape(if u.None? then s else s.(usage := u.value.(output := s.usage.output)), NO_DELTA, None, None);
      case _ =>
    }
  }

  /** On every sequence of payloads, the chunks are in shape. */
  lemma {:induction false} ChunksInShape(events: seq<Event>)
    ensures var (s, frames) := Streamed(events);
            HoldsInput(s) && InShape(FRESH, s, frames)
  {
    if events != [] {
      var before, ev := events[..|events| - 1], events[|events| - 1];
      ChunksInShape(before);
      var (s, frames) := Streamed(before);
      StepInShape(s, ev);
      ShapedAppend(false, frames, Step(s, ev).1.frames);
    }
  }

  // --- Errors ---

  /** An upstream that opened a tool block of this index. */
  ghost predicate OpenedTool(events: seq<Event>, index: int) {
    exists k :: 0 <= k < |events| && StartsTool(events[k], index)
  }

  predicate StartsTool(ev: Event, index: int) {
    ev.BlockStart? && ev.index == index && ev.block.Some? && ev.block.value.ToolUse?
  }

  lemma OpenedToolStep(events: seq<Event>, ev: Event, index: int)
    ensures OpenedTool(events + [ev], index) <==> OpenedTool(events, index) || StartsTool(ev, index)
  {
    var longer := events + [ev];
    assert longer[|events|] == ev;
    if OpenedTool(events, index) {
      var k :| 0 <= k < |events| && StartsTool(events[k], index);
      assert StartsTool(longer[k], index);
    }
  }

  lemma StepOpens(s: State, ev: Event)
    requires !s.finished
    ensures var after := Step(s, ev).0;
            forall i :: i in after.toolIndexByBlock <==> i in s.toolIndexByBlock || StartsTool(ev, i)
  {
    if ev.MessageStop? && !s.failed {
      FlushState(s.(finished := true), Listing(Pending(s)));
    }
  }

  lemma {:induction false} ToolsOpened(events: seq<Event>)
    requires !Streamed(events).0.finished
    ensures forall i :: i in Streamed(events).0.toolIndexByBlock <==> OpenedTool(events, i)
  {
    if events != [] {
      var before, ev := events[..|events| - 1], events[|events| - 1];
      assert events == before + [ev];
      ToolsOpened(before);
      StepOpens(Streamed(before).0, ev);
      forall i ensures OpenedTool(events, i) <==> OpenedTool(before, i) || StartsTool(ev, i) {
        OpenedToolStep(before, ev, i);
      }
    }
  }

  /** What a payload of an unfinished stream fails with: bytes that do not decode, the upstream's own
      error, and arguments for a block no tool call opened; nothing else does. */
  lemma FailsExactly(events: seq<Event>, ev: Event)
    requires !Streamed(events).0.finished
    ensures var error := Step(Streamed(events).0, ev).1.error;
            && (error == Some(InvalidEvent) <==> ev.Malformed?)
            && (error == Some(UpstreamError) <==> ev.ErrorEvent?)
            && (error == Some(UnopenedBlock)
                <==> ev.BlockDeltaEvent? && ev.delta.Some? && ev.delta.value.InputJsonDelta? && ev.delta.value.partial != ""
                     && !OpenedTool(events, ev.index))
            && error != Some(Truncated)
  {
    ToolsOpened(events);
  }

  /** Behind an upstream's error a stream never ends as a completion, and at end of input says nothing. */
  lemma {:induction false} FailedForGood(events: seq<Event>, k: nat)
    requires k < |events| && events[k].ErrorEvent? && !Streamed(events[..k]).0.finished
    ensures var (s, frames) := Streamed(events);
            s.failed && !s.finished && Done !in frames && AtEof(s).1 == Outcome([], None)
  {
    DoneIsLast(events);
    var n := |events| - 1;
    if k < n {
      assert events[..n][..k] == events[..k];
      FailedForGood(events[..n], k);
    }
  }

  // --- Keepalives ---

  function Pings(frames: seq<Frame>): nat {
    if frames == [] then 0 else Pings(frames[..|frames| - 1]) + if frames[|frames| - 1].Ping? then 1 else 0
  }

  function PingEvents(events: seq<Event>): nat {
    if events == [] then 0 else PingEvents(events[..|events| - 1]) + if events[|events| - 1].PingEvent? then 1 else 0
  }

  lemma {:induction false} PingsAppend(a: seq<Frame>, b: seq<Frame>)
    ensures Pings(a + b) == Pings(a) + Pings(b)
  {
    if b == [] {
      assert a + b == a;
    } else {
      assert (a + b)[..|a + b| - 1] == a + b[..|b| - 1];
      PingsAppend(a, b[..|b| - 1]);
    }
  }

  /** Every keepalive of the upstream reaches the client. */
  lemma {:induction false} PingsRelayed(events: seq<Event>)
    requires WellFormed(events)
    ensures Pings(Streamed(events).1) == PingEvents(events)
  {
    if events != [] {
      var before, ev := events[..|events| - 1], events[|events| - 1];
      PingsRelayed(before);
      StaysMarked(before);
      var (s, frames) := Streamed(before);
      var more := Step(s, ev).1.frames;
      PingsAppend(frames, more);
      OnePing(s, ev);
    }
  }

  lemma OnePing(s: State, ev: Event)
    requires !s.finished && !ev.MessageStop?
    ensures Pings(Step(s, ev).1.frames) == if ev.PingEvent? then 1 else 0
  {
    var out := Step(s, ev).1.frames;
    assert |out| <= 1;
    if |out| == 1 {
      assert out[..0] == [];
    }
  }
}
