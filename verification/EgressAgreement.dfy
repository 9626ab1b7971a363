/** The streaming translator agrees with the non-streaming one: folding the chunks it emits
    gives the message BuildChatCompletion makes of the assembled response. */
module EgressAgreement {
  import opened Wrappers
  import opened GoText
  import opened ChatChunks
  import opened SortedInts
  import opened EgressStream

  // --- The response a stream of events spells out ---

  /** A content block as its events have built it so far: opener, streamed arguments, stop. */
  datatype Building = Building(index: int, block: Block, streamed: string, stopped: bool)

  datatype Change = Grow(delta: BlockDelta) | Stop

  function Changed(b: Building, c: Change): Building {
    match (c, b.block)
    case (Grow(TextDelta(t)), Text(text)) => b.(block := Text(text + t))
    case (Grow(ThinkingDelta(t)), Thinking(thinking)) => b.(block := Thinking(thinking + t))
    case (Grow(InputJsonDelta(p)), ToolUse(_, _, _)) => b.(streamed := b.streamed + p)
    case (Stop, _) => b.(stopped := true)
    case _ => b
  }

  function ChangedAt(bs: seq<Building>, index: int, c: Change): (r: seq<Building>)
    ensures |r| == |bs|
    ensures forall k :: 0 <= k < |bs| ==> r[k] == if bs[k].index == index then Changed(bs[k], c) else bs[k]
  {
    seq(|bs|, k requires 0 <= k < |bs| => if bs[k].index == index then Changed(bs[k], c) else bs[k])
  }

  function AssembledOne(bs: seq<Building>, ev: Event): seq<Building> {
    match ev
    case BlockStart(i, Some(block)) => bs + [Building(i, block, "", false)]
    case BlockDeltaEvent(i, Some(delta)) => ChangedAt(bs, i, Grow(delta))
    case BlockStop(i) => ChangedAt(bs, i, Stop)
    case _ => bs
  }

  function Assembled(events: seq<Event>): seq<Building> {
    if events == [] then [] else AssembledOne(Assembled(events[..|events| - 1]), events[|events| - 1])
  }

  /** Streamed arguments win over the opener's. */
  function Whole(b: Building): Block {
    if b.block.ToolUse? && b.streamed != "" then b.block.(input := b.streamed) else b.block
  }

  function Content(bs: seq<Building>): (blocks: seq<Block>)
    ensures |blocks| == |bs|
  {
    if bs == [] then [] else Content(bs[..|bs| - 1]) + [Whole(bs[|bs| - 1])]
  }

  function StopReasonOf(events: seq<Event>): string {
    if events == [] then ""
    else
      var ev := events[|events| - 1];
      if ev.MessageDelta? && ev.stopReason != "" then ev.stopReason else StopReasonOf(events[..|events| - 1])
  }

  /** Input counts from message_start, the output count from message_delta. */
  function UsageOf(events: seq<Event>): UsageBlock {
    if events == [] then NO_USAGE
    else
      var u := UsageOf(events[..|events| - 1]);
      match events[|events| - 1]
      case MessageStart(Some(seen)) => seen.(output := u.output)
      case MessageDelta(_, Some(seen)) => u.(output := seen.output)
      case _ => u
  }

  /** The response body the events amount to; usage that is all zeros counts as unreported. */
  function AssembledResponse(events: seq<Event>): Response {
    var u := UsageOf(events);
    Response(Content(Assembled(events)), StopReasonOf(events), if u == NO_USAGE then None else Some(u))
  }

  // --- Which streams ---

  /** The newest text block, or the newest thinking block. */
  ghost predicate NewestText(bs: seq<Building>, k: nat) {
    k < |bs| && bs[k].block.Text? && forall j :: k < j < |bs| ==> !bs[j].block.Text?
  }

  ghost predicate NewestThinking(bs: seq<Building>, k: nat) {
    k < |bs| && bs[k].block.Thinking? && forall j :: k < j < |bs| ==> !bs[j].block.Thinking?
  }

  ghost predicate OpenTool(bs: seq<Building>, k: nat) {
    k < |bs| && bs[k].block.ToolUse? && !bs[k].stopped
  }

  /** Block indices are not reused, and a delta reaches a block of its own kind: the newest
      text or thinking block, or any tool block not yet stopped. A block need not be stopped. */
  ghost predicate Allowed(bs: seq<Building>, ev: Event) {
    match ev
    case BlockStart(i, Some(_)) => forall k :: 0 <= k < |bs| ==> bs[k].index != i
    case BlockDeltaEvent(i, Some(TextDelta(t))) => t == "" || exists k: nat :: NewestText(bs, k) && bs[k].index == i
    case BlockDeltaEvent(i, Some(ThinkingDelta(t))) => t == "" || exists k: nat :: NewestThinking(bs, k) && bs[k].index == i
    case BlockDeltaEvent(i, Some(InputJsonDelta(p))) => p == "" || exists k: nat :: OpenTool(bs, k) && bs[k].index == i
    case Malformed | ErrorEvent | MessageStop => false
    case _ => true
  }

  ghost predicate WellFormed(events: seq<Event>) {
    events == []
    || (WellFormed(events[..|events| - 1]) && Allowed(Assembled(events[..|events| - 1]), events[|events| - 1]))
  }

  /** Tool inputs are objects: streamed text that is not blank and not null, an opener's
      object, or no input at all. */
  predicate ObjectInput(b: Building) {
    !b.block.ToolUse?
    || (if b.streamed != "" then MemberSet(b.streamed)
        else RawValue(b.block.input) && (!MemberSet(b.block.input) || (|b.block.input| > 1 && b.block.input[0] == '{')))
  }

  // --- The translator's run ---

  ghost function Streamed(events: seq<Event>): (State, seq<Frame>) {
    if events == [] then (FRESH, [])
    else
      var (s, frames) := Streamed(events[..|events| - 1]);
      var (after, out) := Step(s, events[|events| - 1]);
      (after, frames + out.frames)
  }

  // --- What the invariant compares ---

  function Tools(bs: seq<Building>): (tools: seq<Building>)
    ensures forall k :: 0 <= k < |tools| ==> tools[k].block.ToolUse? && tools[k] in bs
  {
    if bs == [] then []
    else
      var rest := Tools(bs[..|bs| - 1]);
      if bs[|bs| - 1].block.ToolUse? then rest + [bs[|bs| - 1]] else rest
  }

  function OpenerArguments(input: string): string {
    if HeldInput(input).Some? then HeldInput(input).value else "{}"
  }

  /** The arguments fragments have carried so far. */
  function SoFar(b: Building): string
    requires b.block.ToolUse?
  {
    if b.streamed != "" then b.streamed
    else if b.stopped then OpenerArguments(b.block.input)
    else ""
  }

  ghost predicate ToolAgrees(s: State, call: ToolCall, b: Building, k: int)
    requires b.block.ToolUse?
  {
    && b.index in s.toolIndexByBlock && s.toolIndexByBlock[b.index] == k
    && call == ToolCall(b.block.id, b.block.name, SoFar(b), "")
    && (b.index in s.toolArgsSeen <==> b.streamed != "" || b.stopped)
    && (b.index in s.openerInput <==> HeldInput(b.block.input).Some?)
    && (b.index in s.openerInput ==> s.openerInput[b.index] == HeldInput(b.block.input).value)
  }

  ghost predicate ToolsAgree(s: State, calls: seq<ToolCall>, tools: seq<Building>)
    requires forall k :: 0 <= k < |tools| ==> tools[k].block.ToolUse?
  {
    && |calls| == |tools| == s.toolCalls
    && (forall k :: 0 <= k < |tools| ==> ToolAgrees(s, calls[k], tools[k], k))
    && (forall i :: i in s.toolIndexByBlock ==>
          0 <= s.toolIndexByBlock[i] < |tools| && tools[s.toolIndexByBlock[i]].index == i)
  }

  ghost predicate DistinctIndices(bs: seq<Building>) {
    forall j, k :: 0 <= j < k < |bs| ==> bs[j].index != bs[k].index
  }

  function TextParts(bs: seq<Building>): seq<string> {
    seq(|bs|, k requires 0 <= k < |bs| => if bs[k].block.Text? then bs[k].block.text else "")
  }

  function ThinkingParts(bs: seq<Building>): seq<string> {
    seq(|bs|, k requires 0 <= k < |bs| => if bs[k].block.Thinking? then bs[k].block.thinking else "")
  }

  ghost predicate Agrees(s: State, m: Message, bs: seq<Building>) {
    && m.text == Concat(TextParts(bs)) && m.reasoning == Concat(ThinkingParts(bs))
    && ToolsAgree(s, m.tools, Tools(bs))
    && DistinctIndices(bs)
    && m.finish.None? && m.usage.None?
  }

  // --- Lists under change ---

  lemma {:induction false} PartsJoin(bs: seq<Building>)
    ensures TextOf(Content(bs)) == Concat(TextParts(bs)) && ReasoningOf(Content(bs)) == Concat(ThinkingParts(bs))
  {
    if bs != [] {
      var n := |bs| - 1;
      assert Content(bs)[..n] == Content(bs[..n]);
      assert TextParts(bs)[..n] == TextParts(bs[..n]) && ThinkingParts(bs)[..n] == ThinkingParts(bs[..n]);
      PartsJoin(bs[..n]);
    }
  }

  /** Growing one part, with only empty parts after it, appends to the whole. */
  lemma {:induction false} ConcatGrows(parts: seq<string>, k: nat, t: string)
    requires k < |parts| && forall j :: k < j < |parts| ==> parts[j] == ""
    ensures Concat(parts[k := parts[k] + t]) == Concat(parts) + t
  {
    var n := |parts| - 1;
    var grown := parts[k := parts[k] + t];
    if k == n {
      assert grown[..n] == parts[..n];
    } else {
      assert grown[..n] == parts[..n][k := parts[k] + t];
      ConcatGrows(parts[..n], k, t);
    }
  }

  lemma ConcatOne(parts: seq<string>, part: string)
    ensures Concat(parts + [part]) == Concat(parts) + part
  {
    assert (parts + [part])[..|parts|] == parts;
  }

  lemma {:induction false} ToolsChanged(bs: seq<Building>, index: int, c: Change)
    ensures Tools(ChangedAt(bs, index, c)) == ChangedAt(Tools(bs), index, c)
  {
    if bs != [] {
      var n := |bs| - 1;
      assert ChangedAt(bs, index, c)[..n] == ChangedAt(bs[..n], index, c);
      ToolsChanged(bs[..n], index, c);
    }
  }

  lemma {:induction false} ToolListed(bs: seq<Building>, k: nat) returns (j: nat)
    requires k < |bs| && bs[k].block.ToolUse?
    ensures j < |Tools(bs)| && Tools(bs)[j] == bs[k]
  {
    var n := |bs| - 1;
    if k == n {
      j := |Tools(bs[..n])|;
    } else {
      j := ToolListed(bs[..n], k);
    }
  }

  // --- One event at a time ---

  lemma Emitted(s: State, m: Message, delta: Delta)
    ensures var (after, out) := Write(s, delta, None, None);
            Folded(m, out.frames)
            == Extended(m, Data(Chunk(delta, None, None)))
  {
    var (after, out) := Write(s, delta, None, None);
    FoldedOne(m, out.frames[0]);
  }

  lemma EmittedPart(s: State, m: Message, delta: Delta)
    requires delta.tools == []
    ensures var (after, out) := Write(s, delta, None, None);
            Folded(m, out.frames) == m.(text := m.text + delta.content, reasoning := m.reasoning + delta.reasoning)
  {
    Emitted(s, m, delta);
  }

  lemma EmittedFragment(s: State, m: Message, f: ToolFragment)
    ensures var (after, out) := Write(s, NO_DELTA.(tools := [f]), None, None);
            Folded(m, out.frames) == m.(tools := Merged(m.tools, f))
  {
    Emitted(s, m, NO_DELTA.(tools := [f]));
    MergedOne(m.tools, f);
  }

  lemma Opened(bs: seq<Building>, b: Building)
    ensures Concat(TextParts(bs + [b])) == Concat(TextParts(bs)) + (if b.block.Text? then b.block.text else "")
    ensures Concat(ThinkingParts(bs + [b])) == Concat(ThinkingParts(bs)) + (if b.block.Thinking? then b.block.thinking else "")
    ensures Tools(bs + [b]) == if b.block.ToolUse? then Tools(bs) + [b] else Tools(bs)
  {
    assert TextParts(bs + [b]) == TextParts(bs) + [if b.block.Text? then b.block.text else ""];
    assert ThinkingParts(bs + [b]) == ThinkingParts(bs) + [if b.block.Thinking? then b.block.thinking else ""];
    ConcatOne(TextParts(bs), if b.block.Text? then b.block.text else "");
    ConcatOne(ThinkingParts(bs), if b.block.Thinking? then b.block.thinking else "");
    assert (bs + [b])[..|bs|] == bs;
  }

  lemma StartAgrees(s: State, m: Message, bs: seq<Building>, index: int, block: Block)
    requires Agrees(s, m, bs)
    requires forall k :: 0 <= k < |bs| ==> bs[k].index != index
    ensures var (after, out) := StartBlock(s, index, Some(block));
            Agrees(after, Folded(m, out.frames), bs + [Building(index, block, "", false)])
  {
    if block.ToolUse? {
      StartToolAgrees(s, m, bs, index, block.id, block.name, block.input);
    } else {
      StartPartAgrees(s, m, bs, index, block);
    }
  }

  lemma StartPartAgrees(s: State, m: Message, bs: seq<Building>, index: int, block: Block)
    requires Agrees(s, m, bs) && !block.ToolUse?
    requires forall k :: 0 <= k < |bs| ==> bs[k].index != index
    ensures var (after, out) := StartBlock(s, index, Some(block));
            Agrees(after, Folded(m, out.frames), bs + [Building(index, block, "", false)])
  {
    Opened(bs, Building(index, block, "", false));
    StartedPart(s, m, index, block);
    SameToolFields(s, StartBlock(s, index, Some(block)).0, m.tools, Tools(bs));
  }

  lemma StartedPart(s: State, m: Message, index: int, block: Block)
    requires !block.ToolUse?
    ensures var (after, out) := StartBlock(s, index, Some(block));
            && after == s.(started := after.started)
            && Folded(m, out.frames)
               == m.(text := m.text + (if block.Text? then block.text else ""),
                     reasoning := m.reasoning + (if block.Thinking? then block.thinking else ""))
  {
    assert forall t: string :: t + "" == t;
    match block
    case Text(t) => EmittedPart(s, m, TextDeltaOf(t));
    case Thinking(t) => EmittedPart(s, m, ReasoningDeltaOf(t));
    case _ =>
  }

  lemma StartToolAgrees(s: State, m: Message, bs: seq<Building>, index: int, id: string, name: string, input: string)
    requires Agrees(s, m, bs)
    requires forall k :: 0 <= k < |bs| ==> bs[k].index != index
    ensures var (after, out) := StartBlock(s, index, Some(ToolUse(id, name, input)));
            out.error.None? && Agrees(after, Folded(m, out.frames), bs + [Building(index, ToolUse(id, name, input), "", false)])
  {
    var b := Building(index, ToolUse(id, name, input), "", false);
    var (after, out) := StartBlock(s, index, Some(ToolUse(id, name, input)));
    Opened(bs, b);
    var mid := s.(toolCalls := after.toolCalls, toolIndexByBlock := after.toolIndexByBlock,
                     toolArgsSeen := after.toolArgsSeen, openerInput := after.openerInput);
    EmittedFragment(mid, m, ToolFragment(Some(s.toolCalls), id, "function", name, "", ""));
    NewToolAgrees(s, after, m.tools, Tools(bs), b);
  }

  lemma NewToolAgrees(s: State, after: State, calls: seq<ToolCall>, tools: seq<Building>, b: Building)
    requires b.block.ToolUse? && b.streamed == "" && !b.stopped
    requires forall k :: 0 <= k < |tools| ==> tools[k].block.ToolUse? && tools[k].index != b.index
    requires ToolsAgree(s, calls, tools)
    requires after.toolCalls == s.toolCalls + 1 && after.toolIndexByBlock == s.toolIndexByBlock[b.index := s.toolCalls]
    requires after.toolArgsSeen == s.toolArgsSeen - {b.index}
    requires var held := HeldInput(b.block.input);
             after.openerInput == if held.Some? then s.openerInput[b.index := held.value] else s.openerInput - {b.index}
    ensures ToolsAgree(after, calls + [ToolCall(b.block.id, b.block.name, "", "")], tools + [b])
  {
    forall k | 0 <= k < |tools| ensures ToolAgrees(after, calls[k], tools[k], k) {
      assert ToolAgrees(s, calls[k], tools[k], k);
    }
  }

  lemma SamePartsButTools(bs: seq<Building>, index: int, c: Change)
    requires c.Stop? || c.delta.InputJsonDelta? || c.delta.OtherDelta?
    ensures TextParts(ChangedAt(bs, index, c)) == TextParts(bs)
    ensures ThinkingParts(ChangedAt(bs, index, c)) == ThinkingParts(bs)
  {
    var after := ChangedAt(bs, index, c);
    assert forall k :: 0 <= k < |bs| ==> after[k].block == bs[k].block;
  }

  lemma SameToolsButParts(bs: seq<Building>, index: int, c: Change)
    requires c.Grow? && !c.delta.InputJsonDelta?
    ensures Tools(ChangedAt(bs, index, c)) == Tools(bs)
  {
    ToolsChanged(bs, index, c);
    assert ChangedAt(Tools(bs), index, c) == Tools(bs);
  }

  /** Only the tool fields of the state matter to the tools. */
  lemma SameToolFields(s: State, after: State, calls: seq<ToolCall>, tools: seq<Building>)
    requires forall k :: 0 <= k < |tools| ==> tools[k].block.ToolUse?
    requires ToolsAgree(s, calls, tools)
    requires after.toolCalls == s.toolCalls && after.toolIndexByBlock == s.toolIndexByBlock
    requires after.toolArgsSeen == s.toolArgsSeen && after.openerInput == s.openerInput
    ensures ToolsAgree(after, calls, tools)
  {
    forall k | 0 <= k < |tools| ensures ToolAgrees(after, calls[k], tools[k], k) {
      assert ToolAgrees(s, calls[k], tools[k], k);
    }
  }

  lemma NothingChanges(bs: seq<Building>, index: int, c: Change)
    requires c.Grow? && c.delta in {TextDelta(""), ThinkingDelta(""), InputJsonDelta(""), OtherDelta}
    ensures ChangedAt(bs, index, c) == bs
  {
    assert forall text: string :: text + "" == text;
  }

  lemma TextGrows(bs: seq<Building>, index: int, t: string)
    requires DistinctIndices(bs) && Allowed(bs, BlockDeltaEvent(index, Some(TextDelta(t))))
    ensures var after := ChangedAt(bs, index, Grow(TextDelta(t)));
            && Concat(TextParts(after)) == Concat(TextParts(bs)) + t && ThinkingParts(after) == ThinkingParts(bs)
            && Tools(after) == Tools(bs)
  {
    var after := ChangedAt(bs, index, Grow(TextDelta(t)));
    SameToolsButParts(bs, index, Grow(TextDelta(t)));
    assert ThinkingParts(after) == ThinkingParts(bs);
    if t == "" {
      NothingChanges(bs, index, Grow(TextDelta(t)));
    } else {
      var k: nat :| NewestText(bs, k) && bs[k].index == index;
      assert TextParts(after) == TextParts(bs)[k := TextParts(bs)[k] + t];
      ConcatGrows(TextParts(bs), k, t);
    }
  }

  lemma ThinkingGrows(bs: seq<Building>, index: int, t: string)
    requires DistinctIndices(bs) && Allowed(bs, BlockDeltaEvent(index, Some(ThinkingDelta(t))))
    ensures var after := ChangedAt(bs, index, Grow(ThinkingDelta(t)));
            && TextParts(after) == TextParts(bs) && Concat(ThinkingParts(after)) == Concat(ThinkingParts(bs)) + t
            && Tools(after) == Tools(bs)
  {
    var after := ChangedAt(bs, index, Grow(ThinkingDelta(t)));
    SameToolsButParts(bs, index, Grow(ThinkingDelta(t)));
    assert TextParts(after) == TextParts(bs);
    if t == "" {
      NothingChanges(bs, index, Grow(ThinkingDelta(t)));
    } else {
      var k: nat :| NewestThinking(bs, k) && bs[k].index == index;
      assert ThinkingParts(after) == ThinkingParts(bs)[k := ThinkingParts(bs)[k] + t];
      ConcatGrows(ThinkingParts(bs), k, t);
    }
  }

  /** A text or thinking delta appends to the message what it appends to the block. */
  lemma TextDeltaAgrees(s: State, m: Message, bs: seq<Building>, index: int, t: string)
    requires Agrees(s, m, bs) && Allowed(bs, BlockDeltaEvent(index, Some(TextDelta(t))))
    ensures var (after, out) := OnDelta(s, index, Some(TextDelta(t)));
            out.error.None? && Agrees(after, Folded(m, out.frames), ChangedAt(bs, index, Grow(TextDelta(t))))
  {
    TextGrows(bs, index, t);
    if t == "" {
    } else {
      var (after, out) := Write(s, TextDeltaOf(t), None, None);
      SameToolFields(s, after, m.tools, Tools(bs));
      EmittedPart(s, m, TextDeltaOf(t));
    }
  }

  lemma ThinkingDeltaAgrees(s: State, m: Message, bs: seq<Building>, index: int, t: string)
    requires Agrees(s, m, bs) && Allowed(bs, BlockDeltaEvent(index, Some(ThinkingDelta(t))))
    ensures var (after, out) := OnDelta(s, index, Some(ThinkingDelta(t)));
            out.error.None? && Agrees(after, Folded(m, out.frames), ChangedAt(bs, index, Grow(ThinkingDelta(t))))
  {
    ThinkingGrows(bs, index, t);
    if t == "" {
    } else {
      var (after, out) := Write(s, ReasoningDeltaOf(t), None, None);
      SameToolFields(s, after, m.tools, Tools(bs));
      EmittedPart(s, m, ReasoningDeltaOf(t));
    }
  }

  /** A fragment for the j-th call keeps the calls in step with the tool blocks. */
  lemma FragmentAgrees(s: State, after: State, calls: seq<ToolCall>, tools: seq<Building>, j: nat, args: string, b: Building)
    requires forall k :: 0 <= k < |tools| ==> tools[k].block.ToolUse?
    requires ToolsAgree(s, calls, tools) && j < |tools|
    requires b == tools[j].(streamed := b.streamed, stopped := b.stopped)
    requires SoFar(b) == SoFar(tools[j]) + args && (b.streamed != "" || b.stopped)
    requires after == s.(started := after.started, toolArgsSeen := s.toolArgsSeen + {b.index})
    ensures ToolsAgree(after, Merged(calls, ToolFragment(Some(j), "", "", "", args, "")), tools[j := b])
  {
    var merged := Merged(calls, ToolFragment(Some(j), "", "", "", args, ""));
    assert ToolAgrees(s, calls[j], tools[j], j);
    forall k | 0 <= k < |tools| ensures ToolAgrees(after, merged[k], tools[j := b][k], k) {
      assert ToolAgrees(s, calls[k], tools[k], k);
    }
  }

  lemma StillDistinct(bs: seq<Building>, index: int, c: Change)
    requires DistinctIndices(bs)
    ensures DistinctIndices(ChangedAt(bs, index, c))
  {
    assert forall k :: 0 <= k < |bs| ==> ChangedAt(bs, index, c)[k].index == bs[k].index;
  }

  /** Any fragment of the j-th call, seen through the whole invariant. */
  lemma ToolChangeAgrees(s: State, m: Message, bs: seq<Building>, index: int, c: Change, j: nat, args: string)
    requires c.Stop? || c.delta.InputJsonDelta?
    requires Agrees(s, m, bs) && j < |Tools(bs)| && Tools(bs)[j].index == index
    requires var b := Changed(Tools(bs)[j], c);
             SoFar(b) == SoFar(Tools(bs)[j]) + args && (b.streamed != "" || b.stopped)
    ensures var (after, out) := Write(s.(toolArgsSeen := s.toolArgsSeen + {index}), Arguments(j, args), None, None);
            Agrees(after, Folded(m, out.frames), ChangedAt(bs, index, c))
  {
    var seen := s.(toolArgsSeen := s.toolArgsSeen + {index});
    SamePartsButTools(bs, index, c);
    StillDistinct(bs, index, c);
    ToolsChanged(bs, index, c);
    OneAt(s, m.tools, Tools(bs), index, j, c);
    EmittedFragment(seen, m, ToolFragment(Some(j), "", "", "", args, ""));
    FragmentAgrees(s, Write(seen, Arguments(j, args), None, None).0, m.tools, Tools(bs), j, args, Changed(Tools(bs)[j], c));
  }

  lemma InputDeltaAgrees(s: State, m: Message, bs: seq<Building>, index: int, p: string)
    requires Agrees(s, m, bs) && Allowed(bs, BlockDeltaEvent(index, Some(InputJsonDelta(p))))
    ensures var (after, out) := OnDelta(s, index, Some(InputJsonDelta(p)));
            out.error.None? && Agrees(after, Folded(m, out.frames), ChangedAt(bs, index, Grow(InputJsonDelta(p))))
  {
    var c := Grow(InputJsonDelta(p));
    if p == "" {
      NothingChanges(bs, index, c);
    } else {
      var k: nat :| OpenTool(bs, k) && bs[k].index == index;
      var j := ToolListed(bs, k);
      assert ToolAgrees(s, m.tools[j], Tools(bs)[j], j);
      ToolChangeAgrees(s, m, bs, index, c, j, p);
    }
  }

  lemma OneAt(s: State, calls: seq<ToolCall>, tools: seq<Building>, index: int, j: nat, c: Change)
    requires forall k :: 0 <= k < |tools| ==> tools[k].block.ToolUse?
    requires ToolsAgree(s, calls, tools) && j < |tools| && tools[j].index == index
    ensures ChangedAt(tools, index, c) == tools[j := Changed(tools[j], c)]
  {
    forall k | 0 <= k < |tools| && k != j ensures tools[k].index != index {
      assert ToolAgrees(s, calls[k], tools[k], k) && ToolAgrees(s, calls[j], tools[j], j);
    }
  }

  lemma StopAgrees(s: State, m: Message, bs: seq<Building>, index: int)
    requires Agrees(s, m, bs)
    ensures var (after, out) := StopBlock(s, index);
            out.error.None? && Agrees(after, Folded(m, out.frames), ChangedAt(bs, index, Stop))
  {
    if index in s.toolIndexByBlock && index !in s.toolArgsSeen {
      var j := s.toolIndexByBlock[index];
      assert ToolAgrees(s, m.tools[j], Tools(bs)[j], j);
      ToolChangeAgrees(s, m, bs, index, Stop, j, Owed(s, index));
    } else {
      SamePartsButTools(bs, index, Stop);
      ToolsChanged(bs, index, Stop);
      SilentStop(s, m.tools, Tools(bs), index);
    }
  }

  lemma SilentStop(s: State, calls: seq<ToolCall>, tools: seq<Building>, index: int)
    requires forall k :: 0 <= k < |tools| ==> tools[k].block.ToolUse?
    requires ToolsAgree(s, calls, tools) && (index !in s.toolIndexByBlock || index in s.toolArgsSeen)
    ensures ToolsAgree(s, calls, ChangedAt(tools, index, Stop))
  {
    var after := ChangedAt(tools, index, Stop);
    forall k | 0 <= k < |tools| ensures after[k].block.ToolUse? && ToolAgrees(s, calls[k], after[k], k) {
      assert ToolAgrees(s, calls[k], tools[k], k);
    }
  }

  // --- Whole streams ---

  /** The translator's state and what the client has so far, after the events. */
  ghost predicate InStep(events: seq<Event>) {
    var (s, frames) := Streamed(events);
    && !s.finished && !s.failed
    && s.stopReason == StopReasonOf(events) && s.usage == UsageOf(events)
    && Agrees(s, Received(frames), Assembled(events))
  }

  /** The fields an event leaves to the end of the stream. */
  lemma EventMarks(s: State, ev: Event)
    requires !s.finished && !ev.Malformed? && !ev.ErrorEvent? && !ev.MessageStop?
    ensures var after := Step(s, ev).0;
            && after.finished == s.finished && after.failed == s.failed
            && after.stopReason == (if ev.MessageDelta? && ev.stopReason != "" then ev.stopReason else s.stopReason)
            && after.usage == match ev
                              case MessageStart(Some(seen)) => seen.(output := s.usage.output)
                              case MessageDelta(_, Some(seen)) => s.usage.(output := seen.output)
                              case _ => s.usage
  {
  }

  lemma EventAgrees(s: State, m: Message, bs: seq<Building>, ev: Event)
    requires Agrees(s, m, bs) && !s.finished && Allowed(bs, ev)
    ensures var (after, out) := Step(s, ev);
            Agrees(after, Folded(m, out.frames), AssembledOne(bs, ev))
  {
    match ev
    case BlockStart(i, Some(b)) => StartAgrees(s, m, bs, i, b);
    case BlockDeltaEvent(i, Some(d)) => DeltaAgrees(s, m, bs, i, d);
    case BlockStop(i) => StopAgrees(s, m, bs, i);
    case _ => OtherAgrees(s, m, bs, ev);
  }

  lemma OtherAgrees(s: State, m: Message, bs: seq<Building>, ev: Event)
    requires Agrees(s, m, bs) && !s.finished && Allowed(bs, ev)
    requires !ev.BlockStop? && (ev.BlockStart? ==> ev.block.None?) && (ev.BlockDeltaEvent? ==> ev.delta.None?)
    ensures var (after, out) := Step(s, ev);
            Agrees(after, Folded(m, out.frames), bs)
  {
    var (after, out) := Step(s, ev);
    SameToolFields(s, after, m.tools, Tools(bs));
    assert Folded(m, out.frames) == m by {
      assert forall t: string :: t + "" == t;
      if out.frames != [] {
        assert out.frames == [out.frames[0]];
        FoldedOne(m, out.frames[0]);
      }
    }
  }

  lemma {:induction false} StaysMarked(events: seq<Event>)
    requires WellFormed(events)
    ensures var s := Streamed(events).0;
            !s.finished && !s.failed && s.stopReason == StopReasonOf(events) && s.usage == UsageOf(events)
  {
    if events != [] {
      var before, ev := events[..|events| - 1], events[|events| - 1];
      StaysMarked(before);
      EventMarks(Streamed(before).0, ev);
    }
  }

  lemma {:induction false} StaysAgreed(events: seq<Event>)
    requires WellFormed(events)
    ensures Agrees(Streamed(events).0, Received(Streamed(events).1), Assembled(events))
  {
    if events == [] {
      assert TextParts([]) == [] && ThinkingParts([]) == [];
    } else {
      var before, ev := events[..|events| - 1], events[|events| - 1];
      StaysAgreed(before);
      StaysMarked(before);
      var (s, frames) := Streamed(before);
      EventAgrees(s, Received(frames), Assembled(before), ev);
      FoldedAppend(NO_MESSAGE, frames, Step(s, ev).1.frames);
    }
  }

  lemma StaysInStep(events: seq<Event>)
    requires WellFormed(events)
    ensures InStep(events)
  {
    StaysMarked(events);
    StaysAgreed(events);
  }

  lemma DeltaAgrees(s: State, m: Message, bs: seq<Building>, index: int, delta: BlockDelta)
    requires Agrees(s, m, bs) && Allowed(bs, BlockDeltaEvent(index, Some(delta)))
    ensures var (after, out) := OnDelta(s, index, Some(delta));
            Agrees(after, Folded(m, out.frames), ChangedAt(bs, index, Grow(delta)))
  {
    match delta
    case TextDelta(t) => TextDeltaAgrees(s, m, bs, index, t);
    case ThinkingDelta(t) => ThinkingDeltaAgrees(s, m, bs, index, t);
    case InputJsonDelta(p) => InputDeltaAgrees(s, m, bs, index, p);
    case OtherDelta => NothingChanges(bs, index, Grow(OtherDelta));
  }

  // --- The end of a stream ---

  function StoppedAll(bs: seq<Building>, list: seq<int>): seq<Building> {
    if list == [] then bs else ChangedAt(StoppedAll(bs, list[..|list| - 1]), list[|list| - 1], Stop)
  }

  lemma {:induction false} FlushAgrees(s: State, m: Message, bs: seq<Building>, list: seq<int>)
    requires Agrees(s, m, bs)
    ensures var (after, owed) := StopAll(s, list);
            Agrees(after, Folded(m, owed), StoppedAll(bs, list))
  {
    if list != [] {
      var n := |list| - 1;
      FlushAgrees(s, m, bs, list[..n]);
      var (mid, owed) := StopAll(s, list[..n]);
      StopAgrees(mid, Folded(m, owed), StoppedAll(bs, list[..n]), list[n]);
      FoldedAppend(m, owed, StopBlock(mid, list[n]).1.frames);
    }
  }

  /** Stopping blocks writes chunks only, and leaves none of the listed ones owing. */
  lemma {:induction false} FlushState(s: State, list: seq<int>)
    ensures var (after, owed) := StopAll(s, list);
            && after == s.(started := after.started, toolArgsSeen := after.toolArgsSeen)
            && after.toolArgsSeen >= s.toolArgsSeen
            && (forall i :: i in list && i in s.toolIndexByBlock ==> i in after.toolArgsSeen)
            && forall k :: 0 <= k < |owed| ==> owed[k].Data?
  {
    if list != [] {
      var n := |list| - 1;
      FlushState(s, list[..n]);
      assert list == list[..n] + [list[n]];
    }
  }

  /** Stopping a block changes none of its content. */
  lemma {:induction false} StoppedContent(bs: seq<Building>, list: seq<int>)
    ensures |StoppedAll(bs, list)| == |bs|
    ensures forall k :: 0 <= k < |bs| ==> StoppedAll(bs, list)[k] == bs[k].(stopped := StoppedAll(bs, list)[k].stopped)
  {
    if list != [] {
      StoppedContent(bs, list[..|list| - 1]);
    }
  }

  lemma {:induction false} SameContent(a: seq<Building>, b: seq<Building>)
    requires |a| == |b| && forall k :: 0 <= k < |a| ==> b[k] == a[k].(stopped := b[k].stopped)
    ensures Content(a) == Content(b)
  {
    if a != [] {
      SameContent(a[..|a| - 1], b[..|b| - 1]);
    }
  }

  lemma {:induction false} ToolCallsAre(bs: seq<Building>)
    ensures |ToolCallsOf(Content(bs))| == |Tools(bs)|
    ensures forall k :: 0 <= k < |Tools(bs)| ==>
              var b := Tools(bs)[k];
              ToolCallsOf(Content(bs))[k] == ToolCall(b.block.id, b.block.name, ToolArguments(Whole(b).input), "")
  {
    if bs != [] {
      var n := |bs| - 1;
      assert Content(bs)[..n] == Content(bs[..n]);
      ToolCallsAre(bs[..n]);
    }
  }

  /** An opener's input, with no fragment after it, reaches the client as the non-streaming
      form has it exactly when it is absent, null or an object. */
  lemma OpenerArgumentsAgree(input: string)
    requires RawValue(input) && input != "{"
    ensures Compact(OpenerArguments(input)) == ToolArguments(input) <==> !MemberSet(input) || input[0] == '{'
  {
    CompactEmptyObject();
    RawValueTrimmed(input);
    if MemberSet(input) && input[0] != '{' {
      assert !JsonSpace(input[0]);
      assert ToolArguments(input)[0] == input[0];
    }
  }

  lemma FinalArguments(b: Building)
    requires b.block.ToolUse? && (b.streamed != "" || b.stopped) && ObjectInput(b)
    ensures Compact(SoFar(b)) == ToolArguments(Whole(b).input)
  {
    if b.streamed == "" {
      OpenerArgumentsAgree(b.block.input);
    }
  }

  /** Equal calls, arguments up to JSON compaction. */
  predicate SameCall(streamed: ToolCall, whole: ToolCall) {
    streamed.id == whole.id && streamed.name == whole.name && streamed.signature == whole.signature
    && Compact(streamed.arguments) == whole.arguments
  }

  ghost predicate SameMessage(m: Message, c: Message) {
    && m.text == c.text && m.reasoning == c.reasoning && m.finish == c.finish && m.usage == c.usage
    && |m.tools| == |c.tools| && forall k :: 0 <= k < |c.tools| ==> SameCall(m.tools[k], c.tools[k])
  }

  lemma ClosedTools(s: State, calls: seq<ToolCall>, bs: seq<Building>)
    requires ToolsAgree(s, calls, Tools(bs)) && s.toolIndexByBlock.Keys <= s.toolArgsSeen
    requires forall b :: b in bs ==> ObjectInput(b)
    ensures var c := ToolCallsOf(Content(bs));
            |calls| == |c| && forall k :: 0 <= k < |c| ==> SameCall(calls[k], c[k])
  {
    var tools, c := Tools(bs), ToolCallsOf(Content(bs));
    ToolCallsAre(bs);
    forall k | 0 <= k < |c| ensures SameCall(calls[k], c[k]) {
      assert ToolAgrees(s, calls[k], tools[k], k);
      assert tools[k] in bs;
      FinalArguments(tools[k]);
    }
  }

  lemma FlushedContent(bs: seq<Building>, list: seq<int>)
    requires forall b :: b in bs ==> ObjectInput(b)
    ensures Content(StoppedAll(bs, list)) == Content(bs)
    ensures forall b :: b in StoppedAll(bs, list) ==> ObjectInput(b)
  {
    var stopped := StoppedAll(bs, list);
    StoppedContent(bs, list);
    SameContent(bs, stopped);
    forall b | b in stopped ensures ObjectInput(b) {
      var k :| 0 <= k < |stopped| && stopped[k] == b;
      var was := bs[k];
      assert was in bs && ObjectInput(was);
    }
  }

  /** What the client has once the pending blocks are stopped. */
  lemma FlushedMessage(s: State, m: Message, bs: seq<Building>)
    requires Agrees(s, m, bs) && forall b :: b in bs ==> ObjectInput(b)
    ensures var (mid, owed) := StopAll(s.(finished := true), Listing(Pending(s)));
            var closed := Folded(m, owed);
            && mid.stopReason == s.stopReason && mid.usage == s.usage && mid.finished
            && closed.finish.None? && closed.usage.None?
            && closed.text == TextOf(Content(bs)) && closed.reasoning == ReasoningOf(Content(bs))
            && var c := ToolCallsOf(Content(bs));
            |closed.tools| == |c| && forall k :: 0 <= k < |c| ==> SameCall(closed.tools[k], c[k])
  {
    var closing, list := s.(finished := true), Listing(Pending(s));
    SameToolFields(s, closing, m.tools, Tools(bs));
    FlushAgrees(closing, m, bs, list);
    FlushState(closing, list);
    FlushedContent(bs, list);
    var (mid, owed) := StopAll(closing, list);
    forall i | i in mid.toolIndexByBlock ensures i in mid.toolArgsSeen {
      assert i in list || i in s.toolArgsSeen;
    }
    ClosedTools(mid, Folded(m, owed).tools, StoppedAll(bs, list));
    PartsJoin(StoppedAll(bs, list));
  }

  lemma TerminalAgrees(s: State, m: Message)
    requires m.finish.None? && m.usage.None?
    ensures Folded(m, Terminal(s).1.frames)
            == m.(finish := Some(MapFinishReason(s.stopReason)),
                  usage := if s.usage != NO_USAGE then Some(BuildUsage(s.usage)) else None)
  {
    var out := Terminal(s).1.frames;
    assert out == [out[0]] + [Done];
    FoldedAppend(m, [out[0]], [Done]);
    FoldedOne(m, out[0]);
    FoldedOne(Extended(m, out[0]), Done);
  }

  lemma ClosedMessage(s: State, m: Message, bs: seq<Building>, resp: Response)
    requires Agrees(s, m, bs) && forall b :: b in bs ==> ObjectInput(b)
    requires resp == Response(Content(bs), s.stopReason, if s.usage == NO_USAGE then None else Some(s.usage))
    requires !s.finished && !s.failed
    ensures var (after, out) := Close(s);
            SameMessage(Folded(m, out.frames), BuildChatCompletion(resp))
  {
    FlushedMessage(s, m, bs);
    var (mid, owed) := StopAll(s.(finished := true), Listing(Pending(s)));
    TerminalAgrees(mid, Folded(m, owed));
    FoldedAppend(m, owed, Terminal(mid).1.frames);
  }

  lemma CloseEnds(s: State)
    requires !s.finished && !s.failed
    ensures var (after, out) := Close(s);
            && after.finished && !after.failed && out.error.None? && EndsOnce(out.frames, true)
  {
    FlushState(s.(finished := true), Listing(Pending(s)));
  }

  ghost predicate EndsOnce(frames: seq<Frame>, finished: bool) {
    && (finished ==> frames != [] && frames[|frames| - 1] == Done)
    && forall k :: 0 <= k < |frames| - (if finished then 1 else 0) ==> frames[k] != Done
  }

  lemma CloseAgrees(events: seq<Event>)
    requires WellFormed(events) && forall b :: b in Assembled(events) ==> ObjectInput(b)
    ensures var (s, frames) := Streamed(events);
            var (after, out) := Close(s);
            && after.finished && out.error.None? && EndsOnce(out.frames, true)
            && SameMessage(Received(frames + out.frames), BuildChatCompletion(AssembledResponse(events)))
  {
    StaysInStep(events);
    var (s, frames) := Streamed(events);
    ClosedMessage(s, Received(frames), Assembled(events), AssembledResponse(events));
    CloseEnds(s);
    FoldedAppend(NO_MESSAGE, frames, Close(s).1.frames);
  }

  /** A well-formed stream closed by message_stop folds to the non-streaming completion. */
  lemma StreamingAgrees(events: seq<Event>)
    requires WellFormed(events) && forall b :: b in Assembled(events) ==> ObjectInput(b)
    ensures var (s, frames) := Streamed(events + [MessageStop]);
            && s.finished && EndsOnce(frames, true)
            && SameMessage(Received(frames), BuildChatCompletion(AssembledResponse(events)))
  {
    StaysInStep(events);
    CloseAgrees(events);
    DoneIsLast(events + [MessageStop]);
    StreamedOne(events, MessageStop);
  }

  lemma StreamedUsage(events: seq<Event>)
    requires WellFormed(events) && forall b :: b in Assembled(events) ==> ObjectInput(b)
    ensures Received(Streamed(events + [MessageStop]).1).usage == BuildChatCompletion(AssembledResponse(events)).usage
  {
    StreamingAgrees(events);
  }

  lemma UsageBuilt(content: seq<Block>, stopReason: string, usage: Option<UsageBlock>)
    ensures BuildChatCompletion(Response(content, stopReason, usage)).usage
            == if usage.Some? then Some(BuildUsage(usage.value)) else None
  {
  }

  /** Against a response body that reports the same counts, zeros included, the usage agrees
      exactly when some count is not zero: the stream omits it, the body's form says 0/0/0. */
  lemma ZeroUsageUnreported(events: seq<Event>)
    requires WellFormed(events) && forall b :: b in Assembled(events) ==> ObjectInput(b)
    ensures var body := Response(Content(Assembled(events)), StopReasonOf(events), Some(UsageOf(events)));
            Received(Streamed(events + [MessageStop]).1).usage == BuildChatCompletion(body).usage
            <==> UsageOf(events) != NO_USAGE
  {
    var blocks, reason, u := Content(Assembled(events)), StopReasonOf(events), UsageOf(events);
    StreamedUsage(events);
    UsageBuilt(blocks, reason, Some(u));
    UsageBuilt(blocks, reason, if u == NO_USAGE then None else Some(u));
  }

  lemma StreamedOne(events: seq<Event>, ev: Event)
    ensures var (s, frames) := Streamed(events);
            Streamed(events + [ev]) == (Step(s, ev).0, frames + Step(s, ev).1.frames)
  {
    assert (events + [ev])[..|events|] == events;
  }

  /** One that ends without message_stop does so too when a stop reason came. */
  lemma EofAgrees(events: seq<Event>)
    requires WellFormed(events) && forall b :: b in Assembled(events) ==> ObjectInput(b)
    requires StopReasonOf(events) != ""
    ensures var (s, frames) := Streamed(events);
            var (after, out) := AtEof(s);
            out.error.None? && SameMessage(Received(frames + out.frames), BuildChatCompletion(AssembledResponse(events)))
  {
    StaysInStep(events);
    CloseAgrees(events);
  }

  /** With no stop reason the stream fails as truncated: the usage still goes out, but no finish
      reason and no end sentinel. */
  lemma TruncatedAtEof(events: seq<Event>)
    requires WellFormed(events) && StopReasonOf(events) == ""
    ensures var (s, frames) := Streamed(events);
            var (after, out) := AtEof(s);
            var m := Received(frames + out.frames);
            && out.error == Some(Truncated) && Done !in out.frames && m.finish.None?
            && m == Received(frames).(usage := BuildChatCompletion(AssembledResponse(events)).usage)
  {
    StaysInStep(events);
    var (s, frames) := Streamed(events);
    FoldedAppend(NO_MESSAGE, frames, AtEof(s).1.frames);
    UsageOnlyFolds(s, Received(frames));
  }

  lemma UsageOnlyFolds(s: State, m: Message)
    requires !s.finished && !s.failed && m.usage.None?
    ensures var frames := UsageOnly(s).1;
            && Done !in frames
            && Folded(m, frames) == m.(usage := if s.usage == NO_USAGE then None else Some(BuildUsage(s.usage)))
  {
    if s.usage != NO_USAGE {
      FoldedOne(m, UsageOnly(s).1[0]);
      assert m.text + "" == m.text && m.reasoning + "" == m.reasoning;
    }
  }

  /** On every sequence of payloads, well formed or not: the end sentinel is written once,
      last, exactly by the stream that finished, and a failed stream never finishes. */
  lemma {:induction false} DoneIsLast(events: seq<Event>)
    ensures var (s, frames) := Streamed(events);
            !(s.finished && s.failed) && EndsOnce(frames, s.finished)
  {
    if events != [] {
      var before, ev := events[..|events| - 1], events[|events| - 1];
      DoneIsLast(before);
      var (s, frames) := Streamed(before);
      if s.finished {
        assert frames + [] == frames;
      } else {
        StepEnds(s, ev);
      }
    }
  }

  lemma StepEnds(s: State, ev: Event)
    requires !s.finished
    ensures var (after, out) := Step(s, ev);
            EndsOnce(out.frames, after.finished) && (after.finished ==> !after.failed)
  {
    if ev.MessageStop? && !s.failed {
      CloseEnds(s);
    }
  }
}
