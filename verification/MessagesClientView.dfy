/** What a Messages client gets of a chat upstream's stream, in the words of the two protocols
    (internal/anthropic/stream.go and openai_types.go). */
module MessagesClientView {
  import opened Wrappers
  import opened ChatChunks
  import opened ToolIds
  import opened IngressStream
  import R = RelayedChunks
  import G = IngressGrammar

  // --- What the chunks said ---

  function Finishes(c: Incoming): Option<string> {
    if c.choice.Some? && c.choice.value.finish.Some? && c.choice.value.finish.value != "" then c.choice.value.finish else None
  }

  /** The last finish reason stated, or none. */
  function LastFinish(chunks: seq<Incoming>): string {
    if chunks == [] then ""
    else
      var f := Finishes(chunks[|chunks| - 1]);
      if f.Some? then f.value else LastFinish(chunks[..|chunks| - 1])
  }

  /** The last positive prompt count, with the share of it that was cached. */
  function LastPrompt(chunks: seq<Incoming>): (int, int) {
    if chunks == [] then (0, 0)
    else
      var u := chunks[|chunks| - 1].usage;
      if u.Some? && u.value.prompt > 0 then (u.value.prompt, if u.value.cached.Some? then u.value.cached.value else 0)
      else LastPrompt(chunks[..|chunks| - 1])
  }

  function LastCompletion(chunks: seq<Incoming>): int {
    if chunks == [] then 0
    else
      var u := chunks[|chunks| - 1].usage;
      if u.Some? && u.value.completion > 0 then u.value.completion else LastCompletion(chunks[..|chunks| - 1])
  }

  predicate StartsTool(e: OutEvent) { e.StartTool? }

  ghost predicate AnyTool(events: seq<OutEvent>) {
    exists k :: 0 <= k < |events| && StartsTool(events[k])
  }

  lemma AnyToolAppend(a: seq<OutEvent>, b: seq<OutEvent>)
    ensures AnyTool(a + b) <==> AnyTool(a) || AnyTool(b)
  {
    var both := a + b;
    if k :| 0 <= k < |a| && StartsTool(a[k]) {
      assert StartsTool(both[k]);
    }
    if k :| 0 <= k < |b| && StartsTool(b[k]) {
      assert StartsTool(both[|a| + k]);
    }
    if k :| 0 <= k < |both| && StartsTool(both[k]) {
      assert if k < |a| then StartsTool(a[k]) else StartsTool(b[k - |a|]);
    }
  }

  // --- The translator keeps all of it ---

  ghost predicate Keeps(chunks: seq<Incoming>, z: State, out: seq<OutEvent>) {
    && z.finishReason == LastFinish(chunks) && (z.promptTokens, z.cachedTokens) == LastPrompt(chunks)
    && z.completionTokens == LastCompletion(chunks) && !z.finished
    && (z.toolBlockByIndex != map[] <==> AnyTool(out))
    && Opened(chunks, z, out)
  }

  /** Any output begins with the opening events, with the prompt the chunks had revealed by then. */
  ghost predicate Opened(chunks: seq<Incoming>, z: State, out: seq<OutEvent>) {
    && (z.started <==> out != [])
    && (z.started ==> exists n :: 0 <= n <= |chunks| && Begins(LastPrompt(chunks[..n]), out))
  }

  ghost predicate Begins(prompt: (int, int), out: seq<OutEvent>) {
    && |out| >= 2 && out[0].MessageStart? && out[1].Ping?
    && Splits(prompt, out[0].inputTokens, out[0].cacheReadTokens)
  }

  /** Input and cache reads add up to the prompt; a cached count that cannot be a share of it is none. */
  ghost predicate Splits(prompt: (int, int), input: int, cacheRead: int) {
    && input + cacheRead == prompt.0
    && (0 < prompt.1 <= prompt.0 ==> cacheRead == prompt.1)
    && (!(0 < prompt.1 <= prompt.0) ==> cacheRead == 0)
  }

  lemma StartedOnce(z: State)
    ensures var (a, out) := EnsureStarted(z);
            && a == z.(started := true) && !AnyTool(out)
            && (if z.started then out == [] else Begins((z.promptTokens, z.cachedTokens), out))
  {
  }

  /** What text and fragments add to the run: nothing to the counters, the opening events first. */
  ghost predicate Adds(z: State, a: State, out: seq<OutEvent>) {
    && R.SameCounters(z, a) && a.finished == z.finished
    && (a.started <==> z.started || out != [])
    && (!z.started && a.started ==> Begins((z.promptTokens, z.cachedTokens), out))
    && (a.toolBlockByIndex != map[] <==> z.toolBlockByIndex != map[] || AnyTool(out))
  }

  lemma AddsThen(z: State, a: State, b: State, first: seq<OutEvent>, second: seq<OutEvent>)
    requires Adds(z, a, first) && Adds(a, b, second)
    ensures Adds(z, b, first + second)
  {
    AnyToolAppend(first, second);
    if first == [] {
      assert first + second == second;
    }
  }

  lemma TextAdds(z: State, text: string)
    ensures var (a, out) := OnText(z, text); Adds(z, a, out)
  {
    if text != "" {
      R.TextState(z, text);
      StartedOnce(z);
      var (a, starting) := EnsureStarted(z);
      var (b, opening) := OpenTextBlock(a);
      var rest := opening + [TextDelta(b.curIndex, text)];
      assert starting + opening + [TextDelta(b.curIndex, text)] == starting + rest;
      assert !AnyTool(rest);
      AnyToolAppend(starting, rest);
    }
  }

  lemma FragmentAdds(z: State, f: ToolFragment)
    ensures var (a, out) := OnFragment(z, f); a.started && R.SameCounters(z, a) && a.finished == z.finished
    ensures var (a, out) := OnFragment(z, f); out != [] || z.started
  {
  }

  lemma FragmentOpens(z: State, f: ToolFragment)
    ensures var (a, out) := OnFragment(z, f);
            && a.toolBlockByIndex != map[]
            && (!z.started ==> Begins((z.promptTokens, z.cachedTokens), out))
            && (z.toolBlockByIndex == map[] ==> AnyTool(out))
  {
    StartedOnce(z);
    var (a, starting) := EnsureStarted(z);
    var (x, index) := Resolve(a.indexer, f.index, f.id, a.toolBlockByIndex.Keys);
    var (after, out) := OnFragment(z, f);
    assert index in after.toolBlockByIndex;
    if index !in z.toolBlockByIndex {
      var opening := OpenToolBlock(a.(indexer := x), index, f.id, f.name, f.signature).1;
      assert StartsTool(opening[|opening| - 1]);
      assert out[|starting| + |opening| - 1] == opening[|opening| - 1];
      assert StartsTool(out[|starting| + |opening| - 1]);
    }
  }

  /** A signature that comes behind the opening of its call is counted, since no id is left to carry it. */
  lemma LateSignaturesCounted(z: State, f: ToolFragment)
    ensures var (a, out) := OnFragment(z, f);
            a.lateSignatures == z.lateSignatures + if f.signature != "" && !AnyTool(out) then 1 else 0
  {
    var (a, starting) := EnsureStarted(z);
    var (x, index) := Resolve(a.indexer, f.index, f.id, a.toolBlockByIndex.Keys);
    var out := OnFragment(z, f).1;
    if index in z.toolBlockByIndex {
      assert forall k :: 0 <= k < |out| ==> !StartsTool(out[k]);
    } else {
      var opening := OpenToolBlock(a.(indexer := x), index, f.id, f.name, f.signature).1;
      assert StartsTool(opening[|opening| - 1]);
      assert out[|starting| + |opening| - 1] == opening[|opening| - 1];
      assert StartsTool(out[|starting| + |opening| - 1]);
    }
  }

  lemma {:induction false} FragmentsAdd(z: State, fragments: seq<ToolFragment>)
    ensures var (a, out) := OnFragments(z, fragments); Adds(z, a, out)
  {
    if fragments != [] {
      var n := |fragments| - 1;
      var (a, before) := OnFragments(z, fragments[..n]);
      var (b, more) := OnFragment(a, fragments[n]);
      FragmentsAdd(z, fragments[..n]);
      FragmentAdds(a, fragments[n]);
      FragmentOpens(a, fragments[n]);
      AddsThen(z, a, b, before, more);
    }
  }

  lemma CountsKept(chunks: seq<Incoming>, c: Incoming, z: State, out: seq<OutEvent>)
    requires Keeps(chunks, z, out)
    ensures var y := Counted(z, c.usage);
            && (y.promptTokens, y.cachedTokens) == LastPrompt(chunks + [c]) && y.completionTokens == LastCompletion(chunks + [c])
            && y == z.(promptTokens := y.promptTokens, cachedTokens := y.cachedTokens, completionTokens := y.completionTokens)
  {
    assert (chunks + [c])[..|chunks|] == chunks;
  }

  /** The chunk's counters and finish reason are in before its text and fragments. */
  function Heard(z: State, c: Incoming): State {
    var y := Counted(z, c.usage);
    if Finishes(c).Some? then y.(finishReason := Finishes(c).value) else y
  }

  lemma ChunkAdds(z: State, c: Incoming)
    ensures var (a, out) := OnChunk(z, c); Adds(Heard(z, c), a, out)
  {
    if c.choice.Some? {
      var y, delta := Heard(z, c), c.choice.value.delta;
      var (b, text) := OnText(y, delta.content);
      TextAdds(y, delta.content);
      FragmentsAdd(b, delta.tools);
      AddsThen(y, b, OnFragments(b, delta.tools).0, text, OnFragments(b, delta.tools).1);
    }
  }

  lemma OpenedStays(chunks: seq<Incoming>, c: Incoming, z: State, y: State, a: State, before: seq<OutEvent>, more: seq<OutEvent>)
    requires Opened(chunks, z, before) && y.started == z.started && Adds(y, a, more)
    requires (y.promptTokens, y.cachedTokens) == LastPrompt(chunks + [c])
    ensures Opened(chunks + [c], a, before + more)
  {
    var longer := chunks + [c];
    if z.started {
      var n :| 0 <= n <= |chunks| && Begins(LastPrompt(chunks[..n]), before);
      assert longer[..n] == chunks[..n];
      assert Begins(LastPrompt(longer[..n]), before + more);
    } else if a.started {
      assert longer[..|longer|] == longer && before + more == more;
      assert Begins(LastPrompt(longer[..|longer|]), before + more);
    }
  }

  lemma {:induction false} RunKeeps(messageId: string, chunks: seq<Incoming>)
    ensures var (z, out) := G.Translated(messageId, chunks); Keeps(chunks, z, out)
  {
    if chunks != [] {
      var n := |chunks| - 1;
      var (z, before) := G.Translated(messageId, chunks[..n]);
      var (a, more) := OnChunk(z, chunks[n]);
      RunKeeps(messageId, chunks[..n]);
      ChunkAdds(z, chunks[n]);
      CountsKept(chunks[..n], chunks[n], z, before);
      assert chunks == chunks[..n] + [chunks[n]];
      OpenedStays(chunks[..n], chunks[n], z, Heard(z, chunks[n]), a, before, more);
      AnyToolAppend(before, more);
    }
  }

  // --- How the turn ends ---

  /** The stop reason each finish reason is told as; a turn that called tools and ended in the ordinary
      way stops for them. */
  ghost predicate ToldAs(finish: string, called: bool, stop: string) {
    && (stop == "max_tokens" <==> finish == "length")
    && (stop == "refusal" <==> finish == "content_filter")
    && (stop == "tool_use" <==> finish in {"tool_calls", "function_call"} || (called && finish in {"", "stop"}))
    && (stop == "end_turn" <==> finish !in {"length", "content_filter", "tool_calls", "function_call"}
                                && !(called && finish in {"", "stop"}))
  }

  ghost predicate EndsAs(all: seq<OutEvent>, finish: string, called: bool, prompt: (int, int), completion: int) {
    && |all| >= 2 && all[|all| - 1] == MessageStop
    && var end := all[|all| - 2];
    && end.MessageDelta? && ToldAs(finish, called, end.stopReason)
    && Splits(prompt, end.inputTokens, end.cacheReadTokens) && end.outputTokens == completion
  }

  lemma StopIsTold(finish: string, called: bool)
    ensures ToldAs(finish, called, StopReasonFor(finish, called))
  {
    var stop := StopReasonFor(finish, called);
    assert |stop| in {10, 7, 8} && (|stop| == 10 ==> stop[0] == 'm') && (|stop| == 7 ==> stop == "refusal")
        && (|stop| == 8 ==> stop[0] == 't' || stop[0] == 'e');
  }

  /** Whatever chunks came, the terminal events state the last finish reason, as it reads beside the
      calls written, and the last counts, the cached share apart; and the opening events came first. */
  lemma TurnEnds(messageId: string, chunks: seq<Incoming>)
    ensures var (z, out) := G.Translated(messageId, chunks);
            var all := out + OnFinish(z).1;
            && EndsAs(all, LastFinish(chunks), AnyTool(out), LastPrompt(chunks), LastCompletion(chunks))
            && exists n :: 0 <= n <= |chunks| && Begins(LastPrompt(chunks[..n]), all)
  {
    var (z, out) := G.Translated(messageId, chunks);
    RunKeeps(messageId, chunks);
    FinishEvents(z);
    var all := out + OnFinish(z).1;
    if z.started {
      var n :| 0 <= n <= |chunks| && Begins(LastPrompt(chunks[..n]), out);
      assert Begins(LastPrompt(chunks[..n]), all);
    } else {
      assert chunks[..|chunks|] == chunks && all == OnFinish(z).1;
      assert Begins(LastPrompt(chunks[..|chunks|]), all);
    }
  }

  lemma FinishEvents(z: State)
    requires !z.finished
    ensures var out := OnFinish(z).1;
            && EndsAs(out, z.finishReason, z.toolBlockByIndex != map[], (z.promptTokens, z.cachedTokens), z.completionTokens)
            && (!z.started ==> Begins((z.promptTokens, z.cachedTokens), out))
  {
    StopIsTold(z.finishReason, z.toolBlockByIndex != map[]);
  }

  // --- Ids for calls that had none ---

  predicate IsDigit(c: char) { '0' <= c <= '9' }

  ghost predicate AllDigits(s: string) { forall k :: 0 <= k < |s| ==> IsDigit(s[k]) }

  function Numeral(s: string): int {
    if s == "" then 0 else 10 * Numeral(s[..|s| - 1]) + (s[|s| - 1] as int - '0' as int)
  }

  lemma {:induction false} DecimalReads(n: nat)
    ensures Decimal(n) != "" && AllDigits(Decimal(n)) && Numeral(Decimal(n)) == n
  {
    if n < 10 {
      assert Decimal(n)[..0] == "";
    } else {
      DecimalReads(n / 10);
      var s := Decimal(n / 10) + Digit(n % 10);
      assert s[..|s| - 1] == Decimal(n / 10) && s[|s| - 1] == '0' + (n % 10) as char;
    }
  }

  /** Numerals followed by nothing, or by no digit, are told apart. */
  lemma DigitsEnd(a: string, x: string, b: string, y: string)
    requires AllDigits(a) && AllDigits(b) && a + x == b + y
    requires (x == "" || !IsDigit(x[0])) && (y == "" || !IsDigit(y[0]))
    ensures a == b
  {
    var s := a + x;
    assert s == b + y;
    forall k | 0 <= k < |s|
      ensures IsDigit(s[k]) <==> if k < |a| then IsDigit(a[k]) else IsDigit(x[k - |a|])
      ensures IsDigit(s[k]) <==> if k < |b| then IsDigit(b[k]) else IsDigit(y[k - |b|])
    {
      assert s[k] == (b + y)[k];
    }
    var shorter := if |a| < |b| then |a| else |b|;
    assert shorter < |s| ==> IsDigit(s[shorter]) || !IsDigit(s[shorter]);
    assert s[..|a|] == a && s[..|b|] == b;
  }

  /** What signing puts behind an id begins with no digit. */
  lemma SignedSuffix(id: string, signature: string) returns (suffix: string)
    ensures SignedToolUseId(id, signature) == id + suffix && (suffix == "" || !IsDigit(suffix[0]))
  {
    if signature == "" {
      suffix := "";
      assert id + "" == id;
    } else {
      suffix := SignedToolUseId(id, signature)[|id|..];
      assert SignedToolUseId(id, signature) == id + suffix;
    }
  }

  lemma SameTail(front: string, a: string, x: string, b: string, y: string)
    requires front + a + x == front + b + y
    ensures a + x == b + y
  {
    var s := front + a + x;
    assert s[|front|..] == a + x;
    assert s[|front|..] == b + y;
  }

  /** Two calls the upstream gave no id are never shown under one: their blocks' numbers tell them
      apart, signed or not. */
  lemma SyntheticIdsDiffer(messageId: string, m: nat, n: nat, a: string, b: string)
    requires m != n
    ensures R.IdAt(messageId, m, "", a) != R.IdAt(messageId, n, "", b)
  {
    var front := "toolu_" + messageId + "_";
    DecimalReads(m);
    DecimalReads(n);
    var x := SignedSuffix(front + Decimal(m), a);
    var y := SignedSuffix(front + Decimal(n), b);
    if front + Decimal(m) + x == front + Decimal(n) + y {
      SameTail(front, Decimal(m), x, Decimal(n), y);
      DigitsEnd(Decimal(m), x, Decimal(n), y);
    }
  }
}
