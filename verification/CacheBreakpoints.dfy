/** Prompt-cache breakpoints on a built Messages request (internal/anthropicegress/caching.go). */
module CacheBreakpoints {
  import opened Wrappers
  import opened GoText
  import opened EgressRequest
  import C = ChatRequest
  import T = EgressTurns

  const MAX_CACHE_BREAKPOINTS := 4

  /** The three parts of a request a breakpoint may sit on. */
  datatype Parts = Parts(tools: seq<Tool>, system: System, messages: seq<Message>)

  predicate Cacheable(b: Block) { !b.body.Text? || TrimSpace(b.body.text) != "" }

  /** The last block a breakpoint may sit on, or -1. */
  function LastCacheable(blocks: seq<Block>): (j: int)
    ensures -1 <= j < |blocks|
    ensures j >= 0 ==> Cacheable(blocks[j])
    ensures forall k :: j < k < |blocks| ==> !Cacheable(blocks[k])
  {
    if blocks == [] then -1
    else if Cacheable(blocks[|blocks| - 1]) then |blocks| - 1
    else LastCacheable(blocks[..|blocks| - 1])
  }

  function MarkedTurn(m: Message): Message {
    var blocks := ContentBlocks(m.content);
    var j := LastCacheable(blocks);
    if j < 0 then m else m.(content := Blocks(blocks[j := blocks[j].(marked := true)]))
  }

  function MarkedMessages(messages: seq<Message>): seq<Message> {
    seq(|messages|, i requires 0 <= i < |messages| => if i >= |messages| - 2 then MarkedTurn(messages[i]) else messages[i])
  }

  function MarkedTools(tools: seq<Tool>): seq<Tool> {
    if tools == [] then tools else tools[|tools| - 1 := tools[|tools| - 1].(marked := true)]
  }

  function MarkedSystem(system: System): System {
    if system.Prompt? && TrimSpace(system.text) != "" then MarkedPrompt(system.text) else system
  }

  function Cached(p: Parts): Parts {
    Parts(MarkedTools(p.tools), MarkedSystem(p.system), MarkedMessages(p.messages))
  }

  /** The request under construction, marked in place. */
  class Draft {
    var tools: seq<Tool>
    var system: System
    var messages: seq<Message>

    function Now(): Parts
      reads this
    {
      Parts(tools, system, messages)
    }

    constructor (p: Parts)
      ensures Now() == p
    {
      tools, system, messages := p.tools, p.system, p.messages;
    }

    method ApplyCacheBreakpoints()
      modifies this
      ensures Now() == Cached(old(Now()))
    {
      var n := |tools|;
      if n > 0 { tools := tools[n - 1 := tools[n - 1].(marked := true)]; }
      if system.Prompt? && TrimSpace(system.text) != "" { system := MarkedPrompt(system.text); }
      MarkTurns();
    }

    method MarkTurns()
      modifies `messages
      ensures messages == MarkedMessages(old(messages))
    {
      ghost var before := messages;
      var i := |messages| - 1;
      while i >= 0 && i >= |messages| - 2
        invariant -1 <= i < |messages| == |before| && |messages| - 3 <= i
        invariant forall k :: 0 <= k <= i ==> messages[k] == before[k]
        invariant forall k :: i < k < |messages| ==> messages[k] == MarkedTurn(before[k])
      {
        var marked := MarkTurn(messages[i]);
        messages := messages[i := marked];
        i := i - 1;
      }
    }
  }

  method MarkTurn(m: Message) returns (marked: Message)
    ensures marked == MarkedTurn(m)
  {
    marked := m;
    var blocks := ContentBlocks(m.content);
    var j := LastCacheableBlock(blocks);
    if j >= 0 {
      marked := m.(content := Blocks(blocks[j := blocks[j].(marked := true)]));
    }
  }

  method LastCacheableBlock(blocks: seq<Block>) returns (j: int)
    ensures j == LastCacheable(blocks)
  {
    j := |blocks| - 1;
    while j >= 0
      invariant -1 <= j < |blocks|
      invariant LastCacheable(blocks) == LastCacheable(blocks[..j + 1])
    {
      if !blocks[j].body.Text? || TrimSpace(blocks[j].body.text) != "" { return; }
      assert blocks[..j + 1][..j] == blocks[..j];
      j := j - 1;
    }
  }

  // --- How many ---

  function MarkedBlocks(blocks: seq<Block>): nat {
    if blocks == [] then 0
    else MarkedBlocks(blocks[..|blocks| - 1]) + if blocks[|blocks| - 1].marked then 1 else 0
  }

  function MarksInTurns(messages: seq<Message>): nat {
    if messages == [] then 0
    else MarksInTurns(messages[..|messages| - 1]) + MarkedBlocks(ContentBlocks(messages[|messages| - 1].content))
  }

  function MarksInTools(tools: seq<Tool>): nat {
    if tools == [] then 0 else MarksInTools(tools[..|tools| - 1]) + if tools[|tools| - 1].marked then 1 else 0
  }

  function Marks(p: Parts): nat {
    MarksInTools(p.tools) + (if p.system.MarkedPrompt? then 1 else 0) + MarksInTurns(p.messages)
  }

  ghost predicate Unmarked(p: Parts) { Marks(p) == 0 }

  lemma {:induction false} MarkOne(blocks: seq<Block>, j: nat)
    requires j < |blocks|
    ensures MarkedBlocks(blocks[j := blocks[j].(marked := true)]) <= MarkedBlocks(blocks) + 1
    ensures !blocks[j].marked ==> MarkedBlocks(blocks[j := blocks[j].(marked := true)]) == MarkedBlocks(blocks) + 1
  {
    var n := |blocks| - 1;
    var after := blocks[j := blocks[j].(marked := true)];
    if j == n {
      assert after[..n] == blocks[..n];
    } else {
      assert after[..n] == blocks[..n][j := blocks[j].(marked := true)];
      MarkOne(blocks[..n], j);
    }
  }

  lemma {:induction false} NoMarks(blocks: seq<Block>)
    ensures MarkedBlocks(blocks) == 0 <==> forall k :: 0 <= k < |blocks| ==> !blocks[k].marked
  {
    if blocks != [] {
      NoMarks(blocks[..|blocks| - 1]);
    }
  }

  /** One breakpoint for a turn that has a block to carry it. */
  function TurnMark(m: Message): nat { if LastCacheable(ContentBlocks(m.content)) >= 0 then 1 else 0 }

  lemma MarkedTurnCount(m: Message)
    requires MarkedBlocks(ContentBlocks(m.content)) == 0
    ensures MarkedBlocks(ContentBlocks(MarkedTurn(m).content)) == TurnMark(m)
  {
    var blocks := ContentBlocks(m.content);
    var j := LastCacheable(blocks);
    if j >= 0 {
      NoMarks(blocks);
      MarkOne(blocks, j);
    }
  }

  lemma {:induction false} NoTurnMarks(messages: seq<Message>)
    requires MarksInTurns(messages) == 0
    ensures forall i :: 0 <= i < |messages| ==> MarkedBlocks(ContentBlocks(messages[i].content)) == 0
  {
    if messages != [] {
      NoTurnMarks(messages[..|messages| - 1]);
    }
  }

  lemma OneMoreTurn(messages: seq<Message>, m: Message)
    ensures MarksInTurns(messages + [m]) == MarksInTurns(messages) + MarkedBlocks(ContentBlocks(m.content))
  {
    assert (messages + [m])[..|messages|] == messages;
  }

  lemma TwoMoreTurns(rest: seq<Message>, a: Message, b: Message)
    ensures MarksInTurns(rest + [a] + [b])
            == MarksInTurns(rest) + MarkedBlocks(ContentBlocks(a.content)) + MarkedBlocks(ContentBlocks(b.content))
  {
    OneMoreTurn(rest, a);
    OneMoreTurn(rest + [a], b);
  }

  lemma LastTwo(messages: seq<Message>)
    requires |messages| >= 2
    ensures var n := |messages|; messages == messages[..n - 2] + [messages[n - 2]] + [messages[n - 1]]
  {
  }

  lemma LastTwoReplaced(before: seq<Message>, after: seq<Message>, a: Message, b: Message)
    requires |after| == |before| >= 2
    requires forall i :: 0 <= i < |before| - 2 ==> after[i] == before[i]
    requires after[|before| - 2] == a && after[|before| - 1] == b
    ensures after == before[..|before| - 2] + [a] + [b]
  {
  }

  lemma MarkedSplit(messages: seq<Message>)
    requires |messages| >= 2
    ensures var n := |messages|;
            MarkedMessages(messages) == messages[..n - 2] + [MarkedTurn(messages[n - 2])] + [MarkedTurn(messages[n - 1])]
  {
    var n := |messages|;
    LastTwoReplaced(messages, MarkedMessages(messages), MarkedTurn(messages[n - 2]), MarkedTurn(messages[n - 1]));
  }

  lemma TwoTurnMarks(messages: seq<Message>)
    requires MarksInTurns(messages) == 0 && |messages| >= 2
    ensures MarksInTurns(MarkedMessages(messages)) == TurnMark(messages[|messages| - 1]) + TurnMark(messages[|messages| - 2])
  {
    LastTwo(messages);
    MarkedSplit(messages);
    LastTwoMarks(messages[..|messages| - 2], messages[|messages| - 2], messages[|messages| - 1]);
  }

  /** The breakpoints of the last two turns, as many as can carry one. */
  function LastTurnMarks(messages: seq<Message>): nat {
    (if |messages| >= 1 then TurnMark(messages[|messages| - 1]) else 0)
    + (if |messages| >= 2 then TurnMark(messages[|messages| - 2]) else 0)
  }

  lemma TurnMarks(messages: seq<Message>)
    requires MarksInTurns(messages) == 0
    ensures MarksInTurns(MarkedMessages(messages)) == LastTurnMarks(messages)
  {
    if |messages| >= 2 {
      TwoTurnMarks(messages);
    } else if |messages| == 1 {
      OneTurnMark(messages[0]);
      assert MarkedMessages(messages) == [MarkedTurn(messages[0])] && messages == [messages[0]];
    }
  }

  lemma OneTurnMark(m: Message)
    requires MarksInTurns([m]) == 0
    ensures MarksInTurns([MarkedTurn(m)]) == TurnMark(m)
  {
    assert [] + [m] == [m] && [] + [MarkedTurn(m)] == [MarkedTurn(m)];
    OneMoreTurn([], m);
    OneMoreTurn([], MarkedTurn(m));
    MarkedTurnCount(m);
  }

  lemma LastTwoMarks(rest: seq<Message>, a: Message, b: Message)
    requires MarksInTurns(rest + [a] + [b]) == 0
    ensures MarksInTurns(rest + [MarkedTurn(a)] + [MarkedTurn(b)]) == TurnMark(a) + TurnMark(b)
  {
    TwoMoreTurns(rest, a, b);
    MarkedTurnCount(a);
    MarkedTurnCount(b);
    TwoMoreTurns(rest, MarkedTurn(a), MarkedTurn(b));
  }

  lemma {:induction false} ToolMarks(tools: seq<Tool>)
    requires MarksInTools(tools) == 0
    ensures MarksInTools(MarkedTools(tools)) == if tools == [] then 0 else 1
  {
    if tools != [] {
      assert MarkedTools(tools)[..|tools| - 1] == tools[..|tools| - 1];
    }
  }

  /** Exactly one breakpoint each for the tools, a system prompt that is not blank, and either
      of the last two turns with a block to carry it: never more than four. */
  lemma BreakpointCount(p: Parts)
    requires Unmarked(p)
    ensures Marks(Cached(p)) <= MAX_CACHE_BREAKPOINTS
    ensures Marks(Cached(p))
            == (if p.tools == [] then 0 else 1)
             + (if p.system.Prompt? && TrimSpace(p.system.text) != "" then 1 else 0)
             + LastTurnMarks(p.messages)
  {
    ToolMarks(p.tools);
    TurnMarks(p.messages);
  }

  // --- What the translator drafts carries none yet ---

  function PartsOf(req: Request): Parts { Parts(req.tools, req.system, req.messages) }

  lemma {:induction false} MarksAppend(a: seq<Block>, b: seq<Block>)
    ensures MarkedBlocks(a + b) == MarkedBlocks(a) + MarkedBlocks(b)
  {
    if b == [] {
      assert a + b == a;
    } else {
      assert (a + b)[..|a + b| - 1] == a + b[..|b| - 1];
      MarksAppend(a, b[..|b| - 1]);
    }
  }

  /** The turns carry what their blocks do, read in one row. */
  lemma {:induction false} MarksFlat(messages: seq<Message>)
    ensures MarksInTurns(messages) == MarkedBlocks(T.Flat(messages))
  {
    if messages != [] {
      var n := |messages| - 1;
      MarksFlat(messages[..n]);
      MarksAppend(T.Flat(messages[..n]), ContentBlocks(messages[n].content));
    }
  }

  lemma {:induction false} NewToolsUnmarked(tools: seq<C.Tool>)
    ensures MarksInTools(ToolsOf(tools)) == 0
  {
    if tools != [] {
      var n := |tools| - 1;
      assert ToolsOf(tools)[..n] == ToolsOf(tools[..n]);
      NewToolsUnmarked(tools[..n]);
    }
  }

  lemma PiecesUnmarked(blocks: seq<Block>, pieces: seq<T.Piece>)
    requires T.OneEach(blocks, pieces)
    ensures MarkedBlocks(blocks) == 0
  {
    NoMarks(blocks);
    forall k | 0 <= k < |blocks| ensures !blocks[k].marked {
      assert T.PieceBlock(pieces[k]) == Some(blocks[k]);
    }
  }

  lemma NewTurnsUnmarked(messages: seq<C.Message>)
    requires TurnsOf(messages).Success?
    ensures MarksInTurns(TurnsOf(messages).value.1) == 0
  {
    var turns := TurnsOf(messages).value.1;
    T.TurnsAlternateOneEach(messages);
    MarksFlat(turns);
    PiecesUnmarked(T.Flat(turns), T.AllPieces(messages));
  }

  /** Every request the translator accepts reaches the breakpoints without any. */
  lemma DraftsAreUnmarked(req: C.Request)
    requires Drafted(req).Success?
    ensures Unmarked(PartsOf(Drafted(req).value))
  {
    NewToolsUnmarked(req.tools);
    NewTurnsUnmarked(req.messages);
  }

  // --- Where ---

  /** No breakpoint sits on text that is all white space. */
  lemma NeverOnBlankText(p: Parts)
    requires Unmarked(p)
    ensures Cached(p).system.MarkedPrompt? ==> !Blank(Cached(p).system.text)
    ensures forall i, k :: 0 <= i < |p.messages| && 0 <= k < |ContentBlocks(Cached(p).messages[i].content)| ==>
              var b := ContentBlocks(Cached(p).messages[i].content)[k];
              b.marked && b.body.Text? ==> !Blank(b.body.text)
  {
    NoTurnMarks(p.messages);
    if Cached(p).system.MarkedPrompt? {
      TrimSpaceEmpty(Cached(p).system.text);
    }
    forall i, k | 0 <= i < |p.messages| && 0 <= k < |ContentBlocks(Cached(p).messages[i].content)|
      ensures var b := ContentBlocks(Cached(p).messages[i].content)[k];
              b.marked && b.body.Text? ==> !Blank(b.body.text)
    {
      NoMarks(ContentBlocks(p.messages[i].content));
      var b := ContentBlocks(Cached(p).messages[i].content)[k];
      if b.body.Text? { TrimSpaceEmpty(b.body.text); }
    }
  }

  // --- Erasing them ---

  function ErasedBlocks(blocks: seq<Block>): seq<Block> {
    seq(|blocks|, k requires 0 <= k < |blocks| => blocks[k].(marked := false))
  }

  function ErasedTurn(m: Message): Message {
    if m.content.Str? then m else m.(content := Blocks(ErasedBlocks(m.content.blocks)))
  }

  function Erased(p: Parts): Parts {
    Parts(seq(|p.tools|, i requires 0 <= i < |p.tools| => p.tools[i].(marked := false)),
          if p.system.MarkedPrompt? then Prompt(p.system.text) else p.system,
          seq(|p.messages|, i requires 0 <= i < |p.messages| => ErasedTurn(p.messages[i])))
  }

  /** Equal, but that a string may have become its one text block. */
  predicate SameTurn(a: Message, b: Message) {
    a.role == b.role && (a.content == b.content || (b.content.Str? && a.content == Blocks([Plain(Text(b.content.s))])))
  }

  lemma TurnReturns(m: Message)
    requires MarkedBlocks(ContentBlocks(m.content)) == 0
    ensures SameTurn(ErasedTurn(MarkedTurn(m)), m) && SameTurn(ErasedTurn(m), m)
  {
    var blocks := ContentBlocks(m.content);
    NoMarks(blocks);
    var j := LastCacheable(blocks);
    if j >= 0 {
      assert ErasedBlocks(blocks[j := blocks[j].(marked := true)]) == blocks;
    }
    if m.content.Blocks? {
      assert ErasedBlocks(m.content.blocks) == m.content.blocks;
    }
  }

  lemma {:induction false} NoToolMarks(tools: seq<Tool>)
    requires MarksInTools(tools) == 0
    ensures forall i :: 0 <= i < |tools| ==> !tools[i].marked
  {
    if tools != [] {
      NoToolMarks(tools[..|tools| - 1]);
    }
  }

  /** Erasing the breakpoints gives the request back, up to the promotion of a marked turn's
      string to a block. */
  lemma ErasingRestores(p: Parts)
    requires Unmarked(p)
    ensures var back := Erased(Cached(p));
            && back.tools == p.tools && back.system == p.system && |back.messages| == |p.messages|
            && forall i :: 0 <= i < |p.messages| ==>
                 SameTurn(back.messages[i], p.messages[i])
                 && (i < |p.messages| - 2 ==> Cached(p).messages[i] == p.messages[i])
  {
    NoToolMarks(p.tools);
    NoTurnMarks(p.messages);
    var back := Erased(Cached(p));
    assert back.tools == p.tools;
    forall i | 0 <= i < |p.messages| ensures SameTurn(back.messages[i], p.messages[i]) {
      TurnReturns(p.messages[i]);
    }
  }
}
