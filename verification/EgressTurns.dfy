/** What the egress translator makes of any message list it accepts: alternating turns whose
    blocks are, in order, one for each thing the messages carry. */
module EgressTurns {
  import opened Wrappers
  import opened EgressRequest
  import C = ChatRequest

  // --- The run of tool results, undone ---

  /** The turn a tool message is, taken alone. */
  function ResultTurn(m: C.Message): Message {
    Message("user", Blocks([Plain(ToolResult(m.toolCallId, FlattenText(m.content)))]))
  }

  /** One message into the turns, without the open run. */
  function Step(turns: seq<Message>, m: C.Message): Result<seq<Message>, Error> {
    if m.role == "tool" then Success(AppendTurn(turns, ResultTurn(m)))
    else if IsSystem(m) then Success(turns)
    else
      match TurnOf(RoleOf(m.role), m)
      case Failure(e) => Failure(e)
      case Success(None) => Success(turns)
      case Success(Some(turn)) => Success(AppendTurn(turns, turn))
  }

  function Steps(turns: seq<Message>, messages: seq<C.Message>): Result<seq<Message>, Error> {
    if messages == [] then Success(turns)
    else
      match Steps(turns, messages[..|messages| - 1])
      case Failure(e) => Failure(e)
      case Success(t) => Step(t, messages[|messages| - 1])
  }

  lemma RunExtends(out: seq<Message>, run: seq<Block>, b: Block)
    ensures AppendTurn(out, Message("user", Blocks(run + [b])))
            == AppendTurn(if run == [] then out else AppendTurn(out, Message("user", Blocks(run))), Message("user", Blocks([b])))
  {
    if run == [] {
      assert run + [b] == [b];
    } else if out != [] && out[|out| - 1].role == "user" {
      var prev := ContentBlocks(out[|out| - 1].content);
      assert prev + (run + [b]) == prev + run + [b];
    }
  }

  /** Accumulating a run of tool results and flushing it when the run ends is the same as
      giving every tool message a user turn of its own and letting equal roles merge. */
  lemma {:induction false} RunsCoalesce(messages: seq<C.Message>)
    ensures match Walked(messages)
            case Failure(e) => Steps([], messages) == Failure(e)
            case Success(w) => Steps([], messages) == Success(FlushedRun(w).out)
  {
    if messages != [] {
      var n := |messages| - 1;
      RunsCoalesce(messages[..n]);
      if Walked(messages[..n]).Success? && messages[n].role == "tool" {
        var w := Walked(messages[..n]).value;
        RunExtends(w.out, w.toolRun, Plain(ToolResult(messages[n].toolCallId, FlattenText(messages[n].content))));
      }
    }
  }

  // --- Alternation ---

  ghost predicate Alternating(turns: seq<Message>) {
    && (forall i :: 0 <= i < |turns| - 1 ==> turns[i].role != turns[i + 1].role)
    && (forall i :: 0 <= i < |turns| ==> turns[i].role in {"user", "assistant"} && ContentBlocks(turns[i].content) != [])
  }

  lemma AppendAlternates(turns: seq<Message>, m: Message)
    requires Alternating(turns) && m.role in {"user", "assistant"} && ContentBlocks(m.content) != []
    ensures Alternating(AppendTurn(turns, m))
  {
  }

  lemma {:induction false} StepsAlternate(turns: seq<Message>, messages: seq<C.Message>)
    requires Alternating(turns)
    ensures Steps(turns, messages).Success? ==> Alternating(Steps(turns, messages).value)
  {
    if messages != [] {
      var n := |messages| - 1;
      StepsAlternate(turns, messages[..n]);
      if Steps(turns, messages).Success? {
        var t := Steps(turns, messages[..n]).value;
        var m := messages[n];
        if m.role == "tool" {
          AppendAlternates(t, ResultTurn(m));
        } else if !IsSystem(m) && TurnOf(RoleOf(m.role), m).value.Some? {
          AppendAlternates(t, TurnOf(RoleOf(m.role), m).value.value);
        }
      }
    }
  }

  // --- One block for each thing carried ---

  /** Text that goes into the system prompt. */
  predicate Lifted(m: C.Message) { m.role in {"system", "developer"} }

  /** What a message carries: a string, a part, a tool call, or a tool's answer. */
  datatype Piece = Words(s: string) | Carried(part: C.Part) | Asked(call: C.Call) | Answered(message: C.Message)

  function CarriedParts(parts: seq<C.Part>): (pieces: seq<Piece>)
    ensures forall k :: 0 <= k < |pieces| ==> pieces[k].Carried? && Carries(pieces[k].part)
  {
    if parts == [] then []
    else
      var rest := CarriedParts(parts[..|parts| - 1]);
      var p := parts[|parts| - 1];
      if Carries(p) then rest + [Carried(p)] else rest
  }

  function AskedCalls(calls: seq<C.Call>): seq<Piece> {
    seq(|calls|, i requires 0 <= i < |calls| => Asked(calls[i]))
  }

  function Pieces(m: C.Message): seq<Piece> {
    if m.role == "tool" then [Answered(m)]
    else if Lifted(m) then []
    else
      (match m.content
       case Str(s) => if s == "" then [] else [Words(s)]
       case Parts(parts) => CarriedParts(parts)
       case _ => [])
      + AskedCalls(m.calls)
  }

  function AllPieces(messages: seq<C.Message>): seq<Piece> {
    if messages == [] then [] else AllPieces(messages[..|messages| - 1]) + Pieces(messages[|messages| - 1])
  }

  /** The block a piece has to become; none for a part Messages cannot be given. */
  function PieceBlock(p: Piece): Option<Block> {
    match p
    case Words(s) => Some(Plain(Text(s)))
    case Carried(part) =>
      if Carries(part) && BlockOf(part).Some? then Some(Plain(BlockOf(part).value)) else None
    case Asked(call) => Some(CallBlock(call))
    case Answered(m) => Some(Plain(ToolResult(m.toolCallId, FlattenText(m.content))))
  }

  ghost predicate OneEach(blocks: seq<Block>, pieces: seq<Piece>) {
    |blocks| == |pieces| && forall k :: 0 <= k < |pieces| ==> PieceBlock(pieces[k]) == Some(blocks[k])
  }

  lemma OneEachAppend(a: seq<Block>, p: seq<Piece>, b: seq<Block>, q: seq<Piece>)
    requires OneEach(a, p) && OneEach(b, q)
    ensures OneEach(a + b, p + q)
  {
  }

  ghost predicate Sendable(pieces: seq<Piece>) {
    forall k :: 0 <= k < |pieces| ==> PieceBlock(pieces[k]).Some?
  }

  lemma {:induction false} PartsOneEach(parts: seq<C.Part>)
    ensures PartBlocks(parts).Success? <==> Sendable(CarriedParts(parts))
    ensures PartBlocks(parts).Success? ==> OneEach(PartBlocks(parts).value, CarriedParts(parts))
  {
    if parts != [] {
      var n := |parts| - 1;
      PartsOneEach(parts[..n]);
      var before, now := CarriedParts(parts[..n]), CarriedParts(parts);
      if Carries(parts[n]) {
        assert now[..|before|] == before && now[|before|] == Carried(parts[n]);
        assert Sendable(now) ==> Sendable(before);
      }
    }
  }

  /** A message translates exactly when its content reads and every part can be sent. */
  predicate Readable(m: C.Message) {
    m.role == "tool" || Lifted(m) || !m.content.Unreadable?
  }

  function TurnBlocks(turn: Option<Message>): seq<Block> {
    if turn.None? then [] else ContentBlocks(turn.value.content)
  }

  lemma TurnOneEach(m: C.Message)
    requires m.role != "tool" && !Lifted(m)
    ensures var turn := TurnOf(RoleOf(m.role), m);
            && (turn.Success? <==> Readable(m) && Sendable(Pieces(m)))
            && (turn.Success? ==> OneEach(TurnBlocks(turn.value), Pieces(m)))
  {
    var asked := AskedCalls(m.calls);
    assert OneEach(CallBlocks(m.calls), asked);
    if StringLike(m.content) && m.calls == [] {
      assert asked == [];
      assert OneEach(TurnBlocks(TurnOf(RoleOf(m.role), m).value), Pieces(m));
    } else {
      ContentOneEach(m.content);
      var own := Pieces(m)[..|Pieces(m)| - |asked|];
      assert Pieces(m) == own + asked;
      assert own == ContentPieces(m.content);
      if ContentBlocksOf(m.content).Success? {
        OneEachAppend(ContentBlocksOf(m.content).value, own, CallBlocks(m.calls), asked);
      }
      SendableAppend(own, asked);
    }
  }

  function ContentPieces(content: C.Content): seq<Piece> {
    match content
    case Str(s) => if s == "" then [] else [Words(s)]
    case Parts(parts) => CarriedParts(parts)
    case _ => []
  }

  lemma ContentOneEach(content: C.Content)
    ensures ContentBlocksOf(content).Success? <==> !content.Unreadable? && Sendable(ContentPieces(content))
    ensures ContentBlocksOf(content).Success? ==> OneEach(ContentBlocksOf(content).value, ContentPieces(content))
  {
    if content.Parts? {
      PartsOneEach(content.parts);
    }
  }

  lemma SendableAppend(p: seq<Piece>, q: seq<Piece>)
    ensures Sendable(p + q) <==> Sendable(p) && Sendable(q)
  {
    if Sendable(p + q) {
      forall k | 0 <= k < |p| ensures PieceBlock(p[k]).Some? { assert (p + q)[k] == p[k]; }
      forall k | 0 <= k < |q| ensures PieceBlock(q[k]).Some? { assert (p + q)[|p| + k] == q[k]; }
    }
  }

  function Flat(turns: seq<Message>): seq<Block> {
    if turns == [] then [] else Flat(turns[..|turns| - 1]) + ContentBlocks(turns[|turns| - 1].content)
  }

  lemma FlatAppend(turns: seq<Message>, m: Message)
    ensures Flat(AppendTurn(turns, m)) == Flat(turns) + ContentBlocks(m.content)
  {
    var after := AppendTurn(turns, m);
    if turns == [] || turns[|turns| - 1].role != m.role {
      assert after[..|turns|] == turns;
    } else {
      assert after[..|after| - 1] == turns[..|turns| - 1];
    }
  }

  ghost predicate AllReadable(messages: seq<C.Message>) {
    forall k :: 0 <= k < |messages| ==> Readable(messages[k])
  }

  lemma ReadableAppend(messages: seq<C.Message>)
    requires messages != []
    ensures AllReadable(messages) <==> AllReadable(messages[..|messages| - 1]) && Readable(messages[|messages| - 1])
  {
  }

  lemma {:induction false} StepsOneEach(messages: seq<C.Message>)
    ensures var turns := Steps([], messages);
            && (turns.Success? <==> AllReadable(messages) && Sendable(AllPieces(messages)))
            && (turns.Success? ==> OneEach(Flat(turns.value), AllPieces(messages)))
  {
    if messages != [] {
      var n := |messages| - 1;
      var m := messages[n];
      StepsOneEach(messages[..n]);
      SendableAppend(AllPieces(messages[..n]), Pieces(m));
      ReadableAppend(messages);
      if Steps([], messages[..n]).Success? {
        StepOneEach(Steps([], messages[..n]).value, AllPieces(messages[..n]), m);
      }
    }
  }

  lemma StepOneEach(turns: seq<Message>, pieces: seq<Piece>, m: C.Message)
    requires OneEach(Flat(turns), pieces)
    ensures Step(turns, m).Success? <==> Readable(m) && Sendable(Pieces(m))
    ensures Step(turns, m).Success? ==> OneEach(Flat(Step(turns, m).value), pieces + Pieces(m))
  {
    if m.role == "tool" {
      FlatAppend(turns, ResultTurn(m));
      OneEachAppend(Flat(turns), pieces, [Plain(ToolResult(m.toolCallId, FlattenText(m.content)))], Pieces(m));
    } else if IsSystem(m) {
      assert pieces + [] == pieces;
    } else {
      TurnOneEach(m);
      var turn := TurnOf(RoleOf(m.role), m);
      if turn.Success? {
        OneEachAppend(Flat(turns), pieces, TurnBlocks(turn.value), Pieces(m));
        if turn.value.Some? { FlatAppend(turns, turn.value.value); }
        else { assert Flat(turns) + [] == Flat(turns); }
      }
    }
  }

  /** Every message list is accepted exactly when all its contents read and every part that
      carries something can be sent; an accepted one becomes alternating non-empty turns whose
      blocks, in order, are exactly one per carrying part, tool call and tool message. */
  lemma TurnsAlternateOneEach(messages: seq<C.Message>)
    ensures TurnsOf(messages).Success?
            <==> AllReadable(messages) && Sendable(AllPieces(messages))
    ensures TurnsOf(messages).Success? ==>
              var (system, turns) := TurnsOf(messages).value;
              Alternating(turns) && OneEach(Flat(turns), AllPieces(messages))
  {
    RunsCoalesce(messages);
    StepsAlternate([], messages);
    StepsOneEach(messages);
  }

  // --- Whose turn each block is in ---

  function Side(m: C.Message): string { if m.role == "assistant" then "assistant" else "user" }

  function Times(n: nat, role: string): seq<string> { seq(n, i requires 0 <= i < n => role) }

  /** Whose each piece is. */
  function Sides(messages: seq<C.Message>): seq<string> {
    if messages == [] then []
    else Sides(messages[..|messages| - 1]) + var m := messages[|messages| - 1]; Times(|Pieces(m)|, Side(m))
  }

  function Roles(turns: seq<Message>): seq<string> {
    if turns == [] then []
    else Roles(turns[..|turns| - 1]) + var t := turns[|turns| - 1]; Times(|ContentBlocks(t.content)|, t.role)
  }

  lemma RolesAppend(turns: seq<Message>, m: Message)
    ensures Roles(AppendTurn(turns, m)) == Roles(turns) + Times(|ContentBlocks(m.content)|, m.role)
  {
    var after := AppendTurn(turns, m);
    if turns == [] || turns[|turns| - 1].role != m.role {
      assert after[..|turns|] == turns;
    } else {
      var prev := turns[|turns| - 1];
      assert after[..|after| - 1] == turns[..|turns| - 1];
      assert Times(|ContentBlocks(prev.content)| + |ContentBlocks(m.content)|, m.role)
             == Times(|ContentBlocks(prev.content)|, m.role) + Times(|ContentBlocks(m.content)|, m.role);
    }
  }

  lemma StepSided(turns: seq<Message>, m: C.Message)
    requires Step(turns, m).Success?
    ensures Roles(Step(turns, m).value) == Roles(turns) + Times(|Pieces(m)|, Side(m))
  {
    if m.role == "tool" {
      RolesAppend(turns, ResultTurn(m));
    } else if !Lifted(m) {
      TurnOneEach(m);
      var turn := TurnOf(RoleOf(m.role), m).value;
      if turn.Some? { RolesAppend(turns, turn.value); }
    }
  }

  lemma {:induction false} StepsSided(messages: seq<C.Message>)
    requires Steps([], messages).Success?
    ensures Roles(Steps([], messages).value) == Sides(messages)
  {
    if messages != [] {
      var n := |messages| - 1;
      StepsSided(messages[..n]);
      StepSided(Steps([], messages[..n]).value, messages[n]);
    }
  }

  /** What an assistant message carries is in the assistant's turns, everything else in the user's. */
  lemma TurnsSided(messages: seq<C.Message>)
    requires TurnsOf(messages).Success?
    ensures Roles(TurnsOf(messages).value.1) == Sides(messages)
  {
    RunsCoalesce(messages);
    StepsSided(messages);
  }

  // --- Which error ---

  predicate Unsendable(p: C.Part) { Carries(p) && BlockOf(p).None? }

  predicate FirstUnsendable(parts: seq<C.Part>, i: int) {
    0 <= i < |parts| && Unsendable(parts[i]) && forall j :: 0 <= j < i ==> !Unsendable(parts[j])
  }

  lemma {:induction false} PartFault(parts: seq<C.Part>)
    ensures match PartBlocks(parts)
            case Failure(Unsupported(i)) => FirstUnsendable(parts, i)
            case Failure(_) => false
            case Success(_) => forall i :: 0 <= i < |parts| ==> !Unsendable(parts[i])
  {
    if parts != [] {
      var n := |parts| - 1;
      PartFault(parts[..n]);
      assert forall i :: 0 <= i < n ==> parts[..n][i] == parts[i];
    }
  }

  /** The message at fault: its content is unreadable, or this is its first part Messages cannot be given. */
  predicate Faulty(m: C.Message, error: Error) {
    && m.role != "tool" && !Lifted(m)
    && match error
       case InvalidContent => m.content.Unreadable?
       case Unsupported(i) => m.content.Parts? && FirstUnsendable(m.content.parts, i)
       case _ => false
  }

  ghost predicate FirstFault(messages: seq<C.Message>, k: int, error: Error) {
    && 0 <= k < |messages| && Faulty(messages[k], error)
    && AllReadable(messages[..k]) && Sendable(AllPieces(messages[..k]))
  }

  lemma TurnFault(m: C.Message)
    requires m.role != "tool" && !Lifted(m) && TurnOf(RoleOf(m.role), m).Failure?
    ensures Faulty(m, TurnOf(RoleOf(m.role), m).error)
  {
    if m.content.Parts? {
      PartFault(m.content.parts);
    }
  }

  lemma {:induction false} StepsFault(messages: seq<C.Message>) returns (k: int)
    requires Steps([], messages).Failure?
    ensures FirstFault(messages, k, Steps([], messages).error)
  {
    var n := |messages| - 1;
    if Steps([], messages[..n]).Failure? {
      k := StepsFault(messages[..n]);
      assert messages[..n][..k] == messages[..k];
    } else {
      k := n;
      StepsOneEach(messages[..n]);
      TurnFault(messages[n]);
    }
  }

  /** A refused list is refused for its first message at fault. */
  lemma RefusedForFirstFault(messages: seq<C.Message>) returns (k: int)
    requires TurnsOf(messages).Failure?
    ensures FirstFault(messages, k, TurnsOf(messages).error)
  {
    RunsCoalesce(messages);
    k := StepsFault(messages);
  }

  // --- The system prompt ---

  function SystemTexts(messages: seq<C.Message>): seq<string> {
    if messages == [] then []
    else
      var m := messages[|messages| - 1];
      SystemTexts(messages[..|messages| - 1])
      + if Lifted(m) && FlattenText(m.content) != "" then [FlattenText(m.content)] else []
  }

  /** System and developer text is lifted out, wherever it stands, in order. */
  lemma {:induction false} SystemLifted(messages: seq<C.Message>)
    ensures Walked(messages).Success? ==> Walked(messages).value.system == SystemTexts(messages)
  {
    if messages != [] {
      SystemLifted(messages[..|messages| - 1]);
    }
  }
}
