/** Thought signatures carried inside tool_use ids (internal/anthropic/toolid.go). */
module ToolIds {
  import opened Wrappers
  import opened Base64

  const MARKER := "_thoughtsig_"

  /** The payload after the marker: the signature's own bytes when it is canonical padded
      base64, its text otherwise. */
  function Payload(signature: string): string {
    var raw := Decode(signature, PaddedStd);
    if raw.Some? && Encode(raw.value, PaddedStd) == signature then "b" + Encode(raw.value, RawUrl)
    else "t" + Encode(signature, RawUrl)
  }

  function SignedToolUseId(id: string, signature: string): string {
    if signature == "" then id else id + MARKER + Payload(signature)
  }

  /** strings.LastIndex. */
  function LastIndex(s: string, sub: string): (at: int)
    ensures -1 <= at && (at >= 0 ==> at + |sub| <= |s|)
  {
    if |s| < |sub| then -1
    else if s[|s| - |sub|..] == sub then |s| - |sub|
    else LastIndex(s[..|s| - 1], sub)
  }

  function SplitToolUseId(id: string): (string, string) {
    var at := LastIndex(id, MARKER);
    if at < 0 then (id, "") else SplitAt(id, at)
  }

  function SplitAt(id: string, at: nat): (string, string)
    requires at + |MARKER| <= |id|
  {
    var payload := id[at + |MARKER|..];
    if |payload| < 2 then (id, "")
    else
      var raw := Decode(payload[1..], RawUrl);
      if raw.None? || raw.value == "" then (id, "")
      else if payload[0] == 'b' then (id[..at], Encode(raw.value, PaddedStd))
      else if payload[0] == 't' then (id[..at], raw.value)
      else (id, "")
  }

  // --- Occurrences ---

  predicate Occurs(s: string, sub: string, i: int) {
    0 <= i <= |s| - |sub| && s[i..i + |sub|] == sub
  }

  lemma OccursShorter(s: string, sub: string, i: int)
    requires |sub| < |s| && i != |s| - |sub|
    ensures Occurs(s, sub, i) <==> Occurs(s[..|s| - 1], sub, i)
  {
    if 0 <= i < |s| - |sub| {
      assert s[i..i + |sub|] == s[..|s| - 1][i..i + |sub|];
    }
  }

  lemma {:induction false} LastIndexExact(s: string, sub: string)
    ensures LastIndex(s, sub) >= 0 ==> Occurs(s, sub, LastIndex(s, sub))
    ensures forall i :: LastIndex(s, sub) < i ==> !Occurs(s, sub, i)
    ensures LastIndex(s, sub) >= -1
  {
    if |s| > |sub| && s[|s| - |sub|..] != sub {
      LastIndexExact(s[..|s| - 1], sub);
      forall i | LastIndex(s, sub) <= i ensures Occurs(s, sub, i) <==> i == LastIndex(s, sub) && i >= 0 {
        if i != |s| - |sub| { OccursShorter(s, sub, i); }
      }
    } else if |s| == |sub| {
      assert s[0..|sub|] == s && s[0..] == s;
    }
  }

  lemma LastIndexFound(s: string, sub: string)
    ensures LastIndex(s, sub) >= 0 ==> Occurs(s, sub, LastIndex(s, sub))
  {
    LastIndexExact(s, sub);
  }

  lemma LastIndexIs(s: string, sub: string, at: int)
    requires Occurs(s, sub, at)
    ensures LastIndex(s, sub) >= at
    ensures LastIndex(s, sub) == at <==> forall i :: at < i ==> !Occurs(s, sub, i)
  {
    LastIndexExact(s, sub);
  }

  // --- Split undoes sign ---

  lemma PayloadDecodes(signature: string)
    requires signature != "" && Bytes(signature)
    ensures var p := Payload(signature);
            && |p| >= 2 && p[0] in {'b', 't'}
            && Decode(p[1..], RawUrl).Some? && Decode(p[1..], RawUrl).value != ""
            && signature == if p[0] == 'b' then Encode(Decode(p[1..], RawUrl).value, PaddedStd) else Decode(p[1..], RawUrl).value
  {
    var p := Payload(signature);
    var raw := Decode(signature, PaddedStd);
    if raw.Some? && Encode(raw.value, PaddedStd) == signature {
      assert Encode("", PaddedStd) == "";
      NonEmptyEncoding(raw.value);
      DecodeEncode(raw.value, RawUrl);
      assert p[1..] == Encode(raw.value, RawUrl);
    } else {
      NonEmptyEncoding(signature);
      DecodeEncode(signature, RawUrl);
      assert p[1..] == Encode(signature, RawUrl);
    }
  }

  lemma NonEmptyEncoding(s: string)
    ensures s != "" ==> Encode(s, RawUrl) != ""
  {
    SextetCount(Octets(s));
  }

  lemma SplitAtMarker(id: string, signature: string)
    requires signature != "" && Bytes(signature)
    ensures SplitAt(id + MARKER + Payload(signature), |id|) == (id, signature)
  {
    PayloadDecodes(signature);
    PayloadSlices(id, Payload(signature));
  }

  lemma PayloadSlices(id: string, payload: string)
    ensures (id + MARKER + payload)[..|id|] == id
    ensures (id + MARKER + payload)[|id| + |MARKER|..] == payload
  {
  }

  lemma SplitAtLength(s: string, at: nat)
    requires at + |MARKER| <= |s|
    ensures |SplitAt(s, at).0| == at || SplitAt(s, at) == (s, "")
  {
    assert |s[..at]| == at;
  }

  /** For every id, the marker included, and every non-empty signature: splitting a signed id
      gives both back exactly when the appended marker is its last occurrence. */
  lemma SplitUndoesSign(id: string, signature: string)
    requires signature != "" && Bytes(signature)
    ensures var signed := SignedToolUseId(id, signature);
            SplitToolUseId(signed) == (id, signature) <==> LastIndex(signed, MARKER) == |id|
  {
    var signed := id + MARKER + Payload(signature);
    PayloadSlices(id, Payload(signature));
    assert signed[|id|..|id| + |MARKER|] == MARKER;
    LastIndexIs(signed, MARKER, |id|);
    SplitAtMarker(id, signature);
    SplitAtLength(signed, LastIndex(signed, MARKER));
  }

  lemma MarkerInside(k: int)
    requires 0 < k < 11
    ensures MARKER[k] != '_'
  {
    assert MARKER[1] == 't' && MARKER[2] == 'h' && MARKER[3] == 'o' && MARKER[4] == 'u' && MARKER[5] == 'g';
    assert MARKER[6] == 'h' && MARKER[7] == 't' && MARKER[8] == 's' && MARKER[9] == 'i' && MARKER[10] == 'g';
  }

  lemma OccursFirst(s: string, sub: string, i: int)
    requires sub != "" && Occurs(s, sub, i)
    ensures s[i] == sub[0]
  {
    assert s[i..i + |sub|][0] == s[i];
  }

  lemma NeverOverlaps(id: string, payload: string, i: int)
    requires |id| < i < |id| + 11
    ensures !Occurs(id + MARKER + payload, MARKER, i)
  {
    var s := id + MARKER + payload;
    assert s[i] == MARKER[i - |id|];
    MarkerInside(i - |id|);
    if Occurs(s, MARKER, i) {
      OccursFirst(s, MARKER, i);
    }
  }

  lemma OccursBehind(a: string, b: string, sub: string, i: nat)
    ensures Occurs(a + b, sub, |a| + i) <==> Occurs(b, sub, i)
  {
    if i + |sub| <= |b| {
      assert (a + b)[|a| + i..|a| + i + |sub|] == b[i..i + |sub|];
    }
  }

  lemma SameInTail(id: string, payload: string, i: nat)
    ensures Occurs(id + MARKER + payload, MARKER, |id| + 11 + i) <==> Occurs("_" + payload, MARKER, i)
  {
    var head := id + MARKER[..11];
    assert MARKER == MARKER[..11] + "_";
    assert id + MARKER + payload == head + ("_" + payload);
    OccursBehind(head, "_" + payload, MARKER, i);
  }

  lemma AppendedOccurs(id: string, payload: string)
    ensures Occurs(id + MARKER + payload, MARKER, |id|)
  {
    assert id + MARKER + payload == id + (MARKER + payload);
    assert (MARKER + payload)[0..|MARKER|] == MARKER;
    OccursBehind(id, MARKER + payload, MARKER, 0);
  }

  /** A later marker starts at the appended one's closing underscore or behind it. */
  lemma LaterInTail(id: string, payload: string, at: int)
    requires at > |id| && Occurs(id + MARKER + payload, MARKER, at)
    ensures at >= |id| + 11 && Occurs("_" + payload, MARKER, at - |id| - 11)
  {
    if at < |id| + 11 {
      NeverOverlaps(id, payload, at);
    } else {
      SameInTail(id, payload, at - |id| - 11);
    }
  }

  lemma MarkerLastDependsOnPayload(id: string, payload: string)
    ensures LastIndex(id + MARKER + payload, MARKER) == |id| <==> LastIndex("_" + payload, MARKER) < 0
  {
    var signed, tail := id + MARKER + payload, "_" + payload;
    var at, within := LastIndex(signed, MARKER), LastIndex(tail, MARKER);
    AppendedOccurs(id, payload);
    LastIndexIs(signed, MARKER, |id|);
    if at > |id| {
      LastIndexFound(signed, MARKER);
      LaterInTail(id, payload, at);
      LastIndexIs(tail, MARKER, at - |id| - 11);
    } else if within >= 0 {
      LastIndexFound(tail, MARKER);
      SameInTail(id, payload, within);
      LastIndexIs(signed, MARKER, |id| + 11 + within);
    }
  }

  /** Whether it is depends on the signature alone: the payload, behind the marker's own
      closing underscore, must not spell the marker again. */
  lemma MarkerLastDependsOnSignature(id: string, signature: string)
    requires signature != ""
    ensures LastIndex(SignedToolUseId(id, signature), MARKER) == |id| <==> LastIndex("_" + Payload(signature), MARKER) < 0
  {
    MarkerLastDependsOnPayload(id, Payload(signature));
  }

  const SPELLING := "houghtsig_AA"

  /** A signature whose text payload completes a second marker out of the first one's
      underscore and the tag: signed onto any id, it is lost. */
  lemma SignatureSpellsMarker(id: string)
    ensures var spelled := Decode(SPELLING, RawUrl);
            spelled.Some? && spelled.value != "" && SplitToolUseId(SignedToolUseId(id, spelled.value)) != (id, spelled.value)
  {
    SpellingDecodes();
    LostWhenSpelled(id, Decode(SPELLING, RawUrl).value);
  }

  lemma TailSpellsMarker()
    ensures Occurs("_" + ("t" + SPELLING), MARKER, 0)
  {
    assert ("_" + ("t" + SPELLING))[0..12] == MARKER;
  }

  lemma LostWhenSpelled(id: string, signature: string)
    requires signature != "" && Bytes(signature) && Payload(signature) == "t" + SPELLING
    ensures SplitToolUseId(SignedToolUseId(id, signature)) != (id, signature)
  {
    TailSpellsMarker();
    LastIndexIs("_" + ("t" + SPELLING), MARKER, 0);
    MarkerLastDependsOnSignature(id, signature);
    SplitUndoesSign(id, signature);
  }

  lemma SpellingDecodes()
    ensures var spelled := Decode(SPELLING, RawUrl);
            spelled.Some? && spelled.value != "" && Payload(spelled.value) == "t" + SPELLING
  {
    assert AllLetters(SPELLING, RawUrl);
    assert SPELLING + Pads(12, RawUrl) == SPELLING;
    EncodeDecode(SPELLING, RawUrl);
    var sig := Decode(SPELLING, RawUrl).value;
    SpelledFirstByte(sig);
    SentAsText(sig);
  }

  /** What is not ASCII is not base64, so it is sent as text. */
  lemma SentAsText(sig: string)
    requires sig != "" && sig[0] as int >= 128
    ensures Payload(sig) == "t" + Encode(sig, RawUrl)
  {
    var raw := Decode(sig, PaddedStd);
    if raw.Some? {
      CanonicalIsAscii(raw.value);
    }
  }

  lemma SpelledFirstByte(sig: string)
    requires Encode(sig, RawUrl) == SPELLING && Bytes(sig)
    ensures sig != "" && sig[0] as int == 134
  {
    var vs := ToSextets(Octets(sig));
    assert Spelled(vs, RawUrl) + "" == Spelled(vs, RawUrl);
    assert |vs| == 12 && Spelled(vs, RawUrl)[0] == 'h' && Spelled(vs, RawUrl)[1] == 'o';
    LetterValue(vs[0], RawUrl);
    LetterValue(vs[1], RawUrl);
    FirstOctet(Octets(sig));
  }

  lemma FirstOctet(bs: seq<Octet>)
    requires |ToSextets(bs)| >= 2 && ToSextets(bs)[0] == 33 && ToSextets(bs)[1] == 40
    ensures bs != [] && bs[0] == 134
  {
    assert bs[0] / 4 == 33;
  }

  lemma CanonicalIsAscii(raw: string)
    ensures forall i :: 0 <= i < |Encode(raw, PaddedStd)| ==> Encode(raw, PaddedStd)[i] as int < 128
  {
    SpelledValues(ToSextets(Octets(raw)), PaddedStd);
  }

  // --- The id alphabet ---

  predicate InIdAlphabet(s: string) {
    forall i :: 0 <= i < |s| ==> 'A' <= s[i] <= 'Z' || 'a' <= s[i] <= 'z' || '0' <= s[i] <= '9' || s[i] in {'_', '-'}
  }

  lemma EncodingKeepsAlphabet(s: string)
    ensures InIdAlphabet(Encode(s, RawUrl))
  {
    SpelledValues(ToSextets(Octets(s)), RawUrl);
  }

  lemma AlphabetJoins(a: string, b: string)
    requires InIdAlphabet(a) && InIdAlphabet(b)
    ensures InIdAlphabet(a + b)
  {
  }

  lemma SignedKeepsAlphabet(id: string, signature: string)
    requires InIdAlphabet(id)
    ensures InIdAlphabet(SignedToolUseId(id, signature))
  {
    var raw := Decode(signature, PaddedStd);
    if raw.Some? { EncodingKeepsAlphabet(raw.value); }
    EncodingKeepsAlphabet(signature);
    assert InIdAlphabet(MARKER) && InIdAlphabet("b") && InIdAlphabet("t");
    if signature != "" {
      AlphabetJoins([Payload(signature)[0]], Payload(signature)[1..]);
      AlphabetJoins(id, MARKER);
      AlphabetJoins(id + MARKER, Payload(signature));
    }
  }

  // --- Stripping a request body ---

  /** The two members a content block may carry an id in; the rest of the block is opaque. */
  datatype BodyBlock = BodyBlock(id: Option<string>, toolUseId: Option<string>, rest: nat)

  /** A message whose content is not a list of objects is left alone. */
  datatype BodyMessage = Opaque(n: nat) | Blocks(blocks: seq<BodyBlock>)

  predicate CarriesSignature(id: Option<string>) {
    id.Some? && LastIndex(id.value, MARKER) >= 0 && SplitToolUseId(id.value).1 != ""
  }

  function Bare(id: Option<string>): Option<string> {
    if CarriesSignature(id) then Some(SplitToolUseId(id.value).0) else id
  }

  function BareBlock(b: BodyBlock): BodyBlock { b.(id := Bare(b.id), toolUseId := Bare(b.toolUseId)) }

  predicate SignedBlock(b: BodyBlock) { CarriesSignature(b.id) || CarriesSignature(b.toolUseId) }

  predicate SignedMessage(m: BodyMessage) {
    m.Blocks? && exists j :: 0 <= j < |m.blocks| && SignedBlock(m.blocks[j])
  }

  function BareBlocks(blocks: seq<BodyBlock>): seq<BodyBlock> {
    seq(|blocks|, j requires 0 <= j < |blocks| => BareBlock(blocks[j]))
  }

  function BareMessage(m: BodyMessage): BodyMessage {
    if m.Blocks? then Blocks(BareBlocks(m.blocks)) else m
  }

  /** StripSignedToolUseIDs on the messages of a body: every carried signature comes off, and
      the body is rewritten exactly when there was one. */
  method StripSignedToolUseIds(messages: seq<BodyMessage>) returns (out: seq<BodyMessage>, changed: bool)
    ensures |out| == |messages| && forall i :: 0 <= i < |messages| ==> out[i] == BareMessage(messages[i])
    ensures changed <==> exists i :: 0 <= i < |messages| && SignedMessage(messages[i])
    ensures changed <==> out != messages
  {
    out, changed := messages, false;
    for i := 0 to |messages|
      invariant |out| == |messages| && out[i..] == messages[i..]
      invariant forall k :: 0 <= k < i ==> out[k] == BareMessage(messages[k])
      invariant changed <==> exists k :: 0 <= k < i && SignedMessage(messages[k])
      invariant changed <==> out != messages
    {
      var m := out[i];
      assert m == messages[i];
      var bare, messageChanged := StripMessage(m);
      if messageChanged {
        out := out[i := bare];
        assert out[i] != messages[i];
        changed := true;
      }
    }
  }

  method StripMessage(m: BodyMessage) returns (out: BodyMessage, changed: bool)
    ensures out == BareMessage(m)
    ensures changed <==> SignedMessage(m)
    ensures changed <==> out != m
  {
    if m.Opaque? { return m, false; }
    var blocks, blockChanged := StripBlocks(m.blocks);
    return Blocks(blocks), blockChanged;
  }

  method StripBlocks(blocks: seq<BodyBlock>) returns (out: seq<BodyBlock>, changed: bool)
    ensures out == BareBlocks(blocks)
    ensures changed <==> exists j :: 0 <= j < |blocks| && SignedBlock(blocks[j])
    ensures changed <==> out != blocks
  {
    out, changed := blocks, false;
    for j := 0 to |blocks|
      invariant |out| == |blocks| && out[j..] == blocks[j..]
      invariant forall k :: 0 <= k < j ==> out[k] == BareBlock(blocks[k])
      invariant changed <==> exists k :: 0 <= k < j && SignedBlock(blocks[k])
      invariant changed <==> out != blocks
    {
      var b := out[j];
      assert b == blocks[j];
      BareDiffers(b.id);
      BareDiffers(b.toolUseId);
      out := out[j := BareBlock(b)];
      if SignedBlock(b) {
        assert out[j] != blocks[j];
        changed := true;
      } else {
        assert out == out[j := b];
      }
    }
  }

  lemma BareDiffers(id: Option<string>)
    ensures Bare(id) != id <==> CarriesSignature(id)
  {
    if CarriesSignature(id) {
      LastIndexExact(id.value, MARKER);
      assert |SplitToolUseId(id.value).0| < |id.value|;
    }
  }

  /** A signed call and its result come back to the provider under the one id they were signed
      from, whichever blocks they sit in. */
  lemma StrippedIdsPair(id: string, signature: string)
    requires signature != "" && Bytes(signature) && LastIndex("_" + Payload(signature), MARKER) < 0
    ensures Bare(Some(SignedToolUseId(id, signature))) == Some(id)
  {
    MarkerLastDependsOnSignature(id, signature);
    SplitUndoesSign(id, signature);
  }

  // --- What rides in the id ---

  /** A signature that is some bytes in padded base64 rides as those bytes, unpadded and in the URL alphabet. */
  lemma BytesRide(raw: string)
    requires Bytes(raw)
    ensures Payload(Encode(raw, PaddedStd)) == "b" + Encode(raw, RawUrl)
  {
    DecodeEncode(raw, PaddedStd);
  }

  /** Any other rides as its text. */
  lemma TextRides(signature: string)
    requires forall raw :: signature != Encode(raw, PaddedStd)
    ensures Payload(signature) == "t" + Encode(signature, RawUrl)
  {
    var raw := Decode(signature, PaddedStd);
    assert raw.Some? ==> Encode(raw.value, PaddedStd) != signature;
  }
}
