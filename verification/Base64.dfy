/** Base64 as Go's encoding/base64 has it (RFC 4648, sections 3.5, 4 and 5): the padded
    standard form and the unpadded URL form, with a decoder that skips line breaks and does
    not check the trailing bits of the last group. Strings are byte strings: a char stands
    for a byte, and Bytes says it is one. */
module Base64 {
  import opened Wrappers

  predicate Bytes(s: string) {
    forall i :: 0 <= i < |s| ==> s[i] as int < 256
  }

  datatype Form = PaddedStd | RawUrl

  // --- Letters and 6-bit values ---

  function Letter(v: int, form: Form): char
    requires 0 <= v < 64
  {
    if v < 26 then 'A' + v as char
    else if v < 52 then 'a' + (v - 26) as char
    else if v < 62 then '0' + (v - 52) as char
    else if v == 62 then (if form == RawUrl then '-' else '+')
    else (if form == RawUrl then '_' else '/')
  }

  function Value(c: char, form: Form): (v: int)
    ensures -1 <= v < 64
  {
    if 'A' <= c <= 'Z' then c as int - 'A' as int
    else if 'a' <= c <= 'z' then c as int - 'a' as int + 26
    else if '0' <= c <= '9' then c as int - '0' as int + 52
    else if c == (if form == RawUrl then '-' else '+') then 62
    else if c == (if form == RawUrl then '_' else '/') then 63
    else -1
  }

  predicate IsLetter(c: char, form: Form) { Value(c, form) >= 0 }

  lemma LetterValue(v: int, form: Form)
    requires 0 <= v < 64
    ensures Value(Letter(v, form), form) == v
  {
  }

  lemma ValueLetter(c: char, form: Form)
    requires IsLetter(c, form)
    ensures Letter(Value(c, form), form) == c
  {
  }

  type Sextet = v: int | 0 <= v < 64

  function Spelled(vs: seq<Sextet>, form: Form): string {
    seq(|vs|, i requires 0 <= i < |vs| => Letter(vs[i], form))
  }

  predicate AllLetters(t: string, form: Form) {
    forall i :: 0 <= i < |t| ==> IsLetter(t[i], form)
  }

  function Values(t: string, form: Form): seq<Sextet>
    requires AllLetters(t, form)
  {
    seq(|t|, i requires 0 <= i < |t| => Value(t[i], form))
  }

  lemma SpelledValues(vs: seq<Sextet>, form: Form)
    ensures AllLetters(Spelled(vs, form), form) && Values(Spelled(vs, form), form) == vs
  {
    forall i | 0 <= i < |vs| ensures Value(Spelled(vs, form)[i], form) == vs[i] {
      LetterValue(vs[i], form);
    }
  }

  lemma ValuesSpelled(t: string, form: Form)
    requires AllLetters(t, form)
    ensures Spelled(Values(t, form), form) == t
  {
    forall i | 0 <= i < |t| ensures Spelled(Values(t, form), form)[i] == t[i] {
      ValueLetter(t[i], form);
    }
  }

  // --- Bytes and 6-bit values ---

  type Octet = b: int | 0 <= b < 256

  function Octets(s: string): seq<Octet> {
    seq(|s|, i requires 0 <= i < |s| => s[i] as int % 256)
  }

  function Text(bs: seq<Octet>): (s: string)
    ensures Bytes(s)
  {
    seq(|bs|, i requires 0 <= i < |bs| => bs[i] as char)
  }

  lemma TextOctets(s: string)
    requires Bytes(s)
    ensures Text(Octets(s)) == s
  {
  }

  lemma OctetsText(bs: seq<Octet>)
    ensures Octets(Text(bs)) == bs
  {
  }

  function Group(b0: Octet, b1: Octet, b2: Octet): (Sextet, Sextet, Sextet, Sextet) {
    (b0 / 4, b0 % 4 * 16 + b1 / 16, b1 % 16 * 4 + b2 / 64, b2 % 64)
  }

  function Ungroup(v0: Sextet, v1: Sextet, v2: Sextet, v3: Sextet): (Octet, Octet, Octet) {
    (v0 * 4 + v1 / 16, v1 % 16 * 16 + v2 / 4, v2 % 4 * 64 + v3)
  }

  lemma UngroupGroup(b0: Octet, b1: Octet, b2: Octet)
    ensures var g := Group(b0, b1, b2); Ungroup(g.0, g.1, g.2, g.3) == (b0, b1, b2)
  {
    assert b0 / 4 * 4 + b0 % 4 == b0 && b1 / 16 * 16 + b1 % 16 == b1 && b2 / 64 * 64 + b2 % 64 == b2;
    assert (b0 % 4 * 16 + b1 / 16) / 16 == b0 % 4 && (b0 % 4 * 16 + b1 / 16) % 16 == b1 / 16;
    assert (b1 % 16 * 4 + b2 / 64) / 4 == b1 % 16 && (b1 % 16 * 4 + b2 / 64) % 4 == b2 / 64;
  }

  lemma GroupUngroup(v0: Sextet, v1: Sextet, v2: Sextet, v3: Sextet)
    ensures var g := Ungroup(v0, v1, v2, v3); Group(g.0, g.1, g.2) == (v0, v1, v2, v3)
  {
    assert (v0 * 4 + v1 / 16) / 4 == v0 && (v0 * 4 + v1 / 16) % 4 == v1 / 16;
    assert (v1 % 16 * 16 + v2 / 4) / 16 == v1 % 16 && (v1 % 16 * 16 + v2 / 4) % 16 == v2 / 4;
    assert (v2 % 4 * 64 + v3) / 64 == v2 % 4 && (v2 % 4 * 64 + v3) % 64 == v3;
  }

  function ToSextets(bs: seq<Octet>): seq<Sextet> {
    if bs == [] then []
    else if |bs| == 1 then var g := Group(bs[0], 0, 0); [g.0, g.1]
    else if |bs| == 2 then var g := Group(bs[0], bs[1], 0); [g.0, g.1, g.2]
    else var g := Group(bs[0], bs[1], bs[2]); [g.0, g.1, g.2, g.3] + ToSextets(bs[3..])
  }

  /** One value alone is no byte. */
  function FromSextets(vs: seq<Sextet>): seq<Octet>
    requires |vs| % 4 != 1
  {
    if vs == [] then []
    else if |vs| == 2 then var g := Ungroup(vs[0], vs[1], 0, 0); [g.0]
    else if |vs| == 3 then var g := Ungroup(vs[0], vs[1], vs[2], 0); [g.0, g.1]
    else var g := Ungroup(vs[0], vs[1], vs[2], vs[3]); [g.0, g.1, g.2] + FromSextets(vs[4..])
  }

  lemma {:induction false} SextetCount(bs: seq<Octet>)
    ensures |ToSextets(bs)| == |bs| / 3 * 4 + (if |bs| % 3 == 0 then 0 else |bs| % 3 + 1)
  {
    if |bs| >= 3 {
      SextetCount(bs[3..]);
    }
  }

  lemma ToGroup(b0: Octet, b1: Octet, b2: Octet, rest: seq<Octet>)
    ensures var g := Group(b0, b1, b2);
            ToSextets([b0, b1, b2] + rest) == [g.0, g.1, g.2, g.3] + ToSextets(rest)
  {
    assert ([b0, b1, b2] + rest)[3..] == rest;
  }

  lemma FromGroup(v0: Sextet, v1: Sextet, v2: Sextet, v3: Sextet, rest: seq<Sextet>)
    requires |rest| % 4 != 1
    ensures var g := Ungroup(v0, v1, v2, v3);
            FromSextets([v0, v1, v2, v3] + rest) == [g.0, g.1, g.2] + FromSextets(rest)
  {
    assert ([v0, v1, v2, v3] + rest)[4..] == rest;
  }

  lemma {:induction false} FromTo(bs: seq<Octet>)
    ensures |ToSextets(bs)| % 4 != 1 && FromSextets(ToSextets(bs)) == bs
  {
    SextetCount(bs);
    if |bs| == 1 {
      UngroupGroup(bs[0], 0, 0);
    } else if |bs| == 2 {
      UngroupGroup(bs[0], bs[1], 0);
    } else if |bs| >= 3 {
      var rest := bs[3..];
      assert bs == [bs[0], bs[1], bs[2]] + rest;
      var g := Group(bs[0], bs[1], bs[2]);
      FromTo(rest);
      ToGroup(bs[0], bs[1], bs[2], rest);
      FromGroup(g.0, g.1, g.2, g.3, ToSextets(rest));
      UngroupGroup(bs[0], bs[1], bs[2]);
    }
  }

  /** The bits of the last value that no byte holds are zero (RFC 4648, section 3.5). */
  predicate ZeroTail(vs: seq<Sextet>) {
    && |vs| % 4 != 1
    && (|vs| % 4 == 2 ==> vs[|vs| - 1] % 16 == 0)
    && (|vs| % 4 == 3 ==> vs[|vs| - 1] % 4 == 0)
  }

  /** How many bytes n values stand for. */
  function ByteCount(n: nat): nat { n / 4 * 3 + (if n % 4 == 0 then 0 else n % 4 - 1) }

  lemma TwoValues(v0: Sextet, v1: Sextet)
    requires v1 % 16 == 0
    ensures var b := Ungroup(v0, v1, 0, 0).0; Group(b, 0, 0).0 == v0 && Group(b, 0, 0).1 == v1
  {
    assert (v0 * 4 + v1 / 16) / 4 == v0 && (v0 * 4 + v1 / 16) % 4 == v1 / 16;
  }

  lemma ThreeValues(v0: Sextet, v1: Sextet, v2: Sextet)
    requires v2 % 4 == 0
    ensures var u := Ungroup(v0, v1, v2, 0);
            var g := Group(u.0, u.1, 0);
            g.0 == v0 && g.1 == v1 && g.2 == v2
  {
    assert (v0 * 4 + v1 / 16) / 4 == v0 && (v0 * 4 + v1 / 16) % 4 == v1 / 16;
    assert (v1 % 16 * 16 + v2 / 4) / 16 == v1 % 16 && (v1 % 16 * 16 + v2 / 4) % 16 == v2 / 4;
  }

  /** Values with a zero tail are the values of their bytes. */
  lemma {:induction false} ToFrom(vs: seq<Sextet>) returns (bs: seq<Octet>)
    requires ZeroTail(vs)
    ensures bs == FromSextets(vs) && |bs| == ByteCount(|vs|) && ToSextets(bs) == vs
  {
    bs := FromSextets(vs);
    if |vs| == 2 {
      TwoValues(vs[0], vs[1]);
      assert vs == [vs[0], vs[1]];
    } else if |vs| == 3 {
      ThreeValues(vs[0], vs[1], vs[2]);
      assert vs == [vs[0], vs[1], vs[2]];
    } else if vs != [] {
      var rest := vs[4..];
      assert vs == [vs[0], vs[1], vs[2], vs[3]] + rest;
      var g := Ungroup(vs[0], vs[1], vs[2], vs[3]);
      var tail := ToFrom(rest);
      FromGroup(vs[0], vs[1], vs[2], vs[3], rest);
      ToGroup(g.0, g.1, g.2, tail);
      GroupUngroup(vs[0], vs[1], vs[2], vs[3]);
    }
  }

  /** The values of any bytes have one. */
  lemma {:induction false} ToHasZeroTail(bs: seq<Octet>)
    ensures ZeroTail(ToSextets(bs))
  {
    SextetCount(bs);
    if |bs| > 3 {
      var rest := bs[3..];
      SextetCount(rest);
      ToHasZeroTail(rest);
      assert ToSextets(bs)[4..] == ToSextets(rest);
    }
  }

  // --- The two forms ---

  function Padding(n: nat): string {
    if n % 3 == 1 then "==" else if n % 3 == 2 then "=" else ""
  }

  function Encode(s: string, form: Form): string {
    Spelled(ToSextets(Octets(s)), form) + if form == PaddedStd then Padding(|s|) else ""
  }

  function WithoutBreaks(s: string): string {
    if s == "" then ""
    else (if s[0] in {'\r', '\n'} then "" else [s[0]]) + WithoutBreaks(s[1..])
  }

  /** The letters of a padded text: whole groups, the last of which may end in one or two pads. */
  function Unpadded(t: string): Option<string> {
    if |t| % 4 != 0 then None
    else if t != "" && t[|t| - 1] == '=' then
      Some(if t[|t| - 2] == '=' then t[..|t| - 2] else t[..|t| - 1])
    else Some(t)
  }

  function Decode(s: string, form: Form): (out: Option<string>)
    ensures out.Some? ==> Bytes(out.value)
  {
    var t := WithoutBreaks(s);
    var body := if form == PaddedStd then Unpadded(t) else Some(t);
    if body.None? || !AllLetters(body.value, form) || |body.value| % 4 == 1 then None
    else Some(Text(FromSextets(Values(body.value, form))))
  }

  lemma {:induction false} NoBreaks(s: string)
    requires forall i :: 0 <= i < |s| ==> s[i] !in {'\r', '\n'}
    ensures WithoutBreaks(s) == s
  {
    if s != "" {
      NoBreaks(s[1..]);
    }
  }

  lemma UnpadLetters(letters: string, pad: string)
    requires AllLetters(letters, PaddedStd) && pad in {"", "=", "=="}
    requires (|letters| + |pad|) % 4 == 0
    ensures Unpadded(letters + pad) == Some(letters)
  {
    var t := letters + pad;
    assert t[..|letters|] == letters;
    if letters != "" {
      var last := letters[|letters| - 1];
      assert IsLetter(last, PaddedStd) && last != '=';
      assert t[|letters| - 1] == last;
    }
    if pad == "=" {
      assert letters != "" && |t| - 2 == |letters| - 1;
    } else if pad == "==" {
      assert t[|t| - 2] == '=' && t[|t| - 1] == '=';
    } else {
      assert t == letters;
    }
  }

  lemma UnpaddedPadded(s: string)
    ensures var letters := Spelled(ToSextets(Octets(s)), PaddedStd);
            Unpadded(letters + Padding(|s|)) == Some(letters)
  {
    var vs := ToSextets(Octets(s));
    SextetCount(Octets(s));
    SpelledValues(vs, PaddedStd);
    UnpadLetters(Spelled(vs, PaddedStd), Padding(|s|));
  }

  /** The decoder on a text of letters, padded as its form pads. */
  lemma DecodeLetters(letters: string, pad: string, form: Form)
    requires AllLetters(letters, form) && |letters| % 4 != 1
    requires pad in {"", "=", "=="} && (form == RawUrl ==> pad == "")
    requires form == PaddedStd ==> Unpadded(letters + pad) == Some(letters)
    ensures Decode(letters + pad, form) == Some(Text(FromSextets(Values(letters, form))))
  {
    NoBreaks(letters + pad);
    assert letters + "" == letters;
  }

  /** Decoding undoes encoding, in both forms, on every byte string. */
  lemma DecodeEncode(s: string, form: Form)
    requires Bytes(s)
    ensures Decode(Encode(s, form), form) == Some(s)
  {
    var vs := ToSextets(Octets(s));
    SpelledValues(vs, form);
    UnpaddedPadded(s);
    FromTo(Octets(s));
    DecodeLetters(Spelled(vs, form), if form == PaddedStd then Padding(|s|) else "", form);
    TextOctets(s);
  }

  /** The pads behind n letters. */
  function Pads(n: nat, form: Form): string {
    if form == RawUrl then "" else if n % 4 == 2 then "==" else if n % 4 == 3 then "=" else ""
  }

  /** Canonical letters: those of the alphabet, with a zero tail. */
  predicate Canonical(letters: string, form: Form) {
    AllLetters(letters, form) && ZeroTail(Values(letters, form))
  }

  /** Encoding undoes decoding on canonical text of every length. */
  lemma EncodeDecode(letters: string, form: Form)
    requires Canonical(letters, form)
    ensures exists s :: Decode(letters + Pads(|letters|, form), form) == Some(s) && Encode(s, form) == letters + Pads(|letters|, form)
  {
    var vs, pad := Values(letters, form), Pads(|letters|, form);
    PaddedLetters(letters, form);
    DecodeLetters(letters, pad, form);
    var bs := ToFrom(vs);
    var t := EncodeText(bs, vs, form);
    ValuesSpelled(letters, form);
  }

  lemma PaddedLetters(letters: string, form: Form)
    requires AllLetters(letters, form) && |letters| % 4 != 1
    ensures form == PaddedStd ==> Unpadded(letters + Pads(|letters|, form)) == Some(letters)
  {
    if form == PaddedStd {
      UnpadLetters(letters, Pads(|letters|, form));
    }
  }

  /** What the encoder writes is canonical text, so no other text comes back as itself. */
  lemma EncodesCanonically(s: string, form: Form) returns (letters: string)
    ensures Canonical(letters, form) && Encode(s, form) == letters + Pads(|letters|, form)
  {
    var bs := Octets(s);
    letters := Spelled(ToSextets(bs), form);
    SpelledValues(ToSextets(bs), form);
    ToHasZeroTail(bs);
    SextetCount(bs);
    PadsAre(|bs|, form);
  }

  lemma PadsAre(n: nat, form: Form)
    ensures (if form == PaddedStd then Padding(n) else "") == Pads(n / 3 * 4 + (if n % 3 == 0 then 0 else n % 3 + 1), form)
  {
    var q, r := n / 3, n % 3;
    assert (q * 4) % 4 == 0 && (q * 4 + 2) % 4 == 2 && (q * 4 + 3) % 4 == 3;
  }

  lemma EncodeText(bs: seq<Octet>, vs: seq<Sextet>, form: Form) returns (t: string)
    requires ToSextets(bs) == vs
    ensures t == Spelled(vs, form) + Pads(|vs|, form) && Encode(Text(bs), form) == t
  {
    t := Spelled(vs, form) + Pads(|vs|, form);
    OctetsText(bs);
    SextetCount(bs);
    PadsAre(|bs|, form);
  }
}
