/** Data URIs as the egress translator reads them (internal/anthropicegress/detect.go and
    content.go, internal/util/datauri.go; RFC 2397, section 3). The scheme, the media type and
    the parameters are read by rune: a char is a code point of valid UTF-8. The payload, which is
    only percent-decoded or put through base64, is read by byte: there a char stands for one. */
module DataUri {
  import opened Wrappers
  import opened GoText
  import Base64

  /** strings.ToLower, as far as a result in ASCII is concerned. */
  function LowerChar(c: char): char {
    if 'A' <= c <= 'Z' then c - 'A' + 'a'
    else if c == '\U{0130}' then 'i'
    else if c == '\U{212a}' then 'k'
    else c
  }

  function ToLower(s: string): (t: string)
    ensures |t| == |s|
  {
    seq(|s|, i requires 0 <= i < |s| => LowerChar(s[i]))
  }

  /** strings.EqualFold against ASCII text. */
  function FoldChar(c: char): char {
    if 'A' <= c <= 'Z' then c - 'A' + 'a'
    else if c == '\U{017f}' then 's'
    else if c == '\U{212a}' then 'k'
    else c
  }

  predicate EqualFold(s: string, t: string) {
    |s| == |t| && forall i :: 0 <= i < |s| ==> FoldChar(s[i]) == FoldChar(t[i])
  }

  /** strings.Cut: around the first separator, or everything before none. */
  function Cut(s: string, sep: char): (string, string, bool) {
    if s == "" then ("", "", false)
    else if s[0] == sep then ("", s[1..], true)
    else var (before, after, found) := Cut(s[1..], sep); ([s[0]] + before, after, found)
  }

  function Split(s: string, sep: char): seq<string>
    decreases |s|
  {
    var (before, after, found) := Cut(s, sep);
    if found then CutShortens(s, sep); [before] + Split(after, sep) else [before]
  }

  lemma {:induction false} CutShortens(s: string, sep: char)
    ensures var (before, after, found) := Cut(s, sep);
            found ==> |after| < |s|
  {
    if s != "" && s[0] != sep {
      CutShortens(s[1..], sep);
    }
  }

  lemma {:induction false} CutAt(before: string, sep: char, after: string)
    requires sep !in before
    ensures Cut(before + [sep] + after, sep) == (before, after, true)
  {
    var s := before + [sep] + after;
    if before == "" {
      assert s[1..] == after;
    } else {
      assert s[1..] == before[1..] + [sep] + after;
      CutAt(before[1..], sep, after);
      assert before == [before[0]] + before[1..];
    }
  }

  lemma {:induction false} CutNone(s: string, sep: char)
    requires sep !in s
    ensures Cut(s, sep) == (s, "", false)
  {
    if s != "" {
      CutNone(s[1..], sep);
      assert s == [s[0]] + s[1..];
    }
  }

  function CutDataScheme(u: string): Option<string> {
    if |u| >= 5 && EqualFold(u[..5], "data:") then Some(u[5..]) else None
  }

  datatype Parsed = Parsed(mediaType: string, base64: bool, payload: string)

  predicate Base64Param(params: string) {
    var list := Split(params, ';');
    exists i :: 0 <= i < |list| && EqualFold(TrimSpace(list[i]), "base64")
  }

  function ParseDataUri(u: string): Option<Parsed> {
    match CutDataScheme(u)
    case None => None
    case Some(rest) =>
      var (meta, payload, found) := Cut(rest, ',');
      if !found || payload == "" then None
      else
        var (raw, params, _) := Cut(meta, ';');
        var mediaType := ToLower(TrimSpace(raw));
        Some(Parsed(if mediaType == "" then "text/plain" else mediaType, Base64Param(params), payload))
  }

  /** A well-formed data URI with nothing in it. */
  predicate EmptyDataUri(u: string) {
    match CutDataScheme(u)
    case None => false
    case Some(rest) => var (_, payload, found) := Cut(rest, ','); found && payload == ""
  }

  function Hex(c: char): (v: int)
    ensures -1 <= v < 16
  {
    if '0' <= c <= '9' then c as int - '0' as int
    else if 'a' <= c <= 'f' then c as int - 'a' as int + 10
    else if 'A' <= c <= 'F' then c as int - 'A' as int + 10
    else -1
  }

  /** url.PathUnescape. */
  function PathUnescape(s: string): Option<string>
    decreases |s|
  {
    if s == "" then Some("")
    else if s[0] != '%' then
      match PathUnescape(s[1..]) case None => None case Some(t) => Some([s[0]] + t)
    else if |s| < 3 || Hex(s[1]) < 0 || Hex(s[2]) < 0 then None
    else
      match PathUnescape(s[3..]) case None => None case Some(t) => Some([(Hex(s[1]) * 16 + Hex(s[2])) as char] + t)
  }

  function Base64Payload(p: Parsed): Option<string> {
    if p.base64 then Some(p.payload)
    else match PathUnescape(p.payload) case None => None case Some(raw) => Some(Base64.Encode(raw, Base64.PaddedStd))
  }

  function DecodePayload(p: Parsed): Option<string> {
    if p.base64 then Base64.Decode(p.payload, Base64.PaddedStd) else PathUnescape(p.payload)
  }

  // --- The URIs the ingress translator writes ---

  function Base64Uri(mediaType: string, data: string): string {
    "data:" + mediaType + ";base64," + data
  }

  /** A media type as it comes back: lower case, trimmed, free of URI punctuation. */
  predicate PlainMediaType(t: string) {
    t != "" && !IsSpace(t[0]) && !IsSpace(t[|t| - 1])
    && forall i :: 0 <= i < |t| ==> t[i] != ',' && t[i] != ';' && LowerChar(t[i]) == t[i]
  }

  lemma TrimIdle(s: string)
    requires s == "" || (!IsSpace(s[0]) && !IsSpace(s[|s| - 1]))
    ensures TrimSpace(s) == s
  {
  }

  lemma SplitBase64()
    ensures Base64Param("base64")
  {
    CutNone("base64", ';');
    TrimIdle("base64");
    var list := Split("base64", ';');
    assert list == ["base64"];
    assert EqualFold(TrimSpace(list[0]), "base64");
  }

  lemma SchemeOf(rest: string)
    ensures CutDataScheme("data:" + rest) == Some(rest)
  {
    assert ("data:" + rest)[..5] == "data:";
  }

  /** Parsing gives back the media type and the payload a base64 URI was written from. */
  lemma ParseBase64Uri(mediaType: string, data: string)
    requires PlainMediaType(mediaType) && data != ""
    ensures ParseDataUri(Base64Uri(mediaType, data)) == Some(Parsed(mediaType, true, data))
    ensures CutDataScheme(Base64Uri(mediaType, data)).Some? && !EmptyDataUri(Base64Uri(mediaType, data))
  {
    var meta := mediaType + [';'] + "base64";
    var rest := meta + [','] + data;
    assert Base64Uri(mediaType, data) == "data:" + rest;
    SchemeOf(rest);
    CutAt(meta, ',', data);
    CutAt(mediaType, ';', "base64");
    TrimIdle(mediaType);
    assert ToLower(mediaType) == mediaType;
    SplitBase64();
  }

  // --- Any data URI, by its pieces ---

  /** The parameters as they are written, each behind a semicolon. */
  function Written(params: seq<string>): string {
    if params == [] then "" else ";" + params[0] + Written(params[1..])
  }

  predicate Unpunctuated(s: string) { ',' !in s && ';' !in s }

  predicate AllUnpunctuated(params: seq<string>) { forall k :: 0 <= k < |params| ==> Unpunctuated(params[k]) }

  lemma {:induction false} WrittenPlain(params: seq<string>)
    requires AllUnpunctuated(params)
    ensures ',' !in Written(params)
  {
    if params != [] {
      WrittenPlain(params[1..]);
    }
  }

  lemma {:induction false} SplitWritten(params: seq<string>)
    requires params != [] && AllUnpunctuated(params)
    ensures Split(params[0] + Written(params[1..]), ';') == params
  {
    var rest := params[1..];
    if rest == [] {
      assert params[0] + "" == params[0];
      CutNone(params[0], ';');
      assert params == [params[0]];
    } else {
      var behind := rest[0] + Written(rest[1..]);
      assert params[0] + Written(rest) == params[0] + [';'] + behind;
      CutAt(params[0], ';', behind);
      SplitWritten(rest);
      assert params == [params[0]] + rest;
    }
  }

  lemma NoParams(kind: string)
    requires Unpunctuated(kind)
    ensures Cut(kind, ';') == (kind, "", false) && !Base64Param("")
  {
    CutNone(kind, ';');
    assert Split("", ';') == [""];
    assert |TrimSpace("")| == 0;
  }

  /** Some parameter says so. */
  predicate SaysBase64(params: seq<string>) {
    exists k :: 0 <= k < |params| && EqualFold(TrimSpace(params[k]), "base64")
  }

  lemma SomeParams(kind: string, params: seq<string>)
    requires Unpunctuated(kind) && params != [] && AllUnpunctuated(params)
    ensures var rest := params[0] + Written(params[1..]);
            Cut(kind + Written(params), ';') == (kind, rest, true) && (Base64Param(rest) <==> SaysBase64(params))
  {
    var behind := params[0] + Written(params[1..]);
    assert kind + Written(params) == kind + [';'] + behind;
    CutAt(kind, ';', behind);
    SplitWritten(params);
  }

  lemma MetaCut(kind: string, params: seq<string>)
    requires Unpunctuated(kind) && AllUnpunctuated(params)
    ensures var (raw, rest, _) := Cut(kind + Written(params), ';');
            raw == kind && (Base64Param(rest) <==> SaysBase64(params))
  {
    if params == [] {
      assert kind + "" == kind;
      NoParams(kind);
    } else {
      SomeParams(kind, params);
    }
  }

  /** The scheme is read in any case, the media type trimmed and in lower case, plain text where there is
      none; it is base64 if any parameter says so; what follows the first comma is the payload. */
  lemma ParsesAs(scheme: string, kind: string, params: seq<string>, payload: string)
    requires EqualFold(scheme, "data:") && Unpunctuated(kind) && AllUnpunctuated(params)
    ensures var u := scheme + (kind + Written(params) + "," + payload);
            var t := ToLower(TrimSpace(kind));
            && (EmptyDataUri(u) <==> payload == "")
            && (payload == "" ==> ParseDataUri(u).None?)
            && (payload != "" ==>
                  ParseDataUri(u) == Some(Parsed(if t == "" then "text/plain" else t, SaysBase64(params), payload)))
  {
    var meta := kind + Written(params);
    var rest := meta + "," + payload;
    assert (scheme + rest)[..5] == scheme && (scheme + rest)[5..] == rest;
    WrittenPlain(params);
    CutAt(meta, ',', payload);
    assert meta + [','] + payload == rest;
    MetaCut(kind, params);
  }

  // --- Percent encoding ---

  function HexDigit(v: int): char
    requires 0 <= v < 16
  {
    "0123456789ABCDEF"[v]
  }

  /** Each byte as it stands, or as a percent sign and two digits. */
  function Escaped(s: string, plain: string): string
    requires Base64.Bytes(s)
  {
    if s == "" then ""
    else (if s[0] in plain then [s[0]] else ['%', HexDigit(s[0] as int / 16), HexDigit(s[0] as int % 16)]) + Escaped(s[1..], plain)
  }

  lemma UnescapeEscape(c: char, t: string, rest: string)
    requires c as int < 256 && PathUnescape(t) == Some(rest)
    ensures PathUnescape(['%', HexDigit(c as int / 16), HexDigit(c as int % 16)] + t) == Some([c] + rest)
  {
    var e := ['%', HexDigit(c as int / 16), HexDigit(c as int % 16)] + t;
    assert e[3..] == t;
    HexDigits(c as int / 16);
    HexDigits(c as int % 16);
  }

  lemma UnescapePlain(c: char, t: string, rest: string)
    requires c != '%' && PathUnescape(t) == Some(rest)
    ensures PathUnescape([c] + t) == Some([c] + rest)
  {
    assert ([c] + t)[1..] == t;
  }

  /** However much of it is written as escapes, the bytes come back. */
  lemma {:induction false} UnescapesEscaped(s: string, plain: string)
    requires '%' !in plain && Base64.Bytes(s)
    ensures PathUnescape(Escaped(s, plain)) == Some(s)
  {
    if s != "" {
      UnescapesEscaped(s[1..], plain);
      assert s == [s[0]] + s[1..];
      if s[0] in plain {
        UnescapePlain(s[0], Escaped(s[1..], plain), s[1..]);
      } else {
        UnescapeEscape(s[0], Escaped(s[1..], plain), s[1..]);
      }
    }
  }

  lemma HexDigits(v: int)
    requires 0 <= v < 16
    ensures Hex(HexDigit(v)) == v
  {
  }
}
