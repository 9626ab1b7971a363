/** The pieces of Go's string and JSON libraries the translators lean on. A char is a rune of a
    string that is valid UTF-8. */
module GoText {
  // unicode.IsSpace: the White_Space property.
  predicate IsSpace(c: char) {
    || c in {'\t', '\n', '\U{0b}', '\U{0c}', '\r', ' ', '\U{85}', '\U{a0}', '\U{1680}'}
    || '\U{2000}' <= c <= '\U{200a}'
    || c in {'\U{2028}', '\U{2029}', '\U{202f}', '\U{205f}', '\U{3000}'}
  }

  predicate Blank(s: string) {
    forall i :: 0 <= i < |s| ==> IsSpace(s[i])
  }

  function TrimLeft(s: string): string {
    if s == "" || !IsSpace(s[0]) then s else TrimLeft(s[1..])
  }

  function TrimRight(s: string): string {
    if s == "" || !IsSpace(s[|s| - 1]) then s else TrimRight(s[..|s| - 1])
  }

  function TrimSpace(s: string): string {
    TrimLeft(TrimRight(s))
  }

  lemma {:induction false} TrimLeftCuts(s: string)
    ensures var t := TrimLeft(s);
            && (t == "" || !IsSpace(t[0]))
            && |t| <= |s| && s[|s| - |t|..] == t && Blank(s[..|s| - |t|])
  {
    if s != "" && IsSpace(s[0]) {
      TrimLeftCuts(s[1..]);
      var t := TrimLeft(s);
      assert s[..|s| - |t|] == [s[0]] + s[1..][..|s| - 1 - |t|];
    }
  }

  lemma {:induction false} TrimRightCuts(s: string)
    ensures var t := TrimRight(s);
            && (t == "" || !IsSpace(t[|t| - 1]))
            && |t| <= |s| && s[..|t|] == t && Blank(s[|t|..])
  {
    if s != "" && IsSpace(s[|s| - 1]) {
      TrimRightCuts(s[..|s| - 1]);
      var t := TrimRight(s);
      assert s[|t|..] == s[..|s| - 1][|t|..] + [s[|s| - 1]];
    }
  }

  lemma TrimSpaceEmpty(s: string)
    ensures TrimSpace(s) == "" <==> Blank(s)
  {
    var t := TrimRight(s);
    TrimRightCuts(s);
    TrimLeftCuts(t);
    assert s == t + s[|t|..];
    if TrimSpace(s) == "" {
      assert t[..|t|] == t;
    } else {
      assert TrimSpace(s)[0] == t[|t| - |TrimSpace(s)|] == s[|t| - |TrimSpace(s)|];
    }
  }

  /** strings.Join with an empty separator. */
  function Concat(parts: seq<string>): string {
    if parts == [] then "" else Concat(parts[..|parts| - 1]) + parts[|parts| - 1]
  }

  predicate JsonSpace(c: char) {
    c in {' ', '\t', '\n', '\r'}
  }

  /** json.Compact: drop white space outside string literals. */
  function Compact(s: string): string {
    CompactFrom(s, false)
  }

  function CompactFrom(s: string, quoted: bool): string
    decreases |s|
  {
    if s == "" then ""
    else if quoted && s[0] == '\\' && |s| > 1 then s[..2] + CompactFrom(s[2..], true)
    else if quoted then [s[0]] + CompactFrom(s[1..], s[0] != '"')
    else if JsonSpace(s[0]) then CompactFrom(s[1..], false)
    else [s[0]] + CompactFrom(s[1..], s[0] == '"')
  }

  lemma CompactEmptyObject()
    ensures Compact("{}") == "{}"
  {
    assert "{}"[1..] == "}" && "}"[1..] == "";
    assert CompactFrom("}", false) == "}" + CompactFrom("", false);
  }

  /** A member's raw value as the decoder slices it: no space around it. */
  predicate RawValue(s: string) {
    s != "" ==> !IsSpace(s[0]) && !IsSpace(s[|s| - 1])
  }

  lemma RawValueTrimmed(s: string)
    requires RawValue(s)
    ensures TrimSpace(s) == s
  {
  }

  /** A member that is present and not null. */
  predicate MemberSet(raw: string) {
    TrimSpace(raw) != "" && TrimSpace(raw) != "null"
  }
}
