/**
 The session-level SDP attribute both peers declare
 (crates/reactor-webrtc-dc-chunking/src/sdp.rs).
 */
module Sdp {
  import opened Wrappers
  import opened Text
  import Send

  const ATTRIBUTE_PREFIX := "a=x-reactor-dc-chunking:"
  const VERSION: nat := 1
  const SIZE_PARAM := "max-message-size"
  const U32_BOUND: nat := 0x1_0000_0000
  const U64_BOUND: nat := 0x1_0000_0000_0000_0000

  type U64 = n: nat | n < U64_BOUND

  datatype Params = Params(version: nat, maxMessageSize: Option<nat>)

  function Local(maxMessageSize: nat): Params {
    Params(VERSION, Some(maxMessageSize))
  }

  /** The line a side declares. */
  function Line(p: Params): string {
    ATTRIBUTE_PREFIX + ToDecimal(p.version)
    + match p.maxMessageSize
      case Some(n) => " " + SIZE_PARAM + "=" + ToDecimal(n)
      case None => ""
  }

  function EffectiveMaxMessageSize(local: nat, remote: Params): nat {
    Min(local, match remote.maxMessageSize case Some(n) => n case None => Send.LEGACY_MAX_MESSAGE_SIZE)
  }

  predicate HasAttribute(sdp: string) {
    exists i :: 0 <= i < |Lines(sdp)| && StartsWith(Lines(sdp)[i], ATTRIBUTE_PREFIX)
  }

  /** The index of the first line that opens a media section, or the number of lines. */
  function FirstMedia(lines: seq<string>): (k: nat)
    ensures k <= |lines|
    ensures forall i :: 0 <= i < k ==> !StartsWith(lines[i], "m=")
    ensures k < |lines| ==> StartsWith(lines[k], "m=")
  {
    if lines == [] || StartsWith(lines[0], "m=") then 0 else FirstMedia(lines[1..]) + 1
  }

  /** `lines` with one more at the end of the session section. */
  function WithDeclaration(lines: seq<string>, p: Params): seq<string> {
    var k := FirstMedia(lines);
    lines[..k] + [Line(p)] + lines[k..]
  }

  function Declared(sdp: string, p: Params): string {
    if HasAttribute(sdp) || sdp == "" then sdp else Unlines(WithDeclaration(Lines(sdp), p))
  }

  method CheckAttribute(sdp: string) returns (found: bool)
    ensures found <==> HasAttribute(sdp)
  {
    var lines := Lines(sdp);
    for i := 0 to |lines|
      invariant forall j :: 0 <= j < i ==> !StartsWith(lines[j], ATTRIBUTE_PREFIX)
    {
      if StartsWith(lines[i], ATTRIBUTE_PREFIX) {
        return true;
      }
    }
    return false;
  }

  /** What is written once `i` lines have been: the declaration goes before line `k`. */
  ghost function Written(lines: seq<string>, line: string, k: nat, i: nat): seq<string>
    requires i <= |lines|
  {
    if k < i then lines[..k] + [line] + lines[k..i] else lines[..i]
  }

  lemma WrittenOneOn(lines: seq<string>, line: string, k: nat, i: nat)
    requires i < |lines|
    ensures Written(lines, line, k, i + 1)
         == (if i == k then Written(lines, line, k, i) + [line] else Written(lines, line, k, i)) + [lines[i]]
  {
  }

  lemma WrittenAll(lines: seq<string>, p: Params)
    ensures var k := FirstMedia(lines);
      var all := Written(lines, Line(p), k, |lines|);
      WithDeclaration(lines, p) == if k < |lines| then all else all + [Line(p)]
  {
    var k, line := FirstMedia(lines), Line(p);
    hide Line, FirstMedia;
    assert lines[k..|lines|] == lines[k..];
    if k == |lines| {
      assert lines[..k] == lines && lines[k..] == [];
      assert lines[..k] + [line] + lines[k..] == lines + [line];
    }
  }

  lemma UnlinesDeclaration(lines: seq<string>, line: string)
    ensures Unlines(lines + [line]) == Unlines(lines) + (line + "\r\n")
  {
    UnlinesAppend(lines, line);
    hide Unlines;
    assert Unlines(lines) + line + "\r\n" == Unlines(lines) + (line + "\r\n");
  }

  method Declare(sdp: string, p: Params) returns (out: string)
    ensures out == Declared(sdp, p)
  {
    var declares := CheckAttribute(sdp);
    var lines := Lines(sdp);
    if declares || lines == [] {
      return sdp;
    }
    var declaration := Line(p) + "\r\n";
    var inserted := false;
    ghost var k := FirstMedia(lines);
    assert Unlines([]) == "" && Written(lines, Line(p), k, 0) == [];
    WrittenAll(lines, p);
    hide Line, Lines, Unlines, StartsWith, FirstMedia, HasAttribute, Written, WithDeclaration;
    out := "";
    for i := 0 to |lines|
      invariant inserted <==> k < i
      invariant out == Unlines(Written(lines, Line(p), k, i))
    {
      ghost var written := Written(lines, Line(p), k, i);
      WrittenOneOn(lines, Line(p), k, i);
      if !inserted && StartsWith(lines[i], "m=") {
        UnlinesDeclaration(written, Line(p));
        written := written + [Line(p)];
        out := out + declaration;
        inserted := true;
      }
      UnlinesAppend(written, lines[i]);
      out := out + lines[i];
      out := out + "\r\n";
    }
    if !inserted {
      UnlinesDeclaration(Written(lines, Line(p), k, |lines|), Line(p));
      out := out + declaration;
    }
  }

  // ---------------------------------------------------------------------
  // Parsing
  // ---------------------------------------------------------------------

  /** The text after the prefix on the first line that carries it. */
  function FindValue(lines: seq<string>): Option<string> {
    if lines == [] then None
    else if StartsWith(lines[0], ATTRIBUTE_PREFIX) then Some(lines[0][|ATTRIBUTE_PREFIX|..])
    else FindValue(lines[1..])
  }

  /** The parameter list from `pairs[0]` on, given the size read so far; the last one counts. */
  function ParsePairs(pairs: seq<string>, size: Option<nat>): Option<Option<nat>> {
    if pairs == [] then Some(size)
    else
      var pair := Trim(pairs[0]);
      if pair == "" then ParsePairs(pairs[1..], size)
      else
        var i := IndexOf(pair, '=');
        if i == |pair| then None
        else if Trim(pair[..i]) == SIZE_PARAM then
          var n := ParseUnsigned(Trim(pair[i + 1..]), U64_BOUND);
          if n.None? then None else ParsePairs(pairs[1..], n)
        else ParsePairs(pairs[1..], size)
  }

  function ParseValue(text: string): Option<Params> {
    var value := Trim(text);
    var i := IndexOfWhitespace(value);
    var params := if i < |value| then Trim(value[i + 1..]) else "";
    var version := ParseUnsigned(value[..i], U32_BOUND);
    if version != Some(VERSION) then None
    else match ParsePairs(Split(params, ';'), None)
      case Some(size) => Some(Params(VERSION, size))
      case None => None
  }

  function Parsed(sdp: string): Option<Params> {
    var value := FindValue(Lines(sdp));
    if value.None? then None else ParseValue(value.value)
  }

  method Parse(sdp: string) returns (r: Option<Params>)
    ensures r == Parsed(sdp)
  {
    var found := FindValue(Lines(sdp));
    if found.None? {
      return None;
    }
    var value := Trim(found.value);
    var i := IndexOfWhitespace(value);
    var params := if i < |value| then Trim(value[i + 1..]) else "";
    var version := ParseUnsigned(value[..i], U32_BOUND);
    if version != Some(VERSION) {
      return None;
    }
    hide FindValue, Lines, Trim, IndexOf, IndexOfWhitespace, ParseUnsigned, Split;
    var maxMessageSize: Option<nat> := None;
    var pairs := Split(params, ';');
    for j := 0 to |pairs|
      invariant ParsePairs(pairs, None) == ParsePairs(pairs[j..], maxMessageSize)
    {
      var pair := Trim(pairs[j]);
      assert pairs[j..][1..] == pairs[j + 1..];
      if pair != "" {
        var k := IndexOf(pair, '=');
        if k == |pair| {
          return None;
        }
        if Trim(pair[..k]) == SIZE_PARAM {
          var n := ParseUnsigned(Trim(pair[k + 1..]), U64_BOUND);
          if n.None? {
            return None;
          }
          maxMessageSize := n;
        }
      }
    }
    r := Some(Params(VERSION, maxMessageSize));
  }

  // ---------------------------------------------------------------------
  // What declare and parse promise
  // ---------------------------------------------------------------------

  lemma NoNewline(p: Params)
    ensures '\n' !in Line(p) && StartsWith(Line(p), ATTRIBUTE_PREFIX)
  {
    var v := ToDecimal(p.version);
    assert forall c :: c in v ==> IsDigit(c);
    match p.maxMessageSize
    case Some(n) =>
      var d := ToDecimal(n);
      assert forall c :: c in d ==> IsDigit(c);
    case None =>
  }

  /**
   The description keeps every line it had, in order, and gains exactly one:
   at the end of the session section.
   */
  lemma DeclaredLines(sdp: string, p: Params)
    requires sdp != "" && !HasAttribute(sdp)
    ensures
      var lines := Lines(sdp);
      var k := FirstMedia(lines);
      Lines(Declared(sdp, p)) == lines[..k] + [Line(p)] + lines[k..]
  {
    NoNewline(p);
    LinesOfUnlines(WithDeclaration(Lines(sdp), p));
  }

  lemma DeclaredHasAttribute(sdp: string, p: Params)
    ensures HasAttribute(Declared(sdp, p)) <==> sdp != ""
  {
    if sdp != "" && !HasAttribute(sdp) {
      DeclaredLines(sdp, p);
      NoNewline(p);
      assert StartsWith(Lines(Declared(sdp, p))[FirstMedia(Lines(sdp))], ATTRIBUTE_PREFIX);
    }
  }

  lemma DeclareIsIdempotent(sdp: string, p: Params, q: Params)
    ensures Declared(Declared(sdp, p), q) == Declared(sdp, p)
  {
    DeclaredHasAttribute(sdp, p);
  }

  lemma {:induction false} FindInserted(before: seq<string>, line: string, after: seq<string>)
    requires StartsWith(line, ATTRIBUTE_PREFIX)
    requires forall i :: 0 <= i < |before| ==> !StartsWith(before[i], ATTRIBUTE_PREFIX)
    ensures FindValue(before + [line] + after) == Some(line[|ATTRIBUTE_PREFIX|..])
  {
    var lines := before + [line] + after;
    if before != [] {
      FindInserted(before[1..], line, after);
      assert lines[1..] == before[1..] + [line] + after;
    }
  }

  lemma TrimNothing(s: string)
    requires s != "" && !IsWhitespace(s[0]) && !IsWhitespace(s[|s| - 1])
    ensures Trim(s) == s
  {
  }

  lemma {:induction false} WhitespaceAt(prefix: string, rest: string)
    requires forall i :: 0 <= i < |prefix| ==> !IsWhitespace(prefix[i])
    requires rest == "" || IsWhitespace(rest[0])
    ensures IndexOfWhitespace(prefix + rest) == |prefix|
  {
    var s := prefix + rest;
    assert forall i :: 0 <= i < |prefix| ==> s[i] == prefix[i] && !IsWhitespace(s[i]);
    assert rest != "" ==> IsWhitespace(s[|prefix|]);
  }

  lemma ParseSizeParam(n: nat)
    ensures ParsePairs(Split(SIZE_PARAM + "=" + ToDecimal(n), ';'), None)
         == if n < U64_BOUND then Some(Some(n)) else None
    ensures Trim(SIZE_PARAM + "=" + ToDecimal(n)) == SIZE_PARAM + "=" + ToDecimal(n)
  {
    var d := ToDecimal(n);
    var pair := SIZE_PARAM + "=" + d;
    assert IsDigit(d[0]) && IsDigit(d[|d| - 1]);
    TrimNothing(d);
    TrimNothing(pair);
    TrimNothing(SIZE_PARAM);
    assert forall i :: 0 <= i < |pair| ==> pair[i] != ';';
    assert IndexOf(pair, ';') == |pair|;
    var pairs: seq<string> := [pair];
    assert Split(pair, ';') == pairs && pairs[1..] == [];
    IndexOfFirst(SIZE_PARAM, '=', d);
    assert pair == SIZE_PARAM + ['='] + d;
    assert pair[..|SIZE_PARAM|] == SIZE_PARAM && pair[|SIZE_PARAM| + 1..] == d;
    ParseOfDecimal(n, U64_BOUND);
  }

  lemma SplitAtSpace(version: string, params: string)
    requires version != "" && params != "" && !IsWhitespace(params[0]) && !IsWhitespace(params[|params| - 1])
    requires forall i :: 0 <= i < |version| ==> !IsWhitespace(version[i])
    ensures var value := version + " " + params;
      && Trim(value) == value && Trim(params) == params
      && IndexOfWhitespace(value) == |version|
      && value[..|version|] == version && value[|version| + 1..] == params
  {
    var value := version + " " + params;
    assert value == version + (" " + params);
    TrimNothing(value);
    TrimNothing(params);
    WhitespaceAt(version, " " + params);
  }

  lemma NoSpace(version: string)
    requires version != "" && forall i :: 0 <= i < |version| ==> !IsWhitespace(version[i])
    ensures Trim(version) == version && IndexOfWhitespace(version) == |version|
    ensures ParsePairs(Split("", ';'), None) == Some(None)
  {
    TrimNothing(version);
    WhitespaceAt(version, "");
    assert version + "" == version;
    var pairs: seq<string> := [""];
    assert Split("", ';') == pairs && pairs[1..] == [];
    assert Trim("") == "";
  }

  lemma VersionHasNoSpace(n: nat)
    ensures forall i :: 0 <= i < |ToDecimal(n)| ==> !IsWhitespace(ToDecimal(n)[i])
  {
    assert forall i :: 0 <= i < |ToDecimal(n)| ==> IsDigit(ToDecimal(n)[i]);
  }

  lemma ValueOfLine(p: Params)
    ensures Line(p)[|ATTRIBUTE_PREFIX|..] == ToDecimal(p.version) +
      if p.maxMessageSize.Some? then " " + (SIZE_PARAM + "=" + ToDecimal(p.maxMessageSize.value)) else ""
  {
  }

  /** What one side prints the other reads back, when the version is the one it speaks. */
  lemma ParseOfLine(p: Params)
    requires p.maxMessageSize.Some? ==> p.maxMessageSize.value < U64_BOUND
    ensures ParseValue(Line(p)[|ATTRIBUTE_PREFIX|..]) == if p.version == VERSION then Some(p) else None
  {
    var v := ToDecimal(p.version);
    ValueOfLine(p);
    VersionHasNoSpace(p.version);
    ParseOfDecimal(p.version, U32_BOUND);
    hide Line, IsWhitespace, Trim, IndexOfWhitespace, ParsePairs, Split, ParseUnsigned, ToDecimal;
    match p.maxMessageSize
    case None =>
      NoSpace(v);
      assert v + "" == v && v[..|v|] == v;
    case Some(n) =>
      var pair := SIZE_PARAM + "=" + ToDecimal(n);
      ParseSizeParam(n);
      VersionHasNoSpace(n);
      SizeParamHasNoSpace();
      SplitAtSpace(v, pair);
      assert v + (" " + pair) == v + " " + pair;
  }

  lemma SizeParamHasNoSpace()
    ensures !IsWhitespace(SIZE_PARAM[0])
  {
  }

  /** Declaring and reading back agree on every description that did not declare before. */
  lemma ParseOfDeclared(sdp: string, p: Params)
    requires sdp != "" && !HasAttribute(sdp) && p.version == VERSION
    requires p.maxMessageSize.Some? ==> p.maxMessageSize.value < U64_BOUND
    ensures Parsed(Declared(sdp, p)) == Some(p)
  {
    var lines := Lines(sdp);
    var k := FirstMedia(lines);
    DeclaredLines(sdp, p);
    NoNewline(p);
    FindInserted(lines[..k], Line(p), lines[k..]);
    ParseOfLine(p);
  }

  /** A description without the attribute declares nothing. */
  lemma NothingDeclared(sdp: string)
    requires !HasAttribute(sdp)
    ensures Parsed(sdp) == None
  {
    FindNothing(Lines(sdp));
  }

  lemma {:induction false} FindNothing(lines: seq<string>)
    requires forall i :: 0 <= i < |lines| ==> !StartsWith(lines[i], ATTRIBUTE_PREFIX)
    ensures FindValue(lines) == None
  {
    if lines != [] {
      FindNothing(lines[1..]);
    }
  }
}
