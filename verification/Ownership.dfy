/** CODEOWNERS: the regular expressions built from patterns, and the rule that decides who owns a path. */
module Ownership {
  import opened Model
  import opened Text

  datatype Rule = Rule(pattern: string, owners: seq<string>, line: nat)

  // ------------------------------------------------------------------ the expressions that are built

  /** A literal character, `[^/]`, `[^/]*`, and `.*`. */
  datatype Token = Literal(c: char) | NotSlash | ManyNotSlash | Many

  // `^` or `^(.*/)?`, the tokens, and a tail: `/.*$` for a directory, `(/.*)?$` otherwise.
  datatype Expression = Expression(rooted: bool, tokens: seq<Token>, directory: bool)

  function StripSlashes(text: string): string {
    if text != "" && text[0] == '/' then StripSlashes(text[1..])
    else if text != "" && text[|text| - 1] == '/' then StripSlashes(text[..|text| - 1])
    else text
  }

  function TokenOf(c: char): Token {
    if c == '*' then ManyNotSlash else if c == '?' then NotSlash else Literal(c)
  }

  function SegmentTokens(segment: string): (tokens: seq<Token>)
  {
    if segment == "**" then [Many] else seq(|segment|, i requires 0 <= i < |segment| => TokenOf(segment[i]))
  }

  function JoinTokens(segments: seq<string>): seq<Token>
    requires segments != []
  {
    if |segments| == 1 then SegmentTokens(segments[0])
    else SegmentTokens(segments[0]) + [Literal('/')] + JoinTokens(segments[1..])
  }

  predicate StartsWithSlash(text: string) { text != "" && text[0] == '/' }
  predicate EndsWithSlash(text: string) { text != "" && text[|text| - 1] == '/' }

  predicate Rooted(pattern: string) { StartsWithSlash(pattern) || '/' in StripSlashes(pattern) }

  function Segments(pattern: string): (segments: seq<string>)
    ensures segments != []
  {
    Split(StripSlashes(pattern), '/')
  }

  /** Only slashes go, and all of them at either end. */
  lemma {:induction false} StrippedExactly(text: string) returns (i: nat, j: nat)
    ensures i <= j <= |text| && StripSlashes(text) == text[i..j]
    ensures forall k :: 0 <= k < i || j <= k < |text| ==> text[k] == '/'
    ensures i < j ==> text[i] != '/' && text[j - 1] != '/'
    decreases |text|
  {
    if text != "" && text[0] == '/' {
      i, j := StrippedExactly(text[1..]);
      assert text[1..][i..j] == text[i + 1..j + 1];
      i, j := i + 1, j + 1;
    } else if text != "" && text[|text| - 1] == '/' {
      i, j := StrippedExactly(text[..|text| - 1]);
      assert text[..|text| - 1][i..j] == text[i..j];
    } else {
      i, j := 0, |text|;
    }
  }

  function Compiled(pattern: string): Expression {
    Expression(Rooted(pattern), JoinTokens(Segments(pattern)), EndsWithSlash(pattern))
  }

  /** `_to_regex`. */
  method ToRegex(pattern: string) returns (e: Expression)
    ensures e == Compiled(pattern)
  {
    var body := StripSlashes(pattern);
    var segments := Split(body, '/');
    var parts: seq<seq<Token>> := [];
    for k := 0 to |segments|
      invariant |parts| == k && forall j :: 0 <= j < k ==> parts[j] == SegmentTokens(segments[j])
    {
      if segments[k] == "**" {
        parts := parts + [[Many]];
      } else {
        var escaped: seq<Token> := [];
        for i := 0 to |segments[k]|
          invariant |escaped| == i && forall j :: 0 <= j < i ==> escaped[j] == TokenOf(segments[k][j])
        {
          escaped := escaped + [TokenOf(segments[k][i])];
        }
        parts := parts + [escaped];
      }
    }
    var joined := parts[|parts| - 1];
    var m := |parts| - 1;
    assert segments[m..] == [segments[m]];
    while m > 0
      invariant 0 <= m < |segments| == |parts| && joined == JoinTokens(segments[m..])
    {
      m := m - 1;
      assert segments[m..][1..] == segments[m + 1..];
      joined := parts[m] + [Literal('/')] + joined;
    }
    assert segments[0..] == segments;
    e := Expression(StartsWithSlash(pattern) || '/' in body, joined, EndsWithSlash(pattern));
  }

  // ------------------------------------------------------------------ what they match

  /** `$`: the end, or just before a final line break. */
  predicate AtEnd(text: string) { text == "" || text == "\n" }

  /** `.*$`. */
  predicate AnyToEnd(text: string)
  {
    AtEnd(text) || (text[0] != '\n' && AnyToEnd(text[1..]))
  }

  predicate TailMatches(directory: bool, text: string) {
    (!directory && AtEnd(text)) || (StartsWithSlash(text) && AnyToEnd(text[1..]))
  }

  predicate TokensMatch(tokens: seq<Token>, directory: bool, text: string)
    decreases |tokens|, |text|
  {
    if tokens == [] then TailMatches(directory, text)
    else
      match tokens[0]
      case Literal(c) => text != "" && text[0] == c && TokensMatch(tokens[1..], directory, text[1..])
      case NotSlash => text != "" && text[0] != '/' && TokensMatch(tokens[1..], directory, text[1..])
      case ManyNotSlash =>
        TokensMatch(tokens[1..], directory, text) || (text != "" && text[0] != '/' && TokensMatch(tokens, directory, text[1..]))
      case Many =>
        TokensMatch(tokens[1..], directory, text) || (text != "" && text[0] != '\n' && TokensMatch(tokens, directory, text[1..]))
  }

  // The prefix `(.*/)?` may stop at the start, or after any slash on the first line.
  predicate StopsAt(text: string, k: nat) {
    k == 0 || (k <= |text| && text[k - 1] == '/' && forall i :: 0 <= i < k ==> text[i] != '\n')
  }

  ghost predicate Matches(e: Expression, text: string) {
    if e.rooted then TokensMatch(e.tokens, e.directory, text)
    else exists k: nat :: k <= |text| && StopsAt(text, k) && TokensMatch(e.tokens, e.directory, text[k..])
  }

  // ------------------------------------------------------------------ segments against segments

  /** One pattern segment against one path segment: `*` is any run of characters, `?` any one. */
  predicate SegmentMatches(p: string, s: string)
    decreases |p|, |s|
  {
    if p == "" then s == ""
    else if p[0] == '*' then SegmentMatches(p[1..], s) || (s != "" && SegmentMatches(p, s[1..]))
    else s != "" && (p[0] == '?' || p[0] == s[0]) && SegmentMatches(p[1..], s[1..])
  }

  /** The pattern's segments match consecutive path segments, with one more after them for a directory. */
  predicate Aligned(pattern: seq<string>, path: seq<string>, offset: nat, directory: bool) {
    && offset + |pattern| + (if directory then 1 else 0) <= |path|
    && forall i :: 0 <= i < |pattern| ==> SegmentMatches(pattern[i], path[offset + i])
  }

  predicate OneLine(text: string) { forall i :: 0 <= i < |text| ==> text[i] != '\n' }

  /** The first segment of a path, and what follows it. */
  function First(text: string): (s: string)
    ensures |s| <= |text| && s == text[..|s|] && (|s| < |text| ==> text[|s|] == '/')
    ensures forall i :: 0 <= i < |s| ==> s[i] != '/'
  {
    if text == "" || text[0] == '/' then "" else [text[0]] + First(text[1..])
  }

  function After(text: string): string { text[|First(text)|..] }

  lemma {:induction false} SplitFirst(text: string)
    ensures Split(text, '/') == [First(text)] + if After(text) == "" then [] else Split(After(text)[1..], '/')
  {
    if text != "" {
      if text[0] == '/' { assert After(text) == text; } else {
        SplitFirst(text[1..]);
        assert After(text) == After(text[1..]);
      }
    }
  }

  lemma {:induction false} OneLineToEnd(text: string)
    requires OneLine(text)
    ensures AnyToEnd(text)
  {
    if text != "" { OneLineToEnd(text[1..]); }
  }

  lemma {:induction false} TailOnOneLine(directory: bool, text: string)
    requires OneLine(text)
    ensures TailMatches(directory, text) <==> (!directory && text == "") || StartsWithSlash(text)
  {
    if text != "" {
      assert text[0] != '\n';
      OneLineToEnd(text[1..]);
    }
  }

  /** Tokens that can only continue at the end of a segment. */
  predicate AtBoundary(rest: seq<Token>) { rest == [] || rest[0] == Literal('/') }

  /** A segment's tokens use up exactly one segment of the path. */
  lemma {:induction false} SegmentConsumed(p: string, rest: seq<Token>, directory: bool, text: string)
    requires OneLine(text) && AtBoundary(rest) && p != "**" && '/' !in p
    ensures TokensMatch(SegmentTokens(p) + rest, directory, text) <==>
      SegmentMatches(p, First(text)) && TokensMatch(rest, directory, After(text))
  {
    CharsConsumed(p, rest, directory, text);
  }

  function CharTokens(p: string): seq<Token> { seq(|p|, i requires 0 <= i < |p| => TokenOf(p[i])) }

  lemma {:induction false} CharsConsumed(p: string, rest: seq<Token>, directory: bool, text: string)
    requires OneLine(text) && AtBoundary(rest) && '/' !in p
    ensures TokensMatch(CharTokens(p) + rest, directory, text) <==>
      SegmentMatches(p, First(text)) && TokensMatch(rest, directory, After(text))
    decreases |p|, |text|
  {
    var tokens := CharTokens(p) + rest;
    if p == "" {
      assert tokens == rest;
      if First(text) == "" { assert After(text) == text; } else { TailOnOneLine(directory, text); }
    } else {
      assert tokens[0] == TokenOf(p[0]) && tokens[1..] == CharTokens(p[1..]) + rest;
      assert p[0] in p && forall c :: c in p[1..] ==> c in p;
      if p[0] == '*' { CharsConsumed(p[1..], rest, directory, text); }
      if text != "" && text[0] != '/' {
        FirstStep(text);
        if p[0] == '*' { CharsConsumed(p, rest, directory, text[1..]); } else { CharsConsumed(p[1..], rest, directory, text[1..]); }
      }
    }
  }

  lemma {:induction false} FirstStep(text: string)
    requires text != "" && text[0] != '/'
    ensures First(text) == [text[0]] + First(text[1..]) && First(text)[1..] == First(text[1..]) && After(text) == After(text[1..])
  {
  }

  /** The pattern's segments match the path's from the first on, `**` standing for one or more of them; what is left over
      does not matter, but for a directory something is. */
  predicate Spans(pattern: seq<string>, path: seq<string>, directory: bool)
    decreases |pattern|
  {
    if pattern == [] then directory ==> path != []
    else if pattern[0] == "**" then exists k :: 1 <= k <= |path| && Spans(pattern[1..], path[k..], directory)
    else path != [] && SegmentMatches(pattern[0], path[0]) && Spans(pattern[1..], path[1..], directory)
  }

  /** `.*` stops anywhere on the line. */
  lemma {:induction false} ManyConsumed(rest: seq<Token>, directory: bool, text: string)
    requires OneLine(text)
    ensures TokensMatch([Many] + rest, directory, text) <==> exists j: nat :: j <= |text| && TokensMatch(rest, directory, text[j..])
    decreases |text|
  {
    assert ([Many] + rest)[0] == Many && ([Many] + rest)[1..] == rest && text[0..] == text;
    if text != "" {
      assert text[0] != '\n';
      ManyConsumed(rest, directory, text[1..]);
      if j: nat :| j <= |text| && TokensMatch(rest, directory, text[j..]) {
        if j > 0 { assert text[1..][j - 1..] == text[j..]; }
      }
      if j: nat :| j <= |text[1..]| && TokensMatch(rest, directory, text[1..][j..]) { assert text[1..][j..] == text[j + 1..]; }
    }
  }

  lemma {:induction false} SlashConsumed(tokens: seq<Token>, directory: bool, text: string)
    ensures TokensMatch([Literal('/')] + tokens, directory, text) <==> StartsWithSlash(text) && TokensMatch(tokens, directory, text[1..])
  {
    assert ([Literal('/')] + tokens)[1..] == tokens;
  }

  lemma {:induction false} SegmentsAfter(text: string)
    ensures After(text) == "" <==> Split(text, '/')[1..] == []
    ensures After(text) != "" ==> Split(text, '/')[1..] == Split(After(text)[1..], '/')
    ensures Split(text, '/')[0] == First(text)
  {
    SplitFirst(text);
  }

  /** One segment of the pattern, at the end. */
  lemma {:induction false} LastSpans(segment: string, directory: bool, text: string)
    requires OneLine(text) && '/' !in segment
    ensures TokensMatch(SegmentTokens(segment), directory, text) <==> Spans([segment], Split(text, '/'), directory)
  {
    var parts := Split(text, '/');
    assert [segment][1..] == [] && SegmentTokens(segment) + [] == SegmentTokens(segment);
    if segment == "**" {
      ManyConsumed([], directory, text);
      assert [Many] + [] == [Many];
      if directory {
        if j: nat :| j <= |text| && TokensMatch([], directory, text[j..]) {
          assert StartsWithSlash(text[j..]) && text[j] == '/';
          SegmentsCounted(text, j + 1);
          assert Spans([], parts[1..], directory);
        }
        if |parts| >= 2 {
          var k := OffsetIsStop(text, 1);
          StopPast(text, k);
          OneLineToEnd(text[k..]);
          assert text[k - 1..][1..] == text[k..];
          assert TokensMatch([], directory, text[k - 1..]);
        }
      } else {
        assert TokensMatch([], directory, text[|text|..]);
        assert Spans([], parts[1..], directory);
      }
    } else {
      SegmentConsumed(segment, [], directory, text);
      SegmentsAfter(text);
      TailOnOneLine(directory, After(text));
    }
  }

  /** The segment a later one starts at is not the first. */
  lemma {:induction false} StopPast(text: string, k: nat)
    requires k <= |text| && StopsAt(text, k) && Split(text[k..], '/') != Split(text, '/')
    ensures k > 0 && text[k - 1] == '/'
  {
    assert text[0..] == text;
  }

  /** A `**` with more after it. */
  lemma {:induction false} SpanningSpans(segments: seq<string>, directory: bool, text: string)
    requires |segments| > 1 && segments[0] == "**" && OneLine(text)
    requires forall k: nat :: k <= |text| ==>
      (TokensMatch(JoinTokens(segments[1..]), directory, text[k..]) <==> Spans(segments[1..], Split(text[k..], '/'), directory))
    ensures TokensMatch(JoinTokens(segments), directory, text) <==> Spans(segments, Split(text, '/'), directory)
  {
    hide *;
    var rest, parts := JoinTokens(segments[1..]), Split(text, '/');
    JoinStep(segments);
    SpanningTokens();
    ManyConsumed([Literal('/')] + rest, directory, text);
    SpansMeans(segments, parts, directory);
    if j: nat :| j <= |text| && TokensMatch([Literal('/')] + rest, directory, text[j..]) {
      SlashConsumed(rest, directory, text[j..]);
      var offset := SlashIsOffset(text, j);
      assert text[j..][1..] == text[j + 1..];
    }
    if offset :| 1 <= offset <= |parts| && Spans(segments[1..], parts[offset..], directory) {
      NothingSpans(segments[1..], directory);
      assert parts[|parts|..] == [];
      assert offset < |parts|;
      var j := OffsetIsSlash(text, offset);
      SlashConsumed(rest, directory, text[j..]);
      assert text[j..][1..] == text[j + 1..];
    }
  }

  lemma {:induction false} SpanningTokens()
    ensures SegmentTokens("**") == [Many]
  {
  }

  /** After a slash some segment but the first starts ... */
  lemma {:induction false} SlashIsOffset(text: string, j: nat) returns (offset: nat)
    requires OneLine(text) && j <= |text| && StartsWithSlash(text[j..])
    ensures j < |text| && 1 <= offset <= |Split(text, '/')| && Split(text[j + 1..], '/') == Split(text, '/')[offset..]
  {
    assert text[j] == '/' && StopsAt(text, j + 1);
    offset := StopIsOffset(text, j + 1);
    SegmentsCounted(text, j + 1);
    hide Split;
  }

  /** ... and every segment but the first starts after one. */
  lemma {:induction false} OffsetIsSlash(text: string, offset: nat) returns (j: nat)
    requires OneLine(text) && 1 <= offset < |Split(text, '/')|
    ensures j < |text| && StartsWithSlash(text[j..]) && Split(text[j + 1..], '/') == Split(text, '/')[offset..]
  {
    var k := OffsetIsStop(text, offset);
    assert |Split(text, '/')[offset..]| < |Split(text, '/')|;
    StopPast(text, k);
    j := k - 1;
    hide Split;
  }

  lemma {:induction false} JoinStep(segments: seq<string>)
    requires |segments| > 1
    ensures JoinTokens(segments) == SegmentTokens(segments[0]) + ([Literal('/')] + JoinTokens(segments[1..]))
  {
    hide SegmentTokens;
    assert SegmentTokens(segments[0]) + [Literal('/')] + JoinTokens(segments[1..]) == SegmentTokens(segments[0]) + ([Literal('/')] + JoinTokens(segments[1..]));
  }

  lemma {:induction false} SpansMeans(pattern: seq<string>, path: seq<string>, directory: bool)
    requires pattern != []
    ensures Spans(pattern, path, directory) <==>
      if pattern[0] == "**" then exists k :: 1 <= k <= |path| && Spans(pattern[1..], path[k..], directory)
      else path != [] && SegmentMatches(pattern[0], path[0]) && Spans(pattern[1..], path[1..], directory)
  {
    hide SegmentMatches;
  }

  lemma {:induction false} NothingSpans(pattern: seq<string>, directory: bool)
    requires pattern != []
    ensures !Spans(pattern, [], directory)
  {
  }

  /** The joined tokens match exactly the paths whose first segments the pattern's span. */
  lemma {:induction false} JoinedSpans(segments: seq<string>, directory: bool, text: string)
    requires segments != [] && OneLine(text) && forall i :: 0 <= i < |segments| ==> '/' !in segments[i]
    ensures TokensMatch(JoinTokens(segments), directory, text) <==> Spans(segments, Split(text, '/'), directory)
    decreases |segments|
  {
    hide *;
    if |segments| == 1 {
      LastSpans(segments[0], directory, text);
      assert segments == [segments[0]];
      OneJoined(segments);
    } else if segments[0] == "**" {
      forall k: nat | k <= |text|
        ensures TokensMatch(JoinTokens(segments[1..]), directory, text[k..]) <==> Spans(segments[1..], Split(text[k..], '/'), directory)
      {
        OneLineAfter(text, k);
        JoinedSpans(segments[1..], directory, text[k..]);
      }
      SpanningSpans(segments, directory, text);
    } else {
      JoinStep(segments);
      BoundarySlash(JoinTokens(segments[1..]));
      SegmentConsumed(segments[0], [Literal('/')] + JoinTokens(segments[1..]), directory, text);
      SlashConsumed(JoinTokens(segments[1..]), directory, After(text));
      SegmentsAfter(text);
      SpansMeans(segments, Split(text, '/'), directory);
      NothingSpans(segments[1..], directory);
      if After(text) != "" {
        AfterSlash(text);
        JoinedSpans(segments[1..], directory, After(text)[1..]);
      } else {
        NoSlash();
      }
    }
  }

  lemma {:induction false} OneJoined(segments: seq<string>)
    requires |segments| == 1
    ensures JoinTokens(segments) == SegmentTokens(segments[0])
  {
  }

  lemma {:induction false} OneLineAfter(text: string, k: nat)
    requires OneLine(text) && k <= |text|
    ensures OneLine(text[k..])
  {
  }

  lemma {:induction false} BoundarySlash(tokens: seq<Token>)
    ensures AtBoundary([Literal('/')] + tokens)
  {
  }

  lemma {:induction false} AfterSlash(text: string)
    requires After(text) != ""
    ensures StartsWithSlash(After(text)) && (OneLine(text) ==> OneLine(After(text)[1..]))
  {
  }

  lemma {:induction false} NoSlash()
    ensures !StartsWithSlash("")
  {
  }

  /** A stop of the prefix is the start of some segment ... */
  lemma {:induction false} StopIsOffset(text: string, k: nat) returns (offset: nat)
    requires k <= |text| && StopsAt(text, k)
    ensures offset < |Split(text, '/')| && Split(text[k..], '/') == Split(text, '/')[offset..]
    decreases |text|
  {
    if k == 0 {
      offset := 0;
    } else if k == 1 {
      offset := 1;
    } else {
      assert StopsAt(text[1..], k - 1);
      var inner := StopIsOffset(text[1..], k - 1);
      assert text[1..][k - 1..] == text[k..];
      if text[0] == '/' {
        offset := inner + 1;
      } else {
        FirstNotWhole(text[1..], k - 1);
        offset := inner;
      }
    }
  }

  /** ... after a slash, never the first one. */
  lemma {:induction false} FirstNotWhole(text: string, k: nat)
    requires 0 < k <= |text| && text[k - 1] == '/'
    ensures Split(text[k..], '/') != Split(text, '/')
  {
    SegmentsCounted(text, k);
  }

  lemma {:induction false} SegmentsCounted(text: string, k: nat)
    requires 0 < k <= |text| && text[k - 1] == '/'
    ensures |Split(text[k..], '/')| < |Split(text, '/')|
    decreases |text|
  {
    if k > 1 {
      assert text[1..][k - 1..] == text[k..];
      SegmentsCounted(text[1..], k - 1);
    }
  }

  /** And every segment starts at a stop. */
  lemma {:induction false} OffsetIsStop(text: string, offset: nat) returns (k: nat)
    requires OneLine(text) && offset < |Split(text, '/')|
    ensures k <= |text| && StopsAt(text, k) && Split(text[k..], '/') == Split(text, '/')[offset..]
    decreases |text|
  {
    if offset == 0 {
      k := 0;
    } else {
      var inner := OffsetIsStop(text[1..], if text[0] == '/' then offset - 1 else offset);
      k := inner + 1;
      assert text[1..][inner..] == text[k..];
    }
  }

  lemma {:induction false} SegmentsHaveNoSlash(text: string)
    ensures forall i :: 0 <= i < |Split(text, '/')| ==> '/' !in Split(text, '/')[i]
    ensures '/' in text <==> |Split(text, '/')| > 1
  {
    if text != "" {
      SegmentsHaveNoSlash(text[1..]);
      assert text == [text[0]] + text[1..];
    }
  }

  /** A pattern owns a path on one line exactly when its segments span the path's: from the first one where the pattern
      starts with a slash or has several segments, from any otherwise. */
  lemma {:induction false} MatchesAligned(pattern: string, path: string)
    requires OneLine(path)
    ensures
      var segments, parts := Split(StripSlashes(pattern), '/'), Split(path, '/');
      Matches(Compiled(pattern), path) <==>
        exists offset: nat ::
          offset < |parts| && ((StartsWithSlash(pattern) || |segments| > 1) ==> offset == 0) && Spans(segments, parts[offset..], EndsWithSlash(pattern))
  {
    hide TokensMatch, JoinTokens, Spans, StopsAt;
    var segments, directory, parts := Segments(pattern), EndsWithSlash(pattern), Split(path, '/');
    SegmentsHaveNoSlash(StripSlashes(pattern));
    assert parts[0..] == parts;
    if Rooted(pattern) {
      JoinedSpans(segments, directory, path);
    } else {
      if Matches(Compiled(pattern), path) {
        var k: nat :| k <= |path| && StopsAt(path, k) && TokensMatch(JoinTokens(segments), directory, path[k..]);
        var offset := StopIsOffset(path, k);
        JoinedSpans(segments, directory, path[k..]);
      }
      if offset: nat :| offset < |parts| && Spans(segments, parts[offset..], directory) {
        var k := OffsetIsStop(path, offset);
        JoinedSpans(segments, directory, path[k..]);
      }
    }
  }

  /** Without `**`, spanning is alignment: segment against segment. */
  lemma {:induction false} SpansAligned(pattern: seq<string>, path: seq<string>, directory: bool)
    requires "**" !in pattern
    ensures Spans(pattern, path, directory) <==> Aligned(pattern, path, 0, directory)
    decreases |pattern|
  {
    hide SegmentMatches;
    if pattern != [] && path != [] {
      assert pattern == [pattern[0]] + pattern[1..];
      SpansAligned(pattern[1..], path[1..], directory);
      AlignedStep(pattern, path, directory);
    }
  }

  lemma {:induction false} AlignedStep(segments: seq<string>, path: seq<string>, directory: bool)
    requires segments != [] && path != []
    ensures Aligned(segments, path, 0, directory) <==> SegmentMatches(segments[0], path[0]) && Aligned(segments[1..], path[1..], 0, directory)
  {
    hide SegmentMatches;
    if SegmentMatches(segments[0], path[0]) && Aligned(segments[1..], path[1..], 0, directory) {
      forall i | 0 <= i < |segments| ensures SegmentMatches(segments[i], path[0 + i]) {
        if i > 0 { assert SegmentMatches(segments[1..][i - 1], path[1..][0 + (i - 1)]); }
      }
    }
    if Aligned(segments, path, 0, directory) {
      forall i | 0 <= i < |segments[1..]| ensures SegmentMatches(segments[1..][i], path[1..][0 + i]) {
        assert SegmentMatches(segments[i + 1], path[0 + (i + 1)]);
      }
    }
  }

  lemma {:induction false} AlignedFrom(segments: seq<string>, path: seq<string>, offset: nat, directory: bool)
    requires offset <= |path|
    ensures Aligned(segments, path[offset..], 0, directory) <==> Aligned(segments, path, offset, directory)
  {
    hide SegmentMatches;
    forall i | offset <= i < |path| ensures path[offset..][i - offset] == path[i] {}
  }

  /** With one `**`, what comes before it is aligned with the start of the path and what comes after it with a later place,
      at least one segment between them. */
  lemma {:induction false} SpansBetween(p: seq<string>, q: seq<string>, path: seq<string>, directory: bool)
    requires "**" !in p && "**" !in q
    ensures Spans(p + ["**"] + q, path, directory) <==>
      Aligned(p, path, 0, false) && exists offset: nat :: |p| < offset <= |path| && Aligned(q, path, offset, directory)
    decreases |p|
  {
    hide SegmentMatches;
    var pattern := p + ["**"] + q;
    if p == [] {
      assert pattern[1..] == q;
      forall k: nat | 1 <= k <= |path| ensures Spans(q, path[k..], directory) <==> Aligned(q, path, k, directory) {
        SpansAligned(q, path[k..], directory);
        AlignedFrom(q, path, k, directory);
      }
      SpansMeans(pattern, path, directory);
    } else {
      assert p == [p[0]] + p[1..] && pattern[0] == p[0] && pattern[1..] == p[1..] + ["**"] + q;
      if path != [] {
        SpansBetween(p[1..], q, path[1..], directory);
        AlignedStep(p, path, false);
        forall offset: nat | |p| < offset <= |path| ensures Aligned(q, path[1..], offset - 1, directory) <==> Aligned(q, path, offset, directory) {
          AlignedFrom(q, path, offset, directory);
          AlignedFrom(q, path[1..], offset - 1, directory);
          assert path[1..][offset - 1..] == path[offset..];
        }
        if offset: nat :| |p| < offset <= |path| && Aligned(q, path, offset, directory) {
          assert Aligned(q, path[1..], offset - 1, directory);
        }
        if offset: nat :| |p[1..]| < offset <= |path[1..]| && Aligned(q, path[1..], offset, directory) {
          assert Aligned(q, path, offset + 1, directory);
        }
      }
    }
  }

  // ------------------------------------------------------------------ who owns a path

  function Slashed(path: string): string {
    seq(|path|, i requires 0 <= i < |path| => if path[i] == '\\' then '/' else path[i])
  }

  /** Every backslash, and nothing else, has become a slash. */
  lemma {:induction false} SlashedExactly(path: string, slashed: string)
    ensures slashed == Slashed(path) <==>
      && |slashed| == |path| && '\\' !in slashed
      && forall i :: 0 <= i < |path| ==> slashed[i] == path[i] || (path[i] == '\\' && slashed[i] == '/')
  {
    if |slashed| == |path| && '\\' !in slashed && forall i :: 0 <= i < |path| ==> slashed[i] == path[i] || (path[i] == '\\' && slashed[i] == '/') {
      forall i | 0 <= i < |path| ensures slashed[i] == Slashed(path)[i] { assert slashed[i] in slashed; }
    }
  }

  function LeftStripped(path: string): string {
    if StartsWithSlash(path) then LeftStripped(path[1..]) else path
  }

  function Kept(segments: seq<string>): seq<string> {
    if segments == [] then []
    else (if segments[0] == "" || segments[0] == "." then [] else [segments[0]]) + Kept(segments[1..])
  }

  function JoinSegments(segments: seq<string>): string {
    if segments == [] then "" else if |segments| == 1 then segments[0] else segments[0] + "/" + JoinSegments(segments[1..])
  }

  /** `PurePosixPath(path).as_posix().lstrip("/")`: empty and `.` segments go, and nothing at all is written `.`. */
  function PosixTarget(path: string): string {
    var kept := Kept(Split(path, '/'));
    if kept == [] then (if StartsWithSlash(path) then "" else ".") else JoinSegments(kept)
  }

  /** The last rule that matches. */
  ghost predicate Decides(rules: seq<Rule>, target: string, i: nat) {
    && i < |rules| && Matches(Compiled(rules[i].pattern), target)
    && forall j :: i < j < |rules| ==> !Matches(Compiled(rules[j].pattern), target)
  }

  /** `re.match`, decided by running the tokens. */
  method Matched(e: Expression, text: string) returns (found: bool)
    ensures found <==> Matches(e, text)
  {
    if e.rooted { return TokensMatch(e.tokens, e.directory, text); }
    found := false;
    for k := 0 to |text| + 1
      invariant !found && forall j: nat :: j < k && StopsAt(text, j) ==> !TokensMatch(e.tokens, e.directory, text[j..])
    {
      if StopsAt(text, k) && TokensMatch(e.tokens, e.directory, text[k..]) { return true; }
    }
  }

  ghost predicate Unowned(rules: seq<Rule>, target: string) {
    forall i :: 0 <= i < |rules| ==> !Matches(Compiled(rules[i].pattern), target)
  }

  ghost predicate OwnersAre(rules: seq<Rule>, target: string, owners: seq<string>) {
    if Unowned(rules, target) then owners == [] else exists i: nat :: Decides(rules, target, i) && owners == rules[i].owners
  }

  ghost predicate RuleIs(rules: seq<Rule>, target: string, rule: Option<Rule>) {
    if Unowned(rules, target) then rule == None else exists i: nat :: Decides(rules, target, i) && rule == Some(rules[i])
  }

  /** The reverse scan of both queries. */
  method LastMatch(rules: seq<Rule>, target: string) returns (found: Option<nat>)
    ensures found.Some? ==> Decides(rules, target, found.value)
    ensures found.None? ==> Unowned(rules, target)
  {
    hide Compiled, Matches;
    var i := |rules|;
    while i > 0
      invariant 0 <= i <= |rules| && forall j :: i <= j < |rules| ==> !Matches(Compiled(rules[j].pattern), target)
    {
      i := i - 1;
      var e := ToRegex(rules[i].pattern);
      var matched := Matched(e, target);
      if matched { return Some(i); }
    }
    found := None;
  }

  /** `owners_of`: the owners of the highest-numbered rule that matches, or nobody. */
  method OwnersOf(rules: seq<Rule>, path: string) returns (owners: seq<string>)
    ensures OwnersAre(rules, PosixTarget(Slashed(path)), owners)
  {
    var found := LastMatch(rules, PosixTarget(Slashed(path)));
    owners := if found.Some? then rules[found.value].owners else [];
  }

  /** `rule_for` looks at the path as written. */
  method RuleFor(rules: seq<Rule>, path: string) returns (rule: Option<Rule>)
    ensures RuleIs(rules, LeftStripped(Slashed(path)), rule)
  {
    var found := LastMatch(rules, LeftStripped(Slashed(path)));
    rule := if found.Some? then Some(rules[found.value]) else None;
  }

  /** At most one rule decides. */
  lemma {:induction false} OneDecides(rules: seq<Rule>, target: string, i: nat, j: nat)
    requires Decides(rules, target, i) && Decides(rules, target, j)
    ensures i == j
  {
    hide Compiled, Matches;
  }

  // ------------------------------------------------------------------ where the two queries agree

  predicate Dropped(segment: string) { segment == "" || segment == "." }

  /** After the leading slashes there is no empty segment, so no trailing slash either, and no `.`; a path of slashes
      alone, and `.` alone, are left as they are. */
  predicate Tidy(path: string) {
    var rest := LeftStripped(path);
    if rest == "" then path != ""
    else path == "." || forall i :: 0 <= i < |Split(rest, '/')| ==> !Dropped(Split(rest, '/')[i])
  }

  lemma {:induction false} KeptStripped(path: string)
    ensures Kept(Split(path, '/')) == Kept(Split(LeftStripped(path), '/'))
    ensures !StartsWithSlash(LeftStripped(path))
  {
    if StartsWithSlash(path) {
      KeptStripped(path[1..]);
      assert ([""] + Split(path[1..], '/'))[1..] == Split(path[1..], '/');
    }
  }

  lemma {:induction false} JoinFirst(segment: string, rest: seq<string>)
    requires rest != []
    ensures JoinSegments([segment] + rest) == segment + "/" + JoinSegments(rest)
  {
    assert ([segment] + rest)[1..] == rest;
  }

  lemma {:induction false} JoinSplit(text: string)
    ensures JoinSegments(Split(text, '/')) == text
  {
    if text != "" {
      var rest := Split(text[1..], '/');
      JoinSplit(text[1..]);
      assert text == [text[0]] + text[1..];
      if text[0] == '/' {
        JoinFirst("", rest);
        assert "" + "/" + JoinSegments(rest) == text;
      } else if |rest| == 1 {
        assert [[text[0]] + rest[0]] + rest[1..] == [[text[0]] + rest[0]];
      } else {
        assert rest == [rest[0]] + rest[1..];
        JoinFirst(rest[0], rest[1..]);
        JoinFirst([text[0]] + rest[0], rest[1..]);
      }
    }
  }

  lemma {:induction false} KeptAll(segments: seq<string>)
    ensures Kept(segments) == segments <==> forall i :: 0 <= i < |segments| ==> !Dropped(segments[i])
    ensures |Kept(segments)| <= |segments|
  {
    if segments != [] {
      KeptAll(segments[1..]);
      assert segments == [segments[0]] + segments[1..];
      if !Dropped(segments[0]) {
        assert Kept(segments) == segments ==> Kept(segments[1..]) == segments[1..] by { assert Kept(segments)[1..] == Kept(segments[1..]); }
        assert (forall i :: 0 <= i < |segments| ==> !Dropped(segments[i])) <==> forall i :: 0 <= i < |segments[1..]| ==> !Dropped(segments[1..][i]) by {
          if forall i :: 0 <= i < |segments[1..]| ==> !Dropped(segments[1..][i]) {
            forall i | 0 <= i < |segments| ensures !Dropped(segments[i]) { if i > 0 { assert segments[i] == segments[1..][i - 1]; } }
          }
        }
      }
    }
  }

  /** What is dropped takes its slash with it. */
  lemma {:induction false} KeptShorter(segments: seq<string>)
    ensures Kept(segments) != [] && Kept(segments) != segments ==> |JoinSegments(Kept(segments))| < |JoinSegments(segments)|
    ensures |JoinSegments(Kept(segments))| <= |JoinSegments(segments)|
  {
    if segments != [] {
      var tail := segments[1..];
      KeptShorter(tail);
      assert segments == [segments[0]] + tail;
      if tail != [] { JoinFirst(segments[0], tail); }
      if Dropped(segments[0]) {
        assert Kept(segments) == Kept(tail);
      } else {
        assert Kept(segments) == [segments[0]] + Kept(tail);
        if Kept(tail) != [] { JoinFirst(segments[0], Kept(tail)); }
      }
    }
  }

  /** The two queries look at the same text exactly when the path is tidy. */
  lemma {:induction false} TargetsExactly(path: string)
    ensures PosixTarget(path) == LeftStripped(path) <==> Tidy(path)
  {
    var rest := LeftStripped(path);
    var segments := Split(rest, '/');
    KeptStripped(path);
    JoinSplit(rest);
    KeptAll(segments);
    KeptShorter(segments);
    if rest == "" {
      assert path == "" || StartsWithSlash(path);
      assert Kept([""]) == [];
    } else if Kept(segments) == [] {
      assert segments != [];
      assert !StartsWithSlash(path) ==> path == rest;
    }
    hide Kept, JoinSegments, Split;
  }

  /** Of a tidy path, whatever the rules are, the owners are those of the rule. */
  lemma {:induction false} QueriesAgree(rules: seq<Rule>, path: string, owners: seq<string>, rule: Option<Rule>)
    requires OwnersAre(rules, PosixTarget(Slashed(path)), owners) && RuleIs(rules, LeftStripped(Slashed(path)), rule)
    requires Tidy(Slashed(path))
    ensures owners == if rule.Some? then rule.value.owners else []
  {
    TargetsExactly(Slashed(path));
    var target := LeftStripped(Slashed(path));
    hide Matches, Compiled, PosixTarget, LeftStripped, Tidy;
    if !Unowned(rules, target) {
      var i: nat :| Decides(rules, target, i) && owners == rules[i].owners;
      var j: nat :| Decides(rules, target, j) && rule == Some(rules[j]);
      OneDecides(rules, target, i, j);
    }
  }

  /** On `./a` they do not: the rule `/a` owns it for one and not for the other. */
  lemma {:induction false} QueriesDiffer()
    ensures PosixTarget("./a") == "a" && LeftStripped("./a") == "./a"
    ensures Matches(Compiled("/a"), "a") && !Matches(Compiled("/a"), "./a")
  {
    SplitDotSlash();
    assert Kept(["a"]) == ["a"] && Kept([".", "a"]) == ["a"];
    assert StripSlashes("/a") == "a";
    assert Compiled("/a").tokens == [Literal('a')] by { hide Kept; }
    hide Split, Kept, StripSlashes, JoinTokens;
    OneLetter();
  }

  lemma {:induction false} SplitDotSlash()
    ensures Split("a", '/') == ["a"] && Split("./a", '/') == [".", "a"]
  {
    assert "a"[1..] == "" && "/a"[1..] == "a" && "./a"[1..] == "/a";
    assert Split("", '/') == [""] && ['a'] + "" == "a" && ['.'] + "" == ".";
    assert Split("a", '/') == ["a"];
    assert Split("/a", '/') == ["", "a"];
  }

  lemma {:induction false} OneLetter()
    ensures TokensMatch([Literal('a')], false, "a") && !TokensMatch([Literal('a')], false, "./a")
  {
    assert [Literal('a')][1..] == [] && "a"[1..] == "";
  }
}
