/** Which frames are read and which are refused, whoever wrote them: any header lines in any order, the name in any case, the
    number as Python reads one. */
module FramingExact {
  import opened Model
  import opened Framing

  // ------------------------------------------------------------------ numbers

  predicate IsDigit(b: Byte) { b as int - 48 in {0, 1, 2, 3, 4, 5, 6, 7, 8, 9} }

  /** Digits, with single underscores between some of them. */
  predicate WellFormed(digits: Bytes) {
    && digits != [] && IsDigit(digits[0]) && IsDigit(digits[|digits| - 1])
    && (forall i :: 0 <= i < |digits| ==> IsDigit(digits[i]) || digits[i] == 95)
    && forall i :: 0 < i < |digits| ==> IsDigit(digits[i - 1]) || IsDigit(digits[i])
  }

  /** The number read from the left, underscores passed over. */
  function Value(digits: Bytes, sofar: int): int {
    if digits == [] then sofar
    else if digits[0] == 95 then Value(digits[1..], sofar)
    else Value(digits[1..], 10 * sofar + (digits[0] as int - 48))
  }

  lemma {:induction false} ValueLast(front: Bytes, last: Byte, sofar: int)
    ensures Value(front + [last], sofar) == if last == 95 then Value(front, sofar) else 10 * Value(front, sofar) + (last as int - 48)
    decreases |front|
  {
    if front == [] {
      assert front + [last] == [last] && [last][1..] == [];
      assert Value([last], sofar) == if last == 95 then Value([], sofar) else Value([], 10 * sofar + (last as int - 48));
    } else {
      assert (front + [last])[1..] == front[1..] + [last];
      ValueLast(front[1..], last, if front[0] == 95 then sofar else 10 * sofar + (front[0] as int - 48));
    }
  }

  lemma {:induction false} DigitsExactly(bytes: Bytes)
    ensures ReadDigits(bytes).Some? <==> WellFormed(bytes)
    ensures WellFormed(bytes) ==> ReadDigits(bytes) == Some(Value(bytes, 0)) && Value(bytes, 0) >= 0
    decreases |bytes|
  {
    if bytes != [] {
      var last, front := bytes[|bytes| - 1], bytes[..|bytes| - 1];
      assert bytes == front + [last];
      ValueLast(front, last, 0);
      assert Value([], 0) == 0;
      if front != [] && DigitByte(last) {
        var before := front[..|front| - 1];
        assert front == before + [front[|front| - 1]];
        ValueLast(before, front[|front| - 1], 0);
        DigitsExactly(if front[|front| - 1] == 95 then before else front);
        hide Value, ReadDigits;
        FrontFormed(front, last);
      }
    }
  }

  lemma {:induction false} FrontFormed(front: Bytes, last: Byte)
    requires front != [] && IsDigit(last)
    ensures WellFormed(front + [last]) <==> WellFormed(if front[|front| - 1] == 95 then front[..|front| - 1] else front)
  {
    var bytes, before := front + [last], front[..|front| - 1];
    assert forall i :: 0 <= i < |front| ==> bytes[i] == front[i];
    assert bytes[|front|] == last;
    if front[|front| - 1] == 95 {
      assert forall i :: 0 <= i < |before| ==> bytes[i] == before[i];
      if WellFormed(bytes) && before != [] {
        assert before[|before| - 1] == bytes[|before| - 1] && bytes[|before|] == 95;
      }
      if WellFormed(before) {
        forall i | 0 < i < |bytes| ensures IsDigit(bytes[i - 1]) || IsDigit(bytes[i]) {
          if i < |before| { assert IsDigit(before[i - 1]) || IsDigit(before[i]); }
        }
      }
    } else if WellFormed(bytes) {
      assert bytes[|front| - 1] == front[|front| - 1];
      forall i | 0 < i < |front| ensures IsDigit(front[i - 1]) || IsDigit(front[i]) { assert IsDigit(bytes[i - 1]) || IsDigit(bytes[i]); }
    }
  }

  /** An optional sign before the digits. */
  predicate Spelled(text: Bytes, n: int) {
    text != [] &&
    if text[0] == 45 then WellFormed(text[1..]) && n == -Value(text[1..], 0)
    else if text[0] == 43 then WellFormed(text[1..]) && n == Value(text[1..], 0)
    else WellFormed(text) && n == Value(text, 0)
  }

  predicate SpelledWithin(text: Bytes, i: nat, j: nat, n: int) {
    i <= j <= |text| && Blank(text[..i]) && Blank(text[j..]) && Spelled(text[i..j], n)
  }

  /** The text says the number, with white space around it. */
  ghost predicate Says(text: Bytes, n: int) { exists i: nat, j: nat :: SpelledWithin(text, i, j, n) }

  lemma {:induction false} LeftStripped(text: Bytes) returns (i: nat)
    ensures i <= |text| && Blank(text[..i]) && StripLeft(text) == text[i..]
  {
    i := 0;
    if text != [] && Space(text[0]) {
      var k := LeftStripped(text[1..]);
      i := k + 1;
      assert text[..i] == [text[0]] + text[1..][..k] && text[i..] == text[1..][k..];
    }
  }

  lemma {:induction false} RightStripped(text: Bytes) returns (j: nat)
    ensures j <= |text| && Blank(text[j..]) && StripRight(text) == text[..j]
  {
    j := |text|;
    if text != [] && Space(text[|text| - 1]) {
      var front := text[..|text| - 1];
      j := RightStripped(front);
      assert text[j..] == front[j..] + [text[|text| - 1]] && text[..j] == front[..j];
    }
  }

  lemma {:induction false} StripsLeft(text: Bytes, i: nat)
    requires i < |text| && Blank(text[..i]) && !Space(text[i])
    ensures StripLeft(text) == text[i..]
    decreases i
  {
    if i > 0 {
      assert Space(text[..i][0]) && text[..i][1..] == text[1..][..i - 1] && text[1..][i - 1..] == text[i..];
      var shorter := text[1..][..i - 1];
      forall k | 0 <= k < |shorter| ensures Space(shorter[k]) { assert Space(text[..i][k + 1]); }
      StripsLeft(text[1..], i - 1);
    }
  }

  lemma {:induction false} StripsRight(text: Bytes, j: nat)
    requires 0 < j <= |text| && Blank(text[j..]) && !Space(text[j - 1])
    ensures StripRight(text) == text[..j]
    decreases |text|
  {
    if j < |text| {
      var front := text[..|text| - 1];
      assert Space(text[j..][|text| - 1 - j]);
      forall k | 0 <= k < |front| - j ensures Space(front[j..][k]) { assert front[j..][k] == text[j..][k]; }
      StripsRight(front, j);
      assert front[..j] == text[..j];
    }
  }

  lemma {:induction false} SpelledEnds(text: Bytes, n: int)
    requires Spelled(text, n)
    ensures text != [] && !Space(text[0]) && !Space(text[|text| - 1])
  {
    hide Value;
    if text[0] == 45 || text[0] == 43 { assert text[|text| - 1] == text[1..][|text| - 2]; }
  }

  lemma {:induction false} StripSplits(text: Bytes) returns (i: nat, j: nat)
    ensures i <= j <= |text| && Blank(text[..i]) && Blank(text[j..]) && Strip(text) == text[i..j]
  {
    i := LeftStripped(text);
    var k := RightStripped(text[i..]);
    j := i + k;
    assert text[i..][..k] == text[i..j] && text[i..][k..] == text[j..];
    hide StripLeft, StripRight, Blank;
  }

  lemma {:induction false} SplitStrips(text: Bytes, i: nat, j: nat)
    requires i < j <= |text| && Blank(text[..i]) && Blank(text[j..]) && !Space(text[i]) && !Space(text[j - 1])
    ensures Strip(text) == text[i..j]
  {
    hide StripLeft, StripRight, Space, Blank;
    StripsLeft(text, i);
    var rest := text[i..];
    assert rest[j - i..] == text[j..] && rest[..j - i] == text[i..j] && rest[j - i - 1] == text[j - 1];
    StripsRight(rest, j - i);
  }

  lemma {:induction false} StrippedExactly(text: Bytes, n: int)
    ensures Says(text, n) <==> Spelled(Strip(text), n)
  {
    hide Spelled, Strip, Blank, Space;
    if Spelled(Strip(text), n) {
      var i, j := StripSplits(text);
      assert SpelledWithin(text, i, j, n);
    }
    if i: nat, j: nat :| SpelledWithin(text, i, j, n) {
      SpelledEnds(text[i..j], n);
      SplitStrips(text, i, j);
    }
  }

  /** `int(bytes)`: which texts say which number. */
  lemma {:induction false} IntExactly(text: Bytes, n: int)
    ensures ReadInt(text) == Some(n) <==> Says(text, n)
  {
    StrippedExactly(text, n);
    var stripped := Strip(text);
    DigitsExactly(stripped);
    if stripped != [] { DigitsExactly(stripped[1..]); }
    hide Strip, ReadDigits, WellFormed, Value, Says;
  }

  // ------------------------------------------------------------------ header lines

  /** The line starts with `content-length:`, each letter small or capital. */
  predicate NamesLength(line: Bytes): (r: bool)
    ensures r ==> |line| >= 15
  {
    var name := "content-length:";
    |line| >= 15 && forall i :: 0 <= i < 15 ==>
      line[i] as int == name[i] as int || ('a' <= name[i] <= 'z' && line[i] as int == name[i] as int - 32)
  }

  lemma {:induction false} NameExactly(line: Bytes)
    ensures IsLengthLine(line) <==> NamesLength(line)
  {
    assert NAME == "content-length:" && |NAME| == 15;
    if |line| >= 15 {
      forall i | 0 <= i < 15
        ensures Lower(line[i]) == Encoded(NAME)[i] <==>
          line[i] as int == NAME[i] as int || ('a' <= NAME[i] <= 'z' && line[i] as int == NAME[i] as int - 32)
      {
        assert Encoded(NAME)[i] as int == NAME[i] as int;
        assert 'a' <= NAME[i] <= 'z' || NAME[i] == '-' || NAME[i] == ':';
      }
    }
  }

  ghost predicate Readable(line: Bytes)
    requires |line| >= 15
  {
    exists n :: Says(line[15..], n)
  }

  /** What the lines say: no length, one that is no number, or the length the last of them says. */
  ghost predicate LinesSay(lines: seq<Bytes>, length: Length) {
    match length
    case NoLength => forall i :: 0 <= i < |lines| ==> !NamesLength(lines[i])
    case Unreadable => exists i :: 0 <= i < |lines| && NamesLength(lines[i]) && !Readable(lines[i])
    case Stated(n) =>
      && (forall i :: 0 <= i < |lines| && NamesLength(lines[i]) ==> Readable(lines[i]))
      && exists i :: 0 <= i < |lines| && NamesLength(lines[i]) && Says(lines[i][15..], n) && forall j :: i < j < |lines| ==> !NamesLength(lines[j])
  }

  lemma {:induction false} OneLine(line: Bytes)
    requires NamesLength(line)
    ensures IsLengthLine(line) && |NAME| == 15 && (Readable(line) <==> ReadInt(line[15..]).Some?)
    ensures forall n :: ReadInt(line[15..]) == Some(n) <==> Says(line[15..], n)
  {
    NameExactly(line);
    hide ReadInt, Says;
    forall n ensures ReadInt(line[15..]) == Some(n) <==> Says(line[15..], n) { IntExactly(line[15..], n); }
    if ReadInt(line[15..]).Some? { assert Says(line[15..], ReadInt(line[15..]).value); }
  }

  /** Later lines decide where there are any. */
  lemma {:induction false} LengthFrom(lines: seq<Bytes>, found: Length)
    requires !found.Unreadable?
    ensures LinesSay(lines, NoLength) ==> FindLength(lines, found) == found
    ensures !LinesSay(lines, NoLength) ==> LinesSay(lines, FindLength(lines, found)) && !FindLength(lines, found).NoLength?
    decreases |lines|
  {
    hide ReadInt, Says, IsLengthLine, NamesLength, Readable;
    if lines != [] {
      var head, rest := lines[0], lines[1..];
      NameExactly(head);
      assert forall i :: 0 <= i < |rest| ==> rest[i] == lines[i + 1];
      assert forall i :: 0 < i < |lines| ==> lines[i] == rest[i - 1];
      if NamesLength(head) {
        OneLine(head);
        if ReadInt(head[15..]).Some? {
          LengthFrom(rest, Stated(ReadInt(head[15..]).value));
          RestSays(lines, FindLength(lines, found));
        }
      } else {
        LengthFrom(rest, found);
        RestSays(lines, FindLength(lines, found));
      }
    }
  }

  lemma {:induction false} RestSays(lines: seq<Bytes>, length: Length)
    requires lines != [] && (NamesLength(lines[0]) ==> Readable(lines[0]))
    ensures LinesSay(lines[1..], length) && !length.NoLength? ==> LinesSay(lines, length)
    ensures LinesSay(lines[1..], NoLength) && NamesLength(lines[0]) && length.Stated? && Says(lines[0][15..], length.n) ==> LinesSay(lines, length)
    ensures LinesSay(lines, NoLength) <==> LinesSay(lines[1..], NoLength) && !NamesLength(lines[0])
  {
    hide NamesLength, Says, Readable;
    var rest := lines[1..];
    assert forall i :: 0 <= i < |rest| ==> rest[i] == lines[i + 1];
    assert forall i :: 0 < i < |lines| ==> lines[i] == rest[i - 1];
  }

  lemma {:induction false} SaysOnce(text: Bytes, m: int, n: int)
    requires Says(text, m) && Says(text, n)
    ensures m == n
  {
    IntExactly(text, m);
    IntExactly(text, n);
  }

  lemma {:induction false} LengthExactly(lines: seq<Bytes>, length: Length)
    ensures FindLength(lines, NoLength) == length <==> LinesSay(lines, length)
  {
    LengthFrom(lines, NoLength);
    hide FindLength, NamesLength, Says, Readable;
    if LinesSay(lines, length) && FindLength(lines, NoLength) != length { SaysOneLength(lines, length, FindLength(lines, NoLength)); }
  }

  lemma {:induction false} SaysOneLength(lines: seq<Bytes>, a: Length, b: Length)
    requires LinesSay(lines, a) && LinesSay(lines, b)
    ensures a == b
  {
    hide NamesLength, Says, Readable;
    if a.Stated? && b.Stated? {
      var i :| 0 <= i < |lines| && NamesLength(lines[i]) && Says(lines[i][15..], a.n) && forall j :: i < j < |lines| ==> !NamesLength(lines[j]);
      var k :| 0 <= k < |lines| && NamesLength(lines[k]) && Says(lines[k][15..], b.n) && forall j :: k < j < |lines| ==> !NamesLength(lines[j]);
      assert i == k;
      SaysOnce(lines[i][15..], a.n, b.n);
    }
  }

  // ------------------------------------------------------------------ headers

  /** A line of its own: not empty, and without a carriage return. */
  predicate Plain(line: Bytes) { line != [] && CR !in line }

  predicate AllPlain(lines: seq<Bytes>) { forall i :: 0 <= i < |lines| ==> Plain(lines[i]) }

  /** The lines, each with its line break, and a blank line. */
  function Joined(lines: seq<Bytes>): Bytes {
    if lines == [] then [CR, LF] else lines[0] + [CR, LF] + Joined(lines[1..])
  }

  lemma {:induction false} LineSplit(line: Bytes, rest: Bytes)
    requires CR !in line
    ensures Lines(line + [CR, LF] + rest) == [line] + Lines(rest)
    decreases |line|
  {
    var bytes := line + [CR, LF] + rest;
    if line == [] {
      assert bytes[2..] == rest;
    } else {
      assert bytes[0] == line[0] && bytes[0] in line;
      assert bytes[1..] == line[1..] + [CR, LF] + rest;
      LineSplit(line[1..], rest);
      assert line == [line[0]] + line[1..];
    }
  }

  lemma {:induction false} LinesJoined(lines: seq<Bytes>)
    requires AllPlain(lines)
    ensures Lines(Joined(lines)) == lines + [[], []]
  {
    hide Lines;
    if lines == [] {
      LineSplit([], []);
      assert [] + [CR, LF] + [] == [CR, LF];
      NoBytes();
    } else {
      LinesJoined(lines[1..]);
      LineSplit(lines[0], Joined(lines[1..]));
      assert lines == [lines[0]] + lines[1..];
    }
  }

  lemma {:induction false} NoBytes()
    ensures Lines([]) == [[]]
  {
  }

  /** The blank line is the first place where the header ends. */
  lemma {:induction false} EndsAt(lines: seq<Bytes>, tail: Bytes, k: nat)
    requires AllPlain(lines) && k <= |Joined(lines)| && (lines == [] ==> k == 0)
    ensures HeaderAt(Joined(lines) + tail, k) <==> lines != [] && k == |Joined(lines)|
    decreases |lines|
  {
    if lines != [] {
      var line, rest := lines[0], Joined(lines[1..]);
      var input := Joined(lines) + tail;
      var used := |line| + 2;
      assert input == line + ([CR, LF] + (rest + tail));
      assert input[|line|] == CR && input[|line| + 1] == LF && input[used..] == rest + tail;
      assert forall i :: 0 <= i < |line| ==> input[i] in line;
      HeadOfRest(lines);
      assert input[used] == rest[0];
      FourBytes(input, k);
      if k >= used + 4 {
        if |lines| > 1 { EndsAt(lines[1..], tail, k - used); }
        FourBytes(rest + tail, k - used);
        assert input[k - 4] == (rest + tail)[k - used - 4] && input[k - 3] == (rest + tail)[k - used - 3];
        assert input[k - 2] == (rest + tail)[k - used - 2] && input[k - 1] == (rest + tail)[k - used - 1];
      }
    }
  }

  lemma {:induction false} HeadOfRest(lines: seq<Bytes>)
    requires AllPlain(lines) && lines != []
    ensures |Joined(lines[1..])| >= 2 && (Joined(lines[1..])[0] == CR <==> |lines| == 1) && (|lines| == 1 ==> Joined(lines[1..]) == [CR, LF])
    ensures |lines| > 1 ==> |Joined(lines[1..])| > 4
  {
    if |lines| > 1 {
      assert Plain(lines[1]);
      assert Joined(lines[1..])[0] == lines[1][0] && lines[1][0] in lines[1];
      assert |Joined(lines[1..][1..])| >= 2;
    }
  }

  lemma {:induction false} FourBytes(input: Bytes, k: nat)
    requires k <= |input|
    ensures HeaderAt(input, k) <==> k >= 4 && input[k - 4] == CR && input[k - 3] == LF && input[k - 2] == CR && input[k - 1] == LF
  {
    if k >= 4 {
      var last := input[..k][k - 4..];
      assert last == [input[k - 4], input[k - 3], input[k - 2], input[k - 1]];
    }
  }

  lemma {:induction false} EndFound(lines: seq<Bytes>, tail: Bytes)
    requires AllPlain(lines) && lines != []
    ensures HeaderEnd(Joined(lines) + tail, 0) == Some(|Joined(lines)|)
  {
    hide HeaderAt, HeaderEnd, Joined;
    forall k: nat | k <= |Joined(lines)| ensures HeaderAt(Joined(lines) + tail, k) <==> k == |Joined(lines)| { EndsAt(lines, tail, k); }
    HeaderEndMeans(Joined(lines) + tail, 0, |Joined(lines)|);
  }

  lemma {:induction false} BlanksSayNothing(lines: seq<Bytes>, length: Length)
    ensures LinesSay(lines + [[], []], length) <==> LinesSay(lines, length)
  {
    hide Says, Readable;
    var longer := lines + [[], []];
    assert forall i :: 0 <= i < |lines| ==> longer[i] == lines[i];
    assert longer[|lines|] == [] && longer[|lines| + 1] == [];
    if length.Stated? && LinesSay(longer, length) {
      var i :| 0 <= i < |longer| && NamesLength(longer[i]) && Says(longer[i][15..], length.n) && forall j :: i < j < |longer| ==> !NamesLength(longer[j]);
      assert i < |lines|;
    }
  }

  /** A header of any lines and whatever follows it: refused if no line states a length or one states what is no number, and
      otherwise as many bytes are the message as the last length says, none if it is negative. */
  lemma {:induction false} FramesExactly<M>(codec: Codec<M>, lines: seq<Bytes>, tail: Bytes)
    requires AllPlain(lines) && lines != []
    ensures LinesSay(lines, NoLength) || LinesSay(lines, Unreadable) ==> ReadOne(codec, Joined(lines) + tail) == (Broken, |Joined(lines)|)
    ensures forall n :: LinesSay(lines, Stated(n)) ==>
      var m, h := if n > 0 then n else 0, |Joined(lines)|;
      ReadOne(codec, Joined(lines) + tail) ==
        if |tail| < m then (Broken, h + |tail|)
        else if codec.decode(tail[..m]).None? then (Broken, h + m) else (Message(codec.decode(tail[..m]).value), h + m)
  {
    hide HeaderEnd, Lines, FindLength, LinesSay, Joined;
    var header := Joined(lines);
    var input := header + tail;
    EndFound(lines, tail);
    LinesJoined(lines);
    assert input[..|header|] == header && input[|header|..] == tail;
    var length := FindLength(Lines(header), NoLength);
    forall l ensures LinesSay(lines, l) <==> length == l {
      LengthExactly(Lines(header), l);
      BlanksSayNothing(lines, l);
    }
    if length.Stated? {
      var m := if length.n > 0 then length.n else 0;
      if m <= |tail| { assert input[|header|..|header| + m] == tail[..m]; }
    }
  }

  predicate BlankLineAt(input: Bytes, k: int) { 0 <= k <= |input| - 4 && input[k..k + 4] == [13, 10, 13, 10] }

  /** Without a blank line there is no message: the stream has ended if all of it is white space, and is broken otherwise. */
  lemma {:induction false} NoHeader<M>(codec: Codec<M>, input: Bytes)
    requires forall k :: !BlankLineAt(input, k)
    ensures ReadOne(codec, input) == (if forall i :: 0 <= i < |input| ==> input[i] in {9, 10, 11, 12, 13, 32} then End else Broken, |input|)
  {
    forall k | 0 <= k <= |input| ensures !HeaderAt(input, k) {
      if k >= 4 {
        FourBytes(input, k);
        assert !BlankLineAt(input, k - 4);
        assert input[k - 4..k] == [input[k - 4], input[k - 3], input[k - 2], input[k - 1]];
      }
    }
    HeaderEndMeans(input, 0, |input|);
    hide HeaderAt, HeaderEnd;
  }
}
