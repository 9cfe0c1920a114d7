/** The wire format of the language server: one frame is a header ending in a blank line, then as many bytes as its
    `Content-Length` says. (Header Part of the Base Protocol, Language Server Protocol 3.17.) */
module Framing {
  import opened Model
  import opened Text

  newtype Byte = b: int | 0 <= b < 256

  type Bytes = seq<Byte>

  const CR: Byte := 13
  const LF: Byte := 10
  const SEPARATOR: Bytes := [CR, LF, CR, LF]

  /** How a message object is written as bytes, and read back; `None` is what is not a JSON object. */
  datatype Codec<!M> = Codec(encode: M -> Bytes, decode: Bytes -> Option<M>)

  ghost predicate Faithful<M(!new)>(codec: Codec<M>) {
    forall m :: codec.decode(codec.encode(m)) == Some(m)
  }

  predicate Ascii(text: string) { forall i :: 0 <= i < |text| ==> text[i] < 128 as char }

  function Encoded(text: string): (bytes: Bytes)
    requires Ascii(text)
    ensures |bytes| == |text|
  {
    seq(|text|, i requires 0 <= i < |text| => text[i] as int as Byte)
  }

  // ------------------------------------------------------------------ the header

  predicate Space(b: Byte) { b == 32 || 9 <= b <= 13 }

  predicate Blank(bytes: Bytes) { forall i :: 0 <= i < |bytes| ==> Space(bytes[i]) }

  function StripLeft(bytes: Bytes): Bytes {
    if bytes != [] && Space(bytes[0]) then StripLeft(bytes[1..]) else bytes
  }

  function StripRight(bytes: Bytes): Bytes {
    if bytes != [] && Space(bytes[|bytes| - 1]) then StripRight(bytes[..|bytes| - 1]) else bytes
  }

  function Strip(bytes: Bytes): Bytes { StripRight(StripLeft(bytes)) }

  predicate DigitByte(b: Byte) { 48 <= b <= 57 }

  /** Digits, with single underscores allowed between them. */
  function ReadDigits(bytes: Bytes): Option<nat> {
    if bytes == [] then None
    else
      var last, front := bytes[|bytes| - 1], bytes[..|bytes| - 1];
      if !DigitByte(last) then None
      else if front == [] then Some((last - 48) as nat)
      else
        match ReadDigits(if front[|front| - 1] == 95 then front[..|front| - 1] else front)
        case None => None
        case Some(n) => Some(10 * n + (last - 48) as nat)
  }

  /** Python's `int(bytes)`. */
  function ReadInt(bytes: Bytes): Option<int> {
    var text := Strip(bytes);
    var negative := text != [] && text[0] == 45;
    var digits := ReadDigits(if negative || (text != [] && text[0] == 43) then text[1..] else text);
    if digits.None? then None else if negative then Some(0 - digits.value) else Some(digits.value)
  }

  function Lower(b: Byte): Byte { if 65 <= b <= 90 then b + 32 else b }

  const NAME := "content-length:"

  predicate IsLengthLine(line: Bytes) {
    |line| >= |NAME| && forall i :: 0 <= i < |NAME| ==> Lower(line[i]) == Encoded(NAME)[i]
  }

  /** `header.split(b"\r\n")`. */
  function Lines(bytes: Bytes): (lines: seq<Bytes>)
    ensures lines != []
  {
    if bytes == [] then [[]]
    else if |bytes| >= 2 && bytes[0] == CR && bytes[1] == LF then [[]] + Lines(bytes[2..])
    else
      var rest := Lines(bytes[1..]);
      [[bytes[0]] + rest[0]] + rest[1..]
  }

  datatype Length = NoLength | Unreadable | Stated(n: int)

  /** The last stated length counts; one that cannot be read is an error wherever it stands. */
  function FindLength(lines: seq<Bytes>, found: Length): Length {
    if lines == [] then found
    else if IsLengthLine(lines[0]) then
      match ReadInt(lines[0][|NAME|..])
      case None => Unreadable
      case Some(n) => FindLength(lines[1..], Stated(n))
    else FindLength(lines[1..], found)
  }

  // ------------------------------------------------------------------ one message

  datatype Reading<+M> = Message(message: M) | End | Broken

  predicate EndsHeader(bytes: Bytes) {
    |bytes| >= 4 && bytes[|bytes| - 4..] == SEPARATOR
  }

  predicate HeaderAt(input: Bytes, k: int) { 0 <= k <= |input| && EndsHeader(input[..k]) }

  /** Where the header ends, looking one byte further at a time. */
  function HeaderEnd(input: Bytes, i: nat): (h: Option<nat>)
    requires i <= |input|
    ensures h.Some? ==> h.value <= |input|
    decreases |input| - i
  {
    if HeaderAt(input, i) then Some(i) else if i == |input| then None else HeaderEnd(input, i + 1)
  }

  lemma {:induction false} HeaderEndMeans(input: Bytes, i: nat, h: nat)
    requires i <= h <= |input| && forall k :: i <= k < h ==> !HeaderAt(input, k)
    requires HeaderAt(input, h) || h == |input|
    ensures HeaderEnd(input, i) == if HeaderAt(input, h) then Some(h) else None
    decreases h - i
  {
    hide HeaderAt;
    if i < h { HeaderEndMeans(input, i + 1, h); }
  }

  lemma {:induction false} HeaderNotEmpty(input: Bytes, i: nat)
    requires i <= |input|
    ensures HeaderEnd(input, i).Some? ==> HeaderEnd(input, i).value > 0
    decreases |input| - i
  {
    if !HeaderAt(input, i) && i < |input| { HeaderNotEmpty(input, i + 1); }
  }

  /** What `read_message` returns and how many bytes it takes. */
  function ReadOne<M>(codec: Codec<M>, input: Bytes): (r: (Reading<M>, nat))
    ensures r.1 <= |input|
    ensures r.0.Message? ==> r.1 > 0
  {
    HeaderNotEmpty(input, 0);
    match HeaderEnd(input, 0)
    case None => (if Blank(input) then End else Broken, |input|)
    case Some(h) =>
      match FindLength(Lines(input[..h]), NoLength)
      case NoLength => (Broken, h)
      case Unreadable => (Broken, h)
      case Stated(stated) =>
        var n := if stated < 0 then 0 else stated;
        if |input| - h < n then (Broken, |input|)
        else
          match codec.decode(input[h..h + n])
          case None => (Broken, h + n)
          case Some(m) => (Message(m), h + n)
  }

  /** The messages read until the stream ends or breaks, and which of the two it was. */
  function ReadAll<M>(codec: Codec<M>, input: Bytes): (r: (seq<M>, Reading<M>))
    ensures !r.1.Message?
    decreases |input|
  {
    var (first, used) := ReadOne(codec, input);
    if first.Message? then
      var (rest, end) := ReadAll(codec, input[used..]);
      ([first.message] + rest, end)
    else ([], first)
  }

  // ------------------------------------------------------------------ the streams

  /** A byte stream that hands out data in pieces of its own choosing. */
  class Reader {
    var data: Bytes

    constructor (data: Bytes)
      ensures this.data == data
    {
      this.data := data;
    }

    /** At most `n` bytes, and none only at the end of the stream. */
    method Read(n: nat) returns (chunk: Bytes)
      modifies this
      ensures |chunk| <= n && old(data) == chunk + data
      ensures n > 0 && chunk == [] ==> data == []
    {
      var limit := if n <= |data| then n else |data|;
      var k: nat :| k <= limit && (limit > 0 ==> k > 0);
      chunk := data[..k];
      data := data[k..];
    }
  }

  class Writer {
    var data: Bytes

    constructor ()
      ensures data == []
    {
      data := [];
    }

    method Write(bytes: Bytes)
      modifies this
      ensures data == old(data) + bytes
    {
      data := data + bytes;
    }
  }

  /** One byte at a time, until the header ends or the stream does. */
  method ReadHeader(stream: Reader) returns (header: Bytes, complete: bool)
    modifies stream
    ensures
      var input := old(stream.data);
      match HeaderEnd(input, 0)
      case None => !complete && header == input && stream.data == []
      case Some(h) => complete && header == input[..h] && stream.data == input[h..]
  {
    ghost var input := stream.data;
    header := [];
    while !EndsHeader(header)
      invariant input == header + stream.data
      invariant forall k :: 0 <= k < |header| ==> !HeaderAt(input, k)
      decreases |stream.data|
    {
      assert input[..|header|] == header;
      assert !HeaderAt(input, |header|);
      var byte := stream.Read(1);
      if byte == [] {
        HeaderEndMeans(input, 0, |input|);
        return header, false;
      }
      assert header + (byte + stream.data) == (header + byte) + stream.data;
      header := header + byte;
    }
    assert input[..|header|] == header && input[|header|..] == stream.data;
    HeaderEndMeans(input, 0, |header|);
    complete := true;
  }

  /** As many reads as it takes to have `n` bytes, or to find the stream at its end. */
  method ReadBody(stream: Reader, n: nat) returns (body: Option<Bytes>)
    modifies stream
    ensures
      var input := old(stream.data);
      if |input| < n then body == None && stream.data == [] else body == Some(input[..n]) && stream.data == input[n..]
  {
    ghost var input := stream.data;
    var read: Bytes := [];
    while |read| < n
      invariant input == read + stream.data && |read| <= n
      decreases n - |read|
    {
      var chunk := stream.Read(n - |read|);
      if chunk == [] { return None; }
      assert read + (chunk + stream.data) == (read + chunk) + stream.data;
      read := read + chunk;
    }
    body := Some(read);
  }

  /** The next message, whatever the pieces are in which the stream gives its bytes. */
  method ReadMessage<M>(codec: Codec<M>, stream: Reader) returns (r: Reading<M>)
    modifies stream
    ensures r == ReadOne(codec, old(stream.data)).0
    ensures stream.data == old(stream.data)[ReadOne(codec, old(stream.data)).1..]
  {
    ghost var input := stream.data;
    var header, complete := ReadHeader(stream);
    if !complete {
      assert input[|input|..] == [];
      return if Blank(header) then End else Broken;
    }
    ghost var h := |header|;
    assert input[..h] == header;
    var length := FindLength(Lines(header), NoLength);
    assert input[h..] == stream.data;
    if !length.Stated? { return Broken; }
    var n := if length.n < 0 then 0 else length.n;
    var body := ReadBody(stream, n);
    if body.None? { return Broken; }
    assert input[h..][..n] == input[h..h + n] && input[h..][n..] == input[h + n..];
    var decoded := codec.decode(body.value);
    r := if decoded.Some? then Message(decoded.value) else Broken;
    hide Lines, FindLength, HeaderEnd;
  }

  // ------------------------------------------------------------------ writing

  const HEADER := "Content-Length: "

  function Frame(body: Bytes): Bytes {
    Header(|body|) + body
  }

  function Header(n: nat): Bytes {
    Encoded(HEADER) + Digits(n) + SEPARATOR
  }

  function Digits(n: nat): (bytes: Bytes)
    ensures |bytes| == |Decimal(n)| > 0
  {
    DecimalAscii(n);
    Encoded(Decimal(n))
  }

  lemma {:induction false} DecimalAscii(n: nat)
    ensures Ascii(Decimal(n)) && Decimal(n) != ""
  {
    DecimalRoundTrip(n);
  }

  method WriteMessage<M>(codec: Codec<M>, stream: Writer, message: M)
    modifies stream
    ensures stream.data == old(stream.data) + Frame(codec.encode(message))
  {
    var body := codec.encode(message);
    stream.Write(Encoded(HEADER) + Digits(|body|) + SEPARATOR + body);
  }

  /** The bytes of a list of messages. */
  function Frames<M>(codec: Codec<M>, messages: seq<M>): Bytes {
    if messages == [] then [] else Frame(codec.encode(messages[0])) + Frames(codec, messages[1..])
  }

  // ------------------------------------------------------------------ a written header is read back

  predicate NoBreaks(bytes: Bytes) { forall i :: 0 <= i < |bytes| ==> bytes[i] != CR && bytes[i] != LF }

  lemma {:induction false} DigitsAreDigits(n: nat)
    ensures forall i :: 0 <= i < |Digits(n)| ==> DigitByte(Digits(n)[i])
  {
    DecimalRoundTrip(n);
    forall i | 0 <= i < |Digits(n)| ensures DigitByte(Digits(n)[i]) { assert Digit(Decimal(n)[i]); }
  }

  /** The line of a header. */
  function LengthLine(n: nat): Bytes { Encoded(HEADER) + Digits(n) }

  lemma {:induction false} HeaderTextShape()
    ensures |HEADER| == 16 && |NAME| == 15 && NoBreaks(Encoded(HEADER)) && !Space(Encoded(HEADER)[0]) && Encoded(HEADER)[15] == 32
    ensures IsLengthLine(Encoded(HEADER))
  {
  }

  lemma {:induction false} LengthLineShape(n: nat)
    ensures Header(n) == LengthLine(n) + SEPARATOR && NoBreaks(LengthLine(n)) && LengthLine(n) != []
    ensures IsLengthLine(LengthLine(n)) && LengthLine(n)[|NAME|..] == [32] + Digits(n)
    ensures !Space(LengthLine(n)[0])
  {
    HeaderTextShape();
    DigitsAreDigits(n);
    var text, digits := Encoded(HEADER), Digits(n);
    LineShape(text, digits);
    hide Encoded, Digits;
  }

  lemma {:induction false} LineShape(text: Bytes, digits: Bytes)
    requires |text| == 16 && |NAME| == 15 && NoBreaks(text) && IsLengthLine(text) && text[15] == 32
    requires forall i :: 0 <= i < |digits| ==> DigitByte(digits[i])
    ensures NoBreaks(text + digits) && IsLengthLine(text + digits) && (text + digits)[|NAME|..] == [32] + digits
  {
    hide Encoded;
    assert forall i :: 0 <= i < 15 ==> (text + digits)[i] == text[i];
  }

  lemma {:induction false} LinesOfLine(line: Bytes)
    requires NoBreaks(line)
    ensures Lines(line + SEPARATOR) == [line, [], []]
  {
    if line == [] {
      assert line + SEPARATOR == SEPARATOR && SEPARATOR[2..] == [CR, LF] && [CR, LF][2..] == [];
      assert Lines([]) == [[]];
      assert Lines([CR, LF]) == [[], []];
    } else {
      LinesOfLine(line[1..]);
      assert (line + SEPARATOR)[1..] == line[1..] + SEPARATOR;
      assert line == [line[0]] + line[1..];
    }
  }

  lemma {:induction false} DigitsReadBack(n: nat)
    ensures ReadDigits(Digits(n)) == Some(n)
  {
    var bytes := Digits(n);
    DigitsAreDigits(n);
    if n >= 10 {
      DigitsReadBack(n / 10);
      DigitsAreDigits(n / 10);
      assert bytes[..|bytes| - 1] == Digits(n / 10);
      assert DigitByte(Digits(n / 10)[|Digits(n / 10)| - 1]);
    }
  }

  lemma {:induction false} StripsToDigits(digits: Bytes)
    requires digits != [] && forall i :: 0 <= i < |digits| ==> DigitByte(digits[i])
    ensures Strip([32] + digits) == digits
  {
    assert ([32] + digits)[1..] == digits;
    assert DigitByte(digits[0]) && DigitByte(digits[|digits| - 1]);
    assert StripLeft(digits) == digits;
    assert StripLeft([32] + digits) == digits;
    assert StripRight(digits) == digits;
  }

  lemma {:induction false} LengthReadBack(n: nat)
    ensures ReadInt([32] + Digits(n)) == Some(n)
  {
    DigitsReadBack(n);
    DigitsAreDigits(n);
    StripsToDigits(Digits(n));
    assert DigitByte(Digits(n)[0]);
    hide Digits, Strip, ReadDigits;
  }

  lemma {:induction false} HeaderLengthReadBack(n: nat)
    ensures FindLength(Lines(Header(n)), NoLength) == Stated(n)
  {
    LengthLineShape(n);
    LinesOfLine(LengthLine(n));
    LengthReadBack(n);
    hide LengthLine, IsLengthLine, ReadInt, Lines, Header, Digits;
    BlankLines(n);
    var blank: seq<Bytes> := [[], []];
    assert [LengthLine(n), [], []][1..] == blank;
  }

  lemma {:induction false} BlankLines(n: nat)
    ensures FindLength([[], []], Stated(n)) == Stated(n)
  {
    var blank: seq<Bytes> := [[], []];
    assert blank[1..] == [[]] && blank[1..][1..] == [];
    assert FindLength([], Stated(n)) == Stated(n);
    assert FindLength(blank[1..], Stated(n)) == Stated(n);
  }

  /** Nothing inside a header looks like its end. */
  lemma {:induction false} NoEarlyEnd(line: Bytes, rest: Bytes, k: nat)
    requires NoBreaks(line) && k < |line| + 4
    ensures !HeaderAt(line + SEPARATOR + rest, k)
  {
    var input := line + SEPARATOR + rest;
    if k >= 4 {
      var tail := input[..k][k - 4..];
      if k - 4 < |line| {
        assert tail[0] == line[k - 4];
      }
    }
  }

  lemma {:induction false} HeaderFound(n: nat, rest: Bytes)
    ensures HeaderEnd(Header(n) + rest, 0) == Some(|Header(n)|)
  {
    LengthLineShape(n);
    var line := LengthLine(n);
    var input := Header(n) + rest;
    assert input == line + SEPARATOR + rest;
    forall k | 0 <= k < |Header(n)| ensures !HeaderAt(input, k) { NoEarlyEnd(line, rest, k); }
    assert input[..|Header(n)|] == Header(n);
    assert Header(n)[|line|..] == SEPARATOR;
    HeaderEndMeans(input, 0, |Header(n)|);
  }

  // ------------------------------------------------------------------ round trip and truncation

  lemma {:induction false} FrameReadBack<M(!new)>(codec: Codec<M>, m: M, rest: Bytes)
    requires Faithful(codec)
    ensures ReadOne(codec, Frame(codec.encode(m)) + rest) == (Message(m), |Frame(codec.encode(m))|)
  {
    var body := codec.encode(m);
    var h := |Header(|body|)|;
    var input := Frame(body) + rest;
    assert input == Header(|body|) + (body + rest);
    HeaderFound(|body|, body + rest);
    HeaderLengthReadBack(|body|);
    assert input[..h] == Header(|body|) && input[h..h + |body|] == body;
    hide Header, HeaderEnd, Lines, FindLength;
  }

  /** A frame cut short, even by one byte, is never a message. */
  lemma {:induction false} CutFrameBreaks<M>(codec: Codec<M>, body: Bytes, k: nat)
    requires 0 < k < |Frame(body)|
    ensures ReadOne(codec, Frame(body)[..k]).0 == Broken
  {
    var n, cut := |body|, Frame(body)[..k];
    LengthLineShape(n);
    if k < |Header(n)| {
      assert cut == Header(n)[..k];
      var line := LengthLine(n);
      forall i | 0 <= i < k ensures !HeaderAt(cut, i) {
        NoEarlyEnd(line, [], i);
        assert (line + SEPARATOR + [])[..i] == cut[..i];
      }
      assert !HeaderAt(cut, k) by {
        NoEarlyEnd(line, [], k);
        assert (line + SEPARATOR + [])[..k] == cut[..k];
      }
      HeaderEndMeans(cut, 0, k);
      assert cut[0] == line[0];
    } else {
      var rest := body[..k - |Header(n)|];
      assert cut == Header(n) + rest;
      HeaderFound(n, rest);
      HeaderLengthReadBack(n);
      assert cut[..|Header(n)|] == Header(n);
    }
    hide Header, HeaderEnd, Lines, FindLength;
  }

  /** Reading the concatenation of any written messages returns them in order, and then the end. */
  lemma {:induction false} RoundTrip<M(!new)>(codec: Codec<M>, messages: seq<M>)
    requires Faithful(codec)
    ensures ReadAll(codec, Frames(codec, messages)) == (messages, End)
  {
    hide Frame, ReadOne;
    if messages == [] {
      NothingLeft(codec);
    } else {
      var frame, rest := Frame(codec.encode(messages[0])), Frames(codec, messages[1..]);
      FrameReadBack(codec, messages[0], rest);
      assert (frame + rest)[|frame|..] == rest;
      RoundTrip(codec, messages[1..]);
      assert messages == [messages[0]] + messages[1..];
    }
  }

  lemma {:induction false} NothingLeft<M>(codec: Codec<M>)
    ensures ReadOne(codec, []) == (End, 0)
  {
  }

  /** The frames that are complete in the first `k` bytes. */
  function Complete<M>(codec: Codec<M>, messages: seq<M>, k: nat): nat {
    if messages == [] || k < |Frame(codec.encode(messages[0]))| then 0
    else 1 + Complete(codec, messages[1..], k - |Frame(codec.encode(messages[0]))|)
  }

  /** A stream cut anywhere yields the messages that are complete, and then the end if it was cut between frames and an
      error if it was cut inside one: never a wrong message. */
  lemma {:induction false} Truncated<M(!new)>(codec: Codec<M>, messages: seq<M>, k: nat)
    requires Faithful(codec) && k <= |Frames(codec, messages)|
    ensures
      var whole := Complete(codec, messages, k);
      && whole <= |messages| && |Frames(codec, messages[..whole])| <= k
      && ReadAll(codec, Frames(codec, messages)[..k]) ==
           (messages[..whole], if |Frames(codec, messages[..whole])| == k then End else Broken)
    decreases |messages|
  {
    hide Frame, ReadOne;
    var input := Frames(codec, messages);
    assert Frames(codec, messages[..0]) == [];
    if k == 0 {
      assert input[..k] == [];
      NothingLeft(codec);
      NoEmptyFrame(codec, messages);
    } else {
      var frame, rest := Frame(codec.encode(messages[0])), Frames(codec, messages[1..]);
      if k < |frame| {
        assert input[..k] == frame[..k];
        CutFrameBreaks(codec, codec.encode(messages[0]), k);
      } else {
        var left := k - |frame|;
        assert input[..k] == frame + rest[..left];
        FrameReadBack(codec, messages[0], rest[..left]);
        assert (frame + rest[..left])[|frame|..] == rest[..left];
        Truncated(codec, messages[1..], left);
        var whole := Complete(codec, messages[1..], left);
        assert messages[..whole + 1] == [messages[0]] + messages[1..][..whole];
        assert messages[..whole + 1][1..] == messages[1..][..whole];
      }
    }
  }

  lemma {:induction false} NoEmptyFrame<M>(codec: Codec<M>, messages: seq<M>)
    ensures Complete(codec, messages, 0) == 0
  {
    if messages != [] { LengthLineShape(|codec.encode(messages[0])|); }
  }
}
