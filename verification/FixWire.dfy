/**
 * FIX messages on the wire: framing an ordered list of fields, and cutting a stream of bytes back into
 * messages.  A character stands for the byte of its code, so only characters below 256 can be sent.
 */
module FixWire {
  import opened Options
  import opened Text

  const SOH := '\U{1}'
  const BEGIN_STRING := 8
  const BODY_LENGTH := 9
  const CHECK_SUM := 10

  datatype Field = Field(tag: int, value: string)

  /** A message as read: the first value of each tag. */
  type Message = map<int, string>

  // ---- Framing ---------------------------------------------------------------------------------

  predicate Sendable(s: string) {
    forall k :: 0 <= k < |s| ==> s[k] as int < 256
  }

  function Segment(f: Field): string {
    ToText(f.tag) + "=" + f.value
  }

  /** Each segment followed by the field separator. */
  function Framed(segments: seq<string>): string {
    if segments == [] then "" else segments[0] + [SOH] + Framed(segments[1..])
  }

  function Segments(fields: seq<Field>): (s: seq<string>)
    ensures |s| == |fields| && forall k :: 0 <= k < |s| ==> s[k] == Segment(fields[k])
  {
    seq(|fields|, k requires 0 <= k < |fields| => Segment(fields[k]))
  }

  function ByteSum(s: string): nat {
    if s == [] then 0 else ByteSum(s[..|s| - 1]) + s[|s| - 1] as nat
  }

  function ThreeDigits(n: nat): string
    requires n < 256
  {
    [Digit(n / 100), Digit(n / 10 % 10), Digit(n % 10)]
  }

  /** The fields before the trailer, with the length they are given. */
  function Head(fields: seq<Field>, begin: string, badLength: bool): seq<Field> {
    [Field(BEGIN_STRING, begin), Field(BODY_LENGTH, Decimal(|Framed(Segments(fields))| + if badLength then 1 else 0))] + fields
  }

  function SumValue(text: string, badSum: bool): (n: nat)
    ensures n < 256
  {
    (ByteSum(text) % 256 + if badSum then 1 else 0) % 256
  }

  /** Every field of the message as it goes out, the header's and the trailer's included. */
  function AllFields(fields: seq<Field>, begin: string, badLength: bool, badSum: bool): seq<Field> {
    var head := Head(fields, begin, badLength);
    head + [Field(CHECK_SUM, ThreeDigits(SumValue(Framed(Segments(head)), badSum)))]
  }

  /** The wire bytes; `None` stands for the encoding error of a character that has no byte. */
  function BuildMessage(fields: seq<Field>, begin: string, badLength: bool, badSum: bool): Option<string> {
    if Sendable(Framed(Segments(Head(fields, begin, badLength)))) then
      Some(Framed(Segments(AllFields(fields, begin, badLength, badSum))))
    else None
  }

  // ---- Parsing ---------------------------------------------------------------------------------

  /** What counts as a digit here: the ten digits, and the three superscripts that have a byte. */
  predicate DigitLike(c: char) {
    IsDigit(c) || c == '\U{b2}' || c == '\U{b3}' || c == '\U{b9}'
  }

  predicate AllDigitLike(s: string) {
    s != [] && forall k :: 0 <= k < |s| ==> DigitLike(s[k])
  }

  datatype Read = Fields(message: Message) | ValueError

  function AddSegment(message: Message, segment: string): Read {
    var at := Find(segment, '=');
    if at == |segment| || !AllDigitLike(segment[..at]) then Fields(message)
    else if !AllDigits(segment[..at]) then ValueError
    else
      var tag := DigitsValue(segment[..at]);
      Fields(if tag in message then message else message[tag := segment[at + 1..]])
  }

  /** The first value of each tag wins; a segment without a numeric tag is skipped. */
  function ReadSegments(segments: seq<string>): Read {
    if segments == [] then Fields(map[])
    else
      match ReadSegments(segments[..|segments| - 1])
      case ValueError => ValueError
      case Fields(message) => AddSegment(message, segments[|segments| - 1])
  }

  const TRAILER := [SOH] + "10="

  /** The length of the first complete message, or none. */
  function FirstLength(text: string): (n: Option<nat>)
    ensures n.Some? ==> 0 < n.value <= |text|
  {
    var end := FindFrom(text, TRAILER, 0);
    if end > |text| then None
    else
      var close := Find(text[end + 1..], SOH);
      if end + 1 + close == |text| then None else Some(end + 1 + close + 1)
  }

  datatype Parsed = Parsed(messages: seq<Message>, rest: string) | Raised

  function Prepend(message: Message, more: Parsed): Parsed {
    match more case Raised => Raised case Parsed(messages, rest) => Parsed([message] + messages, rest)
  }

  function Parse(text: string): Parsed
    decreases |text|
  {
    var n := FirstLength(text);
    if n.None? then Parsed([], text)
    else
      match ReadSegments(Split(text[..n.value], SOH))
      case ValueError => Raised
      case Fields(message) => Prepend(message, Parse(text[n.value..]))
  }

  method ReadFields(segments: seq<string>) returns (read: Read)
    ensures read == ReadSegments(segments)
  {
    var message: Message := map[];
    for k := 0 to |segments|
      invariant ReadSegments(segments[..k]) == Fields(message)
    {
      assert segments[..k + 1][..k] == segments[..k];
      var field := segments[k];
      var at := Find(field, '=');
      if at == |field| {
        continue;
      }
      var tag := field[..at];
      if AllDigitLike(tag) {
        if !AllDigits(tag) {
          RaisesOnce(segments, k + 1);
          return ValueError;
        }
        var number := DigitsValue(tag);
        if number !in message {
          message := message[number := field[at + 1..]];
        }
      }
    }
    assert segments[..|segments|] == segments;
    return Fields(message);
  }

  lemma {:induction false} RaisesOnce(segments: seq<string>, k: nat)
    requires k <= |segments| && ReadSegments(segments[..k]).ValueError?
    ensures ReadSegments(segments).ValueError?
    decreases |segments| - k
  {
    if k < |segments| {
      assert segments[..k + 1][..k] == segments[..k];
      RaisesOnce(segments, k + 1);
    } else {
      assert segments[..k] == segments;
    }
  }

  function Put(done: seq<Message>, more: Parsed): Parsed {
    match more case Raised => Raised case Parsed(messages, rest) => Parsed(done + messages, rest)
  }

  /** Cuts complete messages off the front of the buffer until none is left. */
  method ParseMessages(buffer: string) returns (parsed: Parsed)
    ensures parsed == Parse(buffer)
  {
    var messages: seq<Message> := [];
    var text := buffer;
    PutNothing(Parse(buffer));
    while true
      invariant Parse(buffer) == Put(messages, Parse(text))
      decreases |text|
    {
      var n := FirstLength(text);
      if n.None? {
        assert messages + [] == messages;
        return Parsed(messages, text);
      }
      var read := ReadFields(Split(text[..n.value], SOH));
      if read.ValueError? {
        return Raised;
      }
      PutPrepend(messages, read.message, Parse(text[n.value..]));
      messages := messages + [read.message];
      text := text[n.value..];
    }
  }

  lemma {:induction false} PutNothing(more: Parsed)
    ensures Put([], more) == more
  {
    if more.Parsed? {
      assert [] + more.messages == more.messages;
    }
  }

  lemma {:induction false} PutPrepend(done: seq<Message>, message: Message, more: Parsed)
    ensures Put(done, Prepend(message, more)) == Put(done + [message], more)
  {
    if more.Parsed? {
      assert done + ([message] + more.messages) == done + [message] + more.messages;
    }
  }

  // ---- Chunks do not matter --------------------------------------------------------------------

  lemma {:induction false} FindFromStable(a: string, b: string, pattern: string, j: nat)
    requires pattern != [] && FindFrom(a, pattern, j) <= |a|
    ensures FindFrom(a + b, pattern, j) == FindFrom(a, pattern, j)
    decreases |a| - j
  {
    var k := FindFrom(a, pattern, j);
    assert j + |pattern| <= |a| ==> (a + b)[j..j + |pattern|] == a[j..j + |pattern|];
    if k > j {
      FindFromStable(a, b, pattern, j + 1);
    }
  }

  lemma {:induction false} FindStable(a: string, b: string, c: char)
    requires Find(a, c) < |a|
    ensures Find(a + b, c) == Find(a, c)
  {
    if a[0] != c {
      assert (a + b)[1..] == a[1..] + b;
      FindStable(a[1..], b, c);
    }
  }

  /** A message that is complete stays the first one, whatever arrives behind it. */
  lemma {:induction false} FirstLengthStable(a: string, b: string)
    requires FirstLength(a).Some?
    ensures FirstLength(a + b) == FirstLength(a)
  {
    FindFromStable(a, b, TRAILER, 0);
    var end := FindFrom(a, TRAILER, 0);
    assert (a + b)[end + 1..] == a[end + 1..] + b;
    FindStable(a[end + 1..], b, SOH);
  }

  /** What parsing more bytes adds to what was parsed before. */
  function Extended(before: Parsed, more: string): Parsed {
    match before case Raised => Raised case Parsed(messages, rest) => Put(messages, Parse(rest + more))
  }

  lemma {:induction false} ParseInTwo(a: string, b: string)
    ensures Extended(Parse(a), b) == Parse(a + b)
    decreases |a|
  {
    var n := FirstLength(a);
    if n.None? {
      PutNothing(Parse(a + b));
    } else {
      FirstLengthStable(a, b);
      assert (a + b)[..n.value] == a[..n.value] && (a + b)[n.value..] == a[n.value..] + b;
      ParseInTwo(a[n.value..], b);
      var read, rest := ReadSegments(Split(a[..n.value], SOH)), Parse(a[n.value..]);
      if read.Fields? && rest.Parsed? {
        PrependPut(read.message, rest.messages, Parse(rest.rest + b));
      }
    }
  }

  lemma {:induction false} PrependPut(message: Message, done: seq<Message>, more: Parsed)
    ensures Put([message] + done, more) == Prepend(message, Put(done, more))
  {
    if more.Parsed? {
      assert [message] + done + more.messages == [message] + (done + more.messages);
    }
  }

  function Joined(chunks: seq<string>): string {
    if chunks == [] then "" else Joined(chunks[..|chunks| - 1]) + chunks[|chunks| - 1]
  }

  /** Parsing chunk by chunk, the unconsumed remainder carried over each time. */
  function Fed(chunks: seq<string>): Parsed {
    if chunks == [] then Parse("") else Extended(Fed(chunks[..|chunks| - 1]), chunks[|chunks| - 1])
  }

  /** However a stream of bytes is divided, parsing it piece by piece gives what parsing it whole does. */
  lemma {:induction false} ChunksDoNotMatter(chunks: seq<string>)
    ensures Fed(chunks) == Parse(Joined(chunks))
  {
    if chunks != [] {
      ChunksDoNotMatter(chunks[..|chunks| - 1]);
      ParseInTwo(Joined(chunks[..|chunks| - 1]), chunks[|chunks| - 1]);
    }
  }
}
