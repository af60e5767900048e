/** What is framed reads back, and the framing can be trusted exactly when it was not spoiled on purpose. */
module FixWireTheorems {
  import opened Options
  import opened Text
  import opened FixWire

  // ---- Finding the trailer ---------------------------------------------------------------------

  lemma {:induction false} FindFromShift(p: string, s: string, pattern: string, j: nat)
    requires pattern != []
    ensures FindFrom(p + s, pattern, |p| + j) == |p| + FindFrom(s, pattern, j)
    decreases if j <= |s| then |s| + 1 - j else 0
  {
    if j <= |s| {
      assert j + |pattern| <= |s| ==> (p + s)[|p| + j..|p| + j + |pattern|] == s[j..j + |pattern|];
      FindFromShift(p, s, pattern, j + 1);
    }
  }

  lemma {:induction false} FindFromSkips(src: string, pattern: string, j: nat, k: nat)
    requires j <= k <= |src|
    requires forall i :: j <= i < k ==> !StartsAt(src, pattern, i)
    ensures FindFrom(src, pattern, j) == FindFrom(src, pattern, k)
    decreases k - j
  {
    if j < k {
      FindFromSkips(src, pattern, j + 1, k);
    }
  }

  const MARK := "10="

  lemma {:induction false} TrailerAfter(a: string, rest: string)
    requires SOH !in a
    ensures FindFrom(a + [SOH] + rest, TRAILER, 0)
         == if MARK <= rest then |a| else |a| + 1 + FindFrom(rest, TRAILER, 0)
  {
    var text := a + [SOH] + rest;
    forall i | 0 <= i < |a| ensures !StartsAt(text, TRAILER, i) {
      assert text[i] == a[i] && a[i] in a;
      assert i + 4 <= |text| ==> text[i..i + 4][0] == text[i];
    }
    FindFromSkips(text, TRAILER, 0, |a|);
    MarkAt(a, rest);
    if !(MARK <= rest) {
      assert text == (a + [SOH]) + rest;
      FindFromShift(a + [SOH], rest, TRAILER, 0);
    }
  }

  lemma {:induction false} MarkAt(a: string, rest: string)
    ensures StartsAt(a + [SOH] + rest, TRAILER, |a|) <==> MARK <= rest
  {
    var text := a + [SOH] + rest;
    if MARK <= rest {
      assert rest == MARK + rest[3..];
      assert text[|a|..|a| + 4] == [SOH] + rest[..3] == TRAILER;
    }
    if StartsAt(text, TRAILER, |a|) {
      assert text[|a|..|a| + 4] == [SOH] + rest[..3];
      assert TRAILER == [SOH] + MARK;
      assert rest[..3] == ([SOH] + rest[..3])[1..] == MARK;
    }
  }

  lemma {:induction false} MarkInSegment(segment: string, more: string)
    requires SOH !in segment
    ensures MARK <= segment + [SOH] + more <==> MARK <= segment
  {
    var text := segment + [SOH] + more;
    assert text[|segment|] == SOH;
    assert SOH !in MARK;
    assert |segment| >= 3 ==> text[..3] == segment[..3];
  }

  predicate NoSeparator(segments: seq<string>) {
    forall k :: 0 <= k < |segments| ==> SOH !in segments[k]
  }

  /** `k` is the first segment, the very first aside, that opens a trailer. */
  predicate FirstTrailer(segments: seq<string>, k: nat) {
    1 <= k < |segments| && MARK <= segments[k] && forall i :: 1 <= i < k ==> !(MARK <= segments[i])
  }

  lemma {:induction false} TrailerFound(segments: seq<string>, k: nat, more: string)
    requires NoSeparator(segments) && FirstTrailer(segments, k)
    ensures Framed(segments[..k]) != []
    ensures FindFrom(Framed(segments) + more, TRAILER, 0) == |Framed(segments[..k])| - 1
    decreases k
  {
    var tail := segments[1..];
    var rest := Framed(tail) + more;
    assert Framed(segments) + more == segments[0] + [SOH] + rest;
    TrailerAfter(segments[0], rest);
    assert rest == tail[0] + [SOH] + (Framed(tail[1..]) + more);
    MarkInSegment(tail[0], Framed(tail[1..]) + more);
    assert segments[..k][1..] == tail[..k - 1];
    assert tail[0] == segments[1];
    if k > 1 {
      TrailerFound(tail, k - 1, more);
    }
  }

  lemma {:induction false} FramedApart(a: seq<string>, b: seq<string>)
    ensures Framed(a + b) == Framed(a) + Framed(b)
  {
    if a == [] {
      assert a + b == b;
    } else {
      assert (a + b)[1..] == a[1..] + b;
      FramedApart(a[1..], b);
    }
  }

  lemma {:induction false} CutAtTrailer(before: string, segment: string, rest: string)
    requires before != [] && SOH !in segment
    requires FindFrom(before + (segment + [SOH] + rest), TRAILER, 0) == |before| - 1
    ensures FirstLength(before + (segment + [SOH] + rest)) == Some(|before + (segment + [SOH])|)
  {
    assert (before + (segment + [SOH] + rest))[|before|..] == segment + [SOH] + rest;
    FindAppended(segment, SOH, rest);
  }

  lemma {:induction false} Regrouped(a: string, b: string, c: string, d: string)
    ensures a + b + c + d == a + (b + (c + d)) && a + b + c + d == (a + b) + (c + d)
    ensures a + b + (c + d) == a + (b + c + d)
  {
  }

  lemma {:induction false} FramedWith(before: seq<string>, segment: string, rest: seq<string>, upTo: seq<string>, all: seq<string>)
    requires upTo == before + [segment] && all == upTo + rest
    ensures Framed(upTo) == Framed(before) + (segment + [SOH])
    ensures Framed(all) == Framed(upTo) + Framed(rest)
  {
    FramedOne(before, segment, upTo);
    FramedApart(upTo, rest);
  }

  /** The first message ends with the segment that opens its trailer. */
  lemma {:induction false} FirstMessage(segments: seq<string>, k: nat, more: string)
    requires NoSeparator(segments) && FirstTrailer(segments, k)
    ensures FirstLength(Framed(segments) + more) == Some(|Framed(segments[..k + 1])|)
    ensures Framed(segments) + more == Framed(segments[..k + 1]) + (Framed(segments[k + 1..]) + more)
  {
    TrailerFound(segments, k, more);
    assert segments[..k + 1] == segments[..k] + [segments[k]] && segments == segments[..k + 1] + segments[k + 1..];
    FramedWith(segments[..k], segments[k], segments[k + 1..], segments[..k + 1], segments);
    Regrouped(Framed(segments[..k]), segments[k] + [SOH], Framed(segments[k + 1..]), more);
    CutAtTrailer(Framed(segments[..k]), segments[k], Framed(segments[k + 1..]) + more);
  }

  // ---- Reading the fields back -----------------------------------------------------------------

  lemma {:induction false} FramedIsJoined(segments: seq<string>)
    ensures Framed(segments) == Join(segments + [""], SOH)
  {
    if segments != [] {
      FramedIsJoined(segments[1..]);
      assert (segments + [""])[1..] == segments[1..] + [""];
    }
  }

  lemma {:induction false} SplitFramed(segments: seq<string>)
    requires NoSeparator(segments)
    ensures Split(Framed(segments), SOH) == segments + [""]
  {
    FramedIsJoined(segments);
    SplitJoin(segments + [""], SOH);
  }

  /** The value of each tag that is a number on the wire, as the first field to carry it gives it. */
  ghost predicate FirstValues(message: Message, fields: seq<Field>) {
    && (forall tag :: tag in message <==> 0 <= tag && exists k :: 0 <= k < |fields| && fields[k].tag == tag)
    && forall k :: 0 <= k < |fields| && Leads(fields, k)
         ==> fields[k].tag in message && message[fields[k].tag] == fields[k].value
  }

  /** Field `k` is the first to carry its tag. */
  predicate Leads(fields: seq<Field>, k: nat)
    requires k < |fields|
  {
    0 <= fields[k].tag && forall j :: 0 <= j < k ==> fields[j].tag != fields[k].tag
  }

  lemma {:induction false} SegmentTag(f: Field)
    ensures Find(Segment(f), '=') == |ToText(f.tag)| < |Segment(f)|
    ensures Segment(f)[..|ToText(f.tag)|] == ToText(f.tag) && Segment(f)[|ToText(f.tag)| + 1..] == f.value
    ensures AllDigitLike(ToText(f.tag)) <==> 0 <= f.tag
    ensures 0 <= f.tag ==> AllDigits(ToText(f.tag)) && DigitsValue(ToText(f.tag)) == f.tag
  {
    var t := ToText(f.tag);
    assert '=' !in t;
    FindAppended(t, '=', f.value);
    assert Segment(f) == t + ['='] + f.value;
    if 0 <= f.tag {
      DecimalValue(f.tag);
    } else {
      assert t[0] == '-';
    }
  }

  lemma {:induction false} FieldsReadBack(fields: seq<Field>)
    ensures ReadSegments(Segments(fields)).Fields?
    ensures FirstValues(ReadSegments(Segments(fields)).message, fields)
  {
    if fields == [] {
      assert Segments(fields) == [];
    } else {
      var n := |fields| - 1;
      FieldsReadBack(fields[..n]);
      assert Segments(fields)[..n] == Segments(fields[..n]);
      SegmentTag(fields[n]);
      FirstValuesExtended(ReadSegments(Segments(fields[..n])).message, fields);
    }
  }

  lemma {:induction false} FirstValuesExtended(message: Message, fields: seq<Field>)
    requires fields != [] && FirstValues(message, fields[..|fields| - 1])
    ensures var f := fields[|fields| - 1];
      FirstValues(if f.tag < 0 || f.tag in message then message else message[f.tag := f.value], fields)
  {
    var n := |fields| - 1;
    var before, f := fields[..n], fields[n];
    var after := if f.tag < 0 || f.tag in message then message else message[f.tag := f.value];
    forall tag ensures tag in after <==> 0 <= tag && exists k :: 0 <= k < |fields| && fields[k].tag == tag {
      if k :| 0 <= k < |fields| && fields[k].tag == tag {
        assert k < n ==> before[k].tag == tag;
      }
      if k :| 0 <= k < |before| && before[k].tag == tag {
        assert fields[k].tag == tag;
      }
    }
    forall k | 0 <= k < |fields| && Leads(fields, k)
      ensures fields[k].tag in after && after[fields[k].tag] == fields[k].value
    {
      assert forall j :: 0 <= j < n ==> before[j] == fields[j];
      assert k < n ==> Leads(before, k);
    }
  }

  // ---- What can be sent ------------------------------------------------------------------------

  lemma {:induction false} SendableApart(a: string, b: string)
    ensures Sendable(a + b) <==> Sendable(a) && Sendable(b)
  {
    if Sendable(a + b) {
      forall k | 0 <= k < |a| ensures a[k] as int < 256 {
        assert (a + b)[k] == a[k];
      }
      forall k | 0 <= k < |b| ensures b[k] as int < 256 {
        assert (a + b)[|a| + k] == b[k];
      }
    }
  }

  lemma {:induction false} FramedSendable(fields: seq<Field>)
    ensures Sendable(Framed(Segments(fields))) <==> forall k :: 0 <= k < |fields| ==> Sendable(fields[k].value)
  {
    if fields == [] {
      assert Framed(Segments(fields)) == "";
    } else {
      var segments := Segments(fields);
      assert segments[1..] == Segments(fields[1..]);
      FramedSendable(fields[1..]);
      SendableApart(segments[0] + [SOH], Framed(segments[1..]));
      SendableApart(segments[0], [SOH]);
      SendableApart(ToText(fields[0].tag) + "=", fields[0].value);
      SendableApart(ToText(fields[0].tag), "=");
      assert Sendable(ToText(fields[0].tag));
      assert forall k :: 1 <= k < |fields| ==> fields[k] == fields[1..][k - 1];
    }
  }

  predicate AllSendable(fields: seq<Field>) {
    forall k :: 0 <= k < |fields| ==> Sendable(fields[k].value)
  }

  lemma {:induction false} HeadSendable(first: Field, second: Field, fields: seq<Field>)
    requires Sendable(second.value)
    ensures AllSendable([first, second] + fields) <==> Sendable(first.value) && AllSendable(fields)
  {
    var head := [first, second] + fields;
    assert head[0] == first && forall k :: 0 <= k < |fields| ==> head[k + 2] == fields[k];
  }

  /** Building fails exactly when a value, or the begin string, holds a character that has no byte. */
  lemma {:induction false} BuildsExactlyWhen(d: Draft)
    ensures BuildMessage(d.fields, d.begin, d.badLength, d.badSum)
         == if Sendable(d.begin) && AllSendable(d.fields) then Some(d.Wire()) else None
  {
    var head := Head(d.fields, d.begin, d.badLength);
    FramedSendable(head);
    HeadSendable(head[0], head[1], d.fields);
  }

  // ---- One message -----------------------------------------------------------------------------

  /** A message to send: its fields, and how its framing is to be spoiled. */
  datatype Draft = Draft(fields: seq<Field>, begin: string, badLength: bool, badSum: bool) {
    function Out(): seq<Field> { AllFields(fields, begin, badLength, badSum) }

    function Wire(): string { Framed(Segments(Out())) }

    /** No value holds the field separator. */
    predicate Separable() { SOH !in begin && forall k :: 0 <= k < |fields| ==> SOH !in fields[k].value }

    predicate HasCheckSumField() { exists k :: 0 <= k < |fields| && fields[k].tag == CHECK_SUM }
  }

  lemma {:induction false} NumberHasNoSeparator(n: int)
    ensures SOH !in ToText(n) && '=' !in ToText(n)
  {
  }

  lemma {:induction false} OutSeparable(d: Draft)
    requires d.Separable()
    ensures NoSeparator(Segments(d.Out()))
  {
    var out := d.Out();
    forall k | 0 <= k < |out| ensures SOH !in Segment(out[k]) {
      assert 2 <= k < |out| - 1 ==> out[k] == d.fields[k - 2];
      assert SOH !in out[k].value;
      SegmentSeparable(out[k]);
    }
  }

  lemma {:induction false} SegmentSeparable(f: Field)
    requires SOH !in f.value
    ensures SOH !in Segment(f)
  {
    NumberHasNoSeparator(f.tag);
  }

  lemma {:induction false} OpensTrailer(f: Field)
    ensures MARK <= Segment(f) <==> f.tag == CHECK_SUM
  {
    var t := ToText(f.tag);
    NumberHasNoSeparator(f.tag);
    if f.tag == CHECK_SUM {
      assert Decimal(10) == Decimal(1) + [Digit(0)] == "10";
      assert Segment(f)[..3] == "10=";
    }
    if MARK <= Segment(f) {
      SegmentTag(f);
      assert Segment(f)[2] == '=' && Segment(f)[0] == '1' && Segment(f)[1] == '0';
      assert |t| == 2 by {
        assert Segment(f) == MARK + Segment(f)[3..];
        FindAppended("10", '=', Segment(f)[3..]);
        assert Segment(f) == "10" + ['='] + Segment(f)[3..];
      }
      assert t == "10";
      if f.tag >= 0 {
        assert DigitsValue("10") == 10 by {
          assert "10"[..1] == "1" && "1"[..0] == "";
        }
      }
    }
  }

  /** The field that ends the message as it is read: the first one, the very first aside, tagged as a checksum. */
  lemma {:induction false} TrailerAmong(out: seq<Field>) returns (k: nat)
    requires |out| >= 2 && out[|out| - 1].tag == CHECK_SUM
    ensures FirstTrailer(Segments(out), k)
    ensures k < |out| - 1 <==> exists i :: 1 <= i < |out| - 1 && out[i].tag == CHECK_SUM
  {
    k := 1;
    while out[k].tag != CHECK_SUM
      invariant 1 <= k < |out|
      invariant forall i :: 1 <= i < k ==> out[i].tag != CHECK_SUM
      decreases |out| - k
    {
      k := k + 1;
    }
    forall i | 0 <= i < |out| ensures MARK <= Segments(out)[i] <==> out[i].tag == CHECK_SUM {
      OpensTrailer(out[i]);
    }
  }

  lemma {:induction false} TrailerOf(d: Draft) returns (k: nat)
    ensures FirstTrailer(Segments(d.Out()), k)
    ensures k < |d.Out()| - 1 <==> d.HasCheckSumField()
  {
    var out := d.Out();
    k := TrailerAmong(out);
    if i :| 1 <= i < |out| - 1 && out[i].tag == CHECK_SUM {
      assert out[i] == d.fields[i - 2];
    }
    if j :| 0 <= j < |d.fields| && d.fields[j].tag == CHECK_SUM {
      assert out[j + 2] == d.fields[j];
    }
  }

  lemma {:induction false} ParseEmptyExactlyWhen(text: string)
    ensures Parse(text) == Parsed([], "") <==> text == ""
  {
    var n := FirstLength(text);
    if n.Some? && ReadSegments(Split(text[..n.value], SOH)).Fields? {
      var more := Parse(text[n.value..]);
      assert more.Parsed? ==> |Parse(text).messages| == 1 + |more.messages|;
    }
  }

  /** The message as read: the first value of every tag that went out. */
  function Reading(d: Draft): Message
    requires ReadSegments(Segments(d.Out())).Fields?
  {
    ReadSegments(Segments(d.Out())).message
  }

  lemma {:induction false} ReadFramed(segments: seq<string>)
    requires NoSeparator(segments)
    ensures ReadSegments(Split(Framed(segments), SOH)) == ReadSegments(segments)
  {
    SplitFramed(segments);
    assert (segments + [""])[..|segments|] == segments;
  }

  /** A message, whatever follows it on the stream, is read as the first value of each of its tags. */
  lemma {:induction false} MessageReadBack(d: Draft, more: string)
    requires d.Separable() && !d.HasCheckSumField()
    ensures ReadSegments(Segments(d.Out())).Fields? && FirstValues(Reading(d), d.Out())
    ensures Parse(d.Wire() + more) == Prepend(Reading(d), Parse(more))
  {
    var segments := Segments(d.Out());
    OutSeparable(d);
    var k := TrailerOf(d);
    FirstMessage(segments, k, more);
    assert segments[..k + 1] == segments && Framed(segments[k + 1..]) + more == more;
    FieldsReadBack(d.Out());
    var text := d.Wire() + more;
    assert text[..|d.Wire()|] == d.Wire() && text[|d.Wire()|..] == more;
    ReadFramed(segments);
  }

  lemma {:induction false} CutShort(segments: seq<string>, k: nat)
    requires NoSeparator(segments) && FirstTrailer(segments, k) && k + 1 < |segments|
    ensures forall m :: Parse(Framed(segments)) != Parsed([m], "")
  {
    FirstMessage(segments, k, "");
    var text, cut, rest := Framed(segments), Framed(segments[..k + 1]), Framed(segments[k + 1..]);
    assert text + "" == text && rest + "" == rest;
    assert text[..|cut|] == cut && text[|cut|..] == rest != "";
    PrependToSome(ReadSegments(Split(cut, SOH)), rest);
  }

  lemma {:induction false} PrependToSome(read: Read, rest: string)
    requires rest != ""
    ensures read.Fields? ==> forall m :: Prepend(read.message, Parse(rest)) != Parsed([m], "")
  {
    ParseEmptyExactlyWhen(rest);
    if read.Fields? && Parse(rest).Parsed? {
      assert |([read.message] + Parse(rest).messages)| == 1 + |Parse(rest).messages|;
    }
  }

  /** Exactly when a message with separable values reads back whole: no field of it claims the checksum's tag. */
  lemma {:induction false} ReadsBackExactlyWhen(d: Draft)
    requires d.Separable()
    ensures (exists m :: Parse(d.Wire()) == Parsed([m], "")) <==> !d.HasCheckSumField()
  {
    if !d.HasCheckSumField() {
      MessageReadBack(d, "");
      assert d.Wire() + "" == d.Wire();
      ParseEmptyExactlyWhen("");
      assert [Reading(d)] + [] == [Reading(d)];
    } else {
      OutSeparable(d);
      var k := TrailerOf(d);
      CutShort(Segments(d.Out()), k);
    }
  }

  // ---- A stream of messages --------------------------------------------------------------------

  function Stream(drafts: seq<Draft>): string {
    if drafts == [] then "" else drafts[0].Wire() + Stream(drafts[1..])
  }

  /** Message for message: each reading is the first value of each tag of its draft. */
  ghost predicate ReadAs(messages: seq<Message>, drafts: seq<Draft>) {
    |messages| == |drafts| && forall k :: 0 <= k < |drafts| ==> FirstValues(messages[k], drafts[k].Out())
  }

  lemma {:induction false} StreamReadBack(drafts: seq<Draft>)
    requires forall k :: 0 <= k < |drafts| ==> drafts[k].Separable() && !drafts[k].HasCheckSumField()
    ensures Parse(Stream(drafts)).Parsed? && Parse(Stream(drafts)).rest == ""
    ensures ReadAs(Parse(Stream(drafts)).messages, drafts)
  {
    if drafts != [] {
      StreamReadBack(drafts[1..]);
      MessageReadBack(drafts[0], Stream(drafts[1..]));
    }
  }

  /** However the stream is cut up on its way, every message sent is read, in order, and nothing is left over. */
  lemma {:induction false} SentIsReceived(drafts: seq<Draft>, chunks: seq<string>)
    requires forall k :: 0 <= k < |drafts| ==> drafts[k].Separable() && !drafts[k].HasCheckSumField()
    requires Joined(chunks) == Stream(drafts)
    ensures Fed(chunks).Parsed? && Fed(chunks).rest == "" && ReadAs(Fed(chunks).messages, drafts)
  {
    ChunksDoNotMatter(chunks);
    StreamReadBack(drafts);
  }

  // ---- Trusting the framing --------------------------------------------------------------------

  /** The trailer's seven bytes. */
  predicate Trailed(wire: string) {
    var at := |wire| - 7;
    at >= 0 && wire[at..at + 3] == MARK && AllDigits(wire[at + 3..at + 6]) && wire[at + 6] == SOH
  }

  /** CheckSum is the sum of every byte before the trailer, modulo 256. */
  predicate SumHolds(wire: string) {
    Trailed(wire) && DigitsValue(wire[|wire| - 4..|wire| - 1]) == ByteSum(wire[..|wire| - 7]) % 256
  }

  /** The text before the first separator, and where it ends. */
  function FieldEnd(wire: string, from: nat): (k: nat)
    requires from <= |wire|
    ensures from <= k <= |wire|
  {
    from + Find(wire[from..], SOH)
  }

  /** A BodyLength field giving this length. */
  predicate GivesLength(field: string, length: int) {
    |field| >= 2 && field[..2] == "9=" && AllDigits(field[2..]) && DigitsValue(field[2..]) == length
  }

  /** BodyLength, the second field, counts the bytes after it up to the trailer. */
  predicate LengthHolds(wire: string) {
    Trailed(wire) &&
    var first := FieldEnd(wire, 0);
    first < |wire| &&
    var second := FieldEnd(wire, first + 1);
    second < |wire| - 7 && GivesLength(wire[first + 1..second], |wire| - 7 - (second + 1))
  }

  lemma {:induction false} ThreeDigitsValue(n: nat)
    requires n < 256
    ensures AllDigits(ThreeDigits(n)) && DigitsValue(ThreeDigits(n)) == n
  {
    var s := ThreeDigits(n);
    assert s[..2] == [s[0], s[1]] && s[..2][..1] == [s[0]] && [s[0]][..0] == [];
    assert DigitsValue([s[0]]) == n / 100;
    assert DigitsValue(s[..2]) == n / 10;
  }

  /** The bytes before the trailer. */
  function HeadText(d: Draft): string {
    Framed(Segments(Head(d.fields, d.begin, d.badLength)))
  }

  /** The wire is the head's bytes followed by the trailer's seven. */
  predicate InParts(wire: string, head: string, value: nat) {
    value < 256 && wire == head + (MARK + ThreeDigits(value) + [SOH])
  }

  lemma {:induction false} TrailerSegment(value: string)
    ensures Segment(Field(CHECK_SUM, value)) == MARK + value
  {
    assert Decimal(10) == Decimal(1) + [Digit(0)] == "10";
  }

  lemma {:induction false} FramedOne(segments: seq<string>, last: string, all: seq<string>)
    requires all == segments + [last]
    ensures Framed(all) == Framed(segments) + (last + [SOH])
  {
    FramedApart(segments, [last]);
    assert [last][1..] == [] && last + [SOH] + "" == last + [SOH];
  }

  lemma {:induction false} WireIs(d: Draft)
    ensures InParts(d.Wire(), HeadText(d), SumValue(HeadText(d), d.badSum))
  {
    var fields, value := Head(d.fields, d.begin, d.badLength), SumValue(HeadText(d), d.badSum);
    var trailer := Field(CHECK_SUM, ThreeDigits(value));
    TrailerSegment(ThreeDigits(value));
    assert Segments(d.Out()) == Segments(fields) + [Segment(trailer)];
    FramedOne(Segments(fields), Segment(trailer), Segments(d.Out()));
  }

  lemma {:induction false} PartsTrailed(wire: string, head: string, value: nat)
    requires InParts(wire, head, value)
    ensures Trailed(wire) && |wire| == |head| + 7 && wire[..|head|] == head
    ensures wire[|head| + 3..|head| + 6] == ThreeDigits(value)
  {
    var digits := ThreeDigits(value);
    ThreeDigitsValue(value);
    assert wire[|head|..] == MARK + digits + [SOH];
    assert wire[|head|..|head| + 3] == MARK && wire[|head| + 3..|head| + 6] == digits;
  }

  lemma {:induction false} SumCompared(wire: string, head: string, value: nat)
    requires InParts(wire, head, value)
    ensures SumHolds(wire) <==> value == ByteSum(head) % 256
  {
    PartsTrailed(wire, head, value);
    ThreeDigitsValue(value);
    assert wire[|wire| - 4..|wire| - 1] == ThreeDigits(value);
  }

  lemma {:induction false} SpoiledSum(text: string, badSum: bool)
    ensures SumValue(text, badSum) == ByteSum(text) % 256 <==> !badSum
  {
  }

  /** The checksum holds exactly when it was not spoiled. */
  lemma {:induction false} SumHoldsExactlyWhen(d: Draft)
    ensures SumHolds(d.Wire()) <==> !d.badSum
  {
    WireIs(d);
    SumCompared(d.Wire(), HeadText(d), SumValue(HeadText(d), d.badSum));
    SpoiledSum(HeadText(d), d.badSum);
  }

  /** The length as the message gives it. */
  function LengthOf(d: Draft): nat {
    |Framed(Segments(d.fields))| + if d.badLength then 1 else 0
  }

  predicate HeadInParts(head: string, first: string, length: nat, body: string) {
    head == first + [SOH] + ("9=" + Decimal(length) + [SOH] + body)
  }

  lemma {:induction false} FramedTwo(first: string, second: string, segments: seq<string>, all: seq<string>)
    requires all == [first, second] + segments
    ensures Framed(all) == first + [SOH] + (second + [SOH] + Framed(segments))
  {
    assert all[1..][1..] == segments && all[1..][0] == second;
  }

  /** The head's bytes: the two framing fields, then the body. */
  lemma {:induction false} HeadIs(d: Draft)
    ensures HeadInParts(HeadText(d), "8=" + d.begin, LengthOf(d), Framed(Segments(d.fields)))
  {
    var head := Head(d.fields, d.begin, d.badLength);
    FramingFields(d);
    assert Segments(head) == [Segment(head[0]), Segment(head[1])] + Segments(d.fields);
    FramedTwo(Segment(head[0]), Segment(head[1]), Segments(d.fields), Segments(head));
  }

  lemma {:induction false} FramingFields(d: Draft)
    ensures var head := Head(d.fields, d.begin, d.badLength);
      Segment(head[0]) == "8=" + d.begin && Segment(head[1]) == "9=" + Decimal(LengthOf(d))
  {
    BeginSegment(d.begin);
    LengthSegment(Decimal(LengthOf(d)));
  }

  lemma {:induction false} BeginSegment(value: string)
    ensures Segment(Field(BEGIN_STRING, value)) == "8=" + value
  {
    assert Decimal(8) == "8" && "8" + "=" == "8=";
  }

  lemma {:induction false} LengthSegment(value: string)
    ensures Segment(Field(BODY_LENGTH, value)) == "9=" + value
  {
    assert Decimal(9) == "9" && "9" + "=" == "9=";
  }

  lemma {:induction false} FieldEnds(wire: string, before: string, field: string, rest: string)
    requires SOH !in field && wire == before + (field + [SOH] + rest)
    ensures FieldEnd(wire, |before|) == |before| + |field| && wire[|before|..|before| + |field|] == field
  {
    assert wire[|before|..] == field + [SOH] + rest;
    FindAppended(field, SOH, rest);
  }

  lemma {:induction false} TwoFieldsEnd(wire: string, first: string, second: string, rest: string)
    requires SOH !in first && SOH !in second && wire == first + [SOH] + (second + [SOH] + rest)
    ensures FieldEnd(wire, 0) == |first| && FieldEnd(wire, |first| + 1) == |first| + 1 + |second|
    ensures wire[|first| + 1..|first| + 1 + |second|] == second
  {
    assert wire == "" + (first + [SOH] + (second + [SOH] + rest));
    FieldEnds(wire, "", first, second + [SOH] + rest);
    FieldEnds(wire, first + [SOH], second, rest);
  }

  lemma {:induction false} LengthGiven(length: nat, other: int)
    ensures SOH !in "9=" + Decimal(length)
    ensures GivesLength("9=" + Decimal(length), other) <==> length == other
  {
    var field := "9=" + Decimal(length);
    assert field[..2] == "9=" && field[2..] == Decimal(length);
    DecimalValue(length);
  }

  lemma {:induction false} LengthCompared(wire: string, first: string, length: nat, body: string, trailer: string)
    requires Trailed(wire) && SOH !in first && |trailer| == 7
    requires wire == first + [SOH] + ("9=" + Decimal(length) + [SOH] + (body + trailer))
    ensures LengthHolds(wire) <==> length == |body|
  {
    var second := "9=" + Decimal(length);
    LengthGiven(length, |body|);
    TwoFieldsEnd(wire, first, second, body + trailer);
    assert |wire| == |first| + 1 + |second| + 1 + |body| + 7;
  }

  /** The body length holds exactly when it was not spoiled. */
  lemma {:induction false} LengthHoldsExactlyWhen(d: Draft)
    requires SOH !in d.begin
    ensures LengthHolds(d.Wire()) <==> !d.badLength
  {
    WireIs(d);
    HeadIs(d);
    LengthInParts(d.Wire(), HeadText(d), SumValue(HeadText(d), d.badSum), "8=" + d.begin, LengthOf(d), Framed(Segments(d.fields)));
  }

  lemma {:induction false} LengthInParts(wire: string, head: string, value: nat, first: string, length: nat, body: string)
    requires InParts(wire, head, value) && HeadInParts(head, first, length, body) && SOH !in first
    ensures LengthHolds(wire) <==> length == |body|
  {
    PartsTrailed(wire, head, value);
    var trailer := MARK + ThreeDigits(value) + [SOH];
    Regrouped(first + [SOH], "9=" + Decimal(length) + [SOH], body, trailer);
    LengthCompared(wire, first, length, body, trailer);
  }

  // ---- What cannot be read ---------------------------------------------------------------------

  /** A raised digit, which passes for a digit though it has no decimal value: two, three or one. */
  predicate RaisedDigit(c: char) { c as int in {178, 179, 185} }

  /** Up to its first equals sign the segment is all digits, one of them raised. */
  ghost predicate RaisedTag(segment: string) {
    exists at, k ::
      && 0 <= k < at < |segment| && segment[at] == '=' && RaisedDigit(segment[k])
      && forall j :: 0 <= j < at ==> '0' <= segment[j] <= '9' || RaisedDigit(segment[j])
  }

  /** The tag of a segment is what stands before its first equals sign. */
  lemma {:induction false} TagIs(segment: string, at: nat)
    requires at < |segment| && segment[at] == '=' && forall j :: 0 <= j < at ==> segment[j] != '='
    ensures Find(segment, '=') == at
  {
    assert segment[at] in segment[..at + 1];
  }

  lemma {:induction false} RaisedTagFails(message: Message, segment: string, at: nat, k: nat)
    requires 0 <= k < at < |segment| && segment[at] == '=' && RaisedDigit(segment[k])
    requires forall j :: 0 <= j < at ==> '0' <= segment[j] <= '9' || RaisedDigit(segment[j])
    ensures AddSegment(message, segment) == ValueError
  {
    TagIs(segment, at);
    var tag := segment[..at];
    assert forall j :: 0 <= j < at ==> tag[j] == segment[j];
    assert !IsDigit(tag[k]);
  }

  lemma {:induction false} FailsByRaisedTag(message: Message, segment: string)
    requires AddSegment(message, segment) == ValueError
    ensures RaisedTag(segment)
  {
    var at := Find(segment, '=');
    var tag := segment[..at];
    assert forall j :: 0 <= j < at ==> tag[j] == segment[j] && DigitLike(tag[j]);
    var k :| 0 <= k < at && !IsDigit(tag[k]);
    assert RaisedDigit(segment[k]);
  }

  lemma {:induction false} RaisedExactlyWhen(message: Message, segment: string)
    ensures AddSegment(message, segment) == ValueError <==> RaisedTag(segment)
  {
    if RaisedTag(segment) {
      var at, k :|
        && 0 <= k < at < |segment| && segment[at] == '=' && RaisedDigit(segment[k])
        && forall j :: 0 <= j < at ==> '0' <= segment[j] <= '9' || RaisedDigit(segment[j]);
      RaisedTagFails(message, segment, at, k);
    } else if AddSegment(message, segment) == ValueError {
      FailsByRaisedTag(message, segment);
    }
  }

  /** Reading fails exactly when some segment has a tag with a raised digit. */
  lemma {:induction false} ReadFailsExactlyWhen(segments: seq<string>)
    ensures ReadSegments(segments) == ValueError <==> exists k :: 0 <= k < |segments| && RaisedTag(segments[k])
  {
    if segments != [] {
      var m := |segments| - 1;
      ReadFailsExactlyWhen(segments[..m]);
      assert forall k :: 0 <= k < m ==> segments[..m][k] == segments[k];
      if ReadSegments(segments[..m]).Fields? {
        RaisedExactlyWhen(ReadSegments(segments[..m]).message, segments[m]);
      } else {
        var k :| 0 <= k < m && RaisedTag(segments[..m][k]);
        assert RaisedTag(segments[k]);
      }
    }
  }
}
