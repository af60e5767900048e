/** A connection from its start, and what a wait answers. */
module FixConnection {
  import opened FixWire
  import opened FixWireTheorems
  import opened FixClient
  import opened Options

  /** The client after these bytes have been read and put with what waits, and whether none of the reads failed. */
  function GatheredAll(s: State, chunks: seq<string>): (State, bool) {
    if chunks == [] then (s, true)
    else
      var (before, fine) := GatheredAll(s, chunks[..|chunks| - 1]);
      if fine then Gathered(before, Chunk(chunks[|chunks| - 1])) else (before, false)
  }

  lemma {:induction false} CheckedOn(n: Numbering, a: seq<Message>, b: seq<Message>)
    ensures CheckedAll(CheckedAll(n, a), b) == CheckedAll(n, a + b)
  {
    if b == [] {
      assert a + b == a;
    } else {
      var m := |b| - 1;
      CheckedOn(n, a, b[..m]);
      assert (a + b)[..|a + b| - 1] == a + b[..m];
    }
  }

  /** What a connection that began so has come to, its bytes having parsed so. */
  ghost predicate HasRead(pending: seq<Message>, faults: seq<Fault>, parsed: Parsed, after: State, fine: bool) {
    && (fine <==> parsed.Parsed?)
    && (fine ==> after == State(parsed.rest, pending + parsed.messages, CheckedAll(Numbering(None, faults), parsed.messages)))
  }

  lemma {:induction false} GatheredChunk(before: State, chunk: string, more: Parsed)
    requires more == Parse(before.buffer + chunk)
    ensures var (after, fine) := Gathered(before, Chunk(chunk));
      && (fine <==> more.Parsed?)
      && (fine ==> after == State(more.rest, before.pending + more.messages, CheckedAll(before.numbering, more.messages)))
  {
    if more.Parsed? {
      assert [] + (before.pending + more.messages) == before.pending + more.messages;
    }
  }

  lemma {:induction false} ReadsOn(pending: seq<Message>, faults: seq<Fault>, parsed: Parsed, before: State, chunk: string)
    requires HasRead(pending, faults, parsed, before, true)
    ensures var (after, fine) := Gathered(before, Chunk(chunk)); HasRead(pending, faults, Extended(parsed, chunk), after, fine)
  {
    var more := Parse(parsed.rest + chunk);
    GatheredChunk(before, chunk, more);
    if more.Parsed? {
      MoreRead(pending, faults, parsed, more);
    }
  }

  lemma {:induction false} MoreRead(pending: seq<Message>, faults: seq<Fault>, parsed: Parsed, more: Parsed)
    requires parsed.Parsed? && more.Parsed?
    ensures pending + parsed.messages + more.messages == pending + (parsed.messages + more.messages)
    ensures CheckedAll(CheckedAll(Numbering(None, faults), parsed.messages), more.messages)
         == CheckedAll(Numbering(None, faults), parsed.messages + more.messages)
  {
    CheckedOn(Numbering(None, faults), parsed.messages, more.messages);
  }

  lemma {:induction false} ConnectionFed(s: State, chunks: seq<string>)
    ensures var (after, fine) := GatheredAll(Connected(s), chunks);
      HasRead(s.pending, s.numbering.faults, Fed(chunks), after, fine)
  {
    if chunks == [] {
      assert Fed(chunks) == Parse("") == Parsed([], "");
      assert s.pending + [] == s.pending;
    } else {
      var m := |chunks| - 1;
      ConnectionFed(s, chunks[..m]);
      var (before, fine) := GatheredAll(Connected(s), chunks[..m]);
      if fine {
        ReadsOn(s.pending, s.numbering.faults, Fed(chunks[..m]), before, chunks[m]);
      }
    }
  }

  /** However its bytes are split, a connection reads what they hold together, and nothing read before it began plays a part. */
  lemma {:induction false} ConnectionReadsItsOwn(s: State, chunks: seq<string>)
    ensures var (after, fine) := GatheredAll(Connected(s), chunks);
      HasRead(s.pending, s.numbering.faults, Parse(Joined(chunks)), after, fine)
  {
    ConnectionFed(s, chunks);
    ChunksDoNotMatter(chunks);
  }

  predicate OfType(message: Message, types: set<string>) {
    MSG_TYPE in message && message[MSG_TYPE] in types
  }

  /** A wait answers with a message of a type waited for, and is silent only while none such waits. */
  lemma {:induction false} WaitAnswers(s: State, types: set<string>, arrivals: seq<Arrival>)
    ensures var (after, answer) := Awaited(s, types, arrivals);
      match answer
      case Found(message) => OfType(message, types)
      case Silence => forall k :: 0 <= k < |after.pending| ==> !OfType(after.pending[k], types)
      case Error => true
    decreases |arrivals|
  {
    if FirstWanted(s.pending, types) == |s.pending| && arrivals != [] && Gathered(s, arrivals[0]).1 {
      WaitAnswers(Gathered(s, arrivals[0]).0, types, arrivals[1..]);
    }
  }
}
