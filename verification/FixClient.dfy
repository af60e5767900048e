/**
 * The receiving side of the raw FIX client: what it has read and not yet handed over, and the check it
 * makes of the numbers the venue puts on its messages.
 */
module FixClient {
  import opened Options
  import opened Text
  import opened FixWire

  const MSG_TYPE := 35
  const MSG_SEQ_NUM := 34
  const POSS_DUP_FLAG := 43
  const GAP_FILL_FLAG := 123
  const NEW_SEQ_NO := 36
  const RESET_SEQ_NUM_FLAG := 141

  // ---- Numbering -------------------------------------------------------------------------------

  datatype Fault =
    | EarlyGapFill(number: int, expected: int)
    | Skipped(number: int, expected: int)
    | WentBack(number: int, expected: int)

  datatype Numbering = Numbering(expected: Option<int>, faults: seq<Fault>)

  predicate Says(message: Message, tag: int, value: string) {
    tag in message && message[tag] == value
  }

  function NumberIn(message: Message, tag: int): Option<int> {
    if tag in message then ParseInt(message[tag]) else None
  }

  function AfterReset(n: Numbering, message: Message, number: int): Numbering {
    var early := Says(message, GAP_FILL_FLAG, "Y") && n.expected.Some? && number > n.expected.value;
    var to := NumberIn(message, NEW_SEQ_NO);
    Numbering(if to.Some? then to else n.expected,
              if early then n.faults + [EarlyGapFill(number, n.expected.value)] else n.faults)
  }

  function Checked(n: Numbering, message: Message): Numbering {
    var number := NumberIn(message, MSG_SEQ_NUM);
    if number.None? then n
    else if Says(message, MSG_TYPE, "4") then AfterReset(n, message, number.value)
    else if n.expected.None? || (Says(message, MSG_TYPE, "A") && Says(message, RESET_SEQ_NUM_FLAG, "Y")) then
      n.(expected := Some(number.value + 1))
    else if number.value == n.expected.value then n.(expected := Some(number.value + 1))
    else if number.value > n.expected.value then
      Numbering(Some(number.value + 1), n.faults + [Skipped(number.value, n.expected.value)])
    else if !Says(message, POSS_DUP_FLAG, "Y") then
      n.(faults := n.faults + [WentBack(number.value, n.expected.value)])
    else n
  }

  function CheckedAll(n: Numbering, messages: seq<Message>): Numbering {
    if messages == [] then n
    else Checked(CheckedAll(n, messages[..|messages| - 1]), messages[|messages| - 1])
  }

  // ---- Receiving -------------------------------------------------------------------------------

  /** What one read of the socket brings. */
  datatype Arrival = Timeout | EndOfStream | Chunk(bytes: string)

  datatype State = State(buffer: string, pending: seq<Message>, numbering: Numbering)

  /** The messages a read hands back, or the error a malformed tag raises. */
  datatype Given = Given(messages: seq<Message>) | Failed

  function Connected(s: State): State {
    s.(buffer := "", numbering := s.numbering.(expected := None))
  }

  function Received(s: State, arrival: Arrival): (State, Given) {
    match arrival
    case Timeout => (s.(pending := []), Given(s.pending))
    case EndOfStream => (s, Given(s.pending))
    case Chunk(bytes) =>
      match Parse(s.buffer + bytes)
      case Raised => (s.(buffer := s.buffer + bytes), Failed)
      case Parsed(messages, rest) =>
        (State(rest, [], CheckedAll(s.numbering, messages)), Given(s.pending + messages))
  }

  /** A read whose messages are all put back to wait. */
  function Gathered(s: State, arrival: Arrival): (State, bool) {
    match Received(s, arrival)
    case (after, Failed) => (after, false)
    case (after, Given(messages)) => (after.(pending := after.pending + messages), true)
  }

  predicate Wanted(message: Message, types: set<string>) {
    MSG_TYPE in message && message[MSG_TYPE] in types
  }

  /** The first waiting message of one of the types, or the number waiting. */
  function FirstWanted(pending: seq<Message>, types: set<string>): (k: nat)
    ensures k <= |pending|
    ensures forall j :: 0 <= j < k ==> !Wanted(pending[j], types)
    ensures k < |pending| ==> Wanted(pending[k], types)
  {
    if pending == [] || Wanted(pending[0], types) then 0 else 1 + FirstWanted(pending[1..], types)
  }

  function Without<T>(s: seq<T>, k: nat): seq<T>
    requires k < |s|
  {
    s[..k] + s[k + 1..]
  }

  datatype Answer = Found(message: Message) | Silence | Error

  /** Waiting for a message: `arrivals` are the reads there is time for before the deadline. */
  function Awaited(s: State, types: set<string>, arrivals: seq<Arrival>): (State, Answer)
    decreases |arrivals|
  {
    var k := FirstWanted(s.pending, types);
    if k < |s.pending| then (s.(pending := Without(s.pending, k)), Found(s.pending[k]))
    else if arrivals == [] then (s, Silence)
    else
      var (after, fine) := Gathered(s, arrivals[0]);
      if fine then Awaited(after, types, arrivals[1..]) else (after, Error)
  }

  class FixRawClient {
    var buffer: string
    var pending: seq<Message>
    var expectedReceiveSeqNum: Option<int>
    var receiveNumberingFaults: seq<Fault>

    function Abstract(): State
      reads this
    {
      State(buffer, pending, Numbering(expectedReceiveSeqNum, receiveNumberingFaults))
    }

    constructor ()
      ensures Abstract() == State("", [], Numbering(None, []))
    {
      buffer := "";
      pending := [];
      expectedReceiveSeqNum := None;
      receiveNumberingFaults := [];
    }

    method Connect()
      modifies this
      ensures Abstract() == Connected(old(Abstract()))
    {
      buffer := "";
      expectedReceiveSeqNum := None;
    }

    method CheckReceivedNumbering(message: Message)
      modifies this`expectedReceiveSeqNum, this`receiveNumberingFaults
      ensures Abstract().numbering == Checked(old(Abstract()).numbering, message)
    {
      var number := NumberIn(message, MSG_SEQ_NUM);
      if number.None? {
        return;
      }
      var expected := expectedReceiveSeqNum;
      if Says(message, MSG_TYPE, "4") {
        if Says(message, GAP_FILL_FLAG, "Y") && expected.Some? && number.value > expected.value {
          receiveNumberingFaults := receiveNumberingFaults + [EarlyGapFill(number.value, expected.value)];
        }
        var to := NumberIn(message, NEW_SEQ_NO);
        if to.Some? {
          expectedReceiveSeqNum := to;
        }
        return;
      }
      if expected.None? || (Says(message, MSG_TYPE, "A") && Says(message, RESET_SEQ_NUM_FLAG, "Y")) {
        expectedReceiveSeqNum := Some(number.value + 1);
        return;
      }
      if number.value == expected.value {
        expectedReceiveSeqNum := Some(number.value + 1);
      } else if number.value > expected.value {
        receiveNumberingFaults := receiveNumberingFaults + [Skipped(number.value, expected.value)];
        expectedReceiveSeqNum := Some(number.value + 1);
      } else if !Says(message, POSS_DUP_FLAG, "Y") {
        receiveNumberingFaults := receiveNumberingFaults + [WentBack(number.value, expected.value)];
      }
    }

    method Receive(arrival: Arrival) returns (given: Given)
      modifies this
      ensures (Abstract(), given) == Received(old(Abstract()), arrival)
    {
      match arrival
      case Timeout =>
        given := Given(pending);
        pending := [];
      case EndOfStream =>
        given := Given(pending);
      case Chunk(bytes) =>
        buffer := buffer + bytes;
        var parsed := ParseMessages(buffer);
        if parsed.Raised? {
          return Failed;
        }
        buffer := parsed.rest;
        ghost var before := Abstract();
        for k := 0 to |parsed.messages|
          invariant buffer == before.buffer && pending == before.pending
          invariant Abstract().numbering == CheckedAll(before.numbering, parsed.messages[..k])
        {
          CheckReceivedNumbering(parsed.messages[k]);
          assert parsed.messages[..k + 1][..k] == parsed.messages[..k];
        }
        assert parsed.messages[..|parsed.messages|] == parsed.messages;
        given := Given(pending + parsed.messages);
        pending := [];
    }

    method FindPending(types: set<string>) returns (k: nat)
      ensures k == FirstWanted(pending, types)
    {
      k := 0;
      while k < |pending| && !Wanted(pending[k], types)
        invariant k <= |pending| && FirstWanted(pending, types) == k + FirstWanted(pending[k..], types)
      {
        assert pending[k..][1..] == pending[k + 1..];
        k := k + 1;
      }
    }

    method ReceiveUntil(types: set<string>, arrivals: seq<Arrival>) returns (answer: Answer)
      modifies this
      ensures (Abstract(), answer) == Awaited(old(Abstract()), types, arrivals)
    {
      var left := arrivals;
      while true
        invariant Awaited(Abstract(), types, left) == Awaited(old(Abstract()), types, arrivals)
        decreases |left|
      {
        var k := FindPending(types);
        if k < |pending| {
          answer := Found(pending[k]);
          pending := Without(pending, k);
          return;
        }
        if left == [] {
          return Silence;
        }
        var arrived := Receive(left[0]);
        if arrived.Failed? {
          return Error;
        }
        pending := pending + arrived.messages;
        left := left[1..];
      }
    }
  }
}
