/**
 * Over whole runs of the client: every message read is handed over once or still waits, unless the stream
 * ended with messages waiting; and the numbering check accounts for every number the venue used.
 */
module FixClientTheorems {
  import opened Options
  import opened FixWire
  import opened FixClient

  // ---- Following each message ------------------------------------------------------------------

  /** What the client does, the search of a wait and its reads taken as separate steps. */
  datatype Step = Connect | Take(arrival: Arrival) | Gather(arrival: Arrival) | Pick(types: set<string>)

  /** The client beside a record: every message read so far, and which of them wait or were handed over. */
  datatype Tracked = Tracked(state: State, arrived: seq<Message>, waiting: seq<nat>, handed: seq<nat>) {
    ghost predicate Labelled() {
      && |waiting| == |state.pending|
      && (forall k :: 0 <= k < |waiting| ==> waiting[k] < |arrived| && state.pending[k] == arrived[waiting[k]])
      && (forall k :: 0 <= k < |handed| ==> handed[k] < |arrived|)
    }

    function Labels(): multiset<nat> { multiset(waiting) + multiset(handed) }
  }

  function Numbers(lo: nat, n: nat): (s: seq<nat>)
    ensures |s| == n && forall k :: 0 <= k < n ==> s[k] == lo + k
  {
    seq(n, k => lo + k)
  }

  /** The messages a read completes. */
  function News(s: State, arrival: Arrival): seq<Message> {
    if arrival.Chunk? && Parse(s.buffer + arrival.bytes).Parsed? then Parse(s.buffer + arrival.bytes).messages else []
  }

  function Next(t: Tracked, step: Step): Tracked {
    match step
    case Connect => t.(state := Connected(t.state))
    case Take(arrival) =>
      var (after, given) := Received(t.state, arrival);
      var news := News(t.state, arrival);
      if given.Failed? then t.(state := after)
      else Tracked(after, t.arrived + news, if arrival.EndOfStream? then t.waiting else [],
                   t.handed + (t.waiting + Numbers(|t.arrived|, |news|)))
    case Gather(arrival) =>
      var (after, fine) := Gathered(t.state, arrival);
      var news := News(t.state, arrival);
      if !fine then t.(state := after)
      else Tracked(after, t.arrived + news,
                   (if arrival.EndOfStream? then t.waiting else []) + (t.waiting + Numbers(|t.arrived|, |news|)), t.handed)
    case Pick(types) =>
      var k := FirstWanted(t.state.pending, types);
      if k < |t.state.pending| && k < |t.waiting| then
        Tracked(t.state.(pending := Without(t.state.pending, k)), t.arrived, Without(t.waiting, k), t.handed + [t.waiting[k]])
      else t
  }

  /** What the caller is given by a step. */
  function GivenBy(t: Tracked, step: Step): seq<Message> {
    match step
    case Connect => []
    case Take(arrival) => (match Received(t.state, arrival).1 case Failed => [] case Given(messages) => messages)
    case Gather(_) => []
    case Pick(types) =>
      var k := FirstWanted(t.state.pending, types);
      if k < |t.state.pending| then [t.state.pending[k]] else []
  }

  /** The messages standing at these places of the record. */
  ghost predicate At(messages: seq<Message>, arrived: seq<Message>, places: seq<nat>) {
    |messages| == |places| && forall k :: 0 <= k < |places| ==> places[k] < |arrived| && messages[k] == arrived[places[k]]
  }

  lemma {:induction false} NewsAt(pending: seq<Message>, arrived: seq<Message>, waiting: seq<nat>, news: seq<Message>)
    requires At(pending, arrived, waiting)
    ensures At(pending + news, arrived + news, waiting + Numbers(|arrived|, |news|))
    ensures At(pending, arrived + news, waiting)
  {
    var places := waiting + Numbers(|arrived|, |news|);
    forall k | 0 <= k < |places|
      ensures places[k] < |arrived + news| && (pending + news)[k] == (arrived + news)[places[k]]
    {
      assert k >= |waiting| ==> places[k] == |arrived| + (k - |waiting|);
    }
  }

  lemma {:induction false} AtTwice(messages: seq<Message>, arrived: seq<Message>, places: seq<nat>)
    requires At(messages, arrived, places)
    ensures At(messages + messages, arrived, places + places)
  {
  }

  ghost predicate KeepsLabels(t: Tracked, step: Step, next: Tracked) {
    && next.Labelled()
    && t.handed <= next.handed && t.arrived <= next.arrived
    && At(GivenBy(t, step), next.arrived, next.handed[|t.handed|..])
  }

  lemma {:induction false} HandedOn(before: seq<nat>, arrived: seq<Message>, news: seq<Message>, messages: seq<Message>, places: seq<nat>)
    requires forall k :: 0 <= k < |before| ==> before[k] < |arrived|
    requires At(messages, arrived + news, places)
    ensures (before + places)[|before|..] == places
    ensures forall k :: 0 <= k < |before + places| ==> (before + places)[k] < |arrived + news|
  {
  }

  lemma {:induction false} TakeKeepsLabels(t: Tracked, arrival: Arrival)
    requires t.Labelled()
    ensures KeepsLabels(t, Take(arrival), Next(t, Take(arrival)))
  {
    var news := News(t.state, arrival);
    assert At(t.state.pending, t.arrived, t.waiting);
    NewsAt(t.state.pending, t.arrived, t.waiting, news);
    var messages, places := t.state.pending + news, t.waiting + Numbers(|t.arrived|, |news|);
    HandedOn(t.handed, t.arrived, news, messages, places);
    assert Received(t.state, arrival).1.Given? ==> GivenBy(t, Take(arrival)) == messages;
  }

  lemma {:induction false} GatherKeepsLabels(t: Tracked, arrival: Arrival)
    requires t.Labelled()
    ensures KeepsLabels(t, Gather(arrival), Next(t, Gather(arrival)))
  {
    var news := News(t.state, arrival);
    assert At(t.state.pending, t.arrived, t.waiting);
    NewsAt(t.state.pending, t.arrived, t.waiting, news);
    var messages, places := t.state.pending + news, t.waiting + Numbers(|t.arrived|, |news|);
    AtTwice(messages, t.arrived + news, places);
    var (after, fine) := Gathered(t.state, arrival);
    if fine && arrival.EndOfStream? {
      assert messages == t.state.pending && places == t.waiting;
      assert after.pending == messages + messages;
    } else if fine {
      assert after.pending == [] + messages == messages;
      assert [] + places == places;
    }
  }

  lemma {:induction false} PickKeepsLabels(t: Tracked, types: set<string>)
    requires t.Labelled()
    ensures KeepsLabels(t, Pick(types), Next(t, Pick(types)))
  {
  }

  /** The record stays true of the client, and names exactly the messages a step hands over. */
  lemma {:induction false} StepKeepsLabels(t: Tracked, step: Step)
    requires t.Labelled()
    ensures KeepsLabels(t, step, Next(t, step))
  {
    match step
    case Connect =>
    case Take(arrival) => TakeKeepsLabels(t, arrival);
    case Gather(arrival) => GatherKeepsLabels(t, arrival);
    case Pick(types) => PickKeepsLabels(t, types);
  }

  /** What a step adds beyond the new messages: a read at the end of the stream repeats all that wait. */
  function Repeated(t: Tracked, step: Step): multiset<nat> {
    if MeetsEnd(step) then multiset(t.waiting) else multiset{}
  }

  predicate MeetsEnd(step: Step) {
    (step.Take? || step.Gather?) && step.arrival.EndOfStream?
  }

  function Added(t: Tracked, step: Step): seq<nat> {
    var more := |Next(t, step).arrived| - |t.arrived|;
    Numbers(|t.arrived|, if more < 0 then 0 else more)
  }

  lemma {:induction false} WithoutLabels(s: seq<nat>, k: nat)
    requires k < |s|
    ensures multiset(Without(s, k)) + multiset{s[k]} == multiset(s)
  {
    assert s == s[..k] + [s[k]] + s[k + 1..];
  }

  lemma {:induction false} TakeBalances(t: Tracked, arrival: Arrival)
    requires t.Labelled()
    ensures Next(t, Take(arrival)).Labels() == t.Labels() + multiset(Added(t, Take(arrival))) + Repeated(t, Take(arrival))
  {
    if Received(t.state, arrival).1.Given? {
      assert Added(t, Take(arrival)) == Numbers(|t.arrived|, |News(t.state, arrival)|);
    } else {
      assert Added(t, Take(arrival)) == [];
    }
  }

  lemma {:induction false} GatherBalances(t: Tracked, arrival: Arrival)
    requires t.Labelled()
    ensures Next(t, Gather(arrival)).Labels() == t.Labels() + multiset(Added(t, Gather(arrival))) + Repeated(t, Gather(arrival))
  {
    if Gathered(t.state, arrival).1 {
      assert Added(t, Gather(arrival)) == Numbers(|t.arrived|, |News(t.state, arrival)|);
    } else {
      assert Added(t, Gather(arrival)) == [];
    }
  }

  lemma {:induction false} PickBalances(t: Tracked, types: set<string>)
    requires t.Labelled()
    ensures Next(t, Pick(types)).Labels() == t.Labels() && Added(t, Pick(types)) == []
  {
    var k := FirstWanted(t.state.pending, types);
    if k < |t.waiting| {
      WithoutLabels(t.waiting, k);
    }
  }

  /** One step's balance. */
  lemma {:induction false} StepBalances(t: Tracked, step: Step)
    requires t.Labelled()
    ensures Next(t, step).Labels() == t.Labels() + multiset(Added(t, step)) + Repeated(t, step)
  {
    match step
    case Connect => assert Added(t, step) == [];
    case Take(arrival) => TakeBalances(t, arrival);
    case Gather(arrival) => GatherBalances(t, arrival);
    case Pick(types) => PickBalances(t, types);
  }

  function Ran(t: Tracked, steps: seq<Step>): Tracked
    decreases |steps|
  {
    if steps == [] then t else Ran(Next(t, steps[0]), steps[1..])
  }

  function RepeatedBy(t: Tracked, steps: seq<Step>): multiset<nat>
    decreases |steps|
  {
    if steps == [] then multiset{} else Repeated(t, steps[0]) + RepeatedBy(Next(t, steps[0]), steps[1..])
  }

  lemma {:induction false} NumbersJoin(lo: nat, a: nat, b: nat)
    ensures Numbers(lo, a) + Numbers(lo + a, b) == Numbers(lo, a + b)
  {
  }

  /** The new messages are labelled once each, and the repeated ones once more. */
  ghost predicate Balanced(t: Tracked, end: Tracked, repeated: multiset<nat>) {
    |t.arrived| <= |end.arrived| && Adds(t.Labels(), |t.arrived|, end.Labels(), |end.arrived|, repeated)
  }

  /** What is labelled grows by the numbers from `lo` to `hi` and by those repeated. */
  ghost predicate Adds(before: multiset<nat>, lo: nat, after: multiset<nat>, hi: nat, repeated: multiset<nat>)
    requires lo <= hi
  {
    after == before + multiset(Numbers(lo, hi - lo)) + repeated
  }

  lemma {:induction false} BalancedOn(t: Tracked, middle: Tracked, end: Tracked, first: multiset<nat>, rest: multiset<nat>)
    requires Balanced(t, middle, first) && Balanced(middle, end, rest)
    ensures Balanced(t, end, first + rest)
  {
    AddsOn(t.Labels(), |t.arrived|, middle.Labels(), |middle.arrived|, end.Labels(), |end.arrived|, first, rest);
  }

  lemma {:induction false} AddsOn(t: multiset<nat>, lo: nat, middle: multiset<nat>, mid: nat, end: multiset<nat>, hi: nat,
                                  first: multiset<nat>, rest: multiset<nat>)
    requires lo <= mid <= hi && Adds(t, lo, middle, mid, first) && Adds(middle, mid, end, hi, rest)
    ensures Adds(t, lo, end, hi, first + rest)
  {
    var a, b := mid - lo, hi - mid;
    NumbersJoin(lo, a, b);
    JoinedNumbers(Numbers(lo, a), Numbers(mid, b), Numbers(lo, a + b));
    Summed(t, middle, end, multiset(Numbers(lo, a)), multiset(Numbers(mid, b)), first, rest);
  }

  lemma {:induction false} JoinedNumbers(a: seq<nat>, b: seq<nat>, all: seq<nat>)
    requires all == a + b
    ensures multiset(all) == multiset(a) + multiset(b)
  {
  }

  lemma {:induction false} Summed(t: multiset<nat>, middle: multiset<nat>, end: multiset<nat>, a: multiset<nat>, b: multiset<nat>,
               first: multiset<nat>, rest: multiset<nat>)
    requires middle == t + a + first && end == middle + b + rest
    ensures end == t + (a + b) + (first + rest)
  {
  }

  lemma {:induction false} StepBalanced(t: Tracked, step: Step)
    requires t.Labelled()
    ensures Next(t, step).Labelled() && Balanced(t, Next(t, step), Repeated(t, step))
  {
    StepKeepsLabels(t, step);
    StepBalances(t, step);
    AddedBalances(t, Next(t, step), Added(t, step), Repeated(t, step));
  }

  lemma {:induction false} AddedBalances(t: Tracked, next: Tracked, added: seq<nat>, repeated: multiset<nat>)
    requires |t.arrived| <= |next.arrived| && added == Numbers(|t.arrived|, |next.arrived| - |t.arrived|)
    requires next.Labels() == t.Labels() + multiset(added) + repeated
    ensures Balanced(t, next, repeated)
  {
  }

  /** Over a run: every message read is labelled once, and once more for each time it was repeated. */
  lemma {:induction false} RunBalances(t: Tracked, steps: seq<Step>)
    requires t.Labelled()
    ensures Ran(t, steps).Labelled() && Balanced(t, Ran(t, steps), RepeatedBy(t, steps))
    decreases |steps|
  {
    if steps == [] {
      assert Numbers(|t.arrived|, 0) == [];
    } else {
      StepBalanced(t, steps[0]);
      RunBalances(Next(t, steps[0]), steps[1..]);
      BalancedOn(t, Next(t, steps[0]), Ran(t, steps), Repeated(t, steps[0]), RepeatedBy(Next(t, steps[0]), steps[1..]));
    }
  }

  /** No read of the run met the end of the stream while messages were waiting. */
  predicate Calm(t: Tracked, steps: seq<Step>)
    decreases |steps|
  {
    steps != [] ==>
      && (MeetsEnd(steps[0]) ==> t.state.pending == [])
      && Calm(Next(t, steps[0]), steps[1..])
  }

  lemma {:induction false} RepeatsNothingExactlyWhenCalm(t: Tracked, steps: seq<Step>)
    requires t.Labelled()
    ensures RepeatedBy(t, steps) == multiset{} <==> Calm(t, steps)
    decreases |steps|
  {
    if steps != [] {
      StepKeepsLabels(t, steps[0]);
      RepeatsNothingExactlyWhenCalm(Next(t, steps[0]), steps[1..]);
      assert |multiset(t.waiting)| == |t.waiting|;
      assert |RepeatedBy(t, steps)| == |Repeated(t, steps[0])| + |RepeatedBy(Next(t, steps[0]), steps[1..])|;
    }
  }

  const START := Tracked(State("", [], Numbering(None, [])), [], [], [])

  /** Every message read stands exactly once among those waiting and those handed over. */
  ghost predicate EachOnce(t: Tracked) {
    t.Labels() == multiset(Numbers(0, |t.arrived|))
  }

  /** Of all runs, those that keep each message exactly once are those never ended with messages waiting. */
  lemma {:induction false} EachOnceExactlyWhenCalm(steps: seq<Step>)
    ensures EachOnce(Ran(START, steps)) <==> Calm(START, steps)
  {
    RunBalances(START, steps);
    RepeatsNothingExactlyWhenCalm(START, steps);
    var end := Ran(START, steps);
    assert START.Labels() == multiset{};
    assert |end.Labels()| == |multiset(Numbers(0, |end.arrived|))| + |RepeatedBy(START, steps)|;
  }

  ghost predicate Rising(s: seq<nat>, below: nat) {
    && (forall k :: 0 <= k < |s| ==> s[k] < below)
    && forall j, k :: 0 <= j < k < |s| ==> s[j] < s[k]
  }

  lemma {:induction false} WithoutRising(s: seq<nat>, below: nat, k: nat)
    requires Rising(s, below) && k < |s|
    ensures Rising(Without(s, k), below)
  {
  }

  lemma {:induction false} GatherKeepsOrder(t: Tracked, arrival: Arrival)
    requires t.Labelled() && Rising(t.waiting, |t.arrived|)
    requires arrival.EndOfStream? ==> t.waiting == []
    ensures Rising(Next(t, Gather(arrival)).waiting, |Next(t, Gather(arrival)).arrived|)
  {
    GatheredIs(t, arrival);
    RisingExtended(t.waiting, |t.arrived|, |News(t.state, arrival)|);
  }

  lemma {:induction false} GatheredIs(t: Tracked, arrival: Arrival)
    requires arrival.EndOfStream? ==> t.waiting == []
    ensures var next, news := Next(t, Gather(arrival)), News(t.state, arrival);
      || (next.waiting == t.waiting && next.arrived == t.arrived)
      || (next.waiting == t.waiting + Numbers(|t.arrived|, |news|) && next.arrived == t.arrived + news)
  {
    var places := t.waiting + Numbers(|t.arrived|, |News(t.state, arrival)|);
    assert [] + places == places;
  }

  lemma {:induction false} StepKeepsOrder(t: Tracked, step: Step)
    requires t.Labelled() && Rising(t.waiting, |t.arrived|)
    requires MeetsEnd(step) ==> t.state.pending == []
    ensures Rising(Next(t, step).waiting, |Next(t, step).arrived|)
  {
    match step
    case Connect =>
    case Take(arrival) =>
    case Gather(arrival) => GatherKeepsOrder(t, arrival);
    case Pick(types) =>
      var k := FirstWanted(t.state.pending, types);
      if k < |t.waiting| {
        WithoutRising(t.waiting, |t.arrived|, k);
      }
  }

  lemma {:induction false} RisingExtended(s: seq<nat>, below: nat, n: nat)
    requires Rising(s, below)
    ensures Rising(s + Numbers(below, n), below + n)
  {
  }

  /** In a calm run what waits stands in the order it was read. */
  lemma {:induction false} WaitingInOrder(t: Tracked, steps: seq<Step>)
    requires t.Labelled() && Rising(t.waiting, |t.arrived|) && Calm(t, steps)
    ensures Rising(Ran(t, steps).waiting, |Ran(t, steps).arrived|)
    decreases |steps|
  {
    if steps != [] {
      StepKeepsLabels(t, steps[0]);
      StepKeepsOrder(t, steps[0]);
      WaitingInOrder(Next(t, steps[0]), steps[1..]);
    }
  }

  // ---- A wait is such a run --------------------------------------------------------------------

  function WaitSteps(s: State, types: set<string>, arrivals: seq<Arrival>): seq<Step>
    decreases |arrivals|
  {
    if FirstWanted(s.pending, types) < |s.pending| || arrivals == [] then [Pick(types)]
    else
      var (after, fine) := Gathered(s, arrivals[0]);
      [Pick(types), Gather(arrivals[0])] + if fine then WaitSteps(after, types, arrivals[1..]) else []
  }

  /** Waiting is picking and gathering in turn; its answer is the one message it hands over, if any. */
  lemma {:induction false} WaitIsRun(t: Tracked, types: set<string>, arrivals: seq<Arrival>)
    requires t.Labelled()
    ensures var end := Ran(t, WaitSteps(t.state, types, arrivals));
      && end.Labelled()
      && (end.state, Awaited(t.state, types, arrivals).1) == Awaited(t.state, types, arrivals)
      && match Awaited(t.state, types, arrivals).1
         case Found(message) => exists n: nat :: n < |end.arrived| && end.handed == t.handed + [n] && end.arrived[n] == message
         case _ => end.handed == t.handed
    decreases |arrivals|
  {
    var picked := Next(t, Pick(types));
    StepKeepsLabels(t, Pick(types));
    var k := FirstWanted(t.state.pending, types);
    if k < |t.state.pending| || arrivals == [] {
      assert Ran(t, [Pick(types)]) == Ran(picked, []);
      if k < |t.state.pending| {
        assert picked.handed == t.handed + [t.waiting[k]];
      }
    } else {
      var gathered := Next(t, Gather(arrivals[0]));
      StepKeepsLabels(t, Gather(arrivals[0]));
      var rest := if Gathered(t.state, arrivals[0]).1 then WaitSteps(gathered.state, types, arrivals[1..]) else [];
      var steps := [Pick(types), Gather(arrivals[0])] + rest;
      assert steps[1..][1..] == rest;
      assert Ran(t, steps) == Ran(gathered, rest);
      WaitIsRun(gathered, types, arrivals[1..]);
    }
  }

  // ---- At the end of the stream ----------------------------------------------------------------

  function Power(n: nat): nat { if n == 0 then 1 else 2 * Power(n - 1) }

  /** A read at the end of the stream, nothing wanted being there, puts everything back twice. */
  lemma {:induction false} EndRead(s: State, types: set<string>, arrivals: seq<Arrival>)
    requires FirstWanted(s.pending, types) == |s.pending|
    requires arrivals != [] && arrivals[0] == EndOfStream
    ensures Awaited(s, types, arrivals) == Awaited(s.(pending := s.pending + s.pending), types, arrivals[1..])
    ensures FirstWanted(s.pending + s.pending, types) == |s.pending + s.pending|
  {
  }

  function Copied<T>(s: seq<T>, times: nat): seq<T>
    decreases times
  {
    if times == 0 then s else Copied(s + s, times - 1)
  }

  lemma {:induction false} CopiedLength<T>(s: seq<T>, times: nat)
    ensures |Copied(s, times)| == Power(times) * |s|
    decreases times
  {
    if times > 0 {
      CopiedLength(s + s, times - 1);
      Doubled(Power(times - 1), |s|);
    }
  }

  lemma {:induction false} Doubled(a: nat, b: nat)
    ensures (2 * a) * b == a * (b + b)
  {
  }

  /** Waiting on an ended stream for what has not come doubles what waits with every read. */
  lemma {:induction false} EndedStreamDoubles(s: State, types: set<string>, arrivals: seq<Arrival>)
    requires FirstWanted(s.pending, types) == |s.pending|
    requires forall k :: 0 <= k < |arrivals| ==> arrivals[k] == EndOfStream
    ensures Awaited(s, types, arrivals) == (s.(pending := Copied(s.pending, |arrivals|)), Silence)
    decreases |arrivals|
  {
    if arrivals != [] {
      EndRead(s, types, arrivals);
      EndedStreamDoubles(s.(pending := s.pending + s.pending), types, arrivals[1..]);
    }
  }

  lemma {:induction false} EndedStreamGrows(s: State, types: set<string>, arrivals: seq<Arrival>)
    requires FirstWanted(s.pending, types) == |s.pending|
    requires forall k :: 0 <= k < |arrivals| ==> arrivals[k] == EndOfStream
    ensures |Awaited(s, types, arrivals).0.pending| == Power(|arrivals|) * |s.pending|
  {
    EndedStreamDoubles(s, types, arrivals);
    CopiedLength(s.pending, |arrivals|);
  }

  // ---- Numbering -------------------------------------------------------------------------------

  /** A numbered message that does not itself move the numbering. */
  predicate Plain(message: Message) {
    && NumberIn(message, MSG_SEQ_NUM).Some?
    && !Says(message, MSG_TYPE, "4")
    && !(Says(message, MSG_TYPE, "A") && Says(message, RESET_SEQ_NUM_FLAG, "Y"))
  }

  predicate AllPlain(messages: seq<Message>) {
    forall k :: 0 <= k < |messages| ==> Plain(messages[k])
  }

  function Number(message: Message): int
    requires Plain(message)
  {
    NumberIn(message, MSG_SEQ_NUM).value
  }

  /** What the check sees of a plain message. */
  datatype Item = Item(number: int, resent: bool)

  datatype Count = Count(expected: int, faults: seq<Fault>)

  function Items(messages: seq<Message>): (items: seq<Item>)
    requires AllPlain(messages)
    ensures |items| == |messages|
    ensures forall k :: 0 <= k < |items| ==> items[k] == Item(Number(messages[k]), Says(messages[k], POSS_DUP_FLAG, "Y"))
  {
    seq(|messages|, k requires 0 <= k < |messages| => Item(Number(messages[k]), Says(messages[k], POSS_DUP_FLAG, "Y")))
  }

  function Noted(c: Count, item: Item): Count {
    if item.number == c.expected then c.(expected := item.number + 1)
    else if item.number > c.expected then Count(item.number + 1, c.faults + [Skipped(item.number, c.expected)])
    else if !item.resent then c.(faults := c.faults + [WentBack(item.number, c.expected)])
    else c
  }

  function NotedAll(c: Count, items: seq<Item>): Count {
    if items == [] then c else Noted(NotedAll(c, items[..|items| - 1]), items[|items| - 1])
  }

  lemma {:induction false} PlainChecked(c: Count, message: Message)
    requires Plain(message)
    ensures var next := Noted(c, Item(Number(message), Says(message, POSS_DUP_FLAG, "Y")));
      Checked(Numbering(Some(c.expected), c.faults), message) == Numbering(Some(next.expected), next.faults)
  {
  }

  lemma {:induction false} PlainCheckedAll(c: Count, messages: seq<Message>)
    requires AllPlain(messages)
    ensures var next := NotedAll(c, Items(messages));
      CheckedAll(Numbering(Some(c.expected), c.faults), messages) == Numbering(Some(next.expected), next.faults)
  {
    if messages != [] {
      var m := |messages| - 1;
      assert AllPlain(messages[..m]);
      PlainCheckedAll(c, messages[..m]);
      assert Items(messages)[..m] == Items(messages[..m]);
      PlainChecked(NotedAll(c, Items(messages[..m])), messages[m]);
    }
  }

  lemma {:induction false} ExpectedIsNext(c: Count, items: seq<Item>)
    ensures var next := NotedAll(c, items).expected;
      && c.expected <= next
      && (forall k :: 0 <= k < |items| ==> items[k].number < next)
      && (next == c.expected || exists k :: 0 <= k < |items| && items[k].number + 1 == next)
    ensures c.faults <= NotedAll(c, items).faults
  {
    if items != [] {
      var m := |items| - 1;
      ExpectedIsNext(c, items[..m]);
      var before := NotedAll(c, items[..m]).expected;
      if before != c.expected {
        var k :| 0 <= k < m && items[..m][k].number + 1 == before;
        assert items[k] == items[..m][k];
      }
      assert forall k :: 0 <= k < m ==> items[k] == items[..m][k];
      assert items[m].number == items[|items| - 1].number;
    }
  }

  /** The message at `k` came in its place or ahead of it, with this number. */
  predicate CameAt(c: Count, items: seq<Item>, k: nat, n: int)
    requires k < |items|
  {
    items[k].number == n && n >= NotedAll(c, items[..k]).expected
  }

  ghost predicate CameForward(c: Count, items: seq<Item>, n: int) {
    exists k :: 0 <= k < |items| && CameAt(c, items, k, n)
  }

  /** A fault recorded from `from` on reports the number as missing. */
  ghost predicate ReportedMissing(faults: seq<Fault>, from: nat, n: int) {
    exists k :: from <= k < |faults| && faults[k].Skipped? && faults[k].expected <= n < faults[k].number
  }

  lemma {:induction false} CameForwardStep(c: Count, items: seq<Item>, n: int)
    requires items != []
    ensures CameForward(c, items, n) <==>
      CameForward(c, items[..|items| - 1], n) || CameAt(c, items, |items| - 1, n)
  {
    var m := |items| - 1;
    forall k | 0 <= k < m ensures CameAt(c, items[..m], k, n) == CameAt(c, items, k, n) {
      assert items[..m][..k] == items[..k];
    }
    if CameForward(c, items[..m], n) {
      var k :| 0 <= k < m && CameAt(c, items[..m], k, n);
      assert CameAt(c, items, k, n);
    }
    if CameForward(c, items, n) {
      var k :| 0 <= k < |items| && CameAt(c, items, k, n);
      assert k < m ==> CameAt(c, items[..m], k, n);
    }
  }

  lemma {:induction false} MissingStep(faults: seq<Fault>, fault: Fault, from: nat, n: int)
    requires from <= |faults|
    ensures ReportedMissing(faults + [fault], from, n)
       <==> ReportedMissing(faults, from, n) || (fault.Skipped? && fault.expected <= n < fault.number)
  {
    var after := faults + [fault];
    if k :| from <= k < |faults| && faults[k].Skipped? && faults[k].expected <= n < faults[k].number {
      assert after[k] == faults[k];
    }
    if fault.Skipped? && fault.expected <= n < fault.number {
      assert after[|faults|] == fault;
    }
  }

  lemma {:induction false} ItemsAccountedFor(c: Count, items: seq<Item>, n: int)
    ensures var after := NotedAll(c, items);
      && (c.expected <= n < after.expected
          <==> (CameForward(c, items, n) || ReportedMissing(after.faults, |c.faults|, n)))
      && !(CameForward(c, items, n) && ReportedMissing(after.faults, |c.faults|, n))
  {
    if items != [] {
      var m := |items| - 1;
      ItemsAccountedFor(c, items[..m], n);
      ExpectedIsNext(c, items[..m]);
      CameForwardStep(c, items, n);
      var before := NotedAll(c, items[..m]);
      MissingStep(before.faults, Skipped(items[m].number, before.expected), |c.faults|, n);
      MissingStep(before.faults, WentBack(items[m].number, before.expected), |c.faults|, n);
    }
  }

  /**
   * Every number from the one first expected up to the one now expected either came forward with a
   * message or is reported missing, and never both; no other number does either.
   */
  lemma {:induction false} NumbersAccountedFor(e: int, faults: seq<Fault>, messages: seq<Message>, n: int)
    requires AllPlain(messages)
    ensures var after := CheckedAll(Numbering(Some(e), faults), messages);
      var came := CameForward(Count(e, faults), Items(messages), n);
      var missing := ReportedMissing(after.faults, |faults|, n);
      after.expected.Some? && (e <= n < after.expected.value <==> came || missing) && !(came && missing)
  {
    PlainCheckedAll(Count(e, faults), messages);
    ItemsAccountedFor(Count(e, faults), Items(messages), n);
  }

  /** Without a report of missing messages, every number up to the highest came. */
  lemma {:induction false} NothingMissing(e: int, messages: seq<Message>, n: int)
    requires AllPlain(messages)
    requires forall f :: f in CheckedAll(Numbering(Some(e), []), messages).faults ==> !f.Skipped?
    requires e <= n && exists k :: 0 <= k < |messages| && n <= Number(messages[k])
    ensures exists k :: 0 <= k < |messages| && Number(messages[k]) == n
  {
    var items := Items(messages);
    PlainCheckedAll(Count(e, []), messages);
    NumbersAccountedFor(e, [], messages, n);
    ExpectedIsNext(Count(e, []), items);
    var j :| 0 <= j < |messages| && n <= Number(messages[j]);
    assert n <= items[j].number;
    NoneSkipped(CheckedAll(Numbering(Some(e), []), messages).faults, n);
    var k :| 0 <= k < |items| && CameAt(Count(e, []), items, k, n);
    assert Number(messages[k]) == n;
  }

  lemma {:induction false} NoneSkipped(faults: seq<Fault>, n: int)
    requires forall f :: f in faults ==> !f.Skipped?
    ensures !ReportedMissing(faults, 0, n)
  {
  }

  /** How many of the messages came exactly in their place, counted without the check. */
  function InPlace(e: int, items: seq<Item>): nat {
    if items == [] then 0
    else
      var before := InPlace(e, items[..|items| - 1]);
      if items[|items| - 1].number == e + before then before + 1 else before
  }

  /** The message at `k` is the next in line, or repeats one already in and says so. */
  predicate OrderlyAt(e: int, items: seq<Item>, k: nat)
    requires k < |items|
  {
    var next := e + InPlace(e, items[..k]);
    items[k].number == next || (items[k].number < next && items[k].resent)
  }

  ghost predicate Orderly(e: int, items: seq<Item>) {
    forall k :: 0 <= k < |items| ==> OrderlyAt(e, items, k)
  }

  lemma {:induction false} OrderlyStep(e: int, items: seq<Item>)
    requires items != []
    ensures Orderly(e, items) <==> Orderly(e, items[..|items| - 1]) && OrderlyAt(e, items, |items| - 1)
  {
    var m := |items| - 1;
    forall k | 0 <= k < m ensures OrderlyAt(e, items, k) == OrderlyAt(e, items[..m], k) {
      assert items[..m][..k] == items[..k];
    }
  }

  lemma {:induction false} ItemsFaultless(e: int, faults: seq<Fault>, items: seq<Item>)
    ensures var after := NotedAll(Count(e, faults), items);
      && (after.faults == faults <==> Orderly(e, items))
      && (after.faults == faults ==> after.expected == e + InPlace(e, items))
  {
    if items != [] {
      var m := |items| - 1;
      ItemsFaultless(e, faults, items[..m]);
      ExpectedIsNext(Count(e, faults), items[..m]);
      OrderlyStep(e, items);
      var before := NotedAll(Count(e, faults), items[..m]);
      assert |Noted(before, items[m]).faults| >= |before.faults|;
    }
  }

  /** The check finds no fault exactly in orderly runs, and then expects the number after the last in line. */
  lemma {:induction false} FaultlessExactlyWhenOrderly(e: int, faults: seq<Fault>, messages: seq<Message>)
    requires AllPlain(messages)
    ensures var after := CheckedAll(Numbering(Some(e), faults), messages);
      && (after.faults == faults <==> Orderly(e, Items(messages)))
      && (after.faults == faults ==> after.expected == Some(e + InPlace(e, Items(messages))))
  {
    var items := Items(messages);
    PlainCheckedAll(Count(e, faults), messages);
    ItemsFaultless(e, faults, items);
  }

  // ---- From the first message of a connection --------------------------------------------------

  /** The first number of a connection sets what is expected, whatever it is. */
  lemma {:induction false} FirstNumberSets(faults: seq<Fault>, messages: seq<Message>)
    requires messages != [] && AllPlain(messages)
    ensures CheckedAll(Numbering(None, faults), messages)
         == CheckedAll(Numbering(Some(Number(messages[0]) + 1), faults), messages[1..])
  {
    assert Plain(messages[0]);
    FirstSets(faults, messages[0]);
    CheckedFirst(Numbering(None, faults), messages, messages[1..]);
  }

  /** The first message is checked first. */
  lemma {:induction false} CheckedFirst(n: Numbering, messages: seq<Message>, rest: seq<Message>)
    requires messages != [] && rest == messages[1..]
    ensures CheckedAll(n, messages) == CheckedAll(Checked(n, messages[0]), rest)
    decreases |messages|
  {
    var m := |messages| - 1;
    CheckedLast(n, messages, messages[..m], messages[m]);
    if m == 0 {
      assert messages[..0] == [];
    } else {
      CheckedFirst(n, messages[..m], messages[..m][1..]);
      assert messages[..m][1..] == rest[..m - 1];
      CheckedLast(Checked(n, messages[0]), rest, rest[..m - 1], messages[m]);
    }
  }

  lemma {:induction false} FirstSets(faults: seq<Fault>, message: Message)
    requires Plain(message)
    ensures Checked(Numbering(None, faults), message) == Numbering(Some(Number(message) + 1), faults)
  {
  }

  lemma {:induction false} CheckedLast(n: Numbering, messages: seq<Message>, before: seq<Message>, last: Message)
    requires messages != [] && before == messages[..|messages| - 1] && last == messages[|messages| - 1]
    ensures CheckedAll(n, messages) == Checked(CheckedAll(n, before), last)
  {
  }

  /** How many messages came in their place or ahead of it. */
  function Advancing(c: Count, items: seq<Item>): nat {
    if items == [] then 0
    else
      var m := |items| - 1;
      Advancing(c, items[..m]) + if items[m].number >= NotedAll(c, items[..m]).expected then 1 else 0
  }

  /** How many numbers the faults report as never arrived. */
  function Missing(faults: seq<Fault>): int {
    if faults == [] then 0
    else
      var m := |faults| - 1;
      Missing(faults[..m]) + if faults[m].Skipped? then faults[m].number - faults[m].expected else 0
  }

  lemma {:induction false} OneMoreMissing(faults: seq<Fault>, fault: Fault)
    ensures Missing(faults + [fault]) == Missing(faults) + if fault.Skipped? then fault.number - fault.expected else 0
  {
    assert (faults + [fault])[..|faults|] == faults;
  }

  lemma {:induction false} DistanceConserved(c: Count, items: seq<Item>)
    ensures NotedAll(c, items).expected - c.expected
         == Advancing(c, items) + Missing(NotedAll(c, items).faults) - Missing(c.faults)
  {
    if items != [] {
      var m := |items| - 1;
      DistanceConserved(c, items[..m]);
      var before := NotedAll(c, items[..m]);
      OneMoreMissing(before.faults, Skipped(items[m].number, before.expected));
      OneMoreMissing(before.faults, WentBack(items[m].number, before.expected));
    }
  }

  /**
   * Over a connection the number expected is one more than the largest received, and lies as far beyond
   * the first as messages came forward and numbers are reported missing.
   */
  lemma {:induction false} ConnectionExpects(messages: seq<Message>)
    requires messages != [] && AllPlain(messages)
    ensures var after := CheckedAll(Numbering(None, []), messages);
      && after.expected.Some?
      && (forall k :: 0 <= k < |messages| ==> Number(messages[k]) < after.expected.value)
      && (exists k :: 0 <= k < |messages| && Number(messages[k]) + 1 == after.expected.value)
      && after.expected.value - (Number(messages[0]) + 1)
         == Advancing(Count(Number(messages[0]) + 1, []), Items(messages[1..])) + Missing(after.faults)
  {
    var rest, c := messages[1..], Count(Number(messages[0]) + 1, []);
    assert AllPlain(rest);
    FirstNumberSets([], messages);
    PlainCheckedAll(c, rest);
    ExpectedIsNext(c, Items(rest));
    DistanceConserved(c, Items(rest));
    LargestPlusOne(messages, NotedAll(c, Items(rest)).expected);
  }

  lemma {:induction false} LargestPlusOne(messages: seq<Message>, next: int)
    requires messages != [] && AllPlain(messages) && Number(messages[0]) + 1 <= next
    requires var items := Items(messages[1..]);
      && (forall k :: 0 <= k < |items| ==> items[k].number < next)
      && (next == Number(messages[0]) + 1 || exists k :: 0 <= k < |items| && items[k].number + 1 == next)
    ensures forall k :: 0 <= k < |messages| ==> Number(messages[k]) < next
    ensures exists k :: 0 <= k < |messages| && Number(messages[k]) + 1 == next
  {
    var items := Items(messages[1..]);
    forall k | 0 <= k < |messages| ensures Number(messages[k]) < next {
      if k > 0 {
        assert items[k - 1].number == Number(messages[k]);
      }
    }
    if next != Number(messages[0]) + 1 {
      var k :| 0 <= k < |items| && items[k].number + 1 == next;
      assert items[k].number == Number(messages[k + 1]);
    }
  }

  /** The number expected falls exactly when a reset or a resetting logon names a lower one: no flag or fault guards it. */
  lemma {:induction false} ExpectedFallsExactlyWhen(n: Numbering, message: Message)
    requires n.expected.Some?
    ensures Checked(n, message).expected.Some?
    ensures Checked(n, message).expected.value < n.expected.value <==>
      && NumberIn(message, MSG_SEQ_NUM).Some?
      && if Says(message, MSG_TYPE, "4") then
           NumberIn(message, NEW_SEQ_NO).Some? && NumberIn(message, NEW_SEQ_NO).value < n.expected.value
         else Says(message, MSG_TYPE, "A") && Says(message, RESET_SEQ_NUM_FLAG, "Y")
              && NumberIn(message, MSG_SEQ_NUM).value + 1 < n.expected.value
  {
  }
}
