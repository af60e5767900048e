/**
 * What the handlers of an instance's agent do, as sequences of the system's steps: a tick, a request,
 * a grant and a refusal.  A handler that does just these steps keeps the invariant of every run.
 */
module LeaseHandlers {
  import opened LeaseRules
  import opened Options
  import opened LeaseSystem
  import opened LeaseSafety

  // ---- Several steps of one party --------------------------------------------------------------

  function Onward(c: Setting, p: int, me: Party, step: Step, now: int): Party {
    if Ready(c, p, me, step, now) then Local(c, p, me, step, now) else me
  }

  /** The party after these steps of its own, all at one reading of its clock. */
  function Through(c: Setting, p: int, me: Party, steps: seq<Step>, now: int): Party
    decreases |steps|
  {
    if steps == [] then me else Through(c, p, Onward(c, p, me, steps[0], now), steps[1..], now)
  }

  predicate AllReady(c: Setting, p: int, me: Party, steps: seq<Step>, now: int)
    decreases |steps|
  {
    steps == [] || (Ready(c, p, me, steps[0], now) && AllReady(c, p, Onward(c, p, me, steps[0], now), steps[1..], now))
  }

  predicate AllCareful(c: Setting, p: int, me: Party, steps: seq<Step>, now: int)
    decreases |steps|
  {
    steps == [] || (TakesCare(c, p, me, steps[0], now) && AllCareful(c, p, Onward(c, p, me, steps[0], now), steps[1..], now))
  }

  /** The party did exactly these steps. */
  predicate Did(c: Setting, p: int, was: Party, steps: seq<Step>, now: int, me: Party) {
    AllReady(c, p, was, steps, now) && me == Through(c, p, was, steps, now)
  }

  lemma {:induction false} DidNothing(c: Setting, p: int, me: Party, now: int)
    ensures Did(c, p, me, [], now, me)
  {
  }

  lemma {:induction false} DidOne(c: Setting, p: int, was: Party, step: Step, now: int)
    requires Ready(c, p, was, step, now)
    ensures Did(c, p, was, [step], now, Local(c, p, was, step, now))
  {
    assert [step][1..] == [];
  }

  lemma {:induction false} DidBoth(c: Setting, p: int, was: Party, first: seq<Step>, mid: Party, second: seq<Step>,
                                   now: int, me: Party)
    requires Did(c, p, was, first, now, mid) && Did(c, p, mid, second, now, me)
    ensures Did(c, p, was, first + second, now, me)
    decreases |first|
  {
    if first == [] {
      assert first + second == second;
    } else {
      var next := Onward(c, p, was, first[0], now);
      DidBoth(c, p, next, first[1..], mid, second, now, me);
      assert (first + second)[0] == first[0] && (first + second)[1..] == first[1..] + second;
    }
  }

  // ---- The same steps in the whole system ------------------------------------------------------

  /** A step of `p` that finds whatever message it takes in. */
  predicate Arrived(c: Setting, s: System, p: int, step: Step) {
    !step.Tick? && !step.Restart? && Actor(step) == p && Delivered(c, s, step)
  }

  /** The system after these steps of one party. */
  function After(c: Setting, s: System, steps: seq<Step>): System
    decreases |steps|
  {
    if steps == [] then s
    else if s.parties.Keys == PARTIES && Enabled(c, s, steps[0]) then After(c, Next(c, s, steps[0]), steps[1..])
    else s
  }

  /** `t` comes from `s` by steps of `p` alone, at one instant. */
  predicate OnlyBy(p: int, s: System, t: System) {
    && t.parties.Keys == s.parties.Keys && t.now == s.now
    && (forall q :: q in s.parties && q != p ==> t.parties[q] == s.parties[q])
    && s.requests <= t.requests && s.grants <= t.grants && s.refusals <= t.refusals
  }

  lemma {:induction false} StepOnlyBy(c: Setting, s: System, p: int, step: Step)
    requires s.parties.Keys == PARTIES && Arrived(c, s, p, step) && Enabled(c, s, step)
    ensures OnlyBy(p, s, Next(c, s, step))
    ensures Next(c, s, step).parties[p] == Local(c, p, s.parties[p], step, c.clock(p, s.now))
  {
  }

  lemma {:induction false} StillArrived(c: Setting, s: System, p: int, t: System, step: Step)
    requires OnlyBy(p, s, t) && Arrived(c, s, p, step)
    ensures Arrived(c, t, p, step)
  {
  }

  /**
   * A handler that did these steps took the system from `s` to a state in which its party is as the
   * handler left it and nobody else has moved; and if the record keeping took care, the invariant that
   * excludes two leaders still holds.
   */
  lemma {:induction false} HandlerKeepsInv(c: Setting, s: System, p: int, steps: seq<Step>, me: Party)
    requires c.Sound() && Inv(c, s) && p in PARTIES
    requires Did(c, p, s.parties[p], steps, c.clock(p, s.now), me)
    requires AllCareful(c, p, s.parties[p], steps, c.clock(p, s.now))
    requires forall k :: 0 <= k < |steps| ==> Arrived(c, s, p, steps[k])
    ensures Inv(c, After(c, s, steps)) && OnlyBy(p, s, After(c, s, steps)) && After(c, s, steps).parties[p] == me
    decreases |steps|
  {
    if steps != [] {
      var step, t := steps[0], Next(c, s, steps[0]);
      assert Arrived(c, s, p, step);
      StepKeepsInv(c, s, step);
      StepOnlyBy(c, s, p, step);
      forall k | 0 <= k < |steps[1..]| ensures Arrived(c, t, p, steps[1..][k]) {
        StillArrived(c, s, p, t, steps[k + 1]);
      }
      HandlerKeepsInv(c, t, p, steps[1..], me);
      OnlyByTwice(p, s, t, After(c, t, steps[1..]));
    }
  }

  lemma {:induction false} OnlyByTwice(p: int, s: System, t: System, u: System)
    requires OnlyBy(p, s, t) && OnlyBy(p, t, u)
    ensures OnlyBy(p, s, u)
  {
  }

  // ---- What each handler does ------------------------------------------------------------------

  /** The outcome of the background write is read, if there is one. */
  function AdoptSteps(c: Setting, p: int, me: Party, outcome: Option<bool>): seq<Step> {
    if c.Keeps(p) && me.keeper.inFlight.Some? && outcome.Some? then [Adopt(p)] else []
  }

  /** A request to each of the other two voters, noted as sent `lag` before the clock's reading. */
  function SendSteps(p: int, lag: nat): seq<Step> {
    [Send(p, 3 - p, lag), Send(p, 3, lag)]
  }

  function Adopting(c: Setting, p: int, me: Party, outcome: Option<bool>): Party {
    if c.Keeps(p) && me.keeper.inFlight.Some? && outcome.Some? then me.(keeper := me.keeper.Adopted()) else me
  }

  /** The peer's request, before it is judged: a newer statement it carries is taken in. */
  function HearSteps(me: Party, r: Request): seq<Step> {
    if r.said.Named() && r.said.NewerThan(me.voter.statement) then [Hear(r)] else []
  }

  function Hearing(me: Party, r: Request): Party {
    if r.said.Named() then me.(voter := me.voter.Recorded(r.said)) else me
  }

  /** A request that is to be granted makes the agent read first what has reached the disk. */
  function Considering(c: Setting, p: int, me: Party, r: Request, outcome: Option<bool>, now: int): Party {
    var heard := Hearing(me, r);
    if Yielded(heard, r, now).voter.Judge(r.from, r.epoch, now).Granted? then Adopting(c, p, heard, outcome) else heard
  }

  /** The peer's request: take in its statement, read what is on disk before a grant, and answer. */
  function RequestSteps(c: Setting, p: int, me: Party, r: Request, outcome: Option<bool>, now: int): seq<Step> {
    var heard := Hearing(me, r);
    var adopt := if Considering(c, p, me, r, outcome, now) == heard then [] else [Adopt(p)];
    var write := if GrantsIt(c, p, Considering(c, p, me, r, outcome, now), r, now) && c.Keeps(p) then [WriteStatement(p)] else [];
    HearSteps(me, r) + adopt + [Receive(r)] + write
  }

  /** The party after its agent has handled the peer's request. */
  function RequestHandled(c: Setting, p: int, me: Party, r: Request, outcome: Option<bool>, now: int): Party {
    var ready := Considering(c, p, me, r, outcome, now);
    var answered := Answered(c, p, ready, r, now);
    if GrantsIt(c, p, ready, r, now) && c.Keeps(p) then
      answered.(keeper := answered.keeper.StatementWritten(answered.voter.statement))
    else answered
  }

  lemma {:induction false} RequestDid(c: Setting, p: int, me: Party, r: Request, outcome: Option<bool>, now: int)
    requires me.up
    ensures Did(c, p, me, RequestSteps(c, p, me, r, outcome, now), now, RequestHandled(c, p, me, r, outcome, now))
  {
    var heard, ready := Hearing(me, r), Considering(c, p, me, r, outcome, now);
    var answered, done := Answered(c, p, ready, r, now), RequestHandled(c, p, me, r, outcome, now);
    var adopt := if ready == heard then [] else [Adopt(p)];
    var write := if GrantsIt(c, p, ready, r, now) && c.Keeps(p) then [WriteStatement(p)] else [];
    HearDid(c, p, me, r, now);
    AdoptDid(c, p, heard, ready, now);
    DidOne(c, p, ready, Receive(r), now);
    WriteDid(c, p, answered, write, now, done);
    DidBoth(c, p, me, HearSteps(me, r), heard, adopt, now, ready);
    DidBoth(c, p, me, HearSteps(me, r) + adopt, ready, [Receive(r)], now, answered);
    DidBoth(c, p, me, HearSteps(me, r) + adopt + [Receive(r)], answered, write, now, done);
  }

  lemma {:induction false} HearDid(c: Setting, p: int, me: Party, r: Request, now: int)
    requires me.up
    ensures Did(c, p, me, HearSteps(me, r), now, Hearing(me, r))
  {
    if HearSteps(me, r) == [] {
      DidNothing(c, p, me, now);
    } else {
      DidOne(c, p, me, Hear(r), now);
    }
  }

  lemma {:induction false} AdoptDid(c: Setting, p: int, was: Party, me: Party, now: int)
    requires was.up && (me == was || (was.keeper.inFlight.Some? && me == was.(keeper := was.keeper.Adopted())))
    ensures Did(c, p, was, if me == was then [] else [Adopt(p)], now, me)
  {
    if me == was {
      DidNothing(c, p, me, now);
    } else {
      DidOne(c, p, was, Adopt(p), now);
    }
  }

  lemma {:induction false} WriteDid(c: Setting, p: int, was: Party, write: seq<Step>, now: int, me: Party)
    requires was.up
    requires || (write == [] && me == was)
             || (write == [WriteStatement(p)] && c.Keeps(p) && me == was.(keeper := was.keeper.StatementWritten(was.voter.statement)))
    ensures Did(c, p, was, write, now, me)
  {
    if write == [] {
      DidNothing(c, p, me, now);
    } else {
      DidOne(c, p, was, WriteStatement(p), now);
    }
  }

  // ---- Sending ---------------------------------------------------------------------------------

  function Sending(c: Setting, p: int, me: Party, sentAt: int): Party {
    me.(holder := me.holder.Requested(c.period, 3 - p, sentAt).Requested(c.period, 3, sentAt))
  }

  lemma {:induction false} SendDid(c: Setting, p: int, me: Party, sentAt: int, now: int)
    requires p in {1, 2} && me.up && !me.holder.mode.Idle? && sentAt <= now
    ensures Did(c, p, me, SendSteps(p, now - sentAt), now, Sending(c, p, me, sentAt))
  {
    var first, second := Send(p, 3 - p, now - sentAt), Send(p, 3, now - sentAt);
    var mid := me.(holder := me.holder.Requested(c.period, 3 - p, sentAt));
    DidOne(c, p, me, first, now);
    DidOne(c, p, mid, second, now);
    DidBoth(c, p, me, [first], mid, [second], now, Sending(c, p, me, sentAt));
    assert SendSteps(p, now - sentAt) == [first] + [second];
  }

  // ---- A grant ---------------------------------------------------------------------------------

  function EventOf(c: Setting, me: Party, g: Grant, now: int): Event {
    me.holder.GrantEvent(c.period - c.drift, g.request.to, g.request.id, g.request.epoch, now)
  }

  /** That the instance leads is recorded, once what has reached the disk has been read. */
  function LeadRecordSteps(c: Setting, p: int, me: Party, outcome: Option<bool>): seq<Step> {
    if c.Keeps(p) then AdoptSteps(c, p, me, outcome) + [RecordLeading(p)] else []
  }

  function LeadRecorded(c: Setting, p: int, me: Party, outcome: Option<bool>): Party {
    var ready := Adopting(c, p, me, outcome);
    if c.Keeps(p) then ready.(keeper := ready.keeper.Ensured(p, Latest(me.holder.expiries), me.voter.statement)) else me
  }

  lemma {:induction false} LeadRecordDid(c: Setting, p: int, me: Party, outcome: Option<bool>, now: int)
    requires me.up && me.holder.mode.Leading?
    ensures Did(c, p, me, LeadRecordSteps(c, p, me, outcome), now, LeadRecorded(c, p, me, outcome))
  {
    if c.Keeps(p) {
      var ready := Adopting(c, p, me, outcome);
      AdoptDid(c, p, me, ready, now);
      DidOne(c, p, ready, RecordLeading(p), now);
      DidBoth(c, p, me, AdoptSteps(c, p, me, outcome), ready, [RecordLeading(p)], now, LeadRecorded(c, p, me, outcome));
    } else {
      DidNothing(c, p, me, now);
    }
  }

  /** A grant: a lease taken up or extended is recorded, and a new leader's statement is sent at once. */
  function GrantSteps(c: Setting, p: int, me: Party, g: Grant, outcome: Option<bool>, now: int): seq<Step> {
    var event := EventOf(c, me, g, now);
    if event.Nothing? then [TakeGrant(g)]
    else
      var send := if event.BecameLeader? && !c.says.Silent? then SendSteps(p, 0) else [];
      [TakeGrant(g)] + LeadRecordSteps(c, p, GrantTaken(c, p, me, g, now), outcome) + send
  }

  function GrantHandled(c: Setting, p: int, me: Party, g: Grant, outcome: Option<bool>, now: int): Party {
    var event, taken := EventOf(c, me, g, now), GrantTaken(c, p, me, g, now);
    if event.Nothing? then taken
    else
      var recorded := LeadRecorded(c, p, taken, outcome);
      if event.BecameLeader? && !c.says.Silent? then Sending(c, p, recorded, now) else recorded
  }

  lemma {:induction false} GrantDid(c: Setting, p: int, me: Party, g: Grant, outcome: Option<bool>, now: int)
    requires p in {1, 2} && Ready(c, p, me, TakeGrant(g), now)
    ensures Did(c, p, me, GrantSteps(c, p, me, g, outcome, now), now, GrantHandled(c, p, me, g, outcome, now))
  {
    var event, taken := EventOf(c, me, g, now), GrantTaken(c, p, me, g, now);
    DidOne(c, p, me, TakeGrant(g), now);
    if !event.Nothing? {
      var recorded, record := LeadRecorded(c, p, taken, outcome), LeadRecordSteps(c, p, taken, outcome);
      LeadRecordDid(c, p, taken, outcome, now);
      DidBoth(c, p, me, [TakeGrant(g)], taken, record, now, recorded);
      if event.BecameLeader? && !c.says.Silent? {
        SendDid(c, p, recorded, now, now);
        DidBoth(c, p, me, [TakeGrant(g)] + record, recorded, SendSteps(p, 0), now, Sending(c, p, recorded, now));
      } else {
        assert [TakeGrant(g)] + record + [] == [TakeGrant(g)] + record;
      }
    }
  }

  // ---- A refusal -------------------------------------------------------------------------------

  /**
   * A refusal: when both other voters have refused a candidate because they are promised elsewhere it
   * gives up for a lease period; otherwise only a newer epoch stops it.
   */
  function RefusalStep(c: Setting, p: int, givesUp: bool, f: Refusal, wait: int, now: int): Step {
    if givesUp then Stop(p, now + c.period + wait) else TakeRefusal(f, wait)
  }

  // ---- A tick ----------------------------------------------------------------------------------

  predicate RanOut(me: Party, now: int) {
    me.holder.mode.Leading? && Latest(me.holder.expiries) <= now
  }

  function TickRecordSteps(c: Setting, p: int, me: Party, outcome: Option<bool>): seq<Step> {
    if c.Keeps(p) then AdoptSteps(c, p, me, outcome) + [StartWanted(p)] + [WriteStatement(p)] else []
  }

  function TickRecorded(c: Setting, p: int, me: Party, outcome: Option<bool>): Party {
    var held := me.voter.statement;
    if c.Keeps(p) then me.(keeper := Adopting(c, p, me, outcome).keeper.WantedStarted(held).StatementWritten(held)) else me
  }

  lemma {:induction false} TickRecordDid(c: Setting, p: int, me: Party, outcome: Option<bool>, now: int)
    requires me.up
    ensures Did(c, p, me, TickRecordSteps(c, p, me, outcome), now, TickRecorded(c, p, me, outcome))
  {
    if c.Keeps(p) {
      var ready, adopt := Adopting(c, p, me, outcome), AdoptSteps(c, p, me, outcome);
      var begun := ready.(keeper := ready.keeper.WantedStarted(me.voter.statement));
      AdoptDid(c, p, me, ready, now);
      DidOne(c, p, ready, StartWanted(p), now);
      DidOne(c, p, begun, WriteStatement(p), now);
      DidBoth(c, p, me, adopt, ready, [StartWanted(p)], now, begun);
      DidBoth(c, p, me, adopt + [StartWanted(p)], begun, [WriteStatement(p)], now, TickRecorded(c, p, me, outcome));
    } else {
      DidNothing(c, p, me, now);
    }
  }

  /** Told never to lead, it stops asking; and a lease run out ends its leading. */
  function TickStopSteps(p: int, me: Party, asks: bool, wait: int, now: int): seq<Step> {
    if !asks && me.holder.mode.Candidate? then [Stop(p, now + wait)]
    else if RanOut(me, now) then [Stop(p, me.waitUntil)]
    else []
  }

  /** A leader that acts, and a candidate not yet granted, asks again every renewal interval. */
  function TickSendSteps(c: Setting, p: int, me: Party, lastRenewal: int, now: int): seq<Step> {
    if !me.holder.mode.Idle? && !RanOut(me, now) && now - lastRenewal >= c.renewal then SendSteps(p, 0) else []
  }

  /** A candidate gives up a lease period after it first asked. */
  function TickTireSteps(c: Setting, p: int, me: Party, askedAt: int, wait: int, now: int): seq<Step> {
    if me.holder.mode.Candidate? && now - askedAt > c.period then [Stop(p, now + wait)] else []
  }

  function TickAskSteps(p: int, me: Party, asks: bool, now: int): seq<Step> {
    if asks && me.MayAsk(p, now) then [Ask(p)] else []
  }

  /** What a tick finds besides the party: whether it may ever lead, and when it last sent and first asked. */
  datatype Tempo = Tempo(asks: bool, lastRenewal: int, askedAt: int)

  /** Whether a tick sends requests again: those of a leader that acts, or of a candidate still allowed to ask. */
  predicate Renews(c: Setting, me: Party, tempo: Tempo, now: int) {
    && now - tempo.lastRenewal >= c.renewal
    && ((me.holder.mode.Leading? && !RanOut(me, now)) || (me.holder.mode.Candidate? && tempo.asks))
  }

  /** What a tick does before the instance considers asking to lead. */
  function SettleSteps(c: Setting, p: int, me: Party, tempo: Tempo, outcome: Option<bool>, waits: (int, int),
                       now: int): seq<Step> {
    var record := TickRecordSteps(c, p, me, outcome);
    var recorded := Through(c, p, me, record, now);
    var stop := TickStopSteps(p, recorded, tempo.asks, waits.0, now);
    var stopped := Through(c, p, recorded, stop, now);
    var send := TickSendSteps(c, p, stopped, tempo.lastRenewal, now);
    var sent := Through(c, p, stopped, send, now);
    record + stop + send + TickTireSteps(c, p, sent, tempo.askedAt, waits.1, now)
  }

  function Settled(c: Setting, p: int, me: Party, tempo: Tempo, outcome: Option<bool>, waits: (int, int), now: int): Party {
    Through(c, p, me, SettleSteps(c, p, me, tempo, outcome, waits, now), now)
  }

  /** Everything a tick does before a request to lead is sent. */
  function TickSteps(c: Setting, p: int, me: Party, tempo: Tempo, outcome: Option<bool>, waits: (int, int),
                     now: int): seq<Step> {
    SettleSteps(c, p, me, tempo, outcome, waits, now)
    + TickAskSteps(p, Settled(c, p, me, tempo, outcome, waits, now), tempo.asks, now)
  }

  // ---- A statement -----------------------------------------------------------------------------

  /** A leader changes what it says of its peer, starts writing it, and tells both voters at once. */
  function SaySteps(c: Setting, p: int, me: Party, may: bool, now: int): seq<Step> {
    var write := if c.Keeps(p) then [WriteStatement(p)] else [];
    var send := if RanOut(me, now) then [] else SendSteps(p, 0);
    [Say(p, may)] + write + send
  }

  function SayHandled(c: Setting, p: int, me: Party, may: bool, now: int): Party {
    var saying := Saying(me, may);
    var written := if c.Keeps(p) then saying.(keeper := saying.keeper.StatementWritten(saying.voter.statement)) else saying;
    if RanOut(me, now) then written else Sending(c, p, written, now)
  }

  lemma {:induction false} SayDid(c: Setting, p: int, me: Party, may: bool, now: int)
    requires p in {1, 2} && Ready(c, p, me, Say(p, may), now)
    ensures Did(c, p, me, SaySteps(c, p, me, may, now), now, SayHandled(c, p, me, may, now))
  {
    var saying := Saying(me, may);
    var write := if c.Keeps(p) then [WriteStatement(p)] else [];
    var written := if c.Keeps(p) then saying.(keeper := saying.keeper.StatementWritten(saying.voter.statement)) else saying;
    DidOne(c, p, me, Say(p, may), now);
    WriteDid(c, p, saying, write, now, written);
    DidBoth(c, p, me, [Say(p, may)], saying, write, now, written);
    if RanOut(me, now) {
      assert [Say(p, may)] + write + [] == [Say(p, may)] + write;
    } else {
      SendDid(c, p, written, now, now);
      DidBoth(c, p, me, [Say(p, may)] + write, written, SendSteps(p, 0), now, Sending(c, p, written, now));
    }
  }

  // ---- When the record keeping takes care ------------------------------------------------------

  predicate Harmless(step: Step) {
    !step.Receive? && !step.WriteStatement?
  }

  predicate AllHarmless(steps: seq<Step>) {
    forall k :: 0 <= k < |steps| ==> Harmless(steps[k])
  }

  lemma {:induction false} HarmlessCareful(c: Setting, p: int, me: Party, steps: seq<Step>, now: int)
    requires AllHarmless(steps)
    ensures AllCareful(c, p, me, steps, now)
    decreases |steps|
  {
    if steps != [] {
      assert Harmless(steps[0]);
      HarmlessCareful(c, p, Onward(c, p, me, steps[0], now), steps[1..], now);
    }
  }

  lemma {:induction false} CarefulOne(c: Setting, p: int, me: Party, step: Step, now: int)
    ensures AllCareful(c, p, me, [step], now) <==> TakesCare(c, p, me, step, now)
  {
    assert [step][1..] == [];
  }

  lemma {:induction false} CarefulBoth(c: Setting, p: int, me: Party, first: seq<Step>, second: seq<Step>, now: int)
    ensures AllCareful(c, p, me, first + second, now)
            <==> AllCareful(c, p, me, first, now) && AllCareful(c, p, Through(c, p, me, first, now), second, now)
    decreases |first|
  {
    if first == [] {
      assert first + second == second;
    } else {
      CarefulBoth(c, p, Onward(c, p, me, first[0], now), first[1..], second, now);
      assert (first + second)[0] == first[0] && (first + second)[1..] == first[1..] + second;
    }
  }

  /**
   * Handling a request takes care, and so keeps the invariant, exactly when a grant it sends is one that
   * no write still on its way would forget.
   */
  lemma {:induction false} RequestCarefulExactlyWhen(c: Setting, p: int, me: Party, r: Request,
                                        outcome: Option<bool>, now: int)
    requires me.up
    ensures var ready := Considering(c, p, me, r, outcome, now);
      AllCareful(c, p, me, RequestSteps(c, p, me, r, outcome, now), now)
      <==> (c.Keeps(p) && GrantsIt(c, p, ready, r, now) ==> ready.keeper.PendingCovers(r.from, now + c.period))
  {
    var heard, ready := Hearing(me, r), Considering(c, p, me, r, outcome, now);
    var adopt := if ready == heard then [] else [Adopt(p)];
    var write := if GrantsIt(c, p, ready, r, now) && c.Keeps(p) then [WriteStatement(p)] else [];
    HearDid(c, p, me, r, now);
    AdoptDid(c, p, heard, ready, now);
    DidBoth(c, p, me, HearSteps(me, r), heard, adopt, now, ready);
    HarmlessCareful(c, p, me, HearSteps(me, r) + adopt, now);
    CarefulOne(c, p, ready, Receive(r), now);
    CarefulBoth(c, p, me, HearSteps(me, r) + adopt, [Receive(r)], now);
    DidOne(c, p, ready, Receive(r), now);
    DidBoth(c, p, me, HearSteps(me, r) + adopt, ready, [Receive(r)], now, Answered(c, p, ready, r, now));
    CarefulOne(c, p, Answered(c, p, ready, r, now), WriteStatement(p), now);
    CarefulBoth(c, p, me, HearSteps(me, r) + adopt + [Receive(r)], write, now);
  }

  /** A tick takes care exactly when it does not start writing a statement while the instance waits. */
  lemma {:induction false} TickCarefulExactlyWhen(c: Setting, p: int, me: Party, tempo: Tempo, outcome: Option<bool>,
                                        waits: (int, int), now: int)
    requires me.up
    ensures var k := Adopting(c, p, me, outcome).keeper.WantedStarted(me.voter.statement);
      AllCareful(c, p, me, TickSteps(c, p, me, tempo, outcome, waits, now), now)
      <==> (c.Keeps(p) && me.voter.Restarting(now) ==> k.StatementWritten(me.voter.statement) == k)
  {
    var record := TickRecordSteps(c, p, me, outcome);
    var rest := RestOfTick(c, p, me, tempo, outcome, waits, now, record, Through(c, p, me, record, now));
    HarmlessCareful(c, p, Through(c, p, me, record, now), rest, now);
    CarefulBoth(c, p, me, record, rest, now);
    TickRecordCareful(c, p, me, outcome, now);
  }

  lemma {:induction false} RestOfTick(c: Setting, p: int, me: Party, tempo: Tempo, outcome: Option<bool>,
                                      waits: (int, int), now: int,
                                      record: seq<Step>, recorded: Party)
    returns (rest: seq<Step>)
    requires record == TickRecordSteps(c, p, me, outcome) && recorded == Through(c, p, me, record, now)
    ensures TickSteps(c, p, me, tempo, outcome, waits, now) == record + rest && AllHarmless(rest)
  {
    var stop := TickStopSteps(p, recorded, tempo.asks, waits.0, now);
    var stopped := Through(c, p, recorded, stop, now);
    var send := TickSendSteps(c, p, stopped, tempo.lastRenewal, now);
    var tire := TickTireSteps(c, p, Through(c, p, stopped, send, now), tempo.askedAt, waits.1, now);
    var ask := TickAskSteps(p, Settled(c, p, me, tempo, outcome, waits, now), tempo.asks, now);
    rest := stop + send + tire + ask;
    assert AllHarmless(stop) && AllHarmless(send) && AllHarmless(tire) && AllHarmless(ask);
    HarmlessTogether(record, stop, send, tire, ask);
  }

  lemma {:induction false} HarmlessTogether(record: seq<Step>, stop: seq<Step>, send: seq<Step>, tire: seq<Step>,
                                        ask: seq<Step>)
    requires AllHarmless(stop) && AllHarmless(send) && AllHarmless(tire) && AllHarmless(ask)
    ensures AllHarmless(stop + send + tire + ask)
    ensures record + stop + send + tire + ask == record + (stop + send + tire + ask)
  {
  }

  lemma {:induction false} TickRecordCareful(c: Setting, p: int, me: Party, outcome: Option<bool>, now: int)
    requires me.up
    ensures var k := Adopting(c, p, me, outcome).keeper.WantedStarted(me.voter.statement);
      AllCareful(c, p, me, TickRecordSteps(c, p, me, outcome), now)
      <==> (c.Keeps(p) && me.voter.Restarting(now) ==> k.StatementWritten(me.voter.statement) == k)
  {
    if c.Keeps(p) {
      var ready, adopt := Adopting(c, p, me, outcome), AdoptSteps(c, p, me, outcome);
      var begun := ready.(keeper := ready.keeper.WantedStarted(me.voter.statement));
      AdoptDid(c, p, me, ready, now);
      DidOne(c, p, ready, StartWanted(p), now);
      DidBoth(c, p, me, adopt, ready, [StartWanted(p)], now, begun);
      HarmlessCareful(c, p, me, adopt + [StartWanted(p)], now);
      CarefulOne(c, p, begun, WriteStatement(p), now);
      CarefulBoth(c, p, me, adopt + [StartWanted(p)], [WriteStatement(p)], now);
    }
  }

  /** Handling a grant or a refusal always takes care. */
  lemma {:induction false} GrantAndRefusalCareful(c: Setting, p: int, me: Party, g: Grant, f: Refusal, givesUp: bool,
                                        wait: int,
                                                  outcome: Option<bool>, now: int)
    ensures AllCareful(c, p, me, GrantSteps(c, p, me, g, outcome, now), now)
    ensures AllCareful(c, p, me, [RefusalStep(c, p, givesUp, f, wait, now)], now)
  {
    HarmlessCareful(c, p, me, GrantSteps(c, p, me, g, outcome, now), now);
    HarmlessCareful(c, p, me, [RefusalStep(c, p, givesUp, f, wait, now)], now);
  }
}
