/**
 * The agent of one instance of a pair, which drives its participant and its record from ticks and
 * messages.  Each handler is proved to do exactly the steps LeaseHandlers gives it, no more and no
 * fewer, so what is proved of every run of the system is proved of these objects.
 */
module LeaseAgent {
  import opened LeaseRules
  import opened LeaseRecord
  import opened Options
  import opened LeaseSystem
  import opened LeaseObjects
  import opened LeaseHandlers

  /** Why a voter refused, as far as the agent acts on it. */
  datatype Reason = PromisedElsewhere | Otherwise

  /** Which of the other two voters have refused the present candidacy because they are promised elsewhere. */
  datatype Refusers = Refusers(peer: bool, third: bool) {
    function Noting(mode: Mode, voter: int, reason: Reason): Refusers {
      if !reason.PromisedElsewhere? || !mode.Candidate? then this
      else if voter == 3 then this.(third := true)
      else this.(peer := true)
    }

    predicate GivesUp(mode: Mode) {
      peer && third && mode.Candidate?
    }
  }

  const NO_REFUSERS := Refusers(false, false)

  /** Every lease held, and every request not yet answered, is of one of the three voters. */
  predicate KnownVoters(h: Holder) {
    h.expiries.Keys <= PARTIES && forall id :: id in h.outstanding ==> h.outstanding[id].voter in PARTIES
  }

  lemma {:induction false} GrantKeepsKnown(h: Holder, term: int, voter: int, id: int, epoch: int, now: int)
    requires KnownVoters(h)
    ensures KnownVoters(h.AfterGrant(term, voter, id, epoch, now))
  {
  }

  /** The party once its voter has decided a request, before any record of it is made. */
  function Judged(c: Setting, me: Party, r: Request, now: int): Party {
    var v := Yielded(me, r, now);
    v.(voter := v.voter.Considered(c.period, r.from, r.epoch, now))
  }

  /** What is done to the record after the vote amounts to the whole of handling the request. */
  lemma {:induction false} HandledIs(c: Setting, p: int, was: Party, judged: Party, r: Request,
                                     outcome: Option<bool>, now: int, granted: bool)
    requires var heard := Hearing(was, r); judged == Judged(c, heard, r, now)
    requires var expires, held := now + c.period, judged.voter.statement;
      granted == (&& Yielded(Hearing(was, r), r, now).voter.Judge(r.from, r.epoch, now).Granted?
                  && (c.Keeps(p) ==> Adopting(c, p, judged, outcome).keeper.PromiseRecorded(r.from, expires)))
    ensures granted == GrantsIt(c, p, Considering(c, p, was, r, outcome, now), r, now)
    ensures var k, expires, held := Adopting(c, p, judged, outcome).keeper, now + c.period, judged.voter.statement;
      RequestHandled(c, p, was, r, outcome, now) ==
        if !c.Keeps(p) || !Yielded(Hearing(was, r), r, now).voter.Judge(r.from, r.epoch, now).Granted? then judged
        else if granted then judged.(keeper := k.Ensured(r.from, expires, held).StatementWritten(held))
        else judged.(keeper := k.Ensured(r.from, expires, held))
  {
  }

  class PairLeaseAgent {
    ghost const c: Setting
    ghost const process: nat
    ghost const bootEpoch: int
    const self: int
    const period: int
    const renewal: int
    const participant: LeaseParticipant
    const record: RecordKeeper
    var keeps: bool
    var asksToLead: bool
    var lastRenewal: int
    var askedAt: int
    var refusers: Refusers
    var resumingLeadUntil: int

    /** The objects fit together, and every lease held or asked for is of one of the three voters. */
    ghost predicate Formed()
      reads this, participant, participant.voter, participant.holder, record
    {
      && participant.Valid() && participant.self == self && participant.says == c.says
      && period == c.period == participant.voter.period && participant.holder.drift == c.drift
      && renewal == c.renewal
      && KnownVoters(participant.holder.Value())
      && (participant.holder.mode.Leading? && !c.says.Silent? ==> participant.said.Named())
    }

    /** Formed, with its record attached if its owner can keep one. */
    ghost predicate Valid()
      reads this, participant, participant.voter, participant.holder, record
    {
      Formed() && keeps == c.Keeps(self)
    }

    ghost function Value(): Party
      reads this, participant, participant.voter, participant.holder, record
    {
      participant.Value().(process := process, bootEpoch := bootEpoch, keeper := record.Value())
    }

    /** A process starts: it knows an epoch, and leaves the primary a head start if it is the secondary. */
    constructor (ghost c: Setting, self: int, period: int, drift: int, renewal: int, says: Says,
                 startedAt: int, epoch: int, ghost before: Party)
      requires 1 <= self <= 2 && 0 < period && 0 <= drift < period && 0 <= epoch
      requires c.period == period && c.drift == drift && c.renewal == renewal && c.says == says
      ensures Formed() && !keeps && asksToLead && this.c == c && this.self == self && bootEpoch == epoch
      ensures lastRenewal == askedAt == resumingLeadUntil == 0 && refusers == NO_REFUSERS
      ensures fresh(participant) && fresh(participant.voter) && fresh(participant.holder) && fresh(record)
      ensures Value() == Restarted(c.(keepsRecord := false), self, before, false, epoch, NO_STATEMENT, startedAt)
    {
      this.c, this.process, this.bootEpoch := c, before.process + 1, epoch;
      this.self, this.period, this.renewal := self, period, renewal;
      participant := new LeaseParticipant(self, period, drift, startedAt, epoch, says);
      record := new RecordKeeper();
      keeps, asksToLead, lastRenewal, askedAt, refusers, resumingLeadUntil := false, true, 0, 0, NO_REFUSERS, 0;
      new;
      if self > 3 - self {
        participant.Stop(startedAt, period + renewal);
      }
    }

    /**
     * The record is attached straight after the process starts: what it promised before is taken back,
     * except a vote it gave itself, and without a record it waits as any voter that has forgotten must.
     */
    method KeepPromisesIn(kept: Option<Promise>, said: Statement, now: int, ghost before: Party, ghost lost: bool)
      requires Formed() && !keeps && c.Keeps(self) && kept == if lost then None else before.keeper.disk
      requires Value() == Restarted(c.(keepsRecord := false), self, before, false, bootEpoch, NO_STATEMENT, now)
      modifies this`keeps, this`resumingLeadUntil, participant, participant.voter, participant.holder, record
      ensures Valid()
      ensures Value() == Restarted(c, self, before, lost, bootEpoch, said, now)
      ensures resumingLeadUntil ==
        if kept.Some? && kept.value.to == self && now < kept.value.until then kept.value.until else old(resumingLeadUntil)
    {
      keeps := true;
      participant.voter.RestoreStatement(said);
      record.TakeBack(kept, said);
      if kept.None? {
        return;
      }
      var wasLeading := kept.value.to == self && kept.value.until > now;
      if wasLeading {
        participant.voter.ResumeWithKeptPromise(0, now, now);
        participant.Stop(now, 0);
        resumingLeadUntil := kept.value.until;
      } else {
        participant.voter.ResumeWithKeptPromise(kept.value.to, kept.value.until, now);
      }
    }

    // ---- Sending -----------------------------------------------------------------------------

    /** A request to the peer and one to the third voter, both noted as sent at `sentAt`. */
    method AskVoters(sentAt: int, ghost now: int) returns (toPeer: int, toThird: int, said: Statement)
      requires Valid() && !participant.holder.mode.Idle? && sentAt <= now
      modifies participant.holder
      ensures Valid() && Did(c, self, old(Value()), SendSteps(self, now - sentAt), now, Value())
      ensures toPeer == old(participant.holder.lastRequestId) + 1
        && toThird == toPeer + 1 == participant.holder.lastRequestId
      ensures said == Sent(self, 3, Value(), 0).said
    {
      ghost var was := Value();
      toPeer, toThird, said := Ask(sentAt);
      SendDid(c, self, was, sentAt, now);
    }

    method Ask(sentAt: int) returns (toPeer: int, toThird: int, said: Statement)
      requires Valid()
      modifies participant.holder
      ensures Valid() && Value() == Sending(c, self, old(Value()), sentAt)
      ensures toPeer == old(participant.holder.lastRequestId) + 1
        && toThird == toPeer + 1 == participant.holder.lastRequestId
      ensures said == Sent(self, 3, Value(), 0).said
    {
      toPeer := participant.holder.RecordRequest(3 - self, sentAt);
      toThird := participant.holder.RecordRequest(3, sentAt);
      said := if participant.holder.mode.Leading? then participant.said else NO_STATEMENT;
    }

    // ---- Messages ----------------------------------------------------------------------------

    /**
     * The peer asks for a lease.  A grant the record on disk does not cover is refused, and the record
     * that covers it started; the number echoed is that of the peer's statement if it is the one held.
     */
    method OnRequest(r: Request, outcome: Option<bool>, now: int) returns (granted: bool, highest: int, echoed: int)
      requires Valid() && (r.said.leader == 0 || r.said.Named()) && record.Reports(outcome)
      modifies participant.voter, participant.holder, record
      ensures Valid() && Did(c, self, old(Value()), RequestSteps(c, self, old(Value()), r, outcome, now), now, Value())
      ensures granted == GrantsIt(c, self, Considering(c, self, old(Value()), r, outcome, now), r, now)
      ensures highest == participant.voter.highestEpoch
      ensures granted ==> echoed == if r.said.Named()
        && participant.voter.statement.SameAs(r.said) then r.said.number else 0
    {
      ghost var was := Value();
      granted, highest, echoed := Answer(r, outcome, now);
      RequestDid(c, self, was, r, outcome, now);
    }

    method Answer(r: Request, outcome: Option<bool>, now: int) returns (granted: bool, highest: int, echoed: int)
      requires Valid() && (r.said.leader == 0 || r.said.Named()) && record.Reports(outcome)
      modifies participant.voter, participant.holder, record
      ensures Valid() && Value() == RequestHandled(c, self, old(Value()), r, outcome, now)
      ensures granted == GrantsIt(c, self, Considering(c, self, old(Value()), r, outcome, now), r, now)
      ensures highest == participant.voter.highestEpoch
      ensures granted ==> echoed == if r.said.Named()
        && participant.voter.statement.SameAs(r.said) then r.said.number else 0
    {
      ghost var was := Value();
      TakeIn(r);
      var verdict := Judge(r, now);
      ghost var judged := Value();
      highest, granted, echoed := participant.voter.highestEpoch, verdict.Granted?, 0;
      if granted {
        if r.said.leader != 0 {
          participant.voter.RecordStatement(r.said);
          echoed := if participant.voter.statement.SameAs(r.said) then r.said.number else 0;
          assert Value() == judged;
        }
        granted := Covered(r.from, outcome);
      }
      HandledIs(c, self, was, judged, r, outcome, now, granted);
    }

    method TakeIn(r: Request)
      requires Valid() && (r.said.leader == 0 || r.said.Named())
      modifies participant.voter
      ensures Valid() && Value() == Hearing(old(Value()), r)
      ensures r.said.Named() ==> !r.said.NewerThan(participant.voter.statement)
    {
      if r.said.leader != 0 && r.said.NewerThan(participant.voter.statement) {
        participant.voter.RecordStatement(r.said);
      }
    }

    method Judge(r: Request, now: int) returns (verdict: Verdict)
      requires Valid()
      modifies participant.voter, participant.holder
      ensures Valid() && verdict == Yielded(old(Value()), r, now).voter.Judge(r.from, r.epoch, now)
      ensures Value() == Judged(c, old(Value()), r, now)
    {
      var highest, gaveUp;
      verdict, highest, gaveUp := participant.OnPeerRequest(r, now);
    }

    /** Whether the record covers the promise just made; a statement not yet on disk is then written too. */
    method Covered(to: int, outcome: Option<bool>) returns (covered: bool)
      requires Valid() && record.Reports(outcome)
      modifies record
      ensures Valid()
      ensures var k := Adopting(c, self, old(Value()), outcome).keeper;
        var expires, held := participant.voter.promiseExpires, participant.voter.statement;
        && covered == (c.Keeps(self) ==> k.PromiseRecorded(to, expires))
        && Value() == old(Value()).(keeper :=
             if !c.Keeps(self) then k
             else if covered then k.Ensured(to, expires, held).StatementWritten(held)
             else k.Ensured(to, expires, held))
    {
      if !keeps {
        return true;
      }
      covered := record.Ensure(to, participant.voter.promiseExpires, outcome, participant.voter.statement);
      if covered {
        record.WriteStatementIfNeeded(participant.voter.statement);
      }
    }

    /** While it leads, the instance records that its vote is promised to itself until its lease runs out. */
    method RecordLeading(outcome: Option<bool>)
      requires Valid() && participant.holder.mode.Leading? && record.Reports(outcome)
      modifies record
      ensures Valid() && Value() == LeadRecorded(c, self, old(Value()), outcome)
    {
      if !keeps {
        return;
      }
      var latest := participant.holder.LeaseExpiresAt();
      LatestIs(participant.holder.expiries, latest);
      var _ := record.Ensure(self, latest, outcome, participant.voter.statement);
    }

    /** A voter granted one of this instance's requests. */
    method OnGrant(g: Grant, outcome: Option<bool>, now: int) returns (becameLeader: bool)
      requires Valid() && record.Reports(outcome) && (c.staleLinks || g.request.process == process)
      modifies this`lastRenewal, this`resumingLeadUntil, participant, participant.voter, participant.holder, record
      ensures Valid() && Did(c, self, old(Value()), GrantSteps(c, self, old(Value()), g, outcome, now), now, Value())
      ensures becameLeader == EventOf(c, old(Value()), g, now).BecameLeader?
      ensures lastRenewal == (if becameLeader && !c.says.Silent? then now else old(lastRenewal))
      ensures resumingLeadUntil == (if becameLeader then 0 else old(resumingLeadUntil))
    {
      ghost var was := Value();
      becameLeader := TakeUp(g, outcome, now);
      GrantDid(c, self, was, g, outcome, now);
    }

    method TakeUp(g: Grant, outcome: Option<bool>, now: int) returns (becameLeader: bool)
      requires Valid() && record.Reports(outcome)
      modifies this`lastRenewal, this`resumingLeadUntil, participant, participant.voter, participant.holder, record
      ensures Valid() && Value() == GrantHandled(c, self, old(Value()), g, outcome, now)
      ensures becameLeader == EventOf(c, old(Value()), g, now).BecameLeader?
      ensures lastRenewal == (if becameLeader && !c.says.Silent? then now else old(lastRenewal))
      ensures resumingLeadUntil == (if becameLeader then 0 else old(resumingLeadUntil))
    {
      ghost var was := Value();
      var r := g.request;
      GrantKeepsKnown(participant.holder.Value(), c.period - c.drift, r.to, r.id, r.epoch, now);
      var event := participant.OnGrant(c, g, now);
      ghost var taken := GrantTaken(c, self, was, g, now);
      assert Value() == taken;
      if event.LeaseExtended? {
        RecordLeading(outcome);
      }
      if !event.BecameLeader? {
        return false;
      }
      resumingLeadUntil := 0;
      RecordLeading(outcome);
      if participant.said.leader != 0 {
        lastRenewal := now;
        var _, _, _ := Ask(now);
      }
      return true;
    }

    /** A voter refused one of this instance's requests. */
    method OnRefusal(f: Refusal, reason: Reason, now: int, random: int) returns (stoppedLeading: bool)
      requires Valid()
      modifies this`refusers, participant, participant.voter, participant.holder
      ensures Valid()
      ensures var mode, wait := old(Value()).holder.mode, if now < resumingLeadUntil then 0 else random;
        var noted := old(refusers).Noting(mode, f.request.to, reason);
        && Did(c, self, old(Value()), [RefusalStep(c, self, noted.GivesUp(mode), f, wait, now)], now, Value())
        && refusers == (if noted.GivesUp(mode) then NO_REFUSERS else noted)
      ensures stoppedLeading == (old(Value()).holder.mode.Leading? && Value().holder.mode.Idle?)
    {
      ghost var was := Value();
      var wait := if now < resumingLeadUntil then 0 else random;
      refusers := refusers.Noting(participant.holder.mode, f.request.to, reason);
      ghost var step := RefusalStep(c, self, refusers.GivesUp(participant.holder.mode), f, wait, now);
      stoppedLeading := GiveWay(f, now, wait);
      DidOne(c, self, was, step, now);
    }

    method GiveWay(f: Refusal, now: int, wait: int) returns (stoppedLeading: bool)
      requires Valid()
      modifies this`refusers, participant, participant.voter, participant.holder
      ensures Valid()
      ensures var mode := old(Value()).holder.mode;
        && Value() == (if old(refusers).GivesUp(mode) then old(Value()).GaveUp().(waitUntil := now + c.period + wait)
                       else RefusalTaken(old(Value()), f, wait, now))
        && refusers == (if old(refusers).GivesUp(mode) then NO_REFUSERS else old(refusers))
      ensures stoppedLeading == (old(Value()).holder.mode.Leading? && Value().holder.mode.Idle?)
    {
      var wasLeading := participant.holder.mode.Leading?;
      if refusers.peer && refusers.third && participant.holder.mode.Candidate? {
        refusers := NO_REFUSERS;
        participant.Stop(now, period + wait);
        return false;
      }
      var event := participant.OnRefusal(f, now, wait);
      return event.NewerEpochKnown? && wasLeading;
    }

    /** A leader says whether its peer may lead, which is written and sent to both voters at once. */
    method SayPeerMayLead(may: bool, now: int)
      requires Valid() && 0 <= now && participant.holder.mode.Leading? && !c.says.Silent?
      modifies this`lastRenewal, participant, participant.voter, participant.holder, record
      ensures Valid() && Did(c, self, old(Value()), SaySteps(c, self, old(Value()), may, now), now, Value())
      ensures lastRenewal == if RanOut(old(Value()), now) then old(lastRenewal) else now
    {
      ghost var was := Value();
      Say(may, now);
      SayDid(c, self, was, may, now);
    }

    method Say(may: bool, now: int)
      requires Valid() && 0 <= now && participant.holder.mode.Leading? && !c.says.Silent?
      modifies this`lastRenewal, participant, participant.voter, participant.holder, record
      ensures Valid() && Value() == SayHandled(c, self, old(Value()), may, now)
      ensures lastRenewal == if RanOut(old(Value()), now) then old(lastRenewal) else now
    {
      participant.SayPeerMayLead(may);
      assert Value() == Saying(old(Value()), may);
      if keeps {
        record.WriteStatementIfNeeded(participant.voter.statement);
      }
      RanOutIs(participant.holder.expiries, now);
      var acting := participant.holder.Acting(now);
      if acting {
        lastRenewal := now;
        var _, _, _ := Ask(now);
      }
    }

    // ---- Ticks -------------------------------------------------------------------------------

    /**
     * A tick: what has reached the disk is read and what is wanted there started; leading or asking ends
     * when it should; requests are sent again when they are due; and the instance asks to lead when it
     * may.  Its epoch is written before the request is sent, which takes `writing`, and the lease is
     * counted from when that is done; `after` is the clock's reading when the request is sent.
     */
    method OnTick(outcome: Option<bool>, now: int, waits: (int, int), writing: nat, ghost after: int)
      returns (stoppedLeading: bool, asked: Option<int>)
      requires Valid() && record.Reports(outcome) && 0 <= now && now + writing <= after
      requires participant.voter.highestEpoch <= MAX_EPOCH - 2 * EPOCH_STRIDE
      modifies this, participant, participant.voter, participant.holder, record
      ensures Valid()
      ensures var tempo := Tempo(old(asksToLead), old(lastRenewal), old(askedAt));
        var steps := TickSteps(c, self, old(Value()), tempo, outcome, waits, now);
        var ticked := Through(c, self, old(Value()), steps, now);
        && AllReady(c, self, old(Value()), steps, now)
        && asked.Some? == (tempo.asks && Settled(c, self, old(Value()), tempo, outcome, waits, now).MayAsk(self, now))
        && (asked.None? ==> Value() == ticked)
        && (asked.Some? ==> Did(c, self, ticked, SendSteps(self, after - now - writing), after, Value()))
        && (asked.Some? ==> asked.value == ticked.holder.epoch)
        && stoppedLeading == RanOut(old(Value()), now)
        && lastRenewal == (if asked.Some? then now + writing else if Renews(c, old(Value()), tempo, now) then now else old(lastRenewal))
      ensures askedAt == (if asked.Some? then now + writing else old(askedAt))
      ensures refusers == (if asked.Some? then NO_REFUSERS else old(refusers))
      ensures asksToLead == old(asksToLead) && keeps == old(keeps) && resumingLeadUntil == old(resumingLeadUntil)
    {
      stoppedLeading := Settle(outcome, now, waits);
      ghost var settled := Value();
      asked := TickAsk(now);
      SettledDid(c, self, old(Value()), Tempo(old(asksToLead), old(lastRenewal), old(askedAt)), outcome, waits, now, settled, Value());
      if asked.Some? {
        askedAt, lastRenewal, refusers := now + writing, now + writing, NO_REFUSERS;
        var _, _, _ := AskVoters(now + writing, after);
      }
    }

    method Settle(outcome: Option<bool>, now: int, waits: (int, int)) returns (stoppedLeading: bool)
      requires Valid() && record.Reports(outcome) && 0 <= now
      modifies this`lastRenewal, participant, participant.voter, participant.holder, record
      ensures Valid() && participant.voter.highestEpoch == old(participant.voter.highestEpoch)
      ensures var tempo := Tempo(asksToLead, old(lastRenewal), askedAt);
        && Did(c, self, old(Value()), SettleSteps(c, self, old(Value()), tempo, outcome, waits, now), now, Value())
        && stoppedLeading == RanOut(old(Value()), now)
        && lastRenewal == if Renews(c, old(Value()), tempo, now) then now else old(lastRenewal)
    {
      ghost var tempo := Tempo(asksToLead, lastRenewal, askedAt);
      TickRecord(outcome, now);
      ghost var recorded := Value();
      stoppedLeading := TickStop(now, waits.0);
      ghost var stopped := Value();
      TickSend(now);
      ghost var sent := Value();
      TickTire(now, waits.1);
      SettleDid(c, self, tempo, outcome, waits, now, old(Value()), recorded, stopped, sent, Value());
    }

    method TickRecord(outcome: Option<bool>, ghost now: int)
      requires Valid() && record.Reports(outcome)
      modifies record
      ensures Valid() && Did(c, self, old(Value()), TickRecordSteps(c, self, old(Value()), outcome), now, Value())
    {
      ghost var was := Value();
      if keeps {
        record.AdoptBackgroundRecord(outcome);
        record.StartWantedRecord(participant.voter.statement);
        record.WriteStatementIfNeeded(participant.voter.statement);
      }
      TickRecordDid(c, self, was, outcome, now);
    }

    method TickStop(now: int, wait: int) returns (stoppedLeading: bool)
      requires Valid() && 0 <= now
      modifies participant, participant.voter, participant.holder
      ensures Valid() && Did(c, self, old(Value()), TickStopSteps(self, old(Value()), asksToLead, wait, now), now, Value())
      ensures stoppedLeading == RanOut(old(Value()), now)
      ensures Value() == Stopping(old(Value()), asksToLead, wait, now)
      ensures participant.voter.highestEpoch == old(participant.voter.highestEpoch)
    {
      ghost var was := Value();
      if !asksToLead && participant.holder.mode.Candidate? {
        participant.Stop(now, wait);
      }
      RanOutIs(was.holder.expiries, now);
      stoppedLeading := participant.StopIfLeaseRanOut(now);
      StopDid(c, self, was, asksToLead, wait, now);
    }

    method TickSend(now: int)
      requires Valid() && 0 <= now
      modifies this`lastRenewal, participant.holder
      ensures Valid()
        && Did(c, self, old(Value()), TickSendSteps(c, self, old(Value()), old(lastRenewal), now), now, Value())
      ensures lastRenewal == if TickSendSteps(c, self, old(Value()), old(lastRenewal), now) != [] then now else old(lastRenewal)
    {
      RanOutIs(participant.holder.expiries, now);
      var acting := participant.holder.Acting(now);
      if (acting || participant.holder.mode.Candidate?) && now - lastRenewal >= renewal {
        lastRenewal := now;
        var _, _, _ := AskVoters(now, now);
      } else {
        DidNothing(c, self, Value(), now);
      }
    }

    method TickTire(now: int, wait: int)
      requires Valid()
      modifies participant, participant.voter, participant.holder
      ensures Valid() && Did(c, self, old(Value()), TickTireSteps(c, self, old(Value()), askedAt, wait, now), now, Value())
      ensures participant.voter.highestEpoch == old(participant.voter.highestEpoch)
    {
      ghost var was := Value();
      if participant.holder.mode.Candidate? && now - askedAt > period {
        participant.Stop(now, wait);
        DidOne(c, self, was, Step.Stop(self, now + wait), now);
      } else {
        DidNothing(c, self, was, now);
      }
    }

    method TickAsk(now: int) returns (asked: Option<int>)
      requires Valid() && participant.voter.highestEpoch <= MAX_EPOCH - 2 * EPOCH_STRIDE
      modifies participant.voter, participant.holder
      ensures Valid() && Did(c, self, old(Value()), TickAskSteps(self, old(Value()), asksToLead, now), now, Value())
      ensures asked.Some? == (TickAskSteps(self, old(Value()), asksToLead, now) != [])
      ensures asked.Some? ==> !Value().holder.mode.Idle? && asked.value == Value().holder.epoch
    {
      ghost var was := Value();
      var may := participant.MayAskToLead(now);
      if asksToLead && may {
        var epoch := participant.BeginAskingToLead();
        DidOne(c, self, was, Step.Ask(self), now);
        return Some(epoch);
      }
      DidNothing(c, self, was, now);
      return None;
    }
  }

  /** The greatest of the expiries held, however it is found. */
  lemma {:induction false} LatestIs(expiries: map<int, int>, latest: int)
    requires expiries.Keys <= PARTIES && 0 <= latest && (latest == 0 || exists v :: v in expiries && expiries[v] == latest)
    requires forall v :: v in expiries ==> expiries[v] <= latest
    ensures latest == Latest(expiries)
  {
    if latest != 0 {
      var v :| v in expiries && expiries[v] == latest;
      assert v in PARTIES;
    }
  }

  /** A lease has run out when the latest expiry has passed, and so when each has. */
  lemma {:induction false} RanOutIs(expiries: map<int, int>, now: int)
    requires expiries.Keys <= PARTIES && 0 <= now
    ensures Latest(expiries) <= now <==> forall v :: v in expiries ==> expiries[v] <= now
  {
  }

  function Stopping(me: Party, asks: bool, wait: int, now: int): Party {
    if !asks && me.holder.mode.Candidate? then me.GaveUp().(waitUntil := now + wait)
    else if RanOut(me, now) then me.GaveUp()
    else me
  }

  lemma {:induction false} StopDid(c: Setting, p: int, me: Party, asks: bool, wait: int, now: int)
    requires me.up
    ensures Did(c, p, me, TickStopSteps(p, me, asks, wait, now), now,
                Stopping(me, asks, wait, now))
  {
    if !asks && me.holder.mode.Candidate? {
      DidOne(c, p, me, Stop(p, now + wait), now);
    } else if RanOut(me, now) {
      DidOne(c, p, me, Stop(p, me.waitUntil), now);
    } else {
      DidNothing(c, p, me, now);
    }
  }

  /** The parts of a tick, one after another, are the tick. */
  lemma {:induction false} SettleDid(c: Setting, p: int, tempo: Tempo, outcome: Option<bool>, waits: (int, int), now: int,
                                     me: Party, recorded: Party, stopped: Party, sent: Party, tired: Party)
    requires Did(c, p, me, TickRecordSteps(c, p, me, outcome), now, recorded)
    requires Did(c, p, recorded, TickStopSteps(p, recorded, tempo.asks, waits.0, now), now, stopped)
    requires Did(c, p, stopped, TickSendSteps(c, p, stopped, tempo.lastRenewal, now), now, sent)
    requires Did(c, p, sent, TickTireSteps(c, p, sent, tempo.askedAt, waits.1, now), now, tired)
    ensures Did(c, p, me, SettleSteps(c, p, me, tempo, outcome, waits, now), now, tired)
  {
    var record, stop := TickRecordSteps(c, p, me, outcome), TickStopSteps(p, recorded, tempo.asks, waits.0, now);
    var send, tire := TickSendSteps(c, p, stopped, tempo.lastRenewal, now), TickTireSteps(c, p, sent, tempo.askedAt, waits.1, now);
    DidBoth(c, p, me, record, recorded, stop, now, stopped);
    DidBoth(c, p, me, record + stop, stopped, send, now, sent);
    DidBoth(c, p, me, record + stop + send, sent, tire, now, tired);
  }

  lemma {:induction false} SettledDid(c: Setting, p: int, me: Party, tempo: Tempo, outcome: Option<bool>,
                                      waits: (int, int), now: int,
                                      settled: Party, ticked: Party)
    requires Did(c, p, me, SettleSteps(c, p, me, tempo, outcome, waits, now), now, settled)
    requires Did(c, p, settled, TickAskSteps(p, settled, tempo.asks, now), now, ticked)
    ensures settled == Settled(c, p, me, tempo, outcome, waits, now)
    ensures Did(c, p, me, TickSteps(c, p, me, tempo, outcome, waits, now), now, ticked)
  {
    DidBoth(c, p, me, SettleSteps(c, p, me, tempo, outcome, waits, now), settled, TickAskSteps(p, settled, tempo.asks, now), now, ticked);
  }

  // ---- Giving up a candidacy -------------------------------------------------------------------

  /** Who has refused so far, the refusals of a candidacy having been noted in turn. */
  function NotingAll(refusals: seq<(int, Reason)>): Refusers {
    if refusals == [] then NO_REFUSERS
    else NotingAll(refusals[..|refusals| - 1]).Noting(Candidate, refusals[|refusals| - 1].0, refusals[|refusals| - 1].1)
  }

  /** A candidacy is given up exactly when the third voter and the peer have both refused it as promised elsewhere. */
  lemma {:induction false} GivesUpExactlyWhen(refusals: seq<(int, Reason)>)
    ensures NotingAll(refusals).third <==> (3, Reason.PromisedElsewhere) in refusals
    ensures NotingAll(refusals).peer <==> exists voter :: voter != 3 && (voter, Reason.PromisedElsewhere) in refusals
    ensures NotingAll(refusals).GivesUp(Candidate) <==> NotingAll(refusals).third && NotingAll(refusals).peer
    ensures !NotingAll(refusals).GivesUp(Leading) && !NotingAll(refusals).GivesUp(Idle)
  {
    if refusals != [] {
      var m := |refusals| - 1;
      GivesUpExactlyWhen(refusals[..m]);
      assert refusals == refusals[..m] + [refusals[m]];
      if voter :| voter != 3 && (voter, Reason.PromisedElsewhere) in refusals[..m] {
        assert (voter, Reason.PromisedElsewhere) in refusals;
      }
      if voter :| voter != 3 && (voter, Reason.PromisedElsewhere) in refusals {
        assert (voter, Reason.PromisedElsewhere) in refusals[..m] || refusals[m] == (voter, Reason.PromisedElsewhere);
      }
    }
  }
}
