/**
 * The voter, the lease holder, the participant that joins them and the keeper of the record, as the
 * objects the agent of an instance is made of.  Each method is proved against the rules on values.
 */
module LeaseObjects {
  import opened LeaseRules
  import opened LeaseRecord
  import opened Options
  import opened LeaseSystem
  import opened Sequences

  class LeaseVoter {
    const period: int
    var quietUntil: int
    var promisedTo: int
    var promiseExpires: int
    var heldForSelf: bool
    var highestEpoch: int
    var statement: Statement

    function Value(): Voter
      reads this
    {
      Voter(quietUntil, promisedTo, promiseExpires, heldForSelf, highestEpoch, statement)
    }

    constructor (period: int, startedAt: int, epoch: int)
      requires 0 < period && 0 <= epoch
      ensures this.period == period && Value() == StartedVoter(period, startedAt, epoch)
    {
      this.period := period;
      quietUntil := startedAt + period;
      promisedTo, promiseExpires, heldForSelf := 0, 0, false;
      highestEpoch, statement := epoch, NO_STATEMENT;
    }

    /** Decide a request, and record the promise if it is granted. */
    method Consider(candidate: int, epoch: int, now: int) returns (verdict: Verdict, highest: int)
      modifies this
      ensures verdict == old(Value()).Judge(candidate, epoch, now)
      ensures Value() == old(Value()).Considered(period, candidate, epoch, now)
      ensures highest == highestEpoch && old(highestEpoch) <= highestEpoch
    {
      if now < quietUntil {
        return RefusedWhileRestarting, highestEpoch;
      }
      if heldForSelf || (promisedTo != 0 && now < promiseExpires && promisedTo != candidate) {
        return RefusedPromisedElsewhere, highestEpoch;
      }
      if epoch < highestEpoch {
        return RefusedEpochBehind, highestEpoch;
      }
      if statement.Barred() == candidate {
        return RefusedMayNotLead, highestEpoch;
      }
      promisedTo := candidate;
      promiseExpires := now + period;
      highestEpoch := epoch;
      return Granted, highestEpoch;
    }

    method RecordStatement(said: Statement)
      requires said.Named()
      modifies this
      ensures Value() == old(Value()).Recorded(said)
      ensures !said.NewerThan(statement) && (statement == said || statement == old(statement))
    {
      if said.NewerThan(statement) {
        statement := said;
      }
    }

    /** A process that starts takes back the statement it finds, whoever made it. */
    method RestoreStatement(said: Statement)
      modifies this
      ensures Value() == old(Value()).(statement := said)
    {
      statement := said;
    }

    method ResumeWithKeptPromise(to: int, until: int, now: int)
      modifies this
      ensures Value() == old(Value()).Resumed(to, until, now)
    {
      quietUntil := now;
      promisedTo := to;
      promiseExpires := until;
    }

    method LearnEpoch(epoch: int)
      modifies this
      ensures Value() == old(Value()).Learnt(epoch)
      ensures epoch <= highestEpoch && old(highestEpoch) <= highestEpoch
    {
      if epoch > highestEpoch {
        highestEpoch := epoch;
      }
    }

    method SetHeldForSelf(held: bool)
      modifies this
      ensures Value() == old(Value()).(heldForSelf := held)
    {
      heldForSelf := held;
    }
  }

  class LeaseHolder {
    const period: int
    const drift: int
    var mode: Mode
    var epoch: int
    var lastRequestId: int
    var outstanding: map<int, Outstanding>
    var expiries: map<int, int>

    function Value(): Holder
      reads this
    {
      Holder(mode, epoch, lastRequestId, outstanding, expiries)
    }

    constructor (period: int, drift: int)
      requires 0 <= drift < period
      ensures this.period == period && this.drift == drift && Value() == FRESH_HOLDER
    {
      this.period, this.drift := period, drift;
      mode, epoch, lastRequestId, outstanding, expiries := Idle, 0, 0, map[], map[];
    }

    method BeginCandidacy(e: int)
      modifies this
      ensures Value() == old(Value()).BeganCandidacy(e)
    {
      mode, epoch, expiries, outstanding := Candidate, e, map[], map[];
    }

    /** Forget every request too old to be worth anything, then note the one being sent. */
    method RecordRequest(voter: int, now: int) returns (id: int)
      modifies this
      ensures Value() == old(Value()).Requested(period, voter, now)
      ensures id == lastRequestId
    {
      var unseen := outstanding.Keys;
      while unseen != {}
        modifies `outstanding
        invariant unseen <= old(outstanding).Keys && outstanding.Keys <= old(outstanding).Keys
        invariant unseen <= outstanding.Keys
        invariant forall k :: k in outstanding ==> outstanding[k] == old(outstanding)[k]
        invariant forall k :: k in old(outstanding) && k !in unseen ==>
          (k in outstanding <==> now - old(outstanding)[k].sentAt <= period)
        decreases unseen
      {
        SomeMember(unseen);
        var k :| k in unseen;
        if now - outstanding[k].sentAt > period {
          outstanding := outstanding - {k};
        }
        unseen := unseen - {k};
      }
      ghost var kept := old(Value()).Pruned(period, now);
      assert forall k :: k in kept <==> k in outstanding;
      assert forall k :: k in kept ==> kept[k] == outstanding[k];
      assert outstanding == kept;
      lastRequestId := lastRequestId + 1;
      id := lastRequestId;
      outstanding := outstanding[id := Outstanding(voter, now)];
    }

    method OnGrant(voter: int, id: int, e: int, now: int) returns (event: Event)
      modifies this
      ensures event == old(Value()).GrantEvent(period - drift, voter, id, e, now)
      ensures Value() == old(Value()).AfterGrant(period - drift, voter, id, e, now)
    {
      if id !in outstanding || outstanding[id].voter != voter {
        return Nothing;
      }
      var expires := outstanding[id].sentAt + period - drift;
      outstanding := outstanding - {id};
      if e != epoch || mode.Idle? || expires <= now {
        return Nothing;
      }
      var held := if voter in expiries then expiries[voter] else 0;
      expiries := expiries[voter := if expires > held then expires else held];
      if mode.Candidate? {
        mode := Leading;
        return BecameLeader;
      }
      return LeaseExtended;
    }

    method OnRefusal(id: int, highest: int) returns (event: Event)
      modifies this
      ensures event == old(Value()).RefusalEvent(highest)
      ensures Value() == old(Value()).AfterRefusal(id)
    {
      outstanding := outstanding - {id};
      if !mode.Idle? && highest > epoch {
        return NewerEpochKnown;
      }
      return Nothing;
    }

    /** The latest expiry held, and time zero when none is. */
    method LeaseExpiresAt() returns (latest: int)
      ensures 0 <= latest && (latest == 0 || exists v :: v in expiries && expiries[v] == latest)
      ensures forall v :: v in expiries ==> expiries[v] <= latest
    {
      latest := 0;
      var left := expiries;
      while left != map[]
        invariant forall v :: v in left ==> v in expiries && left[v] == expiries[v]
        invariant 0 <= latest && (latest == 0 || exists v :: v in expiries && expiries[v] == latest)
        invariant forall v :: v in expiries && v !in left ==> expiries[v] <= latest
        decreases left.Keys
      {
        SomeMember(left.Keys);
        var v :| v in left;
        if left[v] > latest {
          latest := left[v];
        }
        left := left - {v};
      }
    }

    /** The instance leads and some lease it holds has not run out. */
    method Acting(now: int) returns (acting: bool)
      requires 0 <= now
      ensures acting <==> mode.Leading? && exists v :: v in expiries && now < expiries[v]
    {
      var latest := LeaseExpiresAt();
      acting := mode.Leading? && now < latest;
    }

    method Stop()
      modifies this
      ensures Value() == old(Value()).Stopped()
    {
      mode, expiries, outstanding := Idle, map[], map[];
    }
  }

  /** One instance of a pair: it votes, and it may lead.  `said` is what it says while it leads. */
  class LeaseParticipant {
    const self: int
    const says: Says
    const voter: LeaseVoter
    const holder: LeaseHolder
    var waitUntil: int
    var said: Statement

    /** An instance that leads or asks to lead has given itself its own vote, and no other has. */
    ghost predicate Valid()
      reads this, voter, holder
    {
      && 1 <= self <= 2
      && voter.period == holder.period && 0 < voter.period
      && 0 <= voter.highestEpoch
      && (voter.heldForSelf <==> !holder.mode.Idle?)
      && (said == NO_STATEMENT || said.Named())
      && (says.Silent? ==> said == NO_STATEMENT)
    }

    /** This participant as a party, apart from what its agent alone keeps. */
    ghost function Value(): Party
      reads this, voter, holder
    {
      Party(true, 0, 0, voter.Value(), holder.Value(), BLANK_KEEPER, waitUntil, said)
    }

    constructor (self: int, period: int, drift: int, startedAt: int, epoch: int, says: Says)
      requires 1 <= self <= 2 && 0 < period && 0 <= drift < period && 0 <= epoch
      ensures Valid() && this.self == self && this.says == says && fresh(voter) && fresh(holder)
      ensures voter.period == period && holder.drift == drift
      ensures Value() == Party(true, 0, 0, StartedVoter(period, startedAt, epoch), FRESH_HOLDER, BLANK_KEEPER, 0, NO_STATEMENT)
    {
      this.self, this.says := self, says;
      voter := new LeaseVoter(period, startedAt, epoch);
      holder := new LeaseHolder(period, drift);
      waitUntil, said := 0, NO_STATEMENT;
    }

    /** The peer asks for a lease: a candidate gives way to a higher epoch, then the voter decides. */
    method OnPeerRequest(r: Request, now: int) returns (verdict: Verdict, highest: int, gaveUp: bool)
      requires Valid()
      modifies voter, holder
      ensures Valid()
      ensures var yielded := Yielded(old(Value()), r, now);
        && gaveUp == (yielded != old(Value()))
        && verdict == yielded.voter.Judge(r.from, r.epoch, now)
        && Value() == yielded.(voter := yielded.voter.Considered(voter.period, r.from, r.epoch, now))
      ensures highest == voter.highestEpoch && old(voter.highestEpoch) <= highest
    {
      gaveUp := holder.mode.Candidate? && r.epoch > holder.epoch && now >= voter.quietUntil;
      if gaveUp {
        holder.Stop();
        voter.SetHeldForSelf(false);
      }
      verdict, highest := voter.Consider(r.from, r.epoch, now);
    }

    /** Not while it leads or asks, has forgotten, has promised its vote, waits, or is said not to be able to. */
    method MayAskToLead(now: int) returns (may: bool)
      ensures may == Value().MayAsk(self, now)
    {
      may :=
        && holder.mode.Idle?
        && now >= voter.quietUntil
        && !(voter.promisedTo != 0 && now < voter.promiseExpires && voter.promisedTo != self)
        && now >= waitUntil
        && voter.statement.Barred() != self;
    }

    /** The epoch asked in names this instance, and lies above every epoch it knows. */
    method BeginAskingToLead() returns (epoch: int)
      requires Valid() && voter.highestEpoch <= MAX_EPOCH - 2 * EPOCH_STRIDE
      modifies voter, holder
      ensures Valid()
      ensures voter.highestEpoch < epoch <= MAX_EPOCH && epoch % EPOCH_STRIDE == self
      ensures epoch == NextFor(old(voter.highestEpoch), self)
      ensures Value() == old(Value()).(holder := old(holder.Value()).BeganCandidacy(epoch),
                                       voter := old(voter.Value()).(heldForSelf := true))
    {
      epoch := NextFor(voter.highestEpoch, self);
      holder.BeginCandidacy(epoch);
      voter.SetHeldForSelf(true);
    }

    /** A new leadership starts, in a pair whose leader makes statements, by saying something of the peer. */
    method OnGrant(ghost c: Setting, g: Grant, now: int) returns (event: Event)
      requires Valid()
      requires c.period == holder.period && c.drift == holder.drift && c.says == says
      modifies this, voter, holder
      ensures Valid()
      ensures event == old(holder.Value()).GrantEvent(holder.period - holder.drift, g.request.to, g.request.id, g.request.epoch, now)
      ensures Value() == GrantTaken(c, self, old(Value()), g, now)
    {
      event := holder.OnGrant(g.request.to, g.request.id, g.request.epoch, now);
      if event.BecameLeader? {
        voter.LearnEpoch(g.request.epoch);
        if !says.Silent? {
          said := Statement(self, g.request.epoch, 1, says.PeerMay?);
          voter.RecordStatement(said);
        }
      }
    }

    method OnRefusal(f: Refusal, now: int, wait: int) returns (event: Event)
      requires Valid()
      modifies this, voter, holder
      ensures Valid()
      ensures event == old(holder.Value()).RefusalEvent(f.highest)
      ensures Value() == RefusalTaken(old(Value()), f, wait, now)
    {
      event := holder.OnRefusal(f.request.id, f.highest);
      voter.LearnEpoch(f.highest);
      if event.NewerEpochKnown? {
        Stop(now, wait);
      }
    }

    /** A leader says whether its peer may lead; saying the same again changes nothing. */
    method SayPeerMayLead(may: bool)
      requires Valid() && holder.mode.Leading? && said.Named()
      modifies this, voter
      ensures Valid() && Value() == Saying(old(Value()), may)
    {
      if said.peerMayLead != may {
        said := said.(number := said.number + 1, peerMayLead := may);
        voter.RecordStatement(said);
      }
    }

    method Stop(now: int, wait: int)
      requires Valid()
      modifies this, voter, holder
      ensures Valid() && Value() == old(Value()).GaveUp().(waitUntil := now + wait)
    {
      holder.Stop();
      voter.SetHeldForSelf(false);
      waitUntil := now + wait;
    }

    /** A leader whose last lease has run out stops leading. */
    method StopIfLeaseRanOut(now: int) returns (stopped: bool)
      requires Valid() && 0 <= now
      modifies voter, holder
      ensures Valid()
      ensures stopped <==>
        old(holder.mode).Leading? && forall v :: v in old(holder.expiries) ==> old(holder.expiries)[v] <= now
      ensures Value() == if stopped then old(Value()).GaveUp() else old(Value())
    {
      var acting := holder.Acting(now);
      stopped := holder.mode.Leading? && !acting;
      if stopped {
        holder.Stop();
        voter.SetHeldForSelf(false);
      }
    }
  }

  /**
   * The part of the agent that keeps its promises on disk through a writer thread of its own.  What is
   * on the disk, and whether the write in flight has reached it, the agent cannot see.
   */
  class RecordKeeper {
    ghost var disk: Option<Promise>
    ghost var diskSaid: Statement
    ghost var landed: bool
    var adopted: Promise
    var adoptedSaid: Statement
    var inFlight: Option<Record>
    var wanted: Option<Promise>

    ghost function Value(): Keeper
      reads this
    {
      Keeper(disk, diskSaid, adopted, adoptedSaid, inFlight, landed, wanted)
    }

    constructor ()
      ensures Value() == BLANK_KEEPER
    {
      disk, diskSaid, landed := None, NO_STATEMENT, false;
      adopted, adoptedSaid, inFlight, wanted := NO_PROMISE, NO_STATEMENT, None, None;
    }

    /** A process that starts takes back the record it finds. */
    method TakeBack(kept: Option<Promise>, said: Statement)
      modifies this
      ensures Value() == KeeperFor(kept, said)
    {
      disk, diskSaid, landed := kept, said, false;
      adopted, adoptedSaid := if kept.Some? then kept.value else NO_PROMISE, said;
      inFlight, wanted := None, None;
    }

    /** Only one write is in progress at a time; a record asked for meanwhile waits, replacing any other. */
    method StartRecord(promise: Promise, held: Statement)
      modifies this
      ensures Value() == old(Value()).Started(promise, held)
    {
      if inFlight.None? {
        inFlight, wanted := Some(Record(promise, held)), None;
        landed := false;
      } else {
        wanted := Some(promise);
      }
    }

    method StartWantedRecord(held: Statement)
      modifies this
      ensures Value() == old(Value()).WantedStarted(held)
    {
      if wanted.Some? && inFlight.None? {
        StartRecord(wanted.value, held);
      }
    }

    method WriteStatementIfNeeded(held: Statement)
      modifies this
      ensures Value() == old(Value()).StatementWritten(held)
    {
      if inFlight.Some? || wanted.Some? || adoptedSaid.SameAs(held) {
        return;
      }
      StartRecord(adopted, held);
    }

    method RefreshInBackground(to: int, expires: int, held: Statement)
      modifies this
      ensures Value() == old(Value()).Refreshed(to, expires, held)
    {
      if inFlight.Some? || wanted.Some? || adopted.until - expires > REFRESH_AHEAD {
        return;
      }
      StartRecord(Promise(to, expires + MARGIN), held);
    }

    method WriteInProgressCovers(to: int, expires: int) returns (covers: bool)
      ensures covers == Value().WriteInProgressCovers(to, expires)
    {
      if wanted.Some? {
        return wanted.value.to == to && expires <= wanted.value.until;
      }
      return inFlight.Some? && inFlight.value.promise.to == to && expires <= inFlight.value.promise.until;
    }

    /**
     * Take the outcome of the background write as what the record now says, once the writer thread
     * reports one: whether the record reached the disk.
     */
    method AdoptBackgroundRecord(outcome: Option<bool>)
      requires Reports(outcome)
      modifies this
      ensures Value() == Taken(old(Value()), outcome)
    {
      if inFlight.None? || outcome.None? {
        return;
      }
      if outcome.value {
        adopted, adoptedSaid := inFlight.value.promise, inFlight.value.said;
      }
      inFlight := None;
      landed := false;
    }

    /** The writer thread reports truly: a write it says succeeded is on the disk, one it says failed is not. */
    ghost predicate Reports(outcome: Option<bool>)
      reads this
    {
      inFlight.Some? && outcome.Some? ==> outcome.value == landed
    }

    static ghost function Taken(k: Keeper, outcome: Option<bool>): Keeper {
      if k.inFlight.Some? && outcome.Some? then k.Adopted() else k
    }

    /**
     * Whether the record on disk covers a promise, to the peer or, of a leader, to itself; if it does not,
     * the write that will is started.
     */
    method Ensure(to: int, expires: int, outcome: Option<bool>, held: Statement) returns (covered: bool)
      requires Reports(outcome)
      modifies this
      ensures covered == Taken(old(Value()), outcome).PromiseRecorded(to, expires)
      ensures Value() == Taken(old(Value()), outcome).Ensured(to, expires, held)
    {
      AdoptBackgroundRecord(outcome);
      if adopted.to == to && expires <= adopted.until {
        RefreshInBackground(to, expires, held);
        return true;
      }
      var covers := WriteInProgressCovers(to, expires);
      if !covers {
        StartRecord(Promise(to, expires + MARGIN), held);
      }
      return false;
    }
  }
}
