/**
 * A pair of instances (1 and 2) and their third voter (3) as one system: every clock, message, crash,
 * restart and disk write is a step.  A message once sent may be delivered at any later moment, any
 * number of times, in any order, or never.
 *
 * Real time is a count of instants.  Each party reads its own steady clock, a function of the instant.
 */
module LeaseSystem {
  import opened LeaseRules
  import opened LeaseRecord
  import opened Options

  /** Whether a pair's leader says if its peer may lead, and what a new leadership says first. */
  datatype Says = Silent | PeerMay | PeerMayNot

  /**
   * `overrun` is how long past its own count of the lease a leader may go on acting before it notices,
   * and `rate` bounds how much faster one clock runs than another.  `keepsRecord` and `keepsEpoch` say
   * what the two instances keep on disk; `staleLinks` allows a grant to reach a process other than the
   * one whose request it answers.
   */
  datatype Setting = Setting(
    clock: (int, nat) -> int,
    period: int,
    drift: int,
    overrun: int,
    renewal: int,
    rate: real,
    says: Says,
    keepsRecord: bool,
    keepsEpoch: bool,
    staleLinks: bool)
  {
    ghost predicate Sound() {
      && 0 <= drift < period
      && 0 <= overrun
      && ClocksRunForward()
      && ClocksAgreeOnRate()
      && DriftAllowedFor()
      && (keepsEpoch || !staleLinks)
    }

    ghost predicate ClocksRunForward() {
      && (forall p, t :: 0 <= clock(p, t))
      && (forall p, t, u :: t <= u ==> clock(p, t) <= clock(p, u))
    }

    /** Between any two instants no clock counts more than another by more than the rate allows. */
    ghost predicate ClocksAgreeOnRate() {
      0.0 <= rate && forall p, q, t, u :: t <= u ==> RateKept(p, q, t, u)
    }

    predicate RateKept(p: int, q: int, t: nat, u: nat) {
      (clock(q, u) - clock(q, t)) as real <= (1.0 + rate) * (clock(p, u) - clock(p, t)) as real
    }

    /** The drift allowance makes up for the overrun and for the rates over a lease period. */
    predicate DriftAllowedFor() {
      overrun as real + rate * period as real <= drift as real
    }

    predicate Keeps(p: int) {
      keepsRecord && p != 3
    }
  }

  /** `at` is the instant of sending, and `process` counts the sender's restarts. */
  datatype Request = Request(from: int, process: nat, to: int, id: int, epoch: int, at: nat, said: Statement)
  datatype Grant = Grant(request: Request, at: nat)
  datatype Refusal = Refusal(request: Request, highest: int)

  /** `waitUntil` is when the instance may ask to lead again, and `said` what it says while it leads. */
  datatype Party = Party(
    up: bool,
    process: nat,
    bootEpoch: int,
    voter: Voter,
    holder: Holder,
    keeper: Keeper,
    waitUntil: int,
    said: Statement)
  {
    function GaveUp(): Party {
      this.(holder := holder.Stopped(), voter := voter.(heldForSelf := false))
    }

    predicate MayAsk(self: int, now: int) {
      && holder.mode.Idle?
      && !voter.Restarting(now)
      && !voter.PromisedElsewhere(self, now)
      && waitUntil <= now
      && voter.MayLead(self)
    }
  }

  datatype System = System(
    now: nat,
    parties: map<int, Party>,
    requests: set<Request>,
    grants: set<Grant>,
    refusals: set<Refusal>)
  {
    function With(p: int, party: Party): System {
      this.(parties := parties[p := party])
    }
  }

  const PARTIES := {1, 2, 3}
  const DOWN := Party(false, 0, 0, StartedVoter(0, 0, 0), FRESH_HOLDER, BLANK_KEEPER, 0, NO_STATEMENT)
  const INITIAL := System(0, map[1 := DOWN, 2 := DOWN, 3 := DOWN], {}, {}, {})

  datatype Step =
    | Tick
    | Ask(p: int)
    | Send(p: int, to: int, lag: nat)
    | Hear(request: Request)
    | Receive(request: Request)
    | TakeGrant(grant: Grant)
    | TakeRefusal(refusal: Refusal, wait: int)
    | Stop(p: int, until: int)
    | Say(p: int, peerMayLead: bool)
    | Learn(p: int, epoch: int)
    | RecordLeading(p: int)
    | WriteStatement(p: int)
    | StartWanted(p: int)
    | Land(p: int)
    | Adopt(p: int)
    | Crash(p: int)
    | Restart(p: int, lost: bool, epoch: int, said: Statement)

  /** The party a step is taken by; a tick is nobody's. */
  function Actor(step: Step): int {
    match step
    case Tick => 0
    case Hear(r) => r.to
    case Receive(r) => r.to
    case TakeGrant(g) => g.request.from
    case TakeRefusal(f, _) => f.request.from
    case _ => step.p
  }

  // ---- One party -------------------------------------------------------------------------------

  /** What a party must be for it to take a step, as far as it can tell itself. */
  predicate Ready(c: Setting, p: int, me: Party, step: Step, now: int) {
    match step
    case Tick => false
    case Ask(_) => p in {1, 2} && me.up && me.MayAsk(p, now) && 0 <= me.voter.highestEpoch <= MAX_EPOCH - 2 * EPOCH_STRIDE
    case Send(_, to, _) => p in {1, 2} && to in PARTIES - {p} && me.up && !me.holder.mode.Idle?
    case Hear(r) => me.up && r.said.Named()
    case TakeGrant(g) => me.up && (c.staleLinks || g.request.process == me.process)
    case Say(_, _) => me.up && me.holder.mode.Leading? && me.said.Named()
    case RecordLeading(_) => c.Keeps(p) && me.up && me.holder.mode.Leading?
    case WriteStatement(_) => c.Keeps(p) && me.up
    case StartWanted(_) => c.Keeps(p) && me.up
    case Land(_) => me.up && me.keeper.inFlight.Some? && !me.keeper.landed
    case Adopt(_) => me.up && me.keeper.inFlight.Some?
    case Restart(_, lost, epoch, said) =>
      && !me.up && 0 <= epoch
      && (c.Keeps(p) ==> said == me.keeper.diskSaid || (lost && said == NO_STATEMENT))
    case _ => me.up
  }

  /** The voter's side of a request: give way to a higher epoch, then judge. */
  function Yielded(v: Party, r: Request, now: int): Party {
    if v.holder.mode.Candidate? && r.epoch > v.holder.epoch && !v.voter.Restarting(now) then v.GaveUp() else v
  }

  /** Whether this request makes the party send a grant. */
  predicate GrantsIt(c: Setting, p: int, me: Party, r: Request, now: int) {
    var v := Yielded(me, r, now);
    && v.voter.Judge(r.from, r.epoch, now).Granted?
    && (c.Keeps(p) ==> v.keeper.PromiseRecorded(r.from, now + c.period))
  }

  function Answered(c: Setting, p: int, me: Party, r: Request, now: int): Party {
    var v := Yielded(me, r, now);
    var judged := v.(voter := v.voter.Considered(c.period, r.from, r.epoch, now));
    if v.voter.Judge(r.from, r.epoch, now).Granted? && c.Keeps(p) then
      judged.(keeper := v.keeper.Ensured(r.from, now + c.period, v.voter.statement))
    else judged
  }

  /** A new leader learns its epoch and, in a pair whose leader makes statements, says something of its peer. */
  function GrantTaken(c: Setting, p: int, me: Party, g: Grant, now: int): Party {
    var r, term := g.request, c.period - c.drift;
    var after := me.(holder := me.holder.AfterGrant(term, r.to, r.id, r.epoch, now));
    if !me.holder.GrantEvent(term, r.to, r.id, r.epoch, now).BecameLeader? then after
    else if c.says.Silent? then after.(voter := me.voter.Learnt(r.epoch))
    else
      var said := Statement(p, r.epoch, 1, c.says.PeerMay?);
      after.(said := said, voter := me.voter.Learnt(r.epoch).Recorded(said))
  }

  function RefusalTaken(me: Party, f: Refusal, wait: int, now: int): Party {
    var told := me.(holder := me.holder.AfterRefusal(f.request.id), voter := me.voter.Learnt(f.highest));
    if me.holder.RefusalEvent(f.highest).NewerEpochKnown? then told.GaveUp().(waitUntil := now + wait) else told
  }

  /** A leader changes what it says about its peer; saying the same again changes nothing. */
  function Saying(me: Party, peerMayLead: bool): Party {
    if me.said.peerMayLead == peerMayLead then me
    else
      var said := me.said.(number := me.said.number + 1, peerMayLead := peerMayLead);
      me.(said := said, voter := me.voter.Recorded(said))
  }

  /**
   * A process starts.  With a record it resumes the promise recorded, except a vote it gave itself;
   * without one it waits out a lease period.  The secondary leaves the primary a head start, unless it
   * was leading when it stopped.
   */
  function Restarted(c: Setting, p: int, before: Party, lost: bool, epoch: int, said: Statement, now: int): Party {
    var started := StartedVoter(c.period, now, epoch).(statement := said);
    var kept := if c.Keeps(p) && !lost then before.keeper.disk else None;
    var led := kept.Some? && kept.value.to == p && kept.value.until > now;
    var voter :=
      if kept.None? then started
      else if led then started.Resumed(0, now, now)
      else started.Resumed(kept.value.to, kept.value.until, now);
    var wait := if led then now else if p == 2 then now + c.period + c.renewal else 0;
    Party(true, before.process + 1, epoch, voter, FRESH_HOLDER, KeeperFor(kept, said), wait, NO_STATEMENT)
  }

  /** The party after one of its steps. */
  function Local(c: Setting, p: int, me: Party, step: Step, now: int): Party
    requires Ready(c, p, me, step, now)
  {
    match step
    case Ask(_) =>
      me.(holder := me.holder.BeganCandidacy(NextFor(me.voter.highestEpoch, p)), voter := me.voter.(heldForSelf := true))
    case Send(_, to, lag) => me.(holder := me.holder.Requested(c.period, to, now - lag))
    case Hear(r) => me.(voter := me.voter.Recorded(r.said))
    case Receive(r) => Answered(c, p, me, r, now)
    case TakeGrant(g) => GrantTaken(c, p, me, g, now)
    case TakeRefusal(f, wait) => RefusalTaken(me, f, wait, now)
    case Stop(_, until) => me.GaveUp().(waitUntil := until)
    case Say(_, may) => Saying(me, may)
    case Learn(_, epoch) => me.(voter := me.voter.Learnt(epoch))
    case RecordLeading(_) => me.(keeper := me.keeper.Ensured(p, Latest(me.holder.expiries), me.voter.statement))
    case WriteStatement(_) => me.(keeper := me.keeper.StatementWritten(me.voter.statement))
    case StartWanted(_) => me.(keeper := me.keeper.WantedStarted(me.voter.statement))
    case Land(_) => me.(keeper := me.keeper.Landed())
    case Adopt(_) => me.(keeper := me.keeper.Adopted())
    case Crash(_) => me.(up := false)
    case Restart(_, lost, epoch, said) => Restarted(c, p, me, lost, epoch, said, now)
  }

  /** When the latest lease runs out: the greatest expiry held, and time zero if there is none. */
  function Latest(expiries: map<int, int>): int {
    var one := if 1 in expiries then expiries[1] else 0;
    var two := if 2 in expiries then expiries[2] else 0;
    var three := if 3 in expiries then expiries[3] else 0;
    Max(0, Max(one, Max(two, three)))
  }

  function Max(a: int, b: int): int { if a < b then b else a }

  // ---- The whole system ------------------------------------------------------------------------

  /** What has reached the party: the messages a step takes in, and what a restart must find on disk. */
  predicate Delivered(c: Setting, s: System, step: Step) {
    match step
    case Hear(r) => r in s.requests
    case Receive(r) => r in s.requests
    case TakeGrant(g) => g in s.grants
    case TakeRefusal(f, _) => f in s.refusals
    case Restart(p, _, epoch, _) => c.keepsEpoch ==> forall r :: r in s.requests && r.from == p ==> r.epoch <= epoch
    case _ => true
  }

  /** Which steps may happen.  Everything a schedule decides is left open. */
  predicate Enabled(c: Setting, s: System, step: Step)
    requires s.parties.Keys == PARTIES
  {
    step.Tick? ||
    var p := Actor(step);
    p in PARTIES && Ready(c, p, s.parties[p], step, c.clock(p, s.now)) && Delivered(c, s, step)
  }

  /** The request sent, with what the sender says if it leads. */
  function Sent(p: int, to: int, after: Party, at: nat): Request {
    Request(p, after.process, to, after.holder.lastRequestId, after.holder.epoch, at,
            if after.holder.mode.Leading? then after.said else NO_STATEMENT)
  }

  predicate Grants(c: Setting, s: System, r: Request)
    requires r.to in s.parties
  {
    GrantsIt(c, r.to, s.parties[r.to], r, c.clock(r.to, s.now))
  }

  function Next(c: Setting, s: System, step: Step): System
    requires s.parties.Keys == PARTIES && Enabled(c, s, step)
  {
    if step.Tick? then s.(now := s.now + 1)
    else
      var p := Actor(step);
      var after := Local(c, p, s.parties[p], step, c.clock(p, s.now));
      var t := s.With(p, after);
      if step.Send? then t.(requests := s.requests + {Sent(p, step.to, after, s.now)})
      else if step.Receive? then
        if Grants(c, s, step.request) then t.(grants := s.grants + {Grant(step.request, s.now)})
        else t.(refusals := s.refusals + {Refusal(step.request, after.voter.highestEpoch)})
      else t
  }

  /** The instance acts as leader: it leads and, by its own clock, has not overrun every lease it holds. */
  predicate Acts(c: Setting, s: System, p: int)
    requires p in s.parties
  {
    && s.parties[p].up
    && s.parties[p].holder.mode.Leading?
    && exists v :: v in s.parties[p].holder.expiries
                   && c.clock(p, s.now) < s.parties[p].holder.expiries[v] + c.overrun
  }
}
