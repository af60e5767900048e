/**
 * Two instances never act as leader at the same moment: the invariant every step keeps, and the
 * theorem over every run.
 */
module LeaseSafety {
  import opened LeaseRules
  import opened LeaseRecord
  import opened Options
  import opened LeaseSystem

  // ---- The invariant ---------------------------------------------------------------------------

  /** When, on its own clock, the voter that gave this grant is free to promise its vote elsewhere. */
  function Expiry(c: Setting, g: Grant): int {
    c.clock(g.request.to, g.at) + c.period
  }

  predicate Live(c: Setting, instant: nat, g: Grant) {
    c.clock(g.request.to, instant) < Expiry(c, g)
  }

  ghost predicate RequestSound(c: Setting, s: System, r: Request)
    requires s.parties.Keys == PARTIES
  {
    && r.from in {1, 2} && r.to in PARTIES && r.to != r.from
    && r.at <= s.now
    && r.process <= s.parties[r.from].process
    && (r.process == s.parties[r.from].process ==> r.id <= s.parties[r.from].holder.lastRequestId)
    && (c.keepsEpoch && r.process < s.parties[r.from].process ==> r.epoch <= s.parties[r.from].bootEpoch)
  }

  ghost predicate RequestsSound(c: Setting, s: System)
    requires s.parties.Keys == PARTIES
  {
    && (forall r :: r in s.requests ==> RequestSound(c, s, r))
    && (forall r, q ::
          r in s.requests && q in s.requests && r.from == q.from && r.process == q.process && r.id == q.id
          ==> r == q)
  }

  ghost predicate GrantsSound(s: System) {
    forall g :: g in s.grants ==> g.request in s.requests && g.request.at <= g.at <= s.now
  }

  /** The request an outstanding entry of instance `p` stands for. */
  predicate Answers(c: Setting, p: int, process: nat, id: int, entry: Outstanding, r: Request) {
    && r.from == p && r.process == process && r.id == id && r.to == entry.voter
    && entry.sentAt <= c.clock(p, r.at)
  }

  /** A grant that justifies the lease instance `p` holds from voter `v`. */
  predicate Justifies(c: Setting, p: int, v: int, expires: int, g: Grant) {
    && g.request.from == p && g.request.to == v
    && expires <= c.clock(p, g.request.at) + c.period - c.drift
  }

  ghost predicate HolderSound(c: Setting, p: int, me: Party, requests: set<Request>, grants: set<Grant>) {
    var h := me.holder;
    && (p == 3 ==> h.mode.Idle?)
    && (h.mode.Idle? ==> h.outstanding == map[] && h.expiries == map[])
    && (!h.mode.Idle? ==> me.voter.heldForSelf && h.epoch > me.bootEpoch)
    && me.bootEpoch <= me.voter.highestEpoch
    && (forall id :: id in h.outstanding ==>
          && id <= h.lastRequestId
          && exists r :: r in requests && Answers(c, p, me.process, id, h.outstanding[id], r))
    && (forall v :: v in h.expiries ==>
          exists g :: g in grants && Justifies(c, p, v, h.expiries[v], g))
  }

  /** The keeper knows what is on disk, unless the write in flight has just landed. */
  predicate KeeperSound(k: Keeper) {
    && (k.landed ==> k.inFlight.Some? && k.disk == Some(k.inFlight.value.promise))
    && (!k.landed ==> k.disk == Some(k.adopted) || k.adopted.to == 0)
  }

  /** Neither the record nor any write on its way would make a restart forget the promise. */
  predicate Remembers(k: Keeper, to: int, expires: int) {
    && k.disk.Some? && k.disk.value.Covers(to, expires)
    && k.adopted.Covers(to, expires)
    && k.PendingCovers(to, expires)
  }

  predicate Blank(k: Keeper) {
    k.disk.None? && k.inFlight.None? && k.wanted.None?
  }

  /** The vote behind a live grant is bound: nobody else can be given it, not even after a restart. */
  predicate Bound(c: Setting, v: int, party: Party, to: int, expires: int) {
    if party.up then
      && party.holder.mode.Idle?
      && (|| (&& expires <= party.voter.quietUntil
              && (c.Keeps(v) ==> Blank(party.keeper) || Remembers(party.keeper, to, expires)))
          || (&& party.voter.promisedTo == to && expires <= party.voter.promiseExpires
              && (c.Keeps(v) ==> Remembers(party.keeper, to, expires))))
    else
      c.Keeps(v) ==> party.keeper.disk.None? || party.keeper.disk.value.Covers(to, expires)
  }

  /** Every live grant of this party binds its vote. */
  ghost predicate VoteBound(c: Setting, grants: set<Grant>, instant: nat, p: int, me: Party) {
    forall g :: g in grants && g.request.to == p && Live(c, instant, g) ==> Bound(c, p, me, g.request.from, Expiry(c, g))
  }

  /** What holds of one party, given all that has been sent. */
  ghost predicate PartySound(c: Setting, requests: set<Request>, grants: set<Grant>, instant: nat, p: int, me: Party) {
    && HolderSound(c, p, me, requests, grants)
    && KeeperSound(me.keeper)
    && VoteBound(c, grants, instant, p, me)
  }

  /** A voter's live grants all went to one instance. */
  ghost predicate OneVoteEach(c: Setting, grants: set<Grant>, instant: nat) {
    forall g, f ::
      g in grants && f in grants && g.request.to == f.request.to && Live(c, instant, g) && Live(c, instant, f)
      ==> g.request.from == f.request.from
  }

  ghost predicate AllSound(c: Setting, s: System)
    requires s.parties.Keys == PARTIES
  {
    forall p :: p in PARTIES ==> PartySound(c, s.requests, s.grants, s.now, p, s.parties[p])
  }

  ghost predicate Inv(c: Setting, s: System) {
    && s.parties.Keys == PARTIES
    && RequestsSound(c, s)
    && GrantsSound(s)
    && AllSound(c, s)
    && OneVoteEach(c, s.grants, s.now)
  }

  // ---- The steps that keep it ------------------------------------------------------------------

  /**
   * What the record keeping must not do: send a grant while a write on its way would replace the
   * record of it, or write a record while the instance is waiting because it has forgotten.
   */
  predicate Careful(c: Setting, s: System, step: Step)
    requires s.parties.Keys == PARTIES
  {
    var p := Actor(step);
    p in PARTIES ==> TakesCare(c, p, s.parties[p], step, c.clock(p, s.now))
  }

  predicate TakesCare(c: Setting, p: int, me: Party, step: Step, now: int) {
    match step
    case Receive(r) =>
      c.Keeps(p) && GrantsIt(c, p, me, r, now) ==> me.keeper.PendingCovers(r.from, now + c.period)
    case WriteStatement(_) => WritesWithCare(me, now)
    case _ => true
  }

  /** A statement is not written beside an empty promise while the party waits. */
  predicate WritesWithCare(me: Party, now: int) {
    me.voter.Restarting(now) ==> me.keeper.StatementWritten(me.voter.statement) == me.keeper
  }

  lemma {:induction false} InitialInv(c: Setting)
    ensures Inv(c, INITIAL)
  {
  }

  lemma {:induction false} LaterSound(c: Setting, s: System, p: int)
    requires c.ClocksRunForward() && s.parties.Keys == PARTIES && p in PARTIES
    requires PartySound(c, s.requests, s.grants, s.now, p, s.parties[p])
    ensures PartySound(c, s.requests, s.grants, s.now + 1, p, s.parties[p])
  {
    assert forall g :: Live(c, s.now + 1, g) ==> Live(c, s.now, g);
  }

  lemma {:induction false} TickKeepsInv(c: Setting, s: System)
    requires c.Sound() && Inv(c, s)
    ensures Inv(c, s.(now := s.now + 1))
  {
    var t := s.(now := s.now + 1);
    assert forall r :: r in s.requests ==> RequestSound(c, s, r) && RequestSound(c, t, r);
    assert forall g :: Live(c, t.now, g) ==> Live(c, s.now, g);
    forall p | p in PARTIES ensures PartySound(c, t.requests, t.grants, t.now, p, t.parties[p]) {
      LaterSound(c, s, p);
    }
  }

  /** What a party must keep of itself for the requests it sent to stay sound. */
  predicate SameProcess(was: Party, me: Party) {
    me.process == was.process && me.bootEpoch == was.bootEpoch && was.holder.lastRequestId <= me.holder.lastRequestId
  }

  lemma {:induction false} RequestStaysSound(c: Setting, s: System, p: int, me: Party, r: Request)
    requires s.parties.Keys == PARTIES && p in PARTIES && SameProcess(s.parties[p], me) && RequestSound(c, s, r)
    ensures RequestSound(c, s.With(p, me), r)
  {
  }

  lemma {:induction false} SameProcessKeepsRequests(c: Setting, s: System, p: int, me: Party)
    requires s.parties.Keys == PARTIES && p in PARTIES && SameProcess(s.parties[p], me) && RequestsSound(c, s)
    ensures RequestsSound(c, s.With(p, me))
  {
    forall r | r in s.requests ensures RequestSound(c, s.With(p, me), r) {
      RequestStaysSound(c, s, p, me, r);
    }
  }

  /** What a step that changes one party, and sends nothing, has to show. */
  lemma {:induction false} OnePartyKeepsInv(c: Setting, s: System, p: int, me: Party)
    requires Inv(c, s) && p in PARTIES && RequestsSound(c, s.With(p, me))
    requires PartySound(c, s.requests, s.grants, s.now, p, me)
    ensures Inv(c, s.With(p, me))
  {
  }

  lemma {:induction false} PartyStepKeepsInv(c: Setting, s: System, p: int, me: Party)
    requires Inv(c, s) && p in PARTIES && SameProcess(s.parties[p], me)
    requires PartySound(c, s.requests, s.grants, s.now, p, me)
    ensures Inv(c, s.With(p, me))
  {
    SameProcessKeepsRequests(c, s, p, me);
    OnePartyKeepsInv(c, s, p, me);
  }

  // An instance asks to lead, or sends a request.

  /** Nobody is granted a vote by itself. */
  predicate FromOthers(grants: set<Grant>) {
    forall g :: g in grants ==> g.request.from != g.request.to && g.request.from != 0
  }

  lemma {:induction false} GrantsFromOthers(c: Setting, s: System)
    requires Inv(c, s)
    ensures FromOthers(s.grants)
  {
    forall g | g in s.grants ensures g.request.from != g.request.to && g.request.from != 0 {
      assert RequestSound(c, s, g.request);
    }
  }

  lemma {:induction false} AskKeepsSound(c: Setting, p: int, me: Party, requests: set<Request>, grants: set<Grant>,
                                        instant: nat)
    requires PartySound(c, requests, grants, instant, p, me) && FromOthers(grants)
    requires Ready(c, p, me, Ask(p), c.clock(p, instant))
    ensures PartySound(c, requests, grants, instant, p, Local(c, p, me, Ask(p), c.clock(p, instant)))
  {
    forall g | g in grants && g.request.to == p ensures !Live(c, instant, g) {
      assert Live(c, instant, g) ==> Bound(c, p, me, g.request.from, Expiry(c, g));
    }
  }

  lemma {:induction false} SendKeepsHolder(c: Setting, p: int, me: Party, to: int, lag: nat, requests: set<Request>,
                                        grants: set<Grant>, instant: nat)
    requires HolderSound(c, p, me, requests, grants) && Ready(c, p, me, Send(p, to, lag), c.clock(p, instant))
    ensures var after := Local(c, p, me, Send(p, to, lag), c.clock(p, instant));
      HolderSound(c, p, after, requests + {Sent(p, to, after, instant)}, grants)
  {
    var after := Local(c, p, me, Send(p, to, lag), c.clock(p, instant));
    var was, h, sent := me.holder, after.holder, Sent(p, to, after, instant);
    assert Answers(c, p, sent.process, sent.id, h.outstanding[sent.id], sent);
    forall id | id in h.outstanding
      ensures id <= h.lastRequestId
      ensures exists r :: r in requests + {sent} && Answers(c, p, sent.process, id, h.outstanding[id], r)
    {
      if id != sent.id {
        assert id in was.outstanding && h.outstanding[id] == was.outstanding[id];
        var r :| r in requests && Answers(c, p, me.process, id, was.outstanding[id], r);
        assert r in requests + {sent};
      }
    }
  }

  lemma {:induction false} SendKeepsSound(c: Setting, p: int, me: Party, to: int, lag: nat, requests: set<Request>,
                                        grants: set<Grant>, instant: nat)
    requires PartySound(c, requests, grants, instant, p, me) && Ready(c, p, me, Send(p, to, lag), c.clock(p, instant))
    ensures var after := Local(c, p, me, Send(p, to, lag), c.clock(p, instant));
      PartySound(c, requests + {Sent(p, to, after, instant)}, grants, instant, p, after)
  {
    SendKeepsHolder(c, p, me, to, lag, requests, grants, instant);
    StaysBound(c, grants, instant, p, me, Local(c, p, me, Send(p, to, lag), c.clock(p, instant)));
  }

  lemma {:induction false} MoreRequestsSound(c: Setting, p: int, me: Party, requests: set<Request>,
                                        more: set<Request>, grants: set<Grant>, instant: nat)
    requires PartySound(c, requests, grants, instant, p, me) && requests <= more
    ensures PartySound(c, more, grants, instant, p, me)
  {
    forall id | id in me.holder.outstanding
      ensures exists r :: r in more && Answers(c, p, me.process, id, me.holder.outstanding[id], r)
    {
      var r :| r in requests && Answers(c, p, me.process, id, me.holder.outstanding[id], r);
      assert r in more;
    }
  }

  lemma {:induction false} SendKeepsRequests(c: Setting, s: System, p: int, to: int, lag: nat)
    requires Inv(c, s) && Enabled(c, s, Send(p, to, lag))
    ensures RequestsSound(c, Next(c, s, Send(p, to, lag)))
  {
    var t := Next(c, s, Send(p, to, lag));
    var me, sent := t.parties[p], Sent(p, to, t.parties[p], s.now);
    SameProcessKeepsRequests(c, s, p, me);
    assert forall r :: r in s.requests ==> RequestSound(c, s, r);
    assert RequestSound(c, t, sent);
    assert forall r :: r in s.requests ==> RequestSound(c, t, r) by {
      assert forall r :: r in s.requests ==> RequestSound(c, s.With(p, me), r);
    }
  }

  lemma {:induction false} SendKeepsInv(c: Setting, s: System, p: int, to: int, lag: nat)
    requires Inv(c, s) && Enabled(c, s, Send(p, to, lag))
    ensures Inv(c, Next(c, s, Send(p, to, lag)))
  {
    var t := Next(c, s, Send(p, to, lag));
    SendKeepsRequests(c, s, p, to, lag);
    SendKeepsSound(c, p, s.parties[p], to, lag, s.requests, s.grants, s.now);
    forall q | q in PARTIES ensures PartySound(c, t.requests, t.grants, t.now, q, t.parties[q]) {
      if q != p {
        MoreRequestsSound(c, q, s.parties[q], s.requests, t.requests, s.grants, s.now);
      }
    }
  }

  // A party hears, learns, says or stops.

  /** The vote stays bound when the party only becomes stricter, or stops leading. */
  lemma {:induction false} StaysBound(c: Setting, grants: set<Grant>, instant: nat, p: int, was: Party, me: Party)
    requires VoteBound(c, grants, instant, p, was) && was.up && me.up
    requires me.keeper == was.keeper && (me.holder.mode.Idle? || me.holder.mode == was.holder.mode)
    requires me.voter.quietUntil == was.voter.quietUntil && me.voter.promisedTo == was.voter.promisedTo
    requires me.voter.promiseExpires == was.voter.promiseExpires
    ensures VoteBound(c, grants, instant, p, me)
  {
    forall g | g in grants && g.request.to == p && Live(c, instant, g) ensures Bound(c, p, me, g.request.from, Expiry(c, g)) {
      assert Bound(c, p, was, g.request.from, Expiry(c, g));
    }
  }

  lemma {:induction false} GaveUpHolder(c: Setting, p: int, me: Party, requests: set<Request>, grants: set<Grant>,
                                        until: int)
    requires HolderSound(c, p, me, requests, grants)
    ensures HolderSound(c, p, me.GaveUp().(waitUntil := until), requests, grants)
  {
  }

  lemma {:induction false} StopKeepsSound(c: Setting, p: int, me: Party, requests: set<Request>, grants: set<Grant>,
                                        instant: nat, until: int)
    requires PartySound(c, requests, grants, instant, p, me) && me.up
    ensures PartySound(c, requests, grants, instant, p, me.GaveUp().(waitUntil := until))
  {
    GaveUpHolder(c, p, me, requests, grants, until);
    StaysBound(c, grants, instant, p, me, me.GaveUp().(waitUntil := until));
  }

  lemma {:induction false} VoterHolder(c: Setting, p: int, me: Party, requests: set<Request>, grants: set<Grant>,
                                       voter: Voter, said: Statement)
    requires HolderSound(c, p, me, requests, grants)
    requires voter == me.voter.(highestEpoch := voter.highestEpoch, statement := voter.statement)
    requires me.voter.highestEpoch <= voter.highestEpoch
    ensures HolderSound(c, p, me.(voter := voter, said := said), requests, grants)
  {
  }

  lemma {:induction false} VoterStepKeepsSound(c: Setting, p: int, me: Party, requests: set<Request>,
                                        grants: set<Grant>, instant: nat,
                                               voter: Voter, said: Statement)
    requires PartySound(c, requests, grants, instant, p, me) && me.up
    requires voter == me.voter.(highestEpoch := voter.highestEpoch, statement := voter.statement)
    requires me.voter.highestEpoch <= voter.highestEpoch
    ensures PartySound(c, requests, grants, instant, p, me.(voter := voter, said := said))
  {
    VoterHolder(c, p, me, requests, grants, voter, said);
    StaysBound(c, grants, instant, p, me, me.(voter := voter, said := said));
  }

  // A grant or a refusal arrives.

  lemma {:induction false} RefusalHolder(c: Setting, p: int, me: Party, requests: set<Request>, grants: set<Grant>, id: int)
    requires HolderSound(c, p, me, requests, grants)
    ensures HolderSound(c, p, me.(holder := me.holder.AfterRefusal(id)), requests, grants)
  {
  }

  lemma {:induction false} RefusalKeepsSound(c: Setting, p: int, me: Party, requests: set<Request>,
                                        grants: set<Grant>, instant: nat,
                                             f: Refusal, wait: int)
    requires PartySound(c, requests, grants, instant, p, me) && me.up
    ensures PartySound(c, requests, grants, instant, p, RefusalTaken(me, f, wait, c.clock(p, instant)))
  {
    var settled := me.(holder := me.holder.AfterRefusal(f.request.id));
    RefusalHolder(c, p, me, requests, grants, f.request.id);
    StaysBound(c, grants, instant, p, me, settled);
    VoterStepKeepsSound(c, p, settled, requests, grants, instant, me.voter.Learnt(f.highest), me.said);
    var told := settled.(voter := me.voter.Learnt(f.highest));
    StopKeepsSound(c, p, told, requests, grants, instant, c.clock(p, instant) + wait);
  }

  /** The request a grant answers is the only one its number can stand for. */
  predicate OnlyOne(p: int, process: nat, requests: set<Request>, r: Request) {
    forall q :: q in requests && q.from == p && q.process == process && q.id == r.id ==> q == r
  }

  lemma {:induction false} GrantOnlyOne(c: Setting, s: System, g: Grant, was: Party)
    requires c.Sound() && Inv(c, s) && Enabled(c, s, TakeGrant(g)) && was == s.parties[g.request.from]
    requires g.request.id in was.holder.outstanding && was.holder.epoch == g.request.epoch && !was.holder.mode.Idle?
    ensures OnlyOne(g.request.from, was.process, s.requests, g.request)
  {
    var r := g.request;
    assert RequestSound(c, s, r) && PartySound(c, s.requests, s.grants, s.now, r.from, was);
    assert r.process == was.process;
  }

  /** The lease a grant gives or extends is justified by it. */
  lemma {:induction false} GrantJustifies(c: Setting, p: int, me: Party, requests: set<Request>, grants: set<Grant>,
                                        g: Grant)
    requires HolderSound(c, p, me, requests, grants) && g in grants && g.request.from == p
    requires me.holder.Matches(g.request.to, g.request.id) && OnlyOne(p, me.process, requests, g.request)
    ensures Justifies(c, p, g.request.to, me.holder.outstanding[g.request.id].sentAt + (c.period - c.drift), g)
  {
    var r := g.request;
    var q :| q in requests && Answers(c, p, me.process, r.id, me.holder.outstanding[r.id], q);
    assert q == r;
  }

  lemma {:induction false} GrantHolder(c: Setting, p: int, me: Party, requests: set<Request>, grants: set<Grant>,
                                       g: Grant, now: int)
    requires HolderSound(c, p, me, requests, grants) && g in grants && g.request.from == p && 0 <= now
    requires !me.holder.mode.Idle? && me.holder.epoch == g.request.epoch && g.request.id in me.holder.outstanding
      ==> OnlyOne(p, me.process, requests, g.request)
    ensures var r := g.request;
      HolderSound(c, p, me.(holder := me.holder.AfterGrant(c.period - c.drift, r.to, r.id, r.epoch, now)), requests, grants)
  {
    var r, h, term := g.request, me.holder, c.period - c.drift;
    var expiries := h.AfterGrant(term, r.to, r.id, r.epoch, now).expiries;
    if !h.GrantEvent(term, r.to, r.id, r.epoch, now).Nothing? {
      GrantJustifies(c, p, me, requests, grants, g);
      forall v | v in expiries ensures exists f :: f in grants && Justifies(c, p, v, expiries[v], f) {
        if v == r.to && expiries[v] == h.outstanding[r.id].sentAt + term {
          assert Justifies(c, p, v, expiries[v], g);
        } else {
          assert v in h.expiries && expiries[v] == h.expiries[v];
        }
      }
    }
  }

  lemma {:induction false} GrantKeepsSound(c: Setting, p: int, me: Party, requests: set<Request>, grants: set<Grant>,
                                        instant: nat, g: Grant)
    requires c.ClocksRunForward() && PartySound(c, requests, grants, instant, p, me) && me.up && g in grants
      && g.request.from == p
    requires !me.holder.mode.Idle? && me.holder.epoch == g.request.epoch && g.request.id in me.holder.outstanding
      ==> OnlyOne(p, me.process, requests, g.request)
    ensures PartySound(c, requests, grants, instant, p, GrantTaken(c, p, me, g, c.clock(p, instant)))
  {
    var r, now := g.request, c.clock(p, instant);
    var taken := me.(holder := me.holder.AfterGrant(c.period - c.drift, r.to, r.id, r.epoch, now));
    GrantHolder(c, p, me, requests, grants, g, now);
    forall f | f in grants && f.request.to == p && Live(c, instant, f) ensures Bound(c, p, taken, f.request.from, Expiry(c, f)) {
      assert Bound(c, p, me, f.request.from, Expiry(c, f));
    }
    var after := GrantTaken(c, p, me, g, now);
    VoterStepKeepsSound(c, p, taken, requests, grants, instant, after.voter, after.said);
  }

  // The record, and a crash.

  /** A change of record that unbinds no vote. */
  ghost predicate KeepsBinding(c: Setting, p: int, me: Party, keeper: Keeper) {
    forall to, expires :: Bound(c, p, me, to, expires) ==> Bound(c, p, me.(keeper := keeper), to, expires)
  }

  lemma {:induction false} KeeperHolder(c: Setting, p: int, me: Party, requests: set<Request>, grants: set<Grant>,
                                        keeper: Keeper, up: bool)
    requires HolderSound(c, p, me, requests, grants)
    ensures HolderSound(c, p, me.(keeper := keeper, up := up), requests, grants)
  {
  }

  lemma {:induction false} KeeperStepKeepsSound(c: Setting, p: int, me: Party, requests: set<Request>,
                                        grants: set<Grant>, instant: nat, keeper: Keeper)
    requires PartySound(c, requests, grants, instant, p, me) && me.up && KeeperSound(keeper)
      && KeepsBinding(c, p, me, keeper)
    ensures PartySound(c, requests, grants, instant, p, me.(keeper := keeper))
  {
    KeeperHolder(c, p, me, requests, grants, keeper, true);
  }

  lemma {:induction false} EnsuredKeepsSound(k: Keeper, to: int, expires: int, held: Statement)
    requires KeeperSound(k)
    ensures KeeperSound(k.Ensured(to, expires, held))
  {
  }

  lemma {:induction false} WantedKeepsBinding(c: Setting, p: int, me: Party, held: Statement)
    requires KeeperSound(me.keeper)
    ensures KeeperSound(me.keeper.WantedStarted(held)) && KeepsBinding(c, p, me, me.keeper.WantedStarted(held))
  {
  }

  lemma {:induction false} LandedKeepsBinding(c: Setting, p: int, me: Party)
    requires KeeperSound(me.keeper) && me.keeper.inFlight.Some?
    ensures KeeperSound(me.keeper.Landed()) && (me.up ==> KeepsBinding(c, p, me, me.keeper.Landed()))
  {
  }

  lemma {:induction false} AdoptedKeepsBinding(c: Setting, p: int, me: Party)
    requires KeeperSound(me.keeper) && me.keeper.inFlight.Some?
    ensures KeeperSound(me.keeper.Adopted()) && KeepsBinding(c, p, me, me.keeper.Adopted())
  {
  }

  /** Once nothing has been forgotten, writing the promise again beside a statement unbinds no vote. */
  lemma {:induction false} StatementKeepsSound(c: Setting, p: int, me: Party, requests: set<Request>,
                                        grants: set<Grant>, instant: nat)
    requires PartySound(c, requests, grants, instant, p, me) && me.up && WritesWithCare(me, c.clock(p, instant))
    ensures PartySound(c, requests, grants, instant, p, me.(keeper := me.keeper.StatementWritten(me.voter.statement)))
  {
    var keeper := me.keeper.StatementWritten(me.voter.statement);
    KeeperHolder(c, p, me, requests, grants, keeper, true);
    forall g | g in grants && g.request.to == p && Live(c, instant, g)
      ensures Bound(c, p, me.(keeper := keeper), g.request.from, Expiry(c, g))
    {
      assert Bound(c, p, me, g.request.from, Expiry(c, g));
    }
  }

  lemma {:induction false} CrashKeepsSound(c: Setting, p: int, me: Party, requests: set<Request>, grants: set<Grant>,
                                        instant: nat)
    requires PartySound(c, requests, grants, instant, p, me) && me.up
    ensures PartySound(c, requests, grants, instant, p, me.(up := false))
  {
    KeeperHolder(c, p, me, requests, grants, me.keeper, false);
    forall g | g in grants && g.request.to == p && Live(c, instant, g)
      ensures Bound(c, p, me.(up := false), g.request.from, Expiry(c, g))
    {
      assert Bound(c, p, me, g.request.from, Expiry(c, g));
    }
  }

  // A restart.

  /** A live promise outlasts a restart: read back from the record, or waited out. */
  lemma {:induction false} RestartKeepsBound(c: Setting, p: int, was: Party, now: int, step: Step, to: int, expires: int)
    requires step.Restart? && !was.up && to != p && to != 0 && expires <= now + c.period && now < expires
    requires Bound(c, p, was, to, expires)
    ensures Bound(c, p, Restarted(c, p, was, step.lost, step.epoch, step.said, now), to, expires)
  {
  }

  lemma {:induction false} RestartKeepsRequestsSound(c: Setting, s: System, step: Step, me: Party)
    requires Inv(c, s) && step.Restart? && Enabled(c, s, step)
    requires me == Restarted(c, step.p, s.parties[step.p], step.lost, step.epoch, step.said, c.clock(step.p, s.now))
    ensures RequestsSound(c, s.With(step.p, me))
  {
    forall r | r in s.requests ensures RequestSound(c, s.With(step.p, me), r) {
      assert RequestSound(c, s, r);
    }
  }

  lemma {:induction false} RestartKeepsInv(c: Setting, s: System, step: Step)
    requires c.Sound() && Inv(c, s) && step.Restart? && Enabled(c, s, step)
    ensures Inv(c, Next(c, s, step))
  {
    var p, now := step.p, c.clock(step.p, s.now);
    var me := Restarted(c, p, s.parties[p], step.lost, step.epoch, step.said, now);
    RestartKeepsRequestsSound(c, s, step, me);
    GrantsFromOthers(c, s);
    forall g | g in s.grants && g.request.to == p && Live(c, s.now, g) ensures Bound(c, p, me, g.request.from, Expiry(c, g)) {
      assert PartySound(c, s.requests, s.grants, s.now, p, s.parties[p]);
      RestartKeepsBound(c, p, s.parties[p], now, step, g.request.from, Expiry(c, g));
    }
    OnePartyKeepsInv(c, s, p, me);
  }

  // A request is delivered.

  /** A voter that is up and has a live promise grants nobody but the instance it promised. */
  lemma {:induction false} BoundVoteRefusesOthers(c: Setting, v: int, party: Party, r: Request, now: int, to: int,
                                        expires: int)
    requires party.up && now < expires && to != 0 && Bound(c, v, party, to, expires)
    ensures Yielded(party, r, now) == party
    ensures party.voter.Judge(r.from, r.epoch, now).Granted? ==> r.from == to && party.voter.promisedTo == to
  {
  }

  lemma {:induction false} EnsuredRemembers(k: Keeper, to: int, expires: int, later: int, held: Statement)
    requires Remembers(k, to, expires) && expires <= later
    ensures Remembers(k.Ensured(to, later, held), to, expires)
  {
  }

  /** An answer keeps an earlier promise; if it grants, it is to the instance promised. */
  lemma {:induction false} AnswerKeepsBound(c: Setting, p: int, me: Party, r: Request, now: int, to: int, expires: int)
    requires me.up && now < expires <= now + c.period && to != 0 && Bound(c, p, me, to, expires)
    ensures Bound(c, p, Answered(c, p, me, r, now), to, expires)
    ensures GrantsIt(c, p, me, r, now) ==> r.from == to
  {
    BoundVoteRefusesOthers(c, p, me, r, now, to, expires);
    if me.voter.Judge(r.from, r.epoch, now).Granted? && c.Keeps(p) {
      EnsuredRemembers(me.keeper, r.from, expires, now + c.period, me.voter.statement);
    }
  }

  lemma {:induction false} YieldedHolder(c: Setting, p: int, v: Party, r: Request, now: int, requests: set<Request>,
                                        grants: set<Grant>)
    requires HolderSound(c, p, v, requests, grants)
    ensures HolderSound(c, p, Yielded(v, r, now), requests, grants)
  {
  }

  /** The holder's side does not depend on what the vote was given for, nor on the record. */
  lemma {:induction false} ConsideredHolder(c: Setting, p: int, v: Party, r: Request, now: int, keeper: Keeper,
                                            requests: set<Request>, grants: set<Grant>)
    requires HolderSound(c, p, v, requests, grants)
    ensures HolderSound(c, p, v.(voter := v.voter.Considered(c.period, r.from, r.epoch, now), keeper := keeper), requests, grants)
  {
  }

  lemma {:induction false} AnswerKeepsSound(c: Setting, p: int, me: Party, requests: set<Request>,
                                        grants: set<Grant>, instant: nat, r: Request)
    requires c.ClocksRunForward() && FromOthers(grants) && PartySound(c, requests, grants, instant, p, me) && me.up
    requires forall g :: g in grants ==> g.at <= instant
    ensures PartySound(c, requests, grants, instant, p, Answered(c, p, me, r, c.clock(p, instant)))
  {
    var now := c.clock(p, instant);
    var v, after := Yielded(me, r, now), Answered(c, p, me, r, now);
    YieldedHolder(c, p, me, r, now, requests, grants);
    EnsuredKeepsSound(v.keeper, r.from, now + c.period, v.voter.statement);
    ConsideredHolder(c, p, v, r, now, after.keeper, requests, grants);
    forall g | g in grants && g.request.to == p && Live(c, instant, g) ensures Bound(c, p, after, g.request.from, Expiry(c, g)) {
      AnswerKeepsBound(c, p, me, r, now, g.request.from, Expiry(c, g));
    }
  }

  /** The new grant is bound from the moment it is sent. */
  lemma {:induction false} NewGrantBound(c: Setting, p: int, me: Party, r: Request, now: int)
    requires me.up && KeeperSound(me.keeper) && (me.voter.heldForSelf || me.holder.mode.Idle?) && r.from != 0
    requires GrantsIt(c, p, me, r, now) && (c.Keeps(p) ==> me.keeper.PendingCovers(r.from, now + c.period))
    ensures Bound(c, p, Answered(c, p, me, r, now), r.from, now + c.period)
  {
    if c.Keeps(p) {
      var v := Yielded(me, r, now);
      assert Remembers(v.keeper, r.from, now + c.period);
      EnsuredRemembers(v.keeper, r.from, now + c.period, now + c.period, v.voter.statement);
    }
  }

  /** A grant sent now joins only grants to the same instance. */
  lemma {:induction false} NewGrantOneVoteEach(c: Setting, s: System, r: Request, g: Grant)
    requires c.Sound() && Inv(c, s) && Enabled(c, s, Receive(r)) && Grants(c, s, r) && g == Grant(r, s.now)
    ensures OneVoteEach(c, s.grants + {g}, s.now)
  {
    GrantsFromOthers(c, s);
    forall f | f in s.grants && f.request.to == r.to && Live(c, s.now, f) ensures f.request.from == r.from {
      assert PartySound(c, s.requests, s.grants, s.now, r.to, s.parties[r.to]);
      AnswerKeepsBound(c, r.to, s.parties[r.to], r, c.clock(r.to, s.now), f.request.from, Expiry(c, f));
    }
  }

  lemma {:induction false} MoreGrantsSound(c: Setting, p: int, me: Party, requests: set<Request>, grants: set<Grant>,
                                        instant: nat, g: Grant)
    requires PartySound(c, requests, grants, instant, p, me)
    requires g.request.to == p ==> Bound(c, p, me, g.request.from, Expiry(c, g))
    ensures PartySound(c, requests, grants + {g}, instant, p, me)
  {
    forall v | v in me.holder.expiries ensures exists f :: f in grants + {g} && Justifies(c, p, v, me.holder.expiries[v], f) {
      var f :| f in grants && Justifies(c, p, v, me.holder.expiries[v], f);
      assert f in grants + {g};
    }
  }

  lemma {:induction false} AddGrantKeepsInv(c: Setting, s: System, g: Grant)
    requires Inv(c, s) && g.request in s.requests && g.at == s.now && g.request.to in PARTIES
    requires Bound(c, g.request.to, s.parties[g.request.to], g.request.from, Expiry(c, g))
    requires OneVoteEach(c, s.grants + {g}, s.now)
    ensures Inv(c, s.(grants := s.grants + {g}))
  {
    var t := s.(grants := s.grants + {g});
    assert RequestsSound(c, t) by {
      assert forall r :: r in s.requests ==> RequestSound(c, s, r) && RequestSound(c, t, r);
    }
    forall p | p in PARTIES ensures PartySound(c, t.requests, t.grants, t.now, p, t.parties[p]) {
      MoreGrantsSound(c, p, s.parties[p], s.requests, s.grants, s.now, g);
    }
  }

  lemma {:induction false} AddRefusalKeepsInv(c: Setting, s: System, refusals: set<Refusal>)
    requires Inv(c, s)
    ensures Inv(c, s.(refusals := refusals))
  {
    var t := s.(refusals := refusals);
    assert RequestsSound(c, t) by {
      assert forall r :: r in s.requests ==> RequestSound(c, s, r) && RequestSound(c, t, r);
    }
  }

  lemma {:induction false} AnswerKeepsInv(c: Setting, s: System, r: Request, me: Party)
    requires c.Sound() && Inv(c, s) && Enabled(c, s, Receive(r))
    requires me == Answered(c, r.to, s.parties[r.to], r, c.clock(r.to, s.now))
    ensures Inv(c, s.With(r.to, me))
  {
    GrantsFromOthers(c, s);
    assert PartySound(c, s.requests, s.grants, s.now, r.to, s.parties[r.to]);
    AnswerKeepsSound(c, r.to, s.parties[r.to], s.requests, s.grants, s.now, r);
    PartyStepKeepsInv(c, s, r.to, me);
  }

  lemma {:induction false} AnswerGrantKeepsInv(c: Setting, s: System, r: Request, me: Party)
    requires c.Sound() && Inv(c, s) && Enabled(c, s, Receive(r)) && Careful(c, s, Receive(r)) && Grants(c, s, r)
    requires me == Answered(c, r.to, s.parties[r.to], r, c.clock(r.to, s.now))
    ensures Inv(c, s.With(r.to, me).(grants := s.grants + {Grant(r, s.now)}))
  {
    AnswerKeepsInv(c, s, r, me);
    assert RequestSound(c, s, r) && PartySound(c, s.requests, s.grants, s.now, r.to, s.parties[r.to]);
    NewGrantBound(c, r.to, s.parties[r.to], r, c.clock(r.to, s.now));
    NewGrantOneVoteEach(c, s, r, Grant(r, s.now));
    AddGrantKeepsInv(c, s.With(r.to, me), Grant(r, s.now));
  }

  lemma {:induction false} ReceiveKeepsInv(c: Setting, s: System, r: Request)
    requires c.Sound() && Inv(c, s) && Enabled(c, s, Receive(r)) && Careful(c, s, Receive(r))
    ensures Inv(c, Next(c, s, Receive(r)))
  {
    var me := Answered(c, r.to, s.parties[r.to], r, c.clock(r.to, s.now));
    if Grants(c, s, r) {
      AnswerGrantKeepsInv(c, s, r, me);
    } else {
      AnswerKeepsInv(c, s, r, me);
      AddRefusalKeepsInv(c, s.With(r.to, me), s.refusals + {Refusal(r, me.voter.highestEpoch)});
    }
  }

  // ---- Every step ------------------------------------------------------------------------------

  /** The steps that change one party and send nothing. */
  predicate Quiet(step: Step) {
    !step.Tick? && !step.Send? && !step.Receive? && !step.Restart?
  }

  lemma {:induction false} QuietKeepsProcess(c: Setting, p: int, me: Party, step: Step, now: int)
    requires Quiet(step) && Ready(c, p, me, step, now)
    ensures SameProcess(me, Local(c, p, me, step, now))
  {
  }

  lemma {:induction false} RecordStepKeepsSound(c: Setting, p: int, me: Party, requests: set<Request>,
                                        grants: set<Grant>, instant: nat, step: Step)
    requires PartySound(c, requests, grants, instant, p, me) && Ready(c, p, me, step, c.clock(p, instant))
    requires step.RecordLeading? || step.StartWanted? || step.Land? || step.Adopt?
    ensures PartySound(c, requests, grants, instant, p, Local(c, p, me, step, c.clock(p, instant)))
  {
    match step
    case RecordLeading(_) => EnsuredKeepsSound(me.keeper, p, Latest(me.holder.expiries), me.voter.statement);
    case StartWanted(_) => WantedKeepsBinding(c, p, me, me.voter.statement);
    case Land(_) => LandedKeepsBinding(c, p, me);
    case Adopt(_) => AdoptedKeepsBinding(c, p, me);
    KeeperStepKeepsSound(c, p, me, requests, grants, instant, Local(c, p, me, step, c.clock(p, instant)).keeper);
  }

  lemma {:induction false} VoterOnlyKeepsSound(c: Setting, p: int, me: Party, requests: set<Request>,
                                        grants: set<Grant>, instant: nat, step: Step)
    requires PartySound(c, requests, grants, instant, p, me) && Ready(c, p, me, step, c.clock(p, instant))
    requires step.Hear? || step.Say? || step.Learn?
    ensures PartySound(c, requests, grants, instant, p, Local(c, p, me, step, c.clock(p, instant)))
  {
    var after := Local(c, p, me, step, c.clock(p, instant));
    VoterStepKeepsSound(c, p, me, requests, grants, instant, after.voter, after.said);
  }

  lemma {:induction false} QuietKeepsSound(c: Setting, s: System, step: Step, p: int, me: Party)
    requires c.Sound() && Inv(c, s) && Enabled(c, s, step) && Careful(c, s, step) && Quiet(step)
    requires p == Actor(step) && me == s.parties[p]
    ensures PartySound(c, s.requests, s.grants, s.now, p, Local(c, p, me, step, c.clock(p, s.now)))
  {
    assert PartySound(c, s.requests, s.grants, s.now, p, me);
    match step
    case Ask(_) =>
      GrantsFromOthers(c, s);
      AskKeepsSound(c, p, me, s.requests, s.grants, s.now);
    case TakeGrant(g) =>
      if !me.holder.mode.Idle? && me.holder.epoch == g.request.epoch && g.request.id in me.holder.outstanding {
        GrantOnlyOne(c, s, g, me);
      }
      GrantKeepsSound(c, p, me, s.requests, s.grants, s.now, g);
    case TakeRefusal(f, wait) => RefusalKeepsSound(c, p, me, s.requests, s.grants, s.now, f, wait);
    case Stop(_, until) => StopKeepsSound(c, p, me, s.requests, s.grants, s.now, until);
    case WriteStatement(_) => StatementKeepsSound(c, p, me, s.requests, s.grants, s.now);
    case Crash(_) => CrashKeepsSound(c, p, me, s.requests, s.grants, s.now);
    case _ =>
      if step.Hear? || step.Say? || step.Learn? {
        VoterOnlyKeepsSound(c, p, me, s.requests, s.grants, s.now, step);
      } else {
        RecordStepKeepsSound(c, p, me, s.requests, s.grants, s.now, step);
      }
  }

  lemma {:induction false} QuietKeepsInv(c: Setting, s: System, step: Step)
    requires c.Sound() && Inv(c, s) && Enabled(c, s, step) && Careful(c, s, step) && Quiet(step)
    ensures Inv(c, Next(c, s, step))
  {
    var p := Actor(step);
    var me := Local(c, p, s.parties[p], step, c.clock(p, s.now));
    QuietKeepsSound(c, s, step, p, s.parties[p]);
    QuietKeepsProcess(c, p, s.parties[p], step, c.clock(p, s.now));
    PartyStepKeepsInv(c, s, p, me);
    QuietIsLocal(c, s, step, me);
  }

  lemma {:induction false} QuietIsLocal(c: Setting, s: System, step: Step, me: Party)
    requires s.parties.Keys == PARTIES && Enabled(c, s, step) && Quiet(step)
    requires me == Local(c, Actor(step), s.parties[Actor(step)], step, c.clock(Actor(step), s.now))
    ensures Next(c, s, step) == s.With(Actor(step), me)
  {
  }

  lemma {:induction false} StepKeepsInv(c: Setting, s: System, step: Step)
    requires c.Sound() && Inv(c, s) && Enabled(c, s, step) && Careful(c, s, step)
    ensures Inv(c, Next(c, s, step))
  {
    if Quiet(step) {
      QuietKeepsInv(c, s, step);
    } else if step.Tick? {
      TickKeepsInv(c, s);
    } else if step.Send? {
      SendKeepsInv(c, s, step.p, step.to, step.lag);
    } else if step.Receive? {
      ReceiveKeepsInv(c, s, step.request);
    } else {
      RestartKeepsInv(c, s, step);
    }
  }

  // ---- Every run -------------------------------------------------------------------------------

  /** A run from the moment nothing has been started, as the steps taken and the states passed through. */
  ghost predicate Run(c: Setting, states: seq<System>, steps: seq<Step>) {
    && |states| == |steps| + 1
    && states[0] == INITIAL
    && forall k :: 0 <= k < |steps| ==> Taken(c, states[k], steps[k], states[k + 1])
  }

  ghost predicate Taken(c: Setting, s: System, step: Step, t: System) {
    s.parties.Keys == PARTIES && Enabled(c, s, step) && t == Next(c, s, step)
  }

  ghost predicate CarefulAt(c: Setting, s: System, step: Step) {
    s.parties.Keys == PARTIES ==> Careful(c, s, step)
  }

  lemma {:induction false} RunKeepsInv(c: Setting, states: seq<System>, steps: seq<Step>, k: nat)
    requires c.Sound() && Run(c, states, steps) && k <= |steps|
    requires forall j :: 0 <= j < |steps| ==> CarefulAt(c, states[j], steps[j])
    ensures Inv(c, states[k])
  {
    if k == 0 {
      InitialInv(c);
    } else {
      RunKeepsInv(c, states, steps, k - 1);
      assert Taken(c, states[k - 1], steps[k - 1], states[k]) && CarefulAt(c, states[k - 1], steps[k - 1]);
      StepKeepsInv(c, states[k - 1], steps[k - 1]);
    }
  }

  lemma {:induction false} Justification(c: Setting, p: int, me: Party, requests: set<Request>, grants: set<Grant>,
                                        v: int) returns (g: Grant)
    requires HolderSound(c, p, me, requests, grants) && v in me.holder.expiries
    ensures g in grants && Justifies(c, p, v, me.holder.expiries[v], g)
  {
    g :| g in grants && Justifies(c, p, v, me.holder.expiries[v], g);
  }

  /** An instance that acts holds a grant its voter still counts as a live promise. */
  lemma {:induction false} ActingNeedsLiveGrant(c: Setting, s: System, p: int) returns (g: Grant)
    requires c.Sound() && Inv(c, s) && p in {1, 2} && Acts(c, s, p)
    ensures g in s.grants && g.request.from == p && Live(c, s.now, g) && g.request.to in PARTIES - {p}
  {
    var held := s.parties[p].holder.expiries;
    var v :| v in held && c.clock(p, s.now) < held[v] + c.overrun;
    assert PartySound(c, s.requests, s.grants, s.now, p, s.parties[p]);
    g := Justification(c, p, s.parties[p], s.requests, s.grants, v);
    assert RequestSound(c, s, g.request);
    JustifiedIsLive(c, s, p, v, held[v], g);
  }

  /** The voter counts its promise from no earlier than the leader counts its lease, and for longer. */
  lemma {:induction false} JustifiedIsLive(c: Setting, s: System, p: int, v: int, expires: int, g: Grant)
    requires c.Sound() && Justifies(c, p, v, expires, g) && g.request.at <= g.at && g.request.at <= s.now
    requires p in PARTIES && v in PARTIES && c.clock(p, s.now) < expires + c.overrun
    ensures Live(c, s.now, g)
  {
    SlowClocksAgree(c, p, v, g.request.at, s.now);
  }

  /** While one machine counts less than a shortened lease, no other counts a whole lease period. */
  lemma {:induction false} SlowClocksAgree(c: Setting, p: int, q: int, t: nat, u: nat)
    requires c.Sound() && t <= u && c.clock(p, u) - c.clock(p, t) < c.period - c.drift + c.overrun
    ensures c.clock(q, u) - c.clock(q, t) < c.period
  {
    var a, b := c.clock(p, u) - c.clock(p, t), c.clock(q, u) - c.clock(q, t);
    assert c.RateKept(p, q, t, u);
    RateWithin(a as real, b as real, c.period as real, c.drift as real, c.overrun as real, c.rate);
  }

  lemma {:induction false} RateWithin(a: real, b: real, period: real, drift: real, overrun: real, rate: real)
    requires 0.0 <= rate && 0.0 <= period && b <= (1.0 + rate) * a
    requires a < period - drift + overrun && overrun + rate * period <= drift
    ensures b < period
  {
    var most := period - rate * period;
    assert a < most;
    assert (1.0 + rate) * (most - a) > 0.0;
    assert (1.0 + rate) * (most - a) == (1.0 + rate) * most - (1.0 + rate) * a;
    assert (1.0 + rate) * most == period - rate * rate * period;
    assert rate * rate * period >= 0.0;
  }

  /** An instance that leads has given nobody else a vote that still counts. */
  lemma {:induction false} LeaderHasNoLiveGrant(c: Setting, s: System, p: int, g: Grant)
    requires Inv(c, s) && p in PARTIES && Acts(c, s, p) && g in s.grants && Live(c, s.now, g)
    ensures g.request.to != p
  {
    assert PartySound(c, s.requests, s.grants, s.now, p, s.parties[p]);
  }

  lemma {:induction false} InvExcludesTwoLeaders(c: Setting, s: System)
    requires c.Sound() && Inv(c, s)
    ensures !(Acts(c, s, 1) && Acts(c, s, 2))
  {
    if Acts(c, s, 1) && Acts(c, s, 2) {
      var g := ActingNeedsLiveGrant(c, s, 1);
      var f := ActingNeedsLiveGrant(c, s, 2);
      LeaderHasNoLiveGrant(c, s, 2, g);
      LeaderHasNoLiveGrant(c, s, 1, f);
      assert false;
    }
  }

  /** At no moment of any run do both instances act as leader. */
  lemma {:induction false} AtMostOneInstanceActs(c: Setting, states: seq<System>, steps: seq<Step>)
    requires c.Sound() && Run(c, states, steps)
    requires forall j :: 0 <= j < |steps| ==> CarefulAt(c, states[j], steps[j])
    ensures forall k :: 0 <= k < |states| ==>
              states[k].parties.Keys == PARTIES && !(Acts(c, states[k], 1) && Acts(c, states[k], 2))
  {
    forall k | 0 <= k < |states|
      ensures states[k].parties.Keys == PARTIES && !(Acts(c, states[k], 1) && Acts(c, states[k], 2))
    {
      RunKeepsInv(c, states, steps, k);
      InvExcludesTwoLeaders(c, states[k]);
    }
  }

  // ---- Epochs name their leaders ---------------------------------------------------------------

  /** An instance that leads or asks to lead does so in an epoch whose remainder is its own number. */
  predicate EpochsNameInstances(s: System) {
    forall p :: p in s.parties && !s.parties[p].holder.mode.Idle? ==> s.parties[p].holder.epoch % EPOCH_STRIDE == p
  }

  lemma {:induction false} RunKeepsEpochs(c: Setting, states: seq<System>, steps: seq<Step>, k: nat)
    requires Run(c, states, steps) && k <= |steps|
    ensures EpochsNameInstances(states[k])
  {
    if k > 0 {
      RunKeepsEpochs(c, states, steps, k - 1);
      assert Taken(c, states[k - 1], steps[k - 1], states[k]);
      StepKeepsEpochs(c, states[k - 1], steps[k - 1]);
    }
  }

  predicate EpochNames(p: int, party: Party) {
    party.holder.mode.Idle? || party.holder.epoch % EPOCH_STRIDE == p
  }

  lemma {:induction false} WithKeepsEpochs(s: System, p: int, party: Party)
    requires EpochsNameInstances(s) && EpochNames(p, party)
    ensures EpochsNameInstances(s.With(p, party))
  {
  }

  lemma {:induction false} AskNames(c: Setting, s: System, p: int)
    requires s.parties.Keys == PARTIES && EpochsNameInstances(s) && Enabled(c, s, Ask(p))
    ensures EpochsNameInstances(Next(c, s, Ask(p)))
  {
    WithKeepsEpochs(s, p, Next(c, s, Ask(p)).parties[p]);
  }

  lemma {:induction false} ReceiveNames(c: Setting, s: System, r: Request)
    requires s.parties.Keys == PARTIES && EpochsNameInstances(s) && Enabled(c, s, Receive(r))
    ensures EpochsNameInstances(Next(c, s, Receive(r)))
  {
    var me := Answered(c, r.to, s.parties[r.to], r, c.clock(r.to, s.now));
    assert EpochNames(r.to, s.parties[r.to]);
    WithKeepsEpochs(s, r.to, me);
  }

  lemma {:induction false} TakeGrantNames(c: Setting, s: System, g: Grant)
    requires s.parties.Keys == PARTIES && EpochsNameInstances(s) && Enabled(c, s, TakeGrant(g))
    ensures EpochsNameInstances(Next(c, s, TakeGrant(g)))
  {
    var x := g.request.from;
    assert EpochNames(x, s.parties[x]);
    WithKeepsEpochs(s, x, Next(c, s, TakeGrant(g)).parties[x]);
  }

  lemma {:induction false} StepKeepsEpochs(c: Setting, s: System, step: Step)
    requires s.parties.Keys == PARTIES && EpochsNameInstances(s) && Enabled(c, s, step)
    ensures EpochsNameInstances(Next(c, s, step))
  {
    match step
    case Ask(p) => AskNames(c, s, p);
    case Receive(r) => ReceiveNames(c, s, r);
    case TakeGrant(g) => TakeGrantNames(c, s, g);
    case _ =>
  }

  /** However a run goes, and whatever its clocks and disks do, no epoch is ever led in by both instances. */
  lemma {:induction false} NoEpochHasTwoLeaders(c: Setting, states: seq<System>, steps: seq<Step>, j: nat, k: nat)
    requires Run(c, states, steps) && j < |states| && k < |states|
    requires states[j].parties.Keys == PARTIES && states[k].parties.Keys == PARTIES
    requires states[j].parties[1].holder.mode.Leading? && states[k].parties[2].holder.mode.Leading?
    ensures states[j].parties[1].holder.epoch != states[k].parties[2].holder.epoch
  {
    RunKeepsEpochs(c, states, steps, j);
    RunKeepsEpochs(c, states, steps, k);
  }
}
