/**
 * The rules by which one instance of a pair comes to lead, as functions on values: what a voter does
 * with a request, and how an instance counts the leases it has been granted.  Times are readings of
 * one machine's steady clock.
 */
module LeaseRules {

  const EPOCH_STRIDE := 4
  const MAX_EPOCH := 0x7fff_ffff

  /** What a leader says about its peer; `leader` is zero when nothing has been said. */
  datatype Statement = Statement(leader: int, epoch: int, number: int, peerMayLead: bool) {

    predicate NewerThan(other: Statement) {
      epoch > other.epoch || (epoch == other.epoch && number > other.number)
    }

    predicate SameAs(other: Statement) {
      leader == other.leader && epoch == other.epoch && number == other.number
    }

    /** It names a statement: one made by an instance of the pair. */
    predicate Named() {
      1 <= leader <= 2 && 1 <= number
    }

    /** The instance this statement says may not lead, or zero. */
    function Barred(): int {
      if leader == 0 || peerMayLead then 0 else if leader == 1 then 2 else 1
    }
  }

  const NO_STATEMENT := Statement(0, 0, 0, true)

  datatype Verdict =
    | Granted
    | RefusedWhileRestarting
    | RefusedPromisedElsewhere
    | RefusedEpochBehind
    | RefusedMayNotLead

  /** One voter's memory: the promise it has made and what it must not forget. */
  datatype Voter = Voter(
    quietUntil: int,
    promisedTo: int,
    promiseExpires: int,
    heldForSelf: bool,
    highestEpoch: int,
    statement: Statement)
  {
    predicate Restarting(now: int) {
      now < quietUntil
    }

    predicate PromiseLive(now: int) {
      promisedTo != 0 && now < promiseExpires
    }

    predicate PromisedElsewhere(self: int, now: int) {
      PromiseLive(now) && promisedTo != self
    }

    predicate MayLead(instance: int) {
      statement.Barred() != instance
    }

    function Judge(candidate: int, epoch: int, now: int): Verdict {
      if Restarting(now) then RefusedWhileRestarting
      else if heldForSelf || PromisedElsewhere(candidate, now) then RefusedPromisedElsewhere
      else if epoch < highestEpoch then RefusedEpochBehind
      else if !MayLead(candidate) then RefusedMayNotLead
      else Granted
    }

    /** The voter after a request, whatever the verdict. */
    function Considered(period: int, candidate: int, epoch: int, now: int): Voter {
      if Judge(candidate, epoch, now).Granted? then
        this.(promisedTo := candidate, promiseExpires := now + period, highestEpoch := epoch)
      else
        this
    }

    function Resumed(to: int, until: int, now: int): Voter {
      this.(quietUntil := now, promisedTo := to, promiseExpires := until)
    }

    function Recorded(said: Statement): Voter {
      if said.NewerThan(statement) then this.(statement := said) else this
    }

    function Learnt(epoch: int): Voter {
      if epoch > highestEpoch then this.(highestEpoch := epoch) else this
    }
  }

  /**
   * Of a request that gets past the first three refusals: it is refused because its sender may not lead
   * exactly when the leader of the statement held says so of its peer, and the sender is that peer.
   */
  lemma {:induction false} RefusedMayNotLeadExactlyWhen(v: Voter, candidate: int, epoch: int, now: int)
    requires candidate != 0 && v.quietUntil <= now && !v.heldForSelf && v.highestEpoch <= epoch
    requires v.promisedTo == 0 || v.promisedTo == candidate || v.promiseExpires <= now
    ensures v.statement.leader in {1, 2} ==>
      (v.Judge(candidate, epoch, now) == RefusedMayNotLead
       <==> !v.statement.peerMayLead && candidate == 3 - v.statement.leader)
    ensures v.statement.leader == 0 ==> v.Judge(candidate, epoch, now) == Granted
    ensures v.Judge(candidate, epoch, now) in {Granted, RefusedMayNotLead}
  {
  }

  /** The voter after it has been given these statements, one after another. */
  function RecordedAll(v: Voter, said: seq<Statement>): Voter {
    if said == [] then v else RecordedAll(v, said[..|said| - 1]).Recorded(said[|said| - 1])
  }

  /** One statement was made no earlier than another: in a later epoch, or in the same one with no lower number. */
  predicate NoEarlier(a: Statement, b: Statement) {
    b.epoch < a.epoch || (b.epoch == a.epoch && b.number <= a.number)
  }

  /** In whatever order statements arrive, the one held was made no earlier than any of them, and nothing else changes. */
  lemma {:induction false} HeldIsNewest(v: Voter, said: seq<Statement>)
    ensures var after := RecordedAll(v, said);
      && after == v.(statement := after.statement)
      && (after.statement == v.statement || after.statement in said)
      && NoEarlier(after.statement, v.statement)
      && (forall k :: 0 <= k < |said| ==> NoEarlier(after.statement, said[k]))
  {
    if said != [] {
      HeldIsNewest(v, said[..|said| - 1]);
    }
  }

  /** A voter that has just started remembers nothing but an epoch, and waits out one lease period. */
  function StartedVoter(period: int, startedAt: int, epoch: int): Voter {
    Voter(startedAt + period, 0, 0, false, epoch, NO_STATEMENT)
  }

  datatype Mode = Idle | Candidate | Leading

  datatype Outstanding = Outstanding(voter: int, sentAt: int)

  datatype Event = Nothing | BecameLeader | LeaseExtended | NewerEpochKnown

  /** An instance's own record of the requests it has sent and the leases it holds. */
  datatype Holder = Holder(
    mode: Mode,
    epoch: int,
    lastRequestId: int,
    outstanding: map<int, Outstanding>,
    expiries: map<int, int>)
  {
    function Stopped(): Holder {
      this.(mode := Idle, expiries := map[], outstanding := map[])
    }

    function BeganCandidacy(e: int): Holder {
      Holder(Candidate, e, lastRequestId, map[], map[])
    }

    /** A request sent more than a lease period ago can no longer be worth anything. */
    function Pruned(period: int, now: int): map<int, Outstanding> {
      map id | id in outstanding && now - outstanding[id].sentAt <= period :: outstanding[id]
    }

    function Requested(period: int, voter: int, now: int): Holder {
      this.(lastRequestId := lastRequestId + 1,
            outstanding := Pruned(period, now)[lastRequestId + 1 := Outstanding(voter, now)])
    }

    predicate Matches(voter: int, id: int) {
      id in outstanding && outstanding[id].voter == voter
    }

    function Held(voter: int): int {
      if voter in expiries then expiries[voter] else 0
    }

    function GrantEvent(term: int, voter: int, id: int, e: int, now: int): Event {
      if !Matches(voter, id) || e != epoch || mode.Idle? || outstanding[id].sentAt + term <= now then Nothing
      else if mode.Candidate? then BecameLeader
      else LeaseExtended
    }

    /**
     * The holder after a grant.  `term` is the lease period less the drift allowance, and the lease
     * runs from the moment the request was sent.
     */
    function AfterGrant(term: int, voter: int, id: int, e: int, now: int): Holder {
      if !Matches(voter, id) then this
      else if GrantEvent(term, voter, id, e, now).Nothing? then this.(outstanding := outstanding - {id})
      else
        var expires := outstanding[id].sentAt + term;
        var held := Held(voter);
        this.(mode := Leading,
              outstanding := outstanding - {id},
              expiries := expiries[voter := if expires > held then expires else held])
    }

    function RefusalEvent(highest: int): Event {
      if !mode.Idle? && highest > epoch then NewerEpochKnown else Nothing
    }

    function AfterRefusal(id: int): Holder {
      this.(outstanding := outstanding - {id})
    }
  }

  const FRESH_HOLDER := Holder(Idle, 0, 0, map[], map[])

  /** The voter's promise: while it runs nobody else is granted, and a grant renews it for a lease period. */
  lemma {:induction false} PromiseKept(v: Voter, period: int, candidate: int, epoch: int, now: int)
    requires 0 < period && candidate != 0
    ensures var after := v.Considered(period, candidate, epoch, now);
      && (v.Judge(candidate, epoch, now).Granted? ==>
            && after.promisedTo == candidate && after.promiseExpires == now + period && after.highestEpoch == epoch
            && now >= v.quietUntil && !v.heldForSelf && v.highestEpoch <= epoch)
      && (!v.Judge(candidate, epoch, now).Granted? ==> after == v)
      && (forall other, e, later :: other != candidate && now <= later < now + period && v.Judge(candidate, epoch, now).Granted? ==>
            !after.Judge(other, e, later).Granted?)
  {
  }

  /** A grant extends the one voter's lease to its end if that is later, and touches no other. */
  lemma {:induction false} LeasesOnlyGrow(h: Holder, term: int, voter: int, id: int, e: int, now: int)
    requires forall v :: v in h.expiries ==> 0 <= h.expiries[v]
    requires h.Matches(voter, id) ==> 0 <= h.outstanding[id].sentAt + term
    ensures var after := h.AfterGrant(term, voter, id, e, now);
      && (forall v :: h.Held(v) <= after.Held(v) && (v != voter ==> after.Held(v) == h.Held(v)))
      && (!h.GrantEvent(term, voter, id, e, now).Nothing? ==>
            && after.mode.Leading? && h.outstanding[id].sentAt + term <= after.Held(voter)
            && after.Held(voter) in {h.Held(voter), h.outstanding[id].sentAt + term})
  {
  }

  /** A request that was answered is settled: no second answer to it counts for anything. */
  lemma {:induction false} AnswersCountOnce(h: Holder, term: int, voter: int, id: int, e: int, now: int, later: int)
    requires h.Matches(voter, id)
    ensures h.AfterGrant(term, voter, id, e, now).GrantEvent(term, voter, id, e, later).Nothing?
    ensures h.AfterGrant(term, voter, id, e, now).AfterGrant(term, voter, id, e, later) == h.AfterGrant(term, voter, id, e, now)
    ensures h.AfterRefusal(id).AfterGrant(term, voter, id, e, later) == h.AfterRefusal(id)
  {
  }

  /** What is forgotten when a request is sent could no longer give a lease; what could still give one is kept. */
  lemma {:induction false} ForgetsOnlyTheUseless(h: Holder, period: int, term: int, to: int, now: int, id: int, voter: int, e: int, later: int)
    requires term <= period && now <= later && id in h.outstanding && id <= h.lastRequestId
    ensures var after := h.Requested(period, to, now);
      && (after.GrantEvent(term, voter, id, e, later) == h.GrantEvent(term, voter, id, e, later))
      && (id in after.outstanding ==> after.outstanding[id] == h.outstanding[id])
      && after.lastRequestId == h.lastRequestId + 1 && after.outstanding[after.lastRequestId] == Outstanding(to, now)
      && after == h.(lastRequestId := after.lastRequestId, outstanding := after.outstanding)
  {
  }

  /** A refusal ends a candidacy or a lead exactly when it names a newer epoch than the instance's own. */
  lemma {:induction false} RefusalHeededExactlyWhen(h: Holder, highest: int)
    ensures h.RefusalEvent(highest) == NewerEpochKnown <==> (h.mode == Candidate || h.mode == Leading) && h.epoch < highest
  {
  }

  /** The smallest epoch above a known one whose remainder names the instance that leads in it. */
  function NextFor(above: int, leader: int): (e: int)
    requires 0 <= above && 1 <= leader < EPOCH_STRIDE
    ensures above < e <= above + EPOCH_STRIDE && e % EPOCH_STRIDE == leader
  {
    var base := (above / EPOCH_STRIDE) * EPOCH_STRIDE;
    if base + leader > above then base + leader else base + EPOCH_STRIDE + leader
  }
}
