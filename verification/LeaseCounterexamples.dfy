/**
 * Runs in which both instances act as leader at once.  Each leaves out exactly one condition of the
 * safety theorem, so each condition is needed.  Requests are sent as the agent sends them, one to each
 * of the other voters, and a request not mentioned again is one that was lost.
 */
module LeaseCounterexamples {
  import opened LeaseRules
  import opened LeaseRecord
  import opened Options
  import opened LeaseSystem
  import opened LeaseSafety

  /** The state at the end of some run. */
  ghost predicate Reachable(c: Setting, s: System) {
    exists states, steps :: EndsIn(c, states, steps, s)
  }

  ghost predicate EndsIn(c: Setting, states: seq<System>, steps: seq<Step>, s: System) {
    Run(c, states, steps) && states[|steps|] == s
  }

  ghost predicate TwoLeaders(c: Setting, s: System) {
    s.parties.Keys == PARTIES && Acts(c, s, 1) && Acts(c, s, 2)
  }

  lemma {:induction false} StartReachable(c: Setting)
    ensures Reachable(c, INITIAL)
  {
    assert EndsIn(c, [INITIAL], [], INITIAL);
  }

  lemma {:induction false} StepReachable(c: Setting, s: System, step: Step)
    requires Reachable(c, s) && s.parties.Keys == PARTIES && Enabled(c, s, step)
    ensures Reachable(c, Next(c, s, step))
  {
    var t := Next(c, s, step);
    var states, steps :| EndsIn(c, states, steps, s);
    var longer, taken := states + [t], steps + [step];
    forall k | 0 <= k < |taken| ensures Taken(c, longer[k], taken[k], longer[k + 1]) {
      if k < |steps| {
        assert Taken(c, states[k], steps[k], states[k + 1]);
      }
    }
    assert EndsIn(c, longer, taken, t);
  }

  const N := NO_STATEMENT

  // ---- Longer steps ----------------------------------------------------------------------------

  /** A reachable state with these parties, in which each instance has asked in no epoch beyond a given one. */
  ghost predicate Stands(c: Setting, s: System, now: nat, one: Party, two: Party, three: Party, epoch1: int, epoch2: int) {
    && Reachable(c, s) && s.now == now
    && s.parties.Keys == PARTIES && s.parties[1] == one && s.parties[2] == two && s.parties[3] == three
    && (forall r :: r in s.requests && r.from == 1 ==> r.epoch <= epoch1)
    && (forall r :: r in s.requests && r.from == 2 ==> r.epoch <= epoch2)
  }

  ghost predicate At(c: Setting, s: System, p: int, me: Party) {
    Reachable(c, s) && s.parties.Keys == PARTIES && p in PARTIES && s.parties[p] == me
  }

  lemma {:induction false} TimePasses(c: Setting, s: System, instants: nat) returns (t: System)
    requires Reachable(c, s) && s.parties.Keys == PARTIES
    ensures Reachable(c, t) && t == s.(now := s.now + instants)
  {
    t := s;
    if instants > 0 {
      t := TimePasses(c, s, instants - 1);
      StepReachable(c, t, Tick);
      t := Next(c, t, Tick);
    }
  }

  /** One party takes a step that sends nothing. */
  lemma {:induction false} Moves(c: Setting, s: System, p: int, was: Party, step: Step, me: Party) returns (t: System)
    requires At(c, s, p, was) && (Quiet(step) || step.Restart?) && p == Actor(step)
    requires Ready(c, p, was, step, c.clock(p, s.now)) && Delivered(c, s, step)
    requires me == Local(c, p, was, step, c.clock(p, s.now))
    ensures At(c, t, p, me) && t == s.With(p, me)
  {
    t := s.With(p, me);
    StepReachable(c, s, step);
  }

  /** One party sends a request to each of two voters. */
  lemma {:induction false} Sends(c: Setting, s: System, p: int, was: Party, one: Request, two: Request,
                                 me: Party) returns (t: System)
    requires At(c, s, p, was) && one.to != p && two.to != p && one.to in PARTIES && two.to in PARTIES
    requires p in {1, 2} && was.up && !was.holder.mode.Idle?
    requires var now := c.clock(p, s.now);
      && me == was.(holder := was.holder.Requested(c.period, one.to, now).Requested(c.period, two.to, now))
      && one == Sent(p, one.to, was.(holder := was.holder.Requested(c.period, one.to, now)), s.now)
      && two == Sent(p, two.to, me, s.now)
    ensures At(c, t, p, me) && t == s.With(p, me).(requests := s.requests + {one, two})
  {
    var mid := was.(holder := was.holder.Requested(c.period, one.to, c.clock(p, s.now)));
    var u := s.With(p, mid).(requests := s.requests + {one});
    StepReachable(c, s, Send(p, one.to, 0));
    assert Next(c, s, Send(p, one.to, 0)) == u;
    StepReachable(c, u, Send(p, two.to, 0));
    assert u.parties[p := me] == s.parties[p := me];
    assert u.requests + {two} == s.requests + {one, two};
    t := s.With(p, me).(requests := s.requests + {one, two});
    assert Next(c, u, Send(p, two.to, 0)) == t;
  }

  /** An instance that has just asked both other voters, for the first time in its process. */
  function AskedIn(was: Party, p: int, epoch: int, now: int): Party {
    was.(voter := was.voter.(heldForSelf := true),
         holder := Holder(Candidate, epoch, 2, map[1 := Outstanding(3 - p, now), 2 := Outstanding(3, now)], map[]))
  }

  lemma {:induction false} FirstRequests(was: Party, p: int, epoch: int, now: int, period: int, asking: Party)
    requires was.holder.lastRequestId == 0 && 0 <= period
    requires asking == was.(voter := was.voter.(heldForSelf := true), holder := was.holder.BeganCandidacy(epoch))
    ensures asking.(holder := asking.holder.Requested(period, 3 - p, now).Requested(period, 3, now)) == AskedIn(was, p, epoch, now)
  {
    var sent := map[1 := Outstanding(3 - p, now)];
    assert asking.holder.Requested(period, 3 - p, now).outstanding == sent;
    assert asking.holder.(lastRequestId := 1, outstanding := sent).Pruned(period, now) == sent;
  }

  /** An instance that may ask to lead does, at its next epoch, and sends a request to both other voters. */
  lemma {:induction false} AsksVoters(c: Setting, s: System, p: int, was: Party, epoch: int) returns (t: System)
    requires At(c, s, p, was) && was.holder.lastRequestId == 0 && 0 <= c.period
    requires Ready(c, p, was, Ask(p), c.clock(p, s.now)) && epoch == NextFor(was.voter.highestEpoch, p)
    ensures At(c, t, p, AskedIn(was, p, epoch, c.clock(p, s.now)))
    ensures t == s.With(p, AskedIn(was, p, epoch, c.clock(p, s.now))).(requests := s.requests + {
      Request(p, was.process, 3 - p, 1, epoch, s.now, N), Request(p, was.process, 3, 2, epoch, s.now, N)})
  {
    var now := c.clock(p, s.now);
    var asking := was.(voter := was.voter.(heldForSelf := true), holder := was.holder.BeganCandidacy(epoch));
    var u := Moves(c, s, p, was, Ask(p), asking);
    FirstRequests(was, p, epoch, now, c.period, asking);
    t := Sends(c, u, p, asking, Request(p, was.process, 3 - p, 1, epoch, s.now, N),
               Request(p, was.process, 3, 2, epoch, s.now, N), AskedIn(was, p, epoch, now));
    assert u.parties[p := AskedIn(was, p, epoch, now)] == s.parties[p := AskedIn(was, p, epoch, now)];
  }

  lemma {:induction false} Granting(c: Setting, s: System, p: int, was: Party, r: Request, me: Party) returns (t: System)
    requires At(c, s, p, was) && was.up && r in s.requests && r.to == p
    requires GrantsIt(c, p, was, r, c.clock(p, s.now)) && me == Answered(c, p, was, r, c.clock(p, s.now))
    ensures At(c, t, p, me) && t == s.With(p, me).(grants := s.grants + {Grant(r, s.now)})
  {
    t := s.With(p, me).(grants := s.grants + {Grant(r, s.now)});
    StepReachable(c, s, Receive(r));
  }

  lemma {:induction false} Refusing(c: Setting, s: System, p: int, was: Party, r: Request, me: Party) returns (t: System)
    requires At(c, s, p, was) && was.up && r in s.requests && r.to == p
    requires !GrantsIt(c, p, was, r, c.clock(p, s.now)) && me == Answered(c, p, was, r, c.clock(p, s.now))
    ensures At(c, t, p, me) && t == s.With(p, me).(refusals := s.refusals + {Refusal(r, me.voter.highestEpoch)})
  {
    t := s.With(p, me).(refusals := s.refusals + {Refusal(r, me.voter.highestEpoch)});
    StepReachable(c, s, Receive(r));
  }

  // ---- The setting -----------------------------------------------------------------------------

  /** Every clock reads exactly a second per instant, so no clock drifts at all; the timings are the code's own. */
  function Venue(says: Says, keepsEpoch: bool, staleLinks: bool): Setting {
    Setting((p, t) => 1000 * t, 3000, 250, 100, 1000, 0.0, says, true, keepsEpoch, staleLinks)
  }

  lemma {:induction false} VenueSound(c: Setting, says: Says)
    requires c == Venue(says, true, false)
    ensures c.Sound()
  {
    forall p, q, t, u | t <= u ensures c.RateKept(p, q, t, u) {
    }
  }

  /** A party that started at time zero and has found nothing on its disk. */
  const UP := Party(true, 1, 0, Voter(3000, 0, 0, false, 0, N), FRESH_HOLDER, BLANK_KEEPER, 0, N)
  const UP_2 := UP.(waitUntil := 4000)

  lemma {:induction false} TwoStart(c: Setting, says: Says, e: bool, l: bool) returns (s: System)
    requires c == Venue(says, e, l)
    ensures Stands(c, s, 0, DOWN, UP_2, UP, 0, 0)
  {
    StartReachable(c);
    s := INITIAL;
    s := Moves(c, s, 2, DOWN, Restart(2, false, 0, N), UP_2);
    s := Moves(c, s, 3, DOWN, Restart(3, false, 0, N), UP);
  }

  /** All three start together, and their first lease period passes. */
  lemma {:induction false} AllStart(c: Setting, says: Says, e: bool, l: bool) returns (s: System)
    requires c == Venue(says, e, l)
    ensures Stands(c, s, 3, UP, UP_2, UP, 0, 0)
  {
    s := TwoStart(c, says, e, l);
    s := Moves(c, s, 1, DOWN, Restart(1, false, 0, N), UP);
    s := TimePasses(c, s, 3);
  }

  // ---- A record overtaken by a write already on its way ----------------------------------------

  const A1 := Request(1, 1, 2, 1, 1, 3, N)
  const A2 := Request(1, 1, 3, 2, 1, 3, N)
  const SENT_AT_3 := map[1 := Outstanding(2, 3000), 2 := Outstanding(3, 3000)]
  const ASKED := AskedIn(UP, 1, 1, 3000)

  lemma {:induction false} PrimaryAsks(c: Setting, says: Says, e: bool, l: bool) returns (s: System)
    requires c == Venue(says, e, l)
    ensures Stands(c, s, 3, ASKED, UP_2, UP, 1, 0) && {A1, A2} <= s.requests
  {
    s := AllStart(c, says, e, l);
    s := AsksVoters(c, s, 1, UP, 1);
  }

  const FOR_1 := Promise(1, 16000)
  const JUDGED := UP_2.(voter := Voter(3000, 1, 6000, false, 1, N), keeper := BLANK_KEEPER.(inFlight := Some(Record(FOR_1, N))))
  const JUDGED_LANDED := JUDGED.(keeper := JUDGED.keeper.Landed())
  const RECORDED := JUDGED.(keeper := KeeperFor(Some(FOR_1), N))

  /** Instance 2 has promised instance 1 its vote, refused it meanwhile, and now has the record on disk. */
  lemma {:induction false} SecondaryRecords(c: Setting) returns (s: System)
    requires c == Venue(Silent, true, false)
    ensures Stands(c, s, 3, ASKED, RECORDED, UP, 1, 0)
  {
    s := PrimaryAsks(c, Silent, true, false);
    s := Refusing(c, s, 2, UP_2, A1, JUDGED);
    s := Moves(c, s, 2, JUDGED, Land(2), JUDGED_LANDED);
    s := Moves(c, s, 2, JUDGED_LANDED, Adopt(2), RECORDED);
  }

  const A3 := Request(1, 1, 2, 3, 1, 4, N)
  const A4 := Request(1, 1, 3, 4, 1, 4, N)
  const SENT_AT_4 := SENT_AT_3[3 := Outstanding(2, 4000)][4 := Outstanding(3, 4000)]
  const ASKED_AGAIN := ASKED.(holder := Holder(Candidate, 1, 4, SENT_AT_4, map[]))
  const PROMISED := RECORDED.(voter := Voter(3000, 1, 7000, false, 1, N))

  lemma {:induction false} PrimaryIsGranted(c: Setting) returns (s: System)
    requires c == Venue(Silent, true, false)
    ensures Stands(c, s, 4, ASKED_AGAIN, PROMISED, UP, 1, 0) && Grant(A3, 4) in s.grants
  {
    s := SecondaryRecords(c);
    s := TimePasses(c, s, 1);
    AsksAgain();
    s := Sends(c, s, 1, ASKED, A3, A4, ASKED_AGAIN);
    s := Granting(c, s, 2, RECORDED, A3, PROMISED);
  }

  lemma {:induction false} AsksAgain()
    ensures ASKED.holder.Requested(3000, 2, 4000).Requested(3000, 3, 4000) == ASKED_AGAIN.holder
  {
    assert ASKED.holder.Pruned(3000, 4000) == SENT_AT_3;
    var sent := SENT_AT_3[3 := Outstanding(2, 4000)];
    assert ASKED.holder.(lastRequestId := 3, outstanding := sent).Pruned(3000, 4000) == sent;
  }

  const LEADS_1 := ASKED_AGAIN.(
    voter := ASKED_AGAIN.voter.(highestEpoch := 1), holder := Holder(Leading, 1, 4, SENT_AT_4 - {3}, map[2 := 6750]))
  const LEADS_1_WRITING := LEADS_1.(keeper := BLANK_KEEPER.(inFlight := Some(Record(Promise(1, 16750), N))))
  const LEADS_1_WRITTEN := LEADS_1_WRITING.(keeper := LEADS_1_WRITING.keeper.Landed())
  const STOPPED_1 := LEADS_1_WRITTEN.(up := false)

  lemma {:induction false} PrimaryLeads(c: Setting) returns (s: System)
    requires c == Venue(Silent, true, false)
    ensures Stands(c, s, 4, LEADS_1_WRITING, PROMISED, UP, 1, 0)
  {
    s := PrimaryIsGranted(c);
    s := Moves(c, s, 1, ASKED_AGAIN, TakeGrant(Grant(A3, 4)), LEADS_1);
    s := Moves(c, s, 1, LEADS_1, RecordLeading(1), LEADS_1_WRITING);
  }

  /** Instance 1 leads, records that it does, and dies. */
  lemma {:induction false} PrimaryDies(c: Setting) returns (s: System)
    requires c == Venue(Silent, true, false)
    ensures Stands(c, s, 7, STOPPED_1, PROMISED, UP, 1, 0)
  {
    s := PrimaryLeads(c);
    s := Moves(c, s, 1, LEADS_1_WRITING, Land(1), LEADS_1_WRITTEN);
    s := Moves(c, s, 1, LEADS_1_WRITTEN, Crash(1), STOPPED_1);
    s := TimePasses(c, s, 3);
  }

  const B2 := Request(2, 1, 3, 2, 2, 7, N)
  const ASKED_2 := AskedIn(PROMISED, 2, 2, 7000)
  const VOTED_2 := UP.(voter := Voter(3000, 2, 10000, false, 2, N))

  lemma {:induction false} SecondaryIsGranted(c: Setting) returns (s: System)
    requires c == Venue(Silent, true, false)
    ensures Stands(c, s, 7, STOPPED_1, ASKED_2, VOTED_2, 1, 2) && Grant(B2, 7) in s.grants
  {
    s := PrimaryDies(c);
    s := AsksVoters(c, s, 2, PROMISED, 2);
    s := Granting(c, s, 3, UP, B2, VOTED_2);
  }

  const LEADS_2 := ASKED_2.(
    voter := Voter(3000, 1, 7000, true, 2, N), holder := Holder(Leading, 2, 2, map[1 := Outstanding(1, 7000)], map[3 := 9750]))
  const OVERTAKING := KeeperFor(Some(FOR_1), N).(inFlight := Some(Record(Promise(2, 19750), N)))
  const LEADS_2_WRITING := LEADS_2.(keeper := OVERTAKING)
  const LED := KeeperFor(Some(Promise(1, 16750)), N)
  const BACK := Party(true, 2, 1, Voter(7000, 0, 7000, false, 1, N), FRESH_HOLDER, LED, 7000, N)
  const BACK_ASKING := BACK.(voter := BACK.voter.(heldForSelf := true), holder := Holder(Candidate, 5, 0, map[], map[]))
  const BACK_STOPPED := BACK_ASKING.(up := false)
  const BACK_AGAIN := Party(true, 3, 5, Voter(8000, 0, 8000, false, 5, N), FRESH_HOLDER, LED, 8000, N)

  lemma {:induction false} SecondaryWrites(c: Setting) returns (s: System)
    requires c == Venue(Silent, true, false)
    ensures Stands(c, s, 7, STOPPED_1, LEADS_2_WRITING, VOTED_2, 1, 2)
  {
    s := SecondaryIsGranted(c);
    assert ASKED_2.holder.outstanding - {2} == LEADS_2.holder.outstanding;
    s := Moves(c, s, 2, ASKED_2, TakeGrant(Grant(B2, 7)), LEADS_2);
    s := Moves(c, s, 2, LEADS_2, RecordLeading(2), LEADS_2_WRITING);
  }

  lemma {:induction false} PrimaryReturnsOnce(c: Setting) returns (s: System)
    requires c == Venue(Silent, true, false)
    ensures Stands(c, s, 7, BACK, LEADS_2_WRITING, VOTED_2, 1, 2)
  {
    s := SecondaryWrites(c);
    s := Moves(c, s, 1, STOPPED_1, Restart(1, false, 1, N), BACK);
  }

  /**
   * Instance 2 leads, and the record saying so is on its way to the disk.  Instance 1 starts, writes
   * the epoch it is about to ask in, dies before it asks, and starts again knowing that epoch.
   */
  lemma {:induction false} PrimaryReturns(c: Setting) returns (s: System)
    requires c == Venue(Silent, true, false)
    ensures Stands(c, s, 8, BACK_AGAIN, LEADS_2_WRITING, VOTED_2, 1, 2)
  {
    s := PrimaryReturnsOnce(c);
    s := Moves(c, s, 1, BACK, Ask(1), BACK_ASKING);
    s := Moves(c, s, 1, BACK_ASKING, Crash(1), BACK_STOPPED);
    s := TimePasses(c, s, 1);
    s := Moves(c, s, 1, BACK_STOPPED, Restart(1, false, 5, N), BACK_AGAIN);
  }

  const B3 := Request(2, 1, 1, 3, 2, 8, N)
  const B4 := Request(2, 1, 3, 4, 2, 8, N)
  const SENT_AT_8 := map[1 := Outstanding(1, 7000), 3 := Outstanding(1, 8000), 4 := Outstanding(3, 8000)]
  const RENEWING := LEADS_2_WRITING.(holder := Holder(Leading, 2, 4, SENT_AT_8, map[3 := 9750]))
  const GAVE_UP := RENEWING.(
    voter := Voter(3000, 1, 7000, false, 5, N), holder := Holder(Idle, 2, 4, map[], map[]), waitUntil := 8500)

  /** Instance 1's refusal names epoch 5, so instance 2 stops leading. */
  lemma {:induction false} SecondaryStops(c: Setting) returns (s: System)
    requires c == Venue(Silent, true, false)
    ensures Stands(c, s, 8, BACK_AGAIN, GAVE_UP, VOTED_2, 1, 2)
  {
    s := PrimaryReturns(c);
    Renews();
    s := Sends(c, s, 2, LEADS_2_WRITING, B3, B4, RENEWING);
    s := Refusing(c, s, 1, BACK_AGAIN, B3, BACK_AGAIN);
    s := Moves(c, s, 2, RENEWING, TakeRefusal(Refusal(B3, 5), 500), GAVE_UP);
  }

  lemma {:induction false} Renews()
    ensures LEADS_2_WRITING.holder.Requested(3000, 1, 8000).Requested(3000, 3, 8000) == RENEWING.holder
  {
    var sent := map[1 := Outstanding(1, 7000), 3 := Outstanding(1, 8000)];
    assert LEADS_2_WRITING.holder.Requested(3000, 1, 8000).outstanding == sent;
    assert LEADS_2_WRITING.holder.(lastRequestId := 3, outstanding := sent).Pruned(3000, 8000) == sent;
  }

  const C1 := Request(1, 3, 2, 1, 9, 8, N)
  const ASKED_9 := AskedIn(BACK_AGAIN, 1, 9, 8000)
  const PROMISED_9 := GAVE_UP.(voter := Voter(3000, 1, 11000, false, 9, N))
  const LEADS_9 := ASKED_9.(
    voter := Voter(8000, 0, 8000, true, 9, N), holder := Holder(Leading, 9, 2, map[2 := Outstanding(3, 8000)], map[2 := 10750]))

  /** The record on disk still covers a promise to instance 1, so instance 2 grants, and instance 1 leads. */
  lemma {:induction false} GrantsWhileWriteInFlight(c: Setting) returns (s: System)
    requires c == Venue(Silent, true, false)
    ensures Stands(c, s, 8, LEADS_9, PROMISED_9, VOTED_2, 9, 2)
  {
    s := SecondaryStops(c);
    s := AsksVoters(c, s, 1, BACK_AGAIN, 9);
    s := Granting(c, s, 2, GAVE_UP, C1, PROMISED_9);
    s := Moves(c, s, 1, ASKED_9, TakeGrant(Grant(C1, 8)), LEADS_9);
  }

  const OVERTAKEN := PROMISED_9.(keeper := PROMISED_9.keeper.Landed())
  const OVERTAKEN_DOWN := OVERTAKEN.(up := false)
  const FORGOT := Party(
    true, 2, 9, Voter(8000, 0, 8000, false, 9, N), FRESH_HOLDER, KeeperFor(Some(Promise(2, 19750)), N), 8000, N)

  /** The write lands; instance 2 restarts, reads that it was leading, and forgets its promise. */
  lemma {:induction false} ForgetsItsPromise(c: Setting) returns (s: System)
    requires c == Venue(Silent, true, false)
    ensures Stands(c, s, 8, LEADS_9, FORGOT, VOTED_2, 9, 2)
  {
    s := GrantsWhileWriteInFlight(c);
    s := Moves(c, s, 2, PROMISED_9, Land(2), OVERTAKEN);
    s := Moves(c, s, 2, OVERTAKEN, Crash(2), OVERTAKEN_DOWN);
    s := Moves(c, s, 2, OVERTAKEN_DOWN, Restart(2, false, 9, N), FORGOT);
  }

  const D2 := Request(2, 2, 3, 2, 10, 8, N)
  const ASKED_10 := AskedIn(FORGOT, 2, 10, 8000)
  const VOTED_10 := UP.(voter := Voter(3000, 2, 11000, false, 10, N))
  const LEADS_10 := ASKED_10.(
    voter := Voter(8000, 0, 8000, true, 10, N), holder := Holder(Leading, 10, 2, map[1 := Outstanding(1, 8000)], map[3 := 10750]))

  lemma {:induction false} SecondaryAsksAgain(c: Setting) returns (s: System)
    requires c == Venue(Silent, true, false)
    ensures Stands(c, s, 8, LEADS_9, ASKED_10, VOTED_10, 9, 10) && Grant(D2, 8) in s.grants
  {
    s := ForgetsItsPromise(c);
    s := AsksVoters(c, s, 2, FORGOT, 10);
    s := Granting(c, s, 3, VOTED_2, D2, VOTED_10);
  }

  /**
   * The record that an instance leads may still be on its way to the disk when the instance stops
   * leading and grants its peer.  Landing later, it replaces the record of that promise.
   */
  lemma {:induction false} OvertakenRecordMakesTwoLeaders(c: Setting) returns (s: System)
    requires c == Venue(Silent, true, false)
    ensures c.Sound() && Reachable(c, s) && TwoLeaders(c, s)
  {
    VenueSound(c, Silent);
    s := SecondaryAsksAgain(c);
    s := Moves(c, s, 2, ASKED_10, TakeGrant(Grant(D2, 8)), LEADS_10);
    assert 2 in LEADS_9.holder.expiries && 3 in LEADS_10.holder.expiries;
  }

  // ---- A record written while the instance waits because it has forgotten ----------------------

  const SAID := Statement(2, 2, 1, true)
  const LATE := UP.(voter := Voter(4000, 0, 0, false, 0, N))
  const E1 := Request(2, 1, 1, 1, 2, 4, N)
  const WANTS_SENT := map[1 := Outstanding(1, 4000), 2 := Outstanding(3, 4000)]
  const WANTED := AskedIn(UP_2, 2, 2, 4000)

  /** Instance 1 starts a second after the others, so instance 2 asks first. */
  lemma {:induction false} SecondaryAsks(c: Setting) returns (s: System)
    requires c == Venue(PeerMay, true, false)
    ensures Stands(c, s, 4, LATE, WANTED, UP, 0, 2) && E1 in s.requests
  {
    s := TwoStart(c, PeerMay, true, false);
    s := TimePasses(c, s, 1);
    s := Moves(c, s, 1, DOWN, Restart(1, false, 0, N), LATE);
    s := TimePasses(c, s, 3);
    s := AsksVoters(c, s, 2, UP_2, 2);
  }

  const FOR_2 := Promise(2, 17000)
  const LATE_JUDGED := LATE.(voter := Voter(4000, 2, 7000, false, 2, N), keeper := BLANK_KEEPER.(inFlight := Some(Record(FOR_2, N))))
  const LATE_LANDED := LATE_JUDGED.(keeper := LATE_JUDGED.keeper.Landed())
  const LATE_RECORDED := LATE_JUDGED.(keeper := KeeperFor(Some(FOR_2), N))

  lemma {:induction false} PrimaryRecords(c: Setting) returns (s: System)
    requires c == Venue(PeerMay, true, false)
    ensures Stands(c, s, 5, LATE_RECORDED, WANTED, UP, 0, 2)
  {
    s := SecondaryAsks(c);
    s := Refusing(c, s, 1, LATE, E1, LATE_JUDGED);
    s := Moves(c, s, 1, LATE_JUDGED, Land(1), LATE_LANDED);
    s := Moves(c, s, 1, LATE_LANDED, Adopt(1), LATE_RECORDED);
    s := TimePasses(c, s, 1);
  }

  const E3 := Request(2, 1, 1, 3, 2, 5, N)
  const E4 := Request(2, 1, 3, 4, 2, 5, N)
  const WANTS_SENT_AGAIN := WANTS_SENT[3 := Outstanding(1, 5000)][4 := Outstanding(3, 5000)]
  const WANTED_AGAIN := WANTED.(holder := Holder(Candidate, 2, 4, WANTS_SENT_AGAIN, map[]))
  const LATE_PROMISED := LATE_RECORDED.(voter := Voter(4000, 2, 8000, false, 2, N))
  const HAS := WANTED_AGAIN.(
    voter := Voter(3000, 0, 0, true, 2, SAID), holder := Holder(Leading, 2, 4, WANTS_SENT_AGAIN - {3}, map[1 := 7750]), said := SAID)

  /** Instance 1's vote makes instance 2 leader, and instance 2 says that its peer may lead. */
  lemma {:induction false} SecondaryLeads(c: Setting) returns (s: System)
    requires c == Venue(PeerMay, true, false)
    ensures Stands(c, s, 5, LATE_PROMISED, HAS, UP, 0, 2)
  {
    s := PrimaryRecords(c);
    WantsAgain();
    s := Sends(c, s, 2, WANTED, E3, E4, WANTED_AGAIN);
    s := Granting(c, s, 1, LATE_RECORDED, E3, LATE_PROMISED);
    s := Moves(c, s, 2, WANTED_AGAIN, TakeGrant(Grant(E3, 5)), HAS);
  }

  lemma {:induction false} WantsAgain()
    ensures WANTED.holder.Requested(3000, 1, 5000).Requested(3000, 3, 5000) == WANTED_AGAIN.holder
  {
    assert WANTED.holder.Pruned(3000, 5000) == WANTS_SENT;
    var sent := WANTS_SENT[3 := Outstanding(1, 5000)];
    assert WANTED.holder.(lastRequestId := 3, outstanding := sent).Pruned(3000, 5000) == sent;
  }

  const E5 := Request(2, 1, 1, 5, 2, 5, SAID)
  const E6 := Request(2, 1, 3, 6, 2, 5, SAID)
  const HAS_WRITING := HAS.(keeper := BLANK_KEEPER.(inFlight := Some(Record(Promise(2, 17750), SAID))))
  const HAS_SAID := HAS_WRITING.(
    holder := Holder(Leading, 2, 6, (WANTS_SENT_AGAIN - {3})[5 := Outstanding(1, 5000)][6 := Outstanding(3, 5000)], map[1 := 7750]))

  /** It records that it leads, and sends its statement to both voters at once. */
  lemma {:induction false} SecondarySays(c: Setting) returns (s: System)
    requires c == Venue(PeerMay, true, false)
    ensures Stands(c, s, 5, LATE_PROMISED, HAS_SAID, UP, 0, 2) && E5 in s.requests
  {
    s := SecondaryLeads(c);
    s := Moves(c, s, 2, HAS, RecordLeading(2), HAS_WRITING);
    SaysAtOnce();
    s := Sends(c, s, 2, HAS_WRITING, E5, E6, HAS_SAID);
  }

  lemma {:induction false} SaysAtOnce()
    ensures HAS_WRITING.holder.Requested(3000, 1, 5000).Requested(3000, 3, 5000) == HAS_SAID.holder
  {
    var held := WANTS_SENT_AGAIN - {3};
    assert HAS_WRITING.holder.Pruned(3000, 5000) == held;
    var sent := held[5 := Outstanding(1, 5000)];
    assert HAS_WRITING.holder.(lastRequestId := 5, outstanding := sent).Pruned(3000, 5000) == sent;
  }

  const LATE_DOWN := LATE_PROMISED.(up := false)
  const WAITING := Party(true, 2, 2, Voter(8000, 0, 0, false, 2, N), FRESH_HOLDER, BLANK_KEEPER, 0, N)
  const TOLD := WAITING.(voter := WAITING.voter.(statement := SAID))
  const TOLD_WRITING := TOLD.(keeper := BLANK_KEEPER.(inFlight := Some(Record(NO_PROMISE, SAID))))
  const TOLD_WRITTEN := TOLD_WRITING.(keeper := TOLD_WRITING.keeper.Landed())

  lemma {:induction false} PrimaryLosesRecord(c: Setting) returns (s: System)
    requires c == Venue(PeerMay, true, false)
    ensures Stands(c, s, 5, WAITING, HAS_SAID, UP, 0, 2) && E5 in s.requests
  {
    s := SecondarySays(c);
    s := Moves(c, s, 1, LATE_PROMISED, Crash(1), LATE_DOWN);
    s := Moves(c, s, 1, LATE_DOWN, Restart(1, true, 2, N), WAITING);
  }

  lemma {:induction false} PrimaryIsTold(c: Setting) returns (s: System)
    requires c == Venue(PeerMay, true, false)
    ensures Stands(c, s, 5, TOLD, HAS_SAID, UP, 0, 2)
  {
    s := PrimaryLosesRecord(c);
    s := Moves(c, s, 1, WAITING, Hear(E5), TOLD);
    s := Refusing(c, s, 1, TOLD, E5, TOLD);
  }

  /**
   * Instance 1 loses its record in a restart and waits.  The leader's statement reaches it while it
   * waits, and is not the one it started with, so it is written beside an empty promise.
   */
  lemma {:induction false} WritesWhileWaiting(c: Setting) returns (s: System)
    requires c == Venue(PeerMay, true, false)
    ensures Stands(c, s, 5, TOLD_WRITTEN, HAS_SAID, UP, 0, 2)
  {
    s := PrimaryIsTold(c);
    s := Moves(c, s, 1, TOLD, WriteStatement(1), TOLD_WRITING);
    s := Moves(c, s, 1, TOLD_WRITING, Land(1), TOLD_WRITTEN);
  }

  const TOLD_DOWN := TOLD_WRITTEN.(up := false)
  const UNAWARE := Party(true, 3, 2, Voter(5000, 0, 0, false, 2, SAID), FRESH_HOLDER, KeeperFor(Some(NO_PROMISE), SAID), 0, N)

  lemma {:induction false} StopsWaiting(c: Setting) returns (s: System)
    requires c == Venue(PeerMay, true, false)
    ensures Stands(c, s, 5, UNAWARE, HAS_SAID, UP, 0, 2)
  {
    s := WritesWhileWaiting(c);
    s := Moves(c, s, 1, TOLD_WRITTEN, Crash(1), TOLD_DOWN);
    s := Moves(c, s, 1, TOLD_DOWN, Restart(1, false, 2, SAID), UNAWARE);
  }

  const F2 := Request(1, 3, 3, 2, 5, 5, N)
  const UNAWARE_ASKED := AskedIn(UNAWARE, 1, 5, 5000)
  const VOTED_5 := UP.(voter := Voter(3000, 1, 8000, false, 5, N))
  const SAID_5 := Statement(1, 5, 1, true)
  const LEADS_TOO := UNAWARE_ASKED.(
    voter := Voter(5000, 0, 0, true, 5, SAID_5),
    holder := Holder(Leading, 5, 2, map[1 := Outstanding(2, 5000)], map[3 := 7750]), said := SAID_5)

  lemma {:induction false} PrimaryAsksThird(c: Setting) returns (s: System)
    requires c == Venue(PeerMay, true, false)
    ensures Stands(c, s, 5, UNAWARE_ASKED, HAS_SAID, VOTED_5, 5, 2) && Grant(F2, 5) in s.grants
  {
    s := StopsWaiting(c);
    s := AsksVoters(c, s, 1, UNAWARE, 5);
    s := Granting(c, s, 3, UP, F2, VOTED_5);
  }

  /**
   * An instance whose record was lost waits out a lease period.  If it is told a new statement while it
   * waits it writes a record with an empty promise, and a restart then finds a record, votes at once and
   * forgets the vote it gave.
   */
  lemma {:induction false} EmptyRecordMakesTwoLeaders(c: Setting) returns (s: System)
    requires c == Venue(PeerMay, true, false)
    ensures c.Sound() && Reachable(c, s) && TwoLeaders(c, s)
  {
    VenueSound(c, PeerMay);
    s := PrimaryAsksThird(c);
    s := Moves(c, s, 1, UNAWARE_ASKED, TakeGrant(Grant(F2, 5)), LEADS_TOO);
    assert 1 in HAS_SAID.holder.expiries && 3 in LEADS_TOO.holder.expiries;
  }

  // ---- A grant meant for an earlier process ----------------------------------------------------

  const VOTED_1 := UP.(voter := Voter(3000, 1, 6000, false, 1, N))
  const ASKED_DOWN := ASKED.(up := false)
  const RESTARTED := Party(true, 2, 0, Voter(6000, 0, 0, false, 0, N), FRESH_HOLDER, BLANK_KEEPER, 0, N)

  lemma {:induction false} AskerRestarts(c: Setting) returns (s: System)
    requires c == Venue(Silent, false, true)
    ensures Stands(c, s, 6, RESTARTED, UP_2, VOTED_1, 1, 0) && Grant(A2, 3) in s.grants
  {
    s := PrimaryAsks(c, Silent, false, true);
    s := Granting(c, s, 3, UP, A2, VOTED_1);
    s := Moves(c, s, 1, ASKED, Crash(1), ASKED_DOWN);
    s := Moves(c, s, 1, ASKED_DOWN, Restart(1, false, 0, N), RESTARTED);
    s := TimePasses(c, s, 3);
  }

  const REPEATED := AskedIn(RESTARTED, 1, 1, 6000)
  const LEADS_LATE := REPEATED.(
    voter := Voter(6000, 0, 0, true, 1, N), holder := Holder(Leading, 1, 2, map[1 := Outstanding(2, 6000)], map[3 := 8750]))

  lemma {:induction false} StaleGrantTaken(c: Setting) returns (s: System)
    requires c == Venue(Silent, false, true)
    ensures Stands(c, s, 6, LEADS_LATE, UP_2, VOTED_1, 1, 0)
  {
    s := AskerRestarts(c);
    s := AsksVoters(c, s, 1, RESTARTED, 1);
    s := Moves(c, s, 1, REPEATED, TakeGrant(Grant(A2, 3)), LEADS_LATE);
  }

  const H2 := Request(2, 1, 3, 2, 2, 6, N)
  const OTHER_ASKED := AskedIn(UP_2, 2, 2, 6000)
  const VOTED_OTHER := UP.(voter := Voter(3000, 2, 9000, false, 2, N))
  const OTHER_LEADS := OTHER_ASKED.(
    voter := Voter(3000, 0, 0, true, 2, N), holder := Holder(Leading, 2, 2, map[1 := Outstanding(1, 6000)], map[3 := 8750]))

  /**
   * An instance that keeps no epoch on disk asks again in the epoch it asked in before it stopped.  A
   * grant to its earlier process, were it delivered to the new one, would match the new request, and its
   * lease would be counted from too late.
   */
  lemma {:induction false} StaleGrantMakesTwoLeaders(c: Setting) returns (s: System)
    requires c == Venue(Silent, false, true)
    ensures Reachable(c, s) && TwoLeaders(c, s)
  {
    s := StaleGrantTaken(c);
    s := AsksVoters(c, s, 2, UP_2, 2);
    s := Granting(c, s, 3, VOTED_1, H2, VOTED_OTHER);
    s := Moves(c, s, 2, OTHER_ASKED, TakeGrant(Grant(H2, 6)), OTHER_LEADS);
    assert 3 in LEADS_LATE.holder.expiries && 3 in OTHER_LEADS.holder.expiries;
  }
}
