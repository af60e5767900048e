/** An instance that may ask comes to lead on the grant of any one other voter that is free to give it. */
module LeaseProgress {
  import opened LeaseRules
  import opened LeaseRecord
  import opened Options
  import opened LeaseSystem

  /** Steps taken one after another from one state end in another. */
  ghost predicate Reaches(c: Setting, s: System, steps: seq<Step>, t: System)
    decreases |steps|
  {
    && s.parties.Keys == PARTIES
    && if steps == [] then s == t else Enabled(c, s, steps[0]) && Reaches(c, Next(c, s, steps[0]), steps[1..], t)
  }

  /** The voter has nothing against this instance's request: it is not waiting, promised, newer, or told otherwise. */
  predicate FreeFor(c: Setting, v: int, you: Party, p: int, epoch: int, now: int) {
    && you.up && you.voter.quietUntil <= now
    && !you.voter.heldForSelf && !you.holder.mode.Candidate?
    && (you.voter.promisedTo in {0, p} || you.voter.promiseExpires <= now)
    && you.voter.highestEpoch <= epoch
    && (you.voter.statement.leader in {0, p} || (you.voter.statement.leader == 3 - p && you.voter.statement.peerMayLead))
    && (c.Keeps(v) ==> you.keeper.adopted.to == p && now + c.period <= you.keeper.adopted.until)
  }

  lemma {:induction false} FreeGrants(c: Setting, v: int, you: Party, r: Request, now: int)
    requires r.from in {1, 2} && FreeFor(c, v, you, r.from, r.epoch, now)
    ensures GrantsIt(c, v, you, r, now)
  {
  }

  /** The instance once it has asked, and once it has sent its request. */
  lemma {:induction false} Asks(c: Setting, p: int, me: Party, v: int, now: int, asking: Party, sent: Party)
    requires p in {1, 2} && v in PARTIES - {p} && me.up && me.MayAsk(p, now) && 0 <= me.voter.highestEpoch <= MAX_EPOCH - 2 * EPOCH_STRIDE
    requires asking == Local(c, p, me, Ask(p), now) && sent == asking.(holder := asking.holder.Requested(c.period, v, now))
    ensures asking.up && asking.holder.mode.Candidate?
    ensures sent.up && sent.holder.mode.Candidate? && sent.holder.epoch == NextFor(me.voter.highestEpoch, p)
    ensures sent.holder.expiries == map[] && sent.holder.Matches(v, sent.holder.lastRequestId)
    ensures sent.holder.outstanding[sent.holder.lastRequestId] == Outstanding(v, now) && sent.process == me.process
  {
  }

  lemma {:induction false} TakesGrant(c: Setting, p: int, sent: Party, g: Grant, now: int)
    requires sent.up && sent.holder.mode.Candidate? && 0 < c.period - c.drift && 0 <= now
    requires var id := g.request.id; sent.holder.Matches(g.request.to, id) && sent.holder.outstanding[id].sentAt == now
    requires g.request.epoch == sent.holder.epoch && sent.holder.expiries == map[]
    ensures var after := GrantTaken(c, p, sent, g, now);
      && after.up && after.holder.mode.Leading? && after.holder.epoch == sent.holder.epoch
      && after.holder.expiries == map[g.request.to := now + c.period - c.drift]
  {
  }

  lemma {:induction false} OneStep(c: Setting, s: System, step: Step, next: System, rest: seq<Step>, t: System)
    requires s.parties.Keys == PARTIES && Enabled(c, s, step) && next == Next(c, s, step) && Reaches(c, next, rest, t)
    ensures Reaches(c, s, [step] + rest, t)
  {
    assert ([step] + rest)[1..] == rest;
  }

  lemma {:induction false} StepsToAsk(c: Setting, s: System, p: int, asking: Party)
    requires s.parties.Keys == PARTIES && p in PARTIES && Ready(c, p, s.parties[p], Ask(p), c.clock(p, s.now))
    requires asking == Local(c, p, s.parties[p], Ask(p), c.clock(p, s.now))
    ensures Enabled(c, s, Ask(p)) && Next(c, s, Ask(p)) == s.With(p, asking)
  {
  }

  lemma {:induction false} StepsToSend(c: Setting, s: System, p: int, v: int, sent: Party)
    requires s.parties.Keys == PARTIES && p in {1, 2} && v in PARTIES - {p} && s.parties[p].up && !s.parties[p].holder.mode.Idle?
    requires sent == s.parties[p].(holder := s.parties[p].holder.Requested(c.period, v, c.clock(p, s.now)))
    ensures Enabled(c, s, Send(p, v, 0))
    ensures Next(c, s, Send(p, v, 0)) == s.With(p, sent).(requests := s.requests + {Sent(p, v, sent, s.now)})
  {
    assert Local(c, p, s.parties[p], Send(p, v, 0), c.clock(p, s.now)) == sent;
  }

  lemma {:induction false} StepsToGrant(c: Setting, s: System, r: Request)
    requires s.parties.Keys == PARTIES && r.to in PARTIES && s.parties[r.to].up && r in s.requests
    requires GrantsIt(c, r.to, s.parties[r.to], r, c.clock(r.to, s.now))
    ensures Enabled(c, s, Receive(r))
    ensures Next(c, s, Receive(r))
         == s.With(r.to, Answered(c, r.to, s.parties[r.to], r, c.clock(r.to, s.now))).(grants := s.grants + {Grant(r, s.now)})
  {
  }

  lemma {:induction false} StepsToTake(c: Setting, s: System, g: Grant)
    requires s.parties.Keys == PARTIES && g.request.from in PARTIES && g in s.grants
    requires var me := s.parties[g.request.from]; me.up && me.process == g.request.process
    ensures Enabled(c, s, TakeGrant(g))
    ensures var p := g.request.from;
      Next(c, s, TakeGrant(g)) == s.With(p, GrantTaken(c, p, s.parties[p], g, c.clock(p, s.now)))
  {
  }

  lemma {:induction false} FourSteps(c: Setting, s: System, a: Step, s1: System, b: Step, s2: System, d: Step, s3: System, e: Step, t: System)
    requires s.parties.Keys == s1.parties.Keys == s2.parties.Keys == s3.parties.Keys == t.parties.Keys == PARTIES
    requires Enabled(c, s, a) && s1 == Next(c, s, a) && Enabled(c, s1, b) && s2 == Next(c, s1, b)
    requires Enabled(c, s2, d) && s3 == Next(c, s2, d) && Enabled(c, s3, e) && t == Next(c, s3, e)
    ensures Reaches(c, s, [a, b, d, e], t)
  {
    OneStep(c, s3, e, t, [], t);
    OneStep(c, s2, d, s3, [e], t);
    OneStep(c, s1, b, s2, [d, e], t);
    OneStep(c, s, a, s1, [b, d, e], t);
    assert [e] + [] == [e] && [d] + [e] == [d, e] && [b] + [d, e] == [b, d, e] && [a] + [b, d, e] == [a, b, d, e];
  }

  /** It leads as soon as the grant comes, in the next epoch of its own, with a lease from the moment it sent the request. */
  lemma {:induction false} OneGrantSuffices(c: Setting, s: System, p: int, v: int) returns (steps: seq<Step>, t: System)
    requires s.parties.Keys == PARTIES && p in {1, 2} && v in PARTIES - {p}
    requires 0 < c.period - c.drift && 0 <= c.overrun && 0 <= c.clock(p, s.now)
    requires var me := s.parties[p]; me.up && me.MayAsk(p, c.clock(p, s.now)) && 0 <= me.voter.highestEpoch <= MAX_EPOCH - 2 * EPOCH_STRIDE
    requires FreeFor(c, v, s.parties[v], p, NextFor(s.parties[p].voter.highestEpoch, p), c.clock(v, s.now))
    ensures Reaches(c, s, steps, t) && t.parties.Keys == PARTIES && Acts(c, t, p)
    ensures t.now == s.now && t.parties[p].holder.epoch == NextFor(s.parties[p].voter.highestEpoch, p)
    ensures t.parties[p].holder.expiries == map[v := c.clock(p, s.now) + c.period - c.drift]
  {
    var me, you, now := s.parties[p], s.parties[v], c.clock(p, s.now);
    var asking := Local(c, p, me, Ask(p), now);
    var sent := asking.(holder := asking.holder.Requested(c.period, v, now));
    Asks(c, p, me, v, now, asking, sent);
    var s1 := s.With(p, asking);
    StepsToAsk(c, s, p, asking);
    var r := Sent(p, v, sent, s.now);
    var s2 := s.With(p, sent).(requests := s.requests + {r});
    assert s1.With(p, sent) == s.With(p, sent);
    StepsToSend(c, s1, p, v, sent);
    FreeGrants(c, v, you, r, c.clock(v, s.now));
    StepsToGrant(c, s2, r);
    var g := Grant(r, s.now);
    var s3 := s2.With(v, Answered(c, v, you, r, c.clock(v, s.now))).(grants := s.grants + {g});
    StepsToTake(c, s3, g);
    TakesGrant(c, p, sent, g, now);
    t := s3.With(p, GrantTaken(c, p, sent, g, now));
    steps := [Ask(p), Send(p, v, 0), Receive(r), TakeGrant(g)];
    FourSteps(c, s, Ask(p), s1, Send(p, v, 0), s2, Receive(r), s3, TakeGrant(g), t);
  }

  // ---- When a restarted instance may ask -------------------------------------------------------

  /** The record found shows that this instance led: it was kept, names it and has not run out. */
  predicate LedOnRecord(c: Setting, p: int, before: Party, lost: bool, now: int) {
    && c.Keeps(p) && !lost && before.keeper.disk.Some?
    && before.keeper.disk.value.to == p && now < before.keeper.disk.value.until
  }

  /**
   * A restarted instance may ask to lead exactly when it has waited out a lease period, or has a record
   * instead; the secondary waits a renewal longer unless it led; a promise on record to the other instance has
   * run out; and no statement it kept says it may not.
   */
  lemma {:induction false} RestartedMayAskExactlyWhen(c: Setting, p: int, before: Party, lost: bool, epoch: int, said: Statement, now: int, t: int)
    requires p in {1, 2} && 0 <= now <= t && said.leader in {0, 1, 2} && c.period > 0
    ensures var kept := if c.Keeps(p) && !lost then before.keeper.disk else None;
      Restarted(c, p, before, lost, epoch, said, now).MayAsk(p, t) <==>
        && (kept.None? ==> now + c.period <= t)
        && (p == 2 && !LedOnRecord(c, p, before, lost, now) ==> now + c.period + c.renewal <= t)
        && (kept.Some? && kept.value.to !in {0, p} ==> kept.value.until <= t)
        && (said.leader == 3 - p ==> said.peerMayLead)
  {
  }

  // ---- Giving way and speaking -----------------------------------------------------------------

  /** An instance gives way to a request exactly when it is only asking, the request's epoch is higher, and it is not waiting. */
  lemma {:induction false} GivesWayExactlyWhen(me: Party, r: Request, now: int)
    ensures Yielded(me, r, now) == me.GaveUp() != me <==> me.holder.mode == Candidate && me.holder.epoch < r.epoch && me.voter.quietUntil <= now
    ensures Yielded(me, r, now) in {me, me.GaveUp()}
  {
  }

  /** What a leader says anew is later than all it said before, and its own voter holds it. */
  lemma {:induction false} SaidIsHeld(me: Party, peerMayLead: bool)
    requires NoEarlier(me.said, me.voter.statement)
    ensures var after := Saying(me, peerMayLead);
      && after.said.peerMayLead == peerMayLead && after.said.leader == me.said.leader && after.said.epoch == me.said.epoch
      && (after.said != me.said ==> !NoEarlier(me.said, after.said) && after.voter.statement == after.said)
      && (me.said.peerMayLead == peerMayLead ==> after == me)
  {
  }
}
