/**
 * What a leader says of its peer: an instance that a statement says may not lead is granted no vote by
 * whoever holds the statement, and while a majority without it would need such a vote it cannot lead.
 */
module LeaseStatements {
  import opened LeaseRules
  import opened LeaseSystem
  import opened LeaseSafety

  /** The leader of this statement says that its peer, this instance, may not lead. */
  predicate SaysMayNotLead(said: Statement, p: int) {
    said.leader == 3 - p && !said.peerMayLead
  }

  /** No grant goes to an instance from a voter that then holds a statement that the instance may not lead. */
  lemma {:induction false} NoGrantToBarred(c: Setting, states: seq<System>, steps: seq<Step>, k: nat, g: Grant)
    requires Run(c, states, steps) && k < |steps| && states[k].parties.Keys == PARTIES
    requires g in states[k + 1].grants && g !in states[k].grants && g.request.from in {1, 2} && g.request.to in PARTIES
    ensures !SaysMayNotLead(states[k].parties[g.request.to].voter.statement, g.request.from)
  {
    assert Taken(c, states[k], steps[k], states[k + 1]);
    GrantNotToBarred(c, states[k], steps[k], g);
  }

  lemma {:induction false} GrantNotToBarred(c: Setting, s: System, step: Step, g: Grant)
    requires s.parties.Keys == PARTIES && Enabled(c, s, step)
    requires g in Next(c, s, step).grants && g !in s.grants && g.request.from in {1, 2} && g.request.to in PARTIES
    ensures !SaysMayNotLead(s.parties[g.request.to].voter.statement, g.request.from)
  {
    assert step == Receive(g.request) && Grants(c, s, g.request);
  }

  /** No instance asks to lead while its own voter holds a statement that it may not. */
  lemma {:induction false} NoBarredAsks(c: Setting, states: seq<System>, steps: seq<Step>, k: nat)
    requires Run(c, states, steps) && k < |steps| && steps[k].Ask? && states[k].parties.Keys == PARTIES
    requires steps[k].p in {1, 2}
    ensures !SaysMayNotLead(states[k].parties[steps[k].p].voter.statement, steps[k].p)
  {
    assert Taken(c, states[k], steps[k], states[k + 1]);
  }

  // ---- No majority elects it -------------------------------------------------------------------

  ghost predicate OwnVoterBars(s: System, q: int) {
    s.parties.Keys == PARTIES && q in PARTIES && SaysMayNotLead(s.parties[q].voter.statement, q)
  }

  ghost predicate OthersBar(s: System, q: int) {
    && s.parties.Keys == PARTIES && q in {1, 2}
    && SaysMayNotLead(s.parties[3 - q].voter.statement, q) && SaysMayNotLead(s.parties[3].voter.statement, q)
  }

  lemma {:induction false} BarredStaysIdle(c: Setting, s: System, q: int, step: Step)
    requires OwnVoterBars(s, q) && q in {1, 2} && Enabled(c, s, step) && s.parties[q].holder.mode.Idle?
    ensures Next(c, s, step).parties[q].holder.mode.Idle?
  {
  }

  /** Since `past` the instance has been granted nothing, and every request it waits on was sent after it. */
  ghost predicate NothingSince(past: System, s: System, q: int)
    requires s.parties.Keys == PARTIES && q in PARTIES
  {
    && !s.parties[q].holder.mode.Leading?
    && past.requests <= s.requests
    && (forall g :: g in s.grants && g.request.from == q ==> g in past.grants)
    && SentSince(past.requests, s.requests, q, s.parties[q])
  }

  ghost predicate SentSince(before: set<Request>, requests: set<Request>, q: int, me: Party) {
    forall r :: r in requests && r.from == q && r.process == me.process && r.id in me.holder.outstanding ==> r !in before
  }

  lemma {:induction false} SendSentSince(c: Setting, s: System, q: int, step: Step, before: set<Request>)
    requires Inv(c, s) && q in PARTIES && Enabled(c, s, step) && step.Send? && before <= s.requests
    requires SentSince(before, s.requests, q, s.parties[q])
    ensures SentSince(before, Next(c, s, step).requests, q, Next(c, s, step).parties[q])
  {
    var t := Next(c, s, step);
    forall r | r in t.requests && r.from == q && r.process == t.parties[q].process && r.id in t.parties[q].holder.outstanding
      ensures r !in before
    {
      assert r in before ==> RequestSound(c, s, r);
    }
  }

  lemma {:induction false} StepSentSince(c: Setting, s: System, q: int, step: Step, before: set<Request>)
    requires Inv(c, s) && q in PARTIES && Enabled(c, s, step) && before <= s.requests
    requires SentSince(before, s.requests, q, s.parties[q])
    ensures SentSince(before, Next(c, s, step).requests, q, Next(c, s, step).parties[q])
  {
    if step.Send? {
      SendSentSince(c, s, q, step, before);
    } else if !step.Tick? && Actor(step) == q {
      OutstandingShrinks(c, q, s.parties[q], step, c.clock(q, s.now));
      if step.Restart? {
        assert Next(c, s, step).parties[q].holder == FRESH_HOLDER;
      }
    }
  }

  lemma {:induction false} OutstandingShrinks(c: Setting, p: int, me: Party, step: Step, now: int)
    requires Ready(c, p, me, step, now) && !step.Send?
    ensures Local(c, p, me, step, now).holder.outstanding.Keys <= me.holder.outstanding.Keys
    ensures !step.Restart? ==> Local(c, p, me, step, now).process == me.process
  {
  }

  /** A grant it could take up would be a new one. */
  lemma {:induction false} OldGrantUseless(c: Setting, past: System, s: System, q: int, g: Grant)
    requires c.Sound() && Inv(c, s) && Inv(c, past) && q in {1, 2} && NothingSince(past, s, q)
    requires Enabled(c, s, TakeGrant(g)) && g.request.from == q
    ensures Next(c, s, TakeGrant(g)).parties[q].holder.mode == s.parties[q].holder.mode
  {
    var me, r := s.parties[q], g.request;
    assert g in past.grants && r in past.requests && r in s.requests;
    assert RequestSound(c, s, r) && PartySound(c, s.requests, s.grants, s.now, q, me);
    assert r.process == me.process ==> r.id !in me.holder.outstanding;
    assert r.process != me.process && !me.holder.mode.Idle? ==> me.holder.epoch != r.epoch;
  }

  lemma {:induction false} StepNothingSince(c: Setting, past: System, s: System, q: int, step: Step)
    requires c.Sound() && Inv(c, s) && Inv(c, past) && OthersBar(s, q) && NothingSince(past, s, q) && Enabled(c, s, step)
    requires Next(c, s, step).parties.Keys == PARTIES
    ensures NothingSince(past, Next(c, s, step), q)
  {
    var t := Next(c, s, step);
    StepSentSince(c, s, q, step, past.requests);
    if step.TakeGrant? && step.grant.request.from == q {
      OldGrantUseless(c, past, s, q, step.grant);
    }
    NoNewGrant(c, s, q, step);
    StillNotLeading(c, s, q, step);
  }

  lemma {:induction false} NoNewGrant(c: Setting, s: System, q: int, step: Step)
    requires Inv(c, s) && OthersBar(s, q) && Enabled(c, s, step)
    ensures forall g :: g in Next(c, s, step).grants && g.request.from == q ==> g in s.grants
  {
    forall g | g in Next(c, s, step).grants && g.request.from == q ensures g in s.grants {
      if g !in s.grants {
        NewGrantBarred(c, s, q, step, g);
      }
    }
  }

  lemma {:induction false} NewGrantBarred(c: Setting, s: System, q: int, step: Step, g: Grant)
    requires Inv(c, s) && OthersBar(s, q) && Enabled(c, s, step)
    requires g in Next(c, s, step).grants && g !in s.grants
    ensures g.request.from != q
  {
    assert step == Receive(g.request) && RequestSound(c, s, g.request);
    GrantNotToBarred(c, s, step, g);
  }

  /** Only a grant makes a leader. */
  lemma {:induction false} StillNotLeading(c: Setting, s: System, q: int, step: Step)
    requires s.parties.Keys == PARTIES && q in PARTIES && Enabled(c, s, step) && !s.parties[q].holder.mode.Leading?
    ensures !(step.TakeGrant? && step.grant.request.from == q) ==> !Next(c, s, step).parties[q].holder.mode.Leading?
  {
  }

  /**
   * An instance that neither leads nor asks does not come to lead as long as its own voter holds that it
   * may not, nor as long as both the other voters do: any majority that could elect it includes one that
   * knows.  However many messages, restarts and clocks the run has.
   */
  lemma {:induction false} BarredNeverLeads(c: Setting, states: seq<System>, steps: seq<Step>, q: int, j: nat, k: nat)
    requires c.Sound() && Run(c, states, steps) && q in {1, 2} && j <= k <= |steps|
    requires forall m :: 0 <= m < |steps| ==> CarefulAt(c, states[m], steps[m])
    requires states[j].parties.Keys == PARTIES && states[j].parties[q].holder.mode.Idle?
    requires || (forall m :: j <= m <= k ==> OwnVoterBars(states[m], q))
             || (forall m :: j <= m <= k ==> OthersBar(states[m], q))
    ensures states[k].parties.Keys == PARTIES && !states[k].parties[q].holder.mode.Leading?
  {
    if forall m :: j <= m <= k ==> OwnVoterBars(states[m], q) {
      OwnBarredIdle(c, states, steps, q, j, k);
    } else {
      OthersBarNothing(c, states, steps, q, j, k);
    }
  }

  lemma {:induction false} TakenStaysIdle(c: Setting, s: System, step: Step, t: System, q: int)
    requires Taken(c, s, step, t) && OwnVoterBars(s, q) && q in {1, 2} && s.parties[q].holder.mode.Idle? && t.parties.Keys == PARTIES
    ensures t.parties[q].holder.mode.Idle?
  {
    BarredStaysIdle(c, s, q, step);
  }

  lemma {:induction false} OwnBarredIdle(c: Setting, states: seq<System>, steps: seq<Step>, q: int, j: nat, k: nat)
    requires Run(c, states, steps) && q in {1, 2} && j <= k <= |steps|
    requires states[j].parties.Keys == PARTIES && states[j].parties[q].holder.mode.Idle?
    requires forall m :: j <= m <= k ==> OwnVoterBars(states[m], q)
    ensures states[k].parties.Keys == PARTIES && states[k].parties[q].holder.mode.Idle?
  {
    if j < k {
      OwnBarredIdle(c, states, steps, q, j, k - 1);
      var s, t := states[k - 1], states[k];
      assert OwnVoterBars(s, q) && OwnVoterBars(t, q);
      TakenStaysIdle(c, s, steps[k - 1], t, q);
    }
  }

  /** Since `past` nothing, of a system that keeps the invariant. */
  ghost predicate Unmoved(c: Setting, past: System, s: System, q: int) {
    Inv(c, s) && s.parties.Keys == PARTIES && q in {1, 2} && NothingSince(past, s, q)
  }

  lemma {:induction false} UnmovedYet(c: Setting, s: System, q: int)
    requires Inv(c, s) && q in {1, 2} && s.parties.Keys == PARTIES && s.parties[q].holder.mode.Idle?
    ensures Unmoved(c, s, s, q)
  {
    assert PartySound(c, s.requests, s.grants, s.now, q, s.parties[q]);
  }

  lemma {:induction false} TakenUnmoved(c: Setting, past: System, s: System, step: Step, t: System, q: int)
    requires c.Sound() && Inv(c, past) && Unmoved(c, past, s, q) && OthersBar(s, q) && Taken(c, s, step, t) && Inv(c, t)
    ensures Unmoved(c, past, t, q)
  {
    assert t.parties.Keys == PARTIES;
    StepNothingSince(c, past, s, q, step);
  }

  lemma {:induction false} UnmovedAt(c: Setting, states: seq<System>, steps: seq<Step>, past: System, q: int, m: nat)
    requires c.Sound() && Run(c, states, steps) && m < |steps|
    requires forall n :: 0 <= n < |steps| ==> CarefulAt(c, states[n], steps[n])
    requires Inv(c, past) && Unmoved(c, past, states[m], q) && OthersBar(states[m], q)
    ensures Unmoved(c, past, states[m + 1], q)
  {
    RunKeepsInv(c, states, steps, m + 1);
    TakenUnmoved(c, past, states[m], steps[m], states[m + 1], q);
  }

  /** What a state hands on to the next one holds along the run. */
  lemma {:induction false} HandedOn(states: seq<System>, holds: System -> bool, j: nat, k: nat)
    requires j <= k < |states| && holds(states[j])
    requires forall m :: j <= m < k ==> (holds(states[m]) ==> holds(states[m + 1]))
    ensures holds(states[k])
  {
    if j < k {
      HandedOn(states, holds, j, k - 1);
    }
  }

  lemma {:induction false} OthersBarNothing(c: Setting, states: seq<System>, steps: seq<Step>, q: int, j: nat, k: nat)
    requires c.Sound() && Run(c, states, steps) && q in {1, 2} && j <= k <= |steps|
    requires forall m :: 0 <= m < |steps| ==> CarefulAt(c, states[m], steps[m])
    requires states[j].parties.Keys == PARTIES && states[j].parties[q].holder.mode.Idle?
    requires forall m :: j <= m <= k ==> OthersBar(states[m], q)
    ensures Unmoved(c, states[j], states[k], q)
  {
    var past := states[j];
    RunKeepsInv(c, states, steps, j);
    UnmovedYet(c, past, q);
    var unmoved := (s: System) => Unmoved(c, past, s, q);
    forall m | j <= m < k ensures unmoved(states[m]) ==> unmoved(states[m + 1]) {
      if unmoved(states[m]) {
        UnmovedAt(c, states, steps, past, q, m);
      }
    }
    HandedOn(states, unmoved, j, k);
  }
}
