/** What holds of every run of the launcher, however signals, failures and deaths fall. */
module LauncherTheorems {
  import opened Launcher

  // ---- Reading the record ----------------------------------------------------------------------

  /** The failed starts at the end of the record, since the last child that lived long enough. */
  function Trailing(history: seq<Outcome>): nat {
    if history == [] || history[|history| - 1].DiedOld? then 0 else 1 + Trailing(history[..|history| - 1])
  }

  function Deaths(history: seq<Outcome>): nat {
    if history == [] then 0
    else Deaths(history[..|history| - 1]) + if history[|history| - 1].CouldNotStart? then 0 else 1
  }

  function Lives(history: seq<Outcome>): nat {
    if history == [] then 0
    else Lives(history[..|history| - 1]) + if history[|history| - 1].DiedOld? then 1 else 0
  }

  /** The record reaches a limit. */
  predicate AtLimit(history: seq<Outcome>, limits: Limits) {
    TooManyFailures(Trailing(history), limits) || TooManyInterruptions(Deaths(history), limits)
  }

  lemma {:induction false} Appended(history: seq<Outcome>, outcome: Outcome)
    ensures var after := history + [outcome];
      && Trailing(after) == (if outcome.DiedOld? then 0 else Trailing(history) + 1)
      && Deaths(after) == Deaths(history) + (if outcome.CouldNotStart? then 0 else 1)
      && Lives(after) == Lives(history) + (if outcome.DiedOld? then 1 else 0)
      && after[..|after| - 1] == history
  {
    assert (history + [outcome])[..|history|] == history;
  }

  // ---- The invariant ---------------------------------------------------------------------------

  /** A child has been started whose end is not in the record: it lives, is being judged, or ended after a stop. */
  predicate Unrecorded(s: State) {
    s.point.Waiting? || s.point.Judging? || (s.point == Done(0) && s.attempts > |s.history|)
  }

  /** No limit was reached before the last entry. */
  predicate Open(history: seq<Outcome>, limits: Limits) {
    forall k :: 0 <= k < |history| ==> !AtLimit(history[..k], limits)
  }

  lemma {:induction false} OpenAppended(history: seq<Outcome>, outcome: Outcome, limits: Limits)
    requires Open(history, limits) && !AtLimit(history, limits)
    ensures Open(history + [outcome], limits)
  {
    var after := history + [outcome];
    forall k | 0 <= k < |after| ensures !AtLimit(after[..k], limits) {
      assert after[..k] == if k < |history| then history[..k] else history;
    }
  }

  ghost predicate Inv(s: State, limits: Limits) {
    && s.restarts == s.interruptions == Deaths(s.history)
    && (s.point != Done(1) ==> s.failures == Trailing(s.history))
    && (s.point == Done(1) <==> AtLimit(s.history, limits))
    && (s.point.Done? ==> s.point.code in {0, 1})
    && Open(s.history, limits)
    && s.attempts == |s.history| + (if Unrecorded(s) then 1 else 0)
    && s.spawned == Deaths(s.history) + (if Unrecorded(s) then 1 else 0)
    && (s.point.Waiting? <==> s.child.Running?)
  }

  lemma {:induction false} StartKeepsInv(s: State, starts: bool, limits: Limits)
    requires Inv(s, limits) && s.point == Starting
    ensures Inv(Started(s, starts, limits), limits)
  {
    Appended(s.history, CouldNotStart);
    OpenAppended(s.history, CouldNotStart, limits);
  }

  lemma {:induction false} JudgeKeepsInv(s: State, ranFor: real, stopFile: bool, limits: Limits)
    requires Inv(s, limits) && s.point == Judging(ranFor)
    ensures Inv(Judged(s, ranFor, stopFile, limits), limits)
  {
    var outcome := if ranFor < limits.minimumRuntime then DiedYoung else DiedOld;
    Appended(s.history, outcome);
    OpenAppended(s.history, outcome, limits);
  }

  lemma {:induction false} StepKeepsInv(s: State, step: Step, limits: Limits)
    requires Inv(s, limits)
    ensures Inv(Next(s, step, limits), limits)
  {
    match (step, s.point)
    case (Start(starts), Starting) => StartKeepsInv(s, starts, limits);
    case (Judge(stopFile), Judging(ranFor)) => JudgeKeepsInv(s, ranFor, stopFile, limits);
    case _ =>
  }

  lemma {:induction false} RunKeepsInv(s: State, steps: seq<Step>, limits: Limits)
    requires Inv(s, limits)
    ensures Inv(Ran(s, steps, limits), limits)
    decreases |steps|
  {
    if steps != [] {
      StepKeepsInv(s, steps[0], limits);
      RunKeepsInv(Next(s, steps[0], limits), steps[1..], limits);
    }
  }

  // ---- Counting --------------------------------------------------------------------------------

  /**
   * In every run the counters are what the record says, and the launcher gives up exactly when the
   * record reaches a limit: not before, and never with a limit of zero.
   */
  lemma {:induction false} GivesUpExactlyAtLimit(steps: seq<Step>, limits: Limits)
    ensures var s := Ran(INITIAL, steps, limits);
      && s.interruptions == s.restarts == Deaths(s.history)
      && (s.point != Done(1) ==> s.failures == Trailing(s.history))
      && (s.point == Done(1) <==> AtLimit(s.history, limits))
      && (limits.failures <= 0 && limits.interruptions <= 0 ==> s.point != Done(1))
  {
    RunKeepsInv(INITIAL, steps, limits);
  }

  /** No child is spawned beyond the limit on interruptions. */
  lemma {:induction false} SpawnsBounded(steps: seq<Step>, limits: Limits)
    requires limits.interruptions > 0
    ensures Ran(INITIAL, steps, limits).spawned <= limits.interruptions
  {
    RunKeepsInv(INITIAL, steps, limits);
    DeathsBounded(Ran(INITIAL, steps, limits).history, limits);
  }

  lemma {:induction false} DeathsBounded(history: seq<Outcome>, limits: Limits)
    requires limits.interruptions > 0 && Open(history, limits)
    ensures Deaths(history) <= limits.interruptions
  {
    if history != [] {
      assert !AtLimit(history[..|history| - 1], limits);
    }
  }

  /** While no proper prefix reaches the limit on failures, the record is short: that many entries for each long life. */
  lemma {:induction false} RecordBounded(history: seq<Outcome>, limits: Limits)
    requires limits.failures > 0 && Open(history, limits)
    ensures |history| <= Lives(history) * limits.failures + Trailing(history)
    ensures Lives(history) <= Deaths(history)
  {
    if history != [] {
      var before := history[..|history| - 1];
      forall k | 0 <= k < |before| ensures !AtLimit(before[..k], limits) {
        assert before[..k] == history[..k];
      }
      RecordBounded(before, limits);
      assert !AtLimit(before, limits);
      if history[|history| - 1].DiedOld? {
        assert (Lives(before) + 1) * limits.failures == Lives(before) * limits.failures + limits.failures;
      }
    }
  }

  lemma {:induction false} ProductGrows(a: nat, b: int, c: nat)
    requires a <= b - 1
    ensures a * c + c <= b * c
    decreases b - a
  {
    assert (b - 1) * c + c == b * c;
    if a < b - 1 {
      ProductGrows(a, b - 1, c);
    }
  }

  /** With both limits set, a record not at a limit is shorter than their product; none is longer. */
  lemma {:induction false} RecordWithinProduct(history: seq<Outcome>, limits: Limits)
    requires limits.failures > 0 && limits.interruptions > 0 && Open(history, limits)
    ensures |history| <= limits.interruptions * limits.failures
    ensures !AtLimit(history, limits) ==> |history| < limits.interruptions * limits.failures
  {
    if !AtLimit(history, limits) {
      RecordBounded(history, limits);
      ProductGrows(Lives(history), limits.interruptions, limits.failures);
    } else if history != [] {
      var before := history[..|history| - 1];
      assert !AtLimit(before, limits);
      forall k | 0 <= k < |before| ensures !AtLimit(before[..k], limits) {
        assert before[..k] == history[..k];
      }
      RecordBounded(before, limits);
      ProductGrows(Lives(before), limits.interruptions, limits.failures);
    } else {
      assert false;
    }
  }

  /** With both limits set, no run makes more attempts than their product. */
  lemma {:induction false} AttemptsBounded(steps: seq<Step>, limits: Limits)
    requires limits.failures > 0 && limits.interruptions > 0
    ensures Ran(INITIAL, steps, limits).attempts <= limits.interruptions * limits.failures
  {
    RunKeepsInv(INITIAL, steps, limits);
    RecordWithinProduct(Ran(INITIAL, steps, limits).history, limits);
  }

  // ---- A turn as a whole -----------------------------------------------------------------------

  function SignalledIf(s: State, signal: bool): State {
    if signal then Signalled(s) else s
  }

  function LivedOut(s: State, turn: Turn, limits: Limits): State {
    var ended := SignalledIf(s, turn.signalWhileRunning).(point := Judging(turn.ranFor), child := Ended);
    Judged(SignalledIf(ended, turn.signalAfter), turn.ranFor, turn.stopFileAfter, limits)
  }

  /** The launcher after one turn of its loop. */
  function Turned(s: State, turn: Turn, limits: Limits): State {
    var looked := Looked(SignalledIf(s, turn.signalBefore), turn.stopFileBefore);
    if looked.point.Done? then looked
    else
      var started := Started(SignalledIf(looked, turn.signalWhileStarting), turn.starts, limits);
      if turn.starts then LivedOut(started, turn, limits) else started
  }

  lemma {:induction false} RanSignal(s: State, signal: bool, rest: seq<Step>, limits: Limits)
    requires !s.point.Done?
    ensures Ran(s, Maybe(signal) + rest, limits) == Ran(SignalledIf(s, signal), rest, limits)
  {
    if signal {
      RanStep(s, Signal, rest, limits);
    } else {
      assert [] + rest == rest;
    }
  }

  lemma {:induction false} RanLife(s: State, turn: Turn, limits: Limits)
    requires s.point == Waiting
    ensures Ran(s, Life(turn), limits) == LivedOut(s, turn, limits)
  {
    var told := SignalledIf(s, turn.signalWhileRunning);
    var ended := told.(point := Judging(turn.ranFor), child := Ended);
    var late := SignalledIf(ended, turn.signalAfter);
    RanSignal(s, turn.signalWhileRunning, [End(turn.ranFor)] + (Maybe(turn.signalAfter) + [Judge(turn.stopFileAfter)]), limits);
    RanStep(told, End(turn.ranFor), Maybe(turn.signalAfter) + [Judge(turn.stopFileAfter)], limits);
    RanSignal(ended, turn.signalAfter, [Judge(turn.stopFileAfter)], limits);
    RanStep(late, Judge(turn.stopFileAfter), [], limits);
    assert [Judge(turn.stopFileAfter)] + [] == [Judge(turn.stopFileAfter)];
  }

  lemma {:induction false} RanTurn(s: State, turn: Turn, limits: Limits)
    requires s.point == AtHead
    ensures Ran(s, StepsOf(turn), limits) == Turned(s, turn, limits)
  {
    var first := SignalledIf(s, turn.signalBefore);
    var looked := Looked(first, turn.stopFileBefore);
    RanSignal(s, turn.signalBefore, [Look(turn.stopFileBefore)] + Attempt(turn), limits);
    RanStep(first, Look(turn.stopFileBefore), Attempt(turn), limits);
    if looked.point.Done? {
      DoneStays(looked, Attempt(turn), limits);
    } else {
      var signalled := SignalledIf(looked, turn.signalWhileStarting);
      var rest := if turn.starts then Life(turn) else [];
      RanSignal(looked, turn.signalWhileStarting, [Start(turn.starts)] + rest, limits);
      RanStep(signalled, Start(turn.starts), rest, limits);
      if turn.starts {
        RanLife(Started(signalled, true, limits), turn, limits);
      }
    }
  }

  // ---- The launcher returns --------------------------------------------------------------------

  /** After so many turns the launcher is done, or has recorded an attempt for each. */
  lemma {:induction false} TurnsRecorded(turns: seq<Turn>, k: nat, limits: Limits)
    requires k <= |turns|
    ensures var s := Ran(INITIAL, AllSteps(turns[..k]), limits); s.point.Done? || (s.point == AtHead && |s.history| == k)
  {
    if k > 0 {
      TurnsRecorded(turns, k - 1, limits);
      var s := Ran(INITIAL, AllSteps(turns[..k - 1]), limits);
      OneMoreTurn(INITIAL, turns, k - 1, limits);
      if s.point.Done? {
        DoneStays(s, StepsOf(turns[k - 1]), limits);
      } else {
        RanTurn(s, turns[k - 1], limits);
      }
    } else {
      assert turns[..0] == [];
    }
  }

  /** With both limits set the launcher returns, whatever happens, within as many turns as their product. */
  lemma {:induction false} RunReturns(turns: seq<Turn>, limits: Limits)
    requires limits.failures > 0 && limits.interruptions > 0 && |turns| >= limits.interruptions * limits.failures
    ensures Ran(INITIAL, AllSteps(turns), limits).point.Done?
  {
    var s := Ran(INITIAL, AllSteps(turns), limits);
    assert turns[..|turns|] == turns;
    TurnsRecorded(turns, |turns|, limits);
    RunKeepsInv(INITIAL, AllSteps(turns), limits);
    RecordWithinProduct(s.history, limits);
  }

  // ---- The bound is reached --------------------------------------------------------------------

  /** `n` attempts that cannot start the child. */
  function Failing(n: nat): seq<Step> {
    if n == 0 then [] else [Look(false), Start(false)] + Failing(n - 1)
  }

  /** A child that lives just long enough. */
  function Living(limits: Limits): seq<Step> {
    [Look(false), Start(true), End(limits.minimumRuntime), Judge(false)]
  }

  function Cycles(n: nat, limits: Limits): seq<Step>
    requires limits.failures > 0
  {
    if n == 0 then [] else Failing(limits.failures - 1) + Living(limits) + Cycles(n - 1, limits)
  }

  predicate Fresh(s: State) {
    s.point == AtHead && !s.stopping && s.failures == 0
  }

  lemma {:induction false} FailingRuns(s: State, n: nat, limits: Limits)
    requires s.point == AtHead && !s.stopping && s.failures + n < limits.failures
    ensures var after := Ran(s, Failing(n), limits);
      && after.point == AtHead && !after.stopping && after.interruptions == s.interruptions
      && after.attempts == s.attempts + n
    decreases n
  {
    if n > 0 {
      var next := Next(Next(s, Look(false), limits), Start(false), limits);
      assert Failing(n)[1..] == [Start(false)] + Failing(n - 1) && Failing(n)[1..][1..] == Failing(n - 1);
      assert Ran(s, Failing(n), limits) == Ran(next, Failing(n - 1), limits);
      FailingRuns(next, n - 1, limits);
    }
  }

  lemma {:induction false} LivingRuns(s: State, limits: Limits)
    requires s.point == AtHead && !s.stopping
    ensures var after := Ran(s, Living(limits), limits);
      && after.attempts == s.attempts + 1 && after.interruptions == s.interruptions + 1
      && (!TooManyInterruptions(s.interruptions + 1, limits) ==> Fresh(after))
  {
    var a := Next(s, Look(false), limits);
    var b := Next(a, Start(true), limits);
    var c := Next(b, End(limits.minimumRuntime), limits);
    var d := Next(c, Judge(false), limits);
    RanStep(s, Look(false), [Start(true), End(limits.minimumRuntime), Judge(false)], limits);
    RanStep(a, Start(true), [End(limits.minimumRuntime), Judge(false)], limits);
    RanStep(b, End(limits.minimumRuntime), [Judge(false)], limits);
    RanStep(c, Judge(false), [], limits);
    assert [Look(false)] + [Start(true), End(limits.minimumRuntime), Judge(false)] == Living(limits);
    assert [Start(true)] + [End(limits.minimumRuntime), Judge(false)] == [Start(true), End(limits.minimumRuntime), Judge(false)];
    assert [End(limits.minimumRuntime)] + [Judge(false)] == [End(limits.minimumRuntime), Judge(false)];
    assert [Judge(false)] + [] == [Judge(false)];
  }

  lemma {:induction false} CyclesRun(s: State, n: nat, limits: Limits)
    requires limits.failures > 0 && Fresh(s)
    requires s.interruptions + n <= limits.interruptions
    ensures Ran(s, Cycles(n, limits), limits).attempts == s.attempts + n * limits.failures
    decreases n
  {
    if n > 0 {
      var failing, living := Failing(limits.failures - 1), Living(limits);
      var failed := Ran(s, failing, limits);
      var lived := Ran(failed, living, limits);
      FailingRuns(s, limits.failures - 1, limits);
      LivingRuns(failed, limits);
      RanApart(s, failing, living, limits);
      RanApart(s, failing + living, Cycles(n - 1, limits), limits);
      assert n * limits.failures == (n - 1) * limits.failures + limits.failures;
      if n > 1 {
        CyclesRun(lived, n - 1, limits);
      }
    }
  }

  /** The bound on attempts is exact: some run makes that many. */
  lemma {:induction false} BoundReached(limits: Limits)
    requires limits.failures > 0 && limits.interruptions > 0
    ensures Ran(INITIAL, Cycles(limits.interruptions, limits), limits).attempts == limits.interruptions * limits.failures
  {
    CyclesRun(INITIAL, limits.interruptions, limits);
  }

  // ---- Stopping --------------------------------------------------------------------------------

  /** After a stop signal there is one more attempt at most, and only if the signal fell between the look and the start. */
  lemma {:induction false} StoppedAttempts(s: State, steps: seq<Step>, limits: Limits)
    requires s.stopping
    ensures Ran(s, steps, limits).stopping
    ensures Ran(s, steps, limits).attempts <= s.attempts + if s.point == Starting then 1 else 0
    decreases |steps|
  {
    if steps != [] {
      StoppedAttempts(Next(s, steps[0], limits), steps[1..], limits);
    }
  }

  /**
   * A launcher told to stop that comes to an end returns 0, except where the signal fell between the
   * look and the start, the start then failed, and that failure was the one the limit allows.
   */
  lemma {:induction false} StoppedReturns(s: State, steps: seq<Step>, limits: Limits)
    requires s.stopping && !s.point.Done? && Ran(s, steps, limits).point.Done?
    ensures Ran(s, steps, limits).point.code in {0, 1}
    ensures Ran(s, steps, limits).point == Done(1) <==>
      s.point == Starting && FirstStartFails(steps) && TooManyFailures(s.failures + 1, limits)
    decreases |steps|
  {
    if steps != [] {
      var next := Next(s, steps[0], limits);
      if next.point.Done? {
        DoneStays(next, steps[1..], limits);
      } else {
        StoppedReturns(next, steps[1..], limits);
      }
    }
  }

  /** A stop signal falls in this turn, where the launcher lives to see it. */
  predicate Signals(turn: Turn) {
    turn.signalBefore || turn.signalWhileStarting || (turn.starts && (turn.signalWhileRunning || turn.signalAfter))
  }

  /** A turn with a signal is the last, unless the signal fell before a start that failed; then the next is. */
  lemma {:induction false} SignalledTurn(s: State, turn: Turn, limits: Limits)
    requires s.point == AtHead && (s.stopping || Signals(turn))
    ensures var after := Turned(s, turn, limits);
      after.point.Done? || (after.stopping && after.point == AtHead && !s.stopping && turn.signalWhileStarting && !turn.starts)
  {
  }

  /** Told to stop in some turn, the launcher has returned by the end of the next, with limits or without. */
  lemma {:induction false} SignalledRunReturns(turns: seq<Turn>, j: nat, limits: Limits)
    requires j + 1 < |turns| && Signals(turns[j])
    ensures Ran(INITIAL, AllSteps(turns[..j + 2]), limits).point.Done?
    ensures Ran(INITIAL, AllSteps(turns), limits).point.Done?
  {
    TurnsRecorded(turns, j, limits);
    var s := Ran(INITIAL, AllSteps(turns[..j]), limits);
    var t := Ran(s, StepsOf(turns[j]), limits);
    OneMoreTurn(INITIAL, turns, j, limits);
    OneMoreTurn(INITIAL, turns, j + 1, limits);
    if s.point.Done? {
      DoneStays(s, StepsOf(turns[j]), limits);
    } else {
      RanTurn(s, turns[j], limits);
      SignalledTurn(s, turns[j], limits);
    }
    if t.point.Done? {
      DoneStays(t, StepsOf(turns[j + 1]), limits);
    } else {
      RanTurn(t, turns[j + 1], limits);
      SignalledTurn(t, turns[j + 1], limits);
    }
    DoneEarly(INITIAL, turns, j + 2, limits);
  }

  /** Whether the next start the run comes to fails. */
  predicate FirstStartFails(steps: seq<Step>) {
    steps != [] && if steps[0].Start? then !steps[0].starts else FirstStartFails(steps[1..])
  }

  /** Returning 0 means a stop was asked for: by a signal, or by the stop file at the last look. */
  lemma {:induction false} ReturnsZeroOnlyWhenAsked(s: State, step: Step, limits: Limits)
    requires !s.point.Done? && Next(s, step, limits).point == Done(0)
    ensures s.stopping || step == Look(true) || step == Judge(true)
  {
  }

  /**
   * A child that runs has been told to stop exactly when a signal came while it was being waited for.  If
   * a stop is wanted and it has not been told, the signal fell between the look and the start.
   */
  lemma {:induction false} RunningChildTold(steps: seq<Step>, limits: Limits)
    requires Ran(INITIAL, steps, limits).point.Waiting?
    ensures var end := Ran(INITIAL, steps, limits);
      && (end.child == Running(true) <==> SignalWhileWaiting(INITIAL, steps, limits))
      && (end.stopping && end.child != Running(true) ==> SignalWhileStarting(INITIAL, steps, limits))
  {
    ToldExactlyWhen(INITIAL, steps, limits);
    ToldOrStarting(INITIAL, steps, limits);
  }

  predicate SignalWhileWaiting(s: State, steps: seq<Step>, limits: Limits)
    decreases |steps|
  {
    steps != [] && ((steps[0].Signal? && s.point.Waiting?) || SignalWhileWaiting(Next(s, steps[0], limits), steps[1..], limits))
  }

  /** Once a stop is wanted and no child is being started or waited for, none ever is again. */
  lemma {:induction false} NoMoreChildren(s: State, steps: seq<Step>, limits: Limits)
    requires s.stopping && !s.point.Starting? && !s.point.Waiting?
    ensures !Ran(s, steps, limits).point.Waiting?
    decreases |steps|
  {
    if steps != [] {
      NoMoreChildren(Next(s, steps[0], limits), steps[1..], limits);
    }
  }

  lemma {:induction false} ToldExactlyWhen(s: State, steps: seq<Step>, limits: Limits)
    requires (s.point.Waiting? <==> s.child.Running?) && (s.child == Running(true) ==> s.stopping)
    ensures var end := Ran(s, steps, limits);
      end.point.Waiting? ==> (end.child == Running(true) <==> s.child == Running(true) || SignalWhileWaiting(s, steps, limits))
    decreases |steps|
  {
    if steps != [] {
      var next := Next(s, steps[0], limits);
      if s.child == Running(true) && steps[0].End? {
        NoMoreChildren(next, steps[1..], limits);
      } else {
        ToldExactlyWhen(next, steps[1..], limits);
      }
    }
  }

  predicate SignalWhileStarting(s: State, steps: seq<Step>, limits: Limits)
    decreases |steps|
  {
    steps != [] && ((steps[0].Signal? && s.point == Starting) || SignalWhileStarting(Next(s, steps[0], limits), steps[1..], limits))
  }

  lemma {:induction false} ToldOrStarting(s: State, steps: seq<Step>, limits: Limits)
    requires s.point.Waiting? <==> s.child.Running?
    requires s.stopping ==> s.point != Starting && (s.point.Waiting? ==> s.child == Running(true))
    ensures var end := Ran(s, steps, limits);
      end.stopping && end.point.Waiting? ==> end.child == Running(true) || SignalWhileStarting(s, steps, limits)
    decreases |steps|
  {
    if steps != [] && !(steps[0].Signal? && s.point == Starting) {
      ToldOrStarting(Next(s, steps[0], limits), steps[1..], limits);
    }
  }

  /** A signal between the look and the start stops nothing until the child ends by itself: it is never told. */
  lemma {:induction false} LateSignalLeavesChildUntold(limits: Limits)
    ensures var s := Ran(INITIAL, [Look(false), Signal, Start(true)], limits);
      s.stopping && s.child == Running(false) && s.point == Waiting
  {
    var a := Next(INITIAL, Look(false), limits);
    var b := Next(a, Signal, limits);
    var c := Next(b, Start(true), limits);
    RanStep(INITIAL, Look(false), [Signal, Start(true)], limits);
    RanStep(a, Signal, [Start(true)], limits);
    RanStep(b, Start(true), [], limits);
    assert [Look(false)] + [Signal, Start(true)] == [Look(false), Signal, Start(true)];
    assert [Signal] + [Start(true)] == [Signal, Start(true)] && [Start(true)] + [] == [Start(true)];
  }
}
