/**
 * The launcher that starts one component and starts it again when it dies.  The machine takes the
 * supervising loop apart at the points where a stop signal can fall between two of its actions.
 */
module Launcher {

  /** Zero or less means no limit. */
  datatype Limits = Limits(failures: int, interruptions: int, minimumRuntime: real)

  datatype Child = Nobody | Running(told: bool) | Ended

  datatype Point =
    | AtHead                  // about to look for a stop request
    | Starting                // about to start the child
    | Waiting                 // waiting for the child
    | Judging(ranFor: real)   // the child has ended
    | Done(code: int)

  /** How an attempt turned out, when it was not ended by a stop request. */
  datatype Outcome = CouldNotStart | DiedYoung | DiedOld

  /** The launcher's own fields, and beside them a record of its attempts. */
  datatype State = State(point: Point, stopping: bool, child: Child, restarts: nat, failures: nat, interruptions: nat,
                         history: seq<Outcome>, attempts: nat, spawned: nat)

  const INITIAL := State(AtHead, false, Nobody, 0, 0, 0, [], 0, 0)

  /** What happens next: a signal at any time, or the loop's next action with what it meets. */
  datatype Step =
    | Signal
    | Look(stopFile: bool)
    | Start(starts: bool)
    | End(ranFor: real)
    | Judge(stopFile: bool)

  function Signalled(s: State): State {
    s.(stopping := true, child := if s.child.Running? then Running(true) else s.child)
  }

  function Looked(s: State, stopFile: bool): State {
    s.(point := if s.stopping || stopFile then Done(0) else Starting)
  }

  predicate TooManyFailures(failures: nat, limits: Limits) {
    0 < limits.failures <= failures
  }

  predicate TooManyInterruptions(interruptions: nat, limits: Limits) {
    0 < limits.interruptions <= interruptions
  }

  function Started(s: State, starts: bool, limits: Limits): State {
    if starts then
      s.(point := Waiting, child := Running(false), attempts := s.attempts + 1, spawned := s.spawned + 1)
    else
      s.(point := if TooManyFailures(s.failures + 1, limits) then Done(1) else AtHead,
         failures := s.failures + 1, attempts := s.attempts + 1, history := s.history + [CouldNotStart])
  }

  function Judged(s: State, ranFor: real, stopFile: bool, limits: Limits): State {
    if s.stopping || stopFile then s.(point := Done(0))
    else
      var young := ranFor < limits.minimumRuntime;
      var counted := s.(restarts := s.restarts + 1, interruptions := s.interruptions + 1,
                        history := s.history + [if young then DiedYoung else DiedOld]);
      if TooManyInterruptions(s.interruptions + 1, limits) then counted.(point := Done(1))
      else if young then
        counted.(failures := s.failures + 1,
                 point := if TooManyFailures(s.failures + 1, limits) then Done(1) else AtHead)
      else counted.(failures := 0, point := AtHead)
  }

  /** A step that does not fit the point the launcher is at changes nothing. */
  function Next(s: State, step: Step, limits: Limits): State {
    match (step, s.point)
    case (Signal, Done(_)) => s
    case (Signal, _) => Signalled(s)
    case (Look(stopFile), AtHead) => Looked(s, stopFile)
    case (Start(starts), Starting) => Started(s, starts, limits)
    case (End(ranFor), Waiting) => s.(point := Judging(ranFor), child := Ended)
    case (Judge(stopFile), Judging(ranFor)) => Judged(s, ranFor, stopFile, limits)
    case _ => s
  }

  function Ran(s: State, steps: seq<Step>, limits: Limits): State
    decreases |steps|
  {
    if steps == [] then s else Ran(Next(s, steps[0], limits), steps[1..], limits)
  }

  // ---- The launcher itself ---------------------------------------------------------------------

  /** One turn of the loop: what each look finds, and where signals fall. */
  datatype Turn = Turn(signalBefore: bool, stopFileBefore: bool, signalWhileStarting: bool, starts: bool,
                       signalWhileRunning: bool, ranFor: real, signalAfter: bool, stopFileAfter: bool)

  function Maybe(signal: bool): seq<Step> { if signal then [Signal] else [] }

  /** A turn as steps; once the launcher is done they change nothing. */
  function StepsOf(turn: Turn): seq<Step> {
    Maybe(turn.signalBefore) + ([Look(turn.stopFileBefore)] + Attempt(turn))
  }

  function Attempt(turn: Turn): seq<Step> {
    Maybe(turn.signalWhileStarting) + ([Start(turn.starts)] + if turn.starts then Life(turn) else [])
  }

  function Life(turn: Turn): seq<Step> {
    Maybe(turn.signalWhileRunning) + ([End(turn.ranFor)] + (Maybe(turn.signalAfter) + [Judge(turn.stopFileAfter)]))
  }

  lemma {:induction false} RanApart(s: State, a: seq<Step>, b: seq<Step>, limits: Limits)
    ensures Ran(s, a + b, limits) == Ran(Ran(s, a, limits), b, limits)
    decreases |a|
  {
    if a == [] {
      assert a + b == b;
    } else {
      assert (a + b)[1..] == a[1..] + b;
      RanApart(Next(s, a[0], limits), a[1..], b, limits);
    }
  }

  lemma {:induction false} RanStep(s: State, step: Step, rest: seq<Step>, limits: Limits)
    ensures Ran(s, [step] + rest, limits) == Ran(Next(s, step, limits), rest, limits)
  {
    assert ([step] + rest)[1..] == rest;
  }

  lemma {:induction false} DoneStays(s: State, steps: seq<Step>, limits: Limits)
    requires s.point.Done?
    ensures Ran(s, steps, limits) == s
    decreases |steps|
  {
    if steps != [] {
      DoneStays(s, steps[1..], limits);
    }
  }

  class Supervisor {
    const limits: Limits
    var stopping: bool
    var child: Child
    var restarts: nat
    var consecutiveFailures: nat
    var interruptions: nat

    constructor (limits: Limits)
      ensures this.limits == limits
      ensures !stopping && child == Nobody && restarts == 0 && consecutiveFailures == 0 && interruptions == 0
    {
      this.limits := limits;
      stopping := false;
      child := Nobody;
      restarts := 0;
      consecutiveFailures := 0;
      interruptions := 0;
    }

    /** The fields agree with a state of the machine. */
    ghost predicate Shows(s: State)
      reads this
    {
      && stopping == s.stopping && child == s.child && restarts == s.restarts
      && consecutiveFailures == s.failures && interruptions == s.interruptions
    }

    method OnStopSignal(ghost s: State)
      requires Shows(s)
      modifies this
      ensures Shows(Signalled(s))
    {
      stopping := true;
      if child.Running? {
        child := Running(true);
      }
    }

    method GiveUp() returns (giveUp: bool)
      ensures giveUp == TooManyFailures(consecutiveFailures, limits)
    {
      if limits.failures <= 0 {
        return false;
      }
      if consecutiveFailures < limits.failures {
        return false;
      }
      return true;
    }

    method GiveUpForInterruptions() returns (giveUp: bool)
      ensures giveUp == TooManyInterruptions(interruptions, limits)
    {
      if limits.interruptions <= 0 {
        return false;
      }
      return !(interruptions < limits.interruptions);
    }

    /** The child could not be started. */
    method FailToStart(ghost s: State) returns (code: int)
      requires Shows(s) && s.point == Starting
      modifies this
      ensures Shows(Started(s, false, limits))
      ensures Started(s, false, limits).point == if code < 0 then AtHead else Done(code)
    {
      consecutiveFailures := consecutiveFailures + 1;
      var giveUp := GiveUp();
      return if giveUp then 1 else -1;
    }

    /** The child has ended: what becomes of the loop, `-1` to go round again. */
    method JudgeEnd(stopFile: bool, ranFor: real, ghost s: State) returns (code: int)
      requires Shows(s) && s.point == Judging(ranFor)
      modifies this
      ensures Shows(Judged(s, ranFor, stopFile, limits))
      ensures Judged(s, ranFor, stopFile, limits).point == if code < 0 then AtHead else Done(code)
    {
      if stopping || stopFile {
        return 0;
      }
      restarts := restarts + 1;
      interruptions := interruptions + 1;
      var unfit := GiveUpForInterruptions();
      if unfit {
        return 1;
      }
      if ranFor < limits.minimumRuntime {
        consecutiveFailures := consecutiveFailures + 1;
        var giveUp := GiveUp();
        return if giveUp then 1 else -1;
      }
      consecutiveFailures := 0;
      return -1;
    }

    method SignalIf(signal: bool, ghost s: State) returns (ghost after: State)
      requires Shows(s) && !s.point.Done?
      modifies this
      ensures after == Ran(s, Maybe(signal), limits) && Shows(after) && after.point == s.point
      ensures after == if signal then Signalled(s) else s
    {
      after := s;
      if signal {
        OnStopSignal(s);
        after := Signalled(s);
        assert Ran(s, [Signal], limits) == Ran(after, [], limits);
      }
    }

    /** The child runs and ends. */
    method LiveOut(turn: Turn, ghost s: State) returns (code: int, ghost after: State)
      requires Shows(s) && s.point == Waiting
      modifies this
      ensures after == Ran(s, Life(turn), limits) && Shows(after)
      ensures after.point == if code < 0 then AtHead else Done(code)
    {
      ghost var told := SignalIf(turn.signalWhileRunning, s);
      RanApart(s, Maybe(turn.signalWhileRunning), [End(turn.ranFor)] + (Maybe(turn.signalAfter) + [Judge(turn.stopFileAfter)]), limits);
      child := Ended;
      ghost var ended := told.(point := Judging(turn.ranFor), child := Ended);
      RanStep(told, End(turn.ranFor), Maybe(turn.signalAfter) + [Judge(turn.stopFileAfter)], limits);
      ghost var late := SignalIf(turn.signalAfter, ended);
      RanApart(ended, Maybe(turn.signalAfter), [Judge(turn.stopFileAfter)], limits);
      RanStep(late, Judge(turn.stopFileAfter), [], limits);
      assert [Judge(turn.stopFileAfter)] + [] == [Judge(turn.stopFileAfter)];
      code := JudgeEnd(turn.stopFileAfter, turn.ranFor, late);
      after := Judged(late, turn.ranFor, turn.stopFileAfter, limits);
    }

    method TryToStart(turn: Turn, ghost s: State) returns (code: int, ghost after: State)
      requires Shows(s) && s.point == Starting
      modifies this
      ensures after == Ran(s, Attempt(turn), limits) && Shows(after)
      ensures after.point == if code < 0 then AtHead else Done(code)
    {
      ghost var rest := if turn.starts then Life(turn) else [];
      ghost var signalled := SignalIf(turn.signalWhileStarting, s);
      RanApart(s, Maybe(turn.signalWhileStarting), [Start(turn.starts)] + rest, limits);
      RanStep(signalled, Start(turn.starts), rest, limits);
      if !turn.starts {
        code := FailToStart(signalled);
        after := Started(signalled, false, limits);
        return;
      }
      child := Running(false);
      code, after := LiveOut(turn, Started(signalled, true, limits));
    }

    /** One turn of the loop; `-1` to go round again. */
    method TakeTurn(turn: Turn, ghost s: State) returns (code: int, ghost after: State)
      requires Shows(s) && s.point == AtHead
      modifies this
      ensures after == Ran(s, StepsOf(turn), limits) && Shows(after)
      ensures after.point == if code < 0 then AtHead else Done(code)
    {
      ghost var first := SignalIf(turn.signalBefore, s);
      RanApart(s, Maybe(turn.signalBefore), [Look(turn.stopFileBefore)] + Attempt(turn), limits);
      RanStep(first, Look(turn.stopFileBefore), Attempt(turn), limits);
      if stopping || turn.stopFileBefore {
        after := first.(point := Done(0));
        DoneStays(after, Attempt(turn), limits);
        return 0, after;
      }
      code, after := TryToStart(turn, first.(point := Starting));
    }

    /** Supervises over the given turns; `-1` when they run out first. */
    method Supervise(turns: seq<Turn>, ghost s: State) returns (code: int, ghost after: State)
      requires Shows(s) && s.point == AtHead
      modifies this
      ensures after == Ran(s, AllSteps(turns), limits) && Shows(after)
      ensures after.point == if code < 0 then AtHead else Done(code)
    {
      after := s;
      code := -1;
      for k := 0 to |turns|
        invariant Shows(after) && after.point == AtHead && code == -1
        invariant after == Ran(s, AllSteps(turns[..k]), limits)
      {
        ghost var before := after;
        code, after := TakeTurn(turns[k], before);
        OneMoreTurn(s, turns, k, limits);
        if code >= 0 {
          DoneEarly(s, turns, k + 1, limits);
          return;
        }
        code := -1;
      }
      assert turns[..|turns|] == turns;
    }
  }

  function AllSteps(turns: seq<Turn>): seq<Step> {
    if turns == [] then [] else AllSteps(turns[..|turns| - 1]) + StepsOf(turns[|turns| - 1])
  }

  lemma {:induction false} StepsSplit(turns: seq<Turn>, k: nat)
    requires k <= |turns|
    ensures AllSteps(turns[..k]) <= AllSteps(turns)
    decreases |turns|
  {
    if k < |turns| {
      StepsSplit(turns[..|turns| - 1], k);
      assert turns[..|turns| - 1][..k] == turns[..k];
    } else {
      assert turns[..k] == turns;
    }
  }

  lemma {:induction false} OneMoreTurn(s: State, turns: seq<Turn>, k: nat, limits: Limits)
    requires k < |turns|
    ensures Ran(s, AllSteps(turns[..k + 1]), limits) == Ran(Ran(s, AllSteps(turns[..k]), limits), StepsOf(turns[k]), limits)
  {
    assert turns[..k + 1][..k] == turns[..k];
    RanApart(s, AllSteps(turns[..k]), StepsOf(turns[k]), limits);
  }

  /** A launcher that is done stays so through the turns left over. */
  lemma {:induction false} DoneEarly(s: State, turns: seq<Turn>, k: nat, limits: Limits)
    requires k <= |turns| && Ran(s, AllSteps(turns[..k]), limits).point.Done?
    ensures Ran(s, AllSteps(turns), limits) == Ran(s, AllSteps(turns[..k]), limits)
  {
    StepsSplit(turns, k);
    var taken, all := AllSteps(turns[..k]), AllSteps(turns);
    assert all == taken + all[|taken|..];
    RanApart(s, taken, all[|taken|..], limits);
    DoneStays(Ran(s, taken, limits), all[|taken|..], limits);
  }
}
