/**
 * Exactly when what an instance must not forget outlasts its restart, over everything the thread that
 * writes the record may still do: a promise it has made, and the wait of an instance that kept none.
 */
module LeaseRecordExactness {
  import opened LeaseRules
  import opened LeaseRecord
  import opened Options
  import opened LeaseSystem
  import opened LeaseSafety

  /** The write lands, its outcome is read, or the record kept waiting is started. */
  datatype Move = Lands | Reads | Starts

  function Moved(k: Keeper, move: Move, held: Statement): Keeper {
    match move
    case Lands => if k.inFlight.Some? && !k.landed then k.Landed() else k
    case Reads => if k.inFlight.Some? then k.Adopted() else k
    case Starts => k.WantedStarted(held)
  }

  function After(k: Keeper, moves: seq<Move>, held: Statement): Keeper
    decreases |moves|
  {
    if moves == [] then k else After(Moved(k, moves[0], held), moves[1..], held)
  }

  /** The voter of a process that dies after these moves and starts again at `now`. */
  function Reborn(c: Setting, p: int, me: Party, moves: seq<Move>, now: int): Voter {
    Restarted(c, p, me.(keeper := After(me.keeper, moves, me.voter.statement)), false, 0, NO_STATEMENT, now).voter
  }

  /** Its vote is still promised to `to`. */
  predicate Survives(c: Setting, p: int, me: Party, to: int, moves: seq<Move>, now: int) {
    var voter := Reborn(c, p, me, moves, now);
    voter.PromiseLive(now) && voter.promisedTo == to
  }

  /** It has kept no promise, and waits out a lease period before it votes or leads. */
  predicate WaitsAgain(c: Setting, p: int, me: Party, moves: seq<Move>, now: int) {
    Reborn(c, p, me, moves, now).Restarting(now)
  }

  lemma {:induction false} MovesRemember(k: Keeper, moves: seq<Move>, held: Statement, to: int, expires: int)
    requires Remembers(k, to, expires)
    ensures Remembers(After(k, moves, held), to, expires)
    decreases |moves|
  {
    if moves != [] {
      MovesRemember(Moved(k, moves[0], held), moves[1..], held, to, expires);
    }
  }

  lemma {:induction false} MovesLeaveBlank(k: Keeper, moves: seq<Move>, held: Statement)
    requires Blank(k)
    ensures After(k, moves, held) == k
    decreases |moves|
  {
    if moves != [] {
      MovesLeaveBlank(k, moves[1..], held);
    }
  }

  lemma {:induction false} AllMovesReach(k: Keeper, held: Statement)
    requires KeeperSound(k)
    ensures k.inFlight.Some? ==> After(k, [Lands], held).disk == Some(k.inFlight.value.promise)
    ensures k.wanted.Some? ==> After(k, [Lands, Reads, Starts, Lands], held).disk == k.wanted
  {
    assert After(k, [Lands], held) == After(Moved(k, Lands, held), [], held);
    var landed := Moved(k, Lands, held);
    var read := Moved(landed, Reads, held);
    var started := Moved(read, Starts, held);
    calc {
      After(k, [Lands, Reads, Starts, Lands], held);
      { assert [Lands, Reads, Starts, Lands][1..] == [Reads, Starts, Lands]; }
      After(landed, [Reads, Starts, Lands], held);
      { assert [Reads, Starts, Lands][1..] == [Starts, Lands]; }
      After(read, [Starts, Lands], held);
      { assert [Starts, Lands][1..] == [Lands]; }
      After(started, [Lands], held);
      { assert [Lands][1..] == []; }
      After(Moved(started, Lands, held), [], held);
    }
  }

  /**
   * A promise granted at `granted`, which the record on disk covers, holds after a restart at every
   * moment of its life and whatever the writer thread does first, exactly when no write still on its
   * way would replace that record by one that does not cover it.
   */
  lemma {:induction false} PromiseSurvivesExactlyWhen(c: Setting, p: int, me: Party, to: int, granted: int)
    requires c.Keeps(p) && 0 < c.period && to != p && to != 0
    requires KeeperSound(me.keeper) && me.keeper.PromiseRecorded(to, granted + c.period)
    ensures (forall moves, now :: granted <= now < granted + c.period ==> Survives(c, p, me, to, moves, now))
            <==> me.keeper.PendingCovers(to, granted + c.period)
  {
    var k, expires := me.keeper, granted + c.period;
    if k.PendingCovers(to, expires) {
      assert Remembers(k, to, expires);
      forall moves, now | granted <= now < expires ensures Survives(c, p, me, to, moves, now) {
        MovesRemember(k, moves, me.voter.statement, to, expires);
      }
    } else {
      AllMovesReach(k, me.voter.statement);
      var first := k.inFlight.Some? && !k.inFlight.value.promise.Covers(to, expires);
      var bad := if first then k.inFlight.value.promise else k.wanted.value;
      var moves := if first then [Lands] else [Lands, Reads, Starts, Lands];
      assert After(k, moves, me.voter.statement).disk == Some(bad) && !bad.Covers(to, expires);
      var now := if bad.to == to && granted < bad.until then bad.until else granted;
      assert granted <= now < expires && !Survives(c, p, me, to, moves, now);
    }
  }

  /**
   * An instance with no record on disk waits again after a restart, whenever it restarts and whatever
   * the writer thread does first, exactly when no write of a record is on its way.
   */
  lemma {:induction false} WaitSurvivesExactlyWhen(c: Setting, p: int, me: Party)
    requires c.Keeps(p) && 0 < c.period && KeeperSound(me.keeper) && me.keeper.disk.None?
    ensures (forall moves, now :: WaitsAgain(c, p, me, moves, now))
            <==> me.keeper.inFlight.None? && me.keeper.wanted.None?
  {
    var k := me.keeper;
    if Blank(k) {
      forall moves, now ensures WaitsAgain(c, p, me, moves, now) {
        MovesLeaveBlank(k, moves, me.voter.statement);
      }
    } else {
      AllMovesReach(k, me.voter.statement);
      var moves := if k.inFlight.Some? then [Lands] else [Lands, Reads, Starts, Lands];
      assert After(k, moves, me.voter.statement).disk.Some?;
      assert !WaitsAgain(c, p, me, moves, 0);
    }
  }

  /**
   * When an instance that has kept no record considers writing the statement it holds, it goes on to
   * wait after a restart exactly when that statement is the one it started with, so that nothing is
   * written: the record it would write beside the statement is empty, and ends the wait.
   */
  lemma {:induction false} StatementKeepsWaitExactlyWhen(c: Setting, p: int, me: Party)
    requires c.Keeps(p) && 0 < c.period && KeeperSound(me.keeper) && Blank(me.keeper)
    ensures (forall moves, now :: WaitsAgain(c, p, me.(keeper := me.keeper.StatementWritten(me.voter.statement)), moves, now))
            <==> me.keeper.adoptedSaid.SameAs(me.voter.statement)
  {
    var after := me.(keeper := me.keeper.StatementWritten(me.voter.statement));
    assert KeeperSound(after.keeper);
    WaitSurvivesExactlyWhen(c, p, after);
  }

  /**
   * A write beside which a statement goes to disk is started exactly when none is on its way and the
   * statement held is another than the one on record: other leader, other epoch or other number.
   */
  lemma {:induction false} StatementWrittenExactlyWhen(k: Keeper, held: Statement)
    ensures var after := k.StatementWritten(held);
      && (after != k <==>
            && k.inFlight.None? && k.wanted.None?
            && (k.adoptedSaid.leader, k.adoptedSaid.epoch, k.adoptedSaid.number) != (held.leader, held.epoch, held.number))
      && (after != k ==> after == k.(inFlight := Some(Record(k.adopted, held)), landed := false))
  {
    var after := k.StatementWritten(held);
    assert k.inFlight.None? && k.wanted.None? && !k.adoptedSaid.SameAs(held) ==> after.inFlight.Some?;
  }

  /** The promise the disk will hold when every write now pending has landed. */
  function Eventually(k: Keeper): Promise {
    if k.wanted.Some? then k.wanted.value
    else if k.inFlight.Some? then k.inFlight.value.promise
    else k.adopted
  }

  predicate Holds(promise: Promise, to: int, expires: int) { promise.to == to && expires <= promise.until }

  /**
   * After a promise has been seen to, either it is on record or the last write on its way will put it there;
   * no write is started where one that will do so is last in line, and a record with little time left is
   * written again with the full margin as soon as none is.
   */
  lemma {:induction false} PromiseSeenTo(k: Keeper, to: int, expires: int, held: Statement)
    ensures var after := k.Ensured(to, expires, held);
      && (Holds(k.adopted, to, expires) || Holds(Eventually(after), to, expires))
      && after.adopted == k.adopted && after.disk == k.disk
      && ((k.inFlight.Some? || k.wanted.Some?) && (Holds(k.adopted, to, expires) || Holds(Eventually(k), to, expires)) ==> after == k)
      && (k.inFlight.None? && k.wanted.None? ==>
            if Holds(k.adopted, to, expires) && k.adopted.until - expires > REFRESH_AHEAD then after == k
            else after.inFlight == Some(Record(Promise(to, expires + MARGIN), held)) && after.wanted.None?)
  {
  }

  /** A write that landed and was adopted leaves the agent knowing exactly what is on disk; one that failed changes neither. */
  lemma {:induction false} AdoptedIsOnDisk(k: Keeper)
    requires k.inFlight.Some?
    ensures var done := k.Landed().Adopted();
      && done.disk == Some(done.adopted) && done.diskSaid == done.adoptedSaid && done.inFlight.None?
      && done.adopted == k.inFlight.value.promise && done.adoptedSaid == k.inFlight.value.said && done.wanted == k.wanted
    ensures !k.landed ==> k.Adopted() == k.(inFlight := None)
  {
  }
}
