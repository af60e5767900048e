/**
 * The record an instance keeps on disk of the promise it has made as a voter and of the newest
 * leader's statement it holds, and the writes of it that are still on their way.  One write is in
 * progress at a time; a record asked for meanwhile waits.
 */
module LeaseRecord {
  import opened Options
  import opened LeaseRules

  const MARGIN := 10_000       // how far beyond the true expiry a promise is recorded, in milliseconds
  const REFRESH_AHEAD := 5_000 // a fresh record is written when less than this remains

  /** The instance a vote is promised to, zero for none, and when the promise runs out. */
  datatype Promise = Promise(to: int, until: int) {
    predicate Covers(instance: int, expires: int) {
      to == instance && expires <= until
    }
  }

  const NO_PROMISE := Promise(0, 0)

  datatype Record = Record(promise: Promise, said: Statement)

  /**
   * `disk` is the promise a restart would find, none when there is none it may believe, and `diskSaid`
   * the statement it would find.  `adopted` and `adoptedSaid` are what the agent believes is on disk.
   * `landed` says the write in flight has reached the disk although the agent has not yet been told.
   */
  datatype Keeper = Keeper(
    disk: Option<Promise>,
    diskSaid: Statement,
    adopted: Promise,
    adoptedSaid: Statement,
    inFlight: Option<Record>,
    landed: bool,
    wanted: Option<Promise>)
  {
    /** A record carries the statement held at the moment it is started. */
    function Started(promise: Promise, held: Statement): Keeper {
      if inFlight.None? then this.(inFlight := Some(Record(promise, held)), landed := false, wanted := None)
      else this.(wanted := Some(promise))
    }

    function WantedStarted(held: Statement): Keeper {
      if wanted.Some? && inFlight.None? then Started(wanted.value, held) else this
    }

    /** The write in flight reaches the disk. */
    function Landed(): Keeper
      requires inFlight.Some?
    {
      this.(disk := Some(inFlight.value.promise), diskSaid := inFlight.value.said, landed := true)
    }

    /** The agent reads the outcome of a finished write; one that failed leaves the record as it was. */
    function Adopted(): Keeper
      requires inFlight.Some?
    {
      if landed then
        this.(adopted := inFlight.value.promise, adoptedSaid := inFlight.value.said, inFlight := None, landed := false)
      else
        this.(inFlight := None)
    }

    function Refreshed(to: int, expires: int, held: Statement): Keeper {
      if inFlight.Some? || wanted.Some? || adopted.until - expires > REFRESH_AHEAD then this
      else Started(Promise(to, expires + MARGIN), held)
    }

    predicate WriteInProgressCovers(to: int, expires: int) {
      if wanted.Some? then wanted.value.Covers(to, expires)
      else inFlight.Some? && inFlight.value.promise.Covers(to, expires)
    }

    /** Whether the record held covers a promise; if not, the grant is refused and the write started. */
    predicate PromiseRecorded(to: int, expires: int) {
      adopted.Covers(to, expires)
    }

    /** Shared by a promise to the peer and by the record that this instance leads. */
    function Ensured(to: int, expires: int, held: Statement): Keeper {
      if adopted.Covers(to, expires) then Refreshed(to, expires, held)
      else if WriteInProgressCovers(to, expires) then this
      else Started(Promise(to, expires + MARGIN), held)
    }

    /** When the held statement is not the one on disk the promise is written again unchanged beside it. */
    function StatementWritten(held: Statement): Keeper {
      if inFlight.Some? || wanted.Some? || adoptedSaid.SameAs(held) then this else Started(adopted, held)
    }

    /** No write still on its way would replace a record of this promise by one that forgets it. */
    predicate PendingCovers(to: int, expires: int) {
      && (inFlight.Some? ==> inFlight.value.promise.Covers(to, expires))
      && (wanted.Some? ==> wanted.value.Covers(to, expires))
    }
  }

  /** What a process finds when it starts: the promise it may believe, and the statement. */
  function KeeperFor(kept: Option<Promise>, said: Statement): Keeper {
    Keeper(kept, said, if kept.Some? then kept.value else NO_PROMISE, said, None, false, None)
  }

  const BLANK_KEEPER := KeeperFor(None, NO_STATEMENT)
}
