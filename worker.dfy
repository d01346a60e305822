/**
 * The stand-alone queue worker (worker/src/uploadQueueWorker.js): a two-field state machine
 * that runs a retry pass at start and on every interval tick while it is running.
 * The interval is an explicit handle; the scheduler calls Tick with a handle.
 */
module WorkerQueue {
  import opened Wrappers
  import opened Tables
  import opened Drive
  import opened Processor

  const DefaultIntervalMs: nat := 30000

  /** The line processQueue logs after a pass. */
  datatype PassLog = Processed(count: nat) | NoPending | PassFailed(error: string)

  /** An installed setInterval: its handle and its period. */
  datatype Interval = Interval(handle: nat, periodMs: nat)

  /** A count when the pass processed rows, 'no pending uploads' for none, the error otherwise. */
  function LogOf(r: Result<nat, string>): PassLog {
    match r
    case Ok(n) => if n > 0 then Processed(n) else NoPending
    case Err(e) => PassFailed(e)
  }

  class UploadQueueWorker {
    var isRunning: bool
    var interval: Option<Interval>
    /** The handle the next setInterval returns. */
    var nextHandle: nat

    /** Running exactly when an interval is installed, never with a handle not yet issued. */
    ghost predicate Valid()
      reads this
    {
      (isRunning <==> interval.Some?) && (interval.Some? ==> interval.value.handle < nextHandle)
    }

    constructor()
      ensures Valid() && !isRunning && interval.None? && nextHandle == 0
    {
      isRunning := false;
      interval := None;
      nextHandle := 0;
    }

    /** The interval with this handle is still installed. */
    predicate Live(handle: nat)
      reads this
    {
      interval.Some? && interval.value.handle == handle
    }

    /** processQueue: one retry pass; its failure is caught and logged, never re-thrown. */
    method ProcessQueue(db: Database, envs: nat -> DriveEnv, nows: nat -> LocalTime) returns (log: PassLog, ghost outcome: Result<nat, string>)
      modifies db
      ensures log == LogOf(outcome)
      ensures PassEffect(old(db.pending), old(db.users), old(db.ledger), db.pending, db.ledger, envs, nows, outcome)
      ensures db.users == old(db.users)
    {
      var r, attempted := ProcessPendingUploads(db, envs, nows);
      outcome := r;
      if r.Ok? {
        if r.value > 0 {
          log := Processed(r.value);
        } else {
          log := NoPending;
        }
      } else {
        log := PassFailed(r.error);
      }
    }

    /** start: a no-op while running; otherwise running, one pass at once, one new interval. */
    method Start(intervalMs: nat, db: Database, envs: nat -> DriveEnv, nows: nat -> LocalTime)
      returns (log: Option<PassLog>, ghost outcome: Option<Result<nat, string>>)
      requires Valid()
      modifies this, db
      ensures Valid() && isRunning
      ensures old(isRunning) ==>
        && log.None? && interval == old(interval) && nextHandle == old(nextHandle)
        && db.pending == old(db.pending) && db.ledger == old(db.ledger)
      ensures !old(isRunning) ==>
        && interval == Some(Interval(old(nextHandle), intervalMs)) && nextHandle == old(nextHandle) + 1
        && log.Some? && outcome.Some? && log.value == LogOf(outcome.value)
        && PassEffect(old(db.pending), old(db.users), old(db.ledger), db.pending, db.ledger, envs, nows, outcome.value)
      ensures db.users == old(db.users)
    {
      if isRunning {
        return None, None;
      }
      isRunning := true;
      // the first run: its guard passes, since isRunning was just set
      var l;
      ghost var o;
      l, o := ProcessQueue(db, envs, nows);
      log, outcome := Some(l), Some(o);
      interval := Some(Interval(nextHandle, intervalMs));
      nextHandle := nextHandle + 1;
    }

    /** One firing of the interval with this handle: a cleared interval never fires, and the
        run closure does nothing once isRunning is false. */
    method Tick(handle: nat, db: Database, envs: nat -> DriveEnv, nows: nat -> LocalTime)
      returns (log: Option<PassLog>, ghost outcome: Option<Result<nat, string>>)
      modifies db
      ensures log.Some? <==> Live(handle) && isRunning
      ensures log.None? ==> db.pending == old(db.pending) && db.ledger == old(db.ledger)
      ensures log.Some? ==>
        && outcome.Some? && log.value == LogOf(outcome.value)
        && PassEffect(old(db.pending), old(db.users), old(db.ledger), db.pending, db.ledger, envs, nows, outcome.value)
      ensures db.users == old(db.users)
    {
      if !Live(handle) || !isRunning {
        return None, None;
      }
      var l;
      ghost var o;
      l, o := ProcessQueue(db, envs, nows);
      log, outcome := Some(l), Some(o);
    }

    /** stop: a no-op while stopped; otherwise the interval is cleared and the worker stopped. */
    method Stop()
      requires Valid()
      modifies this
      ensures Valid() && !isRunning && interval.None? && nextHandle == old(nextHandle)
      ensures !old(isRunning) ==> interval == old(interval)
    {
      if !isRunning {
        return;
      }
      if interval.Some? {
        interval := None;
      }
      isRunning := false;
    }
  }

  /** start then stop returns the worker to its initial state, and the cleared interval's
      handle fires nothing afterwards. */
  method StartThenStop(db: Database, envs: nat -> DriveEnv, nows: nat -> LocalTime)
    returns (w: UploadQueueWorker, first: Option<PassLog>, late: Option<PassLog>)
    modifies db
    ensures !w.isRunning && w.interval.None? && first.Some? && late.None?
  {
    w := new UploadQueueWorker();
    ghost var o;
    first, o := w.Start(DefaultIntervalMs, db, envs, nows);
    w.Stop();
    late, o := w.Tick(0, db, envs, nows);
  }
}
