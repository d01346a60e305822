/**
 * The backend's own queue worker (backend/src/workers/uploadQueueWorker.js). It differs from
 * the stand-alone worker in two ways: an interval tick runs a pass without looking at
 * isRunning (only clearing the interval ends the ticks), and a pass that processed nothing
 * logs no count.
 */
module BackendQueue {
  import opened Wrappers
  import opened Tables
  import opened Drive
  import opened Processor

  const DefaultIntervalMs: nat := 30000

  /** What processQueue logs after the 'Processing upload queue...' line. */
  datatype PassLog = Processed(count: nat) | Silent | PassFailed(error: string)

  datatype Interval = Interval(handle: nat, periodMs: nat)

  /** A count only when it is positive; the error when the pass failed. */
  function LogOf(r: Result<nat, string>): PassLog {
    match r
    case Ok(n) => if n > 0 then Processed(n) else Silent
    case Err(e) => PassFailed(e)
  }

  class UploadQueueWorker {
    var isRunning: bool
    var interval: Option<Interval>
    var nextHandle: nat

    ghost predicate Valid()
      reads this
    {
      (isRunning <==> interval.Some?) && (interval.Some? ==> interval.value.handle < nextHandle)
    }

    constructor()
      ensures Valid() && !isRunning && interval.None? && nextHandle == 0
    {
      isRunning := false;
      interval := None;
      nextHandle := 0;
    }

    predicate Live(handle: nat)
      reads this
    {
      interval.Some? && interval.value.handle == handle
    }

    /** processQueue: one retry pass; its failure is caught and logged, never re-thrown. */
    method ProcessQueue(db: Database, envs: nat -> DriveEnv, nows: nat -> LocalTime) returns (log: PassLog, ghost outcome: Result<nat, string>)
      modifies db
      ensures log == LogOf(outcome)
      ensures PassEffect(old(db.pending), old(db.users), old(db.ledger), db.pending, db.ledger, envs, nows, outcome)
      ensures db.users == old(db.users)
    {
      var r, attempted := ProcessPendingUploads(db, envs, nows);
      outcome := r;
      log := Silent;
      if r.Err? {
        log := PassFailed(r.error);
      } else if r.value > 0 {
        log := Processed(r.value);
      }
    }

    /** start: a no-op while running; otherwise running, one pass at once, one new interval. */
    method Start(intervalMs: nat, db: Database, envs: nat -> DriveEnv, nows: nat -> LocalTime)
      returns (log: Option<PassLog>, ghost outcome: Option<Result<nat, string>>)
      requires Valid()
      modifies this, db
      ensures Valid() && isRunning
      ensures old(isRunning) ==>
        && log.None? && interval == old(interval) && nextHandle == old(nextHandle)
        && db.pending == old(db.pending) && db.ledger == old(db.ledger)
      ensures !old(isRunning) ==>
        && interval == Some(Interval(old(nextHandle), intervalMs)) && nextHandle == old(nextHandle) + 1
        && log.Some? && outcome.Some? && log.value == LogOf(outcome.value)
        && PassEffect(old(db.pending), old(db.users), old(db.ledger), db.pending, db.ledger, envs, nows, outcome.value)
      ensures db.users == old(db.users)
    {
      if isRunning {
        return None, None;
      }
      isRunning := true;
      var l;
      ghost var o;
      l, o := ProcessQueue(db, envs, nows);
      log, outcome := Some(l), Some(o);
      interval := Some(Interval(nextHandle, intervalMs));
      nextHandle := nextHandle + 1;
    }

    /** One firing of the interval with this handle: it runs a pass whenever the interval is
        still installed, whatever isRunning says. */
    method Tick(handle: nat, db: Database, envs: nat -> DriveEnv, nows: nat -> LocalTime)
      returns (log: Option<PassLog>, ghost outcome: Option<Result<nat, string>>)
      modifies db
      ensures log.Some? <==> Live(handle)
      ensures log.None? ==> db.pending == old(db.pending) && db.ledger == old(db.ledger)
      ensures log.Some? ==>
        && outcome.Some? && log.value == LogOf(outcome.value)
        && PassEffect(old(db.pending), old(db.users), old(db.ledger), db.pending, db.ledger, envs, nows, outcome.value)
      ensures db.users == old(db.users)
    {
      if !Live(handle) {
        return None, None;
      }
      var l;
      ghost var o;
      l, o := ProcessQueue(db, envs, nows);
      log, outcome := Some(l), Some(o);
    }

    /** stop: a no-op while stopped; otherwise the interval is cleared and the worker stopped. */
    method Stop()
      requires Valid()
      modifies this
      ensures Valid() && !isRunning && interval.None? && nextHandle == old(nextHandle)
      ensures !old(isRunning) ==> interval == old(interval)
    {
      if !isRunning {
        return;
      }
      if interval.Some? {
        interval := None;
      }
      isRunning := false;
    }
  }

  /** A second start while running installs nothing and runs nothing; the one interval's
      ticks keep running passes until stop clears it. */
  method StartTwiceThenStop(db: Database, envs: nat -> DriveEnv, nows: nat -> LocalTime)
    returns (w: UploadQueueWorker, second: Option<PassLog>, tick: Option<PassLog>, late: Option<PassLog>)
    modifies db
    ensures second.None? && tick.Some? && late.None?
    ensures !w.isRunning && w.interval.None? && w.nextHandle == 1
  {
    w := new UploadQueueWorker();
    var first;
    ghost var o;
    first, o := w.Start(DefaultIntervalMs, db, envs, nows);
    second, o := w.Start(DefaultIntervalMs, db, envs, nows);
    tick, o := w.Tick(0, db, envs, nows);
    w.Stop();
    late, o := w.Tick(0, db, envs, nows);
  }
}
