/** The job database. Every method is one transaction. */
module Store {
  import opened Rows
  import opened Transactions

  class MigrationStore {
    var job: Job
    var entries: seq<Entry>
    var attempts: seq<Attempt>

    constructor (job: Job, entries: seq<Entry>, attempts: seq<Attempt>)
      ensures Rows() == Tables(job, entries, attempts)
    {
      this.job, this.entries, this.attempts := job, entries, attempts;
    }

    function Rows(): Tables
      reads this
    {
      Tables(job, entries, attempts)
    }

    /** The entries in insertion order, scanned for the first one with a property. */
    method FirstEntry(p: Entry -> bool) returns (found: Option<EntryId>)
      ensures found.None? ==> forall e | 0 <= e < |entries| :: !p(entries[e])
      ensures found.Some? ==> found.value < |entries| && p(entries[found.value])
                              && forall e | 0 <= e < found.value :: !p(entries[e])
    {
      var i := 0;
      while i < |entries|
        invariant i <= |entries|
        invariant forall e | 0 <= e < i :: !p(entries[e])
      {
        if p(entries[i]) { return Some(i); }
        i := i + 1;
      }
      return None;
    }

    /** A stopped job keeps its state; anything else is written as given. */
    method UpdateJob(row: Job) returns (s: Status)
      modifies `job
      ensures s == if Halted(old(job)) && row.state != old(job.state) && !row.state.Stopped?
                   then Raise(JobStopped) else Pass
      ensures job == if s.Pass? then row else old(job)
    {
      if Halted(job) && row.state != job.state && !row.state.Stopped? { return Raise(JobStopped); }
      job := row;
      return Pass;
    }

    method UpdateEntry(e: EntryId, row: Entry)
      requires e < |entries|
      modifies `entries
      ensures entries == old(entries)[e := row]
    {
      entries := entries[e := row];
    }

    method UpdateAttempt(a: AttemptId, row: Attempt)
      requires a < |attempts|
      modifies `attempts
      ensures attempts == old(attempts)[a := row]
    {
      attempts := attempts[a := row];
    }

    method Commit(o: Outcome) returns (s: Status)
      modifies this
      ensures s == match o case Committed(_) => Pass case Rejected(exn) => Raise(exn)
      ensures Rows() == match o case Committed(t) => t case Rejected(_) => old(Rows())
    {
      match o {
        case Committed(t) =>
          job, entries, attempts := t.job, t.entries, t.attempts;
          s := Pass;
        case Rejected(exn) =>
          s := Raise(exn);
      }
    }

    method ScheduleDownloadRetry(e: EntryId, retryAt: int, code: Code) returns (scheduled: bool)
      requires HasEntry(Rows(), e) && Linked(Rows(), e) && entries[e].attempt.Some?
      modifies this
      ensures scheduled == Transactions.ScheduleDownloadRetry(old(Rows()), e, retryAt, code).Some?
      ensures Rows() == if scheduled then Transactions.ScheduleDownloadRetry(old(Rows()), e, retryAt, code).value
                        else old(Rows())
    {
      match Transactions.ScheduleDownloadRetry(Rows(), e, retryAt, code) {
        case Some(t) =>
          entries, attempts, job := t.entries, t.attempts, t.job;
          scheduled := true;
        case None =>
          scheduled := false;
      }
    }
  }
}
