/** One run's row and its result rows, and the guarded updates every backend goes through.
    Each update is one committed transaction; `save_attempt` is split where its SQL is split:
    the insert (visible to nobody yet) and the locked update that commits or rolls back. */
module RunStore {
  import opened AttemptResults

  datatype Status = Queued | Running | Completed | Failed | Cancelled

  predicate Live(s: Status) {
    s == Queued || s == Running
  }

  type Rows = map<AttemptKey, AttemptResult>

  /** The committed state: the run row, its result rows, and the attempts its stored summary
      was computed from. */
  datatype Run = Run(
    status: Status,
    error: Option<string>,
    startedAt: Option<int>,
    heartbeatAt: Option<int>,
    finishedAt: Option<int>,
    attemptsDone: int,
    rows: Rows,
    summarized: Option<Rows>)
  {
    predicate Ended() {
      !Live(status)
    }

    /** `claim`: a live run becomes running; its first start time is kept. */
    function Claimed(now: int): Run {
      if Live(status)
      then this.(status := Running, startedAt := Coalesce(startedAt, now), heartbeatAt := Some(now))
      else this
    }

    /** `finish` and the update of `cancel_run`: a live run ends, an ended one is left alone. */
    function Finished(outcome: Status, message: Option<string>, now: int): Run {
      if Live(status)
      then this.(status := outcome, error := message, finishedAt := Some(now))
      else this
    }

    /** The commit half of `save_attempt`: the row becomes visible and is counted, but only
        while the run is running. */
    function Saved(result: AttemptResult, now: int): Run {
      if status == Running
      then this.(rows := rows[result.Key() := result], attemptsDone := attemptsDone + 1, heartbeatAt := Some(now))
      else this
    }

    /** `save_summary`: totals are stored whatever the status; only a live run is completed. */
    function Summarized(attempts: Rows, now: int): Run {
      this.(summarized := Some(attempts),
            status := if Live(status) then Completed else status,
            finishedAt := Coalesce(finishedAt, now))
    }
  }

  /** A query without an ORDER BY returns every row, in any order. */
  ghost predicate IsReading(results: seq<AttemptResult>, rows: Rows) {
    && Distinct(Keys(results))
    && (forall i :: 0 <= i < |results| ==> results[i].Key() in rows && rows[results[i].Key()] == results[i])
    && (forall k :: k in rows ==> rows[k] in results)
  }

  function Coalesce(stored: Option<int>, now: int): Option<int> {
    if stored.Some? then stored else Some(now)
  }

  function NewRun(): Run {
    Run(Queued, None, None, None, None, 0, map[], None)
  }

  /** What every guarded update keeps: a run has a finish time exactly when it has ended, one
      row is counted once, each row is filed under its own attempt, and a run that is still
      queued has saved nothing. */
  ghost predicate Consistent(r: Run) {
    && (r.finishedAt.Some? <==> r.Ended())
    && r.attemptsDone == |r.rows|
    && (forall k :: k in r.rows ==> r.rows[k].Key() == k)
    && (r.status == Queued ==> r.rows == map[])
    && (r.summarized.Some? ==> r.Ended())
    && (r.status == Completed ==> r.summarized.Some?)
  }

  /** One committed update may only move a run forward: rows are never lost or changed, and
      once the run has ended its status, error, finish time and rows are fixed. */
  ghost predicate Forward(r: Run, r': Run) {
    && (forall k :: k in r.rows ==> k in r'.rows && r'.rows[k] == r.rows[k])
    && r.attemptsDone <= r'.attemptsDone
    && (r.startedAt.Some? ==> r'.startedAt == r.startedAt)
    && (r.summarized.Some? ==> r'.summarized.Some?)
    && (r'.status == Queued ==> r.status == Queued)
    && (r.Ended() ==>
          && r'.status == r.status
          && r'.error == r.error
          && r'.finishedAt == r.finishedAt
          && r'.rows == r.rows
          && r'.attemptsDone == r.attemptsDone)
  }

  lemma UpdatesKeepConsistent(r: Run, result: AttemptResult, attempts: Rows, outcome: Status, message: Option<string>,
                              now: int)
    requires Consistent(r) && (outcome == Failed || outcome == Cancelled)
    ensures Consistent(r.Claimed(now))
    ensures Consistent(r.Finished(outcome, message, now))
    ensures result.Key() !in r.rows ==> Consistent(r.Saved(result, now))
    ensures Consistent(r.Summarized(attempts, now))
  {
    if result.Key() !in r.rows {
      SavedKeeps(r, result, now);
    }
  }

  lemma SavedKeeps(r: Run, result: AttemptResult, now: int)
    requires Consistent(r) && result.Key() !in r.rows
    ensures Consistent(r.Saved(result, now)) && Forward(r, r.Saved(result, now))
  {
    if r.status == Running {
      assert r.Saved(result, now).rows.Keys == r.rows.Keys + {result.Key()};
    }
  }

  lemma UpdatesMoveForward(r: Run, result: AttemptResult, attempts: Rows, outcome: Status, message: Option<string>,
                           now: int)
    requires Consistent(r) && (outcome == Failed || outcome == Cancelled)
    ensures Forward(r, r.Claimed(now))
    ensures Forward(r, r.Finished(outcome, message, now))
    ensures result.Key() !in r.rows ==> Forward(r, r.Saved(result, now))
    ensures Forward(r, r.Summarized(attempts, now))
  {
  }

  lemma ForwardIsTransitive(a: Run, b: Run, c: Run)
    requires Forward(a, b) && Forward(b, c)
    ensures Forward(a, c)
  {
    forall k | k in a.rows
      ensures k in c.rows && c.rows[k] == a.rows[k]
    {
      assert k in b.rows;
    }
  }

  /** The store as the source has it: fields that guarded statements update in place, and the
      rows of transactions that have inserted but not committed. */
  class Store {
    var status: Status
    var error: Option<string>
    var startedAt: Option<int>
    var heartbeatAt: Option<int>
    var finishedAt: Option<int>
    var attemptsDone: int
    var rows: Rows
    var summarized: Option<Rows>
    var inserting: Rows

    ghost function Committed(): Run
      reads this
    {
      Run(status, error, startedAt, heartbeatAt, finishedAt, attemptsDone, rows, summarized)
    }

    /** The unique index on (run, case, attempt) covers uncommitted rows too. */
    ghost predicate Valid()
      reads this
    {
      && Consistent(Committed())
      && inserting.Keys !! rows.Keys
      && (forall k :: k in inserting ==> inserting[k].Key() == k)
    }

    constructor ()
      ensures Valid() && Committed() == NewRun() && inserting == map[]
    {
      status, error := Queued, None;
      startedAt, heartbeatAt, finishedAt := None, None, None;
      attemptsDone, rows, summarized, inserting := 0, map[], None, map[];
    }

    method Claim(now: int) returns (claimed: bool)
      requires Valid()
      modifies this
      ensures Valid() && inserting == old(inserting)
      ensures claimed == Live(old(status))
      ensures claimed ==> status == Running && heartbeatAt == Some(now)
      ensures claimed ==> startedAt == if old(startedAt).Some? then old(startedAt) else Some(now)
      ensures !claimed ==> Committed() == old(Committed())
      ensures rows == old(rows) && attemptsDone == old(attemptsDone) && finishedAt == old(finishedAt)
      ensures Committed() == old(Committed()).Claimed(now)
      ensures Forward(old(Committed()), Committed())
    {
      claimed := Live(status);
      if claimed {
        status := Running;
        if startedAt.None? {
          startedAt := Some(now);
        }
        heartbeatAt := Some(now);
      }
    }

    method Finish(outcome: Status, message: Option<string>, now: int) returns (changed: bool)
      requires Valid() && (outcome == Failed || outcome == Cancelled)
      modifies this
      ensures Valid() && inserting == old(inserting)
      ensures changed == Live(old(status))
      ensures !Live(status)
      ensures changed ==> status == outcome && error == message && finishedAt == Some(now)
      ensures !changed ==> Committed() == old(Committed())
      ensures rows == old(rows) && attemptsDone == old(attemptsDone) && summarized == old(summarized)
      ensures Committed() == old(Committed()).Finished(outcome, message, now)
      ensures Forward(old(Committed()), Committed())
    {
      changed := Live(status);
      if changed {
        status, error, finishedAt := outcome, message, Some(now);
      }
    }

    /** The insert of `save_attempt`. It waits while another transaction holds the same key,
        so it runs only when none does. */
    method InsertAttempt(result: AttemptResult) returns (inserted: bool)
      requires Valid() && result.Key() !in inserting
      modifies this`inserting
      ensures Valid()
      ensures inserted == (result.Key() !in rows)
      ensures inserting == if inserted then old(inserting)[result.Key() := result] else old(inserting)
    {
      inserted := result.Key() !in rows;
      if inserted {
        inserting := inserting[result.Key() := result];
      }
    }

    /** The update of `save_attempt`, which re-checks the status under the row lock: it
        commits the inserted row or rolls it back. `done` is the new count, if it committed. */
    method CommitAttempt(key: AttemptKey, now: int) returns (done: Option<int>)
      requires Valid() && key in inserting
      modifies this
      ensures Valid()
      ensures inserting == old(inserting) - {key}
      ensures Committed() == old(Committed()).Saved(old(inserting)[key], now)
      ensures done == if old(status) == Running then Some(attemptsDone) else None
      ensures done.Some? ==> done.value == old(attemptsDone) + 1 && rows == old(rows)[key := old(inserting)[key]]
      ensures done.Some? ==> heartbeatAt == Some(now)
      ensures done.None? ==> Committed() == old(Committed())
      ensures status == old(status) && error == old(error) && finishedAt == old(finishedAt)
      ensures Forward(old(Committed()), Committed())
    {
      ghost var before := Committed();
      var result := inserting[key];
      inserting := inserting - {key};
      done := None;
      if status == Running {
        rows := rows[key := result];
        attemptsDone := attemptsDone + 1;
        heartbeatAt := Some(now);
        done := Some(attemptsDone);
      }
      SavedKeeps(before, result, now);
      assert Committed() == before.Saved(result, now);
    }

    /** `save_attempt` when nothing interleaves: a second save of the same attempt, or a save
        to a run that isn't running, changes nothing at all. */
    method SaveAttempt(result: AttemptResult, now: int) returns (done: Option<int>)
      requires Valid() && result.Key() !in inserting
      modifies this
      ensures Valid() && inserting == old(inserting)
      ensures done.Some? <==> old(status) == Running && result.Key() !in old(rows)
      ensures done.Some? ==> Committed() == old(Committed()).Saved(result, now) && done.value == |rows|
      ensures done.Some? ==> rows == old(rows)[result.Key() := result] && status == old(status)
      ensures done.None? ==> Committed() == old(Committed())
    {
      var key := result.Key();
      var inserted := InsertAttempt(result);
      if inserted {
        assert old(inserting)[key := result] - {key} == old(inserting);
        done := CommitAttempt(key, now);
      } else {
        done := None;
      }
    }

    method SaveSummary(attempts: Rows, now: int) returns (final: Status)
      requires Valid()
      modifies this
      ensures Valid() && inserting == old(inserting)
      ensures final == status && !Live(final)
      ensures Live(old(status)) ==> final == Completed
      ensures !Live(old(status)) ==> final == old(status)
      ensures summarized == Some(attempts) && rows == old(rows) && error == old(error)
      ensures finishedAt == if old(finishedAt).Some? then old(finishedAt) else Some(now)
      ensures Committed() == old(Committed()).Summarized(attempts, now)
      ensures Forward(old(Committed()), Committed())
    {
      summarized := Some(attempts);
      if Live(status) {
        status := Completed;
      }
      if finishedAt.None? {
        finishedAt := Some(now);
      }
      final := status;
    }
  }
}
