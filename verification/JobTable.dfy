/** The `jobs` table: its rows, and the effect of each SQL statement the queue issues
    on it (internal/queue/queue.go). Time is in nanoseconds, the unit of Go's
    `time.Duration`. Columns no statement reads in a condition are not represented. */
module JobTable {
  import opened Wrappers

  datatype Status = Queued | Running | Done | Failed | Cancelled
  datatype Kind = Probe | Transcode | Download | Unknown

  type Worker = string

  datatype Job = Job(
    kind: Kind,
    entry: Option<int>,
    flavor: int,
    status: Status,
    attempts: nat,
    maxAttempts: nat,
    runAt: int,
    startedAt: Option<int>,
    worker: Option<Worker>,
    heartbeatAt: Option<int>,
    pausedAt: Option<int>,
    cancelAt: Option<int>)

  type Table = map<nat, Job>

  const SECOND := 1_000_000_000
  const STALE_AFTER := 180 * SECOND
  const REQUEUE_DELAY := 5 * SECOND
  const MAX_BACKOFF := 300 * SECOND

  /* ---- Row effects ---- */

  function NewRow(kind: Kind, entry: Option<int>, flavor: int, maxAttempts: int, runAt: int): Job {
    Job(kind, entry, flavor, Queued, 0, if maxAttempts <= 0 then 5 else maxAttempts, runAt,
        None, None, None, None, None)
  }

  function ClaimedRow(j: Job, w: Worker, now: int): Job {
    j.(status := Running, startedAt := Some(now), attempts := j.attempts + 1,
       worker := Some(w), heartbeatAt := Some(now))
  }

  function FinishedRow(j: Job, status: Status): Job {
    j.(status := status, worker := None, heartbeatAt := None)
  }

  function CancelledRow(j: Job): Job {
    FinishedRow(j, Cancelled).(cancelAt := None)
  }

  function RequeuedRow(j: Job, runAt: int): Job {
    FinishedRow(j, Queued).(runAt := runAt)
  }

  function RetriedRow(j: Job, runAt: int): Job {
    j.(status := Queued, attempts := 0, runAt := runAt, startedAt := None)
  }

  /** The row is one `RequeueStale` picks up: `coalesce(heartbeat_at, started_at) < now() - staleAfter`. */
  predicate Stale(j: Job, now: int, staleAfter: int) {
    && j.status.Running?
    && match j.heartbeatAt
       case Some(beat) => beat < now - staleAfter
       case None => j.startedAt.Some? && j.startedAt.value < now - staleAfter
  }

  /* ---- Statement effects ---- */

  function MarkClaimed(t: Table, ids: set<nat>, w: Worker, now: int): Table {
    map id | id in t :: if id in ids then ClaimedRow(t[id], w, now) else t[id]
  }

  function MarkBeat(t: Table, w: Worker, now: int): Table {
    map id | id in t ::
      if t[id].worker == Some(w) && t[id].status.Running? then t[id].(heartbeatAt := Some(now)) else t[id]
  }

  function MarkPaused(t: Table, id: nat, now: int): Table {
    if id in t && t[id].status.Queued? then t[id := t[id].(pausedAt := Some(now))] else t
  }

  function MarkResumed(t: Table, id: nat): Table {
    if id in t then t[id := t[id].(pausedAt := None)] else t
  }

  function MarkCancelRequested(t: Table, id: nat, now: int): Table {
    if id !in t then t
    else if t[id].status.Queued? then t[id := FinishedRow(t[id], Cancelled)]
    else t[id := t[id].(cancelAt := Some(now))]
  }

  function MarkCancelled(t: Table, id: nat): Table {
    if id in t then t[id := CancelledRow(t[id])] else t
  }

  function MarkFinished(t: Table, id: nat, status: Status): Table {
    if id in t then t[id := FinishedRow(t[id], status)] else t
  }

  function MarkRequeued(t: Table, id: nat, runAt: int): Table {
    if id in t then t[id := RequeuedRow(t[id], runAt)] else t
  }

  function MarkStale(t: Table, now: int, staleAfter: int): Table {
    map id | id in t ::
      if Stale(t[id], now, staleAfter) then RequeuedRow(t[id], now + REQUEUE_DELAY).(startedAt := None) else t[id]
  }

  function MarkRetried(t: Table, id: nat, runAt: int): Table {
    if id in t && (t[id].status.Failed? || t[id].status.Cancelled?) then t[id := RetriedRow(t[id], runAt)] else t
  }

  /* ---- The flavors of reclaimed jobs ---- */

  datatype FlavorMark = Unstarted | Encoding | Ended

  /** The `entry_flavors` rows, as far as 'pending' and 'transcoding' tell them apart, by entry and flavor. */
  type Flavors = map<(int, int), FlavorMark>

  /** A transcode of the flavor runs. */
  predicate Transcodes(t: Table, entry: int, flavor: int) {
    exists id :: id in t && t[id].kind.Transcode? && t[id].status.Running? && t[id].entry == Some(entry) && t[id].flavor == flavor
  }

  /** Flavors left in 'transcoding' without a running transcode of their own go back to 'pending'. */
  function Reverted(flavors: Flavors, t: Table): Flavors {
    map k | k in flavors ::
      if flavors[k].Encoding? && !Transcodes(t, k.0, k.1) then Unstarted else flavors[k]
  }

  /* ---- What every statement keeps ---- */

  /** `worker_id` and `heartbeat_at` are set exactly on running rows, and no running row is paused. */
  predicate RowOk(j: Job) {
    && (j.status.Running? <==> j.worker.Some?)
    && (j.status.Running? <==> j.heartbeatAt.Some?)
    && (j.status.Running? ==> j.startedAt.Some? && j.pausedAt.None?)
  }

  ghost predicate RowsOk(t: Table) {
    forall id :: id in t ==> RowOk(t[id])
  }

  predicate SameEntry(a: Job, b: Job) {
    a.kind.Transcode? && b.kind.Transcode? && a.entry.Some? && a.entry == b.entry
  }

  /** At most one running transcode per entry. */
  ghost predicate OnePerEntry(t: Table) {
    forall a, b :: a in t && b in t && a != b && t[a].status.Running? && t[b].status.Running?
      ==> !SameEntry(t[a], t[b])
  }

  /** At most one running download. */
  ghost predicate OneDownload(t: Table) {
    forall a, b :: a in t && b in t && a != b && t[a].status.Running? && t[b].status.Running?
      ==> !(t[a].kind.Download? && t[b].kind.Download?)
  }

  /** `t'` only takes rows out of the running state, or drops or adds rows that do not run:
      every row running in `t'` was running in `t`, of the same kind and entry. */
  ghost predicate NothingStarted(t: Table, t': Table) {
    forall id :: id in t' && t'[id].status.Running? ==>
      id in t && t[id].status.Running? && t[id].kind == t'[id].kind && t[id].entry == t'[id].entry
  }

  /** What every statement but the claim does to the invariants above. */
  ghost predicate Benign(t: Table, t': Table) {
    (RowsOk(t) ==> RowsOk(t')) && NothingStarted(t, t')
  }

  lemma RowStatements(t: Table, id: nat, now: int, status: Status)
    requires !status.Running?
    ensures Benign(t, MarkCancelled(t, id))
    ensures Benign(t, MarkFinished(t, id, status))
    ensures Benign(t, MarkRequeued(t, id, now))
  {
  }

  lemma UserStatements(t: Table, id: nat, now: int)
    ensures Benign(t, t - {id})
    ensures Benign(t, MarkPaused(t, id, now))
    ensures Benign(t, MarkResumed(t, id))
    ensures Benign(t, MarkCancelRequested(t, id, now))
    ensures Benign(t, MarkRetried(t, id, now))
  {
  }

  lemma InsertStatement(t: Table, id: nat, kind: Kind, entry: Option<int>, flavor: int, maxAttempts: int, runAt: int)
    ensures Benign(t, t[id := NewRow(kind, entry, flavor, maxAttempts, runAt)])
  {
  }

  lemma TableStatements(t: Table, w: Worker, now: int, staleAfter: int)
    ensures Benign(t, MarkBeat(t, w, now))
    ensures Benign(t, MarkStale(t, now, staleAfter))
  {
  }

  lemma StillExclusive(t: Table, t': Table)
    requires NothingStarted(t, t')
    ensures OnePerEntry(t) ==> OnePerEntry(t')
    ensures OneDownload(t) ==> OneDownload(t')
  {
  }

  /* ---- When a job's turn comes ---- */

  /** The job waits and its time has come; whether it can be claimed then depends on the other rows only. */
  predicate Due(t: Table, id: nat, now: int) {
    id in t && t[id].status.Queued? && t[id].runAt <= now && t[id].pausedAt.None?
  }

  /** No other row is touched. */
  ghost predicate OnlyRow(t: Table, t': Table, id: nat) {
    t'.Keys == t.Keys && forall k :: k in t && k != id ==> t'[k] == t[k]
  }

  /** A new job is due from `runAt` on, has used no attempt and may use at least one. */
  lemma NewJobIsDue(t: Table, id: nat, kind: Kind, entry: Option<int>, flavor: int, maxAttempts: int, runAt: int, now: int)
    requires id !in t
    ensures var t' := t[id := NewRow(kind, entry, flavor, maxAttempts, runAt)];
      && (Due(t', id, now) <==> runAt <= now)
      && t'[id].attempts == 0 && t'[id].maxAttempts == (if maxAttempts > 0 then maxAttempts else 5)
      && t'[id].kind == kind && t'[id].entry == entry && t'[id].flavor == flavor
      && t'[id].startedAt.None? && t'[id].worker.None? && t'[id].heartbeatAt.None? && t'[id].cancelAt.None?
  {
  }

  /** A claimed job is running, its worker's, freshly beating and one attempt older. */
  lemma ClaimTakesOver(t: Table, ids: set<nat>, w: Worker, now: int, id: nat, later: int, after: int)
    requires id in t
    ensures var t' := MarkClaimed(t, ids, w, now);
      && t'.Keys == t.Keys && (id !in ids ==> t'[id] == t[id])
      && (id in ids ==>
            && !Due(t', id, later) && t'[id].worker == Some(w) && (Stale(t'[id], later, after) <==> now < later - after)
            && t'[id] == t[id].(status := Running, startedAt := Some(now), attempts := t[id].attempts + 1,
                                worker := Some(w), heartbeatAt := Some(now)))
  {
  }

  /** A beat restarts the clock of the worker's running jobs and of no other job. */
  lemma BeatRestartsClock(t: Table, w: Worker, now: int, id: nat, later: int, after: int)
    requires id in t
    ensures var t' := MarkBeat(t, w, now);
      t'.Keys == t.Keys
      && if t[id].status.Running? && t[id].worker == Some(w)
         then (Stale(t'[id], later, after) <==> now < later - after) && t'[id] == t[id].(heartbeatAt := Some(now))
         else t'[id] == t[id]
  {
  }

  /** A paused job has no turn until it is resumed, and pausing and resuming change nothing else. */
  lemma PauseUntilResume(t: Table, id: nat, now: int, later: int)
    requires id in t
    ensures OnlyRow(t, MarkPaused(t, id, now), id) && OnlyRow(t, MarkResumed(t, id), id)
    ensures t[id].status.Queued? ==> !Due(MarkPaused(t, id, now), id, later)
    ensures !t[id].status.Queued? ==> MarkPaused(t, id, now) == t
    ensures MarkResumed(MarkPaused(t, id, now), id) == MarkResumed(t, id)
    ensures Due(MarkResumed(t, id), id, later) <==> t[id].status.Queued? && t[id].runAt <= later
    ensures MarkResumed(t, id)[id] == t[id].(pausedAt := None)
  {
  }

  /** A cancel request ends a waiting job at once; on any other job it sets the flag and nothing else. A worker's
      cancel ends the job and clears the flag. */
  lemma CancelEndsOrFlags(t: Table, id: nat, now: int, later: int)
    requires id in t
    ensures OnlyRow(t, MarkCancelRequested(t, id, now), id) && OnlyRow(t, MarkCancelled(t, id), id)
    ensures t[id].status.Queued? ==>
      MarkCancelRequested(t, id, now)[id] == t[id].(status := Cancelled, worker := None, heartbeatAt := None)
    ensures !t[id].status.Queued? ==> MarkCancelRequested(t, id, now)[id] == t[id].(cancelAt := Some(now))
    ensures MarkCancelled(t, id)[id] == t[id].(status := Cancelled, worker := None, heartbeatAt := None, cancelAt := None)
    ensures !Due(MarkCancelRequested(t, id, now), id, later) && !Due(MarkCancelled(t, id), id, later)
  {
  }

  /** A finished job has no owner and no turn; a requeued one has its turn from `runAt` on, unless it is paused. */
  lemma FinishOrRequeue(t: Table, id: nat, status: Status, runAt: int, later: int)
    requires id in t
    ensures OnlyRow(t, MarkFinished(t, id, status), id) && OnlyRow(t, MarkRequeued(t, id, runAt), id)
    ensures MarkFinished(t, id, status)[id] == t[id].(status := status, worker := None, heartbeatAt := None)
    ensures MarkRequeued(t, id, runAt)[id] == t[id].(status := Queued, worker := None, heartbeatAt := None, runAt := runAt)
    ensures Due(MarkRequeued(t, id, runAt), id, later) <==> t[id].pausedAt.None? && runAt <= later
  {
  }

  /** A reclaim takes a job whose last beat, or start, is older than the threshold, and gives it its turn again five
      seconds later, unless it is paused; it touches no other job. */
  lemma ReclaimReturnsStale(t: Table, now: int, after: int, id: nat, later: int)
    requires id in t
    ensures var t' := MarkStale(t, now, after);
      var last := if t[id].heartbeatAt.Some? then t[id].heartbeatAt else t[id].startedAt;
      t'.Keys == t.Keys
      && if t[id].status.Running? && last.Some? && last.value < now - after
         then (Due(t', id, later) <==> t[id].pausedAt.None? && now + 5 * SECOND <= later)
              && t'[id] == t[id].(status := Queued, worker := None, heartbeatAt := None, startedAt := None,
                                  runAt := now + 5 * SECOND)
         else t'[id] == t[id]
  {
  }

  /** The user's retry gives a failed or cancelled job a fresh set of attempts from `runAt` on and leaves every other
      job, and its pause and cancel flags, alone. */
  lemma RetryStartsOver(t: Table, id: nat, runAt: int, later: int)
    requires id in t
    ensures OnlyRow(t, MarkRetried(t, id, runAt), id)
    ensures if t[id].status.Failed? || t[id].status.Cancelled?
      then (Due(MarkRetried(t, id, runAt), id, later) <==> t[id].pausedAt.None? && runAt <= later)
           && MarkRetried(t, id, runAt)[id] == t[id].(status := Queued, attempts := 0, runAt := runAt, startedAt := None)
      else MarkRetried(t, id, runAt) == t
  {
  }

  /** The flavors a reclaim gives up: those being encoded for which no transcode runs any more. */
  lemma RevertedExactly(flavors: Flavors, t: Table, k: (int, int))
    requires k in flavors
    ensures Reverted(flavors, t).Keys == flavors.Keys
    ensures (flavors[k].Encoding? && forall id :: id in t && t[id].kind.Transcode? && t[id].status.Running? ==>
        t[id].entry != Some(k.0) || t[id].flavor != k.1) ==> Reverted(flavors, t)[k].Unstarted?
    ensures (!flavors[k].Encoding?
             || exists id :: (id in t && t[id].kind.Transcode? && t[id].status.Running?
                              && t[id].entry == Some(k.0) && t[id].flavor == k.1)) ==> Reverted(flavors, t)[k] == flavors[k]
  {
  }

  /** A cancel request on a job that has already failed survives the user's retry, so the retried job starts
      with the flag set and its first failure is settled as a cancel. */
  lemma OldRequestFlagsRetry(t: Table, id: nat, asked: int, retried: int, claimed: int, w: Worker)
    requires id in t && t[id].status.Failed?
    ensures var again := MarkClaimed(MarkRetried(MarkCancelRequested(t, id, asked), id, retried), {id}, w, claimed);
      id in again && again[id].status.Running? && again[id].attempts == 1 && again[id].cancelAt == Some(asked)
  {
  }
}
