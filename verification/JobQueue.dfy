/** The queue as the source writes it: an object whose methods update the table in place. */
module JobQueue {
  import opened Wrappers
  import opened JobTable
  import opened Selection

  const MAX_INT64 := 0x8000_0000_0000_0000
  const TWO_64 := 0x1_0000_0000_0000_0000

  function Pow2(n: nat): nat {
    if n == 0 then 1 else 2 * Pow2(n - 1)
  }

  /** The value of an int64 expression: wraps around in two's complement. */
  function Int64(x: int): (r: int)
    ensures -MAX_INT64 <= r < MAX_INT64
    ensures -MAX_INT64 <= x < MAX_INT64 ==> r == x
  {
    (x + MAX_INT64) % TWO_64 - MAX_INT64
  }

  /** `time.Duration(1<<uint(attempts)) * time.Second`, capped at five minutes. */
  function Backoff(attempts: nat): int {
    if Product(attempts) > MAX_BACKOFF then MAX_BACKOFF else Product(attempts)
  }

  function Product(attempts: nat): int {
    Int64(Int64(Pow2(attempts)) * SECOND)
  }

  /** What the first statement of `Fail` decides for the second. */
  datatype Verdict = Retry(delay: int) | DeadLetter

  function VerdictOf(j: Job): Verdict {
    if j.attempts >= j.maxAttempts then DeadLetter else Retry(Backoff(j.attempts))
  }

  class Queue {
    var jobs: Table
    var nextId: nat
    var flavors: Flavors

    ghost predicate Valid()
      reads this
    {
      && (forall id :: id in jobs ==> id < nextId)
      && RowsOk(jobs) && OnePerEntry(jobs) && OneDownload(jobs)
    }

    constructor ()
      ensures Valid() && jobs == map[] && flavors == map[]
    {
      jobs := map[];
      nextId := 1;
      flavors := map[];
    }

    /** Without a time of its own the job is scheduled at the clock of the database. */
    method EnqueueAt(kind: Kind, entry: Option<int>, flavor: int, maxAttempts: int, runAt: Option<int>, now: int)
      returns (id: nat)
      requires Valid()
      modifies this`jobs, this`nextId
      ensures Valid()
      ensures var at := if runAt.Some? then runAt.value else now;
        id !in old(jobs) && jobs == old(jobs)[id := NewRow(kind, entry, flavor, maxAttempts, at)]
      ensures jobs[id].maxAttempts > 0
      ensures Due(jobs, id, now) <==> runAt.None? || runAt.value <= now
    {
      id := nextId;
      var at := if runAt.Some? then runAt.value else now;
      jobs := jobs[id := NewRow(kind, entry, flavor, maxAttempts, at)];
      nextId := nextId + 1;
      StillExclusive(old(jobs), jobs);
    }

    /** The SELECT of `Claim`, as an ascending scan of the primary key. */
    method Select(n: nat, exclude: set<Kind>, now: int) returns (rows: seq<nat>)
      requires Valid()
      ensures LowestIds(EligibleIds(jobs, now, exclude), n, rows)
    {
      rows := [];
      ghost var all := EligibleIds(jobs, now, exclude);
      for id := 0 to nextId
        invariant Ascending(rows) && |rows| <= n
        invariant forall r :: r in rows ==> r in all && r < id
        invariant forall k :: k in all && k < id && k !in rows ==> |rows| == n && forall r :: r in rows ==> r < k
      {
        if id in jobs && Eligible(jobs, now, exclude, id) && |rows| < n {
          assert forall k :: 0 <= k < |rows| ==> rows[k] in rows;
          rows := rows + [id];
        }
      }
    }

    /** Claims up to `n` due jobs for `worker` and returns their ids. */
    method Claim(worker: Worker, n: nat, exclude: set<Kind>, now: int) returns (claimed: seq<nat>)
      requires Valid()
      modifies this`jobs
      ensures Valid()
      ensures IsBatch(old(jobs), now, n, exclude, claimed)
      ensures jobs == MarkClaimed(old(jobs), SetOf(claimed), worker, now)
    {
      var rows := Select(n, exclude, now);
      var buffer := new nat[|rows|](i requires 0 <= i < |rows| => rows[i]);
      assert buffer[..] == rows;
      assert forall i :: 0 <= i < buffer.Length ==> rows[i] in rows;
      var kept := KeepFirstOfEntry(jobs, buffer);
      claimed := buffer[..kept];
      ghost var before := jobs;
      assert IsBatch(before, now, n, exclude, claimed);
      ThinAscending(before, rows);
      SetRunning(claimed, worker, now);
      BatchKeepsExclusive(before, now, n, exclude, claimed, worker);
    }

    /** The UPDATE of `Claim`. */
    method SetRunning(ids: seq<nat>, worker: Worker, now: int)
      requires Ascending(ids) && forall id :: id in ids ==> id in jobs
      modifies this`jobs
      ensures jobs == MarkClaimed(old(jobs), SetOf(ids), worker, now)
    {
      ghost var before := jobs;
      for i := 0 to |ids|
        invariant jobs == MarkClaimed(before, SetOf(ids[..i]), worker, now)
      {
        assert ids[i] in ids && ids[i] !in ids[..i];
        assert ids[..i+1] == ids[..i] + [ids[i]];
        jobs := jobs[ids[i] := ClaimedRow(jobs[ids[i]], worker, now)];
      }
      assert ids[..|ids|] == ids;
    }

    method Heartbeat(worker: Worker, now: int)
      requires Valid()
      modifies this`jobs
      ensures Valid() && jobs == MarkBeat(old(jobs), worker, now)
    {
      jobs := map id | id in jobs ::
        if jobs[id].worker == Some(worker) && jobs[id].status.Running?
        then jobs[id].(heartbeatAt := Some(now)) else jobs[id];
      StillExclusive(old(jobs), jobs);
    }

    method Pause(id: nat, now: int)
      requires Valid()
      modifies this`jobs
      ensures Valid() && jobs == MarkPaused(old(jobs), id, now)
    {
      if id in jobs && jobs[id].status.Queued? {
        jobs := jobs[id := jobs[id].(pausedAt := Some(now))];
      }
      StillExclusive(old(jobs), jobs);
    }

    method Resume(id: nat)
      requires Valid()
      modifies this`jobs
      ensures Valid() && jobs == MarkResumed(old(jobs), id)
    {
      if id in jobs {
        jobs := jobs[id := jobs[id].(pausedAt := None)];
      }
      StillExclusive(old(jobs), jobs);
    }

    /** Queued jobs are cancelled at once, others get the flag the worker polls; false when there is no such row. */
    method RequestCancel(id: nat, now: int) returns (found: bool)
      requires Valid()
      modifies this`jobs
      ensures Valid() && found == (id in old(jobs)) && jobs == MarkCancelRequested(old(jobs), id, now)
    {
      found := id in jobs;
      if found {
        if jobs[id].status.Queued? {
          jobs := jobs[id := FinishedRow(jobs[id], Cancelled)];
        } else {
          jobs := jobs[id := jobs[id].(cancelAt := Some(now))];
        }
      }
      StillExclusive(old(jobs), jobs);
    }

    method Cancel(id: nat)
      requires Valid()
      modifies this`jobs
      ensures Valid() && jobs == MarkCancelled(old(jobs), id)
    {
      if id in jobs {
        jobs := jobs[id := CancelledRow(jobs[id])];
      }
      StillExclusive(old(jobs), jobs);
    }

    method MarkDone(id: nat)
      requires Valid()
      modifies this`jobs
      ensures Valid() && jobs == MarkFinished(old(jobs), id, Done)
    {
      if id in jobs {
        jobs := jobs[id := FinishedRow(jobs[id], Done)];
      }
      StillExclusive(old(jobs), jobs);
    }

    /** Retries with backoff until `max_attempts`, then dead-letters; false when there is no such row. */
    method Fail(id: nat, now: int) returns (found: bool)
      requires Valid()
      modifies this`jobs
      ensures Valid() && found == (id in old(jobs))
      ensures jobs == if !found then old(jobs)
                      else if old(jobs[id].attempts >= jobs[id].maxAttempts) then MarkFinished(old(jobs), id, Failed)
                      else MarkRequeued(old(jobs), id, now + Backoff(old(jobs[id].attempts)))
    {
      found := id in jobs;
      if !found { return; }
      var attempts, maxAttempts := jobs[id].attempts, jobs[id].maxAttempts;
      if attempts >= maxAttempts {
        jobs := jobs[id := FinishedRow(jobs[id], Failed)];
      } else {
        jobs := jobs[id := RequeuedRow(jobs[id], now + Backoff(attempts))];
      }
      StillExclusive(old(jobs), jobs);
    }

    /** Re-queues the stale rows and, if there were any, reverts the flavors that nobody transcodes any more. */
    method RequeueStale(now: int, staleAfter: int)
      requires Valid()
      modifies this`jobs, this`flavors
      ensures Valid() && jobs == MarkStale(old(jobs), now, staleAfter)
      ensures flavors ==
        if (exists id :: id in old(jobs) && Stale(old(jobs)[id], now, staleAfter)) then Reverted(old(flavors), jobs)
        else old(flavors)
    {
      var requeued := RequeueRows(now, staleAfter);
      if requeued { flavors := Reverted(flavors, jobs); }
    }

    method RequeueRows(now: int, staleAfter: int) returns (any: bool)
      requires Valid()
      modifies this`jobs
      ensures Valid() && jobs == MarkStale(old(jobs), now, staleAfter)
      ensures any == exists id :: id in old(jobs) && Stale(old(jobs)[id], now, staleAfter)
    {
      any := exists id :: id in jobs && Stale(jobs[id], now, staleAfter);
      jobs := map id | id in jobs ::
        if Stale(jobs[id], now, staleAfter)
        then RequeuedRow(jobs[id], now + REQUEUE_DELAY).(startedAt := None) else jobs[id];
      StillExclusive(old(jobs), jobs);
    }

    /** The retry button: re-queues a failed or cancelled job (internal/api/activity.go:120-139). */
    method Retry(id: nat, now: int) returns (accepted: bool)
      requires Valid()
      modifies this`jobs
      ensures Valid() && jobs == MarkRetried(old(jobs), id, now)
      ensures accepted == (id in old(jobs) && (old(jobs)[id].status.Failed? || old(jobs)[id].status.Cancelled?))
    {
      accepted := id in jobs && (jobs[id].status.Failed? || jobs[id].status.Cancelled?);
      if accepted {
        jobs := jobs[id := RetriedRow(jobs[id], now)];
      }
      StillExclusive(old(jobs), jobs);
    }
  }

  /** What the worker writes once the handler of job `id` has returned (cmd/vidsilo/worker.go:235-250). `live` says
      that the context of the job has not ended: with an ended one `Done` and `Fail` write nothing, while the flag is
      read and the cancel written with the context of the worker. */
  method Settle(q: Queue, id: nat, handlerFailed: bool, live: bool, now: int)
    requires q.Valid()
    modifies q`jobs
    ensures q.Valid()
    ensures id !in old(q.jobs) ==> q.jobs == old(q.jobs)
    ensures id in old(q.jobs) ==>
      var j := old(q.jobs)[id];
      q.jobs == if handlerFailed && j.cancelAt.Some? then MarkCancelled(old(q.jobs), id)
                else if !live then old(q.jobs)
                else if !handlerFailed then MarkFinished(old(q.jobs), id, Done)
                else if j.attempts >= j.maxAttempts then MarkFinished(old(q.jobs), id, Failed)
                else MarkRequeued(old(q.jobs), id, now + Backoff(j.attempts))
  {
    if handlerFailed {
      var requested := id in q.jobs && q.jobs[id].cancelAt.Some?;
      if requested {
        q.Cancel(id);
        return;
      }
      if live { var _ := q.Fail(id, now); }
      return;
    }
    if live { q.MarkDone(id); }
  }

  /** The delay is min(2^attempts, 300) seconds for exactly these attempt counts: beyond 33 the
      int64 product wraps, and only some wrapped values are still capped to 300 s. */
  lemma BackoffExact(a: nat)
    ensures Backoff(a) == (if Pow2(a) < 300 then Pow2(a) else 300) * SECOND
      <==> a <= 33 || a in {37, 41, 42, 45, 47, 50, 51, 53}
  {
    PowValues();
    if a <= 33 {
      PowMonotone(a, 33);
    } else {
      PowMonotone(9, a);
      if a >= 55 { WrapsToZero(a); } else { WrappedProduct(a); }
    }
  }

  /** Where the product wraps without vanishing it is negative, or so large that the cap applies. */
  lemma WrappedProduct(a: nat)
    requires 34 <= a <= 54
    ensures if a == 37 || a == 41 || a == 42 || a == 45 || a == 47 || a == 50 || a == 51 || a == 53
      then Product(a) > MAX_BACKOFF else Product(a) < 0
  {
    PowValues();
    PowNext(33, 8589934592);
    if a == 34 { ProductIs(a, 17179869184, 1); return; }
    PowNext(34, 17179869184);
    if a == 35 { ProductIs(a, 34359738368, 2); return; }
    PowNext(35, 34359738368);
    if a == 36 { ProductIs(a, 68719476736, 4); return; }
    PowNext(36, 68719476736);
    if a == 37 { ProductIs(a, 137438953472, 7); return; }
    PowNext(37, 137438953472);
    if a == 38 { ProductIs(a, 274877906944, 15); return; }
    PowNext(38, 274877906944);
    if a == 39 { ProductIs(a, 549755813888, 30); return; }
    PowNext(39, 549755813888);
    if a == 40 { ProductIs(a, 1099511627776, 60); return; }
    PowNext(40, 1099511627776);
    if a == 41 { ProductIs(a, 2199023255552, 119); return; }
    PowNext(41, 2199023255552);
    if a == 42 { ProductIs(a, 4398046511104, 238); return; }
    PowNext(42, 4398046511104);
    if a == 43 { ProductIs(a, 8796093022208, 477); return; }
    PowNext(43, 8796093022208);
    if a == 44 { ProductIs(a, 17592186044416, 954); return; }
    PowNext(44, 17592186044416);
    if a == 45 { ProductIs(a, 35184372088832, 1907); return; }
    PowNext(45, 35184372088832);
    if a == 46 { ProductIs(a, 70368744177664, 3815); return; }
    PowNext(46, 70368744177664);
    if a == 47 { ProductIs(a, 140737488355328, 7629); return; }
    PowNext(47, 140737488355328);
    if a == 48 { ProductIs(a, 281474976710656, 15259); return; }
    PowNext(48, 281474976710656);
    if a == 49 { ProductIs(a, 562949953421312, 30518); return; }
    PowNext(49, 562949953421312);
    if a == 50 { ProductIs(a, 1125899906842624, 61035); return; }
    PowNext(50, 1125899906842624);
    if a == 51 { ProductIs(a, 2251799813685248, 122070); return; }
    PowNext(51, 2251799813685248);
    if a == 52 { ProductIs(a, 4503599627370496, 244141); return; }
    PowNext(52, 4503599627370496);
    if a == 53 { ProductIs(a, 9007199254740992, 488281); return; }
    PowNext(53, 9007199254740992);
    if a == 54 { ProductIs(a, 18014398509481984, 976563); return; }
  }

  lemma ProductIs(a: nat, p: nat, k: int)
    requires Pow2(a) == p < MAX_INT64
    requires -MAX_INT64 <= p * 1_000_000_000 - k * 0x1_0000_0000_0000_0000 < MAX_INT64
    ensures Product(a) == p * 1_000_000_000 - k * 0x1_0000_0000_0000_0000
  {
    WrapsTo(p * SECOND, k);
  }

  lemma WrapsTo(x: int, k: int)
    requires -MAX_INT64 <= x - k * TWO_64 < MAX_INT64
    ensures Int64(x) == x - k * TWO_64
  {
    var y := x - k * TWO_64 + MAX_INT64;
    assert x + MAX_INT64 == k * TWO_64 + y;
  }

  lemma PowValues()
    ensures Pow2(9) == 512 && Pow2(33) == 8589934592 && Pow2(55) == 36028797018963968
  {
    assert Pow2(11) == 2 * Pow2(10);
    PowFrom(22, 11);
    PowFrom(33, 11);
    PowFrom(55, 22);
  }

  lemma PowNext(a: nat, v: nat)
    requires Pow2(a) == v
    ensures Pow2(a + 1) == 2 * v
  {
  }

  /** Within the range that does not wrap, later retries never wait less. */
  lemma BackoffMonotone(a: nat, b: nat)
    requires a <= b <= 33
    ensures 0 < Backoff(a) <= Backoff(b) <= MAX_BACKOFF
  {
    BackoffExact(a);
    BackoffExact(b);
    PowMonotone(a, b);
    PowMonotone(0, a);
  }

  lemma {:induction false} PowMonotone(a: nat, b: nat)
    requires a <= b
    ensures 0 < Pow2(a) <= Pow2(b)
  {
    if a < b {
      PowMonotone(a, b - 1);
    } else if a > 0 {
      PowMonotone(a - 1, a - 1);
    }
  }

  lemma {:induction false} PowFrom(a: nat, b: nat)
    requires b <= a
    ensures Pow2(a) == Pow2(a - b) * Pow2(b)
  {
    if b > 0 {
      PowFrom(a - 1, b - 1);
    }
  }

  lemma WrapsToZero(a: nat)
    requires a >= 55
    ensures Int64(Int64(Pow2(a)) * SECOND) == 0
  {
    PowFrom(a, 55);
    PowValues();
    var p := Pow2(a);
    var k := (p + MAX_INT64) / TWO_64;
    Int64Quotient(p);
    assert Int64(p) == 36028797018963968 * (Pow2(a - 55) - k * 512);
    MultipleWrapsToZero(1953125 * (Pow2(a - 55) - k * 512));
  }

  lemma Int64Quotient(x: int)
    ensures Int64(x) == x - ((x + MAX_INT64) / TWO_64) * TWO_64
  {
  }

  lemma MultipleWrapsToZero(n: int)
    ensures Int64(n * TWO_64) == 0
  {
    assert (n * TWO_64 + MAX_INT64) / TWO_64 == n;
  }

  predicate TranscodeOf(j: Job, entry: int) {
    j.kind.Transcode? && j.entry == Some(entry)
  }

  /** The in-place filter of `Claim`: `filtered := jobs[:0]` shares the array it reads. */
  method KeepFirstOfEntry(t: Table, rows: array<nat>) returns (kept: nat)
    requires forall i :: 0 <= i < rows.Length ==> rows[i] in t
    modifies rows
    ensures kept <= rows.Length
    ensures rows[..kept] == Thin(t, old(rows[..]))
  {
    ghost var all := rows[..];
    var seen: set<int> := {};
    kept := 0;
    for i := 0 to rows.Length
      invariant kept <= i
      invariant rows[i..] == all[i..]
      invariant rows[..kept] == Thin(t, all[..i])
      invariant forall e :: e in seen <==> Seen(t, all[..i], e)
    {
      assert rows[i] == rows[i..][0] == all[i];
      assert all[..i+1] == all[..i] + [all[i]];
      assert rows[i..][1..] == rows[i+1..] && all[i..][1..] == all[i+1..];
      FilterStep(t, all[..i], all[i]);
      var j := t[rows[i]];
      if j.kind.Transcode? && j.entry.Some? {
        if j.entry.value in seen { continue; }
        seen := seen + {j.entry.value};
      }
      rows[kept] := rows[i];
      kept := kept + 1;
    }
    assert all[..rows.Length] == all;
  }

  /** A transcode of the entry is among the rows. */
  ghost predicate Seen(t: Table, rows: seq<nat>, entry: int)
    requires forall r :: r in rows ==> r in t
  {
    exists k :: 0 <= k < |rows| && TranscodeOf(t[rows[k]], entry)
  }

  lemma FilterStep(t: Table, rows: seq<nat>, r: nat)
    requires r in t && forall x :: x in rows ==> x in t
    ensures var j := t[r];
      Thin(t, rows + [r]) ==
        if j.kind.Transcode? && j.entry.Some? && Seen(t, rows, j.entry.value) then Thin(t, rows) else Thin(t, rows) + [r]
    ensures forall e :: Seen(t, rows + [r], e) <==> Seen(t, rows, e) || TranscodeOf(t[r], e)
  {
    var longer, j := rows + [r], t[r];
    assert longer[..|rows|] == rows && longer[|rows|] == r;
    if j.kind.Transcode? && j.entry.Some? && Seen(t, rows, j.entry.value) {
      var k :| 0 <= k < |rows| && TranscodeOf(t[rows[k]], j.entry.value);
      assert SameEntry(t[longer[k]], t[longer[|rows|]]);
    } else {
      assert forall k :: 0 <= k < |rows| ==> longer[k] == rows[k] && !SameEntry(t[rows[k]], j);
      assert FirstOfEntry(t, longer, |rows|);
    }
    forall e
      ensures Seen(t, longer, e) <==> Seen(t, rows, e) || TranscodeOf(t[r], e)
    {
      if Seen(t, rows, e) {
        var k :| 0 <= k < |rows| && TranscodeOf(t[rows[k]], e);
        assert TranscodeOf(t[longer[k]], e);
      }
      if TranscodeOf(t[r], e) { assert TranscodeOf(t[longer[|rows|]], e); }
    }
  }
}
