/** Batched analytics (internal/analytics/analytics.go): deltas gather in memory and are written to a daily and
    a totals table in one transaction per flush. Days are numbered. */
module Analytics {
  type Entry = nat

  type Day = nat

  type Viewer = string

  datatype Key = Key(entry: Entry, day: Day)

  datatype Visit = Visit(entry: Entry, day: Day, viewer: Viewer)

  datatype Delta = Delta(plays: int, watch: int, bytes: int)

  datatype Metric = Plays | Watch | Bytes

  const Zero := Delta(0, 0, 0)

  type Daily = map<Key, Delta>

  type Totals = map<Entry, Delta>

  function Plus(a: Delta, b: Delta): Delta {
    Delta(a.plays + b.plays, a.watch + b.watch, a.bytes + b.bytes)
  }

  /** A missing row counts as zero. */
  function RowAt(m: Daily, k: Key): Delta {
    if k in m then m[k] else Zero
  }

  function TotalAt(m: Totals, e: Entry): Delta {
    if e in m then m[e] else Zero
  }

  /** INSERT ... ON CONFLICT DO UPDATE adding the new values to the old. */
  function Upsert(m: Daily, k: Key, d: Delta): Daily {
    m[k := Plus(RowAt(m, k), d)]
  }

  function Of(d: Delta, x: Metric): int {
    match x
    case Plays => d.plays
    case Watch => d.watch
    case Bytes => d.bytes
  }

  /** The three metrics are all there is to a delta, and they add up one by one. */
  lemma MetricsTellAll(a: Delta, b: Delta)
    ensures a == b <==> forall x :: Of(a, x) == Of(b, x)
    ensures forall x :: Of(Plus(a, b), x) == Of(a, x) + Of(b, x)
  {
    assert Of(a, Plays) == Of(b, Plays) && Of(a, Watch) == Of(b, Watch) && Of(a, Bytes) == Of(b, Bytes) ==> a == b;
  }

  /** What the days before `n` of an entry add up to. */
  ghost function Sum(m: Daily, e: Entry, x: Metric, n: Day): int {
    if n == 0 then 0 else Sum(m, e, x, n - 1) + Of(RowAt(m, Key(e, n - 1)), x)
  }

  ghost predicate Within(m: Daily, n: Day) {
    forall k :: k in m ==> k.day < n
  }

  lemma {:induction false} SumBeyond(m: Daily, e: Entry, x: Metric, h: Day, n: Day)
    requires Within(m, h) && h <= n
    ensures Sum(m, e, x, n) == Sum(m, e, x, h)
    decreases n
  {
    if h < n { SumBeyond(m, e, x, h, n - 1); }
  }

  lemma {:induction false} SumUpsert(m: Daily, k: Key, d: Delta, e: Entry, x: Metric, n: Day)
    ensures Sum(Upsert(m, k, d), e, x, n) == Sum(m, e, x, n) + (if k.entry == e && k.day < n then Of(d, x) else 0)
  {
    if n > 0 { SumUpsert(m, k, d, e, x, n - 1); }
  }

  /** The rows a pruning keeps. */
  function Kept(m: Daily, cutoff: Day): Daily {
    map k | k in m && k.day >= cutoff :: m[k]
  }

  lemma {:induction false} SumKept(m: Daily, cutoff: Day, e: Entry, x: Metric, n: Day)
    ensures Sum(m, e, x, n) == Sum(Kept(m, cutoff), e, x, n) + Sum(m, e, x, if cutoff <= n then cutoff else n)
  {
    if n > 0 { SumKept(m, cutoff, e, x, n - 1); }
  }

  /** A table after every delta of a batch was added to it, whatever the order. */
  ghost predicate Added(before: Daily, batch: Daily, after: Daily) {
    after.Keys == before.Keys + batch.Keys
    && forall k :: k in after ==> after[k] == Plus(RowAt(before, k), RowAt(batch, k))
  }

  lemma {:induction false} SumAdded(before: Daily, batch: Daily, after: Daily, e: Entry, x: Metric, n: Day)
    requires Added(before, batch, after)
    ensures Sum(after, e, x, n) == Sum(before, e, x, n) + Sum(batch, e, x, n)
  {
    if n > 0 { SumAdded(before, batch, after, e, x, n - 1); }
  }

  /** The totals after every delta of a batch was added to its entry. */
  ghost predicate Summed(before: Totals, batch: Daily, after: Totals, n: Day) {
    forall e: Entry, x: Metric :: Of(TotalAt(after, e), x) == Of(TotalAt(before, e), x) + Sum(batch, e, x, n)
  }

  /** The rows of a batch outside `todo` are written. */
  ghost predicate Wrote(daily: Daily, totals: Totals, batch: Daily, todo: set<Key>, daily': Daily, totals': Totals, n: Day) {
    Added(daily, batch - todo, daily') && Summed(totals, batch - todo, totals', n)
  }

  lemma WriteAll(daily: Daily, totals: Totals, batch: Daily, daily': Daily, totals': Totals, n: Day)
    requires Wrote(daily, totals, batch, {}, daily', totals', n)
    ensures Added(daily, batch, daily') && Summed(totals, batch, totals', n)
  {
    assert batch - {} == batch;
  }

  lemma WriteNone(daily: Daily, totals: Totals, batch: Daily, n: Day)
    ensures Wrote(daily, totals, batch, batch.Keys, daily, totals, n)
  {
    assert batch - batch.Keys == map[];
    forall e: Entry, x: Metric ensures Sum(map[], e, x, n) == 0 { SumEmpty(e, x, n); }
  }

  lemma WriteOne(daily: Daily, totals: Totals, batch: Daily, todo: set<Key>, daily': Daily, totals': Totals, k: Key, n: Day)
    requires Wrote(daily, totals, batch, todo, daily', totals', n)
    requires k in todo && k in batch && k.day < n
    ensures Wrote(daily, totals, batch, todo - {k}, Upsert(daily', k, batch[k]),
      totals'[k.entry := Plus(TotalAt(totals', k.entry), batch[k])], n)
  {
    var done, d := batch - todo, batch[k];
    assert batch - (todo - {k}) == Upsert(done, k, d);
    AddOne(daily, done, daily', k, d);
    SumOne(totals, done, totals', k, d, n);
  }

  lemma AddOne(daily: Daily, done: Daily, daily': Daily, k: Key, d: Delta)
    requires Added(daily, done, daily') && k !in done
    ensures Added(daily, Upsert(done, k, d), Upsert(daily', k, d))
  {
  }

  lemma SumOne(totals: Totals, done: Daily, totals': Totals, k: Key, d: Delta, n: Day)
    requires Summed(totals, done, totals', n) && k.day < n
    ensures Summed(totals, Upsert(done, k, d), totals'[k.entry := Plus(TotalAt(totals', k.entry), d)], n)
  {
    forall e: Entry, x: Metric
      ensures Sum(Upsert(done, k, d), e, x, n) == Sum(done, e, x, n) + (if k.entry == e then Of(d, x) else 0)
    {
      SumUpsert(done, k, d, e, x, n);
    }
  }

  lemma {:induction false} SumEmpty(e: Entry, x: Metric, n: Day)
    ensures Sum(map[], e, x, n) == 0
  {
    if n > 0 { SumEmpty(e, x, n - 1); }
  }

  /** Amounts booked per entry, for the accounts that no table keeps. */
  type Ledger = (Entry, Metric) -> int

  ghost function Credited(l: Ledger, entry: Entry, d: Delta): Ledger {
    (e: Entry, x: Metric) => if e == entry then l(e, x) + Of(d, x) else l(e, x)
  }

  /** Books a whole batch. */
  ghost function Charged(l: Ledger, m: Daily, n: Day): Ledger {
    (e: Entry, x: Metric) => l(e, x) + Sum(m, e, x, n)
  }

  /** Everything reported for an entry is in the totals, still pending, or was lost with a failed flush; and
      the totals are the daily rows plus what was pruned. */
  ghost predicate Balanced(reported: Ledger, totals: Totals, pending: Daily, lost: Ledger, daily: Daily, pruned: Ledger,
    n: Day)
  {
    forall e: Entry, x: Metric ::
      && reported(e, x) == Of(TotalAt(totals, e), x) + Sum(pending, e, x, n) + lost(e, x)
      && Of(TotalAt(totals, e), x) == Sum(daily, e, x, n) + pruned(e, x)
  }

  lemma BatchLost(reported: Ledger, totals: Totals, batch: Daily, lost: Ledger, daily: Daily, pruned: Ledger, n: Day)
    requires Balanced(reported, totals, batch, lost, daily, pruned, n)
    ensures Balanced(reported, totals, map[], Charged(lost, batch, n), daily, pruned, n)
  {
    forall e: Entry, x: Metric ensures Sum(map[], e, x, n) == 0 { SumEmpty(e, x, n); }
  }

  lemma BatchCommitted(reported: Ledger, totals: Totals, batch: Daily, lost: Ledger, daily: Daily, pruned: Ledger,
    n: Day, daily': Daily, totals': Totals)
    requires Balanced(reported, totals, batch, lost, daily, pruned, n)
    requires Added(daily, batch, daily') && Summed(totals, batch, totals', n)
    ensures Balanced(reported, totals', map[], lost, daily', pruned, n)
  {
    forall e: Entry, x: Metric
      ensures Sum(map[], e, x, n) == 0
      ensures Sum(daily', e, x, n) == Sum(daily, e, x, n) + Sum(batch, e, x, n)
    {
      SumEmpty(e, x, n);
      SumAdded(daily, batch, daily', e, x, n);
    }
  }

  class Accumulator {
    var days: Daily
    var viewers: set<Visit>
    const enabled: bool

    var daily: Daily
    var totals: Totals
    var seen: set<Visit>

    ghost var reported: Ledger
    ghost var lost: Ledger
    ghost var pruned: Ledger
    ghost var horizon: Day

    ghost predicate Valid()
      reads this
    {
      && Within(days, horizon) && Within(daily, horizon)
      && Balanced(reported, totals, days, lost, daily, pruned, horizon)
    }

    constructor (enabled: bool)
      ensures Valid() && this.enabled == enabled && days == map[] && viewers == {}
      ensures forall e, x :: reported(e, x) == 0 && lost(e, x) == 0 && pruned(e, x) == 0
    {
      this.enabled := enabled;
      days, viewers := map[], {};
      daily, totals, seen := map[], map[], {};
      reported, lost, pruned := (_, _) => 0, (_, _) => 0, (_, _) => 0;
      horizon := 0;
    }

    /** Finds or creates the day's entry and adds to it; the only account that changes is what was reported. */
    method Add(k: Key, d: Delta)
      requires Valid()
      modifies this`days, this`reported, this`horizon
      ensures Valid() && days == Upsert(old(days), k, d)
      ensures reported == Credited(old(reported), k.entry, d)
    {
      ghost var h := if k.day < horizon then horizon else k.day + 1;
      ghost var before := days;
      if k !in days { days := days[k := Zero]; }
      days := days[k := Plus(days[k], d)];
      assert days == Upsert(before, k, d);
      forall e: Entry, x: Metric
        ensures Sum(days, e, x, h) == Sum(before, e, x, horizon) + (if k.entry == e then Of(d, x) else 0)
        ensures Sum(daily, e, x, h) == Sum(daily, e, x, horizon)
      {
        SumUpsert(before, k, d, e, x, h);
        SumBeyond(before, e, x, horizon, h);
        SumBeyond(daily, e, x, horizon, h);
      }
      reported := Credited(reported, k.entry, d);
      horizon := h;
    }

    method AddPlay(entry: Entry, viewer: Viewer, today: Day)
      requires Valid()
      modifies this`days, this`viewers, this`reported, this`horizon
      ensures Valid()
      ensures !enabled ==> days == old(days) && viewers == old(viewers) && reported == old(reported)
      ensures enabled ==> days == Upsert(old(days), Key(entry, today), Delta(1, 0, 0))
      ensures enabled ==> viewers == old(viewers) + (if viewer != "" then {Visit(entry, today, viewer)} else {})
      ensures enabled ==> reported == Credited(old(reported), entry, Delta(1, 0, 0))
    {
      if !enabled { return; }
      Add(Key(entry, today), Delta(1, 0, 0));
      if viewer != "" { viewers := viewers + {Visit(entry, today, viewer)}; }
    }

    method AddWatch(entry: Entry, seconds: int, today: Day)
      requires Valid()
      modifies this`days, this`reported, this`horizon
      ensures Valid()
      ensures !enabled || seconds <= 0 ==> days == old(days) && reported == old(reported)
      ensures enabled && seconds > 0 ==> days == Upsert(old(days), Key(entry, today), Delta(0, seconds, 0))
      ensures enabled && seconds > 0 ==> reported == Credited(old(reported), entry, Delta(0, seconds, 0))
    {
      if !enabled || seconds <= 0 { return; }
      Add(Key(entry, today), Delta(0, seconds, 0));
    }

    method AddBytes(entry: Entry, n: int, today: Day)
      requires Valid()
      modifies this`days, this`reported, this`horizon
      ensures Valid()
      ensures !enabled || n <= 0 ==> days == old(days) && reported == old(reported)
      ensures enabled && n > 0 ==> days == Upsert(old(days), Key(entry, today), Delta(0, 0, n))
      ensures enabled && n > 0 ==> reported == Credited(old(reported), entry, Delta(0, 0, n))
    {
      if !enabled || n <= 0 { return; }
      Add(Key(entry, today), Delta(0, 0, n));
    }

    /** Empties the accumulator and writes the batch in one transaction. `failAt` is the statement that fails,
        if any, counting from zero, with the commit as the last one. A failed transaction changes no table
        and loses exactly the batch; a committed one adds exactly the batch, whatever the iteration order. */
    method Flush(failAt: int) returns (ok: bool)
      requires Valid()
      modifies this
      ensures Valid()
      ensures enabled ==> days == map[] && viewers == {}
      ensures reported == old(reported) && pruned == old(pruned)
      ensures enabled && (old(days) != map[] || old(viewers) != {}) ==>
        (ok <==> !(0 <= failAt <= 2 * |old(days)| + |old(viewers)|))
      ensures !enabled || (old(days) == map[] && old(viewers) == {}) ==> ok
      ensures ok && enabled ==> Added(old(daily), old(days), daily) && seen == old(seen) + old(viewers) && lost == old(lost)
      ensures !ok || !enabled ==> daily == old(daily) && totals == old(totals) && seen == old(seen)
      ensures !enabled ==> days == old(days) && viewers == old(viewers) && lost == old(lost)
      ensures !ok ==> lost == Charged(old(lost), old(days), horizon)
    {
      if !enabled { return true; }
      var batch, visits := days, viewers;
      days, viewers := map[], {};
      if batch == map[] && visits == {} {
        assert Added(daily, batch, daily);
        return true;
      }
      ok := Store(batch, visits, failAt);
    }

    /** Runs the transaction of a batch that is no longer pending. */
    method Store(batch: Daily, visits: set<Visit>, failAt: int) returns (ok: bool)
      requires Within(batch, horizon) && Within(daily, horizon) && days == map[]
      requires Balanced(reported, totals, batch, lost, daily, pruned, horizon)
      modifies this`daily, this`totals, this`seen, this`lost
      ensures Valid()
      ensures ok <==> !(0 <= failAt <= 2 * |batch| + |visits|)
      ensures ok ==> Added(old(daily), batch, daily) && seen == old(seen) + visits && lost == old(lost)
      ensures !ok ==> daily == old(daily) && totals == old(totals) && seen == old(seen)
      ensures !ok ==> lost == Charged(old(lost), batch, horizon)
    {
      var daily', totals', seen';
      daily', totals', seen', ok := Transact(batch, visits, failAt);
      if ok {
        BatchCommitted(reported, totals, batch, lost, daily, pruned, horizon, daily', totals');
        daily, totals, seen := daily', totals', seen';
      } else {
        BatchLost(reported, totals, batch, lost, daily, pruned, horizon);
        lost := Charged(lost, batch, horizon);
      }
    }

    /** The transaction on the tables as it sees them: all statements, then the commit. */
    method Transact(batch: Daily, visits: set<Visit>, failAt: int)
      returns (daily': Daily, totals': Totals, seen': set<Visit>, ok: bool)
      requires Within(batch, horizon)
      ensures ok ==> Added(daily, batch, daily') && Summed(totals, batch, totals', horizon) && seen' == seen + visits
      ensures ok <==> !(0 <= failAt <= 2 * |batch| + |visits|)
    {
      var step;
      seen' := seen;
      daily', totals', step, ok := WriteDays(batch, failAt);
      if !ok { return; }
      var left := visits;
      while left != {}
        invariant left <= visits && seen' == seen + (visits - left)
        invariant step == 2 * |batch| + |visits| - |left| && !(0 <= failAt < step)
        decreases |left|
      {
        var v :| v in left;
        if step == failAt { ok := false; return; }
        seen' := seen' + {v};
        left := left - {v};
        step := step + 1;
      }
      ok := step != failAt;
    }

    method WriteDays(batch: Daily, failAt: int) returns (daily': Daily, totals': Totals, step: nat, ok: bool)
      requires Within(batch, horizon)
      ensures ok ==> Added(daily, batch, daily') && Summed(totals, batch, totals', horizon) && step == 2 * |batch|
      ensures ok <==> !(0 <= failAt < 2 * |batch|)
    {
      daily', totals', step, ok := daily, totals, 0, false;
      var todo := batch.Keys;
      WriteNone(daily, totals, batch, horizon);
      while todo != {}
        invariant todo <= batch.Keys && Wrote(daily, totals, batch, todo, daily', totals', horizon)
        invariant step == 2 * (|batch| - |todo|) && !ok && !(0 <= failAt < step)
        decreases |todo|
      {
        var k :| k in todo;
        WriteOne(daily, totals, batch, todo, daily', totals', k, horizon);
        if step == failAt { return; }
        daily' := Upsert(daily', k, batch[k]);
        if step + 1 == failAt { return; }
        totals' := totals'[k.entry := Plus(TotalAt(totals', k.entry), batch[k])];
        todo := todo - {k};
        step := step + 2;
      }
      WriteAll(daily, totals, batch, daily', totals', horizon);
      ok := true;
    }

    /** Removes daily rows, then visits, before the cutoff; totals survive. */
    method Prune(retention: int, cutoff: Day, failAt: int) returns (ok: bool)
      requires Valid()
      modifies this`daily, this`seen, this`pruned
      ensures Valid()
      ensures daily == if retention <= 0 || failAt == 0 then old(daily) else Kept(old(daily), cutoff)
      ensures ok <==> retention <= 0 || (failAt != 0 && failAt != 1)
      ensures !ok || retention <= 0 ==> seen == old(seen)
      ensures ok && retention > 0 ==> seen == set v | v in old(seen) && v.day >= cutoff
      ensures pruned == if retention <= 0 || failAt == 0 then old(pruned) else Charged(old(pruned), old(daily), cutoff)
    {
      if retention <= 0 { return true; }
      if failAt == 0 { return false; }
      forall e: Entry, x: Metric
        ensures Sum(daily, e, x, horizon) == Sum(Kept(daily, cutoff), e, x, horizon) + Sum(daily, e, x, cutoff)
      {
        SumKept(daily, cutoff, e, x, horizon);
        if cutoff > horizon { SumBeyond(daily, e, x, horizon, cutoff); }
      }
      pruned := Charged(pruned, daily, cutoff);
      daily := Kept(daily, cutoff);
      if failAt == 1 { return false; }
      seen := set v | v in seen && v.day >= cutoff;
      return true;
    }
  }
}
