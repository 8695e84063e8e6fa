/** From a probed source to a playable entry: which flavors `Probe` queues, what one
    `Transcode` does to its flavor and its entry, and when the entry is `ready` or `failed`
    (internal/jobs/jobs.go:434-640, 694-747). The state is one entry with its `entry_flavors`
    rows; store and database calls succeed and the entry is not deleted meanwhile. */
module Pipeline {
  import opened Wrappers
  import Selection

  datatype FlavorStatus = Pending | Transcoding | Done | Failed | Skipped

  datatype EntryStatus = Uploading | Probing | InTranscode | Ready | Broken

  datatype Flavor = Flavor(height: int, enabled: bool)

  /** `Renditions` lists the flavor ids of the master playlist in order. */
  datatype Master = NoMaster | Source | Renditions(ids: seq<nat>)

  type Rows = map<nat, FlavorStatus>
  type Catalog = map<nat, Flavor>

  datatype Entry = Entry(status: EntryStatus, rows: Rows, master: Master)

  /* ---- Ids in ascending order ---- */

  lemma {:induction false} LeastOf(s: set<nat>) returns (m: nat)
    requires s != {}
    ensures m in s && forall k :: k in s ==> m <= k
  {
    m :| m in s;
    var rest := s - {m};
    assert forall k :: k in s ==> k == m || k in rest;
    if rest != {} {
      var r := LeastOf(rest);
      if r < m { m := r; }
    }
  }

  lemma HasLeast(s: set<nat>)
    requires s != {}
    ensures exists m :: m in s && forall k :: k in s ==> m <= k
  {
    var m := LeastOf(s);
  }

  /** The elements of `s`, `ORDER BY id`. */
  ghost function Ordered(s: set<nat>): seq<nat> {
    if s == {} then []
    else
      HasLeast(s);
      var m :| m in s && forall k :: k in s ==> m <= k;
      [m] + Ordered(s - {m})
  }

  lemma {:induction false} OrderedMembers(s: set<nat>)
    ensures Selection.Ascending(Ordered(s))
    ensures forall k :: k in Ordered(s) <==> k in s
  {
    if s != {} {
      var m := LeastOf(s);
      var rest := s - {m};
      OrderedFrom(s, m);
      OrderedMembers(rest);
      assert forall k :: k in s <==> k == m || k in rest;
      assert forall i :: 0 <= i < |Ordered(rest)| ==> Ordered(rest)[i] in rest;
    }
  }

  lemma OrderedFrom(s: set<nat>, m: nat)
    requires m in s && forall k :: k in s ==> m <= k
    ensures Ordered(s) == [m] + Ordered(s - {m})
  {
  }

  lemma {:induction false} AscendingUnique(a: seq<nat>, b: seq<nat>)
    requires Selection.Ascending(a) && Selection.Ascending(b)
    requires forall k :: k in a <==> k in b
    ensures a == b
    decreases |a| + |b|, 1
  {
    if a != [] { SameFirst(a, b); } else if b != [] { SameFirst(b, a); }
  }

  lemma {:induction false} SameFirst(a: seq<nat>, b: seq<nat>)
    requires Selection.Ascending(a) && Selection.Ascending(b) && a != []
    requires forall k :: k in a <==> k in b
    ensures a == b
    decreases |a| + |b|, 0
  {
    assert a[0] in a && a[0] in b;
    assert b[0] in b && b[0] in a;
    var x, y := a[0], b[0];
    assert x <= y by { var i :| 0 <= i < |a| && a[i] == y; }
    assert y <= x by { var i :| 0 <= i < |b| && b[i] == x; }
    assert a == [x] + a[1..] && b == [x] + b[1..];
    forall k
      ensures k in a[1..] <==> k in b[1..]
    {
      assert x !in a[1..] && x !in b[1..];
      assert k in a <==> k == x || k in a[1..];
      assert k in b <==> k == x || k in b[1..];
    }
    AscendingUnique(a[1..], b[1..]);
  }

  /* ---- One transcode ---- */

  predicate Unfinished(status: FlavorStatus) {
    status.Pending? || status.Transcoding?
  }

  ghost function Remaining(rows: Rows): set<nat> {
    set f | f in rows && Unfinished(rows[f])
  }

  ghost function Finished(rows: Rows): set<nat> {
    set f | f in rows && rows[f].Done?
  }

  /** The done flavors that still exist, in flavor-id order. */
  ghost function MasterOf(rows: Rows, catalog: Catalog): seq<nat> {
    Ordered(set f | f in Finished(rows) && f in catalog)
  }

  /** `finalizeTranscode`. */
  ghost function Finalized(e: Entry, catalog: Catalog): Entry {
    if Remaining(e.rows) != {} then e
    else if Finished(e.rows) == {} then e.(status := Broken)
    else e.(status := Ready, master := Renditions(MasterOf(e.rows, catalog)))
  }

  function Marked(rows: Rows, f: nat, status: FlavorStatus): Rows {
    if f in rows then rows[f := status] else rows
  }

  /** `Transcode` of flavor `f`; `encoded` says that ffmpeg and the upload of its output succeeded. */
  ghost function Transcoded(e: Entry, catalog: Catalog, f: nat, encoded: bool): Entry {
    Finalized(e.(rows := Marked(e.rows, f, if f in catalog && encoded then Done else Failed)), catalog)
  }

  /* ---- Whole runs ---- */

  /** One handler call that returned: the flavor and whether its encode succeeded. */
  datatype Attempt = Attempt(flavor: nat, encoded: bool)

  ghost function Played(e: Entry, catalog: Catalog, run: seq<Attempt>): Entry {
    if run == [] then e
    else
      var last := run[|run| - 1];
      Transcoded(Played(e, catalog, run[..|run| - 1]), catalog, last.flavor, last.encoded)
  }

  ghost predicate Covers(run: seq<Attempt>, f: nat) {
    exists a :: a in run && a.flavor == f
  }

  /** The outcome of the latest attempt at `f`, or its status before the run. */
  ghost function Latest(rows: Rows, catalog: Catalog, run: seq<Attempt>, f: nat): FlavorStatus
    requires f in rows
  {
    if run == [] then rows[f]
    else
      var last := run[|run| - 1];
      if last.flavor == f then (if f in catalog && last.encoded then Done else Failed)
      else Latest(rows, catalog, run[..|run| - 1], f)
  }

  lemma {:induction false} PlayedRows(e: Entry, catalog: Catalog, run: seq<Attempt>)
    ensures Played(e, catalog, run).rows.Keys == e.rows.Keys
    ensures forall f :: f in e.rows ==> Played(e, catalog, run).rows[f] == Latest(e.rows, catalog, run, f)
  {
    if run != [] {
      PlayedRows(e, catalog, run[..|run| - 1]);
    }
  }

  lemma {:induction false} LatestFinished(rows: Rows, catalog: Catalog, run: seq<Attempt>, f: nat)
    requires f in rows
    ensures Covers(run, f) ==> !Unfinished(Latest(rows, catalog, run, f))
    ensures !Covers(run, f) ==> Latest(rows, catalog, run, f) == rows[f]
  {
    if run != [] {
      var front, last := run[..|run| - 1], run[|run| - 1];
      LatestFinished(rows, catalog, front, f);
      assert run == front + [last];
      assert Covers(front, f) ==> Covers(run, f);
      assert last in run && (last.flavor == f ==> Covers(run, f));
      if Covers(run, f) && last.flavor != f {
        var a :| a in run && a.flavor == f;
        assert a in front;
      }
    }
  }

  /** The entry leaves `transcoding` only once every unfinished flavor has been attempted. */
  lemma {:induction false} StaysTranscoding(e: Entry, catalog: Catalog, run: seq<Attempt>, f: nat)
    requires f in Remaining(e.rows) && !Covers(run, f)
    ensures Played(e, catalog, run).status == e.status && Played(e, catalog, run).master == e.master
  {
    if run != [] {
      var front, last := run[..|run| - 1], run[|run| - 1];
      assert run == front + [last];
      assert !Covers(front, f) && last in run && last.flavor != f;
      StaysTranscoding(e, catalog, front, f);
      PlayedRows(e, catalog, run);
      LatestFinished(e.rows, catalog, run, f);
      var before := Played(e, catalog, front);
      assert f in Remaining(Marked(before.rows, last.flavor, if last.flavor in catalog && last.encoded then Done else Failed));
    }
  }

  /** What the entry is once every unfinished flavor has been attempted at least once, in any order,
      with any outcomes and any number of repeats: ready exactly when some flavor is done, failed
      otherwise, and a ready entry's master lists exactly the done flavors in flavor-id order. */
  lemma AttemptsDecideEntry(e: Entry, catalog: Catalog, run: seq<Attempt>)
    requires run != [] && forall f :: f in Remaining(e.rows) ==> Covers(run, f)
    ensures var t := Played(e, catalog, run);
      && t.status == (if exists f :: f in e.rows && Latest(e.rows, catalog, run, f).Done? then Ready else Broken)
      && (t.status == Ready ==> t.master == Renditions(MasterOf(t.rows, catalog)))
    ensures var t := Played(e, catalog, run);
      var ids := MasterOf(t.rows, catalog);
      && Selection.Ascending(ids)
      && forall f :: f in ids <==> f in catalog && f in e.rows && Latest(e.rows, catalog, run, f).Done?
  {
    PlayedRows(e, catalog, run);
    OrderedMembers(set f | f in Finished(Played(e, catalog, run).rows) && f in catalog);
    NothingRemains(e, catalog, run);
    var t := Played(e, catalog, run);
    PlayedIsFinalized(e, catalog, run);
    assert forall f :: f in Finished(t.rows) <==> f in e.rows && Latest(e.rows, catalog, run, f).Done?;
    assert (exists f :: f in e.rows && Latest(e.rows, catalog, run, f).Done?) <==> (exists f :: f in Finished(t.rows));
  }

  lemma NothingRemains(e: Entry, catalog: Catalog, run: seq<Attempt>)
    requires forall f :: f in Remaining(e.rows) ==> Covers(run, f)
    ensures Remaining(Played(e, catalog, run).rows) == {}
  {
    PlayedRows(e, catalog, run);
    forall f | f in e.rows
      ensures !Unfinished(Latest(e.rows, catalog, run, f))
    {
      LatestFinished(e.rows, catalog, run, f);
      if Unfinished(e.rows[f]) { assert f in Remaining(e.rows); }
    }
  }

  lemma PlayedIsFinalized(e: Entry, catalog: Catalog, run: seq<Attempt>)
    requires run != []
    ensures var t := Played(e, catalog, run);
      exists before: Entry :: before.rows == t.rows && t == Finalized(before, catalog)
  {
    var last := run[|run| - 1];
    var before := Played(e, catalog, run[..|run| - 1]);
    var marked := before.(rows := Marked(before.rows, last.flavor, if last.flavor in catalog && last.encoded then Done else Failed));
    assert Played(e, catalog, run) == Finalized(marked, catalog);
  }

  ghost predicate OncePerFlavor(run: seq<Attempt>) {
    forall i, j :: 0 <= i < j < |run| ==> run[i].flavor != run[j].flavor
  }

  lemma {:induction false} LatestOfOnly(rows: Rows, catalog: Catalog, run: seq<Attempt>, a: Attempt)
    requires OncePerFlavor(run) && a in run && a.flavor in rows
    ensures Latest(rows, catalog, run, a.flavor) == if a.flavor in catalog && a.encoded then Done else Failed
  {
    var front, last := run[..|run| - 1], run[|run| - 1];
    assert run == front + [last];
    if a != last {
      assert a in front;
      LatestOfOnly(rows, catalog, front, a);
    }
  }

  /** The order in which an entry's flavors are processed does not matter. */
  lemma OrderDoesNotMatter(e: Entry, catalog: Catalog, run: seq<Attempt>, other: seq<Attempt>)
    requires OncePerFlavor(run) && OncePerFlavor(other) && run != []
    requires forall a :: a in run <==> a in other
    requires forall f :: f in Remaining(e.rows) ==> Covers(run, f)
    ensures Played(e, catalog, run).rows == Played(e, catalog, other).rows
    ensures Played(e, catalog, run).status == Played(e, catalog, other).status
    ensures Played(e, catalog, run).status == Ready ==> Played(e, catalog, run).master == Played(e, catalog, other).master
  {
    forall f | f in e.rows
      ensures Latest(e.rows, catalog, run, f) == Latest(e.rows, catalog, other, f)
    {
      SameLatest(e.rows, catalog, run, other, f);
    }
    forall f | Covers(run, f)
      ensures Covers(other, f)
    {
      var a :| a in run && a.flavor == f;
      assert a in other;
    }
    PlayedRows(e, catalog, run);
    PlayedRows(e, catalog, other);
    assert run[0] in run && run[0] in other;
    AttemptsDecideEntry(e, catalog, run);
    AttemptsDecideEntry(e, catalog, other);
  }

  lemma SameLatest(rows: Rows, catalog: Catalog, run: seq<Attempt>, other: seq<Attempt>, f: nat)
    requires OncePerFlavor(run) && OncePerFlavor(other) && f in rows
    requires forall a :: a in run <==> a in other
    ensures Latest(rows, catalog, run, f) == Latest(rows, catalog, other, f)
  {
    if Covers(run, f) {
      var a :| a in run && a.flavor == f;
      LatestOfOnly(rows, catalog, run, a);
      LatestOfOnly(rows, catalog, other, a);
    } else {
      assert forall a :: a in other && a.flavor == f ==> a in run;
      LatestFinished(rows, catalog, run, f);
      LatestFinished(rows, catalog, other, f);
    }
  }

  /* ---- Runs with calls that never attempt their flavor ---- */

  /** How far a handler call gets: the source cannot be fetched, the wait for the semaphore is cancelled, or the
      flavor is attempted. */
  datatype Outcome = NoSource | Aborted | Attempted(encoded: bool)

  /** How far a call has come when its entry is deleted or its context ends: before the flavor is read, before the check
      that precedes the encoder, while the encoder runs, or after the check that follows it. */
  datatype Stage = Reading | Starting | Encoding | Publishing

  /** The entry is deleted together with its rows, or the context of the job ends (an abort by the user, the time limit,
      a shutdown) and no later statement of the call takes effect. */
  datatype Loss = Deletion(stage: Stage) | Interrupt(stage: Stage)

  /** Whether an attempt hit by a loss reports success all the same: it does not notice between the two checks around
      the encoder unless the encoder itself succeeds, and `finalizeTranscode` takes an entry it cannot read for deleted. */
  predicate Unnoticed(loss: Loss, known: bool, encoded: bool) {
    match loss.stage
    case Reading => loss.Interrupt? || !known
    case Starting => !known
    case Encoding => !known || !encoded
    case Publishing => true
  }

  /** The rows an attempt hit by a loss leaves behind: none, or the mark of a flavor being transcoded. */
  function LeftBehind(rows: Rows, f: nat, known: bool, loss: Loss): Rows {
    if loss.Deletion? then map[]
    else if known && !loss.stage.Reading? then Marked(rows, f, Transcoding)
    else rows
  }

  datatype Call = Call(flavor: nat, outcome: Outcome)

  ghost function Called(e: Entry, catalog: Catalog, c: Call): Entry {
    match c.outcome
    case NoSource => e.(status := Broken)
    case Aborted => e
    case Attempted(encoded) => Transcoded(e, catalog, c.flavor, encoded)
  }

  ghost function AllCalled(e: Entry, catalog: Catalog, calls: seq<Call>): Entry {
    if calls == [] then e
    else Called(AllCalled(e, catalog, calls[..|calls| - 1]), catalog, calls[|calls| - 1])
  }

  function AttemptsOf(calls: seq<Call>): seq<Attempt> {
    if calls == [] then []
    else
      var front, c := AttemptsOf(calls[..|calls| - 1]), calls[|calls| - 1];
      if c.outcome.Attempted? then front + [Attempt(c.flavor, c.outcome.encoded)] else front
  }

  /** The outcome of the last call that was not an aborted wait, if any. */
  function LastOutcome(calls: seq<Call>): Option<Outcome> {
    if calls == [] then None
    else if calls[|calls| - 1].outcome.Aborted? then LastOutcome(calls[..|calls| - 1])
    else Some(calls[|calls| - 1].outcome)
  }

  predicate LacksSource(calls: seq<Call>) {
    exists c :: c in calls && c.outcome.NoSource?
  }

  /** The flavor rows are those of the attempts alone. */
  lemma {:induction false} MixedRows(e: Entry, catalog: Catalog, calls: seq<Call>)
    ensures AllCalled(e, catalog, calls).rows == Played(e, catalog, AttemptsOf(calls)).rows
  {
    if calls != [] {
      var front, c := calls[..|calls| - 1], calls[|calls| - 1];
      MixedRows(e, catalog, front);
      if c.outcome.Attempted? {
        OneMoreAttempt(e, catalog, AttemptsOf(front), Attempt(c.flavor, c.outcome.encoded));
        RemainingShrinks(AllCalled(e, catalog, front), catalog, c.flavor, c.outcome.encoded);
        RemainingShrinks(Played(e, catalog, AttemptsOf(front)), catalog, c.flavor, c.outcome.encoded);
      }
    }
  }

  /** What one more call adds to the two facts that decide an entry. */
  lemma LastCall(calls: seq<Call>, c: Call)
    ensures LacksSource(calls + [c]) <==> LacksSource(calls) || c.outcome.NoSource?
    ensures LastOutcome(calls + [c]) == if c.outcome.Aborted? then LastOutcome(calls) else Some(c.outcome)
  {
    assert (calls + [c])[..|calls|] == calls;
    assert forall d :: d in calls + [c] <==> d in calls || d == c;
  }

  /** Any mix of attempts, missing sources and aborted waits, over any flavors with repeats. While a flavor remains, the
      master is untouched and the entry has failed exactly if a source was missing. Once none remains, the last call that
      was not aborted decides: an attempt makes the entry ready, with the master of the done flavors, or failed; a
      missing source makes even a finished entry failed. */
  lemma {:induction false} MixedCalls(e: Entry, catalog: Catalog, calls: seq<Call>)
    ensures var t := AllCalled(e, catalog, calls);
      && (Remaining(t.rows) != {} ==>
            t.master == e.master && t.status == (if LacksSource(calls) then Broken else e.status))
      && (Remaining(t.rows) == {} ==>
            match LastOutcome(calls)
            case None => t == e
            case Some(NoSource) => t.status == Broken
            case Some(Aborted) => false
            case Some(Attempted(_)) =>
              && t.status == (if Finished(t.rows) != {} then Ready else Broken)
              && (t.status == Ready ==> t.master == Renditions(MasterOf(t.rows, catalog))))
  {
    if calls != [] {
      var front, c := calls[..|calls| - 1], calls[|calls| - 1];
      assert calls == front + [c];
      MixedCalls(e, catalog, front);
      LastCall(front, c);
      if c.outcome.Attempted? {
        RemainingShrinks(AllCalled(e, catalog, front), catalog, c.flavor, c.outcome.encoded);
      }
    }
  }

  lemma OneMoreAttempt(e: Entry, catalog: Catalog, run: seq<Attempt>, a: Attempt)
    ensures Played(e, catalog, run + [a]) == Transcoded(Played(e, catalog, run), catalog, a.flavor, a.encoded)
  {
    assert (run + [a])[..|run|] == run;
  }

  /** Finalizing reads the rows only, and an attempt never makes a flavor unfinished. */
  lemma RemainingShrinks(e: Entry, catalog: Catalog, f: nat, encoded: bool)
    ensures Remaining(Transcoded(e, catalog, f, encoded).rows) == Remaining(e.rows) - {f}
    ensures Transcoded(e, catalog, f, encoded).rows == Marked(e.rows, f, if f in catalog && encoded then Done else Failed)
  {
  }

  /* ---- Probe ---- */

  /** With no rows every enabled flavor is wanted, otherwise only those that have a row. */
  predicate Ticked(rows: Rows, f: nat) {
    rows == map[] || f in rows
  }

  /** `enabled` lists the enabled flavors of the catalog. */
  ghost predicate ListsEnabled(enabled: seq<nat>, catalog: Catalog) {
    forall f :: f in enabled <==> f in catalog && catalog[f].enabled
  }

  /** The flavors `Probe` queues, in catalog order: enabled, ticked and no taller than the source. */
  ghost function Queued(rows: Rows, catalog: Catalog, enabled: seq<nat>, height: int): seq<nat>
    requires forall f :: f in enabled ==> f in catalog
  {
    if enabled == [] then []
    else
      var f := enabled[|enabled| - 1];
      Queued(rows, catalog, enabled[..|enabled| - 1], height)
        + if Ticked(rows, f) && catalog[f].height <= height then [f] else []
  }

  ghost function ProbedRows(rows: Rows, catalog: Catalog, enabled: seq<nat>, height: int): Rows
    requires forall f :: f in enabled ==> f in catalog
  {
    rows + map f | f in enabled && Ticked(rows, f) :: if catalog[f].height > height then Skipped else Pending
  }

  ghost function Probed(e: Entry, catalog: Catalog, enabled: seq<nat>, height: int): Entry
    requires forall f :: f in enabled ==> f in catalog
  {
    var rows := ProbedRows(e.rows, catalog, enabled, height);
    if Queued(e.rows, catalog, enabled, height) == [] then Entry(Ready, rows, Source)
    else Entry(InTranscode, rows, e.master)
  }

  lemma {:induction false} QueuedMembers(rows: Rows, catalog: Catalog, enabled: seq<nat>, height: int, f: nat)
    requires forall f :: f in enabled ==> f in catalog
    ensures f in Queued(rows, catalog, enabled, height) <==>
      f in enabled && Ticked(rows, f) && catalog[f].height <= height
  {
    if enabled != [] {
      var front, last := enabled[..|enabled| - 1], enabled[|enabled| - 1];
      assert enabled == front + [last];
      QueuedMembers(rows, catalog, front, height, f);
    }
  }

  /** What probing makes of an entry, from its rows, the catalog and the height of the source alone. `wanted` are the
      enabled flavors, or those of them that have a row if any flavor has one. */
  lemma ProbeOutcome(e: Entry, catalog: Catalog, enabled: seq<nat>, height: int, wanted: set<nat>)
    requires ListsEnabled(enabled, catalog)
    requires wanted == set f | f in catalog && catalog[f].enabled && (e.rows == map[] || f in e.rows)
    ensures var p := Probed(e, catalog, enabled, height);
      && p.rows.Keys == e.rows.Keys + wanted
      && (forall f :: f in wanted ==> p.rows[f] == (if catalog[f].height > height then Skipped else Pending))
      && (forall f :: f in e.rows && f !in wanted ==> p.rows[f] == e.rows[f])
      && (if forall f :: f in wanted ==> catalog[f].height > height
          then p.status == Ready && p.master == Source && Queued(e.rows, catalog, enabled, height) == []
          else p.status == InTranscode && p.master == e.master && Queued(e.rows, catalog, enabled, height) != [])
    ensures forall f :: f in Queued(e.rows, catalog, enabled, height) <==> f in wanted && catalog[f].height <= height
  {
    var queued := Queued(e.rows, catalog, enabled, height);
    forall f
      ensures f in queued <==> f in wanted && catalog[f].height <= height
    {
      QueuedMembers(e.rows, catalog, enabled, height, f);
    }
    if queued != [] { assert queued[0] in queued; }
  }

  /** Every flavor is queued once. */
  lemma {:induction false} QueuedOnce(rows: Rows, catalog: Catalog, enabled: seq<nat>, height: int)
    requires forall f :: f in enabled ==> f in catalog
    requires forall i, j :: 0 <= i < j < |enabled| ==> enabled[i] != enabled[j]
    ensures var queued := Queued(rows, catalog, enabled, height);
      forall i, j :: 0 <= i < j < |queued| ==> queued[i] != queued[j]
  {
    if enabled != [] {
      var front, last := enabled[..|enabled| - 1], enabled[|enabled| - 1];
      QueuedOnce(rows, catalog, front, height);
      QueuedMembers(rows, catalog, front, height, last);
    }
  }

  /** Whether the queued transcodes can finish the entry at all: when they have all been attempted the
      entry has left `transcoding` exactly if no row that was unfinished before the probe belongs to
      a flavor that is not enabled. Such a row stays unfinished and no job is queued for it. */
  lemma ProbeThenTranscode(e: Entry, catalog: Catalog, enabled: seq<nat>, height: int, run: seq<Attempt>)
    requires ListsEnabled(enabled, catalog)
    requires Queued(e.rows, catalog, enabled, height) != []
    requires forall f :: f in Queued(e.rows, catalog, enabled, height) <==> Covers(run, f)
    ensures var t := Played(Probed(e, catalog, enabled, height), catalog, run);
      t.status != InTranscode <==> forall f :: f in Remaining(e.rows) ==> f in catalog && catalog[f].enabled
  {
    var p := Probed(e, catalog, enabled, height);
    var queued := Queued(e.rows, catalog, enabled, height);
    assert queued[0] in queued && Covers(run, queued[0]);
    assert run != [];
    forall f
      ensures f in Remaining(p.rows) <==> f in queued || (f in Remaining(e.rows) && f !in enabled)
    {
      QueuedMembers(e.rows, catalog, enabled, height, f);
    }
    if f :| f in Remaining(e.rows) && f !in enabled {
      QueuedMembers(e.rows, catalog, enabled, height, f);
      StaysTranscoding(p, catalog, run, f);
    } else {
      AttemptsDecideEntry(p, catalog, run);
    }
  }

  /** An entry ticked for flavors 1 and 2, where 2 was disabled before the probe ran. */
  lemma DisabledFlavorStrandsEntry()
    ensures var e := Entry(Probing, map[1 := Pending, 2 := Pending], NoMaster);
      var catalog := map[1 := Flavor(360, true), 2 := Flavor(720, false)];
      && Queued(e.rows, catalog, [1], 1080) == [1]
      && Played(Probed(e, catalog, [1], 1080), catalog, [Attempt(1, true)]).status == InTranscode
  {
    var e := Entry(Probing, map[1 := Pending, 2 := Pending], NoMaster);
    var catalog := map[1 := Flavor(360, true), 2 := Flavor(720, false)];
    assert [1][..0] == [];
    assert Queued(e.rows, catalog, [1], 1080) == [1];
    assert !Covers([Attempt(1, true)], 2);
    assert 2 in Remaining(Probed(e, catalog, [1], 1080).rows);
    StaysTranscoding(Probed(e, catalog, [1], 1080), catalog, [Attempt(1, true)], 2);
  }

  /* ---- The handlers ---- */

  /** The part of an id list that `buildMaster` keeps. */
  ghost function Kept(rows: Rows, catalog: Catalog, ids: seq<nat>): seq<nat> {
    if ids == [] then []
    else
      var f := ids[|ids| - 1];
      Kept(rows, catalog, ids[..|ids| - 1]) + if f in Finished(rows) && f in catalog then [f] else []
  }

  lemma {:induction false} KeptMembers(rows: Rows, catalog: Catalog, ids: seq<nat>)
    requires Selection.Ascending(ids)
    ensures Selection.Ascending(Kept(rows, catalog, ids))
    ensures forall f :: f in Kept(rows, catalog, ids) <==> f in ids && f in Finished(rows) && f in catalog
  {
    if ids != [] {
      var front, f := ids[..|ids| - 1], ids[|ids| - 1];
      KeptMembers(rows, catalog, front);
      assert ids == front + [f];
      var kept := Kept(rows, catalog, front);
      assert forall k :: 0 <= k < |kept| ==> kept[k] in kept && kept[k] in front;
    }
  }

  /** `SELECT flavor_id FROM entry_flavors ORDER BY flavor_id`. */
  method InOrder(s: set<nat>) returns (ids: seq<nat>)
    ensures ids == Ordered(s)
  {
    ids := [];
    var rest := s;
    while rest != {}
      invariant ids + Ordered(rest) == Ordered(s)
      decreases rest
    {
      HasLeast(rest);
      var m :| m in rest && forall k :: k in rest ==> m <= k;
      OrderedFrom(rest, m);
      ids := ids + [m];
      rest := rest - {m};
    }
  }

  /** The loop of `buildMaster` over the entry's flavor rows. */
  method KeepDone(rows: Rows, catalog: Catalog, ids: seq<nat>) returns (renditions: seq<nat>)
    requires forall f :: f in ids ==> f in rows
    ensures renditions == Kept(rows, catalog, ids)
  {
    renditions := [];
    for i := 0 to |ids|
      invariant renditions == Kept(rows, catalog, ids[..i])
    {
      var f := ids[i];
      assert f in ids && ids[..i+1] == ids[..i] + [f] && ids[..i+1][..i] == ids[..i];
      if !rows[f].Done? { continue; }
      if f !in catalog { continue; }
      renditions := renditions + [f];
    }
    assert ids[..|ids|] == ids;
  }

  class Runner {
    var status: EntryStatus
    var rows: Rows
    var master: Master
    var catalog: Catalog
    var jobs: seq<nat>
    var deleted: bool

    ghost function View(): Entry
      reads this
    {
      Entry(status, rows, master)
    }

    constructor (status: EntryStatus, rows: Rows, catalog: Catalog)
      ensures View() == Entry(status, rows, NoMaster) && this.catalog == catalog && jobs == [] && !deleted
    {
      this.status, this.rows, this.master := status, rows, NoMaster;
      this.catalog, this.jobs, this.deleted := catalog, [], false;
    }

    method BuildMaster()
      modifies this`master
      ensures master == Renditions(MasterOf(rows, catalog))
    {
      var ids := InOrder(rows.Keys);
      OrderedMembers(rows.Keys);
      OrderedMembers(set f | f in Finished(rows) && f in catalog);
      var renditions := KeepDone(rows, catalog, ids);
      KeptMembers(rows, catalog, ids);
      AscendingUnique(renditions, MasterOf(rows, catalog));
      master := Renditions(renditions);
    }

    method CountWhere(done: bool) returns (n: nat)
      ensures n == 0 <==> (if done then Finished(rows) else Remaining(rows)) == {}
    {
      var matching := set f | f in rows && if done then rows[f].Done? else Unfinished(rows[f]);
      n := |matching|;
      assert matching == if done then Finished(rows) else Remaining(rows);
    }

    /** False when every flavor failed, which the handler reports as an error. An entry that cannot be read, because it
        is gone or the context has ended, counts as deleted. */
    method FinalizeTranscode(live: bool) returns (ok: bool)
      modifies this`status, this`master
      ensures View() == if deleted || !live then old(View()) else Finalized(old(View()), catalog)
      ensures ok <==> deleted || !live || Remaining(rows) != {} || Finished(rows) != {}
    {
      if deleted || !live { return true; }
      var remaining := CountWhere(false);
      if remaining > 0 { return true; }
      var done := CountWhere(true);
      if done == 0 {
        status := Broken;
        return false;
      }
      BuildMaster();
      status := Ready;
      return true;
    }

    /** Sets the status of an existing row and of no other; what is left to do changes by that flavor alone. */
    method MarkFlavor(f: nat, s: FlavorStatus)
      modifies this`rows
      ensures rows == Marked(old(rows), f, s)
      ensures rows.Keys == old(rows).Keys && (f in rows ==> rows[f] == s)
      ensures forall g :: g in rows && g != f ==> rows[g] == old(rows)[g]
      ensures Remaining(rows) == if f in rows && Unfinished(s) then Remaining(old(rows)) + {f} else Remaining(old(rows)) - {f}
      ensures Finished(rows) == if f in rows && s.Done? then Finished(old(rows)) + {f} else Finished(old(rows)) - {f}
    {
      if f in rows { rows := rows[f := s]; }
    }

    /** The loss, if there is one, strikes when it is due. */
    method Strike(loss: Option<Loss>, due: bool) returns (struck: bool)
      modifies this`rows, this`deleted
      ensures struck <==> loss.Some? && due
      ensures struck && loss.value.Deletion? ==> deleted && rows == map[]
      ensures !(struck && loss.value.Deletion?) ==> deleted == old(deleted) && rows == old(rows)
    {
      struck := loss.Some? && due;
      if struck && loss.value.Deletion? { rows, deleted := map[], true; }
    }

    /** One handler call. Without a local copy of the source the entry fails as a whole and its rows stay as they
        are; an aborted wait for the semaphore changes nothing; otherwise the flavor is attempted. */
    method Transcode(f: nat, outcome: Outcome, loss: Option<Loss>) returns (ok: bool)
      modifies this`rows, this`status, this`master, this`deleted
      ensures old(deleted) ==> View() == old(View()) && deleted && !ok
      ensures !old(deleted) ==> (deleted <==> loss.Some? && loss.value.Deletion?)
      ensures !old(deleted) && loss.None? ==> View() == match outcome
        case NoSource => old(View()).(status := Broken)
        case Aborted => old(View())
        case Attempted(encoded) => Transcoded(old(View()), catalog, f, encoded)
      ensures !old(deleted) && loss.Some? ==> status == old(status) && master == old(master)
      ensures !old(deleted) && loss.Some? && loss.value.Deletion? ==> rows == map[]
      ensures !old(deleted) && loss.Some? && loss.value.Interrupt? ==>
        rows == (if outcome.Attempted? && f in catalog && f in old(rows) && !loss.value.stage.Reading?
                 then old(rows)[f := Transcoding] else old(rows))
      ensures !old(deleted) && loss.None? ==> (ok <==> outcome.Attempted? && (Remaining(rows) != {} || Finished(rows) != {}))
      ensures !old(deleted) && loss.Some? ==> (ok <==> outcome.Attempted? && match loss.value.stage
        case Reading => loss.value.Interrupt? || f !in catalog
        case Starting => f !in catalog
        case Encoding => f !in catalog || !outcome.encoded
        case Publishing => true)
    {
      if deleted { return false; }
      if outcome.Attempted? {
        ok := AttemptFlavor(f, outcome.encoded, loss);
        return;
      }
      var lost := Strike(loss, true);
      if outcome.NoSource? && !lost { status := Broken; }
      return false;
    }

    /** The part of `Transcode` that follows the semaphore. */
    method AttemptFlavor(f: nat, encoded: bool, loss: Option<Loss>) returns (ok: bool)
      requires !deleted
      modifies this`rows, this`status, this`master, this`deleted
      ensures deleted <==> loss.Some? && loss.value.Deletion?
      ensures View() == match loss
        case None => Transcoded(old(View()), catalog, f, encoded)
        case Some(l) => old(View()).(rows := LeftBehind(old(rows), f, f in catalog, l))
      ensures ok <==> match loss
        case None => Remaining(rows) != {} || Finished(rows) != {}
        case Some(l) => Unnoticed(l, f in catalog, encoded)
    {
      var lost := Strike(loss, loss.Some? && loss.value.stage.Reading?);
      if f in catalog && !(lost && loss.value.Interrupt?) {
        ok := EncodeFlavor(f, encoded, loss);
      } else {
        ok := Conclude(f, Failed, loss);
      }
    }

    /** The encoder between its two checks, which find the entry gone or fail with an ended context. */
    method EncodeFlavor(f: nat, encoded: bool, loss: Option<Loss>) returns (ok: bool)
      requires f in catalog
      requires deleted ==> loss.Some? && loss.value.Deletion? && rows == map[]
      requires loss.Some? && loss.value.stage.Reading? ==> deleted
      modifies this`rows, this`status, this`master, this`deleted
      ensures deleted <==> loss.Some? && loss.value.Deletion?
      ensures View() == match loss
        case None => Transcoded(old(View()), catalog, f, encoded)
        case Some(l) => old(View()).(rows := LeftBehind(old(rows), f, true, l))
      ensures ok <==> match loss
        case None => Remaining(rows) != {} || Finished(rows) != {}
        case Some(l) => Unnoticed(l, true, encoded)
    {
      MarkFlavor(f, Transcoding);
      var lost := Strike(loss, loss.Some? && (loss.value.stage.Reading? || loss.value.stage.Starting?));
      if lost { return false; }
      lost := Strike(loss, loss.Some? && loss.value.stage.Encoding?);
      if encoded && lost { return false; }
      var s := if encoded then Done else Failed;
      assert loss.None? ==> Marked(rows, f, s) == Marked(old(rows), f, s);
      ok := Conclude(f, s, loss);
    }

    /** The closing mark and `finalizeTranscode`, for a call that has noticed no loss. */
    method Conclude(f: nat, s: FlavorStatus, loss: Option<Loss>) returns (ok: bool)
      requires s.Done? || s.Failed?
      requires deleted ==> loss.Some? && loss.value.Deletion? && rows == map[]
      modifies this`rows, this`status, this`master, this`deleted
      ensures deleted <==> loss.Some? && loss.value.Deletion?
      ensures View() == match loss
        case None => Finalized(old(View()).(rows := Marked(old(rows), f, s)), catalog)
        case Some(Deletion(_)) => old(View()).(rows := map[])
        case Some(Interrupt(_)) => old(View())
      ensures ok <==> loss.Some? || Remaining(rows) != {} || Finished(rows) != {}
    {
      var lost := Strike(loss, true);
      if !lost { MarkFlavor(f, s); }
      ok := FinalizeTranscode(!lost);
    }

    /** `Probe` after the source was measured: `enabled` lists the enabled flavors in catalog order. */
    method Probe(enabled: seq<nat>, height: int)
      requires ListsEnabled(enabled, catalog)
      requires forall i, j :: 0 <= i < j < |enabled| ==> enabled[i] != enabled[j]
      modifies this`rows, this`status, this`master, this`jobs
      ensures View() == Probed(old(View()), catalog, enabled, height)
      ensures jobs == old(jobs) + Queued(old(rows), catalog, enabled, height)
    {
      var pending := QueueFlavors(enabled, height);
      if |pending| == 0 {
        master := Source;
        status := Ready;
        return;
      }
      status := InTranscode;
      jobs := jobs + pending;
    }

    method QueueFlavors(enabled: seq<nat>, height: int) returns (pending: seq<nat>)
      requires forall f :: f in enabled ==> f in catalog
      requires forall i, j :: 0 <= i < j < |enabled| ==> enabled[i] != enabled[j]
      modifies this`rows
      ensures rows == ProbedRows(old(rows), catalog, enabled, height)
      ensures pending == Queued(old(rows), catalog, enabled, height)
    {
      ghost var before := rows;
      var ticked := rows.Keys;
      var useTicked := |ticked| > 0;
      pending := [];
      for i := 0 to |enabled|
        invariant pending == Queued(before, catalog, enabled[..i], height)
        invariant rows == ProbedRows(before, catalog, enabled[..i], height)
      {
        var f := enabled[i];
        OneMore(before, catalog, enabled, height, i);
        assert useTicked && f !in ticked <==> !Ticked(before, f);
        if useTicked && f !in ticked { continue; }
        if catalog[f].height > height {
          rows := rows[f := Skipped];
          continue;
        }
        rows := rows[f := Pending];
        pending := pending + [f];
      }
      assert enabled[..|enabled|] == enabled;
    }
  }

  lemma OneMore(rows: Rows, catalog: Catalog, enabled: seq<nat>, height: int, i: nat)
    requires forall f :: f in enabled ==> f in catalog
    requires i < |enabled|
    ensures var f := enabled[i];
      && Queued(rows, catalog, enabled[..i+1], height)
         == Queued(rows, catalog, enabled[..i], height) + (if Ticked(rows, f) && catalog[f].height <= height then [f] else [])
      && ProbedRows(rows, catalog, enabled[..i+1], height)
         == (if !Ticked(rows, f) then ProbedRows(rows, catalog, enabled[..i], height)
             else ProbedRows(rows, catalog, enabled[..i], height)[f := if catalog[f].height > height then Skipped else Pending])
  {
    assert enabled[i] in enabled;
    assert enabled[..i+1] == enabled[..i] + [enabled[i]] && enabled[..i+1][..i] == enabled[..i];
    ProbedOneMore(rows, catalog, enabled[..i], enabled[i], height);
  }

  lemma ProbedOneMore(rows: Rows, catalog: Catalog, front: seq<nat>, f: nat, height: int)
    requires f in catalog && forall g :: g in front ==> g in catalog
    ensures ProbedRows(rows, catalog, front + [f], height)
      == (if !Ticked(rows, f) then ProbedRows(rows, catalog, front, height)
          else ProbedRows(rows, catalog, front, height)[f := if catalog[f].height > height then Skipped else Pending])
  {
  }
}
