/** The size-rotating log file (internal/logging/rotate.go). A directory is listed by backup number: index 0 is
    the log itself and index k the file with suffix `.k`. */
module RotatingLog {
  import opened Wrappers

  type Bytes = seq<bv8>

  type Record = Bytes

  type Directory = seq<Option<Bytes>>

  /** The records each file of a directory holds. */
  type Layout = seq<Option<seq<Record>>>

  const MaxBytes: nat := 10485760

  const Backups: nat := 5

  /** The reference: the whole log as it would be kept if nothing were ever deleted, oldest chunk first, a
      chunk being the records that go to one file. */
  type Chunks = seq<seq<Record>>

  function Concat<T>(parts: seq<seq<T>>): seq<T> {
    if parts == [] then [] else Concat(parts[..|parts|-1]) + parts[|parts|-1]
  }

  function Append(chunks: Chunks, p: Record, max: nat): (r: Chunks)
    requires chunks != []
    ensures |chunks| <= |r|
  {
    var n := |chunks| - 1;
    if |Concat(chunks[n])| + |p| > max then chunks + [[p]] else chunks[..n] + [chunks[n] + [p]]
  }

  function AppendAll(chunks: Chunks, ps: seq<Record>, max: nat): (r: Chunks)
    requires chunks != []
    ensures |chunks| <= |r|
    decreases |ps|
  {
    if ps == [] then chunks else AppendAll(Append(chunks, ps[0], max), ps[1..], max)
  }

  /** The newest `n` files of the reference, newest first. */
  function Window(chunks: Chunks, n: nat): (l: Layout)
    ensures |l| == n
  {
    if n == 0 then []
    else if chunks == [] then [None] + Window([], n - 1)
    else [Some(chunks[|chunks|-1])] + Window(chunks[..|chunks|-1], n - 1)
  }

  function OnDisk(l: Layout): (d: Directory)
    ensures |d| == |l|
  {
    if l == [] then []
    else [match l[0] case None => None case Some(records) => Some(Concat(records))] + OnDisk(l[1..])
  }

  /** The bytes of a directory, oldest file first. */
  function Joined(d: Directory): Bytes {
    if d == [] then [] else Joined(d[1..]) + (if d[0].Some? then d[0].value else [])
  }

  /** The records of a layout, oldest first. */
  function Held(l: Layout): seq<Record> {
    if l == [] then [] else Held(l[1..]) + (if l[0].Some? then l[0].value else [])
  }

  /* ---- One write, whatever files exist ---- */

  /** Every file moves up one number where one exists; the oldest goes only when another takes its place. */
  function Rotated(l: Layout): Layout
    requires |l| == Backups + 1
  {
    [Some([])] + l[..Backups - 1] + [if l[Backups - 1].Some? then l[Backups - 1] else l[Backups]]
  }

  function Added(l: Layout, p: Record): Layout
    requires l != [] && l[0].Some?
  {
    l[0 := Some(l[0].value + [p])]
  }

  function Wrote(l: Layout, p: Record, max: nat): (r: Layout)
    requires |l| == Backups + 1 && l[0].Some?
    ensures |r| == Backups + 1 && r[0].Some?
  {
    if |Concat(l[0].value)| + |p| > max then Added(Rotated(l), p) else Added(l, p)
  }

  function WroteAll(l: Layout, ps: seq<Record>, max: nat): Layout
    requires |l| == Backups + 1 && l[0].Some?
    decreases |ps|
  {
    if ps == [] then l else WroteAll(Wrote(l, ps[0], max), ps[1..], max)
  }

  lemma {:induction false} ConcatPlus<T>(a: seq<seq<T>>, b: seq<seq<T>>)
    ensures Concat(a + b) == Concat(a) + Concat(b)
  {
    if b == [] {
      assert a + b == a;
    } else {
      var n := |b| - 1;
      ConcatPlus(a, b[..n]);
      assert (a + b)[..|a| + n] == a + b[..n];
      assert (Concat(a) + Concat(b[..n])) + b[n] == Concat(a) + (Concat(b[..n]) + b[n]);
    }
  }

  lemma ConcatOne<T>(s: seq<T>)
    ensures Concat([s]) == s
  {
    assert [s][..0] == [];
  }

  lemma Regroup<T>(a: seq<T>, b: seq<T>)
    requires b != []
    ensures (a + [b[0]]) + b[1..] == a + b
  {
  }

  /** Chunking loses, repeats, reorders and splits nothing: read in order, the chunks are what was there
      before followed by the records written. */
  lemma {:induction false} NothingLost(chunks: Chunks, ps: seq<Record>, max: nat)
    requires chunks != []
    ensures Concat(AppendAll(chunks, ps, max)) == Concat(chunks) + ps
    decreases |ps|
  {
    if ps != [] {
      AppendAddsOne(chunks, ps[0], max);
      NothingLost(Append(chunks, ps[0], max), ps[1..], max);
      Regroup(Concat(chunks), ps);
    }
  }

  lemma AppendAddsOne(chunks: Chunks, p: Record, max: nat)
    requires chunks != []
    ensures Concat(Append(chunks, p, max)) == Concat(chunks) + [p]
  {
    var n := |chunks| - 1;
    var last := chunks[n];
    if |Concat(last)| + |p| > max {
      ConcatPlus(chunks, [[p]]);
      ConcatOne([p]);
    } else {
      ConcatPlus(chunks[..n], [last + [p]]);
      ConcatOne(last + [p]);
      assert Concat(chunks[..n]) + (last + [p]) == (Concat(chunks[..n]) + last) + [p];
    }
  }

  /** A file started by a rotation holds at most `max` bytes or a single oversize record. */
  predicate Fits(chunk: seq<Record>, max: nat) {
    chunk != [] && (|Concat(chunk)| <= max || |chunk| == 1)
  }

  /** The file before it could not have taken the record that starts it. */
  predicate Needed(before: seq<Record>, chunk: seq<Record>, max: nat) {
    chunk != [] && |Concat(before)| + |chunk[0]| > max
  }

  /** Both, for every chunk but the first `base`. */
  predicate WellCut(chunks: Chunks, base: nat, max: nat) {
    |chunks| <= base || (|chunks| >= 2
      && Fits(chunks[|chunks|-1], max) && Needed(chunks[|chunks|-2], chunks[|chunks|-1], max)
      && WellCut(chunks[..|chunks|-1], base, max))
  }

  lemma {:induction false} WellCutStep(chunks: Chunks, base: nat, p: Record, max: nat)
    requires chunks != [] && WellCut(chunks, base, max)
    ensures WellCut(Append(chunks, p, max), base, max)
  {
    var m := |chunks| - 1;
    var last := chunks[m];
    var r := Append(chunks, p, max);
    ConcatPlus(last, [p]);
    ConcatOne(p);
    if |Concat(last)| + |p| > max {
      assert r[..m + 1] == chunks;
    } else if base < |chunks| {
      assert r[..m] == chunks[..m];
      assert (last + [p])[0] == last[0];
      assert r[m] == last + [p] && r[m - 1] == chunks[m - 1];
      assert |Concat(last + [p])| <= max;
    }
  }

  /** Every file a run of writes has started keeps to the limit and was needed. */
  lemma {:induction false} RunIsWellCut(chunks: Chunks, base: nat, ps: seq<Record>, max: nat)
    requires chunks != [] && WellCut(chunks, base, max)
    ensures WellCut(AppendAll(chunks, ps, max), base, max)
    decreases |ps|
  {
    if ps != [] {
      WellCutStep(chunks, base, ps[0], max);
      RunIsWellCut(Append(chunks, ps[0], max), base, ps[1..], max);
    }
  }

  lemma {:induction false} JoinedIsHeld(l: Layout)
    ensures Joined(OnDisk(l)) == Concat(Held(l))
  {
    if l != [] {
      JoinedIsHeld(l[1..]);
      assert OnDisk(l)[1..] == OnDisk(l[1..]);
      ConcatPlus(Held(l[1..]), if l[0].Some? then l[0].value else []);
    }
  }

  ghost predicate EndOf(all: seq<Record>, part: seq<Record>) {
    |part| <= |all| && part == all[|all| - |part|..]
  }

  lemma EndOfPlus(all: seq<Record>, part: seq<Record>, more: seq<Record>)
    requires EndOf(all, part)
    ensures EndOf(all + more, part + more)
  {
  }

  lemma EndOfEnd(all: seq<Record>, part: seq<Record>, less: seq<Record>)
    requires EndOf(all, part) && EndOf(part, less)
    ensures EndOf(all, less)
  {
  }

  lemma Associate<T>(a: seq<T>, b: seq<T>, c: seq<T>)
    ensures (a + b) + c == a + (b + c)
  {
  }

  lemma {:induction false} HeldPlus(a: Layout, b: Layout)
    ensures Held(a + b) == Held(b) + Held(a)
  {
    if a == [] {
      assert a + b == b;
    } else {
      HeldPlus(a[1..], b);
      assert (a + b)[1..] == a[1..] + b;
      Associate(Held(b), Held(a[1..]), if a[0].Some? then a[0].value else []);
    }
  }

  lemma HeldOne(f: Option<seq<Record>>)
    ensures Held([f]) == if f.Some? then f.value else []
  {
    assert [f][1..] == [] && Held([]) == [];
  }

  lemma HeldAdded(l: Layout, p: Record)
    requires l != [] && l[0].Some?
    ensures Held(Added(l, p)) == Held(l) + [p]
  {
    assert Added(l, p)[1..] == l[1..];
    assert Held(l[1..]) + (l[0].value + [p]) == (Held(l[1..]) + l[0].value) + [p];
  }

  function RecordsOf(f: Option<seq<Record>>): seq<Record> {
    if f.Some? then f.value else []
  }

  lemma HeldLast(a: Layout, f: Option<seq<Record>>)
    ensures Held(a + [f]) == RecordsOf(f) + Held(a)
  {
    HeldPlus(a, [f]);
    HeldOne(f);
  }

  lemma HeldAfterRotation(l: Layout, older: Layout, kept: Option<seq<Record>>)
    requires |l| == Backups + 1 && older == l[..Backups - 1]
    requires kept == if l[Backups - 1].Some? then l[Backups - 1] else l[Backups]
    ensures Held(Rotated(l)) == RecordsOf(kept) + Held(older)
  {
    HeldLast([Some([])] + older, kept);
    HeldPlus([Some([])], older);
    HeldOne(Some([]));
    assert Held(older) + [] == Held(older);
  }

  lemma HeldBeforeRotation(l: Layout, older: Layout)
    requires |l| == Backups + 1 && older == l[..Backups - 1]
    ensures Held(l) == RecordsOf(l[Backups]) + (RecordsOf(l[Backups - 1]) + Held(older))
  {
    HeldLast(older + [l[Backups - 1]], l[Backups]);
    HeldLast(older, l[Backups - 1]);
    assert l == older + [l[Backups - 1]] + [l[Backups]];
  }

  /** A rotation drops the oldest file whole, or nothing when there is a gap before it. */
  lemma HeldRotated(l: Layout)
    requires |l| == Backups + 1
    ensures EndOf(Held(l), Held(Rotated(l)))
  {
    var n := Backups - 1;
    HeldBeforeRotation(l, l[..n]);
    HeldAfterRotation(l, l[..n], if l[n].Some? then l[n] else l[Backups]);
    DropsFirst(RecordsOf(l[Backups]), RecordsOf(l[n]), Held(l[..n]));
    DropsNone(RecordsOf(l[Backups]), Held(l[..n]));
  }

  lemma DropsNone(a: seq<Record>, b: seq<Record>)
    ensures a + ([] + b) == a + b && EndOf(a + b, a + b)
  {
  }

  lemma DropsFirst(a: seq<Record>, b: seq<Record>, c: seq<Record>)
    ensures EndOf(a + (b + c), b + c)
  {
  }

  lemma {:induction false} HeldIsEnd(l: Layout, ps: seq<Record>, max: nat)
    requires |l| == Backups + 1 && l[0].Some?
    ensures EndOf(Held(l) + ps, Held(WroteAll(l, ps, max)))
    decreases |ps|
  {
    if ps == [] {
      assert Held(l) + ps == Held(l);
    } else {
      var next := Wrote(l, ps[0], max);
      WroteIsEnd(l, ps[0], max);
      EndOfPlus(Held(l) + [ps[0]], Held(next), ps[1..]);
      Regroup(Held(l), ps);
      HeldIsEnd(next, ps[1..], max);
      EndOfEnd(Held(l) + ps, Held(next) + ps[1..], Held(WroteAll(next, ps[1..], max)));
    }
  }

  lemma WroteIsEnd(l: Layout, p: Record, max: nat)
    requires |l| == Backups + 1 && l[0].Some?
    ensures EndOf(Held(l) + [p], Held(Wrote(l, p, max)))
  {
    HeldAdded(l, p);
    HeldAdded(Rotated(l), p);
    HeldRotated(l);
    EndOfPlus(Held(l), Held(Rotated(l)), [p]);
  }

  ghost predicate EndsWith(records: seq<Record>, bytes: Bytes) {
    exists d :: 0 <= d <= |records| && bytes == Concat(records[d..])
  }

  /** Reading log.5, ..., log.1, log in that order gives the end of everything ever written, cut between two
      records, whatever files were there at the start: what is missing is a whole number of the oldest records. */
  lemma DirectoryIsRecordSuffix(l: Layout, ps: seq<Record>, max: nat)
    requires |l| == Backups + 1 && l[0].Some?
    ensures EndsWith(Held(l) + ps, Joined(OnDisk(WroteAll(l, ps, max))))
  {
    JoinedIsHeld(WroteAll(l, ps, max));
    HeldIsEnd(l, ps, max);
    var all, part := Held(l) + ps, Held(WroteAll(l, ps, max));
    assert part == all[|all| - |part|..];
  }

  /* ---- Without gaps the directory is the newest part of the reference ---- */

  /** The files in use are numbered without gaps. */
  ghost predicate GapFree(l: Layout) {
    forall i, j :: 0 <= i < j < |l| && l[j].Some? ==> l[i].Some?
  }

  function ChunksOf(l: Layout): Chunks {
    if l == [] || l[0].None? then [] else ChunksOf(l[1..]) + [l[0].value]
  }

  lemma {:induction false} GapFreeIsWindow(l: Layout)
    requires GapFree(l)
    ensures l == Window(ChunksOf(l), |l|)
  {
    if l != [] {
      assert GapFree(l[1..]) by { assert forall i :: 0 <= i < |l[1..]| ==> l[1..][i] == l[i + 1]; }
      GapFreeIsWindow(l[1..]);
      assert l == [l[0]] + l[1..];
      if l[0].None? {
        assert forall i :: 0 <= i < |l[1..]| ==> l[1..][i] == l[i + 1] && l[1..][i].None?;
        NoChunks(l[1..]);
      } else {
        assert ChunksOf(l)[..|ChunksOf(l)| - 1] == ChunksOf(l[1..]);
      }
    }
  }

  lemma NoChunks(l: Layout)
    requires forall i :: 0 <= i < |l| ==> l[i].None?
    ensures ChunksOf(l) == []
  {
  }

  /** Writing to the six files is writing to the unbounded reference and looking at its newest six. */
  lemma {:induction false} FilesAreNewest(chunks: Chunks, ps: seq<Record>, max: nat)
    requires chunks != []
    ensures WroteAll(Window(chunks, Backups + 1), ps, max) == Window(AppendAll(chunks, ps, max), Backups + 1)
    decreases |ps|
  {
    if ps != [] {
      OneWriteIsNewest(chunks, ps[0], max);
      FilesAreNewest(Append(chunks, ps[0], max), ps[1..], max);
    }
  }

  lemma OneWriteIsNewest(chunks: Chunks, p: Record, max: nat)
    requires chunks != []
    ensures Wrote(Window(chunks, Backups + 1), p, max) == Window(Append(chunks, p, max), Backups + 1)
  {
    var m := |chunks| - 1;
    var w := Window(chunks, Backups + 1);
    if |Concat(chunks[m])| + |p| > max {
      WindowShape(chunks, Backups);
      assert (chunks + [[p]])[..m + 1] == chunks;
      assert Window(chunks + [[p]], Backups + 1) == [Some([p])] + Window(chunks, Backups);
      assert Rotated(w) == [Some([])] + w[..Backups];
      assert [] + [p] == [p];
    } else {
      var longer := chunks[..m] + [chunks[m] + [p]];
      assert longer[..m] == chunks[..m];
    }
  }

  /** How many files exist: as many as chunks were ever started, and at most six, `log` and `.1` to `.5`. */
  lemma {:induction false} SixFilesAreKept(chunks: Chunks, n: nat, i: nat)
    requires i < n
    ensures Window(chunks, n)[i].Some? <==> i < |chunks|
  {
    if i > 0 {
      var older := if chunks == [] then [] else chunks[..|chunks|-1];
      SixFilesAreKept(older, n - 1, i - 1);
      assert Window(chunks, n)[i] == Window(older, n - 1)[i - 1];
    }
  }

  function Bulk(l: Layout): nat {
    if l == [] then 0 else Bulk(l[1..]) + (if l[0].Some? then |Concat(l[0].value)| else 0)
  }

  lemma {:induction false} BulkIsLength(l: Layout)
    ensures Bulk(l) == |Joined(OnDisk(l))|
  {
    if l != [] {
      BulkIsLength(l[1..]);
      assert OnDisk(l)[1..] == OnDisk(l[1..]);
    }
  }

  lemma WindowStep(chunks: Chunks, n: nat)
    requires chunks != [] && n > 0
    ensures var m := |chunks| - 1;
      Bulk(Window(chunks, n)) == Bulk(Window(chunks[..m], n - 1)) + |Concat(chunks[m])|
  {
    assert Window(chunks, n)[1..] == Window(chunks[..|chunks| - 1], n - 1);
  }

  lemma {:induction false} WindowRetains(chunks: Chunks, m: nat, base: nat, max: nat)
    requires m > 0 && |chunks| >= base + 2 * m - 1 && WellCut(chunks, base, max)
    ensures Bulk(Window(chunks, 2 * m)) > m * max
  {
    var k := |chunks| - 1;
    FirstRecordFits(chunks[k]);
    WindowStep(chunks, 2 * m);
    WindowStep(chunks[..k], 2 * m - 1);
    if m > 1 {
      WindowRetains(chunks[..k][..k - 1], m - 1, base, max);
      assert m * max == (m - 1) * max + max;
    }
  }

  lemma {:induction false} FirstRecordFits(c: seq<Record>)
    requires c != []
    ensures |c[0]| <= |Concat(c)|
  {
    ConcatPlus([c[0]], c[1..]);
    ConcatOne(c[0]);
    assert c == [c[0]] + c[1..];
  }

  lemma {:induction false} WindowBounded(chunks: Chunks, k: nat, max: nat)
    requires k <= |chunks|
    requires forall i :: |chunks| - k <= i < |chunks| ==> |Concat(chunks[i])| <= max
    ensures Bulk(Window(chunks, k)) <= k * max
  {
    if k > 0 {
      var m := |chunks| - 1;
      WindowStep(chunks, k);
      assert forall i :: 0 <= i < m ==> chunks[..m][i] == chunks[i];
      WindowBounded(chunks[..m], k - 1, max);
      OneMoreTime(k, max);
    }
  }

  lemma {:induction false} WellCutFits(chunks: Chunks, base: nat, max: nat, i: nat)
    requires WellCut(chunks, base, max) && base <= i < |chunks|
    ensures Fits(chunks[i], max)
  {
    if i < |chunks| - 1 { WellCutFits(chunks[..|chunks| - 1], base, max, i); }
  }

  lemma OneMoreTime(k: nat, max: nat)
    requires k > 0
    ensures k * max == (k - 1) * max + max
  {
  }

  lemma OneChunkBounded(chunk: seq<Record>, max: nat)
    requires Fits(chunk, max) && forall p :: p in chunk ==> |p| <= max
    ensures |Concat(chunk)| <= max
  {
    if |chunk| == 1 {
      assert chunk == [chunk[0]];
      ConcatOne(chunk[0]);
    }
  }

  /** Retention and disk use of any run: after five rotations more than three times `max` bytes are kept, and
      after six, with no record oversize, six files of at most `max` bytes each. */
  lemma RunRetains(chunks: Chunks, ps: seq<Record>, max: nat)
    requires chunks != []
    ensures var r := AppendAll(chunks, ps, max);
      |r| >= |chunks| + 5 ==> |Joined(OnDisk(Window(r, Backups + 1)))| > 3 * max
  {
    RunIsWellCut(chunks, |chunks|, ps, max);
    var r := AppendAll(chunks, ps, max);
    BulkIsLength(Window(r, Backups + 1));
    if |r| >= |chunks| + 5 { WindowRetains(r, 3, |chunks|, max); }
  }

  lemma RunBounded(chunks: Chunks, ps: seq<Record>, max: nat)
    requires chunks != [] && forall p :: p in Concat(chunks) + ps ==> |p| <= max
    ensures var r := AppendAll(chunks, ps, max);
      |r| >= |chunks| + 6 ==> |Joined(OnDisk(Window(r, Backups + 1)))| <= (Backups + 1) * max
  {
    RunIsWellCut(chunks, |chunks|, ps, max);
    NothingLost(chunks, ps, max);
    var r := AppendAll(chunks, ps, max);
    if |r| >= |chunks| + 6 {
      BulkIsLength(Window(r, Backups + 1));
      ConcatMembers(r);
      forall i | |chunks| <= i < |r|
        ensures |Concat(r[i])| <= max
      {
        WellCutFits(r, |chunks|, max, i);
        assert r[i] in r;
        OneChunkBounded(r[i], max);
      }
      WindowBounded(r, Backups + 1, max);
    }
  }

  lemma {:induction false} ConcatMembers<T>(parts: seq<seq<T>>)
    ensures forall c, p :: c in parts && p in c ==> p in Concat(parts)
  {
    if parts != [] {
      var n := |parts| - 1;
      ConcatMembers(parts[..n]);
      assert parts == parts[..n] + [parts[n]];
    }
  }

  /** A longer window shows the same newest files, and below a missing file nothing exists. */
  lemma {:induction false} WindowShape(chunks: Chunks, n: nat)
    ensures Window(chunks, n + 1)[..n] == Window(chunks, n)
    ensures n > 0 && Window(chunks, n + 1)[n - 1].None? ==> Window(chunks, n + 1)[n].None?
    decreases n
  {
    if n > 0 {
      var older := if chunks == [] then [] else chunks[..|chunks|-1];
      WindowShape(older, n - 1);
      assert Window(chunks, n + 1)[1..] == Window(older, n);
      assert Window(chunks, n)[1..] == Window(older, n - 1);
      if n == 1 { assert chunks == [] ==> Window(chunks, 2)[1].None?; }
    }
  }

  function RotatedFiles(was: Directory): Directory
    requires |was| == Backups + 1
  {
    [Some([])] + was[..Backups - 1] + [if was[Backups - 1].Some? then was[Backups - 1] else was[Backups]]
  }

  /** Moving the log to the gap left at .1 and creating an empty log. */
  lemma LogToFirst(was: Directory, shifted: Directory)
    requires |was| == Backups + 1 && shifted == Shifted(was)
    ensures shifted[1 := None][1 := shifted[0]][0 := None][0 := Some([])] == RotatedFiles(was)
  {
  }

  /** After the backups were moved up: number 1 is free, and the oldest is kept if none takes its place. */
  function Shifted(was: Directory): Directory
    requires |was| == Backups + 1
  {
    ShiftedTo(was, 0)
  }

  /** The directory when the backups above `i` have been moved. */
  function ShiftedTo(was: Directory, i: nat): (d: Directory)
    requires |was| == Backups + 1 && i <= Backups - 1
    ensures |d| == Backups + 1
  {
    if i == Backups - 1 then was
    else
      was[..i + 1] + [None] + was[i + 1..Backups - 1] + [if was[Backups - 1].Some? then was[Backups - 1] else was[Backups]]
  }

  lemma ShiftStep(was: Directory, i: nat)
    requires |was| == Backups + 1 && 1 <= i <= Backups - 1
    ensures var f := ShiftedTo(was, i);
      (if f[i].Some? then f[i + 1 := None][i + 1 := f[i]][i := None] else f) == ShiftedTo(was, i - 1)
  {
    var f, g := ShiftedTo(was, i), ShiftedTo(was, i - 1);
    var h := if f[i].Some? then f[i + 1 := None][i + 1 := f[i]][i := None] else f;
    assert h[0] == g[0] && h[1] == g[1] && h[2] == g[2];
    assert h[3] == g[3] && h[4] == g[4] && h[5] == g[5];
    SameFiles(h, g);
  }

  lemma {:induction false} OnDiskAt(l: Layout, i: nat)
    requires i < |l|
    ensures OnDisk(l)[i] == match l[i] case None => None case Some(records) => Some(Concat(records))
  {
    if i > 0 { OnDiskAt(l[1..], i - 1); }
  }

  lemma RotatedOnDisk(l: Layout)
    requires |l| == Backups + 1
    ensures OnDisk(Rotated(l)) == RotatedFiles(OnDisk(l))
  {
    RotatedFirst(l);
    RotatedMiddle(l, 1);
    RotatedMiddle(l, 2);
    RotatedMiddle(l, 3);
    RotatedMiddle(l, 4);
    RotatedLast(l);
    SameFiles(OnDisk(Rotated(l)), RotatedFiles(OnDisk(l)));
  }

  lemma SameFiles(a: Directory, b: Directory)
    requires |a| == |b| == 6 && a[0] == b[0] && a[1] == b[1] && a[2] == b[2] && a[3] == b[3] && a[4] == b[4] && a[5] == b[5]
    ensures a == b
  {
  }

  lemma RotatedFirst(l: Layout)
    requires |l| == Backups + 1
    ensures OnDisk(Rotated(l))[0] == RotatedFiles(OnDisk(l))[0]
  {
    OnDiskAt(Rotated(l), 0);
  }

  lemma RotatedMiddle(l: Layout, i: nat)
    requires |l| == Backups + 1 && 0 < i < Backups
    ensures OnDisk(Rotated(l))[i] == RotatedFiles(OnDisk(l))[i]
  {
    OnDiskAt(Rotated(l), i);
    OnDiskAt(l, i - 1);
    assert Rotated(l)[i] == l[i - 1] && RotatedFiles(OnDisk(l))[i] == OnDisk(l)[i - 1];
  }

  lemma RotatedLast(l: Layout)
    requires |l| == Backups + 1
    ensures OnDisk(Rotated(l))[Backups] == RotatedFiles(OnDisk(l))[Backups]
  {
    OnDiskAt(Rotated(l), Backups);
    OnDiskAt(l, Backups - 1);
    OnDiskAt(l, Backups);
  }

  lemma AddedOnDisk(l: Layout, p: Record)
    requires l != [] && l[0].Some?
    ensures OnDisk(Added(l, p)) == OnDisk(l)[0 := Some(Concat(l[0].value) + p)]
  {
    ConcatPlus(l[0].value, [p]);
    ConcatOne(p);
    assert Added(l, p)[1..] == l[1..];
  }

  /** The files found at the start, each as one record of an earlier run. */
  function Found(files: Directory): (l: Layout)
    ensures |l| == |files|
  {
    if files == [] then [] else [match files[0] case None => None case Some(b) => Some([b])] + Found(files[1..])
  }

  lemma {:induction false} FoundOnDisk(files: Directory)
    ensures OnDisk(Found(files)) == files
  {
    if files != [] {
      FoundOnDisk(files[1..]);
      assert Found(files)[1..] == Found(files[1..]);
      if files[0].Some? { ConcatOne(files[0].value); }
    }
  }

  class RotatingFile {
    var files: Directory
    var size: nat
    const max: nat
    ghost var layout: Layout

    ghost predicate Valid()
      reads this
    {
      && |layout| == Backups + 1 && layout[0].Some? && files == OnDisk(layout)
      && size == |Concat(layout[0].value)|
    }

    /** Opens the log in whatever directory an earlier run has left. */
    constructor (files: Directory, max: nat)
      requires |files| == Backups + 1
      ensures Valid() && this.max == max
      ensures layout == if files[0].Some? then Found(files) else Found(files)[0 := Some([])]
    {
      this.max := max;
      this.files := if files[0].Some? then files else files[0 := Some([])];
      this.size := if files[0].Some? then |files[0].value| else 0;
      FoundOnDisk(files);
      ghost var found := if files[0].Some? then Found(files) else Found(files)[0 := Some([])];
      assert found[1..] == Found(files)[1..] == Found(files[1..]);
      assert OnDisk(found)[1..] == OnDisk(Found(files))[1..];
      if files[0].Some? { ConcatOne(files[0].value); }
      this.layout := found;
    }

    /** The record goes, whole, to the current file or to a new one started by a rotation. */
    method Write(p: Record) returns (n: nat)
      requires Valid()
      modifies this
      ensures Valid() && n == |p|
      ensures layout == Wrote(old(layout), p, max)
    {
      if size + |p| > max {
        Rotate();
      }
      AddedOnDisk(layout, p);
      files := files[0 := Some(files[0].value + p)];
      ConcatPlus(layout[0].value, [p]);
      ConcatOne(p);
      layout := Added(layout, p);
      size := size + |p|;
      n := |p|;
    }

    /** Starts an empty log after moving every file one backup number up. */
    method Rotate()
      requires Valid()
      modifies this
      ensures Valid() && layout == Rotated(old(layout))
    {
      RotatedOnDisk(layout);
      ShiftBackups();
      LogToFirst(old(files), files);
      files := files[1 := None];
      files := files[1 := files[0]];
      files := files[0 := None];
      files := files[0 := Some([])];
      size := 0;
      layout := Rotated(layout);
    }

    /** log.4 to log.5, and so on down to log.1 to log.2; a backup that does not exist is skipped. */
    method ShiftBackups()
      requires |files| == Backups + 1
      modifies this`files
      ensures files == Shifted(old(files))
    {
      var i := Backups - 1;
      while i >= 1
        invariant 0 <= i <= Backups - 1
        invariant files == ShiftedTo(old(files), i)
      {
        ShiftStep(old(files), i);
        if files[i].Some? {
          files := files[i + 1 := None];
          files := files[i + 1 := files[i]];
          files := files[i := None];
        }
        i := i - 1;
      }
    }
  }
}
