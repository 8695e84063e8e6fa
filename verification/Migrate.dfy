/** The parallel copy job (internal/store/migrate.go). Workers take keys from an unbuffered channel
    and move each one from source to target in single store calls, which interleave freely.
    Each store call on a key either always works or always fails; Put is atomic. */
module Migrate {
  type Key = string
  type Bytes = seq<nat>
  type Objects = map<Key, Bytes>

  /** The store calls `migrateKey` makes on one key. */
  datatype StoreCall = TargetStat | SourceOpen | SourceStat | TargetPut | SourceDelete

  datatype Options = Options(force: bool, prune: bool, faults: map<Key, set<StoreCall>>)

  datatype Verdict = Copied | Skipped | Failed

  predicate Fails(o: Options, k: Key, call: StoreCall) {
    k in o.faults && call in o.faults[k]
  }

  /* ---- One key on its own ---- */

  predicate Skips(o: Options, dst: Objects, k: Key) {
    !o.force && k in dst && !Fails(o, k, TargetStat)
  }

  /** The target is written. */
  predicate Writes(o: Options, src: Objects, dst: Objects, k: Key) {
    && !Skips(o, dst, k) && k in src
    && !Fails(o, k, SourceOpen) && !Fails(o, k, SourceStat) && !Fails(o, k, TargetPut)
  }

  predicate Removes(o: Options, src: Objects, dst: Objects, k: Key) {
    Writes(o, src, dst, k) && o.prune && !Fails(o, k, SourceDelete)
  }

  function VerdictOf(o: Options, src: Objects, dst: Objects, k: Key): Verdict {
    if Skips(o, dst, k) then Skipped
    else if !Writes(o, src, dst, k) || (o.prune && Fails(o, k, SourceDelete)) then Failed
    else Copied
  }

  /** Both stores agree, at key `k`, with what the copy of `k` alone makes of `src` and `dst`. */
  ghost predicate Settled(o: Options, src: Objects, dst: Objects, src': Objects, dst': Objects, k: Key) {
    && (if Writes(o, src, dst, k) then k in dst' && dst'[k] == src[k] else Same(dst, dst', k))
    && (if Removes(o, src, dst, k) then k !in src' else Same(src, src', k))
  }

  ghost predicate Same(a: Objects, b: Objects, k: Key) {
    (k in a <==> k in b) && (k in a ==> a[k] == b[k])
  }

  class Store {
    var objects: Objects
    constructor (objects: Objects)
      ensures this.objects == objects
    {
      this.objects := objects;
    }
  }

  /** `migrateKey`, run without anyone else touching the key. */
  method MigrateKey(src: Store, dst: Store, k: Key, o: Options) returns (verdict: Verdict)
    requires src != dst
    modifies src, dst
    ensures verdict == VerdictOf(o, old(src.objects), old(dst.objects), k)
    ensures Settled(o, old(src.objects), old(dst.objects), src.objects, dst.objects, k)
    ensures forall q :: q != k ==> Same(old(src.objects), src.objects, q) && Same(old(dst.objects), dst.objects, q)
  {
    if !o.force {
      if k in dst.objects && !Fails(o, k, TargetStat) { return Skipped; }
    }
    if k !in src.objects || Fails(o, k, SourceOpen) { return Failed; }
    var reader := src.objects[k];
    if Fails(o, k, SourceStat) { return Failed; }
    if Fails(o, k, TargetPut) { return Failed; }
    dst.objects := dst.objects[k := reader];
    if o.prune {
      if Fails(o, k, SourceDelete) { return Failed; }
      src.objects := src.objects - {k};
    }
    return Copied;
  }

  /* ---- The worker pool ---- */

  /** What a worker does next with its key; `Report` still has to bump the counter. */
  datatype Task =
    | Idle
    | Check(key: Key)
    | Open(key: Key)
    | Stat(key: Key, data: Bytes)
    | Put(key: Key, data: Bytes)
    | Remove(key: Key)
    | Report(key: Key, verdict: Verdict)

  datatype Counters = Counters(copied: nat, skipped: nat, failed: nat)

  /** `done` records the keys already counted. */
  datatype State = State(src: Objects, dst: Objects, rest: seq<Key>, workers: seq<Task>, done: set<Key>, res: Counters)

  function Bump(c: Counters, v: Verdict): Counters {
    match v
    case Copied => c.(copied := c.copied + 1)
    case Skipped => c.(skipped := c.skipped + 1)
    case Failed => c.(failed := c.failed + 1)
  }

  predicate CanStep(s: State, i: nat) {
    i < |s.workers| && (s.workers[i].Idle? ==> s.rest != [])
  }

  function With(s: State, i: nat, t: Task): State
    requires i < |s.workers|
  {
    s.(workers := s.workers[i := t])
  }

  /** Worker `i` performs its next store call, or takes the next key, or reports. */
  function Step(o: Options, s: State, i: nat): State
    requires CanStep(s, i)
  {
    match s.workers[i]
    case Idle => With(s, i, Check(s.rest[0])).(rest := s.rest[1..])
    case Check(k) => With(s, i, if Skips(o, s.dst, k) then Report(k, Skipped) else Open(k))
    case Open(k) =>
      With(s, i, if k !in s.src || Fails(o, k, SourceOpen) then Report(k, Failed) else Stat(k, s.src[k]))
    case Stat(k, data) => With(s, i, if Fails(o, k, SourceStat) then Report(k, Failed) else Put(k, data))
    case Put(k, data) =>
      if Fails(o, k, TargetPut) then With(s, i, Report(k, Failed))
      else With(s, i, if o.prune then Remove(k) else Report(k, Copied)).(dst := s.dst[k := data])
    case Remove(k) =>
      if Fails(o, k, SourceDelete) then With(s, i, Report(k, Failed))
      else With(s, i, Report(k, Copied)).(src := s.src - {k})
    case Report(k, v) => With(s, i, Idle).(done := s.done + {k}, res := Bump(s.res, v))
  }

  /** A schedule names, step by step, the worker that moves. */
  ghost predicate Schedule(o: Options, s: State, who: seq<nat>)
    decreases |who|
  {
    who == [] || (CanStep(s, who[0]) && Schedule(o, Step(o, s, who[0]), who[1..]))
  }

  ghost function After(o: Options, s: State, who: seq<nat>): State
    requires Schedule(o, s, who)
    decreases |who|
  {
    if who == [] then s else After(o, Step(o, s, who[0]), who[1..])
  }

  ghost predicate Finished(s: State) {
    s.rest == [] && forall i :: 0 <= i < |s.workers| ==> s.workers[i].Idle?
  }

  ghost predicate Distinct(keys: seq<Key>) {
    forall i, j :: 0 <= i < j < |keys| ==> keys[i] != keys[j]
  }

  function Start(src: Objects, dst: Objects, keys: seq<Key>, workers: nat): State {
    State(src, dst, keys, seq(workers, _ => Idle), {}, Counters(0, 0, 0))
  }

  /* ---- The invariant ---- */

  ghost predicate Active(s: State, i: nat, k: Key) {
    i < |s.workers| && !s.workers[i].Idle? && s.workers[i].key == k
  }

  /** Worker `i` is where the copy of its key alone would be. */
  ghost predicate OnTrack(o: Options, src: Objects, dst: Objects, s: State, i: nat)
    requires i < |s.workers|
  {
    match s.workers[i]
    case Idle => true
    case Check(k) => Same(src, s.src, k) && Same(dst, s.dst, k)
    case Open(k) => Same(src, s.src, k) && Same(dst, s.dst, k) && !Skips(o, dst, k)
    case Stat(k, data) =>
      && Same(src, s.src, k) && Same(dst, s.dst, k) && !Skips(o, dst, k)
      && k in src && data == src[k] && !Fails(o, k, SourceOpen)
    case Put(k, data) =>
      && Same(src, s.src, k) && Same(dst, s.dst, k) && !Skips(o, dst, k)
      && k in src && data == src[k] && !Fails(o, k, SourceOpen) && !Fails(o, k, SourceStat)
    case Remove(k) =>
      o.prune && Writes(o, src, dst, k) && Same(src, s.src, k) && k in s.dst && s.dst[k] == src[k]
    case Report(k, v) => v == VerdictOf(o, src, dst, k) && Settled(o, src, dst, s.src, s.dst, k)
  }

  ghost predicate Known(s: State, k: Key) {
    k in s.done || k in s.rest || exists i: nat :: Active(s, i, k)
  }

  /** Every listed key is in exactly one place: counted, waiting, or with one worker. */
  ghost predicate Placed(s: State, keys: seq<Key>) {
    && (forall k :: k in keys <==> Known(s, k))
    && Distinct(s.rest)
    && (forall i: nat, k :: Active(s, i, k) ==> k !in s.done && k !in s.rest)
    && (forall k :: k in s.done ==> k !in s.rest)
    && (forall i: nat, j: nat, k :: Active(s, i, k) && Active(s, j, k) ==> i == j)
  }

  ghost function Judged(o: Options, src: Objects, dst: Objects, done: set<Key>, v: Verdict): set<Key> {
    set k | k in done && VerdictOf(o, src, dst, k) == v
  }

  ghost predicate Tallied(o: Options, src: Objects, dst: Objects, s: State) {
    && s.res.copied == |Judged(o, src, dst, s.done, Copied)|
    && s.res.skipped == |Judged(o, src, dst, s.done, Skipped)|
    && s.res.failed == |Judged(o, src, dst, s.done, Failed)|
  }

  ghost predicate Inv(o: Options, src: Objects, dst: Objects, keys: seq<Key>, s: State) {
    && Placed(s, keys) && Tallied(o, src, dst, s)
    && (forall i: nat :: i < |s.workers| ==> OnTrack(o, src, dst, s, i))
    && (forall k :: k in s.rest || !Known(s, k) ==> Same(src, s.src, k) && Same(dst, s.dst, k))
    && (forall k :: k in s.done ==> Settled(o, src, dst, s.src, s.dst, k))
  }

  /** The stores differ at key `k` only, and nothing but worker `i` and the stores changed. */
  ghost predicate Local(s: State, s': State, i: nat, k: Key)
    requires i < |s.workers|
  {
    && |s'.workers| == |s.workers| && !s'.workers[i].Idle? && s'.workers[i].key == k
    && (forall j :: 0 <= j < |s.workers| && j != i ==> s'.workers[j] == s.workers[j])
    && s'.rest == s.rest && s'.done == s.done && s'.res == s.res
    && (forall q :: q != k ==> Same(s.src, s'.src, q) && Same(s.dst, s'.dst, q))
  }

  lemma ReadIsLocal(o: Options, src: Objects, dst: Objects, s: State, i: nat)
    requires CanStep(s, i) && (s.workers[i].Check? || s.workers[i].Open? || s.workers[i].Stat?)
    requires OnTrack(o, src, dst, s, i)
    ensures Local(s, Step(o, s, i), i, s.workers[i].key) && OnTrack(o, src, dst, Step(o, s, i), i)
  {
  }

  lemma WriteIsLocal(o: Options, src: Objects, dst: Objects, s: State, i: nat)
    requires CanStep(s, i) && (s.workers[i].Put? || s.workers[i].Remove?)
    requires OnTrack(o, src, dst, s, i)
    ensures Local(s, Step(o, s, i), i, s.workers[i].key) && OnTrack(o, src, dst, Step(o, s, i), i)
  {
  }

  lemma TrackElsewhere(o: Options, src: Objects, dst: Objects, s: State, s': State, i: nat)
    requires i < |s.workers| && i < |s'.workers| && s'.workers[i] == s.workers[i]
    requires !s.workers[i].Idle? ==>
      Same(s.src, s'.src, s.workers[i].key) && Same(s.dst, s'.dst, s.workers[i].key)
    requires OnTrack(o, src, dst, s, i)
    ensures OnTrack(o, src, dst, s', i)
  {
  }

  lemma CallInv(o: Options, src: Objects, dst: Objects, keys: seq<Key>, s: State, i: nat)
    requires Inv(o, src, dst, keys, s) && CanStep(s, i) && !s.workers[i].Idle? && !s.workers[i].Report?
    ensures Inv(o, src, dst, keys, Step(o, s, i))
  {
    var s' := Step(o, s, i);
    var k := s.workers[i].key;
    if s.workers[i].Put? || s.workers[i].Remove? { WriteIsLocal(o, src, dst, s, i); } else { ReadIsLocal(o, src, dst, s, i); }
    LocalInv(o, src, dst, keys, s, s', i, k);
  }

  lemma LocalInv(o: Options, src: Objects, dst: Objects, keys: seq<Key>, s: State, s': State, i: nat, k: Key)
    requires Inv(o, src, dst, keys, s) && Active(s, i, k)
    requires Local(s, s', i, k) && OnTrack(o, src, dst, s', i)
    ensures Inv(o, src, dst, keys, s')
  {
    assert forall j: nat, q :: Active(s', j, q) <==> Active(s, j, q);
    forall q
      ensures Known(s', q) <==> Known(s, q)
    {
      if j: nat :| Active(s, j, q) { assert Active(s', j, q); }
      if j: nat :| Active(s', j, q) { assert Active(s, j, q); }
    }
    forall q | q != k
      ensures Settled(o, src, dst, s.src, s.dst, q) ==> Settled(o, src, dst, s'.src, s'.dst, q)
      ensures Same(src, s.src, q) ==> Same(src, s'.src, q)
      ensures Same(dst, s.dst, q) ==> Same(dst, s'.dst, q)
    {
      assert Same(s.src, s'.src, q) && Same(s.dst, s'.dst, q);
    }
    forall j: nat | j < |s'.workers|
      ensures OnTrack(o, src, dst, s', j)
    {
      if j != i {
        assert !s.workers[j].Idle? ==> Active(s, j, s.workers[j].key);
        TrackElsewhere(o, src, dst, s, s', j);
      }
    }
  }

  lemma TakeInv(o: Options, src: Objects, dst: Objects, keys: seq<Key>, s: State, i: nat)
    requires Inv(o, src, dst, keys, s) && CanStep(s, i) && s.workers[i].Idle?
    ensures Inv(o, src, dst, keys, Step(o, s, i))
  {
    var s' := Step(o, s, i);
    var k := s.rest[0];
    assert forall q :: q in s.rest <==> q == k || q in s'.rest;
    assert k !in s'.rest && Distinct(s'.rest);
    assert forall j: nat, q :: Active(s', j, q) <==> Active(s, j, q) || (j == i && q == k);
    assert Active(s', i, k);
    forall q
      ensures Known(s', q) <==> Known(s, q)
    {
      if j: nat :| Active(s, j, q) { assert Active(s', j, q); }
      if j: nat :| Active(s', j, q) { assert j == i || Active(s, j, q); }
    }
    forall j: nat | j < |s'.workers|
      ensures OnTrack(o, src, dst, s', j)
    {
      if j != i { TrackElsewhere(o, src, dst, s, s', j); }
    }
  }

  lemma OneMoreJudged(o: Options, src: Objects, dst: Objects, done: set<Key>, k: Key, v: Verdict)
    requires k !in done
    ensures |Judged(o, src, dst, done + {k}, v)|
      == |Judged(o, src, dst, done, v)| + (if VerdictOf(o, src, dst, k) == v then 1 else 0)
  {
    assert Judged(o, src, dst, done + {k}, v)
      == Judged(o, src, dst, done, v) + (if VerdictOf(o, src, dst, k) == v then {k} else {});
  }

  lemma ReportInv(o: Options, src: Objects, dst: Objects, keys: seq<Key>, s: State, i: nat)
    requires Inv(o, src, dst, keys, s) && CanStep(s, i) && s.workers[i].Report?
    ensures Inv(o, src, dst, keys, Step(o, s, i))
  {
    var s' := Step(o, s, i);
    var k := s.workers[i].key;
    assert Active(s, i, k) && OnTrack(o, src, dst, s, i);
    OneMoreJudged(o, src, dst, s.done, k, Copied);
    OneMoreJudged(o, src, dst, s.done, k, Skipped);
    OneMoreJudged(o, src, dst, s.done, k, Failed);
    assert forall j: nat, q :: Active(s', j, q) <==> Active(s, j, q) && j != i;
    forall q
      ensures Known(s', q) <==> Known(s, q)
    {
      if j: nat :| Active(s, j, q) { assert j == i || Active(s', j, q); }
      if j: nat :| Active(s', j, q) { assert Active(s, j, q); }
    }
    forall j: nat | j < |s'.workers|
      ensures OnTrack(o, src, dst, s', j)
    {
      if j != i { TrackElsewhere(o, src, dst, s, s', j); }
    }
  }

  lemma StepInv(o: Options, src: Objects, dst: Objects, keys: seq<Key>, s: State, i: nat)
    requires Inv(o, src, dst, keys, s) && CanStep(s, i)
    ensures Inv(o, src, dst, keys, Step(o, s, i))
  {
    if s.workers[i].Idle? {
      TakeInv(o, src, dst, keys, s, i);
    } else if s.workers[i].Report? {
      ReportInv(o, src, dst, keys, s, i);
    } else {
      CallInv(o, src, dst, keys, s, i);
    }
  }

  lemma {:induction false} ScheduleInv(o: Options, src: Objects, dst: Objects, keys: seq<Key>, s: State, who: seq<nat>)
    requires Inv(o, src, dst, keys, s) && Schedule(o, s, who)
    ensures Inv(o, src, dst, keys, After(o, s, who))
    decreases |who|
  {
    if who != [] {
      StepInv(o, src, dst, keys, s, who[0]);
      ScheduleInv(o, src, dst, keys, Step(o, s, who[0]), who[1..]);
    }
  }

  lemma StartInv(o: Options, src: Objects, dst: Objects, keys: seq<Key>, workers: nat)
    requires Distinct(keys)
    ensures Inv(o, src, dst, keys, Start(src, dst, keys, workers))
  {
    assert forall v :: Judged(o, src, dst, {}, v) == {};
  }

  /* ---- Results ---- */

  function KeySet(keys: seq<Key>): set<Key> {
    set k | k in keys
  }

  /** Every complete schedule, with any number of workers, ends with the same stores and the same
      counters: those of copying each listed key on its own. */
  lemma EveryScheduleAgrees(o: Options, src: Objects, dst: Objects, keys: seq<Key>, workers: nat, who: seq<nat>)
    requires Distinct(keys) && Schedule(o, Start(src, dst, keys, workers), who)
    requires Finished(After(o, Start(src, dst, keys, workers), who))
    ensures var t := After(o, Start(src, dst, keys, workers), who);
      && (forall k :: k in keys ==> Settled(o, src, dst, t.src, t.dst, k))
      && (forall k :: k !in keys ==> Same(src, t.src, k) && Same(dst, t.dst, k))
      && t.res.copied == |Judged(o, src, dst, KeySet(keys), Copied)|
      && t.res.skipped == |Judged(o, src, dst, KeySet(keys), Skipped)|
      && t.res.failed == |Judged(o, src, dst, KeySet(keys), Failed)|
  {
    StartInv(o, src, dst, keys, workers);
    ScheduleInv(o, src, dst, keys, Start(src, dst, keys, workers), who);
    var t := After(o, Start(src, dst, keys, workers), who);
    assert forall i: nat, k :: !Active(t, i, k);
    forall k
      ensures k in keys <==> k in t.done
    {
      assert k in keys <==> Known(t, k);
    }
    assert t.done == KeySet(keys);
  }

  /** ... so two schedules, even with different numbers of workers, end in one state. */
  lemma SchedulesCommute(o: Options, src: Objects, dst: Objects, keys: seq<Key>, m: nat, n: nat, a: seq<nat>, b: seq<nat>)
    requires Distinct(keys)
    requires Schedule(o, Start(src, dst, keys, m), a) && Finished(After(o, Start(src, dst, keys, m), a))
    requires Schedule(o, Start(src, dst, keys, n), b) && Finished(After(o, Start(src, dst, keys, n), b))
    ensures After(o, Start(src, dst, keys, m), a).src == After(o, Start(src, dst, keys, n), b).src
    ensures After(o, Start(src, dst, keys, m), a).dst == After(o, Start(src, dst, keys, n), b).dst
    ensures After(o, Start(src, dst, keys, m), a).res == After(o, Start(src, dst, keys, n), b).res
  {
    EveryScheduleAgrees(o, src, dst, keys, m, a);
    EveryScheduleAgrees(o, src, dst, keys, n, b);
    var s, t := After(o, Start(src, dst, keys, m), a), After(o, Start(src, dst, keys, n), b);
    forall k
      ensures Same(s.src, t.src, k) && Same(s.dst, t.dst, k)
    {
      if k in keys { assert Settled(o, src, dst, s.src, s.dst, k) && Settled(o, src, dst, t.src, t.dst, k); }
    }
    SameEverywhere(s.src, t.src);
    SameEverywhere(s.dst, t.dst);
  }

  lemma SameEverywhere(a: Objects, b: Objects)
    requires forall k :: Same(a, b, k)
    ensures a == b
  {
    assert forall k :: k in a <==> k in b by {
      forall k
        ensures k in a <==> k in b
      {
        assert Same(a, b, k);
      }
    }
    assert forall k :: k in a ==> a[k] == b[k] by {
      forall k | k in a
        ensures a[k] == b[k]
      {
        assert Same(a, b, k);
      }
    }
  }

  lemma {:induction false} DistinctSize(keys: seq<Key>)
    requires Distinct(keys)
    ensures |KeySet(keys)| == |keys|
  {
    if keys != [] {
      DistinctSize(keys[1..]);
      assert keys[0] !in keys[1..];
      assert KeySet(keys) == KeySet(keys[1..]) + {keys[0]};
    }
  }

  /** Copied, skipped and failed keys add up to the listed keys. */
  lemma CountersAddUp(o: Options, src: Objects, dst: Objects, keys: seq<Key>, workers: nat, who: seq<nat>)
    requires Distinct(keys) && Schedule(o, Start(src, dst, keys, workers), who)
    requires Finished(After(o, Start(src, dst, keys, workers), who))
    ensures var c := After(o, Start(src, dst, keys, workers), who).res;
      c.copied + c.skipped + c.failed == |keys|
  {
    EveryScheduleAgrees(o, src, dst, keys, workers, who);
    DistinctSize(keys);
    JudgedPartition(o, src, dst, KeySet(keys));
  }

  lemma JudgedPartition(o: Options, src: Objects, dst: Objects, all: set<Key>)
    ensures |Judged(o, src, dst, all, Copied)| + |Judged(o, src, dst, all, Skipped)| + |Judged(o, src, dst, all, Failed)|
      == |all|
  {
    var a, b, c := Judged(o, src, dst, all, Copied), Judged(o, src, dst, all, Skipped), Judged(o, src, dst, all, Failed);
    assert all == (a + b) + c && a !! b && (a + b) !! c;
    DisjointSize(a, b);
    DisjointSize(a + b, c);
  }

  lemma DisjointSize(a: set<Key>, b: set<Key>)
    requires a !! b
    ensures |a + b| == |a| + |b|
  {
  }

  /** After every single step, with or without prune, no listed object is lost: it is still in the
      source, or its bytes are in the target. */
  lemma NothingIsLost(o: Options, src: Objects, dst: Objects, keys: seq<Key>, workers: nat, who: seq<nat>, k: Key)
    requires Distinct(keys) && Schedule(o, Start(src, dst, keys, workers), who)
    requires k in keys && k in src
    ensures var t := After(o, Start(src, dst, keys, workers), who);
      (k in t.src && t.src[k] == src[k]) || (k in t.dst && t.dst[k] == src[k])
  {
    StartInv(o, src, dst, keys, workers);
    ScheduleInv(o, src, dst, keys, Start(src, dst, keys, workers), who);
    var t := After(o, Start(src, dst, keys, workers), who);
    assert Known(t, k);
    if i: nat :| Active(t, i, k) {
      assert OnTrack(o, src, dst, t, i);
    } else if k in t.done {
      assert Settled(o, src, dst, t.src, t.dst, k);
    } else {
      assert Same(src, t.src, k);
    }
  }

  /** Without force, the value of an existing target key changes exactly when Stat on the target fails
      for a key whose copy then goes through with other bytes: a failed Stat counts as "not there". */
  lemma ExistingTargetChanges(o: Options, src: Objects, dst: Objects, keys: seq<Key>, workers: nat, who: seq<nat>, k: Key)
    requires Distinct(keys) && Schedule(o, Start(src, dst, keys, workers), who)
    requires Finished(After(o, Start(src, dst, keys, workers), who))
    requires !o.force && k in keys && k in dst
    ensures var t := After(o, Start(src, dst, keys, workers), who);
      !Same(dst, t.dst, k) <==>
        Fails(o, k, TargetStat) && !Fails(o, k, SourceOpen) && !Fails(o, k, SourceStat) && !Fails(o, k, TargetPut)
        && k in src && src[k] != dst[k]
  {
    EveryScheduleAgrees(o, src, dst, keys, workers, who);
    var t := After(o, Start(src, dst, keys, workers), who);
    assert Settled(o, src, dst, t.src, t.dst, k);
  }

  /** With force every listed source object that can be read and written ends in the target with the source's bytes,
      whatever the target held, and nothing is skipped. */
  lemma ForceCopies(o: Options, src: Objects, dst: Objects, keys: seq<Key>, workers: nat, who: seq<nat>)
    requires Distinct(keys) && Schedule(o, Start(src, dst, keys, workers), who)
    requires Finished(After(o, Start(src, dst, keys, workers), who))
    requires o.force
    ensures var t := After(o, Start(src, dst, keys, workers), who);
      && t.res.skipped == 0
      && (forall k :: k in keys && k in src && !Fails(o, k, SourceOpen) && !Fails(o, k, SourceStat) && !Fails(o, k, TargetPut)
            ==> k in t.dst && t.dst[k] == src[k])
      && (forall k :: k in keys && (k !in src || Fails(o, k, SourceOpen) || Fails(o, k, SourceStat) || Fails(o, k, TargetPut))
            ==> Same(dst, t.dst, k))
  {
    EveryScheduleAgrees(o, src, dst, keys, workers, who);
    var t := After(o, Start(src, dst, keys, workers), who);
    assert Judged(o, src, dst, KeySet(keys), Skipped) == {};
    forall k | k in keys
      ensures Settled(o, src, dst, t.src, t.dst, k)
    {
    }
  }

  /** Without force a key the target has, and can tell so, is skipped and left alone; every other listed object that can
      be read and written is copied. */
  lemma UnforcedCopiesMissing(o: Options, src: Objects, dst: Objects, keys: seq<Key>, workers: nat, who: seq<nat>)
    requires Distinct(keys) && Schedule(o, Start(src, dst, keys, workers), who)
    requires Finished(After(o, Start(src, dst, keys, workers), who))
    requires !o.force
    ensures var t := After(o, Start(src, dst, keys, workers), who);
      && t.res.skipped == |set k | k in keys && k in dst && !Fails(o, k, TargetStat)|
      && (forall k :: k in keys && k in dst && !Fails(o, k, TargetStat) ==> Same(dst, t.dst, k) && Same(src, t.src, k))
      && (forall k :: k in keys && k !in dst && k in src
            && !Fails(o, k, SourceOpen) && !Fails(o, k, SourceStat) && !Fails(o, k, TargetPut)
            ==> k in t.dst && t.dst[k] == src[k])
  {
    EveryScheduleAgrees(o, src, dst, keys, workers, who);
    var t := After(o, Start(src, dst, keys, workers), who);
    assert Judged(o, src, dst, KeySet(keys), Skipped) == set k | k in keys && k in dst && !Fails(o, k, TargetStat);
    forall k | k in keys
      ensures Settled(o, src, dst, t.src, t.dst, k)
    {
    }
  }

  /** A source object is removed exactly if pruning was asked for, its bytes are in the target and the delete works: never
      for a key that was skipped or could not be copied. */
  lemma PruneRemovesExactly(o: Options, src: Objects, dst: Objects, keys: seq<Key>, workers: nat, who: seq<nat>, k: Key)
    requires Distinct(keys) && Schedule(o, Start(src, dst, keys, workers), who)
    requires Finished(After(o, Start(src, dst, keys, workers), who))
    requires k in keys && k in src
    ensures var t := After(o, Start(src, dst, keys, workers), who);
      k !in t.src <==>
        && o.prune && !Fails(o, k, SourceDelete)
        && (o.force || k !in dst || Fails(o, k, TargetStat))
        && !Fails(o, k, SourceOpen) && !Fails(o, k, SourceStat) && !Fails(o, k, TargetPut)
  {
    EveryScheduleAgrees(o, src, dst, keys, workers, who);
    var t := After(o, Start(src, dst, keys, workers), who);
    assert Settled(o, src, dst, t.src, t.dst, k);
  }

  /** One listed key over an existing target whose Stat fails: the run overwrites it although nothing is forced. */
  lemma FailedStatOverwrites(k: Key)
    ensures var o := Options(false, false, map[k := {TargetStat}]);
      var s := Start(map[k := [1]], map[k := [2]], [k], 1);
      var who := [0, 0, 0, 0, 0, 0];
      Schedule(o, s, who) && Finished(After(o, s, who)) && After(o, s, who).dst == map[k := [1]]
  {
    var o := Options(false, false, map[k := {TargetStat}]);
    var src, dst: Objects := map[k := [1]], map[k := [2]];
    var s := Start(src, dst, [k], 1);
    var s1 := State(src, dst, [], [Check(k)], {}, Counters(0, 0, 0));
    var s2 := s1.(workers := [Open(k)]);
    var s3 := s1.(workers := [Stat(k, [1])]);
    var s4 := s1.(workers := [Put(k, [1])]);
    var s5 := State(src, map[k := [1]], [], [Report(k, Copied)], {}, Counters(0, 0, 0));
    var s6 := State(src, map[k := [1]], [], [Idle], {k}, Counters(1, 0, 0));
    assert s.workers == [Idle] && [k][1..] == [];
    assert Step(o, s, 0) == s1 && Step(o, s1, 0) == s2 && Step(o, s2, 0) == s3 && Step(o, s3, 0) == s4;
    assert Step(o, s4, 0) == s5 && Step(o, s5, 0) == s6;
    Stays(o, s5, s6, []);
    Stays(o, s4, s5, [0]);
    Stays(o, s3, s4, [0, 0]);
    Stays(o, s2, s3, [0, 0, 0]);
    Stays(o, s1, s2, [0, 0, 0, 0]);
    Stays(o, s, s1, [0, 0, 0, 0, 0]);
  }

  lemma Stays(o: Options, s: State, next: State, who: seq<nat>)
    requires CanStep(s, 0) && Step(o, s, 0) == next && Schedule(o, next, who)
    ensures Schedule(o, s, [0] + who) && After(o, s, [0] + who) == After(o, next, who)
  {
    assert ([0] + who)[1..] == who;
  }

  /** The keys that a run without force copies again: those whose target Stat fails while the rest of the copy works. */
  predicate CopiesAgain(o: Options, k: Key) {
    && Fails(o, k, TargetStat) && !Fails(o, k, SourceOpen) && !Fails(o, k, SourceStat) && !Fails(o, k, TargetPut)
    && !(o.prune && Fails(o, k, SourceDelete))
  }

  lemma RerunVerdict(first: Options, second: Options, src: Objects, dst: Objects, src': Objects, dst': Objects, k: Key)
    requires first.faults == second.faults && !second.force && k in src && k in src'
    requires Settled(first, src, dst, src', dst', k)
    ensures VerdictOf(second, src', dst', k) == Copied <==> CopiesAgain(second, k)
    ensures !Fails(second, k, TargetStat) ==> !Writes(second, src', dst', k)
  {
  }

  /** Which keys a second run copies, whatever failed in the first, forced or not, and with calls that fail for a key
      failing in both: exactly those whose target Stat fails. A key that could not be copied the first time
      fails again. */
  lemma RerunCopiesExactly(first: Options, second: Options, src: Objects, dst: Objects, keys: seq<Key>, m: nat,
    who: seq<nat>, again: seq<Key>, n: nat, who': seq<nat>)
    requires Distinct(keys) && Distinct(again) && first.faults == second.faults && !second.force
    requires forall k :: k in keys ==> k in src
    requires Schedule(first, Start(src, dst, keys, m), who) && Finished(After(first, Start(src, dst, keys, m), who))
    requires var t := After(first, Start(src, dst, keys, m), who);
      && (forall k :: k in again ==> k in keys && k in t.src)
      && Schedule(second, Start(t.src, t.dst, again, n), who')
      && Finished(After(second, Start(t.src, t.dst, again, n), who'))
    ensures var t := After(first, Start(src, dst, keys, m), who);
      var u := After(second, Start(t.src, t.dst, again, n), who');
      && u.res.copied == |set k | k in again && CopiesAgain(second, k)|
      && forall k :: k in again && !Fails(second, k, TargetStat) ==> Same(t.dst, u.dst, k) && Same(t.src, u.src, k)
  {
    EveryScheduleAgrees(first, src, dst, keys, m, who);
    var t := After(first, Start(src, dst, keys, m), who);
    EveryScheduleAgrees(second, t.src, t.dst, again, n, who');
    var u := After(second, Start(t.src, t.dst, again, n), who');
    forall k | k in again
      ensures VerdictOf(second, t.src, t.dst, k) == Copied <==> CopiesAgain(second, k)
      ensures !Fails(second, k, TargetStat) ==> Same(t.dst, u.dst, k) && Same(t.src, u.src, k)
    {
      assert Settled(first, src, dst, t.src, t.dst, k) && Settled(second, t.src, t.dst, u.src, u.dst, k);
      RerunVerdict(first, second, src, dst, t.src, t.dst, k);
    }
    assert Judged(second, t.src, t.dst, KeySet(again), Copied) == set k | k in again && CopiesAgain(second, k);
  }

  /** So when no target Stat fails a rerun copies nothing and changes nothing. */
  lemma RerunCopiesNothing(first: Options, second: Options, src: Objects, dst: Objects, keys: seq<Key>, m: nat,
    who: seq<nat>, again: seq<Key>, n: nat, who': seq<nat>)
    requires Distinct(keys) && Distinct(again) && first.faults == second.faults && !second.force
    requires forall k :: k in keys ==> k in src && !Fails(second, k, TargetStat)
    requires Schedule(first, Start(src, dst, keys, m), who) && Finished(After(first, Start(src, dst, keys, m), who))
    requires var t := After(first, Start(src, dst, keys, m), who);
      && (forall k :: k in again ==> k in keys && k in t.src)
      && Schedule(second, Start(t.src, t.dst, again, n), who')
      && Finished(After(second, Start(t.src, t.dst, again, n), who'))
    ensures var t := After(first, Start(src, dst, keys, m), who);
      var u := After(second, Start(t.src, t.dst, again, n), who');
      u.res.copied == 0 && u.src == t.src && u.dst == t.dst
  {
    RerunCopiesExactly(first, second, src, dst, keys, m, who, again, n, who');
    var t := After(first, Start(src, dst, keys, m), who);
    var u := After(second, Start(t.src, t.dst, again, n), who');
    EveryScheduleAgrees(second, t.src, t.dst, again, n, who');
    assert (set k | k in again && CopiesAgain(second, k)) == {};
    forall k
      ensures Same(t.src, u.src, k) && Same(t.dst, u.dst, k)
    {
      if k in again { assert !Fails(second, k, TargetStat); }
    }
    SameEverywhere(t.src, u.src);
    SameEverywhere(t.dst, u.dst);
  }

  /* ---- Every schedule ends ---- */

  function Left(t: Task): nat {
    match t
    case Idle => 0
    case Check(_) => 6
    case Open(_) => 5
    case Stat(_, _) => 4
    case Put(_, _) => 3
    case Remove(_) => 2
    case Report(_, _) => 1
  }

  function LeftOf(ws: seq<Task>): nat {
    if ws == [] then 0 else Left(ws[0]) + LeftOf(ws[1..])
  }

  function Work(s: State): nat {
    7 * |s.rest| + LeftOf(s.workers)
  }

  lemma {:induction false} LeftAfter(ws: seq<Task>, i: nat, t: Task)
    requires i < |ws|
    ensures LeftOf(ws[i := t]) == LeftOf(ws) - Left(ws[i]) + Left(t)
  {
    var ws' := ws[i := t];
    if i == 0 {
      assert ws'[1..] == ws[1..];
    } else {
      LeftAfter(ws[1..], i - 1, t);
      assert ws'[1..] == ws[1..][i - 1 := t];
    }
  }

  lemma TaskShrinks(o: Options, s: State, i: nat)
    requires CanStep(s, i)
    ensures var s' := Step(o, s, i);
      && |s'.workers| == |s.workers| && s'.workers == s.workers[i := s'.workers[i]]
      && Left(s'.workers[i]) + 7 * |s'.rest| < Left(s.workers[i]) + 7 * |s.rest|
  {
  }

  lemma StepDecreases(o: Options, s: State, i: nat)
    requires CanStep(s, i)
    ensures Work(Step(o, s, i)) < Work(s)
  {
    TaskShrinks(o, s, i);
    LeftAfter(s.workers, i, Step(o, s, i).workers[i]);
  }

  /** No schedule makes more than seven steps per key, and one that cannot be continued has finished
      (when there is a worker at all). */
  lemma {:induction false} SchedulesEnd(o: Options, s: State, who: seq<nat>)
    requires Schedule(o, s, who)
    ensures |who| <= Work(s)
    ensures |s.workers| > 0 && (forall i: nat :: !CanStep(After(o, s, who), i)) ==> Finished(After(o, s, who))
    decreases |who|
  {
    if who != [] {
      StepDecreases(o, s, who[0]);
      SchedulesEnd(o, Step(o, s, who[0]), who[1..]);
    } else if |s.workers| > 0 && !Finished(s) {
      if i: nat :| i < |s.workers| && !s.workers[i].Idle? { assert CanStep(s, i); } else { assert CanStep(s, 0); }
    }
  }

  lemma {:induction false} NothingLeft(ws: seq<Task>)
    requires forall i :: 0 <= i < |ws| ==> ws[i].Idle?
    ensures LeftOf(ws) == 0
  {
    if ws != [] { NothingLeft(ws[1..]); }
  }

  /** From the start, whatever fails and whoever is scheduled, the pool stops after at most seven steps per key. */
  lemma PoolStops(o: Options, src: Objects, dst: Objects, keys: seq<Key>, workers: nat, who: seq<nat>)
    requires Schedule(o, Start(src, dst, keys, workers), who)
    ensures |who| <= 7 * |keys|
  {
    SchedulesEnd(o, Start(src, dst, keys, workers), who);
    NothingLeft(Start(src, dst, keys, workers).workers);
  }
}
