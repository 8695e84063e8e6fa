/** The worker's event loop (cmd/vidsilo/worker.go:117-201): one goroutine beats, reclaims and claims; a claim
    round hands every claimed job to a goroutine through a channel with one slot per allowed job and blocks
    while the channel is full. Claimed jobs run in the database whether or not they have a slot yet. */
module WorkerLoop {

  /** `slots` is the worker's concurrency, `working` the slots in use, `todo` the jobs of the current round that
      still wait for one. */
  datatype State = State(slots: nat, working: nat, todo: nat)

  /** `Round(k)` claims `k` jobs, at most as many as there are slots, however many are in use. */
  datatype Op = Round(k: nat) | Hand | End | Beat

  /** The loop is back at its select. */
  predicate Free(s: State) {
    s.todo == 0
  }

  predicate Enabled(s: State, op: Op) {
    match op
    case Round(k) => Free(s) && k <= s.slots
    case Hand => s.todo > 0 && s.working < s.slots
    case End => s.working > 0
    case Beat => Free(s)
  }

  function Next(s: State, op: Op): State
    requires Enabled(s, op)
  {
    match op
    case Round(k) => s.(todo := k)
    case Hand => s.(todo := s.todo - 1, working := s.working + 1)
    case End => s.(working := s.working - 1)
    case Beat => s
  }

  ghost predicate Run(s: State, ops: seq<Op>)
    decreases |ops|
  {
    ops == [] || (Enabled(s, ops[0]) && Run(Next(s, ops[0]), ops[1..]))
  }

  ghost function After(s: State, ops: seq<Op>): State
    requires Run(s, ops)
    decreases |ops|
  {
    if ops == [] then s else After(Next(s, ops[0]), ops[1..])
  }

  function Ends(ops: seq<Op>): nat {
    if ops == [] then 0 else (if ops[0].End? then 1 else 0) + Ends(ops[1..])
  }

  function Claimed(ops: seq<Op>): nat {
    if ops == [] then 0 else (if ops[0].Round? then ops[0].k else 0) + Claimed(ops[1..])
  }

  predicate Sound(s: State) {
    s.working <= s.slots && s.todo <= s.slots
  }

  /** Every claimed job is working, waiting for a slot, or has ended. No more jobs work than there are slots, but
      up to twice as many are claimed, and so shown as running, at a time. */
  lemma {:induction false} JobsAccounted(s: State, ops: seq<Op>)
    requires Sound(s) && Run(s, ops)
    ensures var t := After(s, ops);
      && Sound(t) && t.slots == s.slots && t.working + t.todo <= 2 * s.slots
      && s.working + s.todo + Claimed(ops) == t.working + t.todo + Ends(ops)
    decreases |ops|
  {
    if ops != [] { JobsAccounted(Next(s, ops[0]), ops[1..]); }
  }

  /** Before the loop is back at its select, which is where it beats, at least as many jobs must have ended as the
      claimed and working jobs exceed the slots. */
  lemma BeatWaitsForJobs(s: State, ops: seq<Op>)
    requires Sound(s) && Run(s, ops) && Free(After(s, ops))
    ensures Ends(ops) >= s.working + s.todo + Claimed(ops) - s.slots
  {
    JobsAccounted(s, ops);
  }

  lemma {:induction false} HandAll(s: State) returns (ops: seq<Op>)
    requires Sound(s) && s.working + s.todo <= s.slots
    ensures Run(s, ops) && Free(After(s, ops)) && Ends(ops) == 0 && Claimed(ops) == 0
    decreases s.todo
  {
    if s.todo == 0 {
      ops := [];
    } else {
      var rest := HandAll(Next(s, Hand));
      ops := [Hand] + rest;
      assert ops[1..] == rest;
    }
  }

  /** A round lets the next beat through without waiting for any job to end exactly when all its jobs fit into
      the free slots. Otherwise the beat depends on how long the jobs take. */
  lemma RoundBlocksBeat(s: State, k: nat)
    requires Sound(s) && Free(s) && k <= s.slots
    ensures (exists ops :: Run(Next(s, Round(k)), ops) && Free(After(Next(s, Round(k)), ops)) && Ends(ops) == 0)
      <==> k <= s.slots - s.working
  {
    var t := Next(s, Round(k));
    if k <= s.slots - s.working {
      var ops := HandAll(t);
    } else if ops :| Run(t, ops) && Free(After(t, ops)) && Ends(ops) == 0 {
      BeatWaitsForJobs(t, ops);
    }
  }
}
