/** The disk LRU cache in front of a remote store (internal/store/cache.go): the index with its
    recorded size, and the cached files beside the backend. */
module Cache {
  import opened Wrappers

  type Key = string
  type Bytes = seq<nat>

  datatype Item = Item(key: Key, bytes: nat)

  /** `lru[0]` is the most recently used item; `size` is the recorded size. */
  datatype Index = Index(lru: seq<Item>, size: int)

  /* ---- The index as a value ---- */

  ghost predicate Distinct(lru: seq<Item>) {
    forall i, j :: 0 <= i < j < |lru| ==> lru[i].key != lru[j].key
  }

  predicate Has(lru: seq<Item>, key: Key) {
    exists i :: 0 <= i < |lru| && lru[i].key == key
  }

  function Position(lru: seq<Item>, key: Key): (i: nat)
    requires Has(lru, key)
    ensures i < |lru| && lru[i].key == key
  {
    if lru[0].key == key then 0 else assert Has(lru[1..], key) by { RestHas(lru, key); } 1 + Position(lru[1..], key)
  }

  lemma RestHas(lru: seq<Item>, key: Key)
    requires Has(lru, key) && lru[0].key != key
    ensures Has(lru[1..], key)
  {
    var i :| 0 <= i < |lru| && lru[i].key == key;
    assert lru[1..][i - 1].key == key;
  }

  function Without(lru: seq<Item>, i: nat): seq<Item>
    requires i < |lru|
  {
    lru[..i] + lru[i + 1..]
  }

  function Sum(lru: seq<Item>): nat {
    if lru == [] then 0 else Sum(lru[..|lru| - 1]) + lru[|lru| - 1].bytes
  }

  function Evicted(ix: Index, max: nat): Index
    decreases |ix.lru|
  {
    if ix.size > max && ix.lru != [] then
      var last := |ix.lru| - 1;
      Evicted(Index(ix.lru[..last], ix.size - ix.lru[last].bytes), max)
    else ix
  }

  function Inserted(ix: Index, max: nat, key: Key, bytes: nat): Index {
    if Has(ix.lru, key) then Index([Item(key, bytes)] + Without(ix.lru, Position(ix.lru, key)), ix.size)
    else Evicted(Index([Item(key, bytes)] + ix.lru, ix.size + bytes), max)
  }

  function Touched(ix: Index, key: Key): Index {
    if Has(ix.lru, key) then
      var i := Position(ix.lru, key);
      Index([ix.lru[i]] + Without(ix.lru, i), ix.size)
    else ix
  }

  function Removed(ix: Index, key: Key): Index {
    if Has(ix.lru, key) then
      var i := Position(ix.lru, key);
      Index(Without(ix.lru, i), ix.size - ix.lru[i].bytes)
    else ix
  }

  /** How far the recorded size is from the sum of the listed sizes. */
  function Drift(ix: Index): int {
    ix.size - Sum(ix.lru)
  }

  /* ---- Eviction ---- */

  lemma {:induction false} SumConcat(a: seq<Item>, b: seq<Item>)
    ensures Sum(a + b) == Sum(a) + Sum(b)
  {
    if b == [] {
      assert a + b == a;
    } else {
      assert (a + b)[..|a + b| - 1] == a + b[..|b| - 1];
      SumConcat(a, b[..|b| - 1]);
    }
  }

  lemma SumWithout(lru: seq<Item>, i: nat)
    requires i < |lru|
    ensures Sum(Without(lru, i)) == Sum(lru) - lru[i].bytes
  {
    var before, after := lru[..i], lru[i + 1..];
    SumOne(lru[i]);
    SumConcat([lru[i]], after);
    SumConcat(before, [lru[i]] + after);
    SumConcat(before, after);
    CutAt(lru, i);
  }

  lemma CutAt(lru: seq<Item>, i: nat)
    requires i < |lru|
    ensures lru == lru[..i] + ([lru[i]] + lru[i + 1..])
  {
  }

  lemma SumOne(item: Item)
    ensures Sum([item]) == item.bytes
  {
    assert [item][..0] == [];
  }

  /** No prefix of more than `n` items, plus the drift, fits. */
  ghost predicate LongerOverflow(lru: seq<Item>, n: nat, drift: int, max: nat) {
    forall m :: n < m <= |lru| ==> Sum(lru[..m]) + drift > max
  }

  lemma OverflowWithLast(lru: seq<Item>, n: nat, drift: int, max: nat)
    requires lru != [] && LongerOverflow(lru[..|lru| - 1], n, drift, max) && Sum(lru) + drift > max
    ensures LongerOverflow(lru, n, drift, max)
  {
    forall m | n < m <= |lru|
      ensures Sum(lru[..m]) + drift > max
    {
      if m < |lru| { PrefixOfFront(lru, m); } else { assert lru[..m] == lru; }
    }
  }

  /** What survives is the longest most-recently-used prefix whose sizes, plus the drift, fit. */
  lemma {:induction false} EvictedIsLongestPrefix(ix: Index, max: nat)
    ensures var r := Evicted(ix, max);
      && |r.lru| <= |ix.lru| && r.lru == ix.lru[..|r.lru|] && Drift(r) == Drift(ix)
      && (r.lru != [] ==> Sum(r.lru) + Drift(ix) <= max)
      && LongerOverflow(ix.lru, |r.lru|, Drift(ix), max)
    decreases |ix.lru|
  {
    if ix.size > max && ix.lru != [] {
      var last := |ix.lru| - 1;
      var front := Index(ix.lru[..last], ix.size - ix.lru[last].bytes);
      EvictedIsLongestPrefix(front, max);
      var n := |Evicted(front, max).lru|;
      PrefixOfFront(ix.lru, n);
      OverflowWithLast(ix.lru, n, Drift(ix), max);
    } else {
      assert ix.lru[..|ix.lru|] == ix.lru;
    }
  }

  lemma PrefixOfFront(lru: seq<Item>, m: nat)
    requires m < |lru|
    ensures lru[..|lru| - 1][..m] == lru[..m]
  {
  }

  lemma InsertNew(ix: Index, max: nat, key: Key, bytes: nat)
    requires !Has(ix.lru, key)
    ensures var all := [Item(key, bytes)] + ix.lru;
      var r := Inserted(ix, max, key, bytes);
      && Drift(r) == Drift(ix) && |r.lru| <= |all| && r.lru == all[..|r.lru|]
      && (r.lru != [] ==> r.lru[0].key == key && Sum(r.lru) + Drift(ix) <= max)
      && (forall m :: |r.lru| < m <= |all| ==> Sum(all[..m]) + Drift(ix) > max)
      && (ix.size <= max ==> r.size <= max)
    ensures Has(Inserted(ix, max, key, bytes).lru, key) <==> bytes + Drift(ix) <= max
  {
    var all := [Item(key, bytes)] + ix.lru;
    SumConcat([Item(key, bytes)], ix.lru);
    assert [Item(key, bytes)][..0] == [];
    EvictedIsLongestPrefix(Index(all, ix.size + bytes), max);
    var r := Inserted(ix, max, key, bytes);
    assert all[..1] == [Item(key, bytes)] && Sum(all[..1]) == bytes;
    SumGrows(all, 1, |r.lru|);
    if r.lru != [] {
      assert r.lru[0].key == key;
    }
  }

  lemma {:induction false} SumGrows(lru: seq<Item>, m: nat, n: nat)
    requires n <= |lru| && m <= |lru|
    ensures m <= n ==> Sum(lru[..m]) <= Sum(lru[..n])
    decreases n
  {
    if m < n {
      assert lru[..n][..n - 1] == lru[..n - 1];
      SumGrows(lru, m, n - 1);
    }
  }

  /** With a recorded size that is exact, inserting a new key keeps the longest most-recently-used
      prefix that fits the limit. */
  lemma InsertKeepsLongestFittingPrefix(ix: Index, max: nat, key: Key, bytes: nat)
    requires !Has(ix.lru, key) && Drift(ix) == 0
    ensures var all := [Item(key, bytes)] + ix.lru;
      var r := Inserted(ix, max, key, bytes);
      && |r.lru| <= |all| && r.lru == all[..|r.lru|] && Sum(r.lru) == r.size <= max
      && forall m :: |r.lru| < m <= |all| ==> Sum(all[..m]) > max
  {
    InsertNew(ix, max, key, bytes);
    assert Inserted(ix, max, key, bytes).lru == [] ==> Sum([]) == 0;
  }

  /* ---- Runs ---- */

  datatype Op = Insert(key: Key, bytes: nat) | Touch(key: Key) | Remove(key: Key)

  function Next(ix: Index, max: nat, op: Op): Index {
    match op
    case Insert(key, bytes) => Inserted(ix, max, key, bytes)
    case Touch(key) => Touched(ix, key)
    case Remove(key) => Removed(ix, key)
  }

  /** Old size minus new size when the step re-inserts a listed key. */
  function Change(ix: Index, op: Op): int {
    if op.Insert? && Has(ix.lru, op.key) then ix.lru[Position(ix.lru, op.key)].bytes - op.bytes else 0
  }

  function After(ix: Index, max: nat, ops: seq<Op>): Index
    decreases |ops|
  {
    if ops == [] then ix else After(Next(ix, max, ops[0]), max, ops[1..])
  }

  function NetChange(ix: Index, max: nat, ops: seq<Op>): int
    decreases |ops|
  {
    if ops == [] then 0 else Change(ix, ops[0]) + NetChange(Next(ix, max, ops[0]), max, ops[1..])
  }

  lemma {:induction false} AfterOneMore(ix: Index, max: nat, ops: seq<Op>, op: Op)
    ensures After(ix, max, ops + [op]) == Next(After(ix, max, ops), max, op)
    decreases |ops|
  {
    if ops == [] {
      assert [op][1..] == [] && [] + [op] == [op];
    } else {
      AfterOneMore(Next(ix, max, ops[0]), max, ops[1..], op);
      assert (ops + [op])[1..] == ops[1..] + [op];
    }
  }

  lemma DistinctWithout(lru: seq<Item>, i: nat)
    requires Distinct(lru) && i < |lru|
    ensures Distinct(Without(lru, i)) && !Has(Without(lru, i), lru[i].key)
  {
  }

  lemma StepDistinct(ix: Index, max: nat, op: Op)
    requires Distinct(ix.lru)
    ensures Distinct(Next(ix, max, op).lru)
  {
    if Has(ix.lru, op.key) {
      DistinctWithout(ix.lru, Position(ix.lru, op.key));
      var w := Without(ix.lru, Position(ix.lru, op.key));
      assert forall i :: 0 <= i < |w| ==> w[i].key != op.key;
    } else if op.Insert? {
      InsertNew(ix, max, op.key, op.bytes);
      assert forall i :: 0 <= i < |ix.lru| ==> ix.lru[i].key != op.key;
    }
  }

  lemma StepAccounts(ix: Index, max: nat, op: Op)
    requires ix.size <= max
    ensures Drift(Next(ix, max, op)) == Drift(ix) + Change(ix, op)
    ensures Next(ix, max, op).size <= max
  {
    if Has(ix.lru, op.key) {
      var i := Position(ix.lru, op.key);
      SumWithout(ix.lru, i);
      var front := if op.Insert? then Item(op.key, op.bytes) else ix.lru[i];
      SumConcat([front], Without(ix.lru, i));
      assert [front][..0] == [];
    } else if op.Insert? {
      InsertNew(ix, max, op.key, op.bytes);
    }
  }

  /** Over every run: no key is listed twice, the recorded size never exceeds the limit, and it equals
      the sum of the listed sizes plus the net of (old - new) over re-inserts of a listed key. */
  lemma {:induction false} RecordedSize(ix: Index, max: nat, ops: seq<Op>)
    requires Distinct(ix.lru) && ix.size <= max
    ensures var r := After(ix, max, ops);
      Distinct(r.lru) && r.size <= max && r.size == Sum(r.lru) + Drift(ix) + NetChange(ix, max, ops)
    decreases |ops|
  {
    if ops != [] {
      StepDistinct(ix, max, ops[0]);
      StepAccounts(ix, max, ops[0]);
      RecordedSize(Next(ix, max, ops[0]), max, ops[1..]);
    }
  }

  /* ---- Recency ---- */

  /** When the key was last inserted or touched, as a position in the run counted from one; zero if never. */
  function LastUse(ops: seq<Op>, key: Key): nat {
    if ops == [] then 0
    else
      var last := ops[|ops| - 1];
      if !last.Remove? && last.key == key then |ops| else LastUse(ops[..|ops| - 1], key)
  }

  /** The size given with the key's last insert. */
  function LastBytes(ops: seq<Op>, key: Key): nat {
    if ops == [] then 0
    else
      var last := ops[|ops| - 1];
      if last.Insert? && last.key == key then last.bytes else LastBytes(ops[..|ops| - 1], key)
  }

  /** The items are ordered by their last use, newest first, and each has the size of its last insert. */
  ghost predicate ByUse(ops: seq<Op>, lru: seq<Item>) {
    && (forall i, j :: 0 <= i < j < |lru| ==> LastUse(ops, lru[i].key) > LastUse(ops, lru[j].key))
    && (forall i :: 0 <= i < |lru| ==> LastUse(ops, lru[i].key) > 0 && lru[i].bytes == LastBytes(ops, lru[i].key))
  }

  lemma {:induction false} LastUseWithin(ops: seq<Op>, key: Key)
    ensures LastUse(ops, key) <= |ops|
  {
    if ops != [] { LastUseWithin(ops[..|ops| - 1], key); }
  }

  /** A step changes what is known of its own key only; a removal is no use. */
  lemma UseOfOthers(ops: seq<Op>, op: Op, key: Key)
    ensures LastUse(ops + [op], key) == (if !op.Remove? && op.key == key then |ops| + 1 else LastUse(ops, key))
    ensures LastBytes(ops + [op], key) == (if op.Insert? && op.key == key then op.bytes else LastBytes(ops, key))
  {
    assert (ops + [op])[..|ops|] == ops;
  }

  lemma WithoutByUse(ops: seq<Op>, op: Op, lru: seq<Item>, i: nat)
    requires ByUse(ops, lru) && i < |lru| && Distinct(lru) && op.key == lru[i].key
    ensures ByUse(ops + [op], Without(lru, i))
  {
    var rest := Without(lru, i);
    forall m | 0 <= m < |rest|
      ensures LastUse(ops + [op], rest[m].key) == LastUse(ops, rest[m].key)
      ensures LastBytes(ops + [op], rest[m].key) == LastBytes(ops, rest[m].key)
    {
      UseOfOthers(ops, op, rest[m].key);
    }
  }

  lemma OthersByUse(ops: seq<Op>, op: Op, lru: seq<Item>)
    requires ByUse(ops, lru) && !Has(lru, op.key)
    ensures ByUse(ops + [op], lru)
  {
    forall m | 0 <= m < |lru|
      ensures LastUse(ops + [op], lru[m].key) == LastUse(ops, lru[m].key)
      ensures LastBytes(ops + [op], lru[m].key) == LastBytes(ops, lru[m].key)
    {
      UseOfOthers(ops, op, lru[m].key);
    }
  }

  /** Whatever has just been used goes in front. */
  lemma FrontByUse(ops: seq<Op>, op: Op, item: Item, lru: seq<Item>)
    requires ByUse(ops + [op], lru) && !Has(lru, op.key)
    requires !op.Remove? && item.key == op.key && item.bytes == LastBytes(ops + [op], op.key)
    ensures ByUse(ops + [op], [item] + lru)
  {
    UseOfOthers(ops, op, op.key);
    forall m | 0 <= m < |lru|
      ensures LastUse(ops + [op], lru[m].key) <= |ops|
    {
      UseOfOthers(ops, op, lru[m].key);
      LastUseWithin(ops, lru[m].key);
    }
  }

  lemma StepByUse(ix: Index, max: nat, ops: seq<Op>, op: Op)
    requires Distinct(ix.lru) && ByUse(ops, ix.lru)
    ensures ByUse(ops + [op], Next(ix, max, op).lru)
    ensures op.Insert? && !Has(ix.lru, op.key) ==> ByUse(ops + [op], [Item(op.key, op.bytes)] + ix.lru)
  {
    UseOfOthers(ops, op, op.key);
    if Has(ix.lru, op.key) {
      var i := Position(ix.lru, op.key);
      DistinctWithout(ix.lru, i);
      WithoutByUse(ops, op, ix.lru, i);
      if !op.Remove? {
        FrontByUse(ops, op, if op.Insert? then Item(op.key, op.bytes) else ix.lru[i], Without(ix.lru, i));
      }
    } else {
      OthersByUse(ops, op, ix.lru);
      if op.Insert? {
        FrontByUse(ops, op, Item(op.key, op.bytes), ix.lru);
        InsertNew(ix, max, op.key, op.bytes);
      }
    }
  }

  /** In every reachable index the listed keys are ordered by their latest insert or touch, newest first. */
  lemma {:induction false} OrderedByUse(max: nat, ops: seq<Op>)
    ensures var r := After(Index([], 0), max, ops); Distinct(r.lru) && ByUse(ops, r.lru)
    decreases |ops|
  {
    if ops != [] {
      var front, op := ops[..|ops| - 1], ops[|ops| - 1];
      assert ops == front + [op];
      OrderedByUse(max, front);
      AfterOneMore(Index([], 0), max, front, op);
      StepDistinct(After(Index([], 0), max, front), max, op);
      StepByUse(After(Index([], 0), max, front), max, front, op);
    }
  }

  /** What a new key leaves listed, after any run: with all keys in order of their latest use, the longest prefix that
      fits. So every key that goes was used before every key that stays. */
  lemma EvictsLeastRecent(max: nat, ops: seq<Op>, key: Key, bytes: nat)
    requires !Has(After(Index([], 0), max, ops).lru, key)
    ensures var ix := After(Index([], 0), max, ops);
      var ops' := ops + [Insert(key, bytes)];
      var r := After(Index([], 0), max, ops');
      var all := [Item(key, bytes)] + ix.lru;
      && ByUse(ops', all) && |r.lru| <= |all| && r.lru == all[..|r.lru|]
      && (r.lru != [] ==> Sum(r.lru) + Drift(ix) <= max) && LongerOverflow(all, |r.lru|, Drift(ix), max)
      && forall i, j :: 0 <= i < |r.lru| <= j < |all| ==> LastUse(ops', r.lru[i].key) > LastUse(ops', all[j].key)
  {
    var ix := After(Index([], 0), max, ops);
    OrderedByUse(max, ops);
    AfterOneMore(Index([], 0), max, ops, Insert(key, bytes));
    StepByUse(ix, max, ops, Insert(key, bytes));
    InsertNew(ix, max, key, bytes);
  }

  /* ---- The footprint ---- */

  /** What an insert may add: a listed key may grow by what is left below the limit; for a new key no prefix of
      the list with the key in front may fit by the recorded size and not by the real one. */
  ghost predicate Admissible(ix: Index, max: nat, key: Key, bytes: nat) {
    if Has(ix.lru, key) then bytes - ix.lru[Position(ix.lru, key)].bytes <= max - Sum(ix.lru)
    else
      var all := [Item(key, bytes)] + ix.lru;
      forall m :: 0 <= m <= |all| && Sum(all[..m]) + Drift(ix) <= max ==> Sum(all[..m]) <= max
  }

  /** One insert leaves the footprint within the limit exactly when it is admissible. */
  lemma InsertWithinLimit(ix: Index, max: nat, key: Key, bytes: nat)
    requires Sum(ix.lru) <= max
    ensures Sum(Inserted(ix, max, key, bytes).lru) <= max <==> Admissible(ix, max, key, bytes)
  {
    var r := Inserted(ix, max, key, bytes);
    if Has(ix.lru, key) {
      var i := Position(ix.lru, key);
      SumWithout(ix.lru, i);
      SumOne(Item(key, bytes));
      SumConcat([Item(key, bytes)], Without(ix.lru, i));
    } else {
      var all := [Item(key, bytes)] + ix.lru;
      InsertNew(ix, max, key, bytes);
      if Sum(r.lru) <= max {
        forall m | 0 <= m <= |all| && Sum(all[..m]) + Drift(ix) <= max
          ensures Sum(all[..m]) <= max
        {
          SumGrows(all, m, |r.lru|);
        }
      }
    }
  }

  /** A recorded size that is not below the real one admits every new key. */
  lemma NewKeysAdmissible(ix: Index, max: nat, key: Key, bytes: nat)
    requires !Has(ix.lru, key) && Drift(ix) >= 0
    ensures Admissible(ix, max, key, bytes)
  {
  }

  /** The footprint is within the limit now and after each step. */
  ghost predicate AlwaysWithin(ix: Index, max: nat, ops: seq<Op>)
    decreases |ops|
  {
    Sum(ix.lru) <= max && (ops == [] || AlwaysWithin(Next(ix, max, ops[0]), max, ops[1..]))
  }

  ghost predicate EachAdmissible(ix: Index, max: nat, ops: seq<Op>)
    decreases |ops|
  {
    ops == [] || ((ops[0].Insert? ==> Admissible(ix, max, ops[0].key, ops[0].bytes))
      && EachAdmissible(Next(ix, max, ops[0]), max, ops[1..]))
  }

  /** Over a whole run the footprint stays within the limit exactly when every insert is admissible when it is made. */
  lemma {:induction false} FootprintWithinLimit(ix: Index, max: nat, ops: seq<Op>)
    requires Sum(ix.lru) <= max
    ensures AlwaysWithin(ix, max, ops) <==> EachAdmissible(ix, max, ops)
    decreases |ops|
  {
    if ops != [] {
      var next := Next(ix, max, ops[0]);
      if ops[0].Insert? {
        InsertWithinLimit(ix, max, ops[0].key, ops[0].bytes);
      } else if Has(ix.lru, ops[0].key) {
        var i := Position(ix.lru, ops[0].key);
        SumWithout(ix.lru, i);
        SumOne(ix.lru[i]);
        SumConcat([ix.lru[i]], Without(ix.lru, i));
      }
      if Sum(next.lru) <= max { FootprintWithinLimit(next, max, ops[1..]); }
    }
  }

  ghost predicate SizesFixed(size: map<Key, nat>, ops: seq<Op>) {
    forall op :: op in ops && op.Insert? ==> op.key in size && op.bytes == size[op.key]
  }

  ghost predicate Matches(size: map<Key, nat>, lru: seq<Item>) {
    forall i :: 0 <= i < |lru| ==> lru[i].key in size && lru[i].bytes == size[lru[i].key]
  }

  lemma StepMatches(size: map<Key, nat>, ix: Index, max: nat, op: Op)
    requires Matches(size, ix.lru)
    requires op.Insert? ==> op.key in size && op.bytes == size[op.key]
    ensures Matches(size, Next(ix, max, op).lru) && Change(ix, op) == 0
  {
    if op.Insert? && !Has(ix.lru, op.key) {
      InsertNew(ix, max, op.key, op.bytes);
    } else if Has(ix.lru, op.key) {
      assert Matches(size, Without(ix.lru, Position(ix.lru, op.key)));
    }
  }

  lemma {:induction false} FixedSizes(size: map<Key, nat>, ix: Index, max: nat, ops: seq<Op>)
    requires SizesFixed(size, ops) && Matches(size, ix.lru)
    ensures NetChange(ix, max, ops) == 0
    decreases |ops|
  {
    if ops != [] {
      assert ops[0] in ops;
      StepMatches(size, ix, max, ops[0]);
      FixedSizes(size, Next(ix, max, ops[0]), max, ops[1..]);
    }
  }

  /** When the size of a key never changes, the recorded size is the footprint and stays within the limit. */
  lemma FixedSizesStayWithinLimit(size: map<Key, nat>, max: nat, ops: seq<Op>)
    requires SizesFixed(size, ops)
    ensures var r := After(Index([], 0), max, ops); r.size == Sum(r.lru) <= max
  {
    FixedSizes(size, Index([], 0), max, ops);
    RecordedSize(Index([], 0), max, ops);
  }

  /** A drift upwards never heals and costs capacity: once it has reached the limit, every new key of
      positive size is evicted by its own insertion, and the cache stays empty. */
  lemma DriftedCacheHoldsNothing(ix: Index, max: nat, key: Key, bytes: nat)
    requires !Has(ix.lru, key) && Drift(ix) == max && bytes > 0
    ensures Inserted(ix, max, key, bytes).lru == []
    ensures Drift(Inserted(ix, max, key, bytes)) == max
  {
    InsertNew(ix, max, key, bytes);
  }

  /** Such a drift is reached by re-inserting a key of the limit's size as empty: from then on the cache evicts
      every new key at once and serves nothing from disk. */
  lemma DriftReachesLimit(max: nat, key: Key, bytes: nat)
    requires max > 0 && bytes > 0 && key != "a"
    ensures var ix := After(Index([], 0), max, [Insert("a", max), Insert("a", 0)]);
      Drift(ix) == max && Inserted(ix, max, key, bytes).lru == []
  {
    var one := Index([Item("a", max)], max);
    var two := Index([Item("a", 0)], max);
    var ops := [Insert("a", max), Insert("a", 0)];
    assert [Item("a", max)] + [] == [Item("a", max)] && !Has([], "a");
    assert Next(Index([], 0), max, ops[0]) == one;
    assert one.lru[0].key == "a" && Without(one.lru, 0) == [];
    assert Next(one, max, ops[1]) == two;
    ghost var rest := [Insert("a", 0)];
    assert ops[1..] == rest && rest[1..] == [] && After(one, max, rest) == two;
    SumOne(two.lru[0]);
    DriftedCacheHoldsNothing(two, max, key, bytes);
  }

  /** A key that grows is re-inserted without being accounted for, and the footprint exceeds the limit. */
  lemma GrowingKeyOverflows()
    ensures var r := After(Index([], 0), 10, [Insert("a", 1), Insert("a", 100)]);
      Sum(r.lru) == 100 && r.size == 1
  {
    var ops := [Insert("a", 1), Insert("a", 100)];
    var one := Index([Item("a", 1)], 1);
    var two := Index([Item("a", 100)], 1);
    assert [Item("a", 1)] + [] == [Item("a", 1)];
    assert Next(Index([], 0), 10, ops[0]) == one;
    assert Has(one.lru, "a") by { assert one.lru[0].key == "a"; }
    assert Without(one.lru, 0) == [];
    assert Next(one, 10, ops[1]) == two;
    assert ops[1..] == [Insert("a", 100)] && ops[1..][1..] == [];
    assert two.lru[..0] == [];
  }

  /* ---- The cache object ---- */

  ghost function KeysOf(lru: seq<Item>): set<Key> {
    set i | 0 <= i < |lru| :: lru[i].key
  }

  lemma KeysOfHas(lru: seq<Item>, key: Key)
    ensures key in KeysOf(lru) <==> Has(lru, key)
  {
  }

  lemma KeysOfPrefix(lru: seq<Item>)
    requires lru != [] && Distinct(lru)
    ensures KeysOf(lru[..|lru| - 1]) == KeysOf(lru) - {lru[|lru| - 1].key}
    ensures Distinct(lru[..|lru| - 1])
  {
    var last := |lru| - 1;
    forall k
      ensures k in KeysOf(lru[..last]) <==> k in KeysOf(lru) && k != lru[last].key
    {
      if k in KeysOf(lru[..last]) {
        var i :| 0 <= i < last && lru[..last][i].key == k;
        assert lru[i].key == k;
      }
      if k in KeysOf(lru) && k != lru[last].key {
        var i :| 0 <= i < |lru| && lru[i].key == k;
        assert lru[..last][i].key == k;
      }
    }
  }

  lemma KeysOfWithout(lru: seq<Item>, i: nat)
    requires i < |lru| && Distinct(lru)
    ensures KeysOf(Without(lru, i)) == KeysOf(lru) - {lru[i].key}
  {
    var w := Without(lru, i);
    forall k
      ensures k in KeysOf(w) <==> k in KeysOf(lru) && k != lru[i].key
    {
      if k in KeysOf(w) {
        var m :| 0 <= m < |w| && w[m].key == k;
        assert lru[if m < i then m else m + 1].key == k;
      }
      if k in KeysOf(lru) && k != lru[i].key {
        var m :| 0 <= m < |lru| && lru[m].key == k;
        assert w[if m < i then m else m - 1].key == k;
      }
    }
  }

  lemma KeysOfPushed(item: Item, lru: seq<Item>)
    ensures KeysOf([item] + lru) == KeysOf(lru) + {item.key}
  {
    var all := [item] + lru;
    forall k
      ensures k in KeysOf(all) <==> k in KeysOf(lru) || k == item.key
    {
      if k in KeysOf(lru) {
        var m :| 0 <= m < |lru| && lru[m].key == k;
        assert all[m + 1].key == k;
      }
      assert all[0].key == item.key;
    }
  }

  /** What an Open answers: the bytes served, a missing key, an error, or the abort of the process by unlocking a
      mutex that is not held. */
  datatype Reply = Served(data: Bytes) | Missing | Failed | Aborted

  datatype Size = Sized(bytes: nat) | NoSize | NoAnswer

  /** How a write re-reads the object it has just put: the backend does not open it, the copy breaks off, or the
      file is complete, with or without a size from the backend. */
  datatype Reread = Unopened | Broken | Copied(statFails: bool)

  function InsertsOf(files: map<Key, Bytes>, listed: seq<Key>): seq<Op>
    requires forall k :: k in listed ==> k in files
  {
    if listed == [] then []
    else InsertsOf(files, listed[..|listed|-1]) + [Insert(listed[|listed|-1], |files[listed[|listed|-1]]|)]
  }

  /** The index of the files walked so far: no file remains that is not indexed, at its own size. */
  ghost predicate Rebuilt(ix: Index, max: nat, files: map<Key, Bytes>, disk: map<Key, Bytes>, walked: set<Key>) {
    && Distinct(ix.lru) && Drift(ix) == 0 && ix.size <= max && KeysOf(ix.lru) <= walked
    && files == disk - (walked - KeysOf(ix.lru))
    && forall m :: 0 <= m < |ix.lru| ==> ix.lru[m].key in disk && ix.lru[m].bytes == |disk[ix.lru[m].key]|
  }

  lemma RebuildStep(ix: Index, max: nat, files: map<Key, Bytes>, disk: map<Key, Bytes>, walked: set<Key>, key: Key)
    requires Rebuilt(ix, max, files, disk, walked) && key in disk && key !in walked
    ensures key in files && files[key] == disk[key]
    ensures var next := Inserted(ix, max, key, |disk[key]|);
      Rebuilt(next, max, files - (KeysOf(ix.lru) + {key} - KeysOf(next.lru)), disk, walked + {key})
  {
    KeysOfHas(ix.lru, key);
    var next := Inserted(ix, max, key, |disk[key]|);
    InsertNew(ix, max, key, |disk[key]|);
    InsertedKeys(ix, max, key, |disk[key]|);
    StepDistinct(ix, max, Insert(key, |disk[key]|));
    forall m | 0 <= m < |next.lru|
      ensures next.lru[m].key in disk && next.lru[m].bytes == |disk[next.lru[m].key]|
    {
      InsertedItem(ix, max, key, |disk[key]|, m);
    }
  }

  /** `entries` holds the keys of the index; `files` and `backend` are the two stores. */
  class Cache {
    const maxSize: nat
    var size: int
    var entries: set<Key>
    var lru: seq<Item>
    var files: map<Key, Bytes>
    var backend: map<Key, Bytes>

    /** The index and the recency list hold the same keys, once each. */
    ghost predicate Valid()
      reads this
    {
      Distinct(lru) && entries == KeysOf(lru)
    }

    ghost function View(): Index
      reads this
    {
      Index(lru, size)
    }

    /** Every indexed file exists. */
    ghost predicate Present()
      reads this
    {
      AllPresent(lru, files)
    }

    /** Every cached file is what the backend holds, at its listed size. */
    ghost predicate Coherent()
      reads this
    {
      AllFaithful(lru, files, backend)
    }

    /** Rebuilds the index from the files found on disk, in the order `listed` of the directory walk. */
    constructor (maxSize: nat, backend: map<Key, Bytes>, disk: map<Key, Bytes>, listed: seq<Key>)
      requires (forall k :: k in listed <==> k in disk)
      requires forall i, j :: 0 <= i < j < |listed| ==> listed[i] != listed[j]
      ensures Valid() && Present() && this.maxSize == maxSize && this.backend == backend
      ensures View() == After(Index([], 0), maxSize, InsertsOf(disk, listed))
      ensures Drift(View()) == 0 && size <= maxSize
      ensures files.Keys == KeysOf(lru) && forall k :: k in files ==> k in disk && files[k] == disk[k]
      ensures (forall k :: k in disk ==> k in backend && backend[k] == disk[k]) ==> Coherent()
    {
      this.maxSize, this.backend := maxSize, backend;
      size, entries, lru, files := 0, {}, [], disk;
      new;
      RebuildIndex(listed);
      assert SetOf(listed) == disk.Keys;
    }

    method RebuildIndex(listed: seq<Key>)
      requires Valid() && View() == Index([], 0)
      requires forall k :: k in listed ==> k in files
      requires forall i, j :: 0 <= i < j < |listed| ==> listed[i] != listed[j]
      modifies this`size, this`entries, this`lru, this`files
      ensures Valid() && View() == After(Index([], 0), maxSize, InsertsOf(old(files), listed))
      ensures Rebuilt(View(), maxSize, files, old(files), SetOf(listed))
    {
      ghost var disk := files;
      for i := 0 to |listed|
        invariant Valid() && View() == After(Index([], 0), maxSize, InsertsOf(disk, listed[..i]))
        invariant Rebuilt(View(), maxSize, files, disk, SetOf(listed[..i]))
      {
        var key := listed[i];
        assert key in listed && key !in listed[..i];
        assert listed[..i + 1] == listed[..i] + [key] && listed[..i + 1][..i] == listed[..i];
        SetOfSnoc(listed[..i], key);
        AfterOneMore(Index([], 0), maxSize, InsertsOf(disk, listed[..i]), Insert(key, |disk[key]|));
        RebuildStep(View(), maxSize, files, disk, SetOf(listed[..i]), key);
        InsertLocked(key, |files[key]|);
      }
      assert listed[..|listed|] == listed;
    }

    method EvictLocked()
      requires Valid()
      modifies this`size, this`entries, this`lru, this`files
      ensures Valid() && View() == Evicted(old(View()), maxSize)
      ensures files == old(files) - (KeysOf(old(lru)) - KeysOf(lru))
    {
      while size > maxSize && |lru| > 0
        invariant Valid() && KeysOf(lru) <= KeysOf(old(lru))
        invariant Evicted(View(), maxSize) == Evicted(old(View()), maxSize)
        invariant files == old(files) - (KeysOf(old(lru)) - KeysOf(lru))
        decreases |lru|
      {
        var entry := lru[|lru| - 1];
        KeysOfPrefix(lru);
        assert entry.key in KeysOf(lru);
        lru := lru[..|lru| - 1];
        entries := entries - {entry.key};
        size := size - entry.bytes;
        files := files - {entry.key};
      }
    }

    method InsertLocked(key: Key, bytes: nat)
      requires Valid()
      modifies this`size, this`entries, this`lru, this`files
      ensures Valid() && View() == Inserted(old(View()), maxSize, key, bytes)
      ensures files == old(files) - (KeysOf(old(lru)) + {key} - KeysOf(lru))
    {
      KeysOfHas(lru, key);
      if key in entries {
        var i := Position(lru, key);
        DistinctWithout(lru, i);
        KeysOfWithout(lru, i);
        KeysOfPushed(Item(key, bytes), Without(lru, i));
        PushDistinct(Item(key, bytes), Without(lru, i));
        lru := [Item(key, bytes)] + Without(lru, i);
        return;
      }
      KeysOfPushed(Item(key, bytes), lru);
      PushDistinct(Item(key, bytes), lru);
      lru := [Item(key, bytes)] + lru;
      entries := entries + {key};
      size := size + bytes;
      EvictLocked();
    }

    method TouchLocked(key: Key)
      requires Valid()
      modifies this`lru
      ensures Valid() && View() == Touched(old(View()), key) && KeysOf(lru) == KeysOf(old(lru))
    {
      KeysOfHas(lru, key);
      if key in entries {
        var i := Position(lru, key);
        DistinctWithout(lru, i);
        KeysOfWithout(lru, i);
        KeysOfPushed(lru[i], Without(lru, i));
        PushDistinct(lru[i], Without(lru, i));
        lru := [lru[i]] + Without(lru, i);
      }
    }

    method RemoveLocked(key: Key)
      requires Valid()
      modifies this`lru, this`entries, this`size
      ensures Valid() && View() == Removed(old(View()), key) && KeysOf(lru) == KeysOf(old(lru)) - {key}
    {
      KeysOfHas(lru, key);
      if key in entries {
        var i := Position(lru, key);
        DistinctWithout(lru, i);
        KeysOfWithout(lru, i);
        size := size - lru[i].bytes;
        lru := Without(lru, i);
        entries := entries - {key};
      }
    }

    /** Writes through, then re-reads the object into the cache under the size the backend reports. A re-read that
        breaks off removes the file but not the entry. Which writes keep the cache coherent, and every indexed file
        in place, is exact over all outcomes. */
    method Put(key: Key, data: Bytes, accepted: bool, reread: Reread) returns (ok: bool)
      requires Valid()
      modifies this
      ensures Valid() && ok == accepted
      ensures backend == if accepted then old(backend)[key := data] else old(backend)
      ensures View() == if accepted && reread.Copied?
        then Inserted(old(View()), maxSize, key, if reread.statFails then 0 else |data|) else old(View())
      ensures files == if !accepted || reread.Unopened? then old(files)
        else if reread.Broken? then old(files) - {key}
        else old(files)[key := data] - (KeysOf(old(lru)) + {key} - KeysOf(lru))
      ensures old(Present()) ==> (Present() <==> !(accepted && reread.Broken? && Has(old(lru), key)))
      ensures old(Coherent()) ==>
        (Coherent() <==> (accepted ==>
           match reread
           case Unopened => !Has(old(lru), key) || old(key in backend && backend[key] == data)
           case Broken => !Has(old(lru), key)
           case Copied(statFails) =>
             statFails ==> data == [] || (!Has(old(lru), key) && Drift(old(View())) > maxSize)))
    {
      if !accepted { return false; }
      backend := backend[key := data];
      ok := true;
      ghost var was := View();
      match reread
      case Unopened =>
        KeptUnlessListed(lru, files, old(backend), key, data);
      case Broken =>
        files := files - {key};
        LostUnlessUnlisted(lru, old(files), old(backend), key, data);
      case Copied(statFails) =>
        files := files[key := data];
        var bytes := if statFails then 0 else |data|;
        InsertLocked(key, bytes);
        InsertPresent(was, maxSize, key, bytes, old(files), data);
        InsertFaithful(was, maxSize, key, bytes, data, old(files), old(backend));
        if !Has(was.lru, key) { InsertNew(was, maxSize, key, bytes); } else { ReinsertKeeps(was, maxSize, key, bytes); }
    }

    /** Serves a listed key from its file, whatever that holds; without its file the process aborts. Otherwise
        fetches, stores and serves; an object that its own insertion evicts again fails because its file is gone. */
    method Open(key: Key, broken: bool) returns (reply: Reply)
      requires Valid()
      modifies this
      ensures Valid() && backend == old(backend)
      ensures old(Present()) ==> Present()
      ensures old(Coherent()) ==> Coherent()
      ensures reply ==
        if Has(old(lru), key) then (if key in old(files) then Served(old(files)[key]) else Aborted)
        else if broken then Failed
        else if key !in backend then Missing
        else if |backend[key]| + Drift(old(View())) <= maxSize then Served(backend[key]) else Failed
      ensures View() ==
        if Has(old(lru), key) then
          (if key in old(files) then Touched(old(View()), key) else Removed(Touched(old(View()), key), key))
        else if broken || key !in backend then old(View())
        else Inserted(old(View()), maxSize, key, |backend[key]|)
    {
      ghost var was := View();
      KeysOfHas(lru, key);
      if key in entries {
        TouchLocked(key);
        TouchedKeeps(was, key, files, backend);
        if key in files { return Served(files[key]); }
        ghost var touched := View();
        RemoveLocked(key);
        RemovedKeeps(touched, key, files, backend);
        return Aborted;
      }
      if broken { return Failed; }
      if key !in backend { return Missing; }
      files := files[key := backend[key]];
      ghost var same := backend[key := backend[key]];
      assert same == backend;
      InsertLocked(key, |backend[key]|);
      InsertPresent(was, maxSize, key, |backend[key]|, old(files), backend[key]);
      InsertFaithful(was, maxSize, key, |backend[key]|, backend[key], old(files), backend);
      InsertNew(was, maxSize, key, |backend[key]|);
      KeysOfHas(lru, key);
      if key !in files { return Failed; }
      reply := Served(files[key]);
    }

    /** A listed key is reported with its recorded size, any other with the backend's. */
    method Stat(key: Key, broken: bool) returns (reply: Size)
      requires Valid()
      modifies this`lru
      ensures Valid() && View() == Touched(old(View()), key)
      ensures old(Present()) ==> Present()
      ensures old(Coherent()) ==> Coherent()
      ensures reply ==
        if Has(old(lru), key) then Sized(old(lru)[Position(old(lru), key)].bytes)
        else if broken then NoAnswer
        else if key in backend then Sized(|backend[key]|) else NoSize
      ensures old(Coherent()) && !broken ==> reply == if key in backend then Sized(|backend[key]|) else NoSize
    {
      ghost var was := View();
      KeysOfHas(lru, key);
      if key in entries {
        var i := Position(lru, key);
        assert old(Coherent()) ==> Faithful(lru[i], files, backend);
        reply := Sized(lru[i].bytes);
        TouchLocked(key);
        TouchedKeeps(was, key, files, backend);
        return;
      }
      return if broken then NoAnswer else if key in backend then Sized(|backend[key]|) else NoSize;
    }

    /** Whatever was stale about the key is gone from the cache, even when the backend refuses the delete. */
    method Delete(key: Key, refused: bool)
      requires Valid()
      modifies this
      ensures Valid() && !Has(lru, key) && View() == Removed(old(View()), key)
      ensures files == old(files) - {key} && backend == if refused then old(backend) else old(backend) - {key}
      ensures old(Present()) ==> Present()
      ensures old(Coherent()) ==> Coherent()
    {
      ghost var was := View();
      RemoveLocked(key);
      files := files - {key};
      if !refused { backend := backend - {key}; }
      RemoveFaithful(was, key, old(files), old(backend), backend);
      KeysOfHas(lru, key);
    }
  }

  function SetOf(keys: seq<Key>): set<Key> {
    set k | k in keys
  }

  lemma SetOfSnoc(keys: seq<Key>, key: Key)
    ensures SetOf(keys + [key]) == SetOf(keys) + {key}
  {
  }

  predicate Faithful(item: Item, files: map<Key, Bytes>, backend: map<Key, Bytes>) {
    item.key in files && item.key in backend && files[item.key] == backend[item.key] && item.bytes == |backend[item.key]|
  }

  ghost predicate AllPresent(lru: seq<Item>, files: map<Key, Bytes>) {
    forall i :: 0 <= i < |lru| ==> lru[i].key in files
  }

  ghost predicate AllFaithful(lru: seq<Item>, files: map<Key, Bytes>, backend: map<Key, Bytes>) {
    forall i :: 0 <= i < |lru| ==> Faithful(lru[i], files, backend)
  }

  lemma PushDistinct(item: Item, lru: seq<Item>)
    requires Distinct(lru) && !Has(lru, item.key)
    ensures Distinct([item] + lru)
  {
    assert forall i :: 0 <= i < |lru| ==> lru[i].key != item.key;
  }

  lemma KeptUnlessListed(lru: seq<Item>, files: map<Key, Bytes>, backend: map<Key, Bytes>, key: Key, data: Bytes)
    requires Distinct(lru)
    ensures AllFaithful(lru, files, backend) ==>
      (AllFaithful(lru, files, backend[key := data]) <==> !Has(lru, key) || (key in backend && backend[key] == data))
  {
    var backend' := backend[key := data];
    if AllFaithful(lru, files, backend) {
      if Has(lru, key) {
        var i := Position(lru, key);
        assert Faithful(lru[i], files, backend);
        if backend[key] == data {
          assert backend' == backend;
        } else {
          assert !Faithful(lru[i], files, backend');
        }
      } else {
        forall i | 0 <= i < |lru|
          ensures Faithful(lru[i], files, backend')
        {
          assert Faithful(lru[i], files, backend) && lru[i].key != key;
        }
      }
    }
  }

  /** Losing the file of a key breaks the cache exactly when the key is listed. */
  lemma LostUnlessUnlisted(lru: seq<Item>, files: map<Key, Bytes>, backend: map<Key, Bytes>, key: Key, data: Bytes)
    ensures AllPresent(lru, files) ==> (AllPresent(lru, files - {key}) <==> !Has(lru, key))
    ensures AllFaithful(lru, files, backend) ==>
      (AllFaithful(lru, files - {key}, backend[key := data]) <==> !Has(lru, key))
  {
    if Has(lru, key) {
      var i := Position(lru, key);
      assert lru[i].key !in files - {key} && !Faithful(lru[i], files - {key}, backend[key := data]);
    } else {
      forall i | 0 <= i < |lru|
        ensures AllPresent(lru, files) ==> lru[i].key in files - {key}
        ensures AllFaithful(lru, files, backend) ==> Faithful(lru[i], files - {key}, backend[key := data])
      {
        assert lru[i].key != key;
        assert AllFaithful(lru, files, backend) ==> Faithful(lru[i], files, backend);
      }
    }
  }

  /** Caching what was just written to the backend keeps the cache faithful exactly when it is indexed at its size
      or not indexed at all. */
  lemma InsertFaithful(ix: Index, max: nat, key: Key, bytes: nat, data: Bytes, files: map<Key, Bytes>,
    backend: map<Key, Bytes>)
    requires Distinct(ix.lru)
    ensures var lru := Inserted(ix, max, key, bytes).lru;
      var files' := files[key := data] - (KeysOf(ix.lru) + {key} - KeysOf(lru));
      AllFaithful(ix.lru, files, backend) ==>
        (AllFaithful(lru, files', backend[key := data]) <==> bytes == |data| || !Has(lru, key))
  {
    var lru := Inserted(ix, max, key, bytes).lru;
    var files' := files[key := data] - (KeysOf(ix.lru) + {key} - KeysOf(lru));
    if AllFaithful(ix.lru, files, backend) {
      forall i | 0 <= i < |lru|
        ensures Faithful(lru[i], files', backend[key := data]) <==> bytes == |data| || lru[i].key != key
      {
        InsertedItem(ix, max, key, bytes, i);
        assert lru[i].key in KeysOf(lru);
        if lru[i].key != key { assert Faithful(lru[i], files, backend); }
      }
    }
  }

  lemma InsertPresent(ix: Index, max: nat, key: Key, bytes: nat, files: map<Key, Bytes>, data: Bytes)
    requires Distinct(ix.lru)
    ensures var lru := Inserted(ix, max, key, bytes).lru;
      AllPresent(ix.lru, files) ==> AllPresent(lru, files[key := data] - (KeysOf(ix.lru) + {key} - KeysOf(lru)))
  {
    var lru := Inserted(ix, max, key, bytes).lru;
    forall i | 0 <= i < |lru|
      ensures AllPresent(ix.lru, files) ==>
        lru[i].key in files[key := data] - (KeysOf(ix.lru) + {key} - KeysOf(lru))
    {
      InsertedItem(ix, max, key, bytes, i);
      assert lru[i].key in KeysOf(lru);
    }
  }

  lemma InsertedKeys(ix: Index, max: nat, key: Key, bytes: nat)
    requires Distinct(ix.lru)
    ensures KeysOf(Inserted(ix, max, key, bytes).lru) <= KeysOf(ix.lru) + {key}
  {
    var lru := Inserted(ix, max, key, bytes).lru;
    forall i | 0 <= i < |lru|
      ensures lru[i].key in KeysOf(ix.lru) + {key}
    {
      InsertedItem(ix, max, key, bytes, i);
    }
  }

  lemma ReinsertKeeps(ix: Index, max: nat, key: Key, bytes: nat)
    requires Has(ix.lru, key)
    ensures Has(Inserted(ix, max, key, bytes).lru, key)
  {
    assert Inserted(ix, max, key, bytes).lru[0].key == key;
  }

  /** Moving an item to the front changes nothing about the files. */
  lemma TouchedKeeps(ix: Index, key: Key, files: map<Key, Bytes>, backend: map<Key, Bytes>)
    ensures AllPresent(ix.lru, files) ==> AllPresent(Touched(ix, key).lru, files)
    ensures AllFaithful(ix.lru, files, backend) ==> AllFaithful(Touched(ix, key).lru, files, backend)
  {
    if Has(ix.lru, key) {
      var i := Position(ix.lru, key);
      var lru := Touched(ix, key).lru;
      forall m | 0 <= m < |lru|
        ensures lru[m] in ix.lru
      {
      }
    }
  }

  lemma RemovedKeeps(ix: Index, key: Key, files: map<Key, Bytes>, backend: map<Key, Bytes>)
    ensures AllPresent(ix.lru, files) ==> AllPresent(Removed(ix, key).lru, files)
    ensures AllFaithful(ix.lru, files, backend) ==> AllFaithful(Removed(ix, key).lru, files, backend)
  {
    var lru := Removed(ix, key).lru;
    forall m | 0 <= m < |lru|
      ensures lru[m] in ix.lru
    {
    }
  }

  lemma InsertedItem(ix: Index, max: nat, key: Key, bytes: nat, i: nat)
    requires Distinct(ix.lru) && i < |Inserted(ix, max, key, bytes).lru|
    ensures var item := Inserted(ix, max, key, bytes).lru[i];
      item == Item(key, bytes) || (item.key != key && item in ix.lru)
  {
    if Has(ix.lru, key) {
      DistinctWithout(ix.lru, Position(ix.lru, key));
      var w := Without(ix.lru, Position(ix.lru, key));
      if i > 0 { assert w[i - 1].key != key; }
    } else {
      InsertNew(ix, max, key, bytes);
      if i > 0 { assert ix.lru[i - 1].key != key; }
    }
  }

  lemma RemoveFaithful(ix: Index, key: Key, files: map<Key, Bytes>, backend: map<Key, Bytes>, backend': map<Key, Bytes>)
    requires Distinct(ix.lru) && (backend' == backend || backend' == backend - {key})
    ensures AllPresent(ix.lru, files) ==> AllPresent(Removed(ix, key).lru, files - {key})
    ensures AllFaithful(ix.lru, files, backend) ==> AllFaithful(Removed(ix, key).lru, files - {key}, backend')
  {
    var lru := Removed(ix, key).lru;
    forall i | 0 <= i < |lru|
      ensures lru[i].key != key && lru[i] in ix.lru
    {
      if Has(ix.lru, key) {
        var m := Position(ix.lru, key);
        DistinctWithout(ix.lru, m);
      }
    }
    forall i | 0 <= i < |lru|
      ensures AllFaithful(ix.lru, files, backend) ==> Faithful(lru[i], files - {key}, backend')
    {
      var m :| 0 <= m < |ix.lru| && ix.lru[m] == lru[i];
      assert AllFaithful(ix.lru, files, backend) ==> Faithful(ix.lru[m], files, backend);
    }
  }
}
