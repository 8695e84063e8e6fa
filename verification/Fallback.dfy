/** The read-through wrapper used while media moves between stores (internal/store/fallback.go): two
    stores seen as one map in which the primary overrides the legacy store. */
module Fallback {
  import opened Wrappers

  type Key = string
  type Bytes = seq<nat>
  type Objects = map<Key, Bytes>

  /** What a store call may answer: a value, ErrNotFound, or some other error. */
  datatype Reply<T> = Found(value: T) | NotFound | Broken

  /** Which calls fail with an error other than ErrNotFound during one operation. */
  datatype Faults = Faults(
    primaryOpen: bool, legacyOpen: bool, legacyStat: bool, primaryPut: bool, reopen: bool,
    primaryDelete: bool, legacyDelete: bool)

  const Calm := Faults(false, false, false, false, false, false, false)

  function Get(objects: Objects, key: Key, broken: bool): Reply<Bytes> {
    if broken then Broken else if key in objects then Found(objects[key]) else NotFound
  }

  function Merged(primary: Objects, legacy: Objects): Objects {
    legacy + primary
  }

  /** A key is visible if either store has it, with the value of the primary whenever that has it. */
  lemma PrimaryOverrides(primary: Objects, legacy: Objects, key: Key)
    ensures key in Merged(primary, legacy) <==> key in primary || key in legacy
    ensures key in primary ==> Merged(primary, legacy)[key] == primary[key]
    ensures key !in primary && key in legacy ==> Merged(primary, legacy)[key] == legacy[key]
  {
  }

  /** Copying a legacy object the primary does not have changes nothing a reader can see. */
  lemma PromotionKeepsView(primary: Objects, legacy: Objects, key: Key)
    requires key in legacy && key !in primary
    ensures Merged(primary[key := legacy[key]], legacy) == Merged(primary, legacy)
  {
    var after := Merged(primary[key := legacy[key]], legacy);
    assert forall k :: k in after <==> k in Merged(primary, legacy);
    assert forall k :: k in after ==> after[k] == Merged(primary, legacy)[k];
  }

  class Fallback {
    var primary: Objects
    var legacy: Objects
    var promoted: nat

    /** The single map the wrapper stands for. */
    ghost function View(): Objects
      reads this
    {
      Merged(primary, legacy)
    }

    constructor (primary: Objects, legacy: Objects)
      ensures this.primary == primary && this.legacy == legacy && promoted == 0
    {
      this.primary, this.legacy, this.promoted := primary, legacy, 0;
    }

    /** Reading never changes the view: not when the object is promoted, nor when promotion fails. What is
        served is the view's object, and without faults a key is found exactly when the view has it. */
    method Open(key: Key, f: Faults) returns (reply: Reply<Bytes>)
      modifies this
      ensures View() == old(View()) && legacy == old(legacy)
      ensures reply.Found? ==> key in View() && reply.value == View()[key]
      ensures reply.Found? ==> reply.value == if key in old(primary) then old(primary)[key] else legacy[key]
      ensures reply.NotFound? ==> key !in View()
      ensures reply.Broken? <==>
        (f.primaryOpen || (key !in old(primary) && (f.legacyOpen || (key in legacy && (f.legacyStat || f.reopen)))))
      ensures promoted == old(promoted) + (if key in primary && key !in old(primary) then 1 else 0)
    {
      var rc := Get(primary, key, f.primaryOpen);
      if rc.Found? { return rc; }
      if !rc.NotFound? { return Broken; }
      var lrc := Get(legacy, key, f.legacyOpen);
      if !lrc.Found? { return lrc; }
      if f.legacyStat { return Broken; }
      if !f.primaryPut {
        primary := primary[key := lrc.value];
        promoted := promoted + 1;
        PromotionKeepsView(old(primary), legacy, key);
        return Get(primary, key, f.reopen);
      }
      return Get(legacy, key, f.reopen);
    }

    method Stat(key: Key, f: Faults) returns (reply: Reply<nat>)
      ensures reply.Found? ==> key in View() && reply.value == |View()[key]|
      ensures reply.NotFound? ==> key !in View()
      ensures reply.Broken? <==> f.primaryOpen || (key !in primary && f.legacyStat)
    {
      if f.primaryOpen { return Broken; }
      if key in primary { return Found(|primary[key]|); }
      if f.legacyStat { return Broken; }
      return if key in legacy then Found(|legacy[key]|) else NotFound;
    }

    method Put(key: Key, data: Bytes, f: Faults) returns (ok: bool)
      modifies this`primary
      ensures ok == !f.primaryPut
      ensures View() == if ok then old(View())[key := data] else old(View())
    {
      if f.primaryPut { return false; }
      primary := primary[key := data];
      assert View() == old(View())[key := data];
      return true;
    }

    /** The legacy delete is unreported best effort, so the key stays visible exactly when a store that held
        it kept it: a successful delete removes it only if the legacy store did its part or had nothing,
        and otherwise the legacy store's copy is what readers see next. No other key is affected. */
    method Delete(key: Key, f: Faults) returns (ok: bool)
      modifies this`primary, this`legacy
      ensures ok == !f.primaryDelete
      ensures key in View() <==>
        ((f.primaryDelete && key in old(primary)) || (f.legacyDelete && key in old(legacy)))
      ensures ok && key in View() ==> View()[key] == old(legacy)[key]
      ensures ok && !f.legacyDelete ==> View() == old(View()) - {key}
      ensures forall k :: k != key ==> (k in View() <==> k in old(View())) && (k in View() ==> View()[k] == old(View())[k])
    {
      ok := !f.primaryDelete;
      if ok { primary := primary - {key}; }
      if !f.legacyDelete { legacy := legacy - {key}; }
    }

    /** `pk` and `lk` are what the two stores list under the prefix; the result is the sorted,
        duplicate-free key set of the view under it. */
    method List(pk: seq<Key>, lk: seq<Key>, ghost under: Key -> bool) returns (keys: seq<Key>)
      requires forall k :: k in pk <==> k in primary && under(k)
      requires forall k :: k in lk <==> k in legacy && under(k)
      ensures Rising(keys)
      ensures forall k :: k in keys <==> k in View() && under(k)
    {
      var all := pk + lk;
      var seen: set<Key> := {};
      var out: seq<Key> := [];
      for i := 0 to |all|
        invariant forall k :: k in seen <==> k in all[..i]
        invariant forall k :: k in seen <==> k in out
        invariant Unrepeated(out)
      {
        assert all[..i+1] == all[..i] + [all[i]];
        if all[i] in seen { continue; }
        seen := seen + {all[i]};
        assert forall m :: 0 <= m < |out| ==> out[m] in out;
        out := out + [all[i]];
      }
      assert all[..|all|] == all;
      SortedIsRising(out);
      keys := Sorted(out);
    }
  }

  /* ---- sort.Strings ---- */

  predicate Leq(a: Key, b: Key) {
    a == [] || (b != [] && (a[0] < b[0] || (a[0] == b[0] && Leq(a[1..], b[1..]))))
  }

  predicate Less(a: Key, b: Key) {
    a != b && Leq(a, b)
  }

  ghost predicate Rising(keys: seq<Key>) {
    forall i, j :: 0 <= i < j < |keys| ==> Less(keys[i], keys[j])
  }

  ghost predicate Unrepeated(keys: seq<Key>) {
    forall i, j :: 0 <= i < j < |keys| ==> keys[i] != keys[j]
  }

  lemma {:induction false} LeqTotal(a: Key, b: Key)
    ensures Leq(a, b) || Leq(b, a)
    ensures Leq(a, a)
    ensures Leq(a, b) && Leq(b, a) ==> a == b
  {
    if a != [] { LeqTotal(a[1..], if b == [] then [] else b[1..]); }
    if a != [] && b != [] && a[0] == b[0] && a[1..] == b[1..] {
      assert a == [a[0]] + a[1..] == b;
    }
  }

  lemma {:induction false} LeqTransitive(a: Key, b: Key, c: Key)
    requires Leq(a, b) && Leq(b, c)
    ensures Leq(a, c)
  {
    if a != [] && a[0] == b[0] == c[0] {
      LeqTransitive(a[1..], b[1..], c[1..]);
    }
  }

  lemma LessTransitive(a: Key, b: Key, c: Key)
    requires Less(a, b) && Less(b, c)
    ensures Less(a, c)
  {
    LeqTransitive(a, b, c);
    LeqTotal(a, b);
  }

  function Placed(k: Key, keys: seq<Key>): seq<Key> {
    if keys == [] || Leq(k, keys[0]) then [k] + keys else [keys[0]] + Placed(k, keys[1..])
  }

  function Sorted(keys: seq<Key>): seq<Key> {
    if keys == [] then [] else Placed(keys[0], Sorted(keys[1..]))
  }

  lemma {:induction false} PlacedIsRising(k: Key, keys: seq<Key>)
    requires Rising(keys) && k !in keys
    ensures Rising(Placed(k, keys))
    ensures forall x :: x in Placed(k, keys) <==> x == k || x in keys
  {
    if keys != [] {
      assert keys == [keys[0]] + keys[1..];
      if Leq(k, keys[0]) {
        forall j | 0 <= j < |keys|
          ensures Less(k, keys[j])
        {
          if j > 0 { LessTransitive(k, keys[0], keys[j]); }
        }
      } else {
        LeqTotal(k, keys[0]);
        PlacedIsRising(k, keys[1..]);
        var rest := Placed(k, keys[1..]);
        forall j | 0 <= j < |rest|
          ensures Less(keys[0], rest[j])
        {
          assert rest[j] in rest;
          if rest[j] != k {
            var m :| 0 <= m < |keys[1..]| && keys[1..][m] == rest[j];
            assert keys[m + 1] == rest[j];
          }
        }
      }
    }
  }

  lemma {:induction false} SortedIsRising(keys: seq<Key>)
    requires Unrepeated(keys)
    ensures Rising(Sorted(keys))
    ensures forall x :: x in Sorted(keys) <==> x in keys
  {
    if keys != [] {
      SortedIsRising(keys[1..]);
      assert keys == [keys[0]] + keys[1..];
      assert keys[0] !in keys[1..];
      PlacedIsRising(keys[0], Sorted(keys[1..]));
    }
  }

  /** There is only one sorted, duplicate-free listing of a set of keys: two wrappers with the same view
      list the same sequence, whichever store holds what. */
  lemma {:induction false} RisingUnique(a: seq<Key>, b: seq<Key>)
    requires Rising(a) && Rising(b)
    requires forall x :: x in a <==> x in b
    ensures a == b
    decreases |a| + |b|, 1
  {
    if a != [] { RisingSameFirst(a, b); } else if b != [] { RisingSameFirst(b, a); }
  }

  lemma {:induction false} RisingSameFirst(a: seq<Key>, b: seq<Key>)
    requires Rising(a) && Rising(b) && a != []
    requires forall x :: x in a <==> x in b
    ensures a == b
    decreases |a| + |b|, 0
  {
    assert a[0] in a && a[0] in b && b[0] in b && b[0] in a;
    var x, y := a[0], b[0];
    LeqTotal(x, y);
    assert Leq(x, y) by { var i :| 0 <= i < |a| && a[i] == y; LeqTotal(x, x); }
    assert Leq(y, x) by { var i :| 0 <= i < |b| && b[i] == x; LeqTotal(y, y); }
    assert a == [x] + a[1..] && b == [x] + b[1..];
    forall k
      ensures k in a[1..] <==> k in b[1..]
    {
      assert x !in a[1..] && x !in b[1..];
      assert k in a <==> k == x || k in a[1..];
      assert k in b <==> k == x || k in b[1..];
    }
    RisingUnique(a[1..], b[1..]);
  }
}
