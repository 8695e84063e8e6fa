/** The category navigation of the public library (internal/api/media.go): counts are rolled up along the
    parent links in place, then the visible categories are built into a tree. */
module Categories {
  import opened Wrappers

  type Id = nat

  /** A category row with the number of its own public, ready entries. */
  datatype Category = Category(id: Id, parent: Option<Id>, direct: nat)

  datatype Node = Node(id: Id, count: nat, children: seq<Node>)

  /** The parent links by id. */
  type Links = map<Id, Option<Id>>

  /** A witness that following parent links ends: every listed category ranks above its parent. */
  type Rank = Id -> nat

  ghost predicate OnePerId(flat: seq<Category>) {
    forall i, j :: 0 <= i < j < |flat| ==> flat[i].id != flat[j].id
  }

  ghost predicate IsIndex(flat: seq<Category>, links: Links) {
    && (forall i :: 0 <= i < |flat| ==> flat[i].id in links && links[flat[i].id] == flat[i].parent)
    && (forall k :: k in links ==> exists i :: 0 <= i < |flat| && flat[i].id == k)
  }

  ghost predicate Forest(links: Links, rank: Rank) {
    forall k :: k in links && links[k].Some? ==> rank(links[k].value) < rank(k)
  }

  /** The rows and what is known about them. */
  ghost predicate Sound(flat: seq<Category>, links: Links, rank: Rank) {
    OnePerId(flat) && IsIndex(flat, links) && Forest(links, rank)
  }

  /** Go's read of a map: a missing key counts as zero. */
  function At(counts: map<Id, nat>, k: Id): nat {
    if k in counts then counts[k] else 0
  }

  /** The ancestors of a category, nearest first; the walk ends at a root or at an id that is not listed. */
  ghost function Ancestors(links: Links, rank: Rank, id: Id): seq<Id>
    requires Forest(links, rank)
    decreases rank(id)
  {
    if id in links && links[id].Some? then [links[id].value] + Ancestors(links, rank, links[id].value) else []
  }

  lemma {:induction false} AncestorsRankLower(links: Links, rank: Rank, id: Id, a: Id)
    requires Forest(links, rank) && a in Ancestors(links, rank, id)
    ensures rank(a) < rank(id)
    decreases rank(id)
  {
    var p := links[id].value;
    if a != p { AncestorsRankLower(links, rank, p, a); }
  }

  lemma {:induction false} AncestorsTransitive(links: Links, rank: Rank, x: Id, y: Id, z: Id)
    requires Forest(links, rank)
    requires y in Ancestors(links, rank, x) && z in Ancestors(links, rank, y)
    ensures z in Ancestors(links, rank, x)
    decreases rank(x)
  {
    var p := links[x].value;
    if y != p { AncestorsTransitive(links, rank, p, y, z); }
  }

  ghost function Direct(flat: seq<Category>, a: Id): nat {
    if flat == [] then 0 else if flat[0].id == a then flat[0].direct else Direct(flat[1..], a)
  }

  lemma {:induction false} DirectAt(flat: seq<Category>, i: nat)
    requires OnePerId(flat) && i < |flat|
    ensures Direct(flat, flat[i].id) == flat[i].direct
  {
    if i > 0 {
      assert flat[1..][i - 1] == flat[i];
      DirectAt(flat[1..], i - 1);
    }
  }

  lemma {:induction false} DirectAbsent(flat: seq<Category>, a: Id)
    requires forall i :: 0 <= i < |flat| ==> flat[i].id != a
    ensures Direct(flat, a) == 0
  {
    if flat != [] { DirectAbsent(flat[1..], a); }
  }

  /** What the subtree of `a` holds among the first `n` rows, not counting `a` itself. */
  ghost function Below(flat: seq<Category>, links: Links, rank: Rank, a: Id, n: nat): nat
    requires Forest(links, rank) && n <= |flat|
  {
    if n == 0 then 0
    else
      Below(flat, links, rank, a, n - 1)
      + (if a in Ancestors(links, rank, flat[n-1].id) then flat[n-1].direct else 0)
  }

  /** The promise: a category's count is the number of entries in its whole subtree. */
  ghost function Total(flat: seq<Category>, links: Links, rank: Rank, a: Id): nat
    requires Forest(links, rank)
  {
    Direct(flat, a) + Below(flat, links, rank, a, |flat|)
  }

  /** What the loop has added to `a` after the first `n` rows: each row hands its count on as it stands when
      its turn comes, which already includes what earlier rows added to it. */
  ghost function Credit(flat: seq<Category>, links: Links, rank: Rank, a: Id, n: nat): nat
    requires Forest(links, rank) && n <= |flat|
    decreases n, 0
  {
    if n == 0 then 0
    else
      Credit(flat, links, rank, a, n - 1)
      + (if a in Ancestors(links, rank, flat[n-1].id) then Handed(flat, links, rank, n - 1) else 0)
  }

  ghost function Handed(flat: seq<Category>, links: Links, rank: Rank, i: nat): nat
    requires Forest(links, rank) && i < |flat|
    decreases i, 1
  {
    flat[i].direct + Credit(flat, links, rank, flat[i].id, i)
  }

  ghost function Rolled(flat: seq<Category>, links: Links, rank: Rank, a: Id): nat
    requires Forest(links, rank)
  {
    Direct(flat, a) + Credit(flat, links, rank, a, |flat|)
  }

  /** A nonempty row is listed before one of its ancestors, and that ancestor has a parent of its own. */
  ghost predicate Misplaced(flat: seq<Category>, links: Links, rank: Rank, j: nat, i: nat)
    requires Forest(links, rank)
  {
    j < i < |flat| && flat[j].direct > 0 && flat[i].parent.Some? && flat[i].id in Ancestors(links, rank, flat[j].id)
  }

  lemma {:induction false} CreditAtLeastBelow(flat: seq<Category>, links: Links, rank: Rank, a: Id, n: nat)
    requires Forest(links, rank) && n <= |flat|
    ensures Credit(flat, links, rank, a, n) >= Below(flat, links, rank, a, n)
  {
    if n > 0 { CreditAtLeastBelow(flat, links, rank, a, n - 1); }
  }

  lemma {:induction false} CreditIncludes(flat: seq<Category>, links: Links, rank: Rank, a: Id, j: nat, n: nat)
    requires Forest(links, rank) && j < n <= |flat| && a in Ancestors(links, rank, flat[j].id)
    ensures Credit(flat, links, rank, a, n) >= Handed(flat, links, rank, j)
    ensures Credit(flat, links, rank, a, n) - Below(flat, links, rank, a, n)
      >= Handed(flat, links, rank, j) - flat[j].direct
    decreases n
  {
    CreditAtLeastBelow(flat, links, rank, a, n - 1);
    if j < n - 1 { CreditIncludes(flat, links, rank, a, j, n - 1); }
  }

  /** With no misplaced pair nothing is handed on twice. */
  lemma {:induction false} NothingTwice(flat: seq<Category>, links: Links, rank: Rank, a: Id, n: nat)
    requires Sound(flat, links, rank) && n <= |flat|
    requires forall j, i :: !Misplaced(flat, links, rank, j, i)
    ensures Credit(flat, links, rank, a, n) == Below(flat, links, rank, a, n)
    decreases n, 1
  {
    if n > 0 {
      NothingTwice(flat, links, rank, a, n - 1);
      if a in Ancestors(links, rank, flat[n-1].id) { HandedIsDirect(flat, links, rank, n - 1); }
    }
  }

  lemma {:induction false} HandedIsDirect(flat: seq<Category>, links: Links, rank: Rank, i: nat)
    requires Sound(flat, links, rank) && i < |flat| && flat[i].parent.Some?
    requires forall j, k :: !Misplaced(flat, links, rank, j, k)
    ensures Handed(flat, links, rank, i) == flat[i].direct
    decreases i, 2
  {
    NothingTwice(flat, links, rank, flat[i].id, i);
    BelowIsEmpty(flat, links, rank, i, i);
  }

  lemma {:induction false} BelowIsEmpty(flat: seq<Category>, links: Links, rank: Rank, i: nat, n: nat)
    requires Sound(flat, links, rank) && n <= i < |flat| && flat[i].parent.Some?
    requires forall j, k :: !Misplaced(flat, links, rank, j, k)
    ensures Below(flat, links, rank, flat[i].id, n) == 0
  {
    if n > 0 {
      BelowIsEmpty(flat, links, rank, i, n - 1);
      assert !Misplaced(flat, links, rank, n - 1, i);
    }
  }

  /** The roll-up gives every category its subtree's total exactly when no nonempty category precedes an
      ancestor that itself has a parent. Listing parents first is enough, but it is not needed at the top. */
  lemma RollUpExact(flat: seq<Category>, links: Links, rank: Rank)
    requires Sound(flat, links, rank)
    ensures (forall a: Id :: Rolled(flat, links, rank, a) == Total(flat, links, rank, a))
      <==> (forall j, i :: !Misplaced(flat, links, rank, j, i))
  {
    if forall j, i :: !Misplaced(flat, links, rank, j, i) {
      forall a: Id
        ensures Rolled(flat, links, rank, a) == Total(flat, links, rank, a)
      {
        NothingTwice(flat, links, rank, a, |flat|);
      }
    } else {
      var j, i :| Misplaced(flat, links, rank, j, i);
      MisplacedCountsTwice(flat, links, rank, j, i);
    }
  }

  /** Each misplaced pair inflates the count of the ancestor's parent by at least the misplaced entries. */
  lemma MisplacedCountsTwice(flat: seq<Category>, links: Links, rank: Rank, j: nat, i: nat)
    requires Sound(flat, links, rank) && Misplaced(flat, links, rank, j, i)
    ensures var p := flat[i].parent.value;
      Rolled(flat, links, rank, p) >= Total(flat, links, rank, p) + flat[j].direct
  {
    var p := flat[i].parent.value;
    assert Ancestors(links, rank, flat[i].id)[0] == p;
    CreditIncludes(flat, links, rank, flat[i].id, j, i);
    CreditIncludes(flat, links, rank, p, i, |flat|);
  }

  /** A grandchild listed first: its one entry is counted twice at the top. */
  function GrandchildFirst(): seq<Category> {
    [Category(3, Some(2), 1), Category(2, Some(1), 0), Category(1, None, 0)]
  }

  function GrandchildLinks(): Links {
    map[3 := Some(2), 2 := Some(1), 1 := None]
  }

  lemma GrandchildCountsTwice()
    ensures var rank := (k: Id) => k;
      && Sound(GrandchildFirst(), GrandchildLinks(), rank)
      && Total(GrandchildFirst(), GrandchildLinks(), rank, 1) == 1
      && Rolled(GrandchildFirst(), GrandchildLinks(), rank, 1) == 2
  {
    var flat, links, rank := GrandchildFirst(), GrandchildLinks(), (k: Id) => k;
    assert flat[0].id == 3 && flat[1].id == 2 && flat[2].id == 1;
    assert Sound(flat, links, rank);
    assert Ancestors(links, rank, 1) == [] && Ancestors(links, rank, 2) == [1];
    assert Ancestors(links, rank, 3) == [2] + [1];
    assert Direct(flat, 1) == 0 by { DirectAt(flat, 2); }
    assert Below(flat, links, rank, 1, 1) == 1 && Below(flat, links, rank, 1, 2) == 1;
    assert Credit(flat, links, rank, 1, 1) == 1 && Credit(flat, links, rank, 2, 1) == 1;
    assert Handed(flat, links, rank, 1) == 1 && Credit(flat, links, rank, 1, 2) == 2;
  }

  /** Whatever the order, something is handed to `a` exactly when its subtree holds something. */
  lemma {:induction false} CreditIffBelow(flat: seq<Category>, links: Links, rank: Rank, a: Id, n: nat)
    requires Sound(flat, links, rank) && n <= |flat|
    ensures Credit(flat, links, rank, a, n) > 0 <==> Below(flat, links, rank, a, n) > 0
    decreases n
  {
    CreditAtLeastBelow(flat, links, rank, a, n);
    if n > 0 {
      CreditIffBelow(flat, links, rank, a, n - 1);
      var c := flat[n-1].id;
      CreditIffBelow(flat, links, rank, c, n - 1);
      if a in Ancestors(links, rank, c) { BelowMonotone(flat, links, rank, c, a, n - 1); }
    }
  }

  lemma {:induction false} BelowMonotone(flat: seq<Category>, links: Links, rank: Rank, c: Id, a: Id, n: nat)
    requires Forest(links, rank) && n <= |flat| && a in Ancestors(links, rank, c)
    ensures Below(flat, links, rank, c, n) <= Below(flat, links, rank, a, n)
  {
    if n > 0 {
      BelowMonotone(flat, links, rank, c, a, n - 1);
      if c in Ancestors(links, rank, flat[n-1].id) { AncestorsTransitive(links, rank, flat[n-1].id, c, a); }
    }
  }

  /** The marks set so far: nonempty categories, and ancestors of rows that handed something on. */
  ghost predicate Marked(flat: seq<Category>, links: Links, rank: Rank, a: Id, n: nat)
    requires Forest(links, rank) && n <= |flat|
  {
    Direct(flat, a) > 0 || Credit(flat, links, rank, a, n) > 0
  }

  /** Rolls the counts up in place, as the request handler does. `counts` and `visible` end as promised:
      visible is exactly "the subtree is not empty", and the counts are the subtree totals whenever no
      misplaced pair exists. The walk along the parent links ends because they form a forest. */
  method RollUp(flat: seq<Category>, ghost rank: Rank)
    returns (counts: map<Id, nat>, visible: set<Id>, links: Links)
    requires OnePerId(flat)
    requires forall i :: 0 <= i < |flat| && flat[i].parent.Some? ==> rank(flat[i].parent.value) < rank(flat[i].id)
    ensures Sound(flat, links, rank)
    ensures forall a: Id :: At(counts, a) == Rolled(flat, links, rank, a)
    ensures forall a: Id :: a in visible <==> Total(flat, links, rank, a) > 0
    ensures (forall a: Id :: At(counts, a) == Total(flat, links, rank, a))
      <==> (forall j, i :: !Misplaced(flat, links, rank, j, i))
  {
    counts := Loaded(flat);
    links := Indexed(flat);
    visible := OwnMarks(flat, counts);
    counts, visible := HandOn(flat, links, rank, counts, visible);
    forall a: Id
      ensures a in visible <==> Total(flat, links, rank, a) > 0
    {
      CreditIffBelow(flat, links, rank, a, |flat|);
    }
    RollUpExact(flat, links, rank);
  }

  /** Marks the categories that hold entries of their own. */
  method OwnMarks(flat: seq<Category>, counts: map<Id, nat>) returns (visible: set<Id>)
    requires OnePerId(flat)
    requires forall a: Id :: At(counts, a) == Direct(flat, a)
    ensures forall a: Id :: a in visible <==> Direct(flat, a) > 0
  {
    visible := {};
    for i := 0 to |flat|
      invariant forall a :: a in visible <==> exists j :: 0 <= j < i && flat[j].id == a && flat[j].direct > 0
    {
      DirectAt(flat, i);
      if At(counts, flat[i].id) > 0 { visible := visible + {flat[i].id}; }
    }
    VisibleDirect(flat, visible);
  }

  /** The loop over the rows, in the order of the list, on the counts as they are being changed. */
  method HandOn(flat: seq<Category>, links: Links, ghost rank: Rank, counts0: map<Id, nat>, visible0: set<Id>)
    returns (counts: map<Id, nat>, visible: set<Id>)
    requires Sound(flat, links, rank)
    requires forall a: Id :: At(counts0, a) == Direct(flat, a)
    requires forall a: Id :: a in visible0 <==> Direct(flat, a) > 0
    ensures forall a: Id :: At(counts, a) == Rolled(flat, links, rank, a)
    ensures forall a: Id :: a in visible <==> Marked(flat, links, rank, a, |flat|)
  {
    counts, visible := counts0, visible0;
    for i := 0 to |flat|
      invariant forall a: Id :: At(counts, a) == Direct(flat, a) + Credit(flat, links, rank, a, i)
      invariant forall a: Id :: a in visible <==> Marked(flat, links, rank, a, i)
    {
      DirectAt(flat, i);
      assert At(counts, flat[i].id) == Handed(flat, links, rank, i);
      if At(counts, flat[i].id) == 0 { continue; }
      counts, visible := Walk(flat, links, rank, i, counts, visible);
    }
  }

  method Loaded(flat: seq<Category>) returns (counts: map<Id, nat>)
    requires OnePerId(flat)
    ensures forall a: Id :: At(counts, a) == Direct(flat, a)
  {
    counts := map[];
    for i := 0 to |flat|
      invariant forall j :: 0 <= j < i ==> flat[j].id in counts && counts[flat[j].id] == flat[j].direct
      invariant forall a :: a in counts ==> exists j :: 0 <= j < i && flat[j].id == a
    {
      counts := counts[flat[i].id := flat[i].direct];
    }
    forall a: Id
      ensures At(counts, a) == Direct(flat, a)
    {
      if a in counts {
        var j :| 0 <= j < |flat| && flat[j].id == a;
        DirectAt(flat, j);
      } else {
        DirectAbsent(flat, a);
      }
    }
  }

  method Indexed(flat: seq<Category>) returns (links: Links)
    requires OnePerId(flat)
    ensures IsIndex(flat, links)
  {
    links := map[];
    for i := 0 to |flat|
      invariant forall j :: 0 <= j < i ==> flat[j].id in links && links[flat[j].id] == flat[j].parent
      invariant forall k :: k in links ==> exists j :: 0 <= j < i && flat[j].id == k
    {
      links := links[flat[i].id := flat[i].parent];
    }
  }

  lemma VisibleDirect(flat: seq<Category>, visible: set<Id>)
    requires OnePerId(flat)
    requires forall a :: a in visible <==> exists j :: 0 <= j < |flat| && flat[j].id == a && flat[j].direct > 0
    ensures forall a: Id :: a in visible <==> Direct(flat, a) > 0
  {
    forall a: Id
      ensures a in visible <==> Direct(flat, a) > 0
    {
      if j :| 0 <= j < |flat| && flat[j].id == a { DirectAt(flat, j); } else { DirectAbsent(flat, a); }
    }
  }

  /** The inner walk: row `i` hands its count to each ancestor once. */
  method Walk(flat: seq<Category>, links: Links, ghost rank: Rank, i: nat, counts0: map<Id, nat>, visible0: set<Id>)
    returns (counts: map<Id, nat>, visible: set<Id>)
    requires Sound(flat, links, rank) && i < |flat|
    requires At(counts0, flat[i].id) > 0
    ensures forall a: Id ::
      At(counts, a) == At(counts0, a) + (if a in Ancestors(links, rank, flat[i].id) then At(counts0, flat[i].id) else 0)
    ensures forall a: Id :: a in visible <==> a in visible0 || a in Ancestors(links, rank, flat[i].id)
  {
    counts, visible := counts0, visible0;
    var id := flat[i].id;
    var cur := flat[i].parent;
    ghost var last := id;
    ghost var walked: seq<Id> := [];
    while cur.Some?
      invariant cur == if last in links then links[last] else None
      invariant Ancestors(links, rank, id) == walked + Ancestors(links, rank, last)
      invariant forall a :: a in walked ==> rank(last) <= rank(a) < rank(id)
      invariant rank(last) <= rank(id)
      invariant forall a: Id :: At(counts, a) == At(counts0, a) + (if a in walked then At(counts0, id) else 0)
      invariant forall a: Id :: a in visible <==> a in visible0 || a in walked
      decreases rank(last)
    {
      var p := cur.value;
      assert p !in walked && id !in walked;
      counts := counts[p := At(counts, p) + At(counts, id)];
      visible := visible + {p};
      walked := walked + [p];
      last := p;
      if p !in links { break; }
      cur := links[p];
    }
  }

  /* ---- the tree ---- */

  /** Parent rows exist: the foreign key of the categories table. */
  ghost predicate Closed(links: Links) {
    forall k :: k in links && links[k].Some? ==> links[k].value in links
  }

  ghost predicate Bounded(links: Links, rank: Rank, top: nat) {
    forall k :: k in links ==> rank(k) < top
  }

  /** How deep below `parent` a listed category may still lie. */
  ghost function Depth(rank: Rank, top: nat, parent: Option<Id>): nat {
    if parent.None? then top + 1 else if rank(parent.value) < top then top - rank(parent.value) else 0
  }

  /** The nodes under `parent` built from the rows from `i` on. */
  ghost function Tree(flat: seq<Category>, links: Links, rank: Rank, top: nat, counts: map<Id, nat>,
    visible: set<Id>, parent: Option<Id>, i: nat): seq<Node>
    requires Sound(flat, links, rank) && Bounded(links, rank, top) && i <= |flat|
    decreases Depth(rank, top, parent), |flat| - i
  {
    if i == |flat| then []
    else
      var c := flat[i];
      var rest := Tree(flat, links, rank, top, counts, visible, parent, i + 1);
      if c.parent == parent && c.id in visible then
        [Node(c.id, At(counts, c.id), Tree(flat, links, rank, top, counts, visible, Some(c.id), 0))] + rest
      else rest
  }

  lemma Regroup(out: seq<Node>, node: Node, rest: seq<Node>)
    ensures out + ([node] + rest) == (out + [node]) + rest
  {
  }

  /** The recursive closure of the handler, with its loop over all rows. */
  method Build(flat: seq<Category>, ghost links: Links, ghost rank: Rank, ghost top: nat, counts: map<Id, nat>,
    visible: set<Id>, parent: Option<Id>) returns (out: seq<Node>)
    requires Sound(flat, links, rank) && Bounded(links, rank, top)
    ensures out == Tree(flat, links, rank, top, counts, visible, parent, 0)
    decreases Depth(rank, top, parent)
  {
    out := [];
    for i := 0 to |flat|
      invariant Tree(flat, links, rank, top, counts, visible, parent, 0)
        == out + Tree(flat, links, rank, top, counts, visible, parent, i)
    {
      var c := flat[i];
      if c.parent != parent || c.id !in visible { continue; }
      assert c.id in links && links[c.id] == parent && rank(c.id) < top;
      var children := Build(flat, links, rank, top, counts, visible, Some(c.id));
      var node := Node(c.id, At(counts, c.id), children);
      Regroup(out, node, Tree(flat, links, rank, top, counts, visible, parent, i + 1));
      out := out + [node];
    }
  }

  /** How often `x` is shown with count `n` anywhere in the trees, under which parent. */
  ghost function Shown(trees: seq<Node>, under: Option<Id>, x: Id, p: Option<Id>, n: nat): nat {
    if trees == [] then 0
    else
      var t := trees[0];
      (if t.id == x && under == p && t.count == n then 1 else 0) + Shown(t.children, Some(t.id), x, p, n)
      + Shown(trees[1..], under, x, p, n)
  }

  /** The visible categories reachable from `parent` downwards through visible ones. */
  ghost predicate Hangs(links: Links, rank: Rank, visible: set<Id>, parent: Option<Id>, x: Id)
    requires Forest(links, rank)
    decreases rank(x)
  {
    x in links && x in visible
    && (links[x] == parent || (links[x].Some? && Hangs(links, rank, visible, parent, links[x].value)))
  }

  lemma {:induction false} HangsBelow(links: Links, rank: Rank, visible: set<Id>, c: Id, x: Id)
    requires Forest(links, rank) && Hangs(links, rank, visible, Some(c), x)
    ensures c in Ancestors(links, rank, x)
    decreases rank(x)
  {
    if links[x] != Some(c) { HangsBelow(links, rank, visible, c, links[x].value); }
  }

  /** `x` is `c` or hangs below it. */
  ghost predicate In(links: Links, rank: Rank, visible: set<Id>, c: Id, x: Id)
    requires Forest(links, rank)
  {
    x == c || Hangs(links, rank, visible, Some(c), x)
  }

  /** The child of `parent` through which `x` hangs. */
  ghost function Branch(links: Links, rank: Rank, visible: set<Id>, parent: Option<Id>, x: Id): Id
    requires Forest(links, rank) && Hangs(links, rank, visible, parent, x)
    decreases rank(x)
  {
    if links[x] == parent then x else Branch(links, rank, visible, parent, links[x].value)
  }

  /** That child is the only one whose subtree holds `x`. */
  lemma {:induction false} OneBranch(links: Links, rank: Rank, visible: set<Id>, parent: Option<Id>, x: Id, c: Id)
    requires Forest(links, rank) && c in links && c in visible && links[c] == parent
    ensures In(links, rank, visible, c, x) <==>
      (Hangs(links, rank, visible, parent, x) && Branch(links, rank, visible, parent, x) == c)
    decreases rank(x)
  {
    if x in links && x in visible && links[x].Some? && x != c {
      var q := links[x].value;
      OneBranch(links, rank, visible, parent, q, c);
      if Some(q) == parent && Hangs(links, rank, visible, Some(c), q) {
        HangsBelow(links, rank, visible, c, q);
        AncestorsRankLower(links, rank, q, c);
      }
    }
  }

  /** In what is built under `parent` from the rows from `i` on, `x` is shown once if it hangs there, and then
      under its own parent and with its own count; otherwise never. */
  lemma {:induction false} ShownOnce(flat: seq<Category>, links: Links, rank: Rank, top: nat, counts: map<Id, nat>,
    visible: set<Id>, parent: Option<Id>, i: nat, x: Id, p: Option<Id>, n: nat)
    requires Sound(flat, links, rank) && Bounded(links, rank, top) && i <= |flat|
    ensures Shown(Tree(flat, links, rank, top, counts, visible, parent, i), parent, x, p, n) ==
      if Hangs(links, rank, visible, parent, x) && p == links[x] && n == At(counts, x)
        && (exists j :: i <= j < |flat| && flat[j].id == Branch(links, rank, visible, parent, x)) then 1 else 0
    decreases Depth(rank, top, parent), |flat| - i
  {
    if i < |flat| {
      var c := flat[i];
      ShownOnce(flat, links, rank, top, counts, visible, parent, i + 1, x, p, n);
      if c.parent == parent && c.id in visible {
        ShownOnce(flat, links, rank, top, counts, visible, Some(c.id), 0, x, p, n);
        OneBranch(links, rank, visible, parent, x, c.id);
        if Hangs(links, rank, visible, Some(c.id), x) {
          BranchListed(links, rank, visible, Some(c.id), x);
          HangsBelow(links, rank, visible, c.id, x);
          AncestorsRankLower(links, rank, x, c.id);
        }
      } else if Hangs(links, rank, visible, parent, x) {
        BranchListed(links, rank, visible, parent, x);
      }
    }
  }

  /** The nodes show rows from `i` on, in the order of the list. */
  ghost predicate InListOrder(flat: seq<Category>, trees: seq<Node>, i: nat)
    decreases |trees|
  {
    trees == [] || exists j: nat :: i <= j < |flat| && flat[j].id == trees[0].id && InListOrder(flat, trees[1..], j + 1)
  }

  /** Siblings, at whatever level, stand in the order of the list. */
  lemma {:induction false} SiblingsInOrder(flat: seq<Category>, links: Links, rank: Rank, top: nat, counts: map<Id, nat>,
    visible: set<Id>, parent: Option<Id>, i: nat)
    requires Sound(flat, links, rank) && Bounded(links, rank, top) && i <= |flat|
    ensures InListOrder(flat, Tree(flat, links, rank, top, counts, visible, parent, i), i)
    decreases |flat| - i
  {
    if i < |flat| {
      SiblingsInOrder(flat, links, rank, top, counts, visible, parent, i + 1);
      var trees := Tree(flat, links, rank, top, counts, visible, parent, i);
      var rest := Tree(flat, links, rank, top, counts, visible, parent, i + 1);
      if flat[i].parent == parent && flat[i].id in visible {
        assert trees[0].id == flat[i].id && trees[1..] == rest;
      }
    }
  }

  lemma {:induction false} BranchListed(links: Links, rank: Rank, visible: set<Id>, parent: Option<Id>, x: Id)
    requires Forest(links, rank) && Hangs(links, rank, visible, parent, x)
    ensures var c := Branch(links, rank, visible, parent, x);
      c in links && c in visible && links[c] == parent
    decreases rank(x)
  {
    if links[x] != parent { BranchListed(links, rank, visible, parent, links[x].value); }
  }

  /** The navigation shows every category with a nonempty subtree exactly once, under its own parent and with
      its rolled-up count, and shows nothing else. */
  lemma EveryVisibleShownOnce(flat: seq<Category>, links: Links, rank: Rank, top: nat, counts: map<Id, nat>,
    visible: set<Id>, x: Id, p: Option<Id>, n: nat)
    requires Sound(flat, links, rank) && Bounded(links, rank, top) && Closed(links)
    requires forall a: Id :: a in visible <==> Total(flat, links, rank, a) > 0
    ensures Shown(Tree(flat, links, rank, top, counts, visible, None, 0), None, x, p, n) ==
      if x in links && Total(flat, links, rank, x) > 0 && p == links[x] && n == At(counts, x) then 1 else 0
  {
    ShownOnce(flat, links, rank, top, counts, visible, None, 0, x, p, n);
    if x in links && x in visible {
      VisibleHangs(flat, links, rank, visible, x);
      BranchListed(links, rank, visible, None, x);
    }
  }

  /** A nonempty subtree makes every ancestor's subtree nonempty, so the chain up to a root is visible. */
  lemma {:induction false} VisibleHangs(flat: seq<Category>, links: Links, rank: Rank, visible: set<Id>, x: Id)
    requires Sound(flat, links, rank) && Closed(links) && x in links && x in visible
    requires forall a: Id :: a in visible <==> Total(flat, links, rank, a) > 0
    ensures Hangs(links, rank, visible, None, x)
    decreases rank(x)
  {
    if links[x].Some? {
      var q := links[x].value;
      var i :| 0 <= i < |flat| && flat[i].id == x;
      assert Ancestors(links, rank, x)[0] == q;
      DirectAt(flat, i);
      BelowMonotone(flat, links, rank, x, q, |flat|);
      BelowIncludes(flat, links, rank, q, i, |flat|);
      VisibleHangs(flat, links, rank, visible, q);
    }
  }

  lemma {:induction false} BelowIncludes(flat: seq<Category>, links: Links, rank: Rank, a: Id, i: nat, n: nat)
    requires Forest(links, rank) && i < n <= |flat| && a in Ancestors(links, rank, flat[i].id)
    ensures Below(flat, links, rank, a, n) >= flat[i].direct
    decreases n
  {
    if i < n - 1 { BelowIncludes(flat, links, rank, a, i, n - 1); }
  }
}
