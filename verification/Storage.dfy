/** The storage overview (internal/api/storage.go): every media file is classified by its key and the sizes are
    grouped per entry. */
module Storage {
  import opened Wrappers
  import opened Keys

  datatype Label = SourceFiles | PosterFiles | FlavorFiles | SubtitleFiles | OtherFiles

  /** A label and, for flavors, the flavor's name. */
  datatype Class = Class(tag: Label, name: string)

  datatype File = File(key: string, size: int)

  datatype Group = Group(bytes: int, count: int)

  function LastSlash(s: string): (i: int)
    ensures -1 <= i < |s|
  {
    if s == [] then -1 else if s[|s|-1] == '/' then |s| - 1 else LastSlash(s[..|s|-1])
  }

  function Base(key: string): string {
    key[LastSlash(key) + 1..]
  }

  predicate SubsAt(key: string, i: nat) {
    i + 6 <= |key| && key[i..i + 6] == "/subs/"
  }

  /** strings.Contains(key, "/subs/"). */
  predicate HoldsSubs(key: string) {
    exists i: nat :: i <= |key| && SubsAt(key, i)
  }

  /** The switch of the classification, given the file name and where the key lies. */
  function Decide(name: string, flavor: Option<string>, subs: bool): Class {
    if "original." <= name then Class(SourceFiles, "")
    else if "poster." <= name || "sprite." <= name then Class(PosterFiles, "")
    else if flavor.Some? then Class(FlavorFiles, flavor.value)
    else if subs then Class(SubtitleFiles, "")
    else Class(OtherFiles, "")
  }

  /** The flavor whose directory holds the key. */
  function FlavorOf(parts: seq<string>): Option<string> {
    if |parts| >= 4 && parts[2] == "flavors" then Some(parts[3]) else None
  }

  /** classifyFile. */
  function Classify(key: string): Class {
    Decide(Base(key), FlavorOf(Split(key)), HoldsSubs(key))
  }

  /** What the overview should say of a builder's key. */
  function Kind(m: Media): Class {
    match m
    case Original(_, _) => Class(SourceFiles, "")
    case Poster(_) => Class(PosterFiles, "")
    case Sprite(_) => Class(PosterFiles, "")
    case Master(_) => Class(OtherFiles, "")
    case Playlist(_, flavor) => Class(FlavorFiles, flavor)
    case SegmentFile(_, flavor, _) => Class(FlavorFiles, flavor)
    case Subtitle(_, _) => Class(SubtitleFiles, "")
  }

  /** A segment or subtitle whose file name looks like an original, poster or sprite. */
  predicate Masquerades(m: Media) {
    (m.SegmentFile? && ("original." <= m.segment || "poster." <= m.segment || "sprite." <= m.segment))
    || (m.Subtitle? && (Lang(m.lang) == "original" || Lang(m.lang) == "poster" || Lang(m.lang) == "sprite"))
  }

  lemma {:induction false} BaseAfter(s: string, t: string)
    requires NoSlash(t)
    ensures Base(s + ['/'] + t) == t
  {
    var all := s + ['/'] + t;
    if t == [] {
      assert LastSlash(all) == |s|;
    } else {
      var n := |t| - 1;
      BaseAfter(s, t[..n]);
      assert all[..|all|-1] == s + ['/'] + t[..n];
      assert Base(all) == Base(all[..|all|-1]) + [t[n]];
    }
  }

  /** The base name is the last path element. */
  lemma {:induction false} BaseOfSlashed(parts: seq<string>, dir: string)
    requires parts != [] && NoSlash(parts[|parts|-1])
    ensures Base(dir + ['/'] + Slashed(parts)) == parts[|parts|-1]
  {
    if |parts| == 1 {
      BaseAfter(dir, parts[0]);
    } else {
      BaseOfSlashed(parts[1..], dir + ['/'] + parts[0]);
      Regroup(dir, parts[0], Slashed(parts[1..]));
    }
  }

  function FileName(m: Media): string {
    match m
    case Original(_, ext) => "original." + TrimPrefix(ext, ".")
    case Poster(_) => "poster.jpg"
    case Sprite(_) => "sprite.jpg"
    case Master(_) => "master.m3u8"
    case Playlist(_, _) => "index.m3u8"
    case SegmentFile(_, _, segment) => segment
    case Subtitle(_, lang) => Lang(lang) + ".vtt"
  }

  lemma BaseOfBuild(m: Media)
    requires Clean(m)
    ensures Base(Build(m)) == FileName(m)
  {
    BuildSplits(m);
    TailSegments(m);
    var rest := [Print(m.id)] + Tail(m);
    assert Parts(m)[1..] == rest;
    BaseOfSlashed(rest, "entries");
  }

  predicate NoDot(s: string) {
    forall i :: 0 <= i < |s| ==> s[i] != '.'
  }

  lemma DotPrefix(p: string, l: string, rest: string)
    requires NoDot(p) && NoDot(l)
    ensures p + "." <= l + "." + rest <==> p == l
  {
    var s := l + "." + rest;
    if p + "." <= s {
      assert forall i :: 0 <= i < |p| ==> s[i] == p[i];
      assert s[|p|] == (p + ".")[|p|];
      assert s[|l|] == '.';
    }
  }

  lemma SubtitleBase(lang: string)
    ensures var b := Lang(lang) + ".vtt";
      ("original." <= b <==> Lang(lang) == "original") && ("poster." <= b <==> Lang(lang) == "poster")
      && ("sprite." <= b <==> Lang(lang) == "sprite")
  {
    LangIsStable(lang);
    var l := Lang(lang);
    assert NoDot(l) by { assert forall i :: 0 <= i < |l| ==> Accepted(l[i]); }
    assert l + ".vtt" == l + "." + "vtt";
    DotPrefix("original", l, "vtt");
    DotPrefix("poster", l, "vtt");
    DotPrefix("sprite", l, "vtt");
    assert "original" + "." == "original." && "poster" + "." == "poster." && "sprite" + "." == "sprite.";
  }

  lemma Around(a: string, b: string)
    ensures a + "/subs/" + b == a + ['/'] + ("subs" + ['/'] + b)
  {
    assert "/subs/" == ['/'] + "subs" + ['/'];
  }

  /** A key that contains "/subs/" has an element "subs". */
  lemma SubsIsElement(key: string)
    requires HoldsSubs(key)
    ensures "subs" in Split(key)
  {
    var i: nat :| i <= |key| && SubsAt(key, i);
    var a, b := key[..i], key[i + 6..];
    assert key == a + key[i..i + 6] + b;
    Around(a, b);
    SplitAppend(a, "subs" + ['/'] + b);
    SplitAppend("subs", b);
    SplitOne("subs");
    assert Split(key) == Split(a) + (["subs"] + Split(b));
  }

  lemma SubtitleHoldsSubs(id: int, lang: string)
    requires IsInt64(id)
    ensures HoldsSubs(Build(Subtitle(id, lang)))
  {
    BuildSplits(Subtitle(id, lang));
    var p, v := Print(id), Lang(lang) + ".vtt";
    SlashedCons("subs", [v]);
    SlashedCons(p, ["subs", v]);
    SlashedCons("entries", [p, "subs", v]);
    assert Parts(Subtitle(id, lang)) == ["entries"] + ([p] + (["subs"] + [v]));
    assert ["subs", v] == ["subs"] + [v] && [p, "subs", v] == [p] + ["subs", v];
    var key := "entries" + ['/'] + (p + ['/'] + ("subs" + ['/'] + v));
    assert SubsAt(key, 8 + |p|);
  }

  lemma SubsIsNoId(id: int)
    requires IsInt64(id)
    ensures Print(id) != "subs"
  {
    PrintParse(id);
    assert "subs"[0] == 's';
  }

  lemma MasterHoldsNoSubs(id: int)
    requires IsInt64(id)
    ensures !HoldsSubs(Build(Master(id)))
  {
    BuildSplits(Master(id));
    SubsIsNoId(id);
    assert Parts(Master(id)) == ["entries", Print(id), "master.m3u8"];
    if HoldsSubs(Build(Master(id))) {
      SubsIsElement(Build(Master(id)));
    }
  }

  lemma NotPrefix(p: string, s: string)
    requires p != [] && s != [] && p[0] != s[0]
    ensures !(p <= s)
  {
  }

  /** The fixed file names against the prefixes that are looked for. */
  lemma FixedNames()
    ensures !("original." <= "poster.jpg") && "poster." <= "poster.jpg"
    ensures !("original." <= "sprite.jpg") && "sprite." <= "sprite.jpg"
    ensures !("original." <= "index.m3u8") && !("poster." <= "index.m3u8") && !("sprite." <= "index.m3u8")
    ensures !("original." <= "master.m3u8") && !("poster." <= "master.m3u8") && !("sprite." <= "master.m3u8")
  {
    NotPrefix("original.", "poster.jpg");
    NotPrefix("original.", "sprite.jpg");
    NotPrefix("original.", "index.m3u8");
    NotPrefix("poster.", "index.m3u8");
    NotPrefix("sprite.", "index.m3u8");
    NotPrefix("original.", "master.m3u8");
    NotPrefix("poster.", "master.m3u8");
    NotPrefix("sprite.", "master.m3u8");
  }

  lemma FlavorOfParts(m: Media)
    ensures FlavorOf(Parts(m)) == if m.Playlist? || m.SegmentFile? then Some(m.flavor) else None
  {
    if |Tail(m)| > 1 { assert Parts(m)[2] == Tail(m)[0] && Parts(m)[3] == Tail(m)[1]; }
    if m.Subtitle? { assert "subs"[0] != "flavors"[0]; }
  }

  lemma ClassifyCases(m: Media)
    requires Clean(m)
    ensures Classify(Build(m)) ==
      Decide(FileName(m), if m.Playlist? || m.SegmentFile? then Some(m.flavor) else None, HoldsSubs(Build(m)))
  {
    BuildSplits(m);
    BaseOfBuild(m);
    FlavorOfParts(m);
  }

  lemma SubtitleRecovered(id: int, lang: string)
    requires IsInt64(id)
    ensures Classify(Build(Subtitle(id, lang))) == Class(SubtitleFiles, "") <==>
      Lang(lang) != "original" && Lang(lang) != "poster" && Lang(lang) != "sprite"
  {
    ClassifyCases(Subtitle(id, lang));
    SubtitleBase(lang);
    SubtitleHoldsSubs(id, lang);
  }

  lemma SegmentRecovered(m: Media)
    requires Clean(m) && m.SegmentFile?
    ensures Classify(Build(m)) == Class(FlavorFiles, m.flavor) <==>
      !("original." <= m.segment || "poster." <= m.segment || "sprite." <= m.segment)
  {
    ClassifyCases(m);
  }

  lemma FixedRecovered(m: Media)
    requires Clean(m) && !m.SegmentFile? && !m.Subtitle?
    ensures Classify(Build(m)) == Kind(m)
  {
    ClassifyCases(m);
    FixedNames();
    if m.Original? { assert "original." <= "original." + TrimPrefix(m.ext, "."); }
    if m.Master? { MasterHoldsNoSubs(m.id); }
  }

  /** The overview recovers the kind and flavor of every builder's key, except exactly for those that
      masquerade: a subtitle in the language "original", say, is counted as a source. */
  lemma ClassifyRecoversExactly(m: Media)
    requires Clean(m)
    ensures Classify(Build(m)) == Kind(m) <==> !Masquerades(m)
  {
    match m
    case Subtitle(id, lang) => SubtitleRecovered(id, lang);
    case SegmentFile(_, _, _) => SegmentRecovered(m);
    case _ => FixedRecovered(m);
  }

  /** The scan looks for the whole substring, wherever it stands. */
  lemma HoldsSubsExactly(key: string)
    ensures HoldsSubs(key) <==> exists a: string, b: string :: key == a + "/subs/" + b
  {
    if i: nat :| i <= |key| && SubsAt(key, i) {
      assert key == key[..i] + "/subs/" + key[i + 6..];
    }
    if a: string, b: string :| key == a + "/subs/" + b {
      assert key[|a|..|a| + 6] == "/subs/";
      assert SubsAt(key, |a|);
    }
  }

  /** A file directly in the flavors directory counts as the flavor of its own name, unless it is named like an
      original, poster or sprite. */
  lemma StrayFlavorFile(id: int, name: string)
    requires IsInt64(id) && NoSlash(name)
    ensures var key := "entries/" + Print(id) + "/flavors/" + name;
      !("original." <= name || "poster." <= name || "sprite." <= name) ==> Classify(key) == Class(FlavorFiles, name)
  {
    var parts := ["entries", Print(id), "flavors", name];
    PrintIsSegment(id);
    SplitSlashed(parts);
    BaseOfSlashed(parts[1..], "entries");
    StrayKey(Print(id), name);
  }

  lemma StrayKey(p: string, name: string)
    ensures Slashed(["entries", p, "flavors", name]) == "entries/" + p + "/flavors/" + name
    ensures Slashed(["entries", p, "flavors", name]) == "entries" + ['/'] + Slashed([p, "flavors", name])
    ensures ["entries", p, "flavors", name][1..] == [p, "flavors", name]
  {
    SlashedCons("entries", [p, "flavors", name]);
    assert ["entries"] + [p, "flavors", name] == ["entries", p, "flavors", name];
    ThreeSlashed(p, "flavors", name);
    assert "entries" + ['/'] + (p + ['/'] + ("flavors" + ['/'] + name)) == "entries/" + p + "/flavors/" + name;
  }

  /* ---- grouping ---- */

  /** The entry a listed key belongs to, if any. */
  function EntryOf(key: string): Option<int> {
    var parts := Split(key);
    if |parts| < 3 then None else Parse(parts[1])
  }

  /** Every file a builder names is counted for its own entry. */
  lemma EntryOfBuild(m: Media)
    requires Clean(m)
    ensures EntryOf(Build(m)) == Some(m.id)
  {
    BuildSplits(m);
    PrintParse(m.id);
    assert |Tail(m)| >= 1 && Parts(m)[1] == Print(m.id);
  }

  /** A file is counted for an entry exactly if its key has a second element that reads as that id and something
      behind it. */
  lemma EntryOfExactly(key: string, id: int)
    ensures EntryOf(key) == Some(id) <==>
      exists a: string, p: string, rest: string ::
        NoSlash(a) && NoSlash(p) && Parse(p) == Some(id) && key == a + ['/'] + (p + ['/'] + rest)
  {
    if EntryOf(key) == Some(id) {
      var tail := SplitHead(key);
      var rest := SplitHead(tail);
      assert key == Split(key)[0] + ['/'] + (Split(key)[1] + ['/'] + rest);
    }
    if a: string, p: string, rest: string
      :| NoSlash(a) && NoSlash(p) && Parse(p) == Some(id) && key == a + ['/'] + (p + ['/'] + rest)
    {
      SplitAppend(a, p + ['/'] + rest);
      SplitAppend(p, rest);
      SplitOne(a);
      SplitOne(p);
      assert Split(key) == [a] + ([p] + Split(rest));
    }
  }

  predicate Counts(f: File, id: int, c: Class) {
    EntryOf(f.key) == Some(id) && Classify(f.key) == c
  }

  /** What a group of an entry should hold. */
  function Expected(files: seq<File>, id: int, c: Class): Group {
    if files == [] then Group(0, 0)
    else
      var g, f := Expected(files[..|files|-1], id, c), files[|files|-1];
      if Counts(f, id, c) then Group(g.bytes + f.size, g.count + 1) else g
  }

  /** The entries in the order in which the listing first names them. */
  function FirstSeen(files: seq<File>): seq<int> {
    if files == [] then []
    else
      var past, id := FirstSeen(files[..|files|-1]), EntryOf(files[|files|-1].key);
      if id.None? || id.value in past then past else past + [id.value]
  }

  function EntryBytes(files: seq<File>, id: int): int {
    if files == [] then 0
    else
      EntryBytes(files[..|files|-1], id)
      + (if EntryOf(files[|files|-1].key) == Some(id) then files[|files|-1].size else 0)
  }

  ghost predicate Grouped(files: seq<File>, byEntry: map<int, map<Class, Group>>, order: seq<int>) {
    && order == FirstSeen(files)
    && (forall id :: id in byEntry <==> id in order)
    && (forall id, c :: id in byEntry ==> (c in byEntry[id] <==> Expected(files, id, c).count > 0))
    && (forall id, c :: id in byEntry && c in byEntry[id] ==> byEntry[id][c] == Expected(files, id, c))
  }

  /** The grouping loop: one group per entry and class, with the sizes and number of exactly its files. */
  method GroupFiles(files: seq<File>) returns (byEntry: map<int, map<Class, Group>>, order: seq<int>)
    ensures Grouped(files, byEntry, order)
  {
    byEntry, order := map[], [];
    for i := 0 to |files|
      invariant Grouped(files[..i], byEntry, order)
    {
      var f := files[i];
      assert files[..i + 1] == files[..i] + [f];
      var parts := Split(f.key);
      var id := if |parts| < 3 then None else Parse(parts[1]);
      GroupStep(files[..i], f, byEntry, order);
      if id.None? { continue; }
      byEntry, order := AddFile(byEntry, order, id.value, Classify(f.key), f.size);
    }
    assert files[..|files|] == files;
  }

  /** Finds or creates the entry and its group, then counts the file in. */
  method AddFile(byEntry0: map<int, map<Class, Group>>, order0: seq<int>, id: int, k: Class, size: int)
    returns (byEntry: map<int, map<Class, Group>>, order: seq<int>)
    ensures var groups := if id in byEntry0 then byEntry0[id] else map[];
      byEntry == byEntry0[id := groups[k := Counted(groups, k, size)]]
    ensures order == if id in byEntry0 then order0 else order0 + [id]
  {
    byEntry, order := byEntry0, order0;
    if id !in byEntry {
      byEntry := byEntry[id := map[]];
      order := order + [id];
    }
    byEntry := byEntry[id := byEntry[id][k := Counted(byEntry[id], k, size)]];
  }

  function Counted(groups: map<Class, Group>, k: Class, size: int): Group {
    var g := if k in groups then groups[k] else Group(0, 0);
    Group(g.bytes + size, g.count + 1)
  }

  lemma ExpectedStep(files: seq<File>, f: File, id: int, c: Class)
    ensures var g := Expected(files, id, c);
      Expected(files + [f], id, c) == if Counts(f, id, c) then Group(g.bytes + f.size, g.count + 1) else g
  {
    assert (files + [f])[..|files|] == files;
  }

  lemma GroupStep(files: seq<File>, f: File, byEntry: map<int, map<Class, Group>>, order: seq<int>)
    requires Grouped(files, byEntry, order)
    ensures var id := EntryOf(f.key);
      if id.None? then Grouped(files + [f], byEntry, order)
      else
        var k := Classify(f.key);
        var groups := if id.value in byEntry then byEntry[id.value] else map[];
        Grouped(files + [f], byEntry[id.value := groups[k := Counted(groups, k, f.size)]],
          if id.value in byEntry then order else order + [id.value])
  {
    NotSeen(files);
    assert (files + [f])[..|files|] == files;
    forall id, c
      ensures var g := Expected(files, id, c);
        Expected(files + [f], id, c) == if Counts(f, id, c) then Group(g.bytes + f.size, g.count + 1) else g
    {
      ExpectedStep(files, f, id, c);
    }
  }

  /** An entry that was not named has no groups; a group with no files has no bytes. */
  lemma {:induction false} NotSeen(files: seq<File>)
    ensures forall id, c :: id !in FirstSeen(files) ==> Expected(files, id, c) == Group(0, 0)
    ensures forall id, c :: Expected(files, id, c).count >= 0
    ensures forall id, c :: Expected(files, id, c).count == 0 ==> Expected(files, id, c) == Group(0, 0)
  {
    if files != [] { NotSeen(files[..|files|-1]); }
  }

  function BytesOfGroups(files: seq<File>, id: int, classes: seq<Class>): int {
    if classes == [] then 0 else Expected(files, id, classes[0]).bytes + BytesOfGroups(files, id, classes[1..])
  }

  /** In whatever order the groups are summed, an entry's total is the size of all its files. */
  lemma {:induction false} GroupsAddUp(files: seq<File>, id: int, classes: seq<Class>)
    requires forall i, j :: 0 <= i < j < |classes| ==> classes[i] != classes[j]
    requires forall f :: f in files && EntryOf(f.key) == Some(id) ==> Classify(f.key) in classes
    ensures BytesOfGroups(files, id, classes) == EntryBytes(files, id)
  {
    if files == [] {
      NoBytes(id, classes);
    } else {
      var n := |files| - 1;
      assert files[n] in files;
      GroupsAddUp(files[..n], id, classes);
      OneMore(files, id, classes);
    }
  }

  lemma {:induction false} NoBytes(id: int, classes: seq<Class>)
    ensures BytesOfGroups([], id, classes) == 0
  {
    if classes != [] { NoBytes(id, classes[1..]); }
  }

  lemma {:induction false} OneMore(files: seq<File>, id: int, classes: seq<Class>)
    requires files != []
    requires forall i, j :: 0 <= i < j < |classes| ==> classes[i] != classes[j]
    ensures var n := |files| - 1;
      BytesOfGroups(files, id, classes) == BytesOfGroups(files[..n], id, classes)
        + (if EntryOf(files[n].key) == Some(id) && Classify(files[n].key) in classes then files[n].size else 0)
  {
    if classes != [] {
      OneMore(files, id, classes[1..]);
      assert classes == [classes[0]] + classes[1..];
      assert classes[0] !in classes[1..];
    }
  }
}
