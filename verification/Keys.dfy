/** The key layout of the media store and its parser (internal/store/keys.go). */
module Keys {
  import opened Wrappers

  /* ---- strconv ---- */

  predicate IsInt64(n: int) {
    -0x8000_0000_0000_0000 <= n < 0x8000_0000_0000_0000
  }

  function Digit(d: nat): char
    requires d < 10
  {
    (48 + d) as char
  }

  function Digits(n: nat): string {
    if n < 10 then [Digit(n)] else Digits(n / 10) + [Digit(n % 10)]
  }

  /** strconv.FormatInt(n, 10). */
  function Print(n: int): string {
    if n < 0 then ['-'] + Digits(-n) else Digits(n)
  }

  predicate AllDigits(s: string) {
    forall i :: 0 <= i < |s| ==> '0' <= s[i] <= '9'
  }

  function Value(s: string): nat
    requires AllDigits(s)
  {
    if s == [] then 0 else Value(s[..|s|-1]) * 10 + (s[|s|-1] as int - 48)
  }

  /** strconv.ParseInt(s, 10, 64): an optional sign, at least one digit, nothing else, in range. */
  function Parse(s: string): Option<int> {
    var digits := if s != [] && (s[0] == '-' || s[0] == '+') then s[1..] else s;
    if digits == [] || !AllDigits(digits) then None
    else
      var n: int := if s[0] == '-' then 0 - Value(digits) else Value(digits);
      if IsInt64(n) then Some(n) else None
  }

  lemma {:induction false} DigitsValue(n: nat)
    ensures Digits(n) != [] && AllDigits(Digits(n)) && Value(Digits(n)) == n
  {
    if n < 10 {
      assert Digits(n)[..0] == [];
      assert Value([]) == 0;
    } else {
      DigitsValue(n / 10);
      assert Digits(n)[..|Digits(n)|-1] == Digits(n / 10);
    }
  }

  function Zeros(z: nat): string {
    if z == 0 then "" else ['0'] + Zeros(z - 1)
  }

  lemma {:induction false} ZerosValue(z: nat)
    ensures AllDigits(Zeros(z)) && |Zeros(z)| == z && Zeros(z + 1) == Zeros(z) + ['0']
  {
    if z > 0 { ZerosValue(z - 1); }
  }

  lemma ValueSnoc(front: string, c: char)
    requires AllDigits(front) && '0' <= c <= '9'
    ensures AllDigits(front + [c]) && Value(front + [c]) == Value(front) * 10 + (c as int - 48)
  {
    assert (front + [c])[..|front|] == front;
  }

  lemma DigitsSnoc(v: nat, last: nat)
    requires last < 10
    ensures Digits(v * 10 + last) == (if v == 0 then "" else Digits(v)) + [Digit(last)]
  {
    assert (v * 10 + last) / 10 == v && (v * 10 + last) % 10 == last;
  }

  lemma DigitsStep(front: string, c: char, v: nat, z: nat) returns (z': nat)
    requires '0' <= c <= '9' && front == Zeros(z) + Digits(v)
    ensures front + [c] == Zeros(z') + Digits(v * 10 + (c as int - 48))
  {
    var last: nat := c as int - 48;
    DigitsSnoc(v, last);
    ZerosValue(z);
    z' := if v == 0 then z + 1 else z;
    assert Digit(last) == c && Digits(0) == ['0'];
    assert front + [c] == Zeros(z) + (Digits(v) + [c]);
  }

  lemma OneDigit(c: char)
    requires '0' <= c <= '9'
    ensures AllDigits([c]) && Value([c]) == c as int - 48 && [c] == Zeros(0) + Digits(c as int - 48)
  {
    assert Value([]) == 0;
    ValueSnoc([], c);
    assert [] + [c] == [c];
  }

  lemma LastDigit(d: string) returns (front: string, c: char)
    requires d != [] && AllDigits(d)
    ensures d == front + [c] && AllDigits(front) && '0' <= c <= '9' && |front| == |d| - 1
  {
    front, c := d[..|d|-1], d[|d|-1];
  }

  /** A string of digits is the decimal form of its value behind some zeros. */
  lemma {:induction false} DigitsOfValue(d: string) returns (z: nat, v: nat)
    requires d != [] && AllDigits(d)
    ensures v == Value(d) && d == Zeros(z) + Digits(v)
    decreases |d|
  {
    var front, c := LastDigit(d);
    if front == [] {
      OneDigit(c);
      z, v := 0, c as int - 48;
    } else {
      var z0, v0 := DigitsOfValue(front);
      ValueSnoc(front, c);
      z := DigitsStep(front, c, v0, z0);
      v := v0 * 10 + (c as int - 48);
    }
  }

  lemma {:induction false} ZerosAreZero(z: nat)
    ensures AllDigits(Zeros(z)) && Value(Zeros(z)) == 0
  {
    ZerosValue(z);
    if z > 0 {
      ZerosValue(z - 1);
      ZerosAreZero(z - 1);
      ValueSnoc(Zeros(z - 1), '0');
    }
  }

  lemma {:induction false} ValueAfterZeros(z: nat, d: string)
    requires AllDigits(d)
    ensures AllDigits(Zeros(z) + d) && Value(Zeros(z) + d) == Value(d)
  {
    ZerosAreZero(z);
    if d == [] {
      assert Zeros(z) + d == Zeros(z);
    } else {
      var front, c := d[..|d|-1], d[|d|-1];
      ValueAfterZeros(z, front);
      ValueSnoc(Zeros(z) + front, c);
      ValueSnoc(front, c);
      assert d == front + [c] && Zeros(z) + d == (Zeros(z) + front) + [c];
    }
  }

  /** `s` is a decimal form of `n`, with any number of leading zeros and a plus sign allowed. */
  ghost predicate Denotes(s: string, n: int, sign: string, z: nat, v: nat) {
    && s == sign + (Zeros(z) + Digits(v))
    && (sign == "-" || sign == "+" || sign == "")
    && n == (if sign == "-" then 0 - v else v)
  }

  /** What the parser reads: exactly the decimal forms of the 64-bit integers, and their values. */
  lemma ParseExactly(s: string, n: int)
    ensures Parse(s) == Some(n) <==>
      -0x8000_0000_0000_0000 <= n < 0x8000_0000_0000_0000 && exists sign, z, v :: Denotes(s, n, sign, z, v)
  {
    if Parse(s) == Some(n) {
      var sign, z, v := ParsedDenotes(s, n);
    } else if sign, z, v :| Denotes(s, n, sign, z, v) {
      DenotedIsParsed(s, n, sign, z, v);
    }
  }

  lemma ParsedDenotes(s: string, n: int) returns (sign: string, z: nat, v: nat)
    requires Parse(s) == Some(n)
    ensures Denotes(s, n, sign, z, v)
  {
    var signed := s != [] && (s[0] == '-' || s[0] == '+');
    var digits := if signed then s[1..] else s;
    sign := if signed then s[..1] else "";
    z, v := DigitsOfValue(digits);
    assert s == sign + digits;
  }

  lemma DenotedIsParsed(s: string, n: int, sign: string, z: nat, v: nat)
    requires Denotes(s, n, sign, z, v)
    ensures Parse(s) == if IsInt64(n) then Some(n) else None
  {
    var d := PaddedDigits(z, v);
    ParseSigned(sign, d, v);
  }

  lemma PaddedDigits(z: nat, v: nat) returns (d: string)
    ensures d == Zeros(z) + Digits(v) && d != [] && AllDigits(d) && Value(d) == v
  {
    DigitsValue(v);
    ValueAfterZeros(z, Digits(v));
    d := Zeros(z) + Digits(v);
  }

  lemma ParseSigned(sign: string, digits: string, v: nat)
    requires sign == "-" || sign == "+" || sign == ""
    requires digits != [] && AllDigits(digits) && Value(digits) == v
    ensures var n: int := if sign == "-" then 0 - v else v;
      Parse(sign + digits) == if IsInt64(n) then Some(n) else None
  {
    var s := sign + digits;
    if sign != "" { assert s[1..] == digits; } else { assert s == digits; }
  }

  /** Printing and parsing an id are inverse for every 64-bit integer, negative ones included. */
  lemma PrintParse(n: int)
    requires IsInt64(n)
    ensures Parse(Print(n)) == Some(n)
  {
    var sign := if n < 0 then "-" else "";
    var v: nat := if n < 0 then 0 - n else n;
    PrintDenotes(n, sign, v);
    DenotedIsParsed(Print(n), n, sign, 0, v);
  }

  lemma PrintDenotes(n: int, sign: string, v: nat)
    requires n == (if sign == "-" then 0 - v else v) && sign == (if n < 0 then "-" else "")
    ensures Denotes(Print(n), n, sign, 0, v)
  {
    assert Zeros(0) + Digits(v) == Digits(v) && "" + Digits(v) == Digits(v);
  }

  lemma PrintIsSegment(n: int)
    ensures Segment(Print(n))
  {
    var v: nat := if n < 0 then 0 - n else n;
    DigitsValue(v);
    var s := Print(n);
    assert s == (if n < 0 then ['-'] else []) + Digits(v);
    assert forall i :: 0 <= i < |s| ==> s[i] == '-' || '0' <= s[i] <= '9';
    assert s[0] != '.';
  }

  /* ---- path and strings ---- */

  predicate NoSlash(s: string) {
    forall i :: 0 <= i < |s| ==> s[i] != '/'
  }

  /** A name that is one clean path element. */
  predicate Segment(s: string) {
    NoSlash(s) && s != "" && s != "." && s != ".."
  }

  function Split(s: string): (r: seq<string>)
    ensures r != []
  {
    if s == [] then [""]
    else if s[0] == '/' then [""] + Split(s[1..])
    else
      var rest := Split(s[1..]);
      [[s[0]] + rest[0]] + rest[1..]
  }

  function Slashed(parts: seq<string>): string {
    if parts == [] then "" else if |parts| == 1 then parts[0] else parts[0] + ['/'] + Slashed(parts[1..])
  }

  /** The lexical rules of path.Clean on a relative path: empty and "." elements go, ".." takes back the
      element before it when there is one. */
  function Normal(parts: seq<string>, done: seq<string>): seq<string> {
    if parts == [] then done
    else if parts[0] == "" || parts[0] == "." then Normal(parts[1..], done)
    else if parts[0] == ".." && done != [] && done[|done|-1] != ".." then Normal(parts[1..], done[..|done|-1])
    else Normal(parts[1..], done + [parts[0]])
  }

  function NonEmpty(elems: seq<string>): seq<string> {
    if elems == [] then []
    else if elems[0] == "" then NonEmpty(elems[1..])
    else [elems[0]] + NonEmpty(elems[1..])
  }

  /** path.Join for a first element that is not rooted. */
  function Join(elems: seq<string>): string {
    var kept := NonEmpty(elems);
    if kept == [] then ""
    else
      var clean := Normal(Split(Slashed(kept)), []);
      if clean == [] then "." else Slashed(clean)
  }

  lemma {:induction false} SplitOne(s: string)
    requires NoSlash(s)
    ensures Split(s) == [s]
  {
    if s != [] {
      SplitOne(s[1..]);
      assert [s[0]] + s[1..] == s;
    }
  }

  lemma {:induction false} SplitAppend(s: string, rest: string)
    ensures Split(s + ['/'] + rest) == Split(s) + Split(rest)
  {
    var all := s + ['/'] + rest;
    if s == [] {
      assert all[1..] == rest;
    } else {
      SplitAppend(s[1..], rest);
      assert all[0] == s[0] && all[1..] == s[1..] + ['/'] + rest;
      FirstOf(Split(s[1..]), Split(rest), s[0]);
    }
  }

  lemma FirstOf(a: seq<string>, b: seq<string>, c: char)
    requires a != []
    ensures [[c] + (a + b)[0]] + (a + b)[1..] == ([[c] + a[0]] + a[1..]) + b
    ensures [""] + (a + b) == ([""] + a) + b
  {
  }

  /** Splitting undoes joining elements that hold no slash. */
  lemma {:induction false} SplitSlashed(parts: seq<string>)
    requires parts != [] && forall i :: 0 <= i < |parts| ==> NoSlash(parts[i])
    ensures Split(Slashed(parts)) == parts
  {
    if |parts| == 1 {
      SplitOne(parts[0]);
    } else {
      SplitSlashed(parts[1..]);
      SplitAppend(parts[0], Slashed(parts[1..]));
      SplitOne(parts[0]);
      assert parts == [parts[0]] + parts[1..];
    }
  }

  lemma {:induction false} NormalKeeps(parts: seq<string>, done: seq<string>)
    requires forall i :: 0 <= i < |parts| ==> Segment(parts[i])
    ensures Normal(parts, done) == done + parts
  {
    if parts != [] {
      NormalKeeps(parts[1..], done + [parts[0]]);
      assert done + [parts[0]] + parts[1..] == done + parts;
    }
  }

  lemma {:induction false} NonEmptyKeeps(elems: seq<string>)
    requires forall i :: 0 <= i < |elems| ==> Segment(elems[i])
    ensures NonEmpty(elems) == elems
  {
    if elems != [] {
      NonEmptyKeeps(elems[1..]);
      assert elems == [elems[0]] + elems[1..];
    }
  }

  /** On clean segments path.Join only adds slashes, and splitting gives the segments back. */
  lemma JoinSegments(elems: seq<string>)
    requires elems != [] && forall i :: 0 <= i < |elems| ==> Segment(elems[i])
    ensures Join(elems) == Slashed(elems) && Split(Join(elems)) == elems
  {
    NonEmptyKeeps(elems);
    SplitSlashed(elems);
    NormalKeeps(elems, []);
    assert [] + elems == elems;
  }

  /** A cleaned path: no empty or "." element, and ".." only in front. */
  ghost predicate Cleaned(parts: seq<string>) {
    && (forall i :: 0 <= i < |parts| ==> NoSlash(parts[i]) && parts[i] != "" && parts[i] != ".")
    && (forall i :: 0 < i < |parts| && parts[i] == ".." ==> parts[i - 1] == "..")
  }

  lemma {:induction false} NormalCleans(parts: seq<string>, done: seq<string>)
    requires Cleaned(done) && forall i :: 0 <= i < |parts| ==> NoSlash(parts[i])
    ensures Cleaned(Normal(parts, done))
  {
    if parts != [] {
      var rest := parts[1..];
      assert NoSlash(parts[0]) && forall i :: 0 <= i < |rest| ==> NoSlash(rest[i]);
      if parts[0] == "" || parts[0] == "." {
        NormalCleans(rest, done);
      } else if parts[0] == ".." && done != [] && done[|done|-1] != ".." {
        NormalCleans(rest, done[..|done|-1]);
      } else {
        NormalCleans(rest, done + [parts[0]]);
      }
    }
  }

  lemma {:induction false} NormalOfCleaned(parts: seq<string>, done: seq<string>)
    requires Cleaned(done + parts)
    ensures Normal(parts, done) == done + parts
  {
    if parts != [] {
      var all := done + parts;
      assert all[|done|] == parts[0];
      assert done != [] ==> all[|done| - 1] == done[|done| - 1];
      assert done + [parts[0]] + parts[1..] == all;
      NormalOfCleaned(parts[1..], done + [parts[0]]);
    }
  }

  lemma {:induction false} SplitParts(s: string)
    ensures forall i :: 0 <= i < |Split(s)| ==> NoSlash(Split(s)[i])
  {
    if s != [] { SplitParts(s[1..]); }
  }

  lemma {:induction false} NonEmptyNone(elems: seq<string>)
    ensures NonEmpty(elems) == [] <==> forall i :: 0 <= i < |elems| ==> elems[i] == ""
    ensures forall i :: 0 <= i < |NonEmpty(elems)| ==> NonEmpty(elems)[i] != ""
  {
    if elems != [] {
      NonEmptyNone(elems[1..]);
      assert forall i :: 0 < i < |elems| ==> elems[i] == elems[1..][i - 1];
      assert forall i :: 0 <= i < |elems[1..]| ==> elems[1..][i] == elems[i + 1];
    }
  }

  /** The joined path is empty only for empty elements, and joining cleans for good: it joins to itself. */
  lemma JoinIsClean(elems: seq<string>)
    ensures Join(elems) == "" <==> forall i :: 0 <= i < |elems| ==> elems[i] == ""
    ensures Join(elems) != "" && Join(elems) != "." ==> Cleaned(Split(Join(elems)))
    ensures Join([Join(elems)]) == Join(elems)
  {
    var kept := NonEmpty(elems);
    NonEmptyNone(elems);
    if kept != [] {
      SplitParts(Slashed(kept));
      NormalCleans(Split(Slashed(kept)), []);
      var clean := Normal(Split(Slashed(kept)), []);
      CleanedJoinsToItself(clean);
    } else {
      assert [""][1..] == [] && NonEmpty([""]) == [];
    }
  }

  lemma CleanedJoinsToItself(clean: seq<string>)
    requires Cleaned(clean)
    ensures var s := if clean == [] then "." else Slashed(clean);
      && s != "" && Join([s]) == s && (clean != [] ==> Split(s) == clean)
  {
    if clean == [] {
      assert ["."][1..] == [] && NonEmpty(["."]) == ["."];
      SlashedOne(".");
      SplitOne(".");
      assert Normal(["."], []) == [] by { assert ["."][1..] == []; }
    } else {
      SlashedNonEmptyElement(clean);
      var s := Slashed(clean);
      assert [s][1..] == [] && NonEmpty([s]) == [s];
      SlashedOne(s);
      SplitSlashed(clean);
      NormalOfCleaned(clean, []);
      assert [] + clean == clean;
    }
  }

  lemma SlashedOne(s: string)
    ensures Slashed([s]) == s
  {
  }

  lemma SlashedNonEmptyElement(a: seq<string>)
    requires a != [] && a[0] != ""
    ensures Slashed(a) != ""
  {
  }

  function TrimPrefix(s: string, p: string): string {
    if p <= s then s[|p|..] else s
  }

  function TrimLeft(s: string): string {
    if s != [] && s[0] == '/' then TrimLeft(s[1..]) else s
  }

  function TrimRight(s: string): string {
    if s != [] && s[|s|-1] == '/' then TrimRight(s[..|s|-1]) else s
  }

  /* ---- languages ---- */

  /** unicode.ToLower, as far as it can produce an accepted character: the ASCII capitals, the Kelvin sign and
      the dotted capital I. Any other character stays outside the accepted set either way. */
  function Lower(c: char): char {
    if 'A' <= c <= 'Z' then (c as int + 32) as char
    else if c == '\U{212A}' then 'k'
    else if c == '\U{0130}' then 'i'
    else c
  }

  predicate Accepted(c: char) {
    'a' <= c <= 'z' || '0' <= c <= '9' || c == '-' || c == '_'
  }

  predicate Space(c: char) {
    '\t' <= c <= '\r' || c == ' ' || c == '\U{85}' || c == '\U{A0}' || c == '\U{1680}' || '\U{2000}' <= c <= '\U{200A}'
    || c == '\U{2028}' || c == '\U{2029}' || c == '\U{202F}' || c == '\U{205F}' || c == '\U{3000}'
  }

  function Lowered(s: string): (r: string)
    ensures |r| == |s| && forall i :: 0 <= i < |s| ==> r[i] == Lower(s[i])
  {
    seq(|s|, i requires 0 <= i < |s| => Lower(s[i]))
  }

  function Trimmed(s: string): string {
    if s == [] then s
    else if Space(s[0]) then Trimmed(s[1..])
    else if Space(s[|s|-1]) then Trimmed(s[..|s|-1])
    else s
  }

  predicate IsLang(s: string) {
    s != "" && forall i :: 0 <= i < |s| ==> Accepted(s[i])
  }

  function Lang(s: string): string {
    var l := Trimmed(Lowered(s));
    if IsLang(l) then l else "en"
  }

  /** sanitizeLang. */
  method SanitizeLang(lang: string) returns (r: string)
    ensures IsLang(r) && r == Lang(lang)
  {
    var l := Trimmed(Lowered(lang));
    for i := 0 to |l|
      invariant forall j :: 0 <= j < i ==> Accepted(l[j])
    {
      if !Accepted(l[i]) { return "en"; }
    }
    if l == "" { return "en"; }
    return l;
  }

  /** A sanitized language is a clean segment and is left alone when sanitized again. */
  lemma LangIsStable(s: string)
    ensures IsLang(Lang(s)) && Segment(Lang(s)) && Lang(Lang(s)) == Lang(s)
  {
    var l := Lang(s);
    assert Lowered(l) == l;
    assert forall i :: 0 <= i < |l| ==> Accepted(l[i]);
    assert l[0] != '.';
  }

  /** What becomes of a character of a language name. */
  predicate Folds(c: char, d: char) {
    || (('a' <= c <= 'z' || '0' <= c <= '9' || c == '-' || c == '_') && d == c)
    || ('A' <= c <= 'Z' && d as int == c as int + 32)
    || (c == '\U{212A}' && d == 'k') || (c == '\U{0130}' && d == 'i')
  }

  /** `r` is `w` in lower case, and no character of `w` is refused. */
  ghost predicate FoldsTo(w: string, r: string) {
    |r| == |w| && forall i :: 0 <= i < |w| ==> Folds(w[i], r[i])
  }

  ghost predicate Blank(s: string) {
    forall i :: 0 <= i < |s| ==> Space(s[i])
  }

  lemma {:induction false} TrimmedAround(before: string, w: string, after: string)
    requires Blank(before) && Blank(after) && (w == "" || (!Space(w[0]) && !Space(w[|w|-1])))
    ensures Trimmed(before + w + after) == w
    decreases |before| + |after|
  {
    var all := before + w + after;
    if before != [] {
      assert all[1..] == before[1..] + w + after;
      TrimmedAround(before[1..], w, after);
    } else if after != [] {
      if w == "" {
        assert all[1..] == before + w + after[1..] && all[0] == after[0];
        TrimmedAround(before, w, after[1..]);
      } else {
        assert all[0] == w[0] && all[..|all|-1] == before + w + after[..|after|-1];
        TrimmedAround(before, w, after[..|after|-1]);
      }
    } else {
      assert all == w;
    }
  }

  predicate Foldable(c: char) {
    'a' <= c <= 'z' || '0' <= c <= '9' || c == '-' || c == '_' || 'A' <= c <= 'Z' || c == '\U{212A}' || c == '\U{0130}'
  }

  lemma LangAround(before: string, w: string, after: string)
    requires Blank(before) && Blank(after) && (w == "" || (!Space(w[0]) && !Space(w[|w|-1])))
    ensures Lang(before + w + after) == if IsLang(Lowered(w)) then Lowered(w) else "en"
  {
    assert Lowered(before + w + after) == Lowered(before) + Lowered(w) + Lowered(after);
    assert Blank(Lowered(before)) && Blank(Lowered(after));
    assert w != "" ==> !Space(Lower(w[0])) && !Space(Lower(w[|w|-1]));
    TrimmedAround(Lowered(before), Lowered(w), Lowered(after));
  }

  /** The language a name stands for, with white space around it: its lower-case form if every character folds to a
      lower-case letter, a digit, `-` or `_`, and "en" in every other case, the empty name included. */
  lemma LangExactly(before: string, w: string, after: string)
    requires Blank(before) && Blank(after) && (w == "" || (!Space(w[0]) && !Space(w[|w|-1])))
    ensures var r := Lang(before + w + after);
      if w != "" && forall i :: 0 <= i < |w| ==> Foldable(w[i]) then FoldsTo(w, r) else r == "en"
  {
    LangAround(before, w, after);
    assert forall i :: 0 <= i < |w| ==> (Accepted(Lowered(w)[i]) <==> Foldable(w[i]));
    if i :| 0 <= i < |w| && !Foldable(w[i]) { assert !Accepted(Lowered(w)[i]); }
  }

  /* ---- the builders ---- */

  /** A key as its builder is called. */
  datatype Media =
    | Original(id: int, ext: string)
    | Poster(id: int)
    | Sprite(id: int)
    | Master(id: int)
    | Playlist(id: int, flavor: string)
    | SegmentFile(id: int, flavor: string, segment: string)
    | Subtitle(id: int, lang: string)

  function Build(m: Media): string {
    var dir := Join(["entries", Print(m.id)]);
    match m
    case Original(_, ext) => Join([dir, "original." + TrimPrefix(ext, ".")])
    case Poster(_) => Join([dir, "poster.jpg"])
    case Sprite(_) => Join([dir, "sprite.jpg"])
    case Master(_) => Join([dir, "master.m3u8"])
    case Playlist(_, flavor) => Join([Join([dir, "flavors", flavor]), "index.m3u8"])
    case SegmentFile(_, flavor, segment) => Join([Join([dir, "flavors", flavor]), segment])
    case Subtitle(_, lang) => Join([dir, "subs", Lang(lang) + ".vtt"])
  }

  /** The names a caller supplies are single clean path segments. */
  predicate Clean(m: Media) {
    IsInt64(m.id) &&
    match m
    case Original(_, ext) => NoSlash(ext)
    case Playlist(_, flavor) => Segment(flavor)
    case SegmentFile(_, flavor, segment) => Segment(flavor) && Segment(segment)
    case _ => true
  }

  /** The path elements below the entry's directory. */
  function Tail(m: Media): seq<string> {
    match m
    case Original(_, ext) => ["original." + TrimPrefix(ext, ".")]
    case Poster(_) => ["poster.jpg"]
    case Sprite(_) => ["sprite.jpg"]
    case Master(_) => ["master.m3u8"]
    case Playlist(_, flavor) => ["flavors", flavor, "index.m3u8"]
    case SegmentFile(_, flavor, segment) => ["flavors", flavor, segment]
    case Subtitle(_, lang) => ["subs", Lang(lang) + ".vtt"]
  }

  function Parts(m: Media): seq<string> {
    ["entries", Print(m.id)] + Tail(m)
  }

  lemma TailSegments(m: Media)
    requires Clean(m)
    ensures forall i :: 0 <= i < |Tail(m)| ==> Segment(Tail(m)[i])
  {
    match m
    case Original(_, ext) => OriginalSegment(ext);
    case Subtitle(_, lang) => SubtitleSegment(lang);
    case _ =>
  }

  lemma OriginalSegment(ext: string)
    requires NoSlash(ext)
    ensures Segment("original." + TrimPrefix(ext, "."))
  {
    var s := "original." + TrimPrefix(ext, ".");
    assert s[0] == 'o';
  }

  lemma SubtitleSegment(lang: string)
    ensures Segment(Lang(lang) + ".vtt")
  {
    LangIsStable(lang);
    var s := Lang(lang) + ".vtt";
    assert s[0] == Lang(lang)[0] && Accepted(s[0]);
  }

  lemma NestedKept(head: string, b: seq<string>)
    requires head != "" && forall i :: 0 <= i < |b| ==> Segment(b[i])
    ensures NonEmpty([head] + b) == [head] + b
  {
    NonEmptyKeeps(b);
    assert ([head] + b)[1..] == b;
  }

  lemma SegmentsStay(parts: seq<string>)
    requires parts != [] && forall i :: 0 <= i < |parts| ==> Segment(parts[i])
    ensures Normal(Split(Slashed(parts)), []) == parts
  {
    SplitSlashed(parts);
    NormalKeeps(parts, []);
    assert [] + parts == parts;
  }

  /** Joining a joined path with more segments is joining them all. */
  lemma JoinNested(a: seq<string>, b: seq<string>)
    requires a != [] && b != []
    requires forall i :: 0 <= i < |a| ==> Segment(a[i])
    requires forall i :: 0 <= i < |b| ==> Segment(b[i])
    ensures Join([Join(a)] + b) == Slashed(a + b)
  {
    JoinSegments(a);
    SlashedNonEmpty(a);
    NestedKept(Slashed(a), b);
    SlashedNested(a, b);
    SegmentsStay(a + b);
  }

  lemma SlashedNonEmpty(a: seq<string>)
    requires a != [] && Segment(a[0])
    ensures Slashed(a) != ""
  {
  }

  lemma {:induction false} SlashedNested(a: seq<string>, b: seq<string>)
    requires a != [] && b != []
    ensures Slashed([Slashed(a)] + b) == Slashed(a + b)
  {
    SlashedCons(Slashed(a), b);
    if |a| == 1 {
      assert a == [a[0]];
      SlashedCons(a[0], b);
    } else {
      SlashedNested(a[1..], b);
      SlashedCons(Slashed(a[1..]), b);
      assert (a + b)[1..] == a[1..] + b;
      Regroup(a[0], Slashed(a[1..]), Slashed(b));
    }
  }

  lemma SlashedCons(a: string, rest: seq<string>)
    requires rest != []
    ensures Slashed([a] + rest) == a + ['/'] + Slashed(rest)
  {
    assert ([a] + rest)[1..] == rest;
  }

  lemma Regroup(a: string, b: string, c: string)
    ensures (a + ['/'] + b) + ['/'] + c == a + ['/'] + (b + ['/'] + c)
  {
  }

  /** Every builder's key is its elements joined by slashes, and splitting the key gives them back. */
  lemma BuildSplits(m: Media)
    requires Clean(m)
    ensures Build(m) == Slashed(Parts(m)) && Split(Build(m)) == Parts(m)
  {
    if m.Playlist? || m.SegmentFile? { FlavorBuild(m); } else { PlainBuild(m); }
    PartsSegments(m);
    SplitSlashed(Parts(m));
  }

  /** The documented layout of the keys, below `entries/{id}/`. */
  function Layout(m: Media): string {
    match m
    case Original(_, ext) => "original." + (if ext != "" && ext[0] == '.' then ext[1..] else ext)
    case Poster(_) => "poster.jpg"
    case Sprite(_) => "sprite.jpg"
    case Master(_) => "master.m3u8"
    case Playlist(_, flavor) => "flavors/" + flavor + "/" + "index.m3u8"
    case SegmentFile(_, flavor, segment) => "flavors/" + flavor + "/" + segment
    case Subtitle(_, lang) => "subs/" + (Lang(lang) + ".vtt")
  }

  lemma KeyLayout(m: Media)
    requires Clean(m)
    ensures Build(m) == "entries/" + Print(m.id) + "/" + Layout(m)
  {
    BuildSplits(m);
    TailLayout(m);
    EntryPath("entries", Print(m.id), Tail(m));
    EntriesSlash();
  }

  lemma EntriesSlash()
    ensures "entries/" == "entries" + ['/'] && "/" == ['/']
  {
  }

  lemma EntryPath(dir: string, p: string, tail: seq<string>)
    requires tail != []
    ensures Slashed([dir, p] + tail) == dir + ['/'] + p + ['/'] + Slashed(tail)
  {
    SlashedCons(dir, [p] + tail);
    SlashedCons(p, tail);
    assert [dir, p] + tail == [dir] + ([p] + tail);
  }

  lemma TailLayout(m: Media)
    ensures Slashed(Tail(m)) == Layout(m)
  {
    match m
    case Playlist(_, flavor) => FlavorLayout(flavor, "index.m3u8");
    case SegmentFile(_, flavor, segment) => FlavorLayout(flavor, segment);
    case Subtitle(_, lang) => SubtitleLayout(Lang(lang) + ".vtt");
    case _ =>
  }

  lemma FlavorLayout(flavor: string, file: string)
    ensures Slashed(["flavors", flavor, file]) == "flavors/" + flavor + "/" + file
  {
    ThreeSlashed("flavors", flavor, file);
    assert "flavors" + ['/'] + (flavor + ['/'] + file) == "flavors/" + flavor + "/" + file;
  }

  lemma SubtitleLayout(name: string)
    ensures Slashed(["subs", name]) == "subs/" + name
  {
    SlashedCons("subs", [name]);
    assert ["subs"] + [name] == ["subs", name];
    assert "subs" + ['/'] + name == "subs/" + name;
  }

  lemma ThreeSlashed(a: string, b: string, c: string)
    ensures Slashed([a, b, c]) == a + ['/'] + (b + ['/'] + c)
  {
    SlashedCons(a, [b, c]);
    SlashedCons(b, [c]);
    assert [a] + [b, c] == [a, b, c] && [b] + [c] == [b, c];
  }

  lemma PartsSegments(m: Media)
    requires Clean(m)
    ensures forall i :: 0 <= i < |Parts(m)| ==> Segment(Parts(m)[i])
  {
    PrintIsSegment(m.id);
    TailSegments(m);
    assert forall i :: 2 <= i < |Parts(m)| ==> Parts(m)[i] == Tail(m)[i - 2];
  }

  lemma PlainBuild(m: Media)
    requires Clean(m) && !m.Playlist? && !m.SegmentFile?
    ensures Build(m) == Slashed(Parts(m))
  {
    PrintIsSegment(m.id);
    TailSegments(m);
    var dir := ["entries", Print(m.id)];
    JoinNested(dir, Tail(m));
    if m.Subtitle? {
      assert [Join(dir)] + Tail(m) == [Join(dir), "subs", Lang(m.lang) + ".vtt"];
    } else {
      assert [Join(dir)] + Tail(m) == [Join(dir), Tail(m)[0]];
    }
  }

  lemma FlavorBuild(m: Media)
    requires Clean(m) && (m.Playlist? || m.SegmentFile?)
    ensures Build(m) == Slashed(Parts(m))
  {
    PrintIsSegment(m.id);
    TailSegments(m);
    var dir, tail := ["entries", Print(m.id)], Tail(m);
    var inner := ["entries", Print(m.id), "flavors", m.flavor];
    assert dir + ["flavors", m.flavor] == inner;
    JoinNested(dir, ["flavors", m.flavor]);
    assert [Join(dir)] + ["flavors", m.flavor] == [Join(dir), "flavors", m.flavor];
    JoinSegments(inner);
    JoinNested(inner, [tail[2]]);
    assert [Join(inner)] + [tail[2]] == [Join(inner), tail[2]];
    assert inner + [tail[2]] == Parts(m);
  }

  /** EntryIDFromMediaKey. */
  function EntryID(key: string): Option<int> {
    var parts := Split(TrimRight(TrimLeft(key)));
    if |parts| < 2 || parts[0] != "entries" then None else Parse(parts[1])
  }

  lemma {:induction false} SlashedEnds(parts: seq<string>)
    requires parts != [] && forall i :: 0 <= i < |parts| ==> Segment(parts[i])
    ensures var s := Slashed(parts);
      s != [] && s[0] != '/' && s[|s|-1] != '/'
  {
    if |parts| > 1 { SlashedEnds(parts[1..]); }
  }

  /** The parser finds the entry's id in the key of every builder, with or without slashes around it. */
  lemma ParserInvertsBuilders(m: Media, before: string, after: string)
    requires Clean(m)
    requires (forall i :: 0 <= i < |before| ==> before[i] == '/') && (forall i :: 0 <= i < |after| ==> after[i] == '/')
    ensures EntryID(before + Build(m) + after) == Some(m.id)
  {
    BuildSplits(m);
    PrintIsSegment(m.id);
    TailSegments(m);
    SlashedEnds(Parts(m));
    TrimAround(before, Build(m), after);
    PrintParse(m.id);
  }

  ghost predicate AllSlashes(s: string) {
    forall i :: 0 <= i < |s| ==> s[i] == '/'
  }

  /** `key` is a path below the directory of entry `id`, or that directory, with slashes in front. */
  ghost predicate LiesBelow(key: string, before: string, p: string, rest: string, id: int) {
    && AllSlashes(before) && NoSlash(p) && Parse(p) == Some(id) && (rest == "" || rest[0] == '/')
    && key == before + ("entries/" + p + rest)
  }

  lemma {:induction false} TrimLeftOf(s: string) returns (before: string)
    ensures s == before + TrimLeft(s) && AllSlashes(before)
    ensures TrimLeft(s) == "" || TrimLeft(s)[0] != '/'
  {
    if s != [] && s[0] == '/' {
      var b := TrimLeftOf(s[1..]);
      before := ['/'] + b;
      assert s == ['/'] + s[1..];
    } else {
      before := "";
    }
  }

  lemma {:induction false} TrimRightOf(s: string) returns (after: string)
    ensures s == TrimRight(s) + after && AllSlashes(after)
  {
    if s != [] && s[|s|-1] == '/' {
      var a := TrimRightOf(s[..|s|-1]);
      after := a + ['/'];
      assert s == s[..|s|-1] + ['/'];
    } else {
      after := "";
    }
  }

  lemma {:induction false} TrimRightKeeps(a: string, rest: string)
    requires a != "" && a[|a|-1] != '/'
    ensures TrimRight(a + rest) == a + TrimRight(rest)
  {
    if rest == "" {
      assert a + rest == a;
    } else if rest[|rest|-1] == '/' {
      assert (a + rest)[..|a + rest|-1] == a + rest[..|rest|-1];
      TrimRightKeeps(a, rest[..|rest|-1]);
    }
  }

  /** The first element of a path and what follows its slash. */
  lemma {:induction false} SplitHead(t: string) returns (rest: string)
    ensures NoSlash(Split(t)[0])
    ensures |Split(t)| == 1 ==> t == Split(t)[0]
    ensures |Split(t)| > 1 ==> t == Split(t)[0] + ['/'] + rest && Split(rest) == Split(t)[1..]
  {
    if t == [] {
      rest := "";
    } else if t[0] == '/' {
      rest := t[1..];
      assert t == "" + ['/'] + rest;
    } else {
      rest := SplitHead(t[1..]);
      assert t == [t[0]] + t[1..];
    }
  }

  /** Which keys the parser accepts, and with which id: exactly the paths at or below `entries/{id}`. */
  lemma EntryIDExactly(key: string, id: int)
    ensures EntryID(key) == Some(id) <==> exists before, p, rest :: LiesBelow(key, before, p, rest, id)
  {
    if EntryID(key) == Some(id) {
      var before, p, rest := ParsedIsBelow(key, id);
    } else if before, p, rest :| LiesBelow(key, before, p, rest, id) {
      BelowIsParsed(key, before, p, rest, id);
    }
  }

  lemma HeadTwo(t: string) returns (p: string, more: string)
    requires |Split(t)| >= 2 && Split(t)[0] == "entries"
    ensures p == Split(t)[1] && NoSlash(p) && t == "entries/" + p + more && (more == "" || more[0] == '/')
  {
    var tail := SplitHead(t);
    var last := SplitHead(tail);
    p := Split(tail)[0];
    more := if |Split(tail)| == 1 then "" else ['/'] + last;
    assert tail == p + more;
    assert "entries" + ['/'] == "entries/";
  }

  lemma ParsedIsBelow(key: string, id: int) returns (before: string, p: string, rest: string)
    requires EntryID(key) == Some(id)
    ensures LiesBelow(key, before, p, rest, id)
  {
    before := TrimLeftOf(key);
    var left := TrimLeft(key);
    var after := TrimRightOf(left);
    var more;
    p, more := HeadTwo(TrimRight(left));
    rest := more + after;
    assert left == "entries/" + p + rest;
  }

  lemma SplitTwo(dir: string, p: string, r: string)
    requires NoSlash(dir) && NoSlash(p) && (r == "" || r[0] == '/')
    ensures var parts := Split(dir + ['/'] + p + r); |parts| >= 2 && parts[0] == dir && parts[1] == p
  {
    var stem := dir + ['/'] + p;
    SplitOne(dir);
    SplitOne(p);
    SplitAppend(dir, p);
    if r == "" {
      assert stem + r == stem;
    } else {
      assert stem + r == stem + ['/'] + r[1..];
      SplitAppend(stem, r[1..]);
    }
  }

  lemma SplitStem(p: string, r: string)
    requires NoSlash(p) && (r == "" || r[0] == '/')
    ensures var parts := Split("entries/" + p + r); |parts| >= 2 && parts[0] == "entries" && parts[1] == p
  {
    SplitTwo("entries", p, r);
    EntriesSlash();
  }

  lemma TrimStem(before: string, p: string, rest: string) returns (r: string)
    requires AllSlashes(before) && NoSlash(p) && p != "" && (rest == "" || rest[0] == '/')
    ensures TrimRight(TrimLeft(before + ("entries/" + p + rest))) == "entries/" + p + r && (r == "" || r[0] == '/')
  {
    var stem := "entries/" + p;
    assert stem[|stem|-1] == p[|p|-1] && stem[0] == 'e';
    TrimLeftAround(before, stem + rest);
    TrimRightKeeps(stem, rest);
    r := TrimRight(rest);
    var after := TrimRightOf(rest);
    assert r != "" ==> r[0] == rest[0];
  }

  lemma BelowIsParsed(key: string, before: string, p: string, rest: string, id: int)
    requires LiesBelow(key, before, p, rest, id)
    ensures EntryID(key) == Some(id)
  {
    var r := TrimStem(before, p, rest);
    SplitStem(p, r);
  }

  lemma {:induction false} TrimLeftAround(before: string, t: string)
    requires AllSlashes(before) && t != "" && t[0] != '/'
    ensures TrimLeft(before + t) == t
  {
    if before == "" {
      assert before + t == t;
    } else {
      assert (before + t)[1..] == before[1..] + t;
      TrimLeftAround(before[1..], t);
    }
  }

  lemma {:induction false} TrimAround(before: string, s: string, after: string)
    requires s != [] && s[0] != '/' && s[|s|-1] != '/'
    requires (forall i :: 0 <= i < |before| ==> before[i] == '/') && (forall i :: 0 <= i < |after| ==> after[i] == '/')
    ensures TrimRight(TrimLeft(before + s + after)) == s
    decreases |before| + |after|
  {
    var all := before + s + after;
    if before != [] {
      assert all[1..] == before[1..] + s + after;
      TrimAround(before[1..], s, after);
    } else if after != [] {
      assert all == s + after && TrimLeft(all) == all;
      assert all[..|all|-1] == before + s + after[..|after|-1];
      TrimAround(before, s, after[..|after|-1]);
      assert TrimLeft(all[..|all|-1]) == all[..|all|-1];
    } else {
      assert all == s;
    }
  }

  /** Two calls that name the same file: extensions differ by a leading dot, languages by their sanitizing, and
      the playlist is the segment file of that name. */
  function Canonical(m: Media): Media {
    match m
    case Original(id, ext) => Original(id, TrimPrefix(ext, "."))
    case SegmentFile(id, flavor, segment) => if segment == "index.m3u8" then Playlist(id, flavor) else m
    case Subtitle(id, lang) => Subtitle(id, Lang(lang))
    case _ => m
  }

  /** Keys of different entries, kinds or names never coincide. */
  lemma KeysCoincideExactly(a: Media, b: Media)
    requires Clean(a) && Clean(b)
    ensures Build(a) == Build(b) <==> Canonical(a) == Canonical(b)
  {
    BuildSplits(a);
    BuildSplits(b);
    PartsCoincideExactly(a, b);
  }

  lemma PartsCoincideExactly(a: Media, b: Media)
    requires IsInt64(a.id) && IsInt64(b.id)
    ensures Parts(a) == Parts(b) <==> Canonical(a) == Canonical(b)
  {
    if Parts(a) == Parts(b) {
      assert Parts(a)[1] == Print(a.id) && Parts(b)[1] == Print(b.id);
      PrintParse(a.id);
      PrintParse(b.id);
      assert Parts(a)[2..] == Tail(a) && Parts(b)[2..] == Tail(b);
      TailsCoincide(a, b);
    }
  }

  lemma TailsCoincide(a: Media, b: Media)
    requires a.id == b.id && Tail(a) == Tail(b)
    ensures Canonical(a) == Canonical(b)
  {
    assert Tail(a)[0] == Tail(b)[0];
    if |Tail(a)| == 1 {
      assert Tail(a)[0][0] == Tail(b)[0][0];
      if a.Original? {
        var x, y := TrimPrefix(a.ext, "."), TrimPrefix(b.ext, ".");
        assert ("original." + x)[9..] == x && ("original." + y)[9..] == y;
      }
    } else if |Tail(a)| == 2 {
      var x, y := Lang(a.lang), Lang(b.lang);
      assert (x + ".vtt")[..|x|] == x && (y + ".vtt")[..|y|] == y;
      assert Tail(a)[1] == Tail(b)[1];
    } else {
      assert Tail(a)[1] == Tail(b)[1] && Tail(a)[2] == Tail(b)[2];
    }
  }
}
