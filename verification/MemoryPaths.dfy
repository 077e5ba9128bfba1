/** Memory address paths: normalising, taking apart, putting together, and the path of a write. */
module MemoryPaths {
  import opened Prelude

  const ROOT := "/memory"
  const MEMORY := "memory"

  /** The characters that stripping removes. */
  predicate IsSpace(c: char) {
    var k := c as int;
    || 9 <= k <= 13 || 28 <= k <= 32 || k == 0x85 || k == 0xA0 || k == 0x1680
    || 0x2000 <= k <= 0x200A || k == 0x2028 || k == 0x2029 || k == 0x202F || k == 0x205F || k == 0x3000
  }

  function StripLeft(s: string): string {
    if s != "" && IsSpace(s[0]) then StripLeft(s[1..]) else s
  }

  function StripRight(s: string): string {
    if s != "" && IsSpace(s[|s| - 1]) then StripRight(s[..|s| - 1]) else s
  }

  function Strip(s: string): string {
    StripRight(StripLeft(s))
  }

  /** Replace each run of slashes by one. */
  function Collapse(s: string): string {
    if s == "" then ""
    else if |s| >= 2 && s[0] == '/' && s[1] == '/' then Collapse(s[1..])
    else [s[0]] + Collapse(s[1..])
  }

  function TrimSlashes(s: string): string {
    if s != "" && s[|s| - 1] == '/' then TrimSlashes(s[..|s| - 1]) else s
  }

  function Cleaned(path: string): string {
    Collapse(Strip(path))
  }

  function Normalize(path: string): Result<string> {
    if path == "" then Err("empty")
    else
      var cleaned := Cleaned(path);
      if !(ROOT <= cleaned) then Err("root")
      else if cleaned != ROOT && cleaned[|cleaned| - 1] == '/' then Ok(TrimSlashes(cleaned))
      else Ok(cleaned)
  }

  // ---- normal forms -----------------------------------------------------------

  predicate NoDouble(s: string) {
    forall i :: 0 <= i < |s| - 1 ==> !(s[i] == '/' && s[i + 1] == '/')
  }

  /** A normalised path that does not end in white space. */
  predicate Canonical(p: string) {
    ROOT <= p && NoDouble(p) && p[|p| - 1] != '/' && !IsSpace(p[|p| - 1])
  }

  lemma {:induction false} CollapseNoDouble(s: string)
    ensures NoDouble(Collapse(s))
    ensures s != "" ==> Collapse(s) != "" && Collapse(s)[0] == s[0]
    ensures s != "" ==> Collapse(s)[|Collapse(s)| - 1] == s[|s| - 1]
  {
    if s != "" {
      CollapseNoDouble(s[1..]);
      if |s| >= 2 && s[0] == '/' && s[1] == '/' {
      } else {
        var rest := Collapse(s[1..]);
        assert forall i :: 0 < i < |rest| ==> Collapse(s)[i] == rest[i - 1];
      }
    }
  }

  lemma {:induction false} CollapseFixed(s: string)
    requires NoDouble(s)
    ensures Collapse(s) == s
  {
    if s != "" {
      assert forall i :: 0 <= i < |s[1..]| ==> s[1..][i] == s[i + 1];
      CollapseFixed(s[1..]);
    }
  }

  lemma {:induction false} StripRightPrefix(s: string)
    ensures StripRight(s) <= s
    ensures StripRight(s) != "" ==> !IsSpace(StripRight(s)[|StripRight(s)| - 1])
    ensures StripRight(s) == s <==> s == "" || !IsSpace(s[|s| - 1])
    ensures forall i :: |StripRight(s)| <= i < |s| ==> IsSpace(s[i])
  {
    if s != "" && IsSpace(s[|s| - 1]) {
      StripRightPrefix(s[..|s| - 1]);
    }
  }

  lemma TrimOne(s: string)
    requires NoDouble(s) && |s| >= 2 && s[|s| - 1] == '/'
    ensures TrimSlashes(s) == s[..|s| - 1]
  {
    var t := s[..|s| - 1];
    assert t[|t| - 1] == s[|s| - 2];
  }

  lemma CanonicalFixed(p: string)
    requires Canonical(p)
    ensures Normalize(p) == Ok(p)
  {
    assert p[0] == ROOT[0] == '/';
    StripRightPrefix(p);
    CollapseFixed(p);
  }

  /** What normalising yields: rooted, no double slash, no trailing slash. */
  lemma NormalShape(path: string)
    requires Normalize(path).Ok?
    ensures var q := Normalize(path).value; ROOT <= q && NoDouble(q) && q[|q| - 1] != '/'
  {
    var c := Cleaned(path);
    CollapseNoDouble(Strip(path));
    if c != ROOT && c[|c| - 1] == '/' {
      TrimOne(c);
    }
  }

  /** After cleaning, the path ends in a slash that follows white space. */
  predicate SpaceBeforeSlash(path: string) {
    var c := Cleaned(path);
    |c| >= 2 && c[|c| - 1] == '/' && IsSpace(c[|c| - 2])
  }

  lemma StripEnds(path: string)
    ensures Strip(path) != "" ==> !IsSpace(Strip(path)[|Strip(path)| - 1])
  {
    StripRightPrefix(StripLeft(path));
  }

  /** Normalising ends in white space exactly when a trailing slash hid it. */
  lemma EndsInSpaceIff(path: string)
    requires Normalize(path).Ok?
    ensures var q := Normalize(path).value;
            q != "" && (IsSpace(q[|q| - 1]) <==> SpaceBeforeSlash(path))
  {
    var c := Cleaned(path);
    CollapseNoDouble(Strip(path));
    StripEnds(path);
    if c != ROOT && c[|c| - 1] == '/' {
      TrimOne(c);
    }
  }

  lemma {:induction false} NormalizeShortens(q: string)
    requires ROOT <= q && NoDouble(q) && IsSpace(q[|q| - 1])
    ensures Normalize(q).Ok? ==> |Normalize(q).value| < |q|
  {
    StripRightPrefix(q);
    var t := StripRight(q);
    CleanedRooted(q);
    if t != ROOT && t != "" && t[|t| - 1] == '/' && |t| >= 2 {
      TrimOne(t);
    }
  }

  /** Normalising is idempotent on a path exactly when cleaning does not leave white space before a
      trailing slash; in particular on every path without white space. */
  lemma IdempotentIff(path: string)
    requires Normalize(path).Ok?
    ensures Normalize(Normalize(path).value) == Normalize(path) <==> !SpaceBeforeSlash(path)
  {
    var q := Normalize(path).value;
    NormalShape(path);
    EndsInSpaceIff(path);
    if SpaceBeforeSlash(path) {
      NormalizeShortens(q);
    } else {
      CanonicalFixed(q);
    }
  }

  // ---- splitting and joining -----------------------------------------------------

  predicate SlashFree(s: string) {
    '/' !in s
  }

  function Split(s: string): (r: seq<string>)
    ensures |r| >= 1
    ensures forall i :: 0 <= i < |r| ==> SlashFree(r[i])
  {
    if s == "" then [""]
    else
      var rest := Split(s[1..]);
      if s[0] == '/' then [""] + rest else [[s[0]] + rest[0]] + rest[1..]
  }

  function Join(parts: seq<string>): string
    requires |parts| >= 1
  {
    if |parts| == 1 then parts[0] else parts[0] + "/" + Join(parts[1..])
  }

  lemma JoinLonger(c: char, parts: seq<string>)
    requires |parts| >= 1
    ensures Join([[c] + parts[0]] + parts[1..]) == [c] + Join(parts)
  {
    var longer := [[c] + parts[0]] + parts[1..];
    assert longer[1..] == parts[1..];
    if |parts| > 1 {
      ConcatAssoc([c], parts[0], "/");
      ConcatAssoc([c], parts[0] + "/", Join(parts[1..]));
    }
  }

  lemma {:induction false} JoinSplit(s: string)
    ensures Join(Split(s)) == s
  {
    if s != "" {
      JoinSplit(s[1..]);
      var rest := Split(s[1..]);
      if s[0] == '/' {
        assert ([""] + rest)[1..] == rest;
      } else {
        JoinLonger(s[0], rest);
      }
      assert s == [s[0]] + s[1..];
    }
  }

  lemma {:induction false} SplitPlain(s: string)
    requires SlashFree(s)
    ensures Split(s) == [s]
  {
    if s != "" {
      SplitPlain(s[1..]);
      assert s == [s[0]] + s[1..];
    }
  }

  lemma {:induction false} SplitFirst(part: string, rest: string)
    requires SlashFree(part)
    ensures Split(part + "/" + rest) == [part] + Split(rest)
  {
    var s := part + "/" + rest;
    if part == "" {
      assert s == "/" + rest;
      assert s[1..] == rest;
    } else {
      assert s[1..] == part[1..] + "/" + rest;
      SplitFirst(part[1..], rest);
      assert part == [part[0]] + part[1..];
    }
  }

  /** Splitting undoes joining of slash-free parts. */
  lemma {:induction false} SplitJoin(parts: seq<string>)
    requires |parts| >= 1 && forall i :: 0 <= i < |parts| ==> SlashFree(parts[i])
    ensures Split(Join(parts)) == parts
  {
    if |parts| == 1 {
      SplitPlain(parts[0]);
    } else {
      SplitJoin(parts[1..]);
      SplitFirst(parts[0], Join(parts[1..]));
      assert parts == [parts[0]] + parts[1..];
    }
  }

  lemma {:induction false} SplitConcat(a: string, b: string)
    ensures Split(a + "/" + b) == Split(a) + Split(b)
  {
    var s := a + "/" + b;
    if a == "" {
      assert s[1..] == b;
    } else {
      assert s[1..] == a[1..] + "/" + b;
      SplitConcat(a[1..], b);
    }
  }

  // ---- what normalising keeps ------------------------------------------------------------

  function NonEmptyOf(parts: seq<string>): seq<string> {
    if parts == [] then [] else (if parts[0] != "" then [parts[0]] else []) + NonEmptyOf(parts[1..])
  }

  /** The segments of a path, empty ones aside. */
  function Segments(s: string): seq<string> {
    NonEmptyOf(Split(s))
  }

  lemma {:induction false} NonEmptyConcat(a: seq<string>, b: seq<string>)
    ensures NonEmptyOf(a + b) == NonEmptyOf(a) + NonEmptyOf(b)
  {
    if a == [] {
      assert a + b == b;
    } else {
      assert (a + b)[1..] == a[1..] + b;
      NonEmptyConcat(a[1..], b);
    }
  }

  lemma {:induction false} CollapseKeepsSegments(s: string)
    ensures Split(Collapse(s))[0] == Split(s)[0]
    ensures NonEmptyOf(Split(Collapse(s))[1..]) == NonEmptyOf(Split(s)[1..])
  {
    if s != "" {
      var rest := Split(s[1..]);
      CollapseKeepsSegments(s[1..]);
      if |s| >= 2 && s[0] == '/' && s[1] == '/' {
        assert Split(s)[1..] == rest && rest[0] == "";
      } else {
        var after := Split(Collapse(s[1..]));
        assert ([s[0]] + Collapse(s[1..]))[1..] == Collapse(s[1..]);
        if s[0] == '/' {
          assert Split(s)[1..] == rest && Split(Collapse(s))[1..] == after;
        } else {
          assert Split(s)[1..] == rest[1..] && Split(Collapse(s))[1..] == after[1..];
        }
      }
    }
  }

  lemma {:induction false} TrimKeepsSegments(s: string)
    ensures Segments(TrimSlashes(s)) == Segments(s)
  {
    if s != "" && s[|s| - 1] == '/' {
      var front := s[..|s| - 1];
      TrimKeepsSegments(front);
      assert s == front + "/" + "";
      SplitConcat(front, "");
      NonEmptyConcat(Split(front), [""]);
    }
  }

  /** Normalising keeps the segments of the path and their order; only surrounding white space and
      empty segments go. */
  lemma NormalizeKeepsSegments(path: string)
    requires Normalize(path).Ok?
    ensures Segments(Normalize(path).value) == Segments(Strip(path))
  {
    CollapseKeepsSegments(Strip(path));
    TrimKeepsSegments(Cleaned(path));
  }

  predicate AllSpace(s: string) {
    forall i :: 0 <= i < |s| ==> IsSpace(s[i])
  }

  /** Stripping takes white space off both ends and nothing else. */
  lemma StripTakesSpace(s: string) returns (left: string, right: string)
    ensures s == left + Strip(s) + right && AllSpace(left) && AllSpace(right)
    ensures Strip(s) != "" ==> !IsSpace(Strip(s)[0]) && !IsSpace(Strip(s)[|Strip(s)| - 1])
  {
    left := LeftSpace(s);
    var t := StripLeft(s);
    StripRightPrefix(t);
    right := t[|StripRight(t)|..];
    assert t == StripRight(t) + right;
  }

  /** Blanks, tabs and line ends are white space; slashes, letters, digits, dashes and underscores are not. */
  lemma Spaces(c: char)
    ensures c in {' ', '\t', '\n', '\r'} ==> IsSpace(c)
    ensures c in {'/', '-', '_', '.', '*'} || 'a' <= c <= 'z' || 'A' <= c <= 'Z' || '0' <= c <= '9' ==> !IsSpace(c)
  {
  }

  lemma {:induction false} LeftSpace(s: string) returns (left: string)
    ensures s == left + StripLeft(s) && AllSpace(left)
    ensures StripLeft(s) != "" ==> !IsSpace(StripLeft(s)[0])
  {
    left := "";
    if s != "" && IsSpace(s[0]) {
      var more := LeftSpace(s[1..]);
      left := [s[0]] + more;
      assert s == [s[0]] + s[1..];
    }
  }

  function DropSlashes(s: string): string {
    if s != "" && s[0] == '/' then DropSlashes(s[1..]) else s
  }

  lemma {:induction false} CollapsePrefixIff(a: string, s: string)
    requires SlashFree(a)
    ensures a <= Collapse(s) <==> a <= s
  {
    if a != "" && s != "" && s[0] == a[0] {
      CollapsePrefixIff(a[1..], s[1..]);
      assert Collapse(s) == [s[0]] + Collapse(s[1..]);
      assert a == [a[0]] + a[1..] && s == [s[0]] + s[1..];
      assert Collapse(s)[1..] == Collapse(s[1..]);
    } else if s != "" {
      CollapseNoDouble(s);
    }
  }

  lemma {:induction false} CollapseLead(s: string)
    requires s != "" && s[0] == '/'
    ensures Collapse(s) == "/" + Collapse(DropSlashes(s))
  {
    if |s| >= 2 && s[1] == '/' {
      CollapseLead(s[1..]);
    } else {
      assert DropSlashes(s) == s[1..];
    }
  }

  /** A path is accepted exactly when, white space aside, it starts with slashes and "memory"; what
      follows "memory" is not looked at. */
  lemma NormalizesIff(path: string)
    ensures Normalize(path).Ok? <==>
              Strip(path) != "" && Strip(path)[0] == '/' && "memory" <= DropSlashes(Strip(path))
  {
    var s := Strip(path);
    if s != "" && s[0] == '/' {
      CollapseLead(s);
      CollapsePrefixIff("memory", DropSlashes(s));
      assert ROOT == "/" + "memory";
      assert Collapse(s)[1..] == Collapse(DropSlashes(s));
      assert ROOT <= Collapse(s) <==> "memory" <= Collapse(DropSlashes(s)) by {
        if "memory" <= Collapse(DropSlashes(s)) {
          assert forall i :: 0 <= i < |ROOT| ==> Collapse(s)[i] == ROOT[i];
        }
        if ROOT <= Collapse(s) {
          assert ROOT[1..] == "memory";
          assert forall i :: 0 <= i < 6 ==> Collapse(DropSlashes(s))[i] == Collapse(s)[i + 1];
        }
      }
    } else if s != "" {
      CollapseNoDouble(s);
    }
    if path == "" {
      assert s == "";
    }
  }

  // ---- parsing and building ----------------------------------------------------------

  datatype Parts = Parts(tenant: string, namespace: string, addrType: string, nodeId: string)

  function Segment(segs: seq<string>, i: nat): string {
    if i < |segs| then segs[i] else ""
  }

  function PartsOf(segs: seq<string>): Parts {
    Parts(Segment(segs, 2), Segment(segs, 3), Segment(segs, 4), Segment(segs, 5))
  }

  /** An empty component stands for an absent one. */
  function Parse(path: string): Result<Parts> {
    match Normalize(path)
    case Err(e) => Err(e)
    case Ok(p) =>
      var segs := Split(p);
      Ok(PartsOf(segs))
  }

  function Build(c: Parts): Result<string> {
    if c.tenant == "" then Err("tenant_id is required")
    else if c.addrType != "" && c.namespace == "" then Err("addr_type requires namespace")
    else if c.nodeId != "" && (c.namespace == "" || c.addrType == "") then Err("node_id requires namespace and addr_type")
    else Ok(Join([ROOT] + Components(c)))
  }

  /** The components present, in order. */
  function Components(c: Parts): seq<string> {
    [c.tenant]
    + (if c.namespace != "" then [c.namespace] else [])
    + (if c.addrType != "" then [c.addrType] else [])
    + (if c.nodeId != "" then [c.nodeId] else [])
  }

  predicate Buildable(c: Parts) {
    Build(c).Ok?
  }

  /** A path can be built exactly when there is a tenant and no component is given without all those
      before it. */
  lemma BuildsIff(c: Parts)
    ensures Build(c).Ok? <==>
              var cs := [c.tenant, c.namespace, c.addrType, c.nodeId];
              c.tenant != "" && forall i, j :: 0 <= i < j < 4 && cs[j] != "" ==> cs[i] != ""
  {
    var cs := [c.tenant, c.namespace, c.addrType, c.nodeId];
    assert cs[0] == c.tenant && cs[1] == c.namespace && cs[2] == c.addrType && cs[3] == c.nodeId;
  }

  function Last(c: Parts): string {
    Components(c)[|Components(c)| - 1]
  }

  /** Slash-free components, the last of which does not end in white space. */
  predicate Plain(c: Parts) {
    && AllSlashFree(c)
    && (Last(c) != "" ==> !IsSpace(Last(c)[|Last(c)| - 1]))
  }

  lemma {:induction false} JoinedShape(first: string, parts: seq<string>)
    requires |parts| >= 1 && first != "" && first[|first| - 1] != '/' && NoDouble(first)
    requires forall i :: 0 <= i < |parts| ==> parts[i] != "" && SlashFree(parts[i])
    ensures var s := Join([first] + parts);
            && first <= s && |s| > |first| && s[|first|] == '/'
            && NoDouble(s) && s[|s| - 1] == parts[|parts| - 1][|parts[|parts| - 1]| - 1]
    decreases |parts|
  {
    var s := Join([first] + parts);
    assert ([first] + parts)[1..] == parts;
    assert s == first + "/" + Join(parts);
    if |parts| == 1 {
      var p := parts[0];
      assert s == first + "/" + p;
    } else {
      assert parts == [parts[0]] + parts[1..];
      JoinedShape(parts[0], parts[1..]);
      var t := Join(parts);
      assert t[0] == parts[0][0] != '/';
      forall i | 0 <= i < |s| - 1 ensures !(s[i] == '/' && s[i + 1] == '/') {
        if i > |first| {
          assert s[i] == t[i - |first| - 1] && s[i + 1] == t[i - |first|];
        }
      }
    }
  }

  predicate AllSlashFree(c: Parts) {
    SlashFree(c.tenant) && SlashFree(c.namespace) && SlashFree(c.addrType) && SlashFree(c.nodeId)
  }

  lemma RootedSplits(rest: string)
    ensures Split(ROOT + "/" + rest) == ["", MEMORY] + Split(rest)
  {
    assert ROOT + "/" + rest == "" + "/" + (MEMORY + "/" + rest);
    SplitFirst("", MEMORY + "/" + rest);
    SplitFirst(MEMORY, rest);
    assert [""] + ([MEMORY] + Split(rest)) == ["", MEMORY] + Split(rest);
  }

  predicate NonEmptySlashFree(cs: seq<string>) {
    cs != [] && forall i :: 0 <= i < |cs| ==> SlashFree(cs[i])
  }

  lemma RootedJoin(cs: seq<string>)
    requires NonEmptySlashFree(cs)
    ensures Split(Join([ROOT] + cs)) == ["", MEMORY] + cs
  {
    SplitJoin(cs);
    assert ([ROOT] + cs)[1..] == cs;
    RootedSplits(Join(cs));
  }

  lemma BuiltSplits(c: Parts)
    requires Buildable(c) && AllSlashFree(c)
    ensures Split(Build(c).value) == ["", MEMORY] + Components(c)
  {
    var cs := Components(c);
    assert NonEmptySlashFree(cs);
    RootedJoin(cs);
  }

  lemma BuiltShape(c: Parts)
    requires Buildable(c) && Plain(c)
    ensures Canonical(Build(c).value)
    ensures Split(Build(c).value) == ["", MEMORY] + Components(c)
  {
    JoinedShape(ROOT, Components(c));
    BuiltSplits(c);
  }

  /** Building and parsing back gives the components. */
  lemma ParseBuilt(c: Parts)
    requires Buildable(c) && Plain(c)
    ensures Parse(Build(c).value) == Ok(c)
  {
    BuiltShape(c);
    CanonicalFixed(Build(c).value);
  }

  /** A component with a slash never comes back. */
  lemma ParsedAreSlashFree(path: string)
    requires Parse(path).Ok?
    ensures AllSlashFree(Parse(path).value)
  {
  }

  // ---- when parsing does not undo building -------------------------------------------

  lemma {:induction false} FirstSegmentKeeps(a: string, r: string)
    requires SlashFree(a)
    ensures a <= Split(a + r)[0]
  {
    if a != "" {
      assert (a + r)[1..] == a[1..] + r;
      FirstSegmentKeeps(a[1..], r);
      assert a == [a[0]] + a[1..];
    }
  }

  lemma {:induction false} JoinTwo(a: seq<string>, b: seq<string>)
    requires |a| >= 1 && |b| >= 1
    ensures Join(a + b) == Join(a) + "/" + Join(b)
  {
    if |a| == 1 {
      assert a + b == [a[0]] + b;
      assert ([a[0]] + b)[1..] == b;
    } else {
      assert (a + b)[1..] == a[1..] + b;
      JoinTwo(a[1..], b);
      assert Join(a + b) == a[0] + "/" + Join(a[1..] + b);
    }
  }

  lemma PrefixJoinsShorter(segs: seq<string>, k: nat)
    requires 1 <= k <= |segs|
    ensures |Join(segs[..k])| <= |Join(segs)|
  {
    if k < |segs| {
      assert segs == segs[..k] + segs[k..];
      JoinTwo(segs[..k], segs[k..]);
    } else {
      assert segs[..k] == segs;
    }
  }

  /** A normalised path whose segments include the components is at least as long as the built one. */
  lemma AtLeastAsLong(q: string, c: Parts)
    requires ROOT <= q && Buildable(c)
    requires var segs := Split(q);
             |segs| >= 2 + |Components(c)| && segs[2..2 + |Components(c)|] == Components(c)
    ensures |q| >= |Build(c).value|
  {
    var segs, n := Split(q), |Components(c)|;
    JoinSplit(q);
    assert q == "" + "/" + (MEMORY + q[|ROOT|..]);
    SplitFirst("", MEMORY + q[|ROOT|..]);
    FirstSegmentKeeps(MEMORY, q[|ROOT|..]);
    assert |segs[1]| >= |MEMORY|;
    PrefixJoinsShorter(segs, 2 + n);
    assert segs[..2 + n] == segs[..2] + Components(c);
    JoinTwo(segs[..2], Components(c));
    assert segs[..2] == ["", segs[1]];
    assert ["", segs[1]][1..] == [segs[1]];
    assert Join(segs[..2]) == "" + "/" + segs[1];
    JoinTwo([ROOT], Components(c));
  }

  /** Segments that read back as the components contain them in place. */
  lemma SegmentsAreComponents(segs: seq<string>, c: Parts)
    requires Buildable(c)
    requires PartsOf(segs) == c
    ensures |segs| >= 2 + |Components(c)| && segs[2..2 + |Components(c)|] == Components(c)
  {
  }

  /** White space at the end of the last component is stripped, so it does not come back. */
  lemma TrailingSpaceLost(c: Parts)
    requires Buildable(c) && AllSlashFree(c) && IsSpace(Last(c)[|Last(c)| - 1])
    ensures Parse(Build(c).value) != Ok(c)
  {
    var p := Build(c).value;
    JoinedShape(ROOT, Components(c));
    NormalizeShortens(p);
    if Parse(p) == Ok(c) {
      var q := Normalize(p).value;
      NormalShape(p);
      SegmentsAreComponents(Split(q), c);
      AtLeastAsLong(q, c);
    }
  }

  /** Parsing gives the components back exactly when they are slash-free and the last one does not
      end in white space. */
  lemma ParseBuiltIff(c: Parts)
    requires Buildable(c)
    ensures Parse(Build(c).value) == Ok(c) <==> Plain(c)
  {
    if Plain(c) {
      ParseBuilt(c);
    } else if AllSlashFree(c) {
      TrailingSpaceLost(c);
    } else if Parse(Build(c).value) == Ok(c) {
      ParsedAreSlashFree(Build(c).value);
    }
  }

  lemma {:induction false} NoEmptySegment(s: string, i: nat)
    requires s != "" && NoDouble(s) && s[|s| - 1] != '/' && i < |Split(s)|
    ensures Split(s)[i] == "" ==> i == 0 && s[0] == '/'
  {
    var t := s[1..];
    if t != "" {
      assert forall k :: 0 <= k < |t| ==> t[k] == s[k + 1];
      if s[0] == '/' {
        if i > 0 {
          NoEmptySegment(t, i - 1);
        }
      } else if i > 0 {
        NoEmptySegment(t, i);
      }
    }
  }

  function Upto6(n: nat): nat {
    if n > 6 then 6 else n
  }

  lemma SegmentsBuildable(segs: seq<string>)
    requires |segs| >= 3 && forall i :: 2 <= i < |segs| ==> segs[i] != ""
    ensures Buildable(PartsOf(segs)) && Components(PartsOf(segs)) == segs[2..Upto6(|segs|)]
  {
    var c := PartsOf(segs);
    assert c.tenant == segs[2];
    if |segs| == 3 {
      assert Components(c) == [segs[2]];
    } else if |segs| == 4 {
      assert Components(c) == [segs[2], segs[3]];
    } else if |segs| == 5 {
      assert Components(c) == [segs[2], segs[3], segs[4]];
    } else {
      assert Components(c) == [segs[2], segs[3], segs[4], segs[5]];
    }
  }

  /** The segments of a normalised path, read back as components. */
  lemma ParsedBuildable(path: string)
    requires Parse(path).Ok? && |Split(Normalize(path).value)| >= 3
    ensures Buildable(Parse(path).value)
    ensures var segs := Split(Normalize(path).value);
            Components(Parse(path).value) == segs[2..Upto6(|segs|)]
  {
    var q := Normalize(path).value;
    var segs := Split(q);
    NormalShape(path);
    forall i | 2 <= i < |segs| ensures segs[i] != "" {
      NoEmptySegment(q, i);
    }
    SegmentsBuildable(segs);
    assert Parse(path).value == PartsOf(segs);
  }

  lemma BuiltFromRoot(c: Parts, q: string)
    requires Buildable(c) && Split(q) == ["", MEMORY] + Components(c)
    ensures Build(c) == Ok(q)
  {
    JoinSplit(q);
    JoinTwo(["", MEMORY], Components(c));
    assert ["", MEMORY][1..] == [MEMORY];
    assert Join(["", MEMORY]) == "" + "/" + MEMORY == ROOT;
    JoinTwo([ROOT], Components(c));
    assert Join([ROOT]) == ROOT;
  }

  lemma BuiltIsPathIff(c: Parts, q: string)
    requires Buildable(c) && AllSlashFree(c)
    requires var segs := Split(q);
             |segs| >= 3 && segs[0] == "" && Components(c) == segs[2..Upto6(|segs|)]
    ensures Build(c) == Ok(q) <==> |Split(q)| <= 6 && Split(q)[1] == MEMORY
  {
    var segs := Split(q);
    BuiltSplits(c);
    if |segs| <= 6 && segs[1] == MEMORY {
      assert segs == ["", MEMORY] + segs[2..];
      BuiltFromRoot(c, q);
    }
  }

  /** Building what was parsed gives the normalised path exactly when it lies in the memory root
      proper, has a tenant, and has at most four components. */
  lemma BuildParsedIff(path: string)
    requires Parse(path).Ok?
    ensures var q := Normalize(path).value;
            Build(Parse(path).value) == Ok(q) <==> 3 <= |Split(q)| <= 6 && Split(q)[1] == MEMORY
  {
    var q, c := Normalize(path).value, Parse(path).value;
    var segs := Split(q);
    NormalShape(path);
    assert q == "" + "/" + q[1..];
    SplitFirst("", q[1..]);
    if |segs| >= 3 {
      ParsedBuildable(path);
      ParsedAreSlashFree(path);
      BuiltIsPathIff(c, q);
    }
  }

  // ---- the path of a write ----------------------------------------------------------

  /** A write payload; empty strings stand for absent fields. */
  datatype Payload = Payload(path: string, namespace: string, addrType: string, nodeType: string)

  const GENERAL := "general"

  function Or(s: string, default: string): string {
    if s != "" then s else default
  }

  predicate UnderTenant(path: string, tenant: string) {
    ROOT + "/" + tenant + "/" <= path || path == ROOT + "/" + tenant
  }

  datatype Written = Written(path: string, namespace: string, addrType: string)

  function Generated(tenant: string, namespace: string, addrType: string, uuid: string): Result<Written> {
    match Build(Parts(tenant, namespace, addrType, uuid))
    case Err(e) => Err(e)
    case Ok(p) => Ok(Written(p, namespace, addrType))
  }

  /** The path of a write: the payload's own when it names a node, else one generated under its
      namespace and type. The payload's path must lie under the tenant. */
  function PathFromWrite(payload: Payload, tenant: string, uuid: string): Result<Written> {
    if payload.path != "" then
      match Normalize(payload.path)
      case Err(e) => Err(e)
      case Ok(raw) =>
        if !UnderTenant(raw, tenant) then Err("TENANT_VIOLATION")
        else
          match Parse(raw)
          case Err(e) => Err(e)
          case Ok(parsed) =>
            var namespace := Or(parsed.namespace, GENERAL);
            var addrType := Or(parsed.addrType, payload.nodeType);
            if parsed.nodeId != "" then Ok(Written(raw, namespace, addrType))
            else Generated(tenant, namespace, addrType, uuid)
    else Generated(tenant, Or(payload.namespace, GENERAL), Or(payload.addrType, payload.nodeType), uuid)
  }

  /** A component that survives at the end of a path. */
  predicate Clean(s: string) {
    s != "" && SlashFree(s) && !IsSpace(s[|s| - 1])
  }

  lemma GeneratedUnderTenant(tenant: string, namespace: string, addrType: string, uuid: string)
    requires uuid != "" && Generated(tenant, namespace, addrType, uuid).Ok?
    ensures ROOT + "/" + tenant + "/" <= Generated(tenant, namespace, addrType, uuid).value.path
  {
    var c := Parts(tenant, namespace, addrType, uuid);
    assert Components(c) == [tenant, namespace, addrType, uuid];
    var rest := Join(Components(c)[1..]);
    JoinTwo([ROOT], Components(c));
    assert Join(Components(c)) == tenant + "/" + rest;
    assert Join([ROOT]) == ROOT;
    assert Build(c).value == ROOT + "/" + tenant + "/" + rest;
  }

  lemma GeneratedPath(tenant: string, namespace: string, addrType: string, uuid: string)
    requires uuid != "" && Generated(tenant, namespace, addrType, uuid).Ok?
    ensures Generated(tenant, namespace, addrType, uuid).value
         == Written(Join(["/memory", tenant, namespace, addrType, uuid]), namespace, addrType)
  {
    var c := Parts(tenant, namespace, addrType, uuid);
    assert [ROOT] + Components(c) == ["/memory", tenant, namespace, addrType, uuid];
  }

  /** Where a write without a path goes: under the tenant, the payload's namespace or "general", and
      the payload's type or its node type, with a fresh id. */
  lemma PathlessWrite(payload: Payload, tenant: string, uuid: string)
    requires payload.path == "" && uuid != "" && PathFromWrite(payload, tenant, uuid).Ok?
    ensures var namespace := if payload.namespace != "" then payload.namespace else "general";
            var addrType := if payload.addrType != "" then payload.addrType else payload.nodeType;
            PathFromWrite(payload, tenant, uuid)
              == Ok(Written(Join(["/memory", tenant, namespace, addrType, uuid]), namespace, addrType))
  {
    GeneratedPath(tenant, Or(payload.namespace, GENERAL), Or(payload.addrType, payload.nodeType), uuid);
  }

  /** Where a write with a path goes: namespace and type are its fourth and fifth segments, counting the
      empty one before the first slash, or those defaults; a path that has a sixth is kept, else a fresh
      id is drawn. */
  lemma NamedWrite(payload: Payload, tenant: string, uuid: string)
    requires payload.path != "" && uuid != "" && PathFromWrite(payload, tenant, uuid).Ok?
    ensures Normalize(payload.path).Ok? && Normalize(Normalize(payload.path).value).Ok?
    ensures var raw := Normalize(payload.path).value;
            var segs := Split(Normalize(raw).value);
            var namespace := if |segs| > 3 && segs[3] != "" then segs[3] else "general";
            var addrType := if |segs| > 4 && segs[4] != "" then segs[4] else payload.nodeType;
            PathFromWrite(payload, tenant, uuid)
              == Ok(Written(if |segs| > 5 && segs[5] != "" then raw
                            else Join(["/memory", tenant, namespace, addrType, uuid]), namespace, addrType))
  {
    var parsed := Parse(Normalize(payload.path).value).value;
    if parsed.nodeId == "" {
      GeneratedPath(tenant, Or(parsed.namespace, GENERAL), Or(parsed.addrType, payload.nodeType), uuid);
    }
  }

  lemma RawNormalizes(path: string)
    requires Normalize(path).Ok?
    ensures Normalize(Normalize(path).value).Ok?
  {
    var raw := Normalize(path).value;
    NormalShape(path);
    CleanedRooted(raw);
    StripRightPrefix(raw);
    assert raw[|ROOT| - 1] == ROOT[|ROOT| - 1] == 'y';
    assert |StripRight(raw)| >= |ROOT|;
  }

  /** Exactly which writes are accepted. Without a path: those with a tenant and a type or node type.
      With one: those whose path normalises and lies under the tenant, and either names a node or leaves
      a tenant and a type to generate one under. */
  lemma WriteAcceptedIff(payload: Payload, tenant: string, uuid: string)
    requires uuid != ""
    ensures payload.path == "" ==>
              (PathFromWrite(payload, tenant, uuid).Ok? <==>
                 tenant != "" && (payload.addrType != "" || payload.nodeType != ""))
    ensures payload.path != "" ==>
              (PathFromWrite(payload, tenant, uuid).Ok? <==>
                 && Normalize(payload.path).Ok?
                 && var raw := Normalize(payload.path).value;
                 && (raw == "/memory/" + tenant || "/memory/" + tenant + "/" <= raw)
                 && Normalize(raw).Ok?
                 && var segs := Split(Normalize(raw).value);
                 ((|segs| > 5 && segs[5] != "") ||
                  (tenant != "" && ((|segs| > 4 && segs[4] != "") || payload.nodeType != ""))))
  {
    assert ROOT + "/" == "/memory/";
    if payload.path != "" && Normalize(payload.path).Ok? {
      RawNormalizes(payload.path);
      assert UnderTenant(Normalize(payload.path).value, tenant) <==>
        (Normalize(payload.path).value == "/memory/" + tenant || "/memory/" + tenant + "/" <= Normalize(payload.path).value);
    }
  }

  /** Tenant isolation, for every payload and every tenant: a write is accepted only when the path it
      names, if any, lies under the tenant, and the path it gets lies under the tenant. */
  lemma WriteStaysUnderTenant(payload: Payload, tenant: string, uuid: string)
    requires PathFromWrite(payload, tenant, uuid).Ok? && uuid != ""
    ensures UnderTenant(PathFromWrite(payload, tenant, uuid).value.path, tenant)
    ensures payload.path != "" ==>
              Normalize(payload.path).Ok? && UnderTenant(Normalize(payload.path).value, tenant)
  {
    if payload.path == "" {
      GeneratedUnderTenant(tenant, Or(payload.namespace, GENERAL), Or(payload.addrType, payload.nodeType), uuid);
    } else {
      var parsed := Parse(Normalize(payload.path).value).value;
      if parsed.nodeId == "" {
        GeneratedUnderTenant(tenant, Or(parsed.namespace, GENERAL), Or(parsed.addrType, payload.nodeType), uuid);
      }
    }
  }

  /** A generated path reads back as the components it was made of exactly when they are slash-free. */
  lemma GeneratedReadsBackIff(tenant: string, namespace: string, addrType: string, uuid: string)
    requires Clean(uuid) && Generated(tenant, namespace, addrType, uuid).Ok?
    ensures Parse(Generated(tenant, namespace, addrType, uuid).value.path) == Ok(Parts(tenant, namespace, addrType, uuid))
            <==> SlashFree(tenant) && SlashFree(namespace) && SlashFree(addrType)
  {
    var c := Parts(tenant, namespace, addrType, uuid);
    assert Components(c) == [tenant, namespace, addrType, uuid] && Last(c) == uuid;
    assert Build(c) == Ok(Generated(tenant, namespace, addrType, uuid).value.path);
    ParseBuiltIff(c);
  }

  lemma TenantSegment(raw: string, tenant: string)
    requires SlashFree(tenant) && ROOT + "/" + tenant + "/" <= raw
    ensures |Split(raw)| >= 4 && Split(raw)[2] == tenant
  {
    var rest := raw[|ROOT| + 1 + |tenant| + 1..];
    assert raw == "" + "/" + (MEMORY + "/" + (tenant + "/" + rest));
    SplitFirst("", MEMORY + "/" + (tenant + "/" + rest));
    SplitFirst(MEMORY, tenant + "/" + rest);
    SplitFirst(tenant, rest);
  }

  /** Cleaning a rooted path without double slashes strips white space at its end. */
  lemma CleanedRooted(raw: string)
    requires ROOT <= raw && NoDouble(raw)
    ensures Cleaned(raw) == StripRight(raw) && NoDouble(StripRight(raw))
  {
    assert raw[0] == ROOT[0] == '/';
    assert StripLeft(raw) == raw;
    StripRightPrefix(raw);
    var t := StripRight(raw);
    assert forall i :: 0 <= i < |t| ==> t[i] == raw[i];
    CollapseFixed(t);
  }

  /** Normalising again keeps a directory prefix, or stops right before its slash. */
  lemma NormalizeKeepsPrefix(raw: string, dir: string)
    requires ROOT <= raw && NoDouble(raw) && dir <= raw && |dir| > |ROOT| && dir[|dir| - 1] == '/'
    ensures Normalize(raw).Ok?
    ensures dir <= Normalize(raw).value || Normalize(raw).value == dir[..|dir| - 1]
  {
    assert raw[|dir| - 1] == '/';
    var t := StripRight(raw);
    StripRightPrefix(raw);
    assert |t| >= |dir|;
    CleanedRooted(raw);
    if t[|t| - 1] == '/' {
      TrimOne(t);
    }
  }

  lemma {:induction false} PrefixSplits(a: string, r: string)
    ensures |Split(a)| <= |Split(a + r)|
  {
    if a == "" {
      assert a + r == r;
    } else {
      assert (a + r)[1..] == a[1..] + r;
      PrefixSplits(a[1..], r);
    }
  }

  /** Normalising again only cuts off an end. */
  lemma NormalizeCuts(raw: string)
    requires ROOT <= raw && NoDouble(raw) && Normalize(raw).Ok?
    ensures Normalize(raw).value <= raw && |Split(Normalize(raw).value)| <= |Split(raw)|
  {
    NormalizeIsPrefix(raw);
    var q := Normalize(raw).value;
    assert raw == q + raw[|q|..];
    PrefixSplits(q, raw[|q|..]);
  }

  lemma NormalizeIsPrefix(raw: string)
    requires ROOT <= raw && NoDouble(raw) && Normalize(raw).Ok?
    ensures Normalize(raw).value <= raw
  {
    var t := StripRight(raw);
    StripRightPrefix(raw);
    CleanedRooted(raw);
    if t != ROOT && t[|t| - 1] == '/' {
      TrimOne(t);
      assert t[..|t| - 1] <= raw;
    }
  }

  lemma TenantOnlyIsShort(tenant: string)
    requires SlashFree(tenant)
    ensures |Split(ROOT + "/" + tenant)| == 3
  {
    RootedSplits(tenant);
    SplitPlain(tenant);
  }

  lemma NamedNodeReadsBack(raw: string, tenant: string)
    requires ROOT <= raw && NoDouble(raw) && SlashFree(tenant) && UnderTenant(raw, tenant)
    requires Parse(raw).Ok? && Parse(raw).value.nodeId != ""
    ensures Parse(raw).value.tenant == tenant
    ensures Parse(raw).value.namespace != "" && Parse(raw).value.addrType != ""
  {
    var q := Normalize(raw).value;
    ParsedBuildable(raw);
    TenantOnlyIsShort(tenant);
    NormalizeCuts(raw);
    if raw != ROOT + "/" + tenant {
      var dir := ROOT + "/" + tenant + "/";
      NormalizeKeepsPrefix(raw, dir);
      assert dir[..|dir| - 1] == ROOT + "/" + tenant;
      TenantSegment(q, tenant);
    }
  }

  /** The type segment of a path, empty when it has none. */
  function PathType(path: string): string {
    match Normalize(path)
    case Err(_) => ""
    case Ok(raw) => (match Parse(raw) case Err(_) => "" case Ok(parsed) => parsed.addrType)
  }

  /** The fields of a payload that become segments of the path hold no slash. */
  predicate FieldsSlashFree(payload: Payload) {
    if payload.path == "" then SlashFree(payload.namespace) && SlashFree(Or(payload.addrType, payload.nodeType))
    else PathType(payload.path) != "" || SlashFree(payload.nodeType)
  }

  /** The path reads back as the tenant, namespace and type that were returned, with a node id. */
  predicate ReadsBack(w: Written, tenant: string) {
    && Parse(w.path).Ok? && Parse(w.path).value.nodeId != ""
    && Parse(w.path).value == Parts(tenant, w.namespace, w.addrType, Parse(w.path).value.nodeId)
  }

  lemma ReadBackIsSlashFree(w: Written, tenant: string)
    ensures ReadsBack(w, tenant) ==> SlashFree(tenant) && SlashFree(w.namespace) && SlashFree(w.addrType)
  {
    if ReadsBack(w, tenant) {
      ParsedAreSlashFree(w.path);
    }
  }

  lemma GeneratedIff(w: Written, tenant: string, uuid: string)
    requires Clean(uuid) && Generated(tenant, w.namespace, w.addrType, uuid) == Ok(w)
    ensures ReadsBack(w, tenant) <==> SlashFree(tenant) && SlashFree(w.namespace) && SlashFree(w.addrType)
  {
    GeneratedReadsBackIff(tenant, w.namespace, w.addrType, uuid);
    ReadBackIsSlashFree(w, tenant);
  }

  /** An accepted write reads back exactly when the tenant and the payload's own fields are
      slash-free; whatever path the payload gives does not matter. */
  lemma WriteReadsBackIff(payload: Payload, tenant: string, uuid: string)
    requires Clean(uuid) && PathFromWrite(payload, tenant, uuid).Ok?
    ensures ReadsBack(PathFromWrite(payload, tenant, uuid).value, tenant)
            <==> SlashFree(tenant) && FieldsSlashFree(payload)
  {
    var w := PathFromWrite(payload, tenant, uuid).value;
    if payload.path == "" {
      GeneratedIff(w, tenant, uuid);
    } else {
      var raw := Normalize(payload.path).value;
      NormalShape(payload.path);
      ParsedAreSlashFree(raw);
      if Parse(raw).value.nodeId == "" {
        GeneratedIff(w, tenant, uuid);
      } else {
        ReadBackIsSlashFree(w, tenant);
        if SlashFree(tenant) {
          NamedNodeReadsBack(raw, tenant);
        }
      }
    }
  }

  // ---- the failing cases -------------------------------------------------------------

  /** Normalising twice differs from normalising once on every canonical path that is given with a
      space and a slash behind it. */
  lemma NormalizeNotIdempotent(p: string)
    requires Canonical(p)
    ensures Normalize(p + " /") == Ok(p + " ") && Normalize(p + " ") == Ok(p) && p + " " != p
  {
    SpaceThenSlash(p);
    TrailingSpace(p);
  }

  lemma SpaceThenSlash(p: string)
    requires Canonical(p)
    ensures Normalize(p + " /") == Ok(p + " ")
  {
    var given := p + " /";
    assert given == p + " " + "/" && given[..|given| - 1] == p + " ";
    assert ROOT <= given && NoDouble(given);
    CleanedRooted(given);
    StripRightPrefix(given);
    TrimOne(given);
  }

  lemma TrailingSpace(p: string)
    requires Canonical(p)
    ensures Normalize(p + " ") == Ok(p)
  {
    var given := p + " ";
    assert ROOT <= given && NoDouble(given) && given[..|given| - 1] == p;
    CleanedRooted(given);
    StripRightPrefix(p);
  }

  /** A path beside the memory root, "/memoryX/t" say, is accepted, and building what was parsed from
      it gives a path in the memory root. */
  lemma BesideTheRootIsAccepted(x: string, tenant: string)
    requires x != "" && SlashFree(x) && Clean(tenant)
    ensures var p := ROOT + x + "/" + tenant;
            && Normalize(p) == Ok(p)
            && Parse(p) == Ok(Parts(tenant, "", "", ""))
            && Build(Parts(tenant, "", "", "")) == Ok(ROOT + "/" + tenant) && p != ROOT + "/" + tenant
  {
    var p, c := ROOT + x + "/" + tenant, Parts(tenant, "", "", "");
    assert ROOT == "" + "/" + MEMORY;
    assert p == "" + "/" + (MEMORY + x + "/" + tenant);
    SplitFirst("", MEMORY + x + "/" + tenant);
    SplitFirst(MEMORY + x, tenant);
    SplitPlain(tenant);
    BesideIsCanonical(x, tenant);
    CanonicalFixed(p);
    assert Components(c) == [tenant];
    assert ([ROOT] + [tenant])[1..] == [tenant];
    assert Join([ROOT] + [tenant]) == ROOT + "/" + Join([tenant]);
    assert |p| > |ROOT + "/" + tenant|;
  }

  lemma BesideIsCanonical(x: string, tenant: string)
    requires x != "" && SlashFree(x) && Clean(tenant)
    ensures Canonical(ROOT + x + "/" + tenant)
  {
    assert NoDouble(ROOT + x);
    assert ROOT + x + "/" + tenant == Join([ROOT + x] + [tenant]) by {
      assert ([ROOT + x] + [tenant])[1..] == [tenant];
    }
    JoinedShape(ROOT + x, [tenant]);
  }
}
